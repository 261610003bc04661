/** The todo store contract and its in-memory backend. */
module Db {
  import opened Wrappers
  import Json

  /** A stored todo. `description` is whatever truthy JSON value the POST
      handler let through; the store does not look at it. */
  datatype Todo = Todo(id: string, description: Json.Value, isComplete: bool)

  /** What a caller hands to `createTodo`: a todo without its id. */
  datatype TodoInput = TodoInput(description: Json.Value, isComplete: bool)

  /** Some todo in `todos` carries `id`. */
  predicate HasId(todos: seq<Todo>, id: string)
  {
    exists i :: 0 <= i < |todos| && todos[i].id == id
  }

  /** No two todos in `todos` share an id. */
  predicate UniqueIds(todos: seq<Todo>)
  {
    forall i, j :: 0 <= i < j < |todos| ==> todos[i].id != todos[j].id
  }

  /** Position of the first todo with `id`, or `|todos|` when there is none. */
  function FirstIndex(todos: seq<Todo>, id: string): (k: nat)
    ensures k <= |todos|
    ensures forall j :: 0 <= j < k ==> todos[j].id != id
    ensures k < |todos| ==> todos[k].id == id
  {
    if |todos| == 0 then 0
    else if todos[0].id == id then 0
    else 1 + FirstIndex(todos[1..], id)
  }

  /** `todos.find(todo => todo.id === id) ?? null`: the first todo in list
      order whose id is `id`, or nothing. */
  function Find(todos: seq<Todo>, id: string): (r: Option<Todo>)
    ensures r.None? <==> !HasId(todos, id)
    ensures r.Some? ==> r.value.id == id && r.value in todos
  {
    var k := FirstIndex(todos, id);
    if k < |todos| then Some(todos[k]) else None
  }

  /** The first-match position is the only one with no match before it. */
  lemma FirstIndexUnique(todos: seq<Todo>, id: string, k: nat)
    requires k <= |todos|
    requires forall j :: 0 <= j < k ==> todos[j].id != id
    requires k < |todos| ==> todos[k].id == id
    ensures FirstIndex(todos, id) == k
  {
  }

  /** A lookup in a list grown by one todo: earlier matches win, otherwise the
      new todo is found when it carries the id. */
  lemma FindAppend(todos: seq<Todo>, t: Todo, id: string)
    ensures Find(todos + [t], id) ==
      if HasId(todos, id) then Find(todos, id)
      else if t.id == id then Some(t)
      else None
  {
    var s := todos + [t];
    assert forall j :: 0 <= j < |todos| ==> s[j] == todos[j];
    if HasId(todos, id) {
      FirstIndexUnique(s, id, FirstIndex(todos, id));
    } else if t.id == id {
      FirstIndexUnique(s, id, |todos|);
    } else {
      FirstIndexUnique(s, id, |s|);
    }
  }

  /** A todo appended under an id no earlier todo has is what a lookup of
      that id then returns. */
  lemma CreatedIsFound(todos: seq<Todo>, t: Todo)
    requires !HasId(todos, t.id)
    ensures Find(todos + [t], t.id) == Some(t)
  {
    FindAppend(todos, t, t.id);
  }

  /** In a store with unique ids, looking up any stored todo's id yields
      exactly that todo. */
  lemma FindStored(todos: seq<Todo>, i: nat)
    requires UniqueIds(todos)
    requires i < |todos|
    ensures Find(todos, todos[i].id) == Some(todos[i])
  {
  }

  /** Appending a todo whose id is not yet in the list keeps ids unique. */
  lemma AppendFreshUnique(todos: seq<Todo>, t: Todo)
    requires UniqueIds(todos)
    requires !HasId(todos, t.id)
    ensures UniqueIds(todos + [t])
  {
  }

  /** Stand-in for `uuidv4()`. A random version-4 UUID only makes a clash
      with a stored id unlikely, and `createTodo` does not check for one; the
      model assumes the id is unused. This stand-in meets that assumption by
      returning a string longer than every id in the store. */
  method FreshId(todos: seq<Todo>) returns (id: string)
    ensures !HasId(todos, id)
  {
    var longest: nat := 0;
    var i := 0;
    while i < |todos|
      invariant 0 <= i <= |todos|
      invariant forall j :: 0 <= j < i ==> |todos[j].id| <= longest
    {
      if |todos[i].id| > longest {
        longest := |todos[i].id|;
      }
      i := i + 1;
    }
    id := "";
    while |id| <= longest
      invariant |id| <= longest + 1
      decreases longest + 1 - |id|
    {
      id := id + "0";
    }
  }

  /** `createInMemoryDb()`: a store that owns a growable list of todos. */
  class InMemoryDb {
    /** The captured `todos` array, in insertion order. */
    var todos: seq<Todo>

    /** Every id in the store is distinct. */
    ghost predicate Valid()
      reads this
    {
      UniqueIds(todos)
    }

    /** A new store holds no todos. */
    constructor ()
      ensures Valid()
      ensures todos == []
    {
      todos := [];
    }

    /** `getSingleTodo(id)`: a linear scan for the first todo with `id`. */
    method GetSingleTodo(id: string) returns (r: Option<Todo>)
      ensures r == Find(todos, id)
    {
      var i := 0;
      while i < |todos| && todos[i].id != id
        invariant 0 <= i <= |todos|
        invariant forall j :: 0 <= j < i ==> todos[j].id != id
      {
        i := i + 1;
      }
      FirstIndexUnique(todos, id, i);
      r := if i < |todos| then Some(todos[i]) else None;
    }

    /** `getAllTodos()`: the current list, in insertion order. */
    method GetAllTodos() returns (r: seq<Todo>)
      ensures r == todos
    {
      r := todos;
    }

    /** `createTodo(todo)`: a fresh id, the caller's description and
        `isComplete` forced to false, appended at the end and returned. */
    method CreateTodo(todo: TodoInput) returns (r: Todo)
      requires Valid()
      modifies this
      ensures Valid()
      ensures todos == old(todos) + [r]
      ensures r.description == todo.description && !r.isComplete
      ensures !HasId(old(todos), r.id)
      ensures Find(todos, r.id) == Some(r)
    {
      var id := FreshId(todos);
      r := Todo(id, todo.description, false);
      AppendFreshUnique(todos, r);
      CreatedIsFound(todos, r);
      todos := todos + [r];
    }
  }

  /** A new store after one `createTodo` per input, in order: `getAllTodos`
      returns exactly the created todos, their ids are distinct, each keeps
      its input's description with `isComplete` false, and `getSingleTodo`
      finds each one by its id. */
  method CreateInSequence(inputs: seq<TodoInput>) returns (created: seq<Todo>, all: seq<Todo>)
    ensures |all| == |inputs| && all == created
    ensures UniqueIds(all)
    ensures forall i :: 0 <= i < |created| ==>
      created[i].description == inputs[i].description && !created[i].isComplete
    ensures forall i :: 0 <= i < |created| ==> Find(all, created[i].id) == Some(created[i])
  {
    var db := new InMemoryDb();
    created := [];
    var n := 0;
    while n < |inputs|
      invariant 0 <= n <= |inputs|
      invariant db.Valid() && db.todos == created && |created| == n
      invariant forall i :: 0 <= i < n ==>
        created[i].description == inputs[i].description && !created[i].isComplete
    {
      var t := db.CreateTodo(inputs[n]);
      created := created + [t];
      n := n + 1;
    }
    all := db.GetAllTodos();
    forall i | 0 <= i < |created| ensures Find(all, created[i].id) == Some(created[i]) {
      FindStored(all, i);
    }
  }
}
