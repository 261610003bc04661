/** The route handlers of `createTodosApp`, without Express: each handler is
    a method over the in-memory store that returns the status and body it
    would send. */
module App {
  import opened Wrappers
  import Json
  import Db

  /** Status codes of RFC 9110: 200 OK (section 15.3.1), 201 Created
      (section 15.3.2), 400 Bad Request (section 15.5.1) and 404 Not Found
      (section 15.5.5). */
  const OK: int := 200
  const CREATED: int := 201
  const BAD_REQUEST: int := 400
  const NOT_FOUND: int := 404

  const TodoNotFound: string := "Todo not found"
  const MissingFields: string := "Please provide description, and isComplete fields"

  /** What a handler sends as its body. */
  datatype Body =
    | Message(text: string)         // `{ message: text }`
    | One(todo: Db.Todo)            // a single todo as JSON
    | List(todos: seq<Db.Todo>)     // an array of todos as JSON
    | StatusOnly                    // the status line is all that is modelled
    | PendingPromise                // the serialisation of an un-awaited Promise

  datatype Response = Response(status: int, body: Body)

  /** The POST guard `!description || typeof isComplete !== 'boolean'`: a
      request body that passes it yields the `{description, isComplete}`
      handed to `createTodo`; one that fails it yields nothing. */
  function ValidateCreate(body: map<string, Json.Value>): (r: Option<Db.TodoInput>)
    ensures r.None? <==>
      !Json.Truthy(Json.Field(body, "description")) ||
      Json.TypeOf(Json.Field(body, "isComplete")) != "boolean"
    ensures r.Some? ==>
      "description" in body && r.value.description == body["description"] &&
      Json.Field(body, "isComplete") == Some(Json.Bool(r.value.isComplete))
  {
    var description := Json.Field(body, "description");
    var isComplete := Json.Field(body, "isComplete");
    if !Json.Truthy(description) || Json.TypeOf(isComplete) != "boolean" then None
    else Some(Db.TodoInput(description.value, isComplete.value.b))
  }

  /** A create request is accepted exactly when `description` is none of the
      five falsy values and `isComplete` is a JSON boolean. */
  lemma ValidateCreateExactly(body: map<string, Json.Value>)
    ensures ValidateCreate(body).Some? <==>
      Json.Field(body, "description") !in Json.FalsyValues &&
      "isComplete" in body && body["isComplete"].Bool?
  {
  }

  /** A falsy `description` (absent, `null`, `false`, `0` or `""`) is
      rejected whatever `isComplete` is. */
  lemma FalsyDescriptionRejected(body: map<string, Json.Value>)
    requires Json.Field(body, "description") in Json.FalsyValues
    ensures ValidateCreate(body).None?
  {
  }

  /** An `isComplete` that is absent or not a JSON boolean is rejected even
      when `description` is present and truthy. */
  lemma NonBooleanRejected(body: map<string, Json.Value>)
    requires "isComplete" !in body || !body["isComplete"].Bool?
    ensures ValidateCreate(body).None?
  {
  }

  /** The 404/200 choice of `GET /todos/:id` on what the store returned. */
  function LookupResponse(found: Option<Db.Todo>): (r: Response)
    ensures r.status == NOT_FOUND <==> found.None?
    ensures found.None? ==> r.body == Message(TodoNotFound)
    ensures found.Some? ==> r.status == OK && r.body == One(found.value)
  {
    match found
    case None => Response(NOT_FOUND, Message(TodoNotFound))
    case Some(todo) => Response(OK, One(todo))
  }

  /** `GET /ready`: 200 whatever the store holds. */
  method GetReady(db: Db.InMemoryDb) returns (r: Response)
    ensures r.status == OK
  {
    r := Response(OK, StatusOnly);
  }

  /** `GET /todos`: 200 with the store's list as it stands, in insertion
      order; the store is not changed. */
  method GetTodos(db: Db.InMemoryDb) returns (r: Response)
    ensures r == Response(OK, List(db.todos))
  {
    var todos := db.GetAllTodos();
    r := Response(OK, List(todos));
  }

  /** `GET /todos/:id`: 404 with "Todo not found" exactly when no stored todo
      has `id`, otherwise 200 with the first stored todo that has it. */
  method GetTodo(db: Db.InMemoryDb, id: string) returns (r: Response)
    ensures !Db.HasId(db.todos, id) <==> r == Response(NOT_FOUND, Message(TodoNotFound))
    ensures Db.HasId(db.todos, id) ==>
      r.status == OK && r.body.One? && r.body.todo == Db.Find(db.todos, id).value &&
      r.body.todo.id == id && r.body.todo in db.todos
  {
    var found := db.GetSingleTodo(id);
    r := LookupResponse(found);
  }

  /** `POST /todos`: a rejected body answers 400 with the fixed message and
      leaves the store as it was; an accepted one calls `createTodo` once,
      which appends one todo with the body's description, `isComplete` false
      and a fresh id, and answers 201. */
  method PostTodos(db: Db.InMemoryDb, body: map<string, Json.Value>) returns (r: Response)
    requires db.Valid()
    modifies db
    ensures db.Valid()
    ensures ValidateCreate(body).None? ==>
      r == Response(BAD_REQUEST, Message(MissingFields)) && db.todos == old(db.todos)
    ensures ValidateCreate(body).Some? ==>
      r == Response(CREATED, PendingPromise) &&
      |db.todos| == |old(db.todos)| + 1 &&
      db.todos[..|old(db.todos)|] == old(db.todos) &&
      db.todos[|old(db.todos)|].description == body["description"] &&
      !db.todos[|old(db.todos)|].isComplete &&
      !Db.HasId(old(db.todos), db.todos[|old(db.todos)|].id)
  {
    var input := ValidateCreate(body);
    if input.None? {
      r := Response(BAD_REQUEST, Message(MissingFields));
      return;
    }
    var created := db.CreateTodo(input.value);
    r := Response(CREATED, PendingPromise);
  }
}
