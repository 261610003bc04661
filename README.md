# Todo store and route handlers, modelled in Dafny

This project models the core of a small todo-list REST API:

- the store contract (`Db`: `getSingleTodo`, `getAllTodos`, `createTodo`);
- its in-memory backend (`createInMemoryDb`), a closure that owns a growable list of todos;
- the rules that the four route handlers of `createTodosApp` apply on top of the store:
  - the POST validation guard;
  - the 400/201 and 404/200 status choices;
  - the list and readiness routes.

Files:

- `wrappers.dfy` holds `Option`. `None` stands for JavaScript's `null` or `undefined`.
- `json.dfy` holds parsed JSON values and `Field`, the property read that destructures a request body (a plain definition: absent keys read as `undefined`). It also holds two JavaScript tests. One is truthiness (`!x`). The other is `typeof x`.
- `db.dfy` holds the `Todo` record and `Find`, the specification of `find`. It also holds the `InMemoryDb` class and `FreshId`, which stands in for `uuidv4()`.
- `app.dfy` holds the handlers. Each one is a method over the store that returns the status and the body it would send.

The in-memory store is a class whose field `todos: seq<Todo>` is the captured array. `CreateTodo` reassigns that field. `GetSingleTodo` is a linear scan, proved equal to the first-match function `Find`. The class invariant `Valid()` says ids are pairwise distinct. `CreateTodo` keeps it because the id it draws is fresh.

The POST guard (backend/src/app.ts:39) only tests that `description` is truthy. So `true`, a non-zero number, an array or an object also passes, and the model stores `description` as a JSON value.

## Model

| member | source | states |
|---|---|---|
| Db.FirstIndex | backend/src/db.ts:19 | the scan position is the first todo whose id matches, or the list length when none does; no earlier todo matches |
| Db.Find | backend/src/db.ts:19-20 | `find(...) ?? null` yields nothing exactly when no stored todo has the id, and otherwise yields a stored todo carrying that id |
| Db.FirstIndexUnique | backend/src/db.ts:19 | the first-match position is determined: any position with no match before it and a match at it (or the end) is that position |
| Db.FindAppend | backend/src/db.ts:19-20 | after one append, a lookup returns the earlier match if there is one, otherwise the new todo when its id matches, otherwise nothing |
| Db.CreatedIsFound | backend/src/db.ts:19-20 | a todo appended under an id not yet stored is exactly what a lookup of that id returns |
| Db.FindStored | backend/src/db.ts:19-20 | with pairwise distinct ids, looking up any stored todo's id returns exactly that todo |
| Db.AppendFreshUnique | backend/src/db.ts:24-25 | appending a todo with a fresh id keeps ids pairwise distinct |
| Db.FreshId | backend/src/db.ts:24 | the id handed to a new todo is not the id of any todo already stored |
| Db.InMemoryDb.constructor | backend/src/db.ts:14-15 | a new store is valid and holds no todos |
| Db.InMemoryDb.GetSingleTodo | backend/src/db.ts:18-21 | the linear scan returns the first todo in list order whose id matches, or nothing; the store is unchanged |
| Db.InMemoryDb.GetAllTodos | backend/src/db.ts:22 | returns the current list in insertion order; the store is unchanged |
| Db.InMemoryDb.CreateTodo | backend/src/db.ts:23-27 | the list grows by exactly the returned todo at the end, earlier todos unchanged; it has the caller's description, `isComplete` false whatever was passed, an id not used before, and a lookup of that id returns it; ids stay distinct |
| Db.CreateInSequence | backend/src/db.ts:15-26 | after n creates on a new store, the list holds exactly the n created todos in order, ids pairwise distinct, each with its input's description and `isComplete` false, and each found by its own id |
| Json.Truthy | backend/src/app.ts:39 | JavaScript's ToBoolean (the negation of `!x`) on a body field; `undefined` and `null` are never truthy |
| Json.TypeOf | backend/src/app.ts:39 | JavaScript's `typeof` on a body field: one of five type names, and `"undefined"` exactly when the field is absent |
| Json.FalsyExactly | backend/src/app.ts:39 | a body field is falsy exactly when it is absent, `null`, `false`, `0` or `""` |
| Json.TypeOfBoolean | backend/src/app.ts:39 | `typeof x === 'boolean'` holds exactly for a present JSON boolean |
| App.ValidateCreate | backend/src/app.ts:34-42 | a body is rejected exactly when `description` is falsy or `isComplete` is not a boolean; an accepted body yields `{description, isComplete}` taken unchanged from it |
| App.ValidateCreateExactly | backend/src/app.ts:39 | a body is accepted exactly when `description` is none of the five falsy values and `isComplete` is present and a JSON boolean |
| App.FalsyDescriptionRejected | backend/src/app.ts:39-40 | a missing, `null`, `""`, `0` or `false` description is rejected, whatever `isComplete` is |
| App.NonBooleanRejected | backend/src/app.ts:39-40 | an absent or non-boolean `isComplete` is rejected, whatever `description` is |
| App.LookupResponse | backend/src/app.ts:27-30 | 404 with "Todo not found" exactly when the store returned nothing; otherwise 200 with that todo |
| App.GetReady | backend/src/app.ts:11-13 | answers 200 whatever the store holds |
| App.GetTodos | backend/src/app.ts:15-18 | answers 200 with exactly the store's current list and does not change the store |
| App.GetTodo | backend/src/app.ts:24-31 | 404 with "Todo not found" exactly when no stored todo has the id; otherwise 200 with the first stored todo having it; the store is unchanged |
| App.PostTodos | backend/src/app.ts:33-44 | a rejected body answers 400 with the fixed message and leaves the store unchanged; an accepted one appends exactly one todo with the body's description, `isComplete` false and a fresh id, keeps earlier todos, and answers 201 |

## Left out

- The relational backend (`createPostgresDb`, backend/src/db.ts:39-70) is not modelled. Its behaviour depends on the `pg` client and the SQL server, which cannot be seen here. So the handlers are modelled over the in-memory store only, and the `Db` type (backend/src/db.ts:7-11) has a single implementation.
- Db.FreshId: `uuidv4()` draws a random version-4 UUID (section 4.4 of RFC 4122), which only makes a clash with a stored id unlikely; `createTodo` does not check for one. The model assumes the id is unused. `Valid()`, the freshness clause of `CreateTodo` and the distinct ids of `CreateInSequence` hold only under that assumption. The stand-in body picks a string longer than every stored id. Its contract promises only freshness, so no other member depends on the choice.
- Db.InMemoryDb.CreateTodo: at backend/src/db.ts:24 the spread `...todo` comes after `id: uuidv4()`, so an argument that carries an `id` field would override the fresh id. `TodoInput` has no `id` field and cannot express this. The only caller (backend/src/app.ts:42) passes the literal `{description, isComplete}`, so the case never arises in this program.
- Promise scheduling is not modelled. Every store call is one atomic sequential step, and the handlers are not interleaved.
- Aliasing is not modelled. `getAllTodos` returns the live array, and `createTodo` returns the same object it stores. The model passes values, which is enough because the handlers serialise the result at once.
- App.PostTodos: the 201 body is not modelled. backend/src/app.ts:42 does not await `createTodo`, so the body is a serialised Promise rather than the todo. It appears only as the tag `PendingPromise`. The store effect and the status are modelled.
- App.GetReady: the body of `res.send(200)` depends on the Express version. Only the status is modelled.
- Express plumbing is not modelled: `express()`, routing by path and JSON serialisation. The `express.json()` parser is modelled only through its result, a map from field names to JSON values. Non-object bodies, and the 400 that the parser itself sends for malformed JSON, are not modelled.
- Logging (`console.log`) is left out because it has no effect on the store or the responses.
- backend/src/main.ts is not part of this model; it only starts the process.
- backend/src/secrets.ts is not part of this model; it only reads an environment variable.
- infra/main.ts is not part of this model; it only declares cloud resources.
- backend/webpack.config.js is not part of this model; it is build configuration.
