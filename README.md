# In-memory todo store of go-todo-app

This project models the in-memory todo store of the service's `main.go`. The store is a
package-level slice of `todo` records, seeded with three entries. Three request handlers
use it:

- `getTodos` lists the slice as it stands.
- `getTodoById` parses the `id` path parameter as an integer. A bad id answers 400.
  Otherwise it scans the slice from the front and answers the first record with that id,
  or 404 when there is none.
- `addTodo` decodes the request body and appends the record to the end of the slice. It
  never checks whether the id is already in use.

The model has three parts:

- `todo.dfy` (module `Todos`): the record, the integer-based `Status` type with its named
  values `Pending = 0` and `Completed = 1`, a `Duedate` holding an instant the model never inspects, the seed contents, and a
  `Response` datatype. `Response` stands in for the HTTP answers: `Ok` (200), `Created`
  (201), `NotFound` (404) and `BadRequest` (400).
- `search.dfy` (module `Search`): what a lookup answers, as pure functions of the store's
  contents. `FirstMatch` is the first index holding an id; `Lookup` is the handler's answer.
  The lemmas here say which record wins, when the answer is "not found", and how an append
  changes later lookups.
- `store.dfy` (module `Store`): the `TodoStore` class. Its `todos: seq<Todo>` field is
  reassigned in place. `GetById`, a loop with an early return, is proved equal to
  `Search.Lookup`. `List` and `Add` state the new contents directly, and
  `Search.LookupAfterAppend` says what `Add`'s append does to every later lookup. `DuplicateIdIsShadowed` is a client of the
  class: after a second record with id 1 is added, id 1 still finds the seed record.

The integer parse (`strconv.Atoi`) is a parameter `atoi: string -> Option<int>` of
`GetById`. The decoded request body is a parameter `decoded: Option<Todo>` of `Add`, where
`None` means decoding failed. In the program that failure is answered with 400 by the
binding library itself (`BindJSON`), and `addTodo` just returns; the model reports it as
`BadRequest`.

Facts about `main.go` that the model keeps:
- ids are supplied by the client in the request body; the store does not assign them;
- uniqueness of ids is not enforced;
- `Status` is a plain integer type, so a decoded record may carry any status value;
- the file has no update or delete operation.

## Model

| member | source | states |
|---|---|---|
| `Todos.Seed` | main.go:31-35 | the seed holds exactly three records, with ids 1, 2, 3 in that order (so the ids are distinct), each with a named status |
| `Search.FirstMatch` | main.go:52-57 | the scan's stopping index: it holds the id and no earlier record does; None exactly when no record holds the id |
| `Search.Lookup` | main.go:41-60 | a failed parse answers BadRequest, and only then; NotFound exactly when no record has the parsed id; Ok carries a record with that id and no earlier record has it |
| `Search.FirstHolderIsAnswer` | main.go:52-57 | any record that holds an id with no earlier holder is exactly what a lookup of that id returns |
| `Search.FirstMatchAfterAppend` | main.go:52-70 | after an append, the first index of an id is unchanged when it existed, is the new last index when the new record has the id, and is absent otherwise |
| `Search.LookupAfterAppend` | main.go:52-70 | appending a record changes no lookup answer, except that its id now finds it when no earlier record had that id; a duplicate id keeps finding the earlier record |
| `Search.DistinctIdsFindEach` | main.go:52-57 | in a store without duplicate ids, each record is what a lookup of its own id returns |
| `Search.SeedLookup` | main.go:31-60 | in the seed store, ids 1, 2 and 3 find the first, second and third record, and every other id answers NotFound |
| `Store.TodoStore.constructor` | main.go:31-35 | a new store holds exactly the seed records |
| `Store.TodoStore.List` | main.go:37-39 | listing returns the whole store in insertion order and changes nothing |
| `Store.TodoStore.GetById` | main.go:41-60 | the loop with its early return answers exactly `Lookup` of the current contents and the parsed id, so a bad id answers BadRequest without consulting the store |
| `Store.TodoStore.Add` | main.go:62-73 | on a decoded record the store becomes old contents plus that record at the end; the length grows by one and earlier records keep their order; the record is returned as Created; on a decoding failure the store is unchanged |
| `Store.DuplicateIdIsShadowed` | main.go:41-73 | starting from the seed, adding a record with the already used id 1 leaves lookups of id 1 answering the seed's first record |

## Left out

- HTTP routing, `gin.Context`, `r.Run()` and `main` (main.go:75-86): answers are `Response` variants, not status codes and JSON bodies.
- JSON encoding and decoding: a library outside this model. Decoding is only the `Option<Todo>` given to `Add`.
- The internals of `strconv.Atoi`: a library outside this model. It is the `atoi` parameter of `GetById`. Whether an out-of-range decimal fails is up to that parameter.
- `time.Now()` and the due-date arithmetic of the seed: they depend on the wall clock. The constructor takes the three due dates as parameters, and `Duedate` is opaque.
- Concurrent requests mutating the shared slice without a lock: the store is modelled as a single-threaded object.
- Go's fixed-width `int` (32 or 64 bits) for ids: ids are unbounded integers. They are only compared for equality, so the width does not change any answer.
- Updating, deleting, merging partial updates and authentication: none of these appear in `main.go`.
