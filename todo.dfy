/** The todo record of the service, its status codes and the seed data the
    store starts with. */
module Todos {

  datatype Option<T> = None | Some(value: T)

  /** The status of a todo. It is an integer type: the named values below are
      the only ones the program itself uses, but decoding a request accepts any
      integer. */
  newtype Status = int

  const Pending: Status := 0
  const Completed: Status := 1

  /** A due date. The program only stores and returns it, so the model holds
      an instant given by its caller and never inspects it. */
  datatype Duedate = Duedate(instant: int)

  datatype Todo = Todo(
    id: int,
    name: string,
    description: string,
    status: Status,
    duedate: Duedate)

  /** The outcome of a request, in place of an HTTP status and body. */
  datatype Response =
    | Ok(todo: Todo)        // 200 with the record
    | Created(todo: Todo)   // 201 with the record
    | NotFound              // 404: no record has the id
    | BadRequest            // 400: the id or the body could not be decoded

  /** True when no two records of `todos` share an id. */
  predicate IdsDistinct(todos: seq<Todo>)
  {
    forall i, j :: 0 <= i < j < |todos| ==> todos[i].id != todos[j].id
  }

  /** The three records the store holds when the program starts. Their due
      dates are one, two and three days after start-up; the clock is not part
      of the model, so the caller supplies them. */
  function Seed(due1: Duedate, due2: Duedate, due3: Duedate): (s: seq<Todo>)
    ensures |s| == 3
    ensures IdsDistinct(s)
    ensures forall k :: 0 <= k < |s| ==> s[k].id == k + 1
    ensures forall k :: 0 <= k < |s| ==> s[k].status == Pending || s[k].status == Completed
  {
    [ Todo(1, "買い物", "卵、牛乳", Completed, due1),
      Todo(2, "読書", "Go 入門", Pending, due2),
      Todo(3, "Gin のチュートリアル読む", "https://go.dev/doc/tutorial/web-service-gin", Pending, due3) ]
  }
}
