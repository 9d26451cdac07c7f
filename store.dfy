/** The in-memory todo store and the three request handlers that use it. */
module Store {
  import opened Todos
  import opened Search

  class TodoStore {
    /** The records, in insertion order. */
    var todos: seq<Todo>

    /** The store as the program starts: the three seed records. */
    constructor (due1: Duedate, due2: Duedate, due3: Duedate)
      ensures todos == Seed(due1, due2, due3)
    {
      todos := Seed(due1, due2, due3);
    }

    /** Listing returns every record, in insertion order, and changes nothing. */
    method List() returns (all: seq<Todo>)
      ensures all == todos
    {
      all := todos;
    }

    /** Lookup by the path parameter `idStr`. `atoi` is the integer parse the
        program applies to it; when it fails, the store is not consulted. */
    method GetById(idStr: string, atoi: string -> Option<int>) returns (r: Response)
      ensures r == Lookup(todos, atoi(idStr))
    {
      var parsed := atoi(idStr);
      if parsed.None? {
        return BadRequest;
      }
      var id := parsed.value;
      var i := 0;
      while i < |todos|
        invariant 0 <= i <= |todos|
        invariant forall j :: 0 <= j < i ==> todos[j].id != id
      {
        if todos[i].id == id {
          FirstHolderIsAnswer(todos, i);
          return Ok(todos[i]);
        }
        i := i + 1;
      }
      return NotFound;
    }

    /** Insertion of the decoded request body, or None when decoding failed.
        The id is taken as given, even when another record already has it. */
    method Add(decoded: Option<Todo>) returns (r: Response)
      modifies this
      ensures decoded.None? ==> r == BadRequest && todos == old(todos)
      ensures decoded.Some? ==> r == Created(decoded.value)
      ensures decoded.Some? ==> todos == old(todos) + [decoded.value]
      // The two clauses below follow from the previous one; they spell out its parts.
      ensures decoded.Some? ==> |todos| == |old(todos)| + 1 && todos[|todos| - 1] == decoded.value
      ensures decoded.Some? ==> todos[..|old(todos)|] == old(todos)
    {
      if decoded.None? {
        return BadRequest;
      }
      todos := todos + [decoded.value];
      return Created(decoded.value);
    }
  }

  /** A store started from the seed keeps answering id 1 with the seed record
      after a second record with id 1 has been added. */
  method DuplicateIdIsShadowed(due1: Duedate, due2: Duedate, due3: Duedate, dup: Todo,
                               idStr: string, atoi: string -> Option<int>)
    returns (before: Response, added: Response, after: Response)
    requires dup.id == 1 && atoi(idStr) == Some(1)
    ensures before == Ok(Seed(due1, due2, due3)[0])
    ensures added == Created(dup)
    ensures after == before
  {
    var store := new TodoStore(due1, due2, due3);
    SeedLookup(due1, due2, due3, 1);
    before := store.GetById(idStr, atoi);
    ghost var was := store.todos;
    added := store.Add(Some(dup));
    LookupAfterAppend(was, dup, Some(1));
    after := store.GetById(idStr, atoi);
  }
}
