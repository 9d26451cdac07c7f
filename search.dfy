/** What a lookup by id answers, as functions of the store's contents, and
    how appending a record changes that answer. */
module Search {
  import opened Todos

  /** The index of the first record whose id is `id`, scanning from the
      front, or None when no record has it. */
  function FirstMatch(todos: seq<Todo>, id: int): (r: Option<nat>)
    ensures r.Some? ==> r.value < |todos| && todos[r.value].id == id
    ensures r.Some? ==> forall j :: 0 <= j < r.value ==> todos[j].id != id
    ensures r.None? <==> forall j :: 0 <= j < |todos| ==> todos[j].id != id
    decreases |todos|
  {
    if |todos| == 0 then None
    else if todos[0].id == id then Some(0)
    else
      match FirstMatch(todos[1..], id)
      case None => None
      case Some(k) => Some(k + 1)
  }

  /** The answer to a lookup whose path parameter parsed to `parsed`. */
  function Lookup(todos: seq<Todo>, parsed: Option<int>): (r: Response)
    ensures parsed.None? <==> r == BadRequest
    ensures !r.Created?
    ensures r == NotFound <==>
              parsed.Some? && forall k :: 0 <= k < |todos| ==> todos[k].id != parsed.value
    ensures r.Ok? ==> parsed.Some? && r.todo.id == parsed.value
    ensures r.Ok? ==> exists k :: 0 <= k < |todos| && todos[k] == r.todo &&
                                  forall j :: 0 <= j < k ==> todos[j].id != parsed.value
  {
    match parsed
    case None => BadRequest
    case Some(id) =>
      match FirstMatch(todos, id)
      case None => NotFound
      case Some(k) => Ok(todos[k])
  }

  /** The first record with a given id is the one a lookup returns: any index
      that holds the id and has no earlier holder is the answer. */
  lemma FirstHolderIsAnswer(todos: seq<Todo>, k: int)
    requires 0 <= k < |todos|
    requires forall j :: 0 <= j < k ==> todos[j].id != todos[k].id
    ensures Lookup(todos, Some(todos[k].id)) == Ok(todos[k])
  {
  }

  /** Appending `t` leaves every lookup as it was, except that an id nobody
      held before, if it is `t`'s, now finds `t`. In particular appending a
      record whose id is already used does not change what that id finds. */
  lemma {:induction false} LookupAfterAppend(todos: seq<Todo>, t: Todo, parsed: Option<int>)
    ensures Lookup(todos + [t], parsed) ==
              if parsed == Some(t.id) && Lookup(todos, parsed) == NotFound then Ok(t)
              else Lookup(todos, parsed)
  {
    if parsed.Some? {
      var id := parsed.value;
      FirstMatchAfterAppend(todos, t, id);
    }
  }

  lemma {:induction false} FirstMatchAfterAppend(todos: seq<Todo>, t: Todo, id: int)
    ensures FirstMatch(todos + [t], id) ==
              if FirstMatch(todos, id).Some? then FirstMatch(todos, id)
              else if t.id == id then Some(|todos|)
              else None
    decreases |todos|
  {
    var s := todos + [t];
    if |todos| == 0 {
      assert s == [t];
    } else if todos[0].id != id {
      assert s[1..] == todos[1..] + [t];
      FirstMatchAfterAppend(todos[1..], t, id);
    }
  }

  /** In a store without duplicate ids every record is found by its own id. */
  lemma DistinctIdsFindEach(todos: seq<Todo>, k: int)
    requires IdsDistinct(todos)
    requires 0 <= k < |todos|
    ensures Lookup(todos, Some(todos[k].id)) == Ok(todos[k])
  {
  }

  /** In the seed store the ids 1, 2 and 3 find their records and every other
      id finds nothing. */
  lemma SeedLookup(due1: Duedate, due2: Duedate, due3: Duedate, id: int)
    ensures 1 <= id <= 3 ==> Lookup(Seed(due1, due2, due3), Some(id)) == Ok(Seed(due1, due2, due3)[id - 1])
    ensures !(1 <= id <= 3) <==> Lookup(Seed(due1, due2, due3), Some(id)) == NotFound
  {
  }
}
