/** The chore handlers of backend/routes/chore.js: create a chore, toggle
    its completion and delete it. The store is a list of documents. */
module ChoreRoutes {
  import opened Common
  import opened Text
  import opened UserModel
  import opened ChoreModel

  /** The request body; "" and `None` stand for absent (falsy) fields. */
  datatype ChoreBody = ChoreBody(
    title: string,
    description: string,
    assignedTo: Option<UserId>,
    dueDate: Option<Time>,
    priority: string,
    category: string,
    notes: string)

  datatype ChoreError =
    | NoHouse         // the user belongs to no house
    | MissingFields   // title, assignee or due date missing
    | InvalidChore    // refused by the schema
    | NotFound        // no chore with that id
    | Forbidden       // the chore belongs to another house than the user's

  function ChoreId(c: Chore): int
  {
    c.id
  }

  /** The given priority, or "medium" when absent. */
  function PriorityOrDefault(s: string): string
  {
    if s == "" then "medium" else s
  }

  /** The given category, or "other" when absent. */
  function CategoryOrDefault(s: string): string
  {
    if s == "" then "other" else s
  }

  /** The schema's checks on a new chore: a trimmed title of 1 to 100
      characters, trimmed description and notes of at most 500, and a
      priority and a category from their enums. */
  predicate Acceptable(body: ChoreBody)
  {
    && 0 < |Trim(body.title)| <= 100
    && |Trim(body.description)| <= 500
    && |Trim(body.notes)| <= 500
    && ParsePriority(PriorityOrDefault(body.priority)).Some?
    && ParseChoreCategory(CategoryOrDefault(body.category)).Some?
  }

  /** `c` is the document `Chore.create` stores for an accepted body:
      created by `creator` in `house`, with trimmed text, the defaults
      filled in, pending and not completed. */
  predicate Describes(c: Chore, id: RecordId, house: HouseId, creator: UserId, body: ChoreBody)
    requires body.assignedTo.Some? && body.dueDate.Some?
    reads c
  {
    && c.id == id && c.house == house && c.createdBy == creator
    && c.assignedTo == body.assignedTo.value && c.dueDate == body.dueDate.value
    && c.title == Trim(body.title) && c.description == Trim(body.description)
    && c.notes == Trim(body.notes)
    && PriorityName(c.priority) == PriorityOrDefault(body.priority)
    && ChoreCategoryName(c.category) == CategoryOrDefault(body.category)
    && c.status == Pending && !c.completed && c.completedAt == None
  }

  /** Builds the document `Chore.create` stores for an accepted body. */
  method NewChore(id: RecordId, house: HouseId, creator: UserId, body: ChoreBody) returns (c: Chore)
    requires body.assignedTo.Some? && body.dueDate.Some? && Acceptable(body)
    ensures fresh(c) && Describes(c, id, house, creator, body)
    ensures c.Consistent()
  {
    var priority := ParsePriority(PriorityOrDefault(body.priority)).value;
    var category := ParseChoreCategory(CategoryOrDefault(body.category)).value;
    c := new Chore(id, house, Trim(body.title), Trim(body.description), body.assignedTo.value,
                   creator, body.dueDate.value, priority, category, Trim(body.notes));
  }

  /** Every chore of the list has agreeing completion fields. */
  predicate AllConsistent(cs: seq<Chore>)
    reads set k | 0 <= k < |cs| :: cs[k]
  {
    forall k :: 0 <= k < |cs| ==> cs[k].Consistent()
  }

  /** Appending a consistent chore keeps the whole list consistent. */
  lemma AllConsistentSnoc(cs: seq<Chore>, c: Chore)
    requires AllConsistent(cs) && c.Consistent()
    ensures AllConsistent(cs + [c])
  {
    assert forall k :: 0 <= k < |cs| ==> (cs + [c])[k] == cs[k];
  }

  /** Why `POST /api/chores` refuses a body, checked in order: the user
      has no house, then title, assignee or due date is missing, then the
      schema refuses the record. `None` means the chore is created. */
  function CreateRefusal(me: User, body: ChoreBody): (r: Option<ChoreError>)
    ensures me.house.None? ==> r == Some(NoHouse)
    ensures me.house.Some? && (body.title == "" || body.assignedTo.None? || body.dueDate.None?) ==>
              r == Some(MissingFields)
    ensures r.None? <==> me.house.Some? && body.title != "" && body.assignedTo.Some? && body.dueDate.Some?
                         && Acceptable(body)
  {
    if me.house.None? then Some(NoHouse)
    else if body.title == "" || body.assignedTo.None? || body.dueDate.None? then Some(MissingFields)
    else if !Acceptable(body) then Some(InvalidChore)
    else None
  }

  class ChoreService {
    var chores: seq<Chore>

    /** Chore ids are unique, and every stored chore's completion fields
        agree. */
    ghost predicate Valid()
      reads this, chores
    {
      && Distinct(KeysOf(chores, ChoreId))
      && AllConsistent(chores)
    }

    constructor ()
      ensures chores == [] && Valid()
    {
      chores := [];
    }

    /** `POST /api/chores`: refused with the error `CreateRefusal` names,
        leaving the store as it was; otherwise the chore the body describes
        is appended, and ids stay unique and every chore consistent. */
    method Create(me: User, body: ChoreBody, newId: RecordId) returns (r: Result<Chore, ChoreError>)
      requires Valid()
      requires forall k :: 0 <= k < |chores| ==> chores[k].id != newId
      modifies this
      ensures Valid()
      ensures r.Err? ==> CreateRefusal(me, body) == Some(r.error) && chores == old(chores)
      ensures r.Ok? ==> && CreateRefusal(me, body).None? && fresh(r.value)
                        && chores == old(chores) + [r.value]
                        && Describes(r.value, newId, me.house.value, me.id, body)
    {
      var refusal := CreateRefusal(me, body);
      if refusal.Some? {
        return Err(refusal.value);
      }
      var c := NewChore(newId, me.house.value, me.id, body);
      DistinctKeysSnoc(chores, ChoreId, c);
      AllConsistentSnoc(chores, c);
      chores := chores + [c];
      r := Ok(c);
    }

    /** The guard shared by toggle and delete: an unknown id is not found,
        and a chore of another house than the user's (or a user with no
        house) is forbidden. */
    function Guard(me: User, id: RecordId): (r: Result<nat, ChoreError>)
      reads this
      ensures r == Err(NotFound) <==> FindIndex(chores, ChoreId, id).None?
      ensures r.Ok? <==> FindIndex(chores, ChoreId, id).Some?
                         && me.house == Some(chores[FindIndex(chores, ChoreId, id).value].house)
      ensures r.Ok? ==> r.value < |chores| && chores[r.value].id == id
    {
      match FindIndex(chores, ChoreId, id)
      case None => Err(NotFound)
      case Some(i) => if me.house != Some(chores[i].house) then Err(Forbidden) else Ok(i)
    }

    /** `PATCH /api/chores/:id/toggle`: after the guard, a completed chore
        is marked incomplete and any other is marked complete at `now`.
        A request that passes the guard succeeds; only that chore changes,
        its flag flips and its status and completion time follow the flag. */
    method Toggle(me: User, id: RecordId, now: Time) returns (r: Result<Chore, ChoreError>)
      requires Valid()
      modifies chores
      ensures Valid()
      ensures old(Guard(me, id)).Err? ==> r == Err(old(Guard(me, id)).error)
      ensures r.Ok? <==> old(Guard(me, id)).Ok?
      ensures r.Err? ==> forall k :: 0 <= k < |chores| ==> unchanged(chores[k])
      ensures r.Ok? ==> && old(Guard(me, id)).Ok? && r.value == chores[old(Guard(me, id)).value]
                        && r.value.completed == !old(r.value.completed)
                        && r.value.status == (if r.value.completed then Completed else Pending)
                        && r.value.completedAt == (if r.value.completed then Some(now) else None)
                        && forall k :: 0 <= k < |chores| && chores[k] != r.value ==> unchanged(chores[k])
    {
      var g := Guard(me, id);
      if g.Err? {
        return Err(g.error);
      }
      var c := chores[g.value];
      if c.completed {
        c.MarkIncomplete(now);
      } else {
        c.MarkComplete(now);
      }
      r := Ok(c);
    }

    /** `DELETE /api/chores/:id`: after the guard, any member of the
        chore's house may delete it, and a request that passes the guard
        succeeds; that chore is removed and every other one stays, in order.
        A refusal changes nothing. */
    method Delete(me: User, id: RecordId) returns (r: Result<RecordId, ChoreError>)
      requires Valid()
      modifies this
      ensures Valid()
      ensures old(Guard(me, id)).Err? ==> r == Err(old(Guard(me, id)).error)
      ensures r.Ok? <==> old(Guard(me, id)).Ok?
      ensures r.Err? ==> chores == old(chores)
      ensures r.Ok? ==> && r.value == id
                        && var i := old(Guard(me, id)).value;
                           chores == old(chores)[..i] + old(chores)[i + 1..]
    {
      var g := Guard(me, id);
      if g.Err? {
        return Err(g.error);
      }
      var i := g.value;
      DropUnique(chores, ChoreId, i);
      DistinctKeysRemove(chores, ChoreId, i);
      chores := Drop(chores, ChoreId, id);
      r := Ok(id);
    }
  }
}
