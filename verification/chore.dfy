/** The chore record (backend/models/Chore.js): the completion state
    machine over `completed`, `status` and `completedAt`, the derived
    overdue flag, and the per-house and per-user statistics. */
module ChoreModel {
  import opened Common

  datatype Status = Pending | InProgress | Completed
  datatype Priority = Low | Medium | High
  datatype ChoreCategory = Cleaning | Cooking | Shopping | Maintenance | Other

  function PriorityName(p: Priority): string
  {
    match p
    case Low => "low"
    case Medium => "medium"
    case High => "high"
  }

  /** The priority enum check: accepted exactly when `s` spells a priority. */
  function ParsePriority(s: string): (r: Option<Priority>)
    ensures r.Some? ==> PriorityName(r.value) == s
    ensures r.None? ==> forall p :: PriorityName(p) != s
  {
    if s == "low" then Some(Low)
    else if s == "medium" then Some(Medium)
    else if s == "high" then Some(High)
    else None
  }

  function ChoreCategoryName(c: ChoreCategory): string
  {
    match c
    case Cleaning => "cleaning"
    case Cooking => "cooking"
    case Shopping => "shopping"
    case Maintenance => "maintenance"
    case Other => "other"
  }

  /** The category enum check: accepted exactly when `s` spells a category. */
  function ParseChoreCategory(s: string): (r: Option<ChoreCategory>)
    ensures r.Some? ==> ChoreCategoryName(r.value) == s
    ensures r.None? ==> forall c :: ChoreCategoryName(c) != s
  {
    if s == "cleaning" then Some(Cleaning)
    else if s == "cooking" then Some(Cooking)
    else if s == "shopping" then Some(Shopping)
    else if s == "maintenance" then Some(Maintenance)
    else if s == "other" then Some(Other)
    else None
  }

  class Chore {
    const id: RecordId
    const house: HouseId
    const title: string
    const description: string
    const assignedTo: UserId
    const createdBy: UserId
    const dueDate: Time
    const priority: Priority
    const category: ChoreCategory
    const notes: string
    var status: Status
    var completed: bool
    var completedAt: Option<Time>

    /** The three completion fields agree: completed exactly when the status
        says so, and exactly when a completion time is recorded; and the
        in-progress status, which no operation produces, is absent. */
    predicate Consistent()
      reads this
    {
      && (completed <==> status == Completed)
      && (completed <==> completedAt.Some?)
      && status != InProgress
    }

    /** A new chore document with the schema defaults: pending, not
        completed, no completion time. */
    constructor (id: RecordId, house: HouseId, title: string, description: string,
                 assignedTo: UserId, createdBy: UserId, dueDate: Time,
                 priority: Priority, category: ChoreCategory, notes: string)
      ensures this.id == id && this.house == house && this.title == title
      ensures this.description == description && this.assignedTo == assignedTo
      ensures this.createdBy == createdBy && this.dueDate == dueDate
      ensures this.priority == priority && this.category == category && this.notes == notes
      ensures status == Pending && !completed && completedAt == None
      ensures Consistent()
    {
      this.id := id;
      this.house := house;
      this.title := title;
      this.description := description;
      this.assignedTo := assignedTo;
      this.createdBy := createdBy;
      this.dueDate := dueDate;
      this.priority := priority;
      this.category := category;
      this.notes := notes;
      status := Pending;
      completed := false;
      completedAt := None;
    }

    /** The `isOverdue` virtual: still open and `now` strictly after the due date. */
    predicate IsOverdue(now: Time)
      reads this
    {
      !completed && now > dueDate
    }

    /** The pre-save hook: a completed chore without a completion time gets
        `now` and the completed status; any other chore is left alone. */
    method PreSave(now: Time)
      modifies this
      ensures old(completed) && old(completedAt) == None ==>
                completedAt == Some(now) && status == Completed && completed
      ensures !(old(completed) && old(completedAt) == None) ==>
                completedAt == old(completedAt) && status == old(status) && completed == old(completed)
      ensures old(Consistent()) ==> Consistent() && status == old(status)
    {
      if completed && completedAt == None {
        completedAt := Some(now);
        status := Completed;
      }
    }

    /** `markComplete` followed by its save: completed, status completed,
        completion time `now`; `now` also serves as the hook's clock. */
    method MarkComplete(now: Time)
      modifies this
      ensures completed && status == Completed && completedAt == Some(now)
      ensures Consistent() && !IsOverdue(now)
    {
      completed := true;
      status := Completed;
      completedAt := Some(now);
      PreSave(now);
    }

    /** `markIncomplete` followed by its save: pending, no completion time. */
    method MarkIncomplete(now: Time)
      modifies this
      ensures !completed && status == Pending && completedAt == None
      ensures Consistent()
    {
      completed := false;
      status := Pending;
      completedAt := None;
      PreSave(now);
    }
  }

  /** Which chores a statistic counts: one house's, or one assignee's. */
  datatype ChoreScope = InHouse(house: HouseId) | AssignedTo(user: UserId)

  predicate InScope(c: Chore, scope: ChoreScope)
  {
    match scope
    case InHouse(h) => c.house == h
    case AssignedTo(u) => c.assignedTo == u
  }

  /** `countDocuments(scope)`. */
  function CountAll(cs: seq<Chore>, scope: ChoreScope): nat
  {
    if cs == [] then 0
    else CountAll(cs[..|cs| - 1], scope) + (if InScope(cs[|cs| - 1], scope) then 1 else 0)
  }

  /** `countDocuments({...scope, completed: true})`. */
  function CountDone(cs: seq<Chore>, scope: ChoreScope): nat
    reads cs
  {
    if cs == [] then 0
    else
      var c := cs[|cs| - 1];
      CountDone(cs[..|cs| - 1], scope) + (if InScope(c, scope) && c.completed then 1 else 0)
  }

  /** `countDocuments({...scope, completed: false})`. */
  function CountOpen(cs: seq<Chore>, scope: ChoreScope): nat
    reads cs
  {
    if cs == [] then 0
    else
      var c := cs[|cs| - 1];
      CountOpen(cs[..|cs| - 1], scope) + (if InScope(c, scope) && !c.completed then 1 else 0)
  }

  /** `countDocuments({...scope, completed: false, dueDate: {$lt: now}})`:
      the chores in scope that are overdue at `now`. */
  function CountLate(cs: seq<Chore>, scope: ChoreScope, now: Time): nat
    reads cs
  {
    if cs == [] then 0
    else
      var c := cs[|cs| - 1];
      CountLate(cs[..|cs| - 1], scope, now) + (if InScope(c, scope) && c.IsOverdue(now) then 1 else 0)
  }

  /** Every chore in scope is either completed or pending. */
  lemma {:induction false} DoneAndOpenMakeTotal(cs: seq<Chore>, scope: ChoreScope)
    ensures CountDone(cs, scope) + CountOpen(cs, scope) == CountAll(cs, scope)
  {
    if cs != [] {
      DoneAndOpenMakeTotal(cs[..|cs| - 1], scope);
    }
  }

  /** Overdue chores are among the pending ones. */
  lemma {:induction false} LateWithinOpen(cs: seq<Chore>, scope: ChoreScope, now: Time)
    ensures CountLate(cs, scope, now) <= CountOpen(cs, scope)
  {
    if cs != [] {
      LateWithinOpen(cs[..|cs| - 1], scope, now);
    }
  }

  /** A chore outside the scope does not move any count. */
  lemma OutOfScopeIgnored(cs: seq<Chore>, c: Chore, scope: ChoreScope, now: Time)
    requires !InScope(c, scope)
    ensures CountAll(cs + [c], scope) == CountAll(cs, scope)
    ensures CountDone(cs + [c], scope) == CountDone(cs, scope)
    ensures CountOpen(cs + [c], scope) == CountOpen(cs, scope)
    ensures CountLate(cs + [c], scope, now) == CountLate(cs, scope, now)
  {
    assert (cs + [c])[..|cs|] == cs;
  }

  /** `Math.round(completed / total * 100)`, or 0 for no chores, computed
      exactly: the result is the integer nearest to 100 * completed / total,
      halves rounding up, and lies in 0..100. */
  function CompletionRate(completed: nat, total: nat): (r: nat)
    ensures total == 0 ==> r == 0
    ensures total > 0 ==> 2 * total * r <= 200 * completed + total < 2 * total * (r + 1)
    ensures completed <= total ==> r <= 100
  {
    if total == 0 then 0
    else
      var r := (200 * completed + total) / (2 * total);
      RoundingBounds(200 * completed + total, 2 * total);
      assert completed <= total ==> r <= 100 by {
        if completed <= total {
          RoundingAtMostHundred(completed, total, r);
        }
      }
      r
  }

  /** Euclidean division brackets the numerator between consecutive multiples. */
  lemma RoundingBounds(n: nat, d: nat)
    requires d > 0
    ensures d * (n / d) <= n < d * (n / d + 1)
  {
    var q, m := n / d, n % d;
    assert n == d * q + m && 0 <= m < d;
    assert d * (q + 1) == d * q + d;
  }

  lemma RoundingAtMostHundred(completed: nat, total: nat, r: nat)
    requires 0 < total && completed <= total
    requires 2 * total * r <= 200 * completed + total
    ensures r <= 100
  {
    var d := 2 * total;
    assert d * r < d * 101 by {
      assert 200 * completed <= 200 * total;
    }
    assert d * (101 - r) > 0;
    ProductPositive(d, 101 - r);
  }

  lemma ProductPositive(a: int, b: int)
    requires a > 0 && a * b > 0
    ensures b > 0
  {
  }

  datatype HouseStats = HouseStats(total: nat, completed: nat, pending: nat, overdue: nat, completionRate: nat)
  datatype UserStats = UserStats(total: nat, completed: nat, pending: nat, completionRate: nat)

  /** `getHouseStats`: the counts over one house's chores at time `now`. */
  function GetHouseStats(cs: seq<Chore>, house: HouseId, now: Time): (r: HouseStats)
    reads cs
    ensures r.total == CountAll(cs, InHouse(house)) && r.completed == CountDone(cs, InHouse(house))
    ensures r.pending == CountOpen(cs, InHouse(house)) && r.overdue == CountLate(cs, InHouse(house), now)
    ensures r.completionRate == CompletionRate(r.completed, r.total)
    ensures r.completed + r.pending == r.total
    ensures r.overdue <= r.pending
    ensures r.completionRate <= 100 && (r.total == 0 ==> r.completionRate == 0)
  {
    var scope := InHouse(house);
    DoneAndOpenMakeTotal(cs, scope);
    LateWithinOpen(cs, scope, now);
    var total, done := CountAll(cs, scope), CountDone(cs, scope);
    HouseStats(total, done, CountOpen(cs, scope), CountLate(cs, scope, now), CompletionRate(done, total))
  }

  /** `getUserStats`: the counts over the chores assigned to one user, in any house. */
  function GetUserStats(cs: seq<Chore>, user: UserId): (r: UserStats)
    reads cs
    ensures r.total == CountAll(cs, AssignedTo(user)) && r.completed == CountDone(cs, AssignedTo(user))
    ensures r.pending == CountOpen(cs, AssignedTo(user))
    ensures r.completionRate == CompletionRate(r.completed, r.total)
    ensures r.completed + r.pending == r.total
    ensures r.completionRate <= 100 && (r.total == 0 ==> r.completionRate == 0)
  {
    var scope := AssignedTo(user);
    DoneAndOpenMakeTotal(cs, scope);
    var total, done := CountAll(cs, scope), CountDone(cs, scope);
    UserStats(total, done, CountOpen(cs, scope), CompletionRate(done, total))
  }

  /** A chore assigned to someone else leaves a user's statistics unchanged. */
  lemma UserStatsIgnoreOthers(cs: seq<Chore>, c: Chore, user: UserId)
    requires c.assignedTo != user
    ensures GetUserStats(cs + [c], user) == GetUserStats(cs, user)
  {
    OutOfScopeIgnored(cs, c, AssignedTo(user), 0);
  }
}
