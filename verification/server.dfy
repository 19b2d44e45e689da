/** The demo server of backend/server.js: registration and login against
    the user store, and the in-memory expense and chore lists that the
    front end talks to. Records there are plain JSON objects that take
    whatever fields the request body carries. */
module DemoServer {
  import opened Common
  import opened Text
  import opened UserModel

  /** The JSON values a request body can carry. */
  datatype Json = JNull | JBool(b: bool) | JNum(n: real) | JStr(s: string) | JList(items: seq<Json>)

  /** A JSON object; a missing key is `undefined`. */
  type Record = map<string, Json>

  /** JavaScript truthiness; `undefined` (a missing key) is falsy too. */
  predicate Truthy(v: Json)
  {
    match v
    case JNull => false
    case JBool(b) => b
    case JNum(n) => n != 0.0
    case JStr(s) => s != ""
    case JList(_) => true
  }

  /** `record.id === id`, where `id` is what `parseInt` made of the route
      parameter (`None` for NaN, which equals nothing). */
  predicate HasId(r: Record, id: Option<int>)
  {
    id.Some? && "id" in r && r["id"] == JNum(id.value as real)
  }

  /** `{ id: length + 1, ...body, date: body.date || today }`: the body's
      own fields win over the generated id, and a falsy date becomes today. */
  function NewExpense(count: nat, body: Record, today: string): (r: Record)
    ensures r.Keys == body.Keys + {"id", "date"}
    ensures r["id"] == if "id" in body then body["id"] else JNum((count + 1) as real)
    ensures r["date"] == if "date" in body && Truthy(body["date"]) then body["date"] else JStr(today)
    ensures forall k :: k in body && k != "date" ==> r[k] == body[k]
  {
    var date := if "date" in body && Truthy(body["date"]) then body["date"] else JStr(today);
    (map["id" := JNum((count + 1) as real)] + body)["date" := date]
  }

  /** `{ id: length + 1, ...body, completed: false }`: whatever the body
      says, a new chore is not completed. */
  function NewChore(count: nat, body: Record): (r: Record)
    ensures r.Keys == body.Keys + {"id", "completed"}
    ensures r["id"] == if "id" in body then body["id"] else JNum((count + 1) as real)
    ensures r["completed"] == JBool(false)
    ensures forall k :: k in body && k != "completed" ==> r[k] == body[k]
  {
    (map["id" := JNum((count + 1) as real)] + body)["completed" := JBool(false)]
  }

  /** `list.filter(r => r.id !== id)`. */
  function Remove(rs: seq<Record>, id: Option<int>): (r: seq<Record>)
    ensures |r| <= |rs|
  {
    if rs == [] then []
    else (if HasId(rs[0], id) then [] else [rs[0]]) + Remove(rs[1..], id)
  }

  /** Every record with that id goes, every other one stays. */
  lemma {:induction false} RemoveFilters(rs: seq<Record>, id: Option<int>)
    ensures forall x :: x in Remove(rs, id) ==> x in rs && !HasId(x, id)
    ensures forall x :: x in rs && !HasId(x, id) ==> x in Remove(rs, id)
  {
    if rs != [] {
      RemoveFilters(rs[1..], id);
      var head := if HasId(rs[0], id) then [] else [rs[0]];
      assert Remove(rs, id) == head + Remove(rs[1..], id);
      assert forall x :: x in rs <==> x == rs[0] || x in rs[1..];
    }
  }

  /** The filter keeps order: it distributes over concatenation. */
  lemma {:induction false} RemoveDistributes(a: seq<Record>, b: seq<Record>, id: Option<int>)
    ensures Remove(a + b, id) == Remove(a, id) + Remove(b, id)
  {
    if a != [] {
      var head := if HasId(a[0], id) then [] else [a[0]];
      assert (a + b)[0] == a[0] && (a + b)[1..] == a[1..] + b;
      RemoveDistributes(a[1..], b, id);
      calc {
        Remove(a + b, id);
        head + Remove(a[1..] + b, id);
        head + (Remove(a[1..], id) + Remove(b, id));
        (head + Remove(a[1..], id)) + Remove(b, id);
        Remove(a, id) + Remove(b, id);
      }
    } else {
      assert a + b == b;
    }
  }

  /** Deleting an id nobody has changes nothing (and is still reported as
      a success). */
  lemma {:induction false} RemoveAbsent(rs: seq<Record>, id: Option<int>)
    requires forall i :: 0 <= i < |rs| ==> !HasId(rs[i], id)
    ensures Remove(rs, id) == rs
  {
    if rs != [] {
      RemoveAbsent(rs[1..], id);
    }
  }

  /** `list.find(r => r.id === id)`: the first position with that id. */
  function FirstWithId(rs: seq<Record>, id: Option<int>): (r: Option<nat>)
    ensures r.Some? ==> r.value < |rs| && HasId(rs[r.value], id)
    ensures r.Some? ==> forall j :: 0 <= j < r.value ==> !HasId(rs[j], id)
    ensures r.None? ==> forall j :: 0 <= j < |rs| ==> !HasId(rs[j], id)
  {
    if rs == [] then None
    else if HasId(rs[0], id) then Some(0)
    else match FirstWithId(rs[1..], id)
      case None => None
      case Some(i) => Some(i + 1)
  }

  /** `chore.completed = !chore.completed`; a missing flag reads as false. */
  function Flip(r: Record): (f: Record)
    ensures f.Keys == r.Keys + {"completed"}
    ensures forall k :: k in r && k != "completed" ==> f[k] == r[k]
    ensures f["completed"] == JBool(!("completed" in r && Truthy(r["completed"])))
  {
    r["completed" := JBool(!("completed" in r && Truthy(r["completed"])))]
  }

  /** On a chore whose flag is a boolean, two flips give the chore back. */
  lemma FlipTwice(r: Record)
    requires "completed" in r && r["completed"].JBool?
    ensures Flip(Flip(r)) == r
  {
    assert Flip(Flip(r)).Keys == r.Keys;
  }

  /** Ids are `length + 1`: once a record is deleted, the next add can
      take an id that a record still in the list holds. */
  lemma IdReuseAfterDelete()
    ensures var rs := [NewChore(0, map[]), NewChore(1, map[])];
            var left := Remove(rs, Some(1));
            var rs' := left + [NewChore(|left|, map[])];
            |rs'| == 2 && rs'[0]["id"] == rs'[1]["id"] == JNum(2.0)
  {
    var rs := [NewChore(0, map[]), NewChore(1, map[])];
    assert HasId(rs[0], Some(1)) && !HasId(rs[1], Some(1));
    assert Remove(rs, Some(1)) == [rs[1]] by {
      assert rs[1..] == [rs[1]] && rs[1..][1..] == [];
    }
  }

  /** The registration form; "" stands for an absent field. */
  datatype Registration = Registration(
    firstName: string, lastName: string, email: string, password: string, confirmPassword: string)

  /** What register and login send back about the user. */
  datatype Summary = Summary(id: UserId, firstName: string, lastName: string, email: string, avatar: string)

  datatype AuthFailure =
    | MissingFields        // a required field is empty
    | PasswordMismatch     // password and confirmation differ
    | EmailTaken           // a user with that email exists
    | Rejected(fields: set<UserField>)   // the user schema refused the record
    | MissingCredentials   // login without email or password
    | InvalidCredentials   // unknown email or wrong password: one answer for both

  function SummaryOf(u: User): Summary
  {
    Summary(u.id, u.firstName, u.lastName, u.email, u.avatar)
  }

  /** `User.findOne({ email })`; the schema's trim and lower-case setters
      apply to the query value. */
  function FindByEmail(users: seq<User>, email: string): (r: Option<User>)
    ensures r.Some? ==> r.value in users && r.value.email == ToLower(Trim(email))
    ensures r.None? ==> forall i :: 0 <= i < |users| ==> users[i].email != ToLower(Trim(email))
  {
    FirstWithEmail(users, ToLower(Trim(email)))
  }

  /** The first user whose stored email is exactly `key`. */
  function FirstWithEmail(users: seq<User>, key: string): (r: Option<User>)
    ensures r.Some? ==> r.value in users && r.value.email == key
    ensures r.None? ==> forall i :: 0 <= i < |users| ==> users[i].email != key
  {
    if users == [] then None
    else if users[0].email == key then Some(users[0])
    else FirstWithEmail(users[1..], key)
  }

  /** `POST /api/auth/login`: both fields required, then the user must
      exist and `compare(password, storedHash)` must accept, and then the
      login succeeds with that user's summary. An unknown email and a wrong
      password give the same answer. */
  function Login(users: seq<User>, email: string, password: string,
                 compare: (string, string) -> bool): (r: Result<Summary, AuthFailure>)
    ensures email == "" || password == "" <==> r == Err(MissingCredentials)
    ensures r == Err(InvalidCredentials) <==>
              email != "" && password != "" &&
              (FindByEmail(users, email).None? || !compare(password, FindByEmail(users, email).value.password))
    ensures r.Ok? <==> email != "" && password != "" && FindByEmail(users, email).Some?
                       && compare(password, FindByEmail(users, email).value.password)
    ensures r.Ok? ==> r.value == SummaryOf(FindByEmail(users, email).value)
    ensures r.Ok? ==> exists i :: 0 <= i < |users| && r.value == SummaryOf(users[i])
                         && users[i].email == ToLower(Trim(email)) && compare(password, users[i].password)
  {
    if email == "" || password == "" then Err(MissingCredentials)
    else match FindByEmail(users, email)
      case None => Err(InvalidCredentials)
      case Some(u) => if !compare(password, u.password) then Err(InvalidCredentials) else Ok(SummaryOf(u))
  }

  /** A seeded record: its fields under the given id. */
  function SeedRecord(id: nat, fields: Record): Record
  {
    fields["id" := JNum(id as real)]
  }

  class Server {
    var users: seq<User>
    var expenses: seq<Record>
    var chores: seq<Record>

    /** Startup: the given user store and the seeded demo lists, whose ids
        are their positions counted from 1. */
    constructor (users: seq<User>, seedExpenses: seq<Record>, seedChores: seq<Record>)
      ensures this.users == users
      ensures |expenses| == |seedExpenses| && |chores| == |seedChores|
      ensures forall i :: 0 <= i < |expenses| ==> expenses[i] == SeedRecord(i + 1, seedExpenses[i])
      ensures forall i :: 0 <= i < |chores| ==> chores[i] == SeedRecord(i + 1, seedChores[i])
    {
      this.users := users;
      expenses := seq(|seedExpenses|, i requires 0 <= i < |seedExpenses| => SeedRecord(i + 1, seedExpenses[i]));
      chores := seq(|seedChores|, i requires 0 <= i < |seedChores| => SeedRecord(i + 1, seedChores[i]));
    }

    /** `POST /api/auth/register`. Refused, in order: a missing field, a
        confirmation that differs from the password, an email already in
        use, and a record the user schema refuses. Otherwise one user is
        added, holding `hash(password)`. */
    method Register(form: Registration, newId: UserId, hash: string -> string) returns (r: Result<Summary, AuthFailure>)
      modifies this`users
      ensures form.firstName == "" || form.lastName == "" || form.email == "" || form.password == "" ==>
                r == Err(MissingFields)
      ensures r == Err(PasswordMismatch) <==>
                form.firstName != "" && form.lastName != "" && form.email != "" && form.password != ""
                && form.password != form.confirmPassword
      ensures r == Err(EmailTaken) <==>
                form.firstName != "" && form.lastName != "" && form.email != "" && form.password != ""
                && form.password == form.confirmPassword && FindByEmail(old(users), form.email).Some?
      ensures r.Err? ==> users == old(users)
      ensures r.Ok? <==>
                && form.firstName != "" && form.lastName != "" && form.email != "" && form.password != ""
                && form.password == form.confirmPassword
                && FindByEmail(old(users), form.email).None?
                && NewUser(newId, form.firstName, form.lastName, form.email, form.password, hash).Ok?
      ensures r.Ok? ==> && var u := NewUser(newId, form.firstName, form.lastName, form.email, form.password, hash).value;
                        && users == old(users) + [u] && r.value == SummaryOf(u)
                        && u.email == ToLower(Trim(form.email)) && u.password == hash(form.password)
    {
      if form.firstName == "" || form.lastName == "" || form.email == "" || form.password == "" {
        return Err(MissingFields);
      }
      if form.password != form.confirmPassword {
        return Err(PasswordMismatch);
      }
      if FindByEmail(users, form.email).Some? {
        return Err(EmailTaken);
      }
      var created := NewUser(newId, form.firstName, form.lastName, form.email, form.password, hash);
      if created.Err? {
        return Err(Rejected(created.error));
      }
      users := users + [created.value];
      r := Ok(SummaryOf(created.value));
    }

    /** `POST /api/expenses`: appends exactly one record. */
    method AddExpense(body: Record, today: string) returns (r: Record)
      modifies this`expenses
      ensures r == NewExpense(|old(expenses)|, body, today)
      ensures expenses == old(expenses) + [r]
    {
      r := NewExpense(|expenses|, body, today);
      expenses := expenses + [r];
    }

    /** `DELETE /api/expenses/:id`: always reports success. */
    method DeleteExpense(id: Option<int>)
      modifies this`expenses
      ensures expenses == Remove(old(expenses), id)
    {
      expenses := Remove(expenses, id);
    }

    /** `POST /api/chores`: appends exactly one record, not completed. */
    method AddChore(body: Record) returns (r: Record)
      modifies this`chores
      ensures r == NewChore(|old(chores)|, body) && r["completed"] == JBool(false)
      ensures chores == old(chores) + [r]
    {
      r := NewChore(|chores|, body);
      chores := chores + [r];
    }

    /** `PATCH /api/chores/:id/toggle`: flips the first chore with that id
        and no other; an unknown id is not found and changes nothing. */
    method ToggleChore(id: Option<int>) returns (r: Option<Record>)
      modifies this`chores
      ensures FirstWithId(old(chores), id).None? ==> r == None && chores == old(chores)
      ensures FirstWithId(old(chores), id).Some? ==>
                var i := FirstWithId(old(chores), id).value;
                chores == old(chores)[i := Flip(old(chores)[i])] && r == Some(chores[i])
    {
      var found := FirstWithId(chores, id);
      if found.None? {
        return None;
      }
      var i := found.value;
      chores := chores[i := Flip(chores[i])];
      r := Some(chores[i]);
    }

    /** `DELETE /api/chores/:id`: always reports success. */
    method DeleteChore(id: Option<int>)
      modifies this`chores
      ensures chores == Remove(old(chores), id)
    {
      chores := Remove(chores, id);
    }
  }
}
