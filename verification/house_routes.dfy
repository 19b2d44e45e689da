/** The house handlers of backend/routes/house.js: create a house, join
    one by invite code and leave one. The store holds the houses as a list
    of documents and the users by id. */
module HouseRoutes {
  import opened Common
  import opened Text
  import opened UserModel
  import opened HouseModel
  import opened AuthMiddleware

  datatype HouseError =
    | MissingName          // no name in the request body
    | AlreadyInHouse       // the user already belongs to a house
    | InvalidHouse         // the schema refuses the name or the description
    | CodeTaken            // the drawn invite code is already in use (unique index)
    | InvalidCode          // no house has that invite code
    | AlreadyMember        // the user is already listed in that house
    | Access(cause: AccessError)  // refused by `isHouseMember`
    | AdminCannotLeave     // the admin asked to leave

  /** `User.findByIdAndUpdate(id, { house, role })`: the user with that id
      gets the new house and role and nothing else changes; an unknown id
      changes nothing. */
  function SetHouse(users: map<UserId, User>, id: UserId, house: Option<HouseId>, role: Role)
    : (r: map<UserId, User>)
    ensures r.Keys == users.Keys
    ensures forall v :: v in users && v != id ==> r[v] == users[v]
    ensures id in users ==> r[id] == users[id].(house := house, role := role)
  {
    if id in users then users[id := users[id].(house := house, role := role)] else users
  }

  /** The schema constraints on a house's name and description, after
      trimming: a name of 1 to 50 characters, a description of at most 200. */
  predicate AcceptableHouse(name: string, description: string)
  {
    0 < |Trim(name)| <= 50 && |Trim(description)| <= 200
  }

  /** The schema's validators on the document `House.create` saves: the
      name and description constraints, and the required invite code
      ("" stands for a code not yet drawn). */
  predicate SchemaAccepts(name: string, description: string, inviteCode: string)
  {
    AcceptableHouse(name, description) && inviteCode != ""
  }

  /** `House.findOne({ inviteCode })`: the first house holding that code. */
  function FindByCode(houses: seq<House>, code: string): (r: Option<House>)
    reads houses
    ensures r.Some? ==> r.value in houses && r.value.inviteCode == code
    ensures r.None? ==> forall k :: 0 <= k < |houses| ==> houses[k].inviteCode != code
  {
    if houses == [] then None
    else if houses[0].inviteCode == code then Some(houses[0])
    else FindByCode(houses[1..], code)
  }

  /** Why `POST /api/houses` refuses, in order, when the pre-save hook
      draws `code` before the validators look: no name, then a user who
      already has a house, then a document the schema refuses, then a code
      some house already holds (the unique index). `None` means created. */
  function CreateRefusal(houses: seq<House>, me: User, name: string, description: string, code: string)
    : (r: Option<HouseError>)
    reads houses
    ensures name == "" ==> r == Some(MissingName)
    ensures name != "" && me.house.Some? ==> r == Some(AlreadyInHouse)
    ensures name != "" && me.house.None? && !SchemaAccepts(name, description, code) ==> r == Some(InvalidHouse)
    ensures r == Some(CodeTaken) <==> name != "" && me.house.None? && SchemaAccepts(name, description, code)
                                      && FindByCode(houses, code).Some?
    ensures r.None? <==> name != "" && me.house.None? && SchemaAccepts(name, description, code)
                         && forall k :: 0 <= k < |houses| ==> houses[k].inviteCode != code
  {
    if name == "" then Some(MissingName)
    else if me.house.Some? then Some(AlreadyInHouse)
    else if !SchemaAccepts(name, description, code) then Some(InvalidHouse)
    else if FindByCode(houses, code).Some? then Some(CodeTaken)
    else None
  }

  /** `POST /api/houses` as the source orders it. Mongoose runs the schema
      validators before any `pre('save')` hook, so the validators see the
      document before an invite code is drawn, and the required code is
      missing. */
  function CreateRefusalAsWritten(me: User, name: string, description: string): (r: Option<HouseError>)
    ensures name == "" ==> r == Some(MissingName)
    ensures name != "" && me.house.Some? ==> r == Some(AlreadyInHouse)
  {
    if name == "" then Some(MissingName)
    else if me.house.Some? then Some(AlreadyInHouse)
    else if !SchemaAccepts(name, description, "") then Some(InvalidHouse)
    else None
  }

  /** As written, no request creates a house: one that passes the two
      guards is refused by the validators (the handler's 500 answer). */
  lemma AsWrittenNeverCreates(me: User, name: string, description: string)
    ensures CreateRefusalAsWritten(me, name, description).Some?
    ensures name != "" && me.house.None? ==> CreateRefusalAsWritten(me, name, description) == Some(InvalidHouse)
  {
  }

  /** A request the intended order accepts and the source as written
      refuses: a fresh user naming a house "Home" in an empty store. */
  lemma AsWrittenRefusesValidRequest(me: User)
    requires me.house.None?
    ensures CreateRefusal([], me, "Home", "", InviteCodeFrom("0.k3x9")) == None
    ensures CreateRefusalAsWritten(me, "Home", "") == Some(InvalidHouse)
  {
    HomeIsAcceptable();
    SampleCodeDrawn();
  }

  /** The name "Home" with no description passes the schema's length checks. */
  lemma HomeIsAcceptable()
    ensures AcceptableHouse("Home", "")
  {
    var name := "Home";
    assert !IsWhitespace(name[0]) && !IsWhitespace(name[3]);
    assert TrimStart(name) == name;
    assert TrimEnd(name) == name;
    assert Trim("") == "";
  }

  /** A sample `toString(36)` text gives a non-empty invite code. */
  lemma SampleCodeDrawn()
    ensures IsRandomBase36("0.k3x9") && InviteCodeFrom("0.k3x9") != ""
  {
    var random := "0.k3x9";
    assert random[..2] == "0.";
    assert Substring(random, 2, 10) == random[2..];
    assert |InviteCodeFrom(random)| == 4;
  }

  /** `h` is the house `House.create` stores for the request: trimmed
      name and description, the creator as admin and as its only member
      with role admin, and the invite code `code`. */
  predicate Founded(h: House, id: HouseId, admin: UserId, name: string, description: string,
                    code: string, now: Time)
    reads h
  {
    && h.id == id && h.admin == admin && h.name == Trim(name) && h.description == Trim(description)
    && h.members == [Membership(admin, Admin, now)] && h.inviteCode == code
  }

  /** Builds the house `House.create` stores; the pre-save hook draws the
      invite code. */
  method NewHouse(id: HouseId, name: string, description: string, admin: UserId, random: string, now: Time)
    returns (h: House)
    requires IsRandomBase36(random)
    ensures fresh(h) && Founded(h, id, admin, name, description, InviteCodeFrom(random), now)
    ensures UniqueUsers(h.members) && ListedAsAdmin(h.members, h.admin)
  {
    h := new House(id, Trim(name), Trim(description), admin, [Membership(admin, Admin, now)]);
    h.PreSave(random);
    assert h.members[0].user == admin && h.members[0].role == Admin;
  }

  /** Every house lists each user at most once, lists its admin with role
      admin, and holds an invite code. */
  predicate WellListed(hs: seq<House>)
    reads set k | 0 <= k < |hs| :: hs[k]
  {
    forall k :: 0 <= k < |hs| ==>
      UniqueUsers(hs[k].members) && ListedAsAdmin(hs[k].members, hs[k].admin) && hs[k].inviteCode != ""
  }

  /** No two houses share an invite code (the unique index). */
  predicate UniqueCodes(hs: seq<House>)
    reads set k | 0 <= k < |hs| :: hs[k]
  {
    forall i, j :: 0 <= i < j < |hs| ==> hs[i].inviteCode != hs[j].inviteCode
  }

  /** Appending a well-listed house whose code no house holds keeps both
      store invariants. */
  lemma StoreSnoc(hs: seq<House>, h: House)
    requires WellListed(hs) && UniqueCodes(hs)
    requires UniqueUsers(h.members) && ListedAsAdmin(h.members, h.admin) && h.inviteCode != ""
    requires forall k :: 0 <= k < |hs| ==> hs[k].inviteCode != h.inviteCode
    ensures WellListed(hs + [h]) && UniqueCodes(hs + [h])
  {
    var r := hs + [h];
    assert forall k :: 0 <= k < |hs| ==> r[k] == hs[k];
    assert r[|hs|] == h;
  }

  class HouseService {
    var houses: seq<House>
    var users: map<UserId, User>

    /** Every house lists each user at most once, lists its admin with
        role admin and holds an invite code, and no two houses share a code. */
    ghost predicate Valid()
      reads this, houses
    {
      WellListed(houses) && UniqueCodes(houses)
    }

    constructor (users: map<UserId, User>)
      ensures this.houses == [] && this.users == users
      ensures Valid()
    {
      this.houses := [];
      this.users := users;
    }

    /** `POST /api/houses`, with the pre-save hook's code in place when
        the validators run: refused with the error `CreateRefusal` names,
        changing nothing; otherwise the house the request describes is
        appended and the creator's record takes the house and role admin. */
    method CreateHouse(me: User, name: string, description: string, newId: HouseId, random: string, now: Time)
      returns (r: Result<House, HouseError>)
      requires Valid()
      requires IsRandomBase36(random)
      requires forall k :: 0 <= k < |houses| ==> houses[k].id != newId
      modifies this
      ensures Valid()
      ensures r.Err? ==> && Some(r.error) == old(CreateRefusal(houses, me, name, description, InviteCodeFrom(random)))
                         && houses == old(houses) && users == old(users)
      ensures r.Ok? ==> && old(CreateRefusal(houses, me, name, description, InviteCodeFrom(random))).None?
                        && fresh(r.value) && houses == old(houses) + [r.value]
                        && Founded(r.value, newId, me.id, name, description, InviteCodeFrom(random), now)
                        && users == SetHouse(old(users), me.id, Some(newId), Admin)
    {
      var refusal := CreateRefusal(houses, me, name, description, InviteCodeFrom(random));
      if refusal.Some? {
        return Err(refusal.value);
      }
      var h := NewHouse(newId, name, description, me.id, random, now);
      StoreSnoc(houses, h);
      houses := houses + [h];
      users := SetHouse(users, me.id, Some(newId), Admin);
      r := Ok(h);
    }

    /** `POST /api/houses/join/:inviteCode`. A user already in a house is
        refused, then the code is looked up in upper case, then a user
        already listed is refused. A request passing these checks succeeds:
        the user is appended as a member and the user's record takes the
        house and role member. Only member lists and the user store
        change, and a refusal changes nothing. */
    method Join(me: User, code: string, now: Time) returns (r: Result<House, HouseError>)
      requires Valid()
      modifies this`users, houses`members
      ensures Valid()
      ensures houses == old(houses)
      ensures me.house.Some? ==> r == Err(AlreadyInHouse)
      ensures me.house.None? && old(FindByCode(houses, ToUpper(code))).None? ==> r == Err(InvalidCode)
      ensures r.Err? ==> users == old(users) && forall k :: 0 <= k < |houses| ==> houses[k].members == old(houses[k].members)
      ensures r == Err(AlreadyMember) <==>
                me.house.None? && old(FindByCode(houses, ToUpper(code))).Some?
                && Listed(old(FindByCode(houses, ToUpper(code)).value.members), me.id)
      ensures r.Ok? <==>
                me.house.None? && old(FindByCode(houses, ToUpper(code))).Some?
                && !Listed(old(FindByCode(houses, ToUpper(code)).value.members), me.id)
      ensures r.Ok? ==> && me.house.None?
                        && Some(r.value) == old(FindByCode(houses, ToUpper(code)))
                        && r.value.members == old(r.value.members) + [Membership(me.id, Member, now)]
                        && users == SetHouse(old(users), me.id, Some(r.value.id), Member)
                        && forall k :: 0 <= k < |houses| && houses[k] != r.value ==> houses[k].members == old(houses[k].members)
    {
      if me.house.Some? {
        return Err(AlreadyInHouse);
      }
      var found := FindByCode(houses, ToUpper(code));
      if found.None? {
        return Err(InvalidCode);
      }
      var h := found.value;
      if Listed(h.members, me.id) {
        return Err(AlreadyMember);
      }
      h.AddMember(me.id, now);
      users := SetHouse(users, me.id, Some(h.id), Member);
      r := Ok(h);
    }

    /** `DELETE /api/houses/:houseId/leave`, behind `isHouseMember`. The
        admin is refused; anyone else is removed from the member list and
        the user's record loses its house and falls back to role member.
        Only member lists and the user store change, and a refusal changes
        nothing. */
    method Leave(me: User, houseId: HouseId) returns (r: Result<House, HouseError>)
      requires Valid()
      modifies this`users, houses`members
      ensures Valid()
      ensures houses == old(houses)
      ensures old(IsHouseMember(houses, Some(houseId), None, me)).Err? ==>
                r == Err(Access(old(IsHouseMember(houses, Some(houseId), None, me)).error))
      ensures r.Err? ==> users == old(users) && forall k :: 0 <= k < |houses| ==> houses[k].members == old(houses[k].members)
      ensures r == Err(AdminCannotLeave) <==>
                old(IsHouseMember(houses, Some(houseId), None, me)).Ok?
                && old(IsHouseMember(houses, Some(houseId), None, me)).value.admin == me.id
      ensures r.Ok? <==>
                old(IsHouseMember(houses, Some(houseId), None, me)).Ok?
                && old(IsHouseMember(houses, Some(houseId), None, me)).value.admin != me.id
      ensures r.Ok? ==> && Some(r.value) == old(FindHouse(houses, Some(houseId)))
                        && r.value.admin != me.id
                        && r.value.members == Without(old(r.value.members), me.id)
                        && users == SetHouse(old(users), me.id, None, Member)
                        && forall k :: 0 <= k < |houses| && houses[k] != r.value ==> houses[k].members == old(houses[k].members)
    {
      var access := IsHouseMember(houses, Some(houseId), None, me);
      if access.Err? {
        return Err(Access(access.error));
      }
      var h := access.value;
      if h.admin == me.id {
        return Err(AdminCannotLeave);
      }
      ghost var before := h.members;
      h.RemoveMember(me.id);
      WithoutKeepsOthers(before, me.id, h.admin);
      users := SetHouse(users, me.id, None, Member);
      r := Ok(h);
    }
  }
}
