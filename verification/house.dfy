/** The house record (backend/models/House.js): its ordered member list,
    `addMember`, `removeMember` and the pre-save hook that issues the
    invite code. */
module HouseModel {
  import opened Common
  import opened Text
  import opened UserModel

  /** One entry of a house's member list. */
  datatype Membership = Membership(user: UserId, role: Role, joinedAt: Time)

  datatype SplitMethod = Equal | Custom

  /** `members.some(m => m.user === u)`. */
  predicate Listed(ms: seq<Membership>, u: UserId)
  {
    exists i :: 0 <= i < |ms| && ms[i].user == u
  }

  /** Each user appears at most once in the member list. */
  predicate UniqueUsers(ms: seq<Membership>)
  {
    forall i, j :: 0 <= i < j < |ms| ==> ms[i].user != ms[j].user
  }

  /** `u` has an entry with role admin. */
  predicate ListedAsAdmin(ms: seq<Membership>, u: UserId)
  {
    exists i :: 0 <= i < |ms| && ms[i].user == u && ms[i].role == Admin
  }

  /** `members.filter(m => m.user !== u)`: exactly the entries of other
      users survive, and `u` is no longer listed. */
  function Without(ms: seq<Membership>, u: UserId): (r: seq<Membership>)
    ensures |r| <= |ms|
    ensures forall m :: m in r <==> m in ms && m.user != u
    ensures !Listed(r, u)
  {
    if ms == [] then []
    else
      var rest := Without(ms[1..], u);
      var r := (if ms[0].user == u then [] else [ms[0]]) + rest;
      assert forall m :: m in r <==> (m == ms[0] && ms[0].user != u) || m in rest;
      assert forall m :: m in ms <==> m == ms[0] || m in ms[1..];
      r
  }

  /** The filter keeps order: it distributes over concatenation, so the
      surviving entries appear in the order they had. */
  lemma {:induction false} WithoutDistributes(a: seq<Membership>, b: seq<Membership>, u: UserId)
    ensures Without(a + b, u) == Without(a, u) + Without(b, u)
  {
    if a != [] {
      assert (a + b)[1..] == a[1..] + b;
      WithoutDistributes(a[1..], b, u);
    } else {
      assert a + b == b;
    }
  }

  /** Removing a user who is not listed changes nothing. */
  lemma {:induction false} WithoutNonMember(ms: seq<Membership>, u: UserId)
    requires !Listed(ms, u)
    ensures Without(ms, u) == ms
  {
    if ms != [] {
      assert ms[0].user != u;
      assert !Listed(ms[1..], u) by {
        forall i | 0 <= i < |ms[1..]| ensures ms[1..][i].user != u { assert ms[1..][i] == ms[i + 1]; }
      }
      WithoutNonMember(ms[1..], u);
      assert [ms[0]] + ms[1..] == ms;
    }
  }

  /** Removal keeps every other user's entry, and with it "listed" for them. */
  lemma WithoutKeepsOthers(ms: seq<Membership>, u: UserId, v: UserId)
    requires v != u
    ensures Listed(Without(ms, u), v) <==> Listed(ms, v)
    ensures ListedAsAdmin(Without(ms, u), v) <==> ListedAsAdmin(ms, v)
  {
    var r := Without(ms, u);
    if Listed(ms, v) {
      var i :| 0 <= i < |ms| && ms[i].user == v;
      assert ms[i] in r;
    }
    if Listed(r, v) {
      var i :| 0 <= i < |r| && r[i].user == v;
      assert r[i] in ms;
    }
    if ListedAsAdmin(ms, v) {
      var i :| 0 <= i < |ms| && ms[i].user == v && ms[i].role == Admin;
      assert ms[i] in r;
    }
    if ListedAsAdmin(r, v) {
      var i :| 0 <= i < |r| && r[i].user == v && r[i].role == Admin;
      assert r[i] in ms;
    }
  }

  /** Removal preserves "each user at most once". */
  lemma {:induction false} WithoutKeepsUnique(ms: seq<Membership>, u: UserId)
    requires UniqueUsers(ms)
    ensures UniqueUsers(Without(ms, u))
  {
    if ms != [] {
      var tail := ms[1..];
      assert UniqueUsers(tail) by {
        forall i, j | 0 <= i < j < |tail| ensures tail[i].user != tail[j].user {
          assert tail[i] == ms[i + 1] && tail[j] == ms[j + 1];
        }
      }
      WithoutKeepsUnique(tail, u);
      var rest := Without(tail, u);
      if ms[0].user != u {
        forall k | 0 <= k < |rest| ensures rest[k].user != ms[0].user {
          assert rest[k] in tail;
          var j :| 0 <= j < |tail| && tail[j] == rest[k];
          assert tail[j] == ms[j + 1];
        }
        var r := [ms[0]] + rest;
        forall i, j | 0 <= i < j < |r| ensures r[i].user != r[j].user {
          if i == 0 { assert r[j] == rest[j - 1]; }
          else { assert r[i] == rest[i - 1] && r[j] == rest[j - 1]; }
        }
      }
    }
  }

  /** Appending an entry for an unlisted user keeps "each user at most
      once" and makes that user listed. */
  lemma AppendKeepsUnique(ms: seq<Membership>, m: Membership)
    requires !Listed(ms, m.user)
    ensures UniqueUsers(ms) ==> UniqueUsers(ms + [m])
    ensures Listed(ms + [m], m.user)
  {
    var r := ms + [m];
    assert r[|ms|] == m;
    if UniqueUsers(ms) {
      forall i, j | 0 <= i < j < |r| ensures r[i].user != r[j].user {
        assert r[i] == ms[i];
        if j < |ms| { assert r[j] == ms[j]; }
      }
    }
  }

  /** Appending an entry keeps every admin entry already there. */
  lemma AppendKeepsAdmins(ms: seq<Membership>, m: Membership, v: UserId)
    requires ListedAsAdmin(ms, v)
    ensures ListedAsAdmin(ms + [m], v)
  {
    var i :| 0 <= i < |ms| && ms[i].user == v && ms[i].role == Admin;
    assert (ms + [m])[i] == ms[i];
  }

  /** A digit of `Number.prototype.toString(36)`. */
  predicate IsBase36Lower(c: char)
  {
    '0' <= c <= '9' || 'a' <= c <= 'z'
  }

  /** A character of an invite code: a digit or an upper-case letter. */
  predicate IsInviteChar(c: char)
  {
    '0' <= c <= '9' || 'A' <= c <= 'Z'
  }

  /** The shapes `Math.random().toString(36)` can take: "0" for zero,
      otherwise "0." followed by base-36 digits. */
  predicate IsRandomBase36(r: string)
  {
    r == "0" || (|r| >= 2 && r[..2] == "0." && forall k :: 2 <= k < |r| ==> IsBase36Lower(r[k]))
  }

  /** `String.prototype.substring(start, end)` for `start <= end`: both
      bounds are clamped to the length. */
  function Substring(s: string, start: nat, end: nat): string
    requires start <= end
  {
    var e := if end < |s| then end else |s|;
    var b := if start < e then start else e;
    s[b..e]
  }

  /** The invite code drawn by the pre-save hook from the random number's
      base-36 text: upper-case base-36, and at most 8 characters. */
  function InviteCodeFrom(random: string): (code: string)
    requires IsRandomBase36(random)
    ensures |code| <= 8
    ensures forall k :: 0 <= k < |code| ==> IsInviteChar(code[k])
  {
    var digits := Substring(random, 2, 10);
    assert forall k :: 0 <= k < |digits| ==> IsBase36Lower(digits[k]);
    ToUpper(digits)
  }

  class House {
    const id: HouseId
    var name: string
    var description: string
    const admin: UserId
    var members: seq<Membership>
    var inviteCode: string       // "" while no code has been assigned
    var currency: string
    var splitMethod: SplitMethod
    var isActive: bool

    /** A new house document, with the schema's defaults and no invite code yet. */
    constructor (id: HouseId, name: string, description: string, admin: UserId, members: seq<Membership>)
      ensures this.id == id && this.name == name && this.description == description
      ensures this.admin == admin && this.members == members
      ensures inviteCode == "" && currency == "USD" && splitMethod == Equal && isActive
    {
      this.id := id;
      this.name := name;
      this.description := description;
      this.admin := admin;
      this.members := members;
      inviteCode := "";
      currency := "USD";
      splitMethod := Equal;
      isActive := true;
    }

    /** The pre-save hook: a code is drawn only when none is present, so an
        assigned code is never overwritten. */
    method PreSave(random: string)
      requires IsRandomBase36(random)
      modifies this`inviteCode
      ensures old(inviteCode) != "" ==> inviteCode == old(inviteCode)
      ensures old(inviteCode) == "" ==> inviteCode == InviteCodeFrom(random)
    {
      if inviteCode == "" {
        inviteCode := InviteCodeFrom(random);
      }
    }

    /** `addMember`: a user not yet listed gets one entry at the end; a
        listed user leaves the list as it was. */
    method AddMember(u: UserId, now: Time, role: Role := Member)
      modifies this`members
      ensures Listed(old(members), u) ==> members == old(members)
      ensures !Listed(old(members), u) ==> members == old(members) + [Membership(u, role, now)]
      ensures UniqueUsers(old(members)) ==> UniqueUsers(members)
      ensures forall v :: ListedAsAdmin(old(members), v) ==> ListedAsAdmin(members, v)
      ensures Listed(members, u)
    {
      if !Listed(members, u) {
        AppendKeepsUnique(members, Membership(u, role, now));
        forall v | ListedAsAdmin(members, v) ensures ListedAsAdmin(members + [Membership(u, role, now)], v) {
          AppendKeepsAdmins(members, Membership(u, role, now), v);
        }
        members := members + [Membership(u, role, now)];
      }
    }

    /** `removeMember`: every entry for `u` goes, the rest keep their order. */
    method RemoveMember(u: UserId)
      modifies this`members
      ensures members == Without(old(members), u)
      ensures UniqueUsers(old(members)) ==> UniqueUsers(members)
    {
      if UniqueUsers(members) {
        WithoutKeepsUnique(members, u);
      }
      members := Without(members, u);
    }
  }
}
