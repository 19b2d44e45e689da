/** The request guards of backend/middleware/auth.js: `protect`, which
    turns an Authorization header into an active user, and the house
    checks `isHouseMember` and `isHouseAdmin`. Token verification is an
    oracle; the user store is a map and the house store a list. */
module AuthMiddleware {
  import opened Common
  import opened Text
  import opened UserModel
  import opened HouseModel

  /** Why `protect` turns a request away. */
  datatype AuthError = NoToken | InvalidToken | UserNotFound | Deactivated

  /** Why a house check turns a request away. */
  datatype AccessError = HouseNotFound | Forbidden

  /** The token `protect` reads: the second space-separated word of a
      header starting with "Bearer" ("" stands for an absent header). An
      empty or missing second word is no token at all. */
  function BearerToken(authorization: string): (r: Option<string>)
    ensures !StartsWith(authorization, "Bearer") ==> r == None
    ensures r.Some? ==> r.value != [] && ' ' !in r.value
    ensures r.Some? ==> |Split(authorization, ' ')| >= 2 && Split(authorization, ' ')[1] == r.value
  {
    if !StartsWith(authorization, "Bearer") then None
    else
      var parts := Split(authorization, ' ');
      if |parts| < 2 || parts[1] == [] then None else Some(parts[1])
  }

  /** A header built the way the client builds it gives back its token. */
  lemma BearerRoundTrip(token: string)
    requires token != [] && ' ' !in token
    ensures BearerToken("Bearer " + token) == Some(token)
  {
    var header := "Bearer " + token;
    assert header == "Bearer" + [' '] + token;
    SplitTwoWords("Bearer", token, ' ');
    assert header[..6] == "Bearer";
  }

  /** `protect`: no token, a token the verifier refuses, an id with no
      user, and a deactivated user are refused in that order; otherwise
      the request goes on as the stored user. */
  function Protect(authorization: string, verify: string -> Option<UserId>, users: map<UserId, User>)
    : (r: Result<User, AuthError>)
    ensures r == Err(NoToken) <==> BearerToken(authorization).None?
    ensures r == Err(InvalidToken) <==>
              BearerToken(authorization).Some? && verify(BearerToken(authorization).value).None?
    ensures r == Err(UserNotFound) <==>
              && BearerToken(authorization).Some?
              && verify(BearerToken(authorization).value).Some?
              && verify(BearerToken(authorization).value).value !in users
    ensures r == Err(Deactivated) <==>
              && BearerToken(authorization).Some?
              && verify(BearerToken(authorization).value).Some?
              && verify(BearerToken(authorization).value).value in users
              && !users[verify(BearerToken(authorization).value).value].isActive
    ensures r.Ok? <==>
              && BearerToken(authorization).Some?
              && verify(BearerToken(authorization).value).Some?
              && verify(BearerToken(authorization).value).value in users
              && users[verify(BearerToken(authorization).value).value].isActive
    ensures r.Ok? ==> r.value == users[verify(BearerToken(authorization).value).value] && r.value.isActive
  {
    match BearerToken(authorization)
    case None => Err(NoToken)
    case Some(token) =>
      match verify(token)
      case None => Err(InvalidToken)
      case Some(id) =>
        if id !in users then Err(UserNotFound)
        else if !users[id].isActive then Err(Deactivated)
        else Ok(users[id])
  }

  /** A well-formed header whose token names an active user is let through. */
  lemma ProtectAcceptsActiveUser(token: string, verify: string -> Option<UserId>, users: map<UserId, User>, id: UserId)
    requires token != [] && ' ' !in token
    requires verify(token) == Some(id) && id in users && users[id].isActive
    ensures Protect("Bearer " + token, verify, users) == Ok(users[id])
  {
    BearerRoundTrip(token);
  }

  /** `House.findById`: the first house with that id; an absent id finds
      nothing. */
  function FindHouse(houses: seq<House>, id: Option<HouseId>): (r: Option<House>)
    ensures r.Some? ==> r.value in houses && id == Some(r.value.id)
    ensures r.None? ==> forall k :: 0 <= k < |houses| ==> id != Some(houses[k].id)
  {
    if houses == [] then None
    else if id == Some(houses[0].id) then Some(houses[0])
    else FindHouse(houses[1..], id)
  }

  /** The first present id among the route parameter, the body field and,
      for the member check, the user's own house. */
  function FirstPresent(a: Option<HouseId>, b: Option<HouseId>): Option<HouseId>
  {
    if a.Some? then a else b
  }

  /** `isHouseMember`: the house comes from the route parameter, the body
      or the user's house, in that order; an unknown house is not found,
      and a known one admits its admin and its listed members. */
  function IsHouseMember(houses: seq<House>, param: Option<HouseId>, body: Option<HouseId>, me: User)
    : (r: Result<House, AccessError>)
    reads houses
    ensures var found := FindHouse(houses, FirstPresent(param, FirstPresent(body, me.house)));
            && (r == Err(HouseNotFound) <==> found.None?)
            && (r.Ok? <==> found.Some? && (me.id == found.value.admin || Listed(found.value.members, me.id)))
            && (r.Ok? ==> r.value == found.value)
  {
    match FindHouse(houses, FirstPresent(param, FirstPresent(body, me.house)))
    case None => Err(HouseNotFound)
    case Some(h) =>
      if h.admin == me.id then Ok(h)
      else if Listed(h.members, me.id) then Ok(h)
      else Err(Forbidden)
  }

  /** `isHouseAdmin`: the house comes from the route parameter or the
      body only; a known house admits its admin and the members listed
      with role admin. */
  function IsHouseAdmin(houses: seq<House>, param: Option<HouseId>, body: Option<HouseId>, me: User)
    : (r: Result<House, AccessError>)
    reads houses
    ensures var found := FindHouse(houses, FirstPresent(param, body));
            && (r == Err(HouseNotFound) <==> found.None?)
            && (r.Ok? <==> found.Some? && (me.id == found.value.admin || ListedAsAdmin(found.value.members, me.id)))
            && (r.Ok? ==> r.value == found.value)
  {
    match FindHouse(houses, FirstPresent(param, body))
    case None => Err(HouseNotFound)
    case Some(h) =>
      if h.admin != me.id && !ListedAsAdmin(h.members, me.id) then Err(Forbidden)
      else Ok(h)
  }

  /** Whoever passes the admin check passes the member check for the same
      request, and for the same house. */
  lemma AdminPassesMemberCheck(houses: seq<House>, param: Option<HouseId>, body: Option<HouseId>, me: User)
    requires IsHouseAdmin(houses, param, body, me).Ok?
    ensures IsHouseMember(houses, param, body, me) == IsHouseAdmin(houses, param, body, me)
  {
    var h := IsHouseAdmin(houses, param, body, me).value;
    assert FirstPresent(param, body).Some?;
    if !(me.id == h.admin) {
      var i :| 0 <= i < |h.members| && h.members[i].user == me.id && h.members[i].role == Admin;
      assert Listed(h.members, me.id);
    }
  }

  /** Without a parameter or a body field, the admin check finds no house,
      whereas the member check falls back on the user's own house. */
  lemma AdminCheckHasNoFallback(houses: seq<House>, me: User)
    ensures IsHouseAdmin(houses, None, None, me) == Err(HouseNotFound)
  {
  }
}
