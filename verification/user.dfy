/** The user record (backend/models/User.js): field defaults, the
    constraints the schema enforces when a user is created, the default
    avatar and the public profile. */
module UserModel {
  import opened Common
  import opened Text

  /** A user's role, and a membership entry's role. */
  datatype Role = Admin | Member

  datatype User = User(
    id: UserId,
    firstName: string,
    lastName: string,
    email: string,
    password: string,         // the stored credential: the hash, never the clear text
    avatar: string,
    house: Option<HouseId>,   // null when the user belongs to no house
    role: Role,
    isActive: bool)

  /** The fields whose schema validator can refuse a new user. */
  datatype UserField = FirstName | LastName | Email | Password

  /** `${name[0]}` in a template literal: the first character, or the text
      "undefined" when the name is empty. */
  function InitialOf(name: string): string
  {
    if |name| > 0 then [name[0]] else "undefined"
  }

  /** The avatar default: both initials, upper-cased. */
  function DefaultAvatar(firstName: string, lastName: string): string
  {
    ToUpper(InitialOf(firstName) + InitialOf(lastName))
  }

  /** For non-empty names the avatar is exactly the two upper-cased initials. */
  lemma AvatarIsInitials(firstName: string, lastName: string)
    requires |firstName| > 0 && |lastName| > 0
    ensures DefaultAvatar(firstName, lastName) == [UpperChar(firstName[0]), UpperChar(lastName[0])]
  {
  }

  /** The schema validators that fail for the given (already trimmed or
      lower-cased) field values. The email pattern is not part of this model. */
  function FieldErrors(firstName: string, lastName: string, email: string, password: string): set<UserField>
  {
    (if |firstName| < 2 then {FirstName} else {})
    + (if |lastName| < 2 then {LastName} else {})
    + (if email == "" then {Email} else {})
    + (if |password| < 8 then {Password} else {})
  }

  /** Creating a user document: names and email are trimmed, the email
      lower-cased, the defaults filled in, the validators run, and the
      pre-save hook stores `hash(password)` in place of the password. */
  function NewUser(id: UserId, firstName: string, lastName: string, email: string, password: string,
                   hash: string -> string): (r: Result<User, set<UserField>>)
    ensures r.Ok? <==> |Trim(firstName)| >= 2 && |Trim(lastName)| >= 2 && Trim(email) != [] && |password| >= 8
    ensures r.Err? ==> r.error != {}
    ensures r.Ok? ==> r.value.house == None && r.value.role == Member && r.value.isActive
    ensures r.Ok? ==> r.value.id == id && r.value.firstName == Trim(firstName) && r.value.lastName == Trim(lastName)
    ensures r.Ok? ==> r.value.email == ToLower(Trim(email)) && r.value.password == hash(password)
    ensures r.Ok? ==> r.value.avatar == [UpperChar(Trim(firstName)[0]), UpperChar(Trim(lastName)[0])]
  {
    var first, last, mail := Trim(firstName), Trim(lastName), ToLower(Trim(email));
    var errors := FieldErrors(first, last, mail, password);
    if errors != {} then Err(errors)
    else
      Ok(User(id, first, last, mail, hash(password), DefaultAvatar(first, last), None, Member, true))
  }

  /** What `getPublicProfile` exposes. */
  datatype PublicProfile = PublicProfile(
    id: UserId, firstName: string, lastName: string, email: string,
    avatar: string, role: Role, house: Option<HouseId>)

  function GetPublicProfile(u: User): PublicProfile
  {
    PublicProfile(u.id, u.firstName, u.lastName, u.email, u.avatar, u.role, u.house)
  }

  /** The public profile never depends on the stored password. */
  lemma ProfileHidesPassword(u: User, other: string)
    ensures GetPublicProfile(u.(password := other)) == GetPublicProfile(u)
  {
  }
}
