/** The sign-in and sign-up forms of src/components/AuthPages.jsx: the
    password-strength score and its label, the email pattern, the two
    form validators and the input handler, over the form's state. */
module AuthPages {
  import opened Common
  import opened Text

  predicate IsLowerLetter(c: char) { 'a' <= c <= 'z' }
  predicate IsUpperLetter(c: char) { 'A' <= c <= 'Z' }
  predicate IsDigit(c: char) { '0' <= c <= '9' }

  /** `/[a-z]/`, `/[A-Z]/`, `/\d/` and `/[^a-zA-Z0-9]/` each find a match. */
  predicate HasLower(p: string) { exists k :: 0 <= k < |p| && IsLowerLetter(p[k]) }
  predicate HasUpper(p: string) { exists k :: 0 <= k < |p| && IsUpperLetter(p[k]) }
  predicate HasDigit(p: string) { exists k :: 0 <= k < |p| && IsDigit(p[k]) }
  predicate HasSymbol(p: string)
  {
    exists k :: 0 <= k < |p| && !IsLowerLetter(p[k]) && !IsUpperLetter(p[k]) && !IsDigit(p[k])
  }

  function Point(b: bool): nat { if b then 1 else 0 }

  /** `checkPasswordStrength`: one point per criterion met (length of at
      least 8, a lower-case letter, an upper-case letter, a digit, any other
      character), so a score from 0 to 5; 5 exactly when all are met and 0
      exactly when none is. */
  function Strength(p: string): (r: nat)
    ensures r <= 5
    ensures r == 5 <==> |p| >= 8 && HasLower(p) && HasUpper(p) && HasDigit(p) && HasSymbol(p)
    ensures r == 0 <==> |p| < 8 && !HasLower(p) && !HasUpper(p) && !HasDigit(p) && !HasSymbol(p)
  {
    Point(|p| >= 8) + Point(HasLower(p)) + Point(HasUpper(p)) + Point(HasDigit(p)) + Point(HasSymbol(p))
  }

  /** Typing one more character never lowers the score. */
  lemma StrengthGrows(p: string, c: char)
    ensures Strength(p + [c]) >= Strength(p)
  {
    var q := p + [c];
    assert forall k :: 0 <= k < |p| ==> q[k] == p[k];
    if HasLower(p) {
      var k :| 0 <= k < |p| && IsLowerLetter(p[k]);
      assert IsLowerLetter(q[k]);
    }
    if HasUpper(p) {
      var k :| 0 <= k < |p| && IsUpperLetter(p[k]);
      assert IsUpperLetter(q[k]);
    }
    if HasDigit(p) {
      var k :| 0 <= k < |p| && IsDigit(p[k]);
      assert IsDigit(q[k]);
    }
    if HasSymbol(p) {
      var k :| 0 <= k < |p| && !IsLowerLetter(p[k]) && !IsUpperLetter(p[k]) && !IsDigit(p[k]);
      assert !IsLowerLetter(q[k]) && !IsUpperLetter(q[k]) && !IsDigit(q[k]);
    }
  }

  /** `getPasswordStrengthText`. */
  function StrengthLabel(n: nat): (r: string)
    ensures r == "Weak" <==> n <= 2
    ensures r == "Fair" <==> n == 3
    ensures r == "Good" <==> n == 4
    ensures r == "Strong" <==> n >= 5
  {
    if n <= 2 then "Weak" else if n == 3 then "Fair" else if n == 4 then "Good" else "Strong"
  }

  /** A password is labelled strong exactly when it meets all five criteria. */
  lemma StrongMeansAllCriteria(p: string)
    ensures StrengthLabel(Strength(p)) == "Strong" <==>
              |p| >= 8 && HasLower(p) && HasUpper(p) && HasDigit(p) && HasSymbol(p)
  {
  }

  /** A character `[^\s@]` accepts. */
  predicate Plain(c: char) { !IsWhitespace(c) && c != '@' }

  predicate AllPlain(t: string) { forall k :: 0 <= k < |t| ==> Plain(t[k]) }

  /** A dot with at least one character on each side. */
  predicate DotInside(d: string) { exists k :: 0 < k < |d| - 1 && d[k] == '.' }

  /** `/^[^\s@]+@[^\s@]+\.[^\s@]+$/`: a non-empty local part, an `@`, and a
      domain with an inner dot, none of them holding white space or `@`. */
  predicate ValidEmail(s: string)
  {
    exists i :: 0 < i < |s| && s[i] == '@' && AllPlain(s[..i]) && AllPlain(s[i + 1..]) && DotInside(s[i + 1..])
  }

  function CountOf(s: string, c: char): nat
  {
    if s == [] then 0 else CountOf(s[..|s| - 1], c) + (if s[|s| - 1] == c then 1 else 0)
  }

  lemma {:induction false} CountOfAppend(a: string, b: string, c: char)
    ensures CountOf(a + b, c) == CountOf(a, c) + CountOf(b, c)
  {
    if b == [] {
      assert a + b == a;
    } else {
      assert (a + b)[..|a + b| - 1] == a + b[..|b| - 1];
      CountOfAppend(a, b[..|b| - 1], c);
    }
  }

  lemma {:induction false} CountOfZero(s: string, c: char)
    ensures CountOf(s, c) == 0 <==> c !in s
  {
    if s != [] {
      CountOfZero(s[..|s| - 1], c);
      assert s == s[..|s| - 1] + [s[|s| - 1]];
    }
  }

  predicate NoWhitespace(s: string) { forall k :: 0 <= k < |s| ==> !IsWhitespace(s[k]) }

  /** Around an `@` at `i`, it is the only one exactly when neither side
      holds another. */
  lemma OnlyAt(s: string, i: nat)
    requires i < |s| && s[i] == '@'
    ensures CountOf(s, '@') == 1 <==> '@' !in s[..i] && '@' !in s[i + 1..]
  {
    assert s == (s[..i] + [s[i]]) + s[i + 1..];
    CountOfAppend(s[..i] + [s[i]], s[i + 1..], '@');
    CountOfAppend(s[..i], [s[i]], '@');
    assert CountOf([s[i]], '@') == 1 by {
      assert [s[i]][..0] == [];
    }
    CountOfZero(s[..i], '@');
    CountOfZero(s[i + 1..], '@');
  }

  /** Around an `@` at `i`, both sides are plain exactly when the string has
      no white space and neither side holds another `@`. */
  lemma PlainSides(s: string, i: nat)
    requires i < |s| && s[i] == '@'
    ensures AllPlain(s[..i]) && AllPlain(s[i + 1..]) <==>
              NoWhitespace(s) && '@' !in s[..i] && '@' !in s[i + 1..]
  {
    var left, right := s[..i], s[i + 1..];
    assert forall k :: 0 <= k < i ==> left[k] == s[k];
    assert forall k :: 0 <= k < |right| ==> right[k] == s[k + i + 1];
    if AllPlain(left) && AllPlain(right) {
      forall k | 0 <= k < |s| ensures !IsWhitespace(s[k]) {
        if k < i {
          assert Plain(left[k]);
        } else if k > i {
          assert Plain(right[k - i - 1]);
        }
      }
    }
  }

  /** The pattern in plain terms: no white space anywhere, exactly one `@`,
      something before it, and a dot inside the part after it. */
  lemma ValidEmailMeans(s: string)
    ensures ValidEmail(s) <==>
              && NoWhitespace(s)
              && CountOf(s, '@') == 1
              && exists i :: 0 < i < |s| && s[i] == '@' && DotInside(s[i + 1..])
  {
    if ValidEmail(s) {
      var i :| 0 < i < |s| && s[i] == '@' && AllPlain(s[..i]) && AllPlain(s[i + 1..]) && DotInside(s[i + 1..]);
      PlainSides(s, i);
      OnlyAt(s, i);
    }
    if && NoWhitespace(s)
       && CountOf(s, '@') == 1
       && exists i :: 0 < i < |s| && s[i] == '@' && DotInside(s[i + 1..])
    {
      var i :| 0 < i < |s| && s[i] == '@' && DotInside(s[i + 1..]);
      OnlyAt(s, i);
      PlainSides(s, i);
    }
  }

  datatype FormField = FirstName | LastName | Email | Password | ConfirmPassword

  /** What an error entry says; `Cleared` is the empty message the input
      handler leaves behind. */
  datatype Problem = Required | TooShort | Invalid | TooWeak | Mismatch | Cleared

  datatype FormData = FormData(firstName: string, lastName: string, email: string, password: string,
                               confirmPassword: string)

  function Get(d: FormData, f: FormField): string
  {
    match f
    case FirstName => d.firstName
    case LastName => d.lastName
    case Email => d.email
    case Password => d.password
    case ConfirmPassword => d.confirmPassword
  }

  /** `{ ...prev, [name]: value }`: that field changes, no other. */
  function WithField(d: FormData, f: FormField, v: string): (r: FormData)
    ensures forall g :: Get(r, g) == if g == f then v else Get(d, g)
  {
    match f
    case FirstName => d.(firstName := v)
    case LastName => d.(lastName := v)
    case Email => d.(email := v)
    case Password => d.(password := v)
    case ConfirmPassword => d.(confirmPassword := v)
  }

  const Blank := FormData("", "", "", "", "")

  /** Adds an entry when there is a problem to report. */
  function Note(m: map<FormField, Problem>, f: FormField, p: Option<Problem>): map<FormField, Problem>
  {
    if p.Some? then m[f := p.value] else m
  }

  function EmailProblem(email: string): Option<Problem>
  {
    if email == "" then Some(Required) else if !ValidEmail(email) then Some(Invalid) else None
  }

  function NameProblem(name: string): Option<Problem>
  {
    if Trim(name) == "" then Some(Required) else if |Trim(name)| < 2 then Some(TooShort) else None
  }

  /** `validateLoginForm`'s error object: an email problem (missing, then
      malformed) and a missing password; valid exactly when empty. */
  function LoginErrors(d: FormData): (r: map<FormField, Problem>)
    ensures r.Keys <= {Email, Password}
    ensures Email in r <==> !ValidEmail(d.email)
    ensures Password in r <==> d.password == ""
    ensures r == map[] <==> d.email != "" && ValidEmail(d.email) && d.password != ""
  {
    var m := Note(map[], Email, EmailProblem(d.email));
    Note(m, Password, if d.password == "" then Some(Required) else None)
  }

  const AllFields: set<FormField> := {FirstName, LastName, Email, Password, ConfirmPassword}

  /** The problem `validateSignupForm` reports for one field, if any: for
      each, the first failing check in the order the source tries them. */
  function SignupProblem(d: FormData, strength: nat, f: FormField): Option<Problem>
  {
    match f
    case FirstName => NameProblem(d.firstName)
    case LastName => NameProblem(d.lastName)
    case Email => EmailProblem(d.email)
    case Password =>
      if d.password == "" then Some(Required)
      else if |d.password| < 8 then Some(TooShort)
      else if strength < 3 then Some(TooWeak) else None
    case ConfirmPassword =>
      if d.confirmPassword == "" then Some(Required)
      else if d.password != d.confirmPassword then Some(Mismatch) else None
  }

  /** `validateSignupForm`'s error object, given the strength score the
      form holds; each field is checked on its own. */
  function SignupErrors(d: FormData, strength: nat): (r: map<FormField, Problem>)
    ensures FirstName in r <==> |Trim(d.firstName)| < 2
    ensures LastName in r <==> |Trim(d.lastName)| < 2
    ensures Email in r <==> !ValidEmail(d.email)
    ensures Password in r <==> |d.password| < 8 || strength < 3
    ensures ConfirmPassword in r <==> d.confirmPassword == "" || d.password != d.confirmPassword
    ensures r == map[] <==> FirstName !in r && LastName !in r && Email !in r && Password !in r && ConfirmPassword !in r
  {
    var r := map f | f in AllFields && SignupProblem(d, strength, f).Some? :: SignupProblem(d, strength, f).value;
    assert forall f :: f in r <==> SignupProblem(d, strength, f).Some?;
    assert r == map[] <==> r.Keys == {};
    r
  }

  /** The sign-up checks: both trimmed names have at least 2 characters,
      the email matches the pattern, the password has at least 8 characters
      and a score of at least 3, and the confirmation is present and equal
      to it. */
  predicate SignupPasses(d: FormData, strength: nat)
  {
    && |Trim(d.firstName)| >= 2 && |Trim(d.lastName)| >= 2 && ValidEmail(d.email)
    && |d.password| >= 8 && strength >= 3
    && d.confirmPassword != "" && d.confirmPassword == d.password
  }

  /** The sign-up form is accepted exactly when every check passes. */
  lemma SignupAccepts(d: FormData, strength: nat)
    ensures SignupErrors(d, strength) == map[] <==> SignupPasses(d, strength)
  {
  }

  /** The state of the form component. */
  class AuthForm {
    var data: FormData
    var errors: map<FormField, Problem>
    var strength: nat

    /** The score shown is the score of the password typed. */
    ghost predicate Valid()
      reads this
    {
      strength == Strength(data.password)
    }

    /** The initial state, also restored on every switch between the two
        pages: blank fields, no errors, score 0. */
    constructor ()
      ensures data == Blank && errors == map[] && strength == 0 && Valid()
    {
      data := Blank;
      errors := map[];
      strength := 0;
    }

    method Reset()
      modifies this
      ensures data == Blank && errors == map[] && strength == 0 && Valid()
    {
      data := Blank;
      errors := map[];
      strength := 0;
    }

    /** `handleInputChange`: the named field takes the value; that field's
        error, when it has a message, is emptied and no other error moves;
        the score is recomputed only for the password. */
    method HandleInputChange(name: FormField, value: string)
      requires Valid()
      modifies this
      ensures Valid()
      ensures forall f :: Get(data, f) == if f == name then value else Get(old(data), f)
      ensures errors == if name in old(errors) && old(errors)[name] != Cleared
                        then old(errors)[name := Cleared] else old(errors)
      ensures strength == if name == Password then Strength(value) else old(strength)
    {
      data := WithField(data, name, value);
      if name in errors && errors[name] != Cleared {
        errors := errors[name := Cleared];
      }
      if name == Password {
        strength := Strength(value);
      }
    }

    /** `validateLoginForm`: records the errors and accepts exactly when
        there are none. */
    method ValidateLogin() returns (ok: bool)
      modifies this`errors
      ensures errors == LoginErrors(data)
      ensures ok <==> data.email != "" && ValidEmail(data.email) && data.password != ""
    {
      errors := LoginErrors(data);
      ok := errors == map[];
    }

    /** `validateSignupForm`: records the errors and accepts exactly when
        there are none, which `SignupAccepts` shows to be exactly when every
        sign-up check passes. */
    method ValidateSignup() returns (ok: bool)
      modifies this`errors
      ensures errors == SignupErrors(data, strength)
      ensures ok <==> errors == map[]
    {
      errors := SignupErrors(data, strength);
      ok := errors == map[];
    }
  }
}
