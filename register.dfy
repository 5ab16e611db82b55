/**
 * The registration form's schema (movies-web/src/pages/Register.jsx): the
 * field checks of `RegisterSchema` and the error text of a failed
 * submission. The e-mail check belongs to the validation library and is an
 * input here.
 */
module Register {
  import opened Wrappers
  import Js

  /** One element of an anchored regular expression with fixed repetition: `\d` or a literal character. */
  datatype Atom = Digit | Literal(c: char)

  /** What `\d` matches without the `u` flag: the ASCII digits only. */
  predicate IsAsciiDigit(c: char) {
    '0' <= c <= '9'
  }

  predicate AtomMatches(a: Atom, c: char) {
    match a
    case Digit => IsAsciiDigit(c)
    case Literal(l) => c == l
  }

  /** `^p$` matches `s`. */
  predicate Matches(p: seq<Atom>, s: string) {
    if p == [] then s == []
    else s != [] && AtomMatches(p[0], s[0]) && Matches(p[1..], s[1..])
  }

  /** `a{n}`. */
  function Repeat(a: Atom, n: nat): (p: seq<Atom>)
    ensures |p| == n && forall i :: 0 <= i < n ==> p[i] == a
  {
    if n == 0 then [] else [a] + Repeat(a, n - 1)
  }

  /** A pattern without alternatives matches exactly the strings of its length that match it position by position. */
  lemma {:induction false} MatchesByPosition(p: seq<Atom>, s: string)
    ensures Matches(p, s) <==> |s| == |p| && forall i :: 0 <= i < |p| ==> AtomMatches(p[i], s[i])
  {
    if p != [] && s != [] {
      MatchesByPosition(p[1..], s[1..]);
      if |s| == |p| && forall i :: 0 <= i < |p| ==> AtomMatches(p[i], s[i]) {
        forall i | 0 <= i < |p| - 1 ensures AtomMatches(p[1..][i], s[1..][i]) {
          assert AtomMatches(p[i + 1], s[i + 1]);
        }
      }
    }
  }

  /** `/^\d{10}$/`. */
  const PhonePattern: seq<Atom> := Repeat(Digit, 10)
  /** `/^\d{4}-\d{2}-\d{2}$/`. */
  const DobPattern: seq<Atom> := Repeat(Digit, 4) + [Literal('-')] + Repeat(Digit, 2) + [Literal('-')] + Repeat(Digit, 2)

  /** `z.string().min(3)`. */
  predicate UsernameValid(username: string) {
    |username| >= 3
  }

  /** `z.string().min(6)`. */
  predicate PasswordValid(password: string) {
    |password| >= 6
  }

  /** `/^\d{10}$/` on the phone field: valid exactly when it is ten ASCII digits. */
  function PhoneValid(phone: string): (b: bool)
    ensures b <==> |phone| == 10 && forall i :: 0 <= i < 10 ==> IsAsciiDigit(phone[i])
  {
    MatchesByPosition(PhonePattern, phone);
    Matches(PhonePattern, phone)
  }

  /**
   * `/^\d{4}-\d{2}-\d{2}$/` on the date-of-birth field: valid exactly when it
   * is four digits, '-', two digits, '-', two digits; there is no check of
   * month or day ranges.
   */
  function DobValid(dob: string): (b: bool)
    ensures b <==>
      && |dob| == 10 && dob[4] == '-' && dob[7] == '-'
      && forall i :: 0 <= i < 10 && i != 4 && i != 7 ==> IsAsciiDigit(dob[i])
  {
    MatchesByPosition(DobPattern, dob);
    assert forall i :: 0 <= i < 10 && i != 4 && i != 7 ==> DobPattern[i] == Digit;
    assert DobPattern[4] == Literal('-') && DobPattern[7] == Literal('-');
    Matches(DobPattern, dob)
  }

  /** The shape check accepts dates no calendar has. */
  lemma DobAcceptsImpossibleDate()
    ensures DobValid("2024-13-45")
  {
  }

  /** The form's values. */
  datatype Form = Form(username: string, email: string, password: string, phone: string, dob: string)

  datatype Issue = Issue(field: string, message: string)

  /**
   * The issues the schema reports, in the order of its fields; `emailValid`
   * is the library's verdict on the e-mail address.
   */
  function Issues(form: Form, emailValid: bool): (r: seq<Issue>)
    ensures r == [] <==> UsernameValid(form.username) && emailValid && PasswordValid(form.password)
                         && PhoneValid(form.phone) && DobValid(form.dob)
    ensures |r| <= 5
  {
    (if UsernameValid(form.username) then [] else [Issue("username", "Username must be at least 3 characters")])
    + (if emailValid then [] else [Issue("email", "Invalid email address")])
    + (if PasswordValid(form.password) then [] else [Issue("password", "Password must be at least 6 characters")])
    + (if PhoneValid(form.phone) then [] else [Issue("phone", "Phone must be exactly 10 digits")])
    + (if DobValid(form.dob) then [] else [Issue("dob", "DOB must be in YYYY-MM-DD format")])
  }

  /** The error shown when registration fails: `err?.message || 'Registration failed'`. */
  function ServerError(message: Option<string>): (r: string)
    ensures r != ""
    ensures message.None? || message.value == "" ==> r == "Registration failed"
    ensures message.Some? && message.value != "" ==> r == message.value
  {
    Js.StringOr(message, "Registration failed")
  }
}
