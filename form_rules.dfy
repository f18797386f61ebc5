/** The field rules the registration and profile forms share
    (client/src/pages/auth/Register.js, client/src/pages/profile/Profile.js), and the
    error-clearing step of their change handlers. */
module FormRules {
  import opened Common

  const NameRequired := "Name is required"
  const NameTooShort := "Name must be at least 2 characters"
  const EmailRequired := "Email is required"
  const EmailInvalid := "Email is invalid"
  const PasswordTooShort := "Password must be at least 6 characters"
  const PasswordsDiffer := "Passwords do not match"
  const MinNameLength := 2
  const MinPasswordLength := 6

  predicate NoSpace(s: string)
  {
    forall i :: 0 <= i < |s| ==> !IsJsSpace(s[i])
  }

  /** `/\S+@\S+\.\S+/` matches with its `@` at `at` and its `.` at `dot`: a non-space
      character before the `@`, only non-space characters (at least one) between them,
      and a non-space character after the dot. */
  predicate EmailShape(s: string, at: int, dot: int)
  {
    1 <= at && at + 1 < dot && dot + 1 < |s|
    && s[at] == '@' && s[dot] == '.'
    && !IsJsSpace(s[at - 1]) && NoSpace(s[at + 1..dot]) && !IsJsSpace(s[dot + 1])
  }

  /** `/\S+@\S+\.\S+/.test(s)`: the pattern is not anchored, so a match anywhere counts. */
  predicate EmailPattern(s: string)
  {
    exists at, dot | 0 <= at < |s| && 0 <= dot < |s| :: EmailShape(s, at, dot)
  }

  /** A matching address is at least five characters long, holds an `@` and is not blank. */
  lemma EmailPatternShape(s: string)
    requires EmailPattern(s)
    ensures |s| >= 5 && '@' in s && !IsBlank(s)
  {
    var at, dot :| 0 <= at < |s| && 0 <= dot < |s| && EmailShape(s, at, dot);
    assert !IsJsSpace(s[at]);
  }

  /** `local@host.tld` matches whenever the three parts are non-empty and free of
      white space. */
  lemma EmailOfParts(local: string, host: string, tld: string)
    requires local != [] && host != [] && tld != []
    requires NoSpace(local) && NoSpace(host) && NoSpace(tld)
    ensures EmailPattern(local + "@" + host + "." + tld)
  {
    var s := local + "@" + host + "." + tld;
    var at, dot := |local|, |local| + 1 + |host|;
    assert s[at - 1] == local[|local| - 1];
    assert s[at + 1..dot] == host;
    assert s[dot + 1] == tld[0];
    assert EmailShape(s, at, dot);
  }

  /** The name rule: required after trimming, then at least two characters as typed. */
  function NameError(name: string): (e: Option<string>)
    ensures e == Some(NameRequired) <==> IsBlank(name)
    ensures e == Some(NameTooShort) <==> !IsBlank(name) && |name| < MinNameLength
    ensures e.None? <==> !IsBlank(name) && |name| >= MinNameLength
  {
    if IsBlank(name) then Some(NameRequired)
    else if |name| < MinNameLength then Some(NameTooShort)
    else None
  }

  /** The email rule: required after trimming, then the pattern. */
  function EmailError(email: string): (e: Option<string>)
    ensures e == Some(EmailRequired) <==> IsBlank(email)
    ensures e == Some(EmailInvalid) <==> !IsBlank(email) && !EmailPattern(email)
    ensures e.None? <==> EmailPattern(email)
  {
    if IsBlank(email) then Some(EmailRequired)
    else if !EmailPattern(email) then (assert EmailInvalid != EmailRequired; Some(EmailInvalid))
    else None
  }

  /** The new-password rule, with the page's own "required" message. */
  function PasswordError(password: string, required: string): (e: Option<string>)
    requires required != PasswordTooShort
    ensures e == Some(required) <==> password == ""
    ensures e == Some(PasswordTooShort) <==> password != "" && |password| < MinPasswordLength
    ensures e.None? <==> |password| >= MinPasswordLength
  {
    if password == "" then Some(required)
    else if |password| < MinPasswordLength then Some(PasswordTooShort)
    else None
  }

  /** The confirmation rule, with the page's own "required" message. */
  function ConfirmError(password: string, confirm: string, required: string): (e: Option<string>)
    requires required != PasswordsDiffer
    ensures e == Some(required) <==> confirm == ""
    ensures e == Some(PasswordsDiffer) <==> confirm != "" && confirm != password
    ensures e.None? <==> confirm != "" && confirm == password
  {
    if confirm == "" then Some(required)
    else if password != confirm then Some(PasswordsDiffer)
    else None
  }

  /** The error-clearing step of `handleChange`: a field with a non-empty error has it
      replaced by `""`; every other entry is kept. */
  function ClearError(errors: map<string, string>, key: string): (r: map<string, string>)
    ensures r.Keys == errors.Keys
    ensures forall k :: k in errors && k != key ==> r[k] == errors[k]
    ensures key in r ==> r[key] == ""
  {
    if key in errors && errors[key] != "" then errors[key := ""] else errors
  }
}
