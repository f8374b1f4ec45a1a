/** The field rules shared by the sign-in, sign-up and settings forms: the
    whitespace class of regular expressions, the `\S+@\S+\.\S+` email test, the
    required and minimum-length rules with their messages, and the error maps
    the forms keep. */
module FieldRules {
  import opened Common

  /** The characters `\s` matches (and `trim` removes): tab, line feed, vertical
      tab, form feed, carriage return, space, no-break space, the Unicode space
      separators, the line and paragraph separators, and the byte order mark. */
  predicate IsSpace(c: char) {
    || c == '\t' || c == '\n' || c == '\U{000B}' || c == '\U{000C}' || c == '\r' || c == ' '
    || c == '\U{00A0}' || c == '\U{1680}' || ('\U{2000}' <= c <= '\U{200A}')
    || c == '\U{2028}' || c == '\U{2029}' || c == '\U{202F}' || c == '\U{205F}' || c == '\U{3000}'
    || c == '\U{FEFF}'
  }

  /** `!s.trim()`: the string is empty or all whitespace. */
  predicate IsBlank(s: string) {
    forall k :: 0 <= k < |s| ==> IsSpace(s[k])
  }

  /** The pattern matches with its `@` at `i` and its `.` at `j`: a non-space
      just before the `@`, at least one character and only non-spaces between
      the two, and a non-space just after the `.`. */
  predicate EmailMatchAt(s: string, i: int, j: int) {
    && 0 < i && i + 1 < j < |s| - 1
    && s[i] == '@' && s[j] == '.'
    && !IsSpace(s[i - 1]) && !IsSpace(s[j + 1])
    && forall k :: i < k < j ==> !IsSpace(s[k])
  }

  /** `/\S+@\S+\.\S+/.test(s)`. The pattern is not anchored, so it holds when
      any one placement of the `@` and the `.` fits. */
  predicate MatchesEmailPattern(s: string) {
    exists i, j | 0 < i < |s| && 0 < j < |s| :: EmailMatchAt(s, i, j)
  }

  /** A string the pattern accepts has at least five characters and is not blank. */
  lemma EmailPatternShape(s: string)
    requires MatchesEmailPattern(s)
    ensures |s| >= 5 && !IsBlank(s)
  {
    var i, j :| 0 < i < |s| && 0 < j < |s| && EmailMatchAt(s, i, j);
    assert !IsSpace(s[i]);
  }

  /** The demo accounts' addresses are accepted, and so is text around an address
      (the pattern is not anchored). */
  lemma EmailPatternAccepts()
    ensures MatchesEmailPattern("admin@comfortcheck.com")
    ensures MatchesEmailPattern("a@b.c")
    ensures MatchesEmailPattern("mail me at x@y.z please")
  {
    assert EmailMatchAt("admin@comfortcheck.com", 5, 18);
    assert EmailMatchAt("a@b.c", 1, 3);
    assert EmailMatchAt("mail me at x@y.z please", 12, 14);
  }

  /** No `@`, nothing before the `@`, or nothing between the `@` and the `.`: rejected. */
  lemma EmailPatternRejects()
    ensures !MatchesEmailPattern("teacher")
    ensures !MatchesEmailPattern("@b.c")
    ensures !MatchesEmailPattern("a@.c")
    ensures !MatchesEmailPattern("a @b.c")
  {
    var s := "a@.c";
    assert forall j | 2 < j < |s| - 1 :: s[j] != '.';
    var t := "a @b.c";
    assert forall i | 0 < i < |t| && t[i] == '@' :: i == 2;
  }

  const EmailRequired := "Email is required"
  const EmailInvalid := "Email is invalid"
  const PasswordRequired := "Password is required"
  const PasswordTooShort := "Password must be at least 6 characters"
  const NameRequired := "Name is required"
  const PasswordsDiffer := "Passwords do not match"

  /** The shortest accepted password. */
  const MinPasswordLength := 6

  /** The email rule: required first, then the pattern; at most one message. */
  function EmailError(email: string): (r: Option<string>)
    ensures r == Some(EmailRequired) <==> email == ""
    ensures r == Some(EmailInvalid) <==> email != "" && !MatchesEmailPattern(email)
    ensures r == None <==> MatchesEmailPattern(email)
  {
    if email == "" then Some(EmailRequired)
    else if !MatchesEmailPattern(email) then Some(EmailInvalid)
    else None
  }

  /** The password rule: required first, then the minimum length; at most one message. */
  function PasswordError(password: string): (r: Option<string>)
    ensures r == Some(PasswordRequired) <==> password == ""
    ensures r == Some(PasswordTooShort) <==> 0 < |password| < MinPasswordLength
    ensures r == None <==> |password| >= MinPasswordLength
  {
    if password == "" then Some(PasswordRequired)
    else if |password| < MinPasswordLength then Some(PasswordTooShort)
    else None
  }

  /** The name rule of the sign-up forms: only emptiness is refused. */
  function NameError(name: string): (r: Option<string>)
    ensures r == Some(NameRequired) <==> name == ""
    ensures r == None <==> name != ""
  {
    if name == "" then Some(NameRequired) else None
  }

  /** The errors object the forms build: field name to message. */
  type Errors = map<string, string>

  /** `newErrors.field = message`, done only when a rule produced a message. */
  function WithError(errors: Errors, field: string, error: Option<string>): (r: Errors)
    ensures field in r <==> field in errors || error.Some?
    ensures error.Some? ==> r[field] == error.value
    ensures forall f :: f != field ==> (f in r <==> f in errors) && (f in errors ==> r[f] == errors[f])
  {
    if error.Some? then errors[field := error.value] else errors
  }

  /** The error map of a sign-in form: an entry for the email exactly when the
      email rule fails, one for the password exactly when the password rule
      fails, and nothing else. */
  function LoginErrors(email: string, password: string): (r: Errors)
    ensures r.Keys <= {"email", "password"}
    ensures "email" in r <==> !MatchesEmailPattern(email)
    ensures "email" in r ==> Some(r["email"]) == EmailError(email)
    ensures "password" in r <==> |password| < MinPasswordLength
    ensures "password" in r ==> Some(r["password"]) == PasswordError(password)
  {
    WithError(WithError(map[], "email", EmailError(email)), "password", PasswordError(password))
  }

  /** A sign-in form is accepted exactly when the address matches the pattern
      and the password has at least six characters. */
  lemma LoginErrorsEmptyIff(email: string, password: string)
    ensures LoginErrors(email, password) == map[] <==>
      MatchesEmailPattern(email) && |password| >= MinPasswordLength
  {
    var r := LoginErrors(email, password);
    if !MatchesEmailPattern(email) {
      assert "email" in r;
    } else if |password| < MinPasswordLength {
      assert "password" in r;
    }
  }

  /** `errors[name]` is truthy: the field has a non-empty message. */
  predicate HasError(errors: Errors, field: string) {
    field in errors && errors[field] != ""
  }

  /** The clearing step of the change handlers: a field with a message gets the
      empty message; otherwise the map is untouched. */
  function ClearError(errors: Errors, field: string): (r: Errors)
    ensures !HasError(r, field)
    ensures HasError(errors, field) ==> r == errors[field := ""]
    ensures !HasError(errors, field) ==> r == errors
  {
    if HasError(errors, field) then errors[field := ""] else errors
  }
}
