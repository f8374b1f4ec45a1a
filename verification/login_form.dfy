/** The combined sign-in / sign-up card: its form fields, its error map, the
    active tab, and what submitting either tab does. */
module LoginForm {
  import opened Common
  import opened Storage
  import opened FieldRules
  import opened MockAuth
  import opened AuthContext

  const ConfirmRequired := "Please confirm your password"
  const SignupDone := "Account created successfully! You can now log in."

  /** The confirmation rule of this card: required first, then equal to the password. */
  function ConfirmError(password: string, confirm: string): (r: Option<string>)
    ensures r == Some(ConfirmRequired) <==> confirm == ""
    ensures r == Some(PasswordsDiffer) <==> confirm != "" && confirm != password
    ensures r == None <==> confirm != "" && confirm == password
  {
    if confirm == "" then Some(ConfirmRequired)
    else if password != confirm then Some(PasswordsDiffer)
    else None
  }

  /** `validateSignup`: one entry per failing rule among name, email, password
      and confirmation, and nothing else. */
  function SignupErrors(name: string, email: string, password: string, confirm: string): (r: Errors)
    ensures r.Keys <= {"name", "email", "password", "confirmPassword"}
    ensures "name" in r <==> name == ""
    ensures "email" in r <==> !MatchesEmailPattern(email)
    ensures "email" in r ==> Some(r["email"]) == EmailError(email)
    ensures "password" in r <==> |password| < MinPasswordLength
    ensures "password" in r ==> Some(r["password"]) == PasswordError(password)
    ensures "confirmPassword" in r <==> confirm == "" || confirm != password
    ensures "confirmPassword" in r ==> Some(r["confirmPassword"]) == ConfirmError(password, confirm)
  {
    var withName := WithError(map[], "name", NameError(name));
    var withEmail := WithError(withName, "email", EmailError(email));
    var withPassword := WithError(withEmail, "password", PasswordError(password));
    WithError(withPassword, "confirmPassword", ConfirmError(password, confirm))
  }

  /** A sign-up is accepted exactly when every one of the four rules passes. */
  lemma SignupErrorsEmptyIff(name: string, email: string, password: string, confirm: string)
    ensures SignupErrors(name, email, password, confirm) == map[] <==>
      name != "" && MatchesEmailPattern(email) && |password| >= MinPasswordLength && confirm == password
  {
    var r := SignupErrors(name, email, password, confirm);
    if name == "" { assert "name" in r; }
    else if !MatchesEmailPattern(email) { assert "email" in r; }
    else if |password| < MinPasswordLength { assert "password" in r; }
    else if confirm != password { assert "confirmPassword" in r; }
  }

  /** The greeting after a successful sign-in: the user's name from the result,
      or "User" when the result carries no (or an empty) name. */
  function WelcomeMessage(result: LoginResult): (m: string)
    ensures result.user.None? ==> m == "Welcome back, User!"
    ensures result.user.Some? && result.user.value.name != "" ==>
      m == "Welcome back, " + result.user.value.name + "!"
  {
    var name := if result.user.Some? && result.user.value.name != "" then result.user.value.name else "User";
    "Welcome back, " + name + "!"
  }

  /** The four fields every state of the card has. */
  const FormFields := {"email", "password", "name", "confirmPassword"}

  class LoginCard {
    var formData: map<string, string>
    var errors: Errors
    var isLogin: bool

    ghost predicate Valid()
      reads this
    {
      FormFields <= formData.Keys
    }

    /** Empty fields, no errors, the sign-in tab. */
    constructor ()
      ensures Valid()
      ensures formData == map["email" := "", "password" := "", "name" := "", "confirmPassword" := ""]
      ensures errors == map[] && isLogin
    {
      formData := map["email" := "", "password" := "", "name" := "", "confirmPassword" := ""];
      errors := map[];
      isLogin := true;
    }

    /** `handleChange`: only the named field takes the value, and only that field's
        error is cleared, and only if it had one. */
    method HandleChange(name: string, value: string)
      requires Valid()
      modifies this
      ensures Valid()
      ensures formData == old(formData)[name := value]
      ensures errors == ClearError(old(errors), name)
      ensures isLogin == old(isLogin)
    {
      formData := formData[name := value];
      errors := ClearError(errors, name);
    }

    /** The two tab buttons. */
    method SelectTab(login: bool)
      modifies this
      ensures isLogin == login
      ensures formData == old(formData) && errors == old(errors)
    {
      isLogin := login;
    }

    /** `handleLogin`. With rule errors, they replace the error map and sign-in
        is not attempted. Otherwise the credentials go to the auth context: on
        success the greeting is the notice, on failure the error map becomes
        just the `form` message. Returns the notice text raised, if any. */
    method HandleLogin(auth: AuthProvider, store: Store) returns (notice: Option<string>)
      requires Valid()
      modifies this, auth, store
      ensures Valid()
      ensures formData == old(formData) && isLogin == old(isLogin)
      ensures var email, password := old(formData)["email"], old(formData)["password"];
        var rules := LoginErrors(email, password);
        && (rules != map[] ==>
              && errors == rules && notice == None
              && unchanged(auth) && store.entries == old(store.entries))
        && (rules == map[] && KnownCredentials(email, password) ==>
              && errors == old(errors) && notice == Some("Welcome back, User!")
              && auth.user.Some? && auth.user.value.email == email)
        && (rules == map[] && !KnownCredentials(email, password) ==>
              && errors == map["form" := InvalidCredentials]
              && notice == Some("Login failed: " + InvalidCredentials)
              && auth.user == old(auth.user) && store.entries == old(store.entries))
    {
      var rules := LoginErrors(formData["email"], formData["password"]);
      if rules != map[] {
        errors := rules;
        notice := None;
        return;
      }
      var result := auth.Login(store, formData["email"], formData["password"]);
      if result.success {
        notice := Some(WelcomeMessage(result));
      } else {
        errors := map["form" := result.error.value];
        notice := Some("Login failed: " + result.error.value);
      }
    }

    /** `handleSignup`. With rule errors, they replace the error map. Otherwise
        the card switches to the sign-in tab and keeps only the email; the
        error map is left as it was. */
    method HandleSignup() returns (notice: Option<string>)
      requires Valid()
      modifies this
      ensures Valid()
      ensures var f := old(formData);
        var rules := SignupErrors(f["name"], f["email"], f["password"], f["confirmPassword"]);
        && (rules != map[] ==> errors == rules && formData == f && isLogin == old(isLogin) && notice == None)
        && (rules == map[] ==>
              && isLogin && errors == old(errors) && notice == Some(SignupDone)
              && formData == map["email" := f["email"], "password" := "", "name" := "", "confirmPassword" := ""])
    {
      var rules := SignupErrors(formData["name"], formData["email"], formData["password"], formData["confirmPassword"]);
      if rules != map[] {
        errors := rules;
        notice := None;
        return;
      }
      notice := Some(SignupDone);
      isLogin := true;
      formData := map["email" := formData["email"], "password" := "", "name" := "", "confirmPassword" := ""];
    }
  }
}
