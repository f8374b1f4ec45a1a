/** The stand-alone sign-up page: four fields, an error map, and a loading flag
    held while the simulated account creation is pending. */
module SignUpPage {
  import opened Common
  import opened FieldRules

  /** The confirmation rule of this page: only a mismatch is refused. An empty
      confirmation of an empty password passes this rule (the password rule
      still refuses the empty password). */
  function MismatchError(password: string, confirm: string): (r: Option<string>)
    ensures r == None <==> password == confirm
    ensures r.Some? ==> r.value == PasswordsDiffer
  {
    if password != confirm then Some(PasswordsDiffer) else None
  }

  /** `validateForm`'s error map: one entry per failing rule and nothing else. */
  function SignUpErrors(name: string, email: string, password: string, confirm: string): (r: Errors)
    ensures r.Keys <= {"name", "email", "password", "confirmPassword"}
    ensures "name" in r <==> name == ""
    ensures "name" in r ==> r["name"] == NameRequired
    ensures "email" in r <==> !MatchesEmailPattern(email)
    ensures "email" in r ==> Some(r["email"]) == EmailError(email)
    ensures "password" in r <==> |password| < MinPasswordLength
    ensures "password" in r ==> Some(r["password"]) == PasswordError(password)
    ensures "confirmPassword" in r <==> password != confirm
    ensures "confirmPassword" in r ==> r["confirmPassword"] == PasswordsDiffer
  {
    var withName := WithError(map[], "name", NameError(name));
    var withEmail := WithError(withName, "email", EmailError(email));
    var withPassword := WithError(withEmail, "password", PasswordError(password));
    WithError(withPassword, "confirmPassword", MismatchError(password, confirm))
  }

  /** The page accepts exactly when every rule passes. */
  lemma SignUpErrorsEmptyIff(name: string, email: string, password: string, confirm: string)
    ensures SignUpErrors(name, email, password, confirm) == map[] <==>
      name != "" && MatchesEmailPattern(email) && |password| >= MinPasswordLength && confirm == password
  {
    var r := SignUpErrors(name, email, password, confirm);
    if name == "" { assert "name" in r; }
    else if !MatchesEmailPattern(email) { assert "email" in r; }
    else if |password| < MinPasswordLength { assert "password" in r; }
    else if confirm != password { assert "confirmPassword" in r; }
  }

  /** An empty confirmation is refused only as a mismatch, never with a message of its own. */
  lemma EmptyConfirmationIsMismatch(name: string, email: string, password: string)
    ensures var r := SignUpErrors(name, email, password, "");
      ("confirmPassword" in r <==> password != "") &&
      ("confirmPassword" in r ==> r["confirmPassword"] == PasswordsDiffer)
  {
  }

  const FormFields := {"name", "email", "password", "confirmPassword"}

  class SignUpForm {
    var formData: map<string, string>
    var errors: Errors
    var isLoading: bool
    /** Account creations started by valid submits and not yet finished. */
    var pendingSubmits: nat

    ghost predicate Valid()
      reads this
    {
      FormFields <= formData.Keys
    }

    constructor ()
      ensures Valid()
      ensures formData == map["name" := "", "email" := "", "password" := "", "confirmPassword" := ""]
      ensures errors == map[] && !isLoading && pendingSubmits == 0
    {
      formData := map["name" := "", "email" := "", "password" := "", "confirmPassword" := ""];
      errors := map[];
      isLoading := false;
      pendingSubmits := 0;
    }

    /** `validateForm`: the new error map replaces the old one, and the form is
        valid exactly when every rule passes. */
    method ValidateForm() returns (ok: bool)
      requires Valid()
      modifies this
      ensures Valid()
      ensures var f := formData;
        && errors == SignUpErrors(f["name"], f["email"], f["password"], f["confirmPassword"])
        && (ok <==> f["name"] != "" && MatchesEmailPattern(f["email"])
                    && |f["password"]| >= MinPasswordLength && f["confirmPassword"] == f["password"])
      ensures formData == old(formData) && isLoading == old(isLoading) && pendingSubmits == old(pendingSubmits)
    {
      var f := formData;
      errors := SignUpErrors(f["name"], f["email"], f["password"], f["confirmPassword"]);
      ok := errors == map[];
      SignUpErrorsEmptyIff(f["name"], f["email"], f["password"], f["confirmPassword"]);
    }

    /** `handleInputChange`: only the named field changes, and only its error is cleared. */
    method HandleInputChange(name: string, value: string)
      requires Valid()
      modifies this
      ensures Valid()
      ensures formData == old(formData)[name := value]
      ensures errors == ClearError(old(errors), name)
      ensures isLoading == old(isLoading) && pendingSubmits == old(pendingSubmits)
    {
      formData := formData[name := value];
      errors := ClearError(errors, name);
    }

    /** `handleSubmit`: an invalid form stops before loading starts; a valid one
        starts loading and the account creation. */
    method HandleSubmit() returns (ok: bool)
      requires Valid()
      modifies this
      ensures Valid()
      ensures var f := formData;
        errors == SignUpErrors(f["name"], f["email"], f["password"], f["confirmPassword"]) &&
        (ok <==> errors == map[])
      ensures !ok ==> isLoading == old(isLoading) && pendingSubmits == old(pendingSubmits)
      ensures ok ==> isLoading && pendingSubmits == old(pendingSubmits) + 1
      ensures formData == old(formData)
    {
      ok := ValidateForm();
      if !ok {
        return;
      }
      isLoading := true;
      pendingSubmits := pendingSubmits + 1;
    }

    /** The end of a pending account creation: loading ends (the `finally` step). */
    method FinishSubmit()
      modifies this
      ensures old(pendingSubmits) > 0 ==> !isLoading && pendingSubmits == old(pendingSubmits) - 1
      ensures old(pendingSubmits) == 0 ==> isLoading == old(isLoading) && pendingSubmits == 0
      ensures formData == old(formData) && errors == old(errors)
    {
      if pendingSubmits > 0 {
        isLoading := false;
        pendingSubmits := pendingSubmits - 1;
      }
    }
  }
}
