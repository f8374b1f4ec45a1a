/** The stand-alone sign-in page: two fields, an error map, a loading flag, and
    the delayed token write that follows a valid submit. */
module LoginPage {
  import opened Storage
  import opened FieldRules

  const TokenKey := "authToken"
  const TokenValue := "dummy-auth-token"

  class SignInPage {
    var email: string
    var password: string
    var errors: Errors
    var isLoading: bool
    /** Completions scheduled by valid submits and not yet run. */
    var pendingSubmits: nat

    constructor ()
      ensures email == "" && password == "" && errors == map[]
      ensures !isLoading && pendingSubmits == 0
    {
      email := "";
      password := "";
      errors := map[];
      isLoading := false;
      pendingSubmits := 0;
    }

    /** `validateForm`: the new error map replaces the old one wholesale, and the
        form is valid exactly when that map is empty, that is when the address
        matches the pattern and the password has at least six characters. */
    method ValidateForm() returns (ok: bool)
      modifies this
      ensures errors == LoginErrors(email, password)
      ensures ok <==> MatchesEmailPattern(email) && |password| >= MinPasswordLength
      ensures email == old(email) && password == old(password)
      ensures isLoading == old(isLoading) && pendingSubmits == old(pendingSubmits)
    {
      errors := LoginErrors(email, password);
      ok := errors == map[];
      LoginErrorsEmptyIff(email, password);
    }

    /** `handleInputChange`: "email" sets the email, "password" the password, any
        other name neither; the named field's error is cleared if it had one. */
    method HandleInputChange(name: string, value: string)
      modifies this
      ensures email == if name == "email" then value else old(email)
      ensures password == if name == "password" then value else old(password)
      ensures errors == ClearError(old(errors), name)
      ensures isLoading == old(isLoading) && pendingSubmits == old(pendingSubmits)
    {
      if name == "email" {
        email := value;
      }
      if name == "password" {
        password := value;
      }
      errors := ClearError(errors, name);
    }

    /** `handleSubmit`: an invalid form stops before loading starts or anything is
        scheduled; a valid one starts loading and schedules the completion. */
    method HandleSubmit() returns (ok: bool)
      modifies this
      ensures ok <==> MatchesEmailPattern(email) && |password| >= MinPasswordLength
      ensures errors == LoginErrors(email, password)
      ensures !ok ==> isLoading == old(isLoading) && pendingSubmits == old(pendingSubmits)
      ensures ok ==> isLoading && pendingSubmits == old(pendingSubmits) + 1
      ensures email == old(email) && password == old(password)
    {
      ok := ValidateForm();
      if !ok {
        return;
      }
      isLoading := true;
      pendingSubmits := pendingSubmits + 1;
    }

    /** The scheduled completion: the token is written and loading ends. Without a
        scheduled completion nothing happens. */
    method FinishSubmit(store: Store)
      modifies this, store
      ensures old(pendingSubmits) > 0 ==>
        && store.entries == old(store.entries)[TokenKey := Text(TokenValue)]
        && !isLoading && pendingSubmits == old(pendingSubmits) - 1
      ensures old(pendingSubmits) == 0 ==>
        store.entries == old(store.entries) && isLoading == old(isLoading) && pendingSubmits == 0
      ensures email == old(email) && password == old(password) && errors == old(errors)
    {
      if pendingSubmits > 0 {
        store.SetItem(TokenKey, Text(TokenValue));
        isLoading := false;
        pendingSubmits := pendingSubmits - 1;
      }
    }
  }

  /** A five-character password is refused with the length message alone, and no
      token is written: the submit scheduled nothing for the completion to run. */
  method InvalidSubmitWritesNoToken(store: Store)
    modifies store
    ensures store.entries == old(store.entries)
  {
    var page := new SignInPage();
    page.HandleInputChange("email", "admin@comfortcheck.com");
    page.HandleInputChange("password", "12345");
    var ok := page.HandleSubmit();
    EmailPatternAccepts();
    assert page.errors.Keys == {"password"};
    assert !ok && page.errors == map["password" := PasswordTooShort];
    page.FinishSubmit(store);
  }
}
