/**
 * The login form's view model: the two field setters, the validator, and
 * `login`, which wraps the auth store's login with its own loading flag
 * and error.
 *
 * On the success path the source calls `this.authStore.clearError()`,
 * which `AuthStore` does not define. In JavaScript that call throws a
 * TypeError inside the `try`, so the view model reports failure with the
 * TypeError's message although the store has just stored the token.
 * `LoginAsWritten` models that; `Login` is the intended behaviour with the
 * call left out.
 */
module LoginView {
  import opened Wrappers
  import opened Text
  import opened Api
  import opened Stores

  const UsernameKey := "username"
  const PasswordKey := "password"

  /** The message of the TypeError raised by calling the missing method. */
  const NotAFunction := "this.authStore.clearError is not a function"

  /** What the view model's `login` returns and the error it shows. */
  datatype ViewOutcome = ViewOutcome(ok: bool, error: Option<string>)

  /**
   * `login` as written, given the store's answer and the store's error:
   * success reaches the undefined call and lands in the `catch`.
   */
  function AsWrittenOutcome(success: bool, storeError: Option<string>): ViewOutcome {
    if success then ViewOutcome(false, Some(NotAFunction)) else ViewOutcome(false, storeError)
  }

  /** `login` without the undefined call. */
  function IntendedOutcome(success: bool, storeError: Option<string>): ViewOutcome {
    if success then ViewOutcome(true, None) else ViewOutcome(false, storeError)
  }

  /**
   * The discrepancy: a login the server accepts leaves the session
   * authenticated, with token and email stored, yet the view model as
   * written reports false and the TypeError's message.
   */
  lemma AsWrittenRejectsSuccessfulLogin(c: Client, email: string, token: string)
    requires email != "" && token != ""
    ensures var s := LoginStep(c, email, Ok(token));
            && s.result && Authenticated(s.client.auth) && s.client.auth.token == Some(token)
            && AsWrittenOutcome(s.result, s.client.auth.error) == ViewOutcome(false, Some(NotAFunction))
  {
    LoginOutcome(c, email, Ok(token));
  }

  /** As written, the view model never reports success. */
  lemma AsWrittenNeverSucceeds(success: bool, storeError: Option<string>)
    ensures !AsWrittenOutcome(success, storeError).ok
  {
  }

  /**
   * Intended: the view model reports exactly the store's answer; on failure
   * it shows the store's error (the server's message or 'Login failed'),
   * and on success no error.
   */
  lemma IntendedReportsStore(c: Client, email: string, reply: Reply<string>)
    ensures var s := LoginStep(c, email, reply);
            var v := IntendedOutcome(s.result, s.client.auth.error);
            && (v.ok <==> reply.Ok?)
            && (v.ok ==> v.error == None)
            && (!v.ok ==> v.error == Some(ErrorText(reply.failure, "Login failed")))
  {
    LoginOutcome(c, email, reply);
  }

  class LoginViewModel {
    var username: string
    var password: string
    var loading: bool
    var error: Option<string>
    const auth: AuthStore

    constructor(auth: AuthStore)
      ensures username == "" && password == "" && !loading && error == None && this.auth == auth
    {
      username := "";
      password := "";
      loading := false;
      error := None;
      this.auth := auth;
    }

    /** `setUsername(u)`. */
    method SetUsername(u: string)
      modifies this
      ensures username == u
      ensures password == old(password) && loading == old(loading) && error == old(error)
    {
      username := u;
    }

    /** `setPassword(p)`. */
    method SetPassword(p: string)
      modifies this
      ensures password == p
      ensures username == old(username) && loading == old(loading) && error == old(error)
    {
      password := p;
    }

    /** `validateForm()`: the username is trimmed, the password is not; no field changes. */
    method ValidateForm() returns (valid: bool, errors: map<string, string>)
      ensures UsernameKey in errors <==> IsBlank(username)
      ensures UsernameKey in errors ==> errors[UsernameKey] == "Username is required"
      ensures PasswordKey in errors <==> password == ""
      ensures PasswordKey in errors ==> errors[PasswordKey] == "Password is required"
      ensures errors.Keys <= {UsernameKey, PasswordKey}
      ensures valid <==> errors == map[]
    {
      errors := map[];
      TrimEmptyIffBlank(username);
      if Trim(username) == "" {
        errors := errors[UsernameKey := "Username is required"];
      }
      if password == "" {
        errors := errors[PasswordKey := "Password is required"];
      }
      valid := |errors| == 0;
      if !valid {
        assert errors.Keys != {};
      }
    }

    /** `login(email, password)` as written. */
    method LoginAsWritten(email: string, reply: Reply<string>) returns (ok: bool)
      modifies this, auth, auth.pto
      ensures var s := LoginStep(old(Snapshot(auth)), email, reply);
              && Snapshot(auth) == s.client
              && ViewOutcome(ok, error) == AsWrittenOutcome(s.result, s.client.auth.error)
      ensures !loading && username == old(username) && password == old(password)
    {
      loading := true;
      error := None;
      var success := auth.Login(email, reply);
      if success {
        // the call to the undefined `clearError` throws; the catch takes its message
        error := Some(NotAFunction);
        ok := false;
      } else {
        error := auth.error;
        ok := success;
      }
      loading := false;
    }

    /** `login(email, password)` without the undefined call. */
    method Login(email: string, reply: Reply<string>) returns (ok: bool)
      modifies this, auth, auth.pto
      ensures var s := LoginStep(old(Snapshot(auth)), email, reply);
              && Snapshot(auth) == s.client
              && ViewOutcome(ok, error) == IntendedOutcome(s.result, s.client.auth.error)
      ensures !loading && username == old(username) && password == old(password)
    {
      loading := true;
      error := None;
      var success := auth.Login(email, reply);
      if !success {
        error := auth.error;
      }
      ok := success;
      loading := false;
    }
  }
}
