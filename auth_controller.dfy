/**
 * The login controller, and the login service it calls. The service's
 * password check and token signing are foreign libraries, so they enter
 * as function parameters.
 */
module AuthController {
  import opened Wrappers
  import opened Text
  import opened Ledger
  import opened Koa

  /** What `authService.login(email, password)` resolves to, or the message it throws. */
  datatype LoginOutcome = Token(token: string) | Thrown(message: string)

  const CredentialsRequired := "Email and password are required"
  const InvalidCredentials := "Invalid credentials"
  const ServerError := "Server error"

  /** `email && password` is truthy. */
  predicate CredentialsPresent(email: Option<string>, password: Option<string>) {
    Truthy(email) && Truthy(password)
  }

  /**
   * `AuthService.login` on the initialised database: unknown email and
   * wrong password throw the same 'Invalid credentials'; otherwise a
   * token for the row's id. `compare` is `bcrypt.compare`, `sign` is
   * `jwt.sign` given the user id and the expiry.
   */
  function ServiceLogin(d: Db, compare: (string, string) -> bool, sign: (int, string) -> string,
                        email: string, password: string): (r: LoginOutcome)
    ensures r.Token? ==> exists u :: u in d.users && u.email == email && compare(password, u.password)
                                     && r.token == sign(u.id, "1m")
    ensures r.Thrown? ==> r.message == InvalidCredentials
  {
    match UserWithEmail(d.users, email)
    case None => Thrown(InvalidCredentials)
    case Some(u) =>
      if !compare(password, u.password) then Thrown(InvalidCredentials)
      else Token(sign(u.id, "1m"))
  }

  /** With emails unique, the service issues a token for a stored row exactly when the password matches its hash. */
  lemma ServiceLoginAccepts(d: Db, compare: (string, string) -> bool, sign: (int, string) -> string,
                            i: int, password: string)
    requires Consistent(d) && 0 <= i < |d.users|
    ensures var u := d.users[i];
            ServiceLogin(d, compare, sign, u.email, password)
            == if compare(password, u.password) then Token(sign(u.id, "1m")) else Thrown(InvalidCredentials)
  {
    UserWithEmailFindsRow(d.users, i);
  }

  /** The controller's response, the service being called only when both fields are present. */
  function LoginResponse(email: Option<string>, password: Option<string>,
                         service: (string, string) -> LoginOutcome): Response
  {
    if !CredentialsPresent(email, password) then Response(400, ErrorBody(CredentialsRequired))
    else
      match service(email.value, password.value)
      case Token(t) => Response(200, TokenBody(t))
      case Thrown(m) =>
        if m == InvalidCredentials then Response(401, ErrorBody(InvalidCredentials))
        else Response(500, ErrorBody(ServerError))
  }

  /**
   * Missing fields answer 400 whatever the service would do, so the
   * service is never consulted; a present pair answers 200 with the
   * service's token, 401 with the identical body for 'Invalid credentials',
   * 500 'Server error' for anything else.
   */
  lemma LoginStatuses(email: Option<string>, password: Option<string>,
                      service: (string, string) -> LoginOutcome, other: (string, string) -> LoginOutcome)
    ensures !CredentialsPresent(email, password) ==>
              LoginResponse(email, password, service) == LoginResponse(email, password, other)
              == Response(400, ErrorBody(CredentialsRequired))
    ensures CredentialsPresent(email, password) ==>
              var r := LoginResponse(email, password, service);
              match service(email.value, password.value)
              case Token(t) => r == Response(200, TokenBody(t))
              case Thrown(m) => r.status in {401, 500}
                                && (r.status == 401 <==> m == InvalidCredentials)
                                && (r.status == 401 ==> r.body == ErrorBody(InvalidCredentials))
                                && (r.status == 500 ==> r.body == ErrorBody(ServerError))
  {
  }

  /**
   * Controller and service together: 200 exactly when some row has the
   * email and the password matches that row's hash, and otherwise, for a
   * present pair, 401 'Invalid credentials' — the same answer for an
   * unknown email as for a wrong password; never 500.
   */
  lemma LoginThroughService(d: Db, compare: (string, string) -> bool, sign: (int, string) -> string,
                            email: Option<string>, password: Option<string>)
    requires Consistent(d) && CredentialsPresent(email, password)
    ensures var r := LoginResponse(email, password, (e, p) => ServiceLogin(d, compare, sign, e, p));
            && (r.status == 200 <==> exists u :: u in d.users && u.email == email.value && compare(password.value, u.password))
            && (r.status != 200 ==> r == Response(401, ErrorBody(InvalidCredentials)))
  {
    var o := ServiceLogin(d, compare, sign, email.value, password.value);
    assert ((e, p) => ServiceLogin(d, compare, sign, e, p))(email.value, password.value) == o;
    if exists u :: u in d.users && u.email == email.value && compare(password.value, u.password) {
      var u :| u in d.users && u.email == email.value && compare(password.value, u.password);
      var i :| 0 <= i < |d.users| && d.users[i] == u;
      ServiceLoginAccepts(d, compare, sign, i, password.value);
    }
  }

  /** `login(ctx)` with the parsed body fields. */
  method Login(ctx: Context, email: Option<string>, password: Option<string>,
               service: (string, string) -> LoginOutcome)
    requires !ctx.explicitStatus
    modifies ctx
    ensures ctx.Answer() == LoginResponse(email, password, service)
    ensures ctx.userId == old(ctx.userId)
  {
    if !(Truthy(email) && Truthy(password)) {
      ctx.Respond(400, ErrorBody(CredentialsRequired));
      return;
    }
    var outcome := service(email.value, password.value);
    match outcome
    case Token(t) =>
      ctx.SetBody(TokenBody(t));
    case Thrown(m) =>
      if m == InvalidCredentials {
        ctx.Respond(401, ErrorBody(InvalidCredentials));
      } else {
        ctx.Respond(500, ErrorBody(ServerError));
      }
  }
}
