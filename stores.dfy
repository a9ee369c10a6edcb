/**
 * The two client stores. `AuthStore` holds the session and mirrors it
 * into localStorage (a map here); `PTOStore` holds the balance and the
 * request list. They reach each other through the root store: logout
 * resets the PTO store, and the PTO store reads the token. Every request
 * passes through the axios response interceptor, which logs out on a 401
 * before the store's own `catch` runs.
 *
 * Each operation is a pure function from one snapshot of both stores to
 * the next; the class methods are proved to perform exactly it.
 */
module Stores {
  import opened Wrappers
  import opened Text
  import opened Api

  /** The fields of `AuthStore`, with localStorage. */
  datatype AuthState = AuthState(token: Option<string>, userEmail: Option<string>, loading: bool,
                                 error: Option<string>, storage: map<string, string>)

  /** The fields of `PTOStore`. */
  datatype PtoState = PtoState(balance: Option<ClientBalance>, requests: seq<ClientRequest>,
                               loading: bool, error: Option<string>)

  /** Both stores of the root store. */
  datatype Client = Client(auth: AuthState, pto: PtoState)

  /** A new snapshot and what the operation returned (or threw). */
  datatype Step<+T> = Step(client: Client, result: T)

  /** What `submitRequest` settles with: undefined without a token, true, or a rethrown error. */
  datatype SubmitResult = Skipped | Submitted | Threw(error: HttpError)

  const TokenKey := "token"
  const EmailKey := "userEmail"

  // ---------------------------------------------------------------- AuthStore, on values

  /** `setToken(t)`. */
  function WithToken(a: AuthState, t: Option<string>): AuthState {
    if Truthy(t) then a.(token := t, storage := a.storage[TokenKey := t.value])
    else a.(token := t, userEmail := None, storage := a.storage - {TokenKey, EmailKey})
  }

  /** `setUserEmail(e)`. */
  function WithUserEmail(a: AuthState, e: Option<string>): AuthState {
    if Truthy(e) then a.(userEmail := e, storage := a.storage[EmailKey := e.value])
    else a.(userEmail := e, storage := a.storage - {EmailKey})
  }

  /** `isAuthenticated`. */
  predicate Authenticated(a: AuthState) {
    Truthy(a.token)
  }

  /** A truthy token is stored under 'token'; the email and every other key are untouched. */
  lemma WithTruthyToken(a: AuthState, t: string)
    requires t != ""
    ensures var r := WithToken(a, Some(t));
            && r.token == Some(t) && Lookup(r.storage, TokenKey) == Some(t) && Authenticated(r)
            && r.userEmail == a.userEmail && r.loading == a.loading && r.error == a.error
            && (forall k :: k != TokenKey ==> Lookup(r.storage, k) == Lookup(a.storage, k))
  {
  }

  /** A falsy token is kept as the token, and clears the email from the store and from storage. */
  lemma WithFalsyToken(a: AuthState, t: Option<string>)
    requires !Truthy(t)
    ensures var r := WithToken(a, t);
            && r.token == t && !Authenticated(r) && r.userEmail == None
            && TokenKey !in r.storage && EmailKey !in r.storage
            && (forall k :: k != TokenKey && k != EmailKey ==> Lookup(r.storage, k) == Lookup(a.storage, k))
  {
  }

  /** `setUserEmail` writes the key when the email is truthy and removes it otherwise; the token is untouched. */
  lemma WithUserEmailStorage(a: AuthState, e: Option<string>)
    ensures var r := WithUserEmail(a, e);
            && r.userEmail == e && r.token == a.token
            && Lookup(r.storage, EmailKey) == (if Truthy(e) then e else None)
            && (forall k :: k != EmailKey ==> Lookup(r.storage, k) == Lookup(a.storage, k))
  {
  }

  /** The session is authenticated after `setToken(t)` exactly when `t` is truthy, and never after logout. */
  lemma AuthenticatedAfter(a: AuthState, t: Option<string>, c: Client)
    ensures Authenticated(WithToken(a, t)) <==> Truthy(t)
    ensures Authenticated(WithUserEmail(a, t)) <==> Authenticated(a)
    ensures !Authenticated(LoggedOut(c).auth)
  {
  }

  // ---------------------------------------------------------------- PTOStore, on values

  /** `reset()`: the loading flag is not touched. */
  function Cleared(p: PtoState): PtoState {
    p.(balance := None, requests := [], error := None)
  }

  /** `logout()`: both keys gone, no token, no email, the PTO store reset. */
  function LoggedOut(c: Client): Client {
    Client(WithUserEmail(WithToken(c.auth, None), None), Cleared(c.pto))
  }

  lemma LoggedOutState(c: Client)
    ensures var r := LoggedOut(c);
            && r.auth.token == None && r.auth.userEmail == None && !Authenticated(r.auth)
            && TokenKey !in r.auth.storage && EmailKey !in r.auth.storage
            && (forall k :: k != TokenKey && k != EmailKey ==> Lookup(r.auth.storage, k) == Lookup(c.auth.storage, k))
            && r.auth.loading == c.auth.loading && r.auth.error == c.auth.error
            && r.pto == PtoState(None, [], c.pto.loading, None)
  {
  }

  /** The response interceptor: a 401 logs out before the caller sees the rejection. */
  function Intercepted(c: Client, f: HttpError): Client {
    if Unauthorized(f) then LoggedOut(c) else c
  }

  /** The PTO store's error is set after the interceptor has run, and loading ends false. */
  function Failed(c: Client, f: HttpError, fallback: string): Client {
    var c1 := Intercepted(c, f);
    c1.(pto := c1.pto.(error := Some(ErrorText(f, fallback)), loading := false))
  }

  /** The settling of the balance request (the token check already passed, loading already true). */
  function BalanceSettled(c: Client, reply: Reply<ClientBalance>): Step<Option<HttpError>> {
    match reply
    case Ok(b) => Step(c.(pto := c.pto.(balance := Some(b), loading := false)), None)
    case Err(f) => Step(Failed(c, f, "Failed to fetch balance"), Some(f))
  }

  /** The settling of the request-list request. */
  function RequestsSettled(c: Client, reply: Reply<seq<ClientRequest>>): Step<Option<HttpError>> {
    match reply
    case Ok(rs) => Step(c.(pto := c.pto.(requests := rs, loading := false)), None)
    case Err(f) => Step(Failed(c, f, "Failed to fetch requests"), Some(f))
  }

  /** `fetchBalance()` with the server's reply. */
  function FetchBalanceStep(c: Client, reply: Reply<ClientBalance>): Step<Option<HttpError>> {
    if !Truthy(c.auth.token) then Step(c, None)
    else BalanceSettled(c.(pto := c.pto.(loading := true)), reply)
  }

  /** `fetchRequests()` with the server's reply. */
  function FetchRequestsStep(c: Client, reply: Reply<seq<ClientRequest>>): Step<Option<HttpError>> {
    if !Truthy(c.auth.token) then Step(c, None)
    else RequestsSettled(c.(pto := c.pto.(loading := true)), reply)
  }

  /**
   * `submitRequest(...)` with the replies of the POST and of the two
   * refreshes. Both refreshes pass their token check before either reply
   * arrives; the balance reply is taken to settle first, and the first
   * rejection is the one `Promise.all` rethrows.
   */
  function SubmitStep(c: Client, post: Reply<()>, balanceReply: Reply<ClientBalance>,
                      requestsReply: Reply<seq<ClientRequest>>): Step<SubmitResult>
  {
    if !Truthy(c.auth.token) then Step(c, Skipped)
    else
      var c1 := c.(pto := c.pto.(loading := true));
      match post
      case Err(f) => Step(Failed(c1, f, "Failed to submit request"), Threw(f))
      case Ok(_) =>
        var b := BalanceSettled(c1, balanceReply);
        var r := RequestsSettled(b.client.(pto := b.client.pto.(loading := true)), requestsReply);
        var first := if b.result.Some? then b.result else r.result;
        if first.Some? then Step(r.client.(pto := r.client.pto.(error := Some(ErrorText(first.value, "Failed to submit request")), loading := false)), Threw(first.value))
        else Step(r.client.(pto := r.client.pto.(loading := false)), Submitted)
  }

  /** `login(email, password)` with the reply to `POST /auth/login`. */
  function LoginStep(c: Client, email: string, reply: Reply<string>): Step<bool> {
    var c1 := c.(auth := c.auth.(loading := true, error := None));
    match reply
    case Ok(t) =>
      Step(c1.(auth := WithUserEmail(WithToken(c1.auth, Some(t)), Some(email)).(loading := false)), true)
    case Err(f) =>
      var c2 := Intercepted(c1, f);
      Step(c2.(auth := c2.auth.(error := Some(ErrorText(f, "Login failed")), loading := false)), false)
  }

  // ---------------------------------------------------------------- what the steps promise

  /** Without a token the three requests return at once and touch nothing. */
  lemma NoTokenNoRequest(c: Client, b: Reply<ClientBalance>, rs: Reply<seq<ClientRequest>>, post: Reply<()>)
    requires !Truthy(c.auth.token)
    ensures FetchBalanceStep(c, b) == Step(c, None)
    ensures FetchRequestsStep(c, rs) == Step(c, None)
    ensures SubmitStep(c, post, b, rs) == Step(c, Skipped)
  {
  }

  /**
   * `fetchBalance` with a token: on success the balance is the reply and
   * nothing else changes but loading; on failure the error is the server's
   * message or the default, the rejection is rethrown, and only a 401 also
   * logs out. Loading ends false either way.
   */
  lemma FetchBalanceOutcome(c: Client, reply: Reply<ClientBalance>)
    requires Truthy(c.auth.token)
    ensures var s := FetchBalanceStep(c, reply);
            && !s.client.pto.loading
            && (reply.Ok? ==> s.result == None && s.client == c.(pto := c.pto.(balance := Some(reply.data), loading := false)))
            && (reply.Err? ==>
                  && s.result == Some(reply.failure)
                  && s.client.pto.error == Some(ErrorText(reply.failure, "Failed to fetch balance"))
                  && (Unauthorized(reply.failure) ==>
                        s.client.auth == LoggedOut(c).auth && s.client.pto.balance == None && s.client.pto.requests == [])
                  && (!Unauthorized(reply.failure) ==>
                        s.client == c.(pto := c.pto.(error := s.client.pto.error, loading := false))))
  {
  }

  /** `fetchRequests` with a token: the list is replaced on success; otherwise as for the balance. */
  lemma FetchRequestsOutcome(c: Client, reply: Reply<seq<ClientRequest>>)
    requires Truthy(c.auth.token)
    ensures var s := FetchRequestsStep(c, reply);
            && !s.client.pto.loading
            && (reply.Ok? ==> s.result == None && s.client == c.(pto := c.pto.(requests := reply.data, loading := false)))
            && (reply.Err? ==>
                  && s.result == Some(reply.failure)
                  && s.client.pto.error == Some(ErrorText(reply.failure, "Failed to fetch requests"))
                  && (Unauthorized(reply.failure) ==> s.client.auth == LoggedOut(c).auth && s.client.pto.requests == [])
                  && (!Unauthorized(reply.failure) ==>
                        s.client == c.(pto := c.pto.(error := s.client.pto.error, loading := false))))
  {
  }

  /**
   * `submitRequest` with a token: it returns true exactly when the POST
   * and both refreshes succeed, and then holds the refreshed balance and
   * list; any failure is rethrown with the error set from it. Loading
   * ends false on every path.
   */
  lemma SubmitOutcome(c: Client, post: Reply<()>, b: Reply<ClientBalance>, rs: Reply<seq<ClientRequest>>)
    requires Truthy(c.auth.token)
    ensures var s := SubmitStep(c, post, b, rs);
            && !s.client.pto.loading
            && (s.result == Submitted <==> post.Ok? && b.Ok? && rs.Ok?)
            && (s.result == Submitted ==>
                  s.client == c.(pto := c.pto.(balance := Some(b.data), requests := rs.data, loading := false)))
            && (s.result != Submitted ==>
                  && s.result.Threw?
                  && s.result.error == (if post.Err? then post.failure else if b.Err? then b.failure else rs.failure)
                  && s.client.pto.error == Some(ErrorText(s.result.error, "Failed to submit request")))
  {
  }

  /**
   * `login`: success stores the returned token and the email (in the store
   * and in storage) and returns true; failure sets the error from the
   * server or 'Login failed' and returns false, leaving the session as it
   * was unless the answer was 401, which the interceptor turns into a
   * logout. Loading ends false either way.
   */
  lemma LoginOutcome(c: Client, email: string, reply: Reply<string>)
    ensures var s := LoginStep(c, email, reply);
            && !s.client.auth.loading
            && (s.result <==> reply.Ok?)
            && (reply.Ok? && reply.data != "" && email != "" ==>
                  && s.client.auth.token == Some(reply.data) && s.client.auth.userEmail == Some(email)
                  && Lookup(s.client.auth.storage, TokenKey) == Some(reply.data)
                  && Lookup(s.client.auth.storage, EmailKey) == Some(email)
                  && s.client.auth.error == None && Authenticated(s.client.auth) && s.client.pto == c.pto)
            && (reply.Err? ==> s.client.auth.error == Some(ErrorText(reply.failure, "Login failed")))
            && (reply.Err? && !Unauthorized(reply.failure) ==>
                  s.client == c.(auth := c.auth.(loading := false, error := s.client.auth.error)))
            && (reply.Err? && Unauthorized(reply.failure) ==>
                  s.client.auth.token == None && s.client.pto == Cleared(c.pto))
  {
  }

  // ---------------------------------------------------------------- the stores

  /** Both stores as values. */
  function Snapshot(auth: AuthStore): Client
    reads auth, auth.pto
  {
    Client(auth.State(), auth.pto.State())
  }

  class PTOStore {
    var balance: Option<ClientBalance>
    var requests: seq<ClientRequest>
    var loading: bool
    var error: Option<string>

    constructor()
      ensures State() == PtoState(None, [], false, None)
    {
      balance := None;
      requests := [];
      loading := false;
      error := None;
    }

    function State(): PtoState
      reads this
    {
      PtoState(balance, requests, loading, error)
    }

    /** `reset()`. */
    method Reset()
      modifies this
      ensures State() == Cleared(old(State()))
    {
      balance := None;
      requests := [];
      error := None;
    }

    /** `clearError()`. */
    method ClearError()
      modifies this
      ensures State() == old(State()).(error := None)
    {
      error := None;
    }

    /** The `catch` of a request: the interceptor first, then the error message. */
    method Fail(auth: AuthStore, f: HttpError, fallback: string)
      requires auth.pto == this
      modifies this, auth
      ensures Snapshot(auth) == Failed(old(Snapshot(auth)), f, fallback)
    {
      if f.response.Some? && f.response.value.status == 401 {
        auth.Logout();
      }
      error := Some(ErrorText(f, fallback));
      loading := false;
    }

    /** What happens once the balance reply arrives. */
    method SettleBalance(auth: AuthStore, reply: Reply<ClientBalance>) returns (thrown: Option<HttpError>)
      requires auth.pto == this
      modifies this, auth
      ensures Step(Snapshot(auth), thrown) == BalanceSettled(old(Snapshot(auth)), reply)
    {
      match reply
      case Ok(b) =>
        balance := Some(b);
        loading := false;
        thrown := None;
      case Err(f) =>
        Fail(auth, f, "Failed to fetch balance");
        thrown := Some(f);
    }

    /** What happens once the request-list reply arrives. */
    method SettleRequests(auth: AuthStore, reply: Reply<seq<ClientRequest>>) returns (thrown: Option<HttpError>)
      requires auth.pto == this
      modifies this, auth
      ensures Step(Snapshot(auth), thrown) == RequestsSettled(old(Snapshot(auth)), reply)
    {
      match reply
      case Ok(rs) =>
        requests := rs;
        loading := false;
        thrown := None;
      case Err(f) =>
        Fail(auth, f, "Failed to fetch requests");
        thrown := Some(f);
    }

    /** `fetchBalance()`; `auth` is the root store's `authStore`. */
    method FetchBalance(auth: AuthStore, reply: Reply<ClientBalance>) returns (thrown: Option<HttpError>)
      requires auth.pto == this
      modifies this, auth
      ensures Step(Snapshot(auth), thrown) == FetchBalanceStep(old(Snapshot(auth)), reply)
    {
      if !Truthy(auth.token) {
        return None;
      }
      loading := true;
      thrown := SettleBalance(auth, reply);
    }

    /** `fetchRequests()`. */
    method FetchRequests(auth: AuthStore, reply: Reply<seq<ClientRequest>>) returns (thrown: Option<HttpError>)
      requires auth.pto == this
      modifies this, auth
      ensures Step(Snapshot(auth), thrown) == FetchRequestsStep(old(Snapshot(auth)), reply)
    {
      if !Truthy(auth.token) {
        return None;
      }
      loading := true;
      thrown := SettleRequests(auth, reply);
    }

    /** `submitRequest(requestDate, hours, reason)`, the three fields going out in the POST whose reply is `post`. */
    method SubmitRequest(auth: AuthStore, post: Reply<()>, balanceReply: Reply<ClientBalance>,
                         requestsReply: Reply<seq<ClientRequest>>) returns (r: SubmitResult)
      requires auth.pto == this
      modifies this, auth
      ensures Step(Snapshot(auth), r) == SubmitStep(old(Snapshot(auth)), post, balanceReply, requestsReply)
    {
      if !Truthy(auth.token) {
        return Skipped;
      }
      loading := true;
      if post.Err? {
        Fail(auth, post.failure, "Failed to submit request");
        return Threw(post.failure);
      }
      var t1 := SettleBalance(auth, balanceReply);
      loading := true;
      var t2 := SettleRequests(auth, requestsReply);
      var first := if t1.Some? then t1 else t2;
      if first.Some? {
        error := Some(ErrorText(first.value, "Failed to submit request"));
        loading := false;
        return Threw(first.value);
      }
      loading := false;
      r := Submitted;
    }
  }

  class AuthStore {
    var token: Option<string>
    var userEmail: Option<string>
    var loading: bool
    var error: Option<string>
    var storage: map<string, string>
    /** The root store's `ptoStore`. */
    const pto: PTOStore

    /** The session is read back from storage. */
    constructor(storage: map<string, string>, pto: PTOStore)
      ensures State() == AuthState(Lookup(storage, TokenKey), Lookup(storage, EmailKey), false, None, storage)
      ensures this.pto == pto
    {
      token := Lookup(storage, TokenKey);
      userEmail := Lookup(storage, EmailKey);
      loading := false;
      error := None;
      this.storage := storage;
      this.pto := pto;
    }

    function State(): AuthState
      reads this
    {
      AuthState(token, userEmail, loading, error, storage)
    }

    /** `isAuthenticated`: `!!this.token`. */
    function IsAuthenticated(): (r: bool)
      reads this
      ensures r <==> token.Some? && token.value != ""
    {
      Truthy(token)
    }

    /** `setToken(t)`. */
    method SetToken(t: Option<string>)
      modifies this
      ensures State() == WithToken(old(State()), t)
      ensures IsAuthenticated() <==> Truthy(t)
    {
      token := t;
      if Truthy(t) {
        storage := storage[TokenKey := t.value];
      } else {
        storage := storage - {TokenKey};
        storage := storage - {EmailKey};
        userEmail := None;
      }
    }

    /** `setUserEmail(e)`. */
    method SetUserEmail(e: Option<string>)
      modifies this
      ensures State() == WithUserEmail(old(State()), e)
    {
      userEmail := e;
      if Truthy(e) {
        storage := storage[EmailKey := e.value];
      } else {
        storage := storage - {EmailKey};
      }
    }

    /** `logout()`. */
    method Logout()
      modifies this, pto
      ensures Snapshot(this) == LoggedOut(old(Snapshot(this)))
      ensures !IsAuthenticated()
    {
      SetToken(None);
      SetUserEmail(None);
      pto.Reset();
    }

    /** `login(email, password)`, the pair going out in the POST whose reply is `reply`. */
    method Login(email: string, reply: Reply<string>) returns (ok: bool)
      modifies this, pto
      ensures Step(Snapshot(this), ok) == LoginStep(old(Snapshot(this)), email, reply)
    {
      loading := true;
      error := None;
      match reply {
        case Ok(t) =>
          SetToken(Some(t));
          SetUserEmail(Some(email));
          ok := true;
        case Err(f) =>
          if f.response.Some? && f.response.value.status == 401 {
            Logout();
          }
          error := Some(ErrorText(f, "Login failed"));
          ok := false;
      }
      loading := false;
    }
  }
}
