/**
 * The earlier single-file server: the same four endpoints written inline
 * against the tables, opened once at startup. Each handler is stated as a
 * function of the tables, and proved to answer as the controller and
 * service revision does.
 */
module LegacyServer {
  import opened Wrappers
  import opened Text
  import opened Ledger
  import opened PtoService
  import opened Koa
  import opened PtoController
  import opened AuthController

  /** `POST /auth/login`: unknown email and wrong password both answer 401 'Invalid credentials'. */
  function LegacyLoginResponse(d: Db, compare: (string, string) -> bool, sign: (int, string) -> string,
                               email: Option<string>, password: Option<string>): Response
  {
    if !CredentialsPresent(email, password) then Response(400, ErrorBody(CredentialsRequired))
    else
      match UserWithEmail(d.users, email.value)
      case None => Response(401, ErrorBody(InvalidCredentials))
      case Some(u) =>
        if !compare(password.value, u.password) then Response(401, ErrorBody(InvalidCredentials))
        else Response(200, TokenBody(sign(u.id, "1h")))
  }

  /** `GET /pto/balance`. */
  function LegacyBalanceResponse(d: Db, userId: Option<int>): Response {
    match UserWithId(d.users, userId)
    case None => Response(404, ErrorBody("User not found"))
    case Some(u) => Response(200, BalanceBody(Balance(u.maxPtoHours, u.usedPtoHours, u.maxPtoHours - u.usedPtoHours)))
  }

  /** `POST /pto/request`: validation, lookup, balance check, then the INSERT and the UPDATE of used hours. */
  function LegacySubmitExchange(d: Db, userId: Option<int>, b: SubmitBody): Exchange {
    if !FieldsPresent(b) then Exchange(Response(400, ErrorBody(MissingFields)), d)
    else
      match UserWithId(d.users, userId)
      case None => Exchange(Response(404, ErrorBody("User not found")), d)
      case Some(u) =>
        if b.hours.value > u.maxPtoHours - u.usedPtoHours then
          Exchange(Response(400, ErrorBody("Insufficient PTO balance")), d)
        else
          var d1 := Appended(d, userId.value, b.requestDate.value, b.hours.value, b.reason.value, "pending");
          Exchange(Response(200, MessageBody(SubmittedMessage)),
                   d1.(users := SetUsed(d1.users, userId.value, u.usedPtoHours + b.hours.value)))
  }

  /** For a present pair, an email with no matching row and a password that fails the hash check answer identically. */
  lemma LegacyLoginUniformRejection(d: Db, compare: (string, string) -> bool, sign: (int, string) -> string,
                                    email: Option<string>, password: Option<string>)
    requires CredentialsPresent(email, password)
    requires forall u :: u in d.users && u.email == email.value ==> !compare(password.value, u.password)
    ensures LegacyLoginResponse(d, compare, sign, email, password) == Response(401, ErrorBody(InvalidCredentials))
  {
  }

  /**
   * The inline login answers like the controller over the service: same
   * status, same error bodies, and on success a token for the same user,
   * signed with a one-hour expiry where the service signs with one minute.
   */
  lemma LegacyLoginMatchesController(d: Db, compare: (string, string) -> bool, sign: (int, string) -> string,
                                     email: Option<string>, password: Option<string>)
    ensures var a := LegacyLoginResponse(d, compare, sign, email, password);
            var b := LoginResponse(email, password, (e, p) => ServiceLogin(d, compare, sign, e, p));
            && a.status == b.status
            && (a.status != 200 ==> a == b)
            && (a.status == 200 ==> exists u :: u in d.users && u.email == email.value
                                              && a.body == TokenBody(sign(u.id, "1h"))
                                              && b.body == TokenBody(sign(u.id, "1m")))
  {
    if CredentialsPresent(email, password) {
      assert ((e, p) => ServiceLogin(d, compare, sign, e, p))(email.value, password.value)
          == ServiceLogin(d, compare, sign, email.value, password.value);
    }
  }

  /** The inline balance handler answers exactly as the controller over the service. */
  lemma LegacyBalanceMatchesController(d: Db, userId: Option<int>)
    ensures LegacyBalanceResponse(d, userId) == BalanceResponse(BalanceOf(d, userId))
  {
  }

  /** With unique ids, setting one user's used hours is the service's whole-row update of that user. */
  lemma {:induction false} SetUsedIsUpdate(users: seq<User>, u: User, used: int)
    requires UniqueIds(users) && u in users
    ensures SetUsed(users, u.id, used) == ReplaceUser(users, u.(usedPtoHours := used))
  {
    var j :| 0 <= j < |users| && users[j] == u;
    forall i | 0 <= i < |users|
      ensures SetUsed(users, u.id, used)[i] == ReplaceUser(users, u.(usedPtoHours := used))[i]
    {
      if users[i].id == u.id {
        assert i == j;
      }
    }
  }

  /**
   * On the opened database the inline submit gives the same response and
   * leaves the same tables as the controller over the service.
   */
  lemma LegacySubmitMatchesController(d: Db, h: SeedHashes, userId: Option<int>, b: SubmitBody)
    requires d.isOpen && Consistent(d)
    ensures LegacySubmitExchange(d, userId, b) == SubmitExchange(d, h, userId, b)
  {
    if FieldsPresent(b) {
      match UserWithId(d.users, userId)
      case None =>
      case Some(u) =>
        if b.hours.value <= u.maxPtoHours - u.usedPtoHours {
          var d1 := Appended(d, userId.value, b.requestDate.value, b.hours.value, b.reason.value, "pending");
          var u1 := u.(usedPtoHours := u.usedPtoHours + b.hours.value);
          DebitKeepsConsistent(d, u, b.requestDate.value, b.hours.value, b.reason.value);
          SetUsedIsUpdate(d1.users, u, u.usedPtoHours + b.hours.value);
          assert Inserted(d, NewRequest(0, userId.value, b.requestDate.value, b.hours.value, b.reason.value, Some("pending")))
              == d1;
        }
    }
  }

  /** The inline submit keeps the tables consistent, as the service's submit does. */
  lemma LegacySubmitKeepsConsistent(d: Db, h: SeedHashes, userId: Option<int>, b: SubmitBody)
    requires d.isOpen && Consistent(d)
    ensures Consistent(LegacySubmitExchange(d, userId, b).db)
  {
    LegacySubmitMatchesController(d, h, userId, b);
    if FieldsPresent(b) {
      SubmitKeepsConsistent(d, userId, b.requestDate.value, b.hours.value, b.reason.value);
    }
  }

  // ---------------------------------------------------------------- the inline handlers

  /** The `/auth/login` handler. */
  method Login(store: Store, ctx: Context, email: Option<string>, password: Option<string>,
               compare: (string, string) -> bool, sign: (int, string) -> string)
    requires !ctx.explicitStatus
    modifies ctx
    ensures ctx.Answer() == LegacyLoginResponse(store.Value(), compare, sign, email, password)
  {
    if !(Truthy(email) && Truthy(password)) {
      ctx.Respond(400, ErrorBody(CredentialsRequired));
      return;
    }
    var user := UserWithEmail(store.users, email.value);
    if user.None? {
      ctx.Respond(401, ErrorBody(InvalidCredentials));
      return;
    }
    var matches := compare(password.value, user.value.password);
    if !matches {
      ctx.Respond(401, ErrorBody(InvalidCredentials));
      return;
    }
    var token := sign(user.value.id, "1h");
    ctx.SetBody(TokenBody(token));
  }

  /** The `/pto/balance` handler. */
  method GetBalance(store: Store, ctx: Context)
    requires !ctx.explicitStatus
    modifies ctx
    ensures ctx.Answer() == LegacyBalanceResponse(store.Value(), old(ctx.userId))
  {
    var user := UserWithId(store.users, ctx.userId);
    if user.None? {
      ctx.Respond(404, ErrorBody("User not found"));
      return;
    }
    var u := user.value;
    var remaining := u.maxPtoHours - u.usedPtoHours;
    ctx.SetBody(BalanceBody(Balance(u.maxPtoHours, u.usedPtoHours, remaining)));
  }

  /** The `/pto/requests` handler: only the caller's rows. */
  method GetRequests(store: Store, ctx: Context)
    requires !ctx.explicitStatus
    modifies ctx
    ensures ctx.Answer() == Response(200, RequestsBody(RequestsOf(store.requests, old(ctx.userId))))
  {
    var rows := RequestsOf(store.requests, ctx.userId);
    ctx.SetBody(RequestsBody(rows));
  }

  /** The `/pto/request` handler, run after startup opened the database. */
  method SubmitRequest(store: Store, ctx: Context, b: SubmitBody)
    requires store.Valid() && store.isOpen && !ctx.explicitStatus
    modifies store, ctx
    ensures store.Valid()
    ensures Exchange(ctx.Answer(), store.Value()) == LegacySubmitExchange(old(store.Value()), old(ctx.userId), b)
  {
    var userId := ctx.userId;
    if !(Truthy(b.requestDate) && b.hours.Some? && b.hours.value != 0 && Truthy(b.reason)) {
      ctx.Respond(400, ErrorBody(MissingFields));
      return;
    }
    var user := UserWithId(store.users, userId);
    if user.None? {
      ctx.Respond(404, ErrorBody("User not found"));
      return;
    }
    var u := user.value;
    var remaining := u.maxPtoHours - u.usedPtoHours;
    if b.hours.value > remaining {
      ctx.Respond(400, ErrorBody("Insufficient PTO balance"));
      return;
    }
    var newUsed := u.usedPtoHours + b.hours.value;
    ghost var d := store.Value();
    ghost var d1 := Appended(d, userId.value, b.requestDate.value, b.hours.value, b.reason.value, "pending");
    ghost var d2 := d1.(users := SetUsed(d1.users, userId.value, newUsed));
    LegacySubmitKeepsConsistent(d, store.hashes, userId, b);
    assert LegacySubmitExchange(d, userId, b) == Exchange(Response(200, MessageBody(SubmittedMessage)), d2);
    store.InsertRequestRow(userId.value, b.requestDate.value, b.hours.value, b.reason.value, "pending");
    store.SetUsedHours(userId.value, newUsed);
    assert store.Value() == d2;
    ctx.SetBody(MessageBody(SubmittedMessage));
  }
}
