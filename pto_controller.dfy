/**
 * The leave controller: reads `ctx.state.userId`, checks that the submit
 * body has its three fields, calls the service and maps its errors to
 * HTTP statuses by their message.
 */
module PtoController {
  import opened Wrappers
  import opened Text
  import opened Ledger
  import opened PtoService
  import opened Koa

  /** The parsed JSON body of `POST /pto/request`; an absent field is None. */
  datatype SubmitBody = SubmitBody(requestDate: Option<string>, hours: Option<int>, reason: Option<string>)

  /** `requestDate && hours && reason` is truthy: 0 hours counts as missing. */
  predicate FieldsPresent(b: SubmitBody) {
    Truthy(b.requestDate) && b.hours.Some? && b.hours.value != 0 && Truthy(b.reason)
  }

  const MissingFields := "requestDate, hours, and reason are required"
  const ServerError := "Server error"
  const SubmittedMessage := "PTO request submitted successfully"

  /** A response together with the database it leaves. */
  datatype Exchange = Exchange(response: Response, db: Db)

  /** `getBalance`'s response to the service's answer. */
  function BalanceResponse(r: Result<Balance, PtoError>): Response {
    match r
    case Success(data) => Response(200, BalanceBody(data))
    case Failure(e) =>
      if Message(e) == "User not found" then Response(404, ErrorBody("User not found"))
      else Response(500, ErrorBody(ServerError))
  }

  /** `submitRequest`'s response to the service's outcome. */
  function SubmitResponse(o: Outcome<PtoError>): Response {
    match o
    case Pass => Response(200, MessageBody(SubmittedMessage))
    case Fail(e) =>
      if Message(e) == "User not found" then Response(404, ErrorBody("User not found"))
      else if Message(e) == "Insufficient PTO balance" then Response(400, ErrorBody(Message(e)))
      else Response(500, ErrorBody(ServerError))
  }

  /** `POST /pto/request` past the middleware: validation, then the service on the initialised database. */
  function SubmitExchange(d: Db, h: SeedHashes, userId: Option<int>, b: SubmitBody): Exchange {
    if !FieldsPresent(b) then Exchange(Response(400, ErrorBody(MissingFields)), d)
    else
      var s := Submit(AfterInit(d, h), userId, b.requestDate.value, b.hours.value, b.reason.value);
      Exchange(SubmitResponse(s.outcome), s.db)
  }

  /**
   * The balance endpoint answers 200 with the row's figures exactly when
   * the user exists, and 404 'User not found' otherwise; it never answers 500.
   */
  lemma BalanceStatuses(d: Db, userId: Option<int>)
    ensures var resp := BalanceResponse(BalanceOf(d, userId));
            && (resp.status == 200 <==> exists u :: u in d.users && Some(u.id) == userId)
            && (resp.status == 200 ==>
                  resp.body.BalanceBody?
                  && resp.body.balance.remainingHours == resp.body.balance.maxHours - resp.body.balance.usedHours)
            && (resp.status != 200 ==> resp == Response(404, ErrorBody("User not found")))
  {
  }

  /**
   * Every way the submit endpoint can answer. Missing fields give 400
   * without touching the database (it is not even initialised); otherwise
   * 404, 400 'Insufficient PTO balance' or 200 according to the caller's
   * row, and on a consistent database never 500. Anything but 200 leaves
   * the (initialised) database as it was.
   */
  lemma SubmitStatuses(d: Db, h: SeedHashes, userId: Option<int>, b: SubmitBody)
    requires Consistent(d)
    ensures var e := SubmitExchange(d, h, userId, b);
            var c := AfterInit(d, h);
            && (!FieldsPresent(b) ==> e == Exchange(Response(400, ErrorBody(MissingFields)), d))
            && (FieldsPresent(b) ==>
                  && ((e.response == Response(404, ErrorBody("User not found"))) <==>
                        forall u :: u in c.users ==> Some(u.id) != userId)
                  && ((e.response == Response(400, ErrorBody("Insufficient PTO balance"))) <==>
                        exists u :: u in c.users && Some(u.id) == userId && b.hours.value > u.maxPtoHours - u.usedPtoHours)
                  && ((e.response == Response(200, MessageBody(SubmittedMessage))) <==>
                        exists u :: u in c.users && Some(u.id) == userId && b.hours.value <= u.maxPtoHours - u.usedPtoHours)
                  && (e.response.status != 200 ==> e.db == c))
            && e.response.status != 500
  {
    if FieldsPresent(b) {
      AfterInitValid(d, h);
      var c := AfterInit(d, h);
      SubmitOutcomes(c, userId, b.requestDate.value, b.hours.value, b.reason.value);
      SubmitRejectionWritesNothing(c, userId, b.requestDate.value, b.hours.value, b.reason.value);
    }
  }

  // ---------------------------------------------------------------- the handlers

  /** `getBalance(ctx)`. */
  method GetBalance(store: Store, ctx: Context)
    requires store.Valid() && !ctx.explicitStatus
    modifies store, ctx
    ensures store.Valid()
    ensures store.Value() == AfterInit(old(store.Value()), store.hashes)
    ensures ctx.Answer() == BalanceResponse(BalanceOf(store.Value(), old(ctx.userId)))
    ensures ctx.userId == old(ctx.userId)
  {
    var userId := ctx.userId;
    var r := PtoService.GetBalance(store, userId);
    match r
    case Success(data) =>
      ctx.SetBody(BalanceBody(data));
    case Failure(e) =>
      if Message(e) == "User not found" {
        ctx.Respond(404, ErrorBody("User not found"));
      } else {
        // the service fails only with 'User not found', so the 500 answer cannot be reached
        assert false;
      }
  }

  /** `getRequests(ctx)`: the caller's rows, in table order. */
  method GetRequests(store: Store, ctx: Context)
    requires store.Valid() && !ctx.explicitStatus
    modifies store, ctx
    ensures store.Valid()
    ensures store.Value() == AfterInit(old(store.Value()), store.hashes)
    ensures ctx.Answer() == Response(200, RequestsBody(RequestsOf(store.requests, old(ctx.userId))))
    ensures ctx.userId == old(ctx.userId)
  {
    var userId := ctx.userId;
    var rows := PtoService.GetRequests(store, userId);
    ctx.SetBody(RequestsBody(rows));
  }

  /** `submitRequest(ctx)`. */
  method SubmitRequest(store: Store, ctx: Context, b: SubmitBody)
    requires store.Valid() && !ctx.explicitStatus
    modifies store, ctx
    ensures store.Valid()
    ensures Exchange(ctx.Answer(), store.Value()) == SubmitExchange(old(store.Value()), store.hashes, old(ctx.userId), b)
    ensures ctx.userId == old(ctx.userId)
  {
    var userId := ctx.userId;
    if !(Truthy(b.requestDate) && b.hours.Some? && b.hours.value != 0 && Truthy(b.reason)) {
      ctx.Respond(400, ErrorBody(MissingFields));
      return;
    }
    var outcome := PtoService.SubmitRequest(store, userId, b.requestDate.value, b.hours.value, b.reason.value);
    match outcome
    case Pass =>
      ctx.SetBody(MessageBody(SubmittedMessage));
    case Fail(e) =>
      if Message(e) == "User not found" {
        ctx.Respond(404, ErrorBody("User not found"));
      } else if Message(e) == "Insufficient PTO balance" {
        ctx.Respond(400, ErrorBody(Message(e)));
      } else {
        ctx.Respond(500, ErrorBody(ServerError));
      }
  }
}
