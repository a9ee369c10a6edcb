/**
 * The slice of a Koa request context the handlers touch: the response
 * status and body, the `Authorization` request header, and
 * `ctx.state.userId`. Status and body follow Koa's setters: a fresh
 * context answers 404, assigning a body turns that into 200 unless a
 * status was assigned explicitly first.
 */
module Koa {
  import opened Wrappers
  import Ledger
  import PtoService

  /** The JSON bodies the handlers produce. */
  datatype Body =
    | NoBody
    | ErrorBody(error: string)
    | MessageBody(message: string)
    | TokenBody(token: string)
    | BalanceBody(balance: PtoService.Balance)
    | RequestsBody(rows: seq<Ledger.PtoRequest>)

  /** What the client receives. */
  datatype Response = Response(status: int, body: Body)

  class Context {
    var status: int
    var explicitStatus: bool
    var body: Body
    const authorization: Option<string>
    var userId: Option<int>

    /** A context as Koa creates it for an incoming request. */
    constructor(authorization: Option<string>)
      ensures status == 404 && !explicitStatus && body == NoBody
      ensures this.authorization == authorization && userId == None
    {
      status := 404;
      explicitStatus := false;
      body := NoBody;
      this.authorization := authorization;
      userId := None;
    }

    function Answer(): Response
      reads this
    {
      Response(status, body)
    }

    /** `ctx.status = code`. */
    method SetStatus(code: int)
      modifies this
      ensures status == code && explicitStatus
      ensures body == old(body) && userId == old(userId)
    {
      status := code;
      explicitStatus := true;
    }

    /** `ctx.body = b`: the status becomes 200 unless one was set explicitly. */
    method SetBody(b: Body)
      modifies this
      ensures body == b && explicitStatus == old(explicitStatus) && userId == old(userId)
      ensures status == if old(explicitStatus) then old(status) else 200
    {
      body := b;
      if !explicitStatus {
        status := 200;
      }
    }

    /** `ctx.status = code; ctx.body = b`, the pair every error branch writes. */
    method Respond(code: int, b: Body)
      modifies this
      ensures Answer() == Response(code, b) && explicitStatus && userId == old(userId)
    {
      SetStatus(code);
      SetBody(b);
    }

    /** `ctx.state.userId = id`. */
    method SetUserId(id: Option<int>)
      modifies this
      ensures userId == id
      ensures status == old(status) && explicitStatus == old(explicitStatus) && body == old(body)
    {
      userId := id;
    }
  }
}
