/**
 * The bearer-token gate in front of the leave endpoints: missing header,
 * strip `Bearer `, check the secret is configured, verify, check the
 * payload, then record `state.userId` and run the downstream handler.
 * `jwt.verify` is a foreign library and enters as a function parameter.
 */
module AuthMiddleware {
  import opened Wrappers
  import opened Text
  import opened Koa

  /** What `jwt.verify(token, key)` gives: it threw, a string payload, or an object payload whose `userId` key may be absent (None). */
  datatype Decoded = Rejected | TextPayload(text: string) | Payload(userId: Option<int>)

  /** The middleware's decision before the downstream handler runs. */
  datatype Decision = Refuse(error: string) | Raise(message: string) | Admit(userId: Option<int>)

  const MissingHeader := "Missing Authorization header"
  const InvalidToken := "Invalid token"
  const InvalidPayload := "Invalid token payload"
  const SecretRequired := "JWT_SECRET_KEY environment variable is required"
  const Scheme := "Bearer "

  /** `header.replace('Bearer ', '')`. */
  function BearerToken(header: string): string {
    ReplaceFirst(header, Scheme, "")
  }

  /** A header in the `Bearer <token>` form yields exactly the token. */
  lemma BearerTokenOfScheme(t: string)
    ensures BearerToken(Scheme + t) == t
  {
    assert (Scheme + t)[..|Scheme|] == Scheme;
    ReplaceLeadingPrefix(Scheme + t, Scheme, "");
    assert (Scheme + t)[|Scheme|..] == t;
  }

  /** A header that never mentions `Bearer ` is used as the token unchanged. */
  lemma BearerTokenWithoutScheme(header: string)
    requires forall k: nat :: k <= |header| ==> !OccursAt(header, Scheme, k)
    ensures BearerToken(header) == header
  {
    ReplaceFirstSpec(header, Scheme, "");
  }

  /** Only the first occurrence is removed. */
  lemma BearerTokenRemovesOnlyFirst()
    ensures BearerToken("Bearer Bearer abc") == "Bearer abc"
  {
    BearerTokenOfScheme("Bearer abc");
  }

  /** The decision of `authMiddleware` for a request with this header, under this secret. */
  function Decide(header: Option<string>, secret: Option<string>, verify: (string, string) -> Decoded): (r: Decision)
    ensures r == Refuse(MissingHeader) <==> !Truthy(header)
    ensures r.Raise? <==> Truthy(header) && !Truthy(secret)
    ensures r.Raise? ==> r.message == SecretRequired
    ensures r.Admit? <==> Truthy(header) && Truthy(secret)
                          && verify(BearerToken(header.value), secret.value).Payload?
                          && verify(BearerToken(header.value), secret.value).userId.Some?
    ensures r.Admit? ==> r.userId == verify(BearerToken(header.value), secret.value).userId
    ensures r == Refuse(InvalidToken) <==> Truthy(header) && Truthy(secret)
                                           && verify(BearerToken(header.value), secret.value).Rejected?
    ensures r == Refuse(InvalidPayload) <==>
              Truthy(header) && Truthy(secret)
              && (var v := verify(BearerToken(header.value), secret.value);
                  v.TextPayload? || (v.Payload? && v.userId.None?))
    ensures r.Refuse? ==> r.error in {MissingHeader, InvalidToken, InvalidPayload}
  {
    if !Truthy(header) then Refuse(MissingHeader)
    else if !Truthy(secret) then Raise(SecretRequired)
    else
      match verify(BearerToken(header.value), secret.value)
      case Rejected => Refuse(InvalidToken)
      case TextPayload(_) => Refuse(InvalidPayload)
      case Payload(id) => if id.None? then Refuse(InvalidPayload) else Admit(id)
  }

  /**
   * `authMiddleware(ctx, next)`. `nextThrows` says whether the downstream
   * handler throws; what it writes to the response is its own business,
   * so on the admitted path the middleware itself leaves the response as
   * it was, unless `next` throws, which is answered 401 'Invalid token'.
   */
  method Authenticate(ctx: Context, secret: Option<string>, verify: (string, string) -> Decoded, nextThrows: bool)
    returns (nextCalls: nat, raised: Option<string>)
    modifies ctx
    ensures match Decide(ctx.authorization, secret, verify)
            case Refuse(e) =>
              ctx.Answer() == Response(401, ErrorBody(e)) && nextCalls == 0 && raised == None
              && ctx.userId == old(ctx.userId)
            case Raise(m) =>
              raised == Some(m) && nextCalls == 0
              && ctx.Answer() == old(ctx.Answer()) && ctx.userId == old(ctx.userId)
            case Admit(id) =>
              nextCalls == 1 && raised == None && ctx.userId == id
              && ctx.Answer() == if nextThrows then Response(401, ErrorBody(InvalidToken)) else old(ctx.Answer())
  {
    nextCalls, raised := 0, None;
    var header := ctx.authorization;
    if !Truthy(header) {
      ctx.Respond(401, ErrorBody(MissingHeader));
      return;
    }
    var token := BearerToken(header.value);
    if !Truthy(secret) {
      raised := Some(SecretRequired);
      return;
    }
    var decoded := verify(token, secret.value);
    match decoded
    case Rejected =>
      ctx.Respond(401, ErrorBody(InvalidToken));
    case TextPayload(_) =>
      ctx.Respond(401, ErrorBody(InvalidPayload));
    case Payload(id) =>
      if id.None? {
        ctx.Respond(401, ErrorBody(InvalidPayload));
        return;
      }
      ctx.SetUserId(id);
      nextCalls := 1;
      if nextThrows {
        ctx.Respond(401, ErrorBody(InvalidToken));
      }
  }
}
