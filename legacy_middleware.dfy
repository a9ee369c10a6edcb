/**
 * The earlier bearer-token gate: a fixed key, no check that the secret is
 * configured, and no check of the payload's shape, so a token whose
 * payload has no `userId` is admitted with `state.userId` undefined.
 */
module LegacyMiddleware {
  import opened Wrappers
  import opened Text
  import opened Koa
  import opened AuthMiddleware

  const FixedKey := "SUPER_SECRET_DEV_KEY"

  /** The decision of the earlier `authMiddleware`; it never raises. */
  function LegacyDecide(header: Option<string>, verify: (string, string) -> Decoded): (r: Decision)
    ensures !r.Raise?
    ensures r == Refuse(MissingHeader) <==> !Truthy(header)
    ensures r == Refuse(InvalidToken) <==> Truthy(header) && verify(BearerToken(header.value), FixedKey).Rejected?
    ensures r.Admit? <==> Truthy(header) && !verify(BearerToken(header.value), FixedKey).Rejected?
  {
    if !Truthy(header) then Refuse(MissingHeader)
    else
      match verify(BearerToken(header.value), FixedKey)
      case Rejected => Refuse(InvalidToken)
      case TextPayload(_) => Admit(None)
      case Payload(id) => Admit(id)
  }

  /**
   * Both revisions, the newer one configured with the same key: whatever
   * the newer admits, the earlier admits with the same user id; the earlier
   * also admits the payloads the newer refuses as 'Invalid token payload',
   * and then with no user id.
   */
  lemma LegacyAdmitsMore(header: Option<string>, verify: (string, string) -> Decoded)
    ensures var newer := Decide(header, Some(FixedKey), verify);
            var older := LegacyDecide(header, verify);
            && (newer.Admit? ==> older == newer)
            && (newer == Refuse(InvalidPayload) ==> older == Admit(None))
            && (newer.Refuse? && newer != Refuse(InvalidPayload) ==> older == newer)
  {
  }

  /** The earlier `authMiddleware(ctx, next)`; `nextThrows` as for the newer one. */
  method LegacyAuthenticate(ctx: Context, verify: (string, string) -> Decoded, nextThrows: bool)
    returns (nextCalls: nat)
    modifies ctx
    ensures match LegacyDecide(ctx.authorization, verify)
            case Refuse(e) =>
              ctx.Answer() == Response(401, ErrorBody(e)) && nextCalls == 0 && ctx.userId == old(ctx.userId)
            case Raise(_) => false
            case Admit(id) =>
              nextCalls == 1 && ctx.userId == id
              && ctx.Answer() == if nextThrows then Response(401, ErrorBody(InvalidToken)) else old(ctx.Answer())
  {
    nextCalls := 0;
    var header := ctx.authorization;
    if !Truthy(header) {
      ctx.Respond(401, ErrorBody(MissingHeader));
      return;
    }
    var token := BearerToken(header.value);
    var decoded := verify(token, FixedKey);
    if decoded.Rejected? {
      ctx.Respond(401, ErrorBody(InvalidToken));
      return;
    }
    var id := if decoded.Payload? then decoded.userId else None;
    ctx.SetUserId(id);
    nextCalls := 1;
    if nextThrows {
      ctx.Respond(401, ErrorBody(InvalidToken));
    }
  }
}
