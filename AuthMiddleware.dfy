/** `src/middleware/auth.ts`: the Bearer-token middlewares in front of the protected and
    the optionally authenticated routes. djwt's `verify` is a function parameter from a
    token to its payload (None when the signature or expiry check fails); the rest of the
    route is a `Downstream` whose calls are counted and which may throw. */
module AuthMiddleware {
  import opened Wrappers
  import opened Text
  import opened Http

  const Scheme := "Bearer "
  const TokenRequired := "Token de autenticación requerido"
  const TokenRejected := "Token inválido o expirado"

  /** `authHeader && authHeader.startsWith("Bearer ") ? authHeader.substring(7) : none`:
      the token after the case-sensitive scheme prefix. */
  function BearerToken(header: Option<string>): (r: Option<string>)
    ensures r.Some? <==> header.Some? && StartsWith(header.value, Scheme)
    ensures r.Some? ==> header.value == Scheme + r.value
  {
    if header.Some? && StartsWith(header.value, Scheme) then Some(header.value[7..]) else None
  }

  /** The header a client builds from a token is read back as that token. */
  lemma BearerRoundTrip(token: string)
    ensures BearerToken(Some(Scheme + token)) == Some(token)
  {
    assert (Scheme + token)[..7] == Scheme;
    assert (Scheme + token)[7..] == token;
  }

  /** A lower-case scheme is not accepted. */
  lemma SchemeIsCaseSensitive(token: string)
    ensures BearerToken(Some("bearer " + token)).None?
  {
    assert ("bearer " + token)[0] == 'b';
  }

  /** The rest of the route: `await next()`. Only the number of calls is kept. */
  class Downstream {
    var calls: nat

    constructor ()
      ensures calls == 0
    {
      calls := 0;
    }

    method Next()
      modifies this
      ensures calls == old(calls) + 1
    {
      calls := calls + 1;
    }
  }

  /** `authMiddleware`. Without a Bearer header or with a token `verify` rejects it
      answers 401 and does not call `next`; otherwise it stores the payload and calls
      `next` once. An exception thrown by `next` lands in the same catch as a rejected
      token and also answers 401. */
  method Authenticate(ctx: Context, next: Downstream, header: Option<string>,
                      verify: string -> Option<Payload>, nextThrows: bool)
    modifies ctx, next
    ensures BearerToken(header).None? ==>
      ctx.status == 401 && ctx.body == Failure(TokenRequired)
      && next.calls == old(next.calls) && ctx.user == old(ctx.user)
    ensures BearerToken(header).Some? && verify(BearerToken(header).value).None? ==>
      ctx.status == 401 && ctx.body == Failure(TokenRejected)
      && next.calls == old(next.calls) && ctx.user == old(ctx.user)
    ensures BearerToken(header).Some? && verify(BearerToken(header).value).Some? ==>
      && ctx.user == verify(BearerToken(header).value)
      && next.calls == old(next.calls) + 1
      && (nextThrows ==> ctx.status == 401 && ctx.body == Failure(TokenRejected))
      && (!nextThrows ==> ctx.status == old(ctx.status) && ctx.body == old(ctx.body))
  {
    var token := BearerToken(header);
    if token.None? {
      ctx.Respond(401, Failure(TokenRequired));
      return;
    }
    var payload := verify(token.value);
    if payload.None? {
      ctx.Respond(401, Failure(TokenRejected));
      return;
    }
    ctx.SetUser(payload);
    next.Next();
    if nextThrows {
      ctx.Respond(401, Failure(TokenRejected));
    }
  }

  /** `optionalAuthMiddleware`: the user is the payload of a Bearer token `verify`
      accepts and null otherwise, and `next` is always called. If `next` throws, the
      catch clears the user and calls `next` again; Oak's middleware composition refuses
      a second call from the same middleware ("next() called multiple times"), so the
      downstream does not run again and that error escapes (`escaped`) to Oak's own
      error handling, with the response as this middleware left it. */
  method OptionalAuthenticate(ctx: Context, next: Downstream, header: Option<string>,
                              verify: string -> Option<Payload>, nextThrows: bool)
    returns (escaped: bool)
    modifies ctx, next
    ensures ctx.status == old(ctx.status) && ctx.body == old(ctx.body)
    ensures next.calls == old(next.calls) + 1
    ensures escaped <==> nextThrows
    ensures !nextThrows ==>
      ctx.user == (if BearerToken(header).Some? then verify(BearerToken(header).value) else None)
    ensures nextThrows ==> ctx.user.None?
  {
    var token := BearerToken(header);
    if token.Some? {
      var payload := verify(token.value);
      ctx.SetUser(payload);
    } else {
      ctx.SetUser(None);
    }
    next.Next();
    escaped := false;
    if nextThrows {
      ctx.SetUser(None);
      // The second `next()` is refused before the downstream runs.
      escaped := true;
    }
  }
}
