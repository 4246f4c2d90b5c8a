/** `src/middlewares/jwt_auth_middleware.rs`: the gate in front of the protected routes. It
    reads the `Authorization` header, extracts the bearer token, decodes it with the access
    secret and either answers 401 itself or hands the request, now carrying the decoded
    claims, to the next handler. It consults neither the token registry nor the kind of the
    token. */
module JwtAuthMiddleware {
  import opened Uuids
  import opened Errors
  import opened Models
  import opened Text
  import opened Jwt
  import opened TokenUtil
  import opened TokenService

  /** A header value as it arrives: bytes. */
  type HeaderValue = seq<Byte>

  /** The part of a request the middleware touches: the claims slot of its extensions. The
      rest of the request is carried along unchanged. */
  datatype Request = Request(path: string, body: seq<Byte>, claims: Option<TokenClaims>)

  /** What becomes of a request: answered here with a status and no body, passed on to the
      next handler, or the task panics (no response is written). */
  datatype Handling = Rejected(status: StatusCode) | Forwarded(request: Request) | Panicked

  /** `HeaderValue::to_str`: the value as text when every byte is visible ASCII or a tab. */
  function ToStr(h: HeaderValue): (r: Option<string>)
    ensures r.Some? <==> forall i | 0 <= i < |h| :: IsVisibleAscii(h[i])
    ensures r.Some? ==> |r.value| == |h| && forall i | 0 <= i < |h| :: r.value[i] as int == h[i]
  {
    if forall i | 0 <= i < |h| :: IsVisibleAscii(h[i]) then
      Some(seq(|h|, i requires 0 <= i < |h| => h[i] as char))
    else None
  }

  /** The bytes of an ASCII string, as a client sends it. */
  function AsciiBytes(s: string): (h: HeaderValue)
    requires forall i | 0 <= i < |s| :: s[i] as int < 128
    ensures |h| == |s| && forall i | 0 <= i < |s| :: h[i] == s[i] as int
  {
    seq(|s|, i requires 0 <= i < |s| => s[i] as int)
  }

  /** `jwt_auth_middleware`: a missing header or one that is not visible ASCII panics (both
      `unwrap`s); a header without a bearer token, or a token that does not decode with the
      access secret, is answered with 401; otherwise the claims are attached and the request
      goes on. */
  function Middleware(authorization: Option<HeaderValue>, request: Request, jwt: Codec,
                      accessSecret: string, now: int): (h: Handling)
    ensures h.Panicked? <==> authorization.None? || ToStr(authorization.value).None?
    ensures h.Rejected? ==> h.status == UnauthorizedStatus
    ensures h.Forwarded? <==>
              && authorization.Some? && ToStr(authorization.value).Some?
              && GetBearerToken(ToStr(authorization.value).value).Ok?
              && ParseJwtToken(jwt, GetBearerToken(ToStr(authorization.value).value).value, accessSecret, now).Ok?
    ensures h.Forwarded? ==>
              h.request == request.(claims := Some(jwt.decode(GetBearerToken(ToStr(authorization.value).value).value,
                                                              accessSecret, now).value))
  {
    match authorization
    case None => Handling.Panicked
    case Some(value) =>
      match ToStr(value)
      case None => Handling.Panicked
      case Some(header) =>
        match GetBearerToken(header)
        case Err(_) => Rejected(UnauthorizedStatus)
        case Ok(token) =>
          match ParseJwtToken(jwt, token, accessSecret, now)
          case Err(_) => Rejected(UnauthorizedStatus)
          case Ok(claims) => Forwarded(request.(claims := Some(claims)))
  }

  /** The header a client sends with a token: `Bearer <token>`. */
  function BearerHeader(token: string): (h: HeaderValue)
    requires IsCompact(token)
    ensures ToStr(h) == Some(Scheme + " " + token)
  {
    var text := Scheme + " " + token;
    assert forall i | 0 <= i < |text| :: text[i] as int < 128 by {
      forall i | 0 <= i < |text| ensures text[i] as int < 128 {
        if i >= |Scheme| + 1 {
          assert text[i] == token[i - |Scheme| - 1];
        }
      }
    }
    var h := AsciiBytes(text);
    assert forall i | 0 <= i < |h| :: IsVisibleAscii(h[i]) by {
      forall i | 0 <= i < |h| ensures IsVisibleAscii(h[i]) {
        if i >= |Scheme| + 1 {
          assert text[i] == token[i - |Scheme| - 1];
        }
      }
    }
    assert ToStr(h).value == text;
    h
  }

  /** Any token that decodes with the access secret is let through with its claims, whatever
      its kind: a refresh token signed with the access secret would pass too. */
  lemma DecodableTokenForwarded(jwt: Codec, accessSecret: string, claims: TokenClaims, request: Request, now: int)
    requires Sound(jwt)
    requires jwt.encode(claims, accessSecret).Some? && now <= claims.exp
    ensures Middleware(Some(BearerHeader(jwt.encode(claims, accessSecret).value)), request, jwt, accessSecret, now)
         == Forwarded(request.(claims := Some(claims)))
  {
    var token := jwt.encode(claims, accessSecret).value;
    CompactIsWord(token);
    BearerPlain(token);
  }

  /** An access token the service issued is accepted until it expires, with the claims it was
      issued with. No registry appears here: whether the session was logged out plays no part. */
  lemma IssuedAccessTokenForwarded(settings: Settings, jwt: Codec, userId: Uuid, tokenId: Uuid, issuedAt: int,
                                   request: Request, now: int)
    requires Sound(jwt)
    requires GenerateToken(settings, jwt, Access, userId, tokenId, issuedAt).Ok?
    requires now <= issuedAt + AccessTtl
    ensures Middleware(Some(BearerHeader(GenerateToken(settings, jwt, Access, userId, tokenId, issuedAt).value)),
                       request, jwt, settings.accessSecret, now)
         == Forwarded(request.(claims := Some(Claims(Access, userId, tokenId, issuedAt))))
  {
    DecodableTokenForwarded(jwt, settings.accessSecret, Claims(Access, userId, tokenId, issuedAt), request, now);
  }

  /** With distinct secrets, a refresh token is refused with 401. */
  lemma IssuedRefreshTokenRejected(settings: Settings, jwt: Codec, userId: Uuid, tokenId: Uuid, issuedAt: int,
                                   request: Request, now: int)
    requires Sound(jwt) && settings.accessSecret != settings.refreshSecret
    requires GenerateToken(settings, jwt, Refresh, userId, tokenId, issuedAt).Ok?
    ensures Middleware(Some(BearerHeader(GenerateToken(settings, jwt, Refresh, userId, tokenId, issuedAt).value)),
                       request, jwt, settings.accessSecret, now)
         == Rejected(UnauthorizedStatus)
  {
    var token := GenerateToken(settings, jwt, Refresh, userId, tokenId, issuedAt).value;
    GeneratedTokenIsWord(settings, jwt, Refresh, userId, tokenId, issuedAt);
    GeneratedTokenRejected(settings, jwt, Refresh, userId, tokenId, issuedAt, settings.accessSecret, now);
  }

  /** A header with no bearer token is refused with 401 and the next handler does not run. */
  lemma NoBearerRejected(header: string, request: Request, jwt: Codec, accessSecret: string, now: int)
    requires forall i | 0 <= i < |header| :: header[i] == '\t' || 32 <= header[i] as int < 127
    requires GetBearerToken(header).Err?
    ensures Middleware(Some(AsciiBytes(header)), request, jwt, accessSecret, now) == Rejected(UnauthorizedStatus)
  {
    var h := AsciiBytes(header);
    assert ToStr(h).value == header;
  }
}
