/** `src/services/token_service.rs`: the two kinds of token, how their claims are built and
    signed, and where each kind lives in the registry. The six registry operations of the
    source (get, save and delete, once per kind) are three operations over `Kind`. */
module TokenService {
  import opened Uuids
  import opened Errors
  import opened Models
  import opened Jwt
  import opened Text
  import opened TokenUtil
  import opened TokenRepository

  /** The two signing secrets of the configuration. */
  datatype Settings = Settings(accessSecret: string, refreshSecret: string)

  datatype Kind = Access | Refresh

  /** The `iss` claim of every token. */
  const Issuer: string := "rustblog"

  /** `Duration::hours(1)`: lifetime of an access token, in its `exp` and in the registry. */
  const AccessTtl: nat := 3600

  /** `Duration::hours(24 * 7)` and `Duration::days(7)`: lifetime of a refresh token. */
  const RefreshTtl: nat := 604800

  function Ttl(kind: Kind): nat
  {
    if kind == Access then AccessTtl else RefreshTtl
  }

  /** The secret a kind of token is signed with. */
  function Secret(settings: Settings, kind: Kind): string
  {
    if kind == Access then settings.accessSecret else settings.refreshSecret
  }

  function Suffix(kind: Kind): string
  {
    if kind == Access then ".at" else ".rt"
  }

  function GetMessage(kind: Kind): string
  {
    if kind == Access then "Cannot get access token." else "Cannot get refresh token"
  }

  function SaveMessage(kind: Kind): string
  {
    if kind == Access then "Cannot save access token." else "Cannot save refresh token."
  }

  function DeleteMessage(kind: Kind): string
  {
    if kind == Access then "Cannot delete access token." else "Cannot delete refresh token."
  }

  function GenerateMessage(kind: Kind): string
  {
    if kind == Access then "Cannot generate access token." else "Cannot generate refresh token."
  }

  /** The registry key `"{user}.{jti}.at"` or `"{user}.{jti}.rt"`. */
  function Key(kind: Kind, userId: Uuid, tokenId: Uuid): (key: string)
    ensures |key| == 76
    ensures key[..36] == ToString(userId) && key[36] == '.'
    ensures key[37..73] == ToString(tokenId) && key[73..] == Suffix(kind)
  {
    ToString(userId) + "." + ToString(tokenId) + Suffix(kind)
  }

  /** Keys never collide: a key names one kind, one user and one token id. In particular the
      access and refresh keys of the same session differ. */
  lemma KeyInjective(k1: Kind, u1: Uuid, j1: Uuid, k2: Kind, u2: Uuid, j2: Uuid)
    requires Key(k1, u1, j1) == Key(k2, u2, j2)
    ensures k1 == k2 && u1 == u2 && j1 == j2
  {
    var key := Key(k1, u1, j1);
    ToStringInjective(u1, u2);
    ToStringInjective(j1, j2);
    assert Suffix(k1)[1] == key[74] == Suffix(k2)[1];
  }

  /** The claims `generate_access_token` and `generate_refresh_token` sign at time `now`. */
  function Claims(kind: Kind, userId: Uuid, tokenId: Uuid, now: int): (c: TokenClaims)
    ensures c.iss == Issuer && c.sub == userId && c.jti == tokenId
    ensures c.iat == now && c.exp == now + Ttl(kind)
    ensures c.isRefresh <==> kind == Refresh
  {
    TokenClaims(Issuer, userId, tokenId, now, now + Ttl(kind), kind == Refresh)
  }

  /** `generate_access_token` / `generate_refresh_token`: the claims signed with the secret of
      their kind, or an internal error if signing fails. */
  function GenerateToken(settings: Settings, jwt: Codec, kind: Kind, userId: Uuid, tokenId: Uuid, now: int): (r: Result<string>)
    ensures r.Ok? <==> jwt.encode(Claims(kind, userId, tokenId, now), Secret(settings, kind)).Some?
    ensures r.Ok? ==> r.value == jwt.encode(Claims(kind, userId, tokenId, now), Secret(settings, kind)).value
    ensures r.Err? ==> r.error == InternalServerError(GenerateMessage(kind))
  {
    match jwt.encode(Claims(kind, userId, tokenId, now), Secret(settings, kind))
    case Some(token) => Ok(token)
    case None => Err(InternalServerError(GenerateMessage(kind)))
  }

  /** A generated token, presented before it expires to the decoder with its own kind's
      secret, yields exactly the claims it was made from. */
  lemma GeneratedTokenParses(settings: Settings, jwt: Codec, kind: Kind, userId: Uuid, tokenId: Uuid, now: int, later: int)
    requires Sound(jwt)
    requires GenerateToken(settings, jwt, kind, userId, tokenId, now).Ok?
    requires later <= now + Ttl(kind)
    ensures ParseJwtToken(jwt, GenerateToken(settings, jwt, kind, userId, tokenId, now).value,
                          Secret(settings, kind), later)
         == Ok(Claims(kind, userId, tokenId, now))
  {
    var claims := Claims(kind, userId, tokenId, now);
    var key := Secret(settings, kind);
    assert jwt.decode(jwt.encode(claims, key).value, key, later) == Some(claims);
  }

  /** Presented with any other secret, a generated token does not parse. */
  lemma GeneratedTokenRejected(settings: Settings, jwt: Codec, kind: Kind, userId: Uuid, tokenId: Uuid, now: int,
                               secret: string, later: int)
    requires Sound(jwt)
    requires GenerateToken(settings, jwt, kind, userId, tokenId, now).Ok?
    requires secret != Secret(settings, kind)
    ensures ParseJwtToken(jwt, GenerateToken(settings, jwt, kind, userId, tokenId, now).value, secret, later).Err?
  {
    var claims := Claims(kind, userId, tokenId, now);
    var key := Secret(settings, kind);
    assert jwt.decode(jwt.encode(claims, key).value, secret, later) == None;
  }

  /** A generated token fits in a bearer header: it has no whitespace. */
  lemma GeneratedTokenIsWord(settings: Settings, jwt: Codec, kind: Kind, userId: Uuid, tokenId: Uuid, now: int)
    requires Sound(jwt)
    requires GenerateToken(settings, jwt, kind, userId, tokenId, now).Ok?
    ensures GetBearerToken(Scheme + " " + GenerateToken(settings, jwt, kind, userId, tokenId, now).value)
         == Ok(GenerateToken(settings, jwt, kind, userId, tokenId, now).value)
  {
    var claims := Claims(kind, userId, tokenId, now);
    var key := Secret(settings, kind);
    CompactIsWord(jwt.encode(claims, key).value);
    BearerPlain(jwt.encode(claims, key).value);
  }

  // ---- the registry operations ----

  /** `get_access_token` / `get_refresh_token`: the token stored under the kind's key. */
  function GetSpec(reg: Registry, kind: Kind, userId: Uuid, tokenId: Uuid): (r: Result<string>)
    ensures r.Ok? <==> Get(Key(kind, userId, tokenId)) !in reg.refused && Key(kind, userId, tokenId) in reg.entries
    ensures r.Ok? ==> r.value == reg.entries[Key(kind, userId, tokenId)].token
    ensures r.Err? ==> r.error == InternalServerError(GetMessage(kind))
  {
    match GetTokenSpec(reg, Key(kind, userId, tokenId))
    case Ok(token) => Ok(token)
    case Err(_) => Err(InternalServerError(GetMessage(kind)))
  }

  /** `save_access_token` / `save_refresh_token`: the token under the kind's key, with the
      kind's lifetime as expiry. */
  function SaveSpec(reg: Registry, kind: Kind, userId: Uuid, tokenId: Uuid, token: string): (out: (Result<bool>, Registry))
    ensures out.1.refused == reg.refused
    ensures out.0.Ok? <==> SetEx(Key(kind, userId, tokenId)) !in reg.refused
    ensures out.0.Ok? ==> out.0.value && out.1.entries == reg.entries[Key(kind, userId, tokenId) := Entry(token, Ttl(kind))]
    ensures out.0.Err? ==> out.0.error == InternalServerError(SaveMessage(kind)) && out.1 == reg
  {
    var (r, reg') := SaveTokenSpec(reg, Key(kind, userId, tokenId), token, Ttl(kind));
    match r
    case Ok(_) => (Ok(true), reg')
    case Err(_) => (Err(InternalServerError(SaveMessage(kind))), reg')
  }

  /** `delete_access_tokens` / `delete_refresh_tokens`: success whether or not the key was
      there, and only the kind's key is gone. */
  function DeleteSpec(reg: Registry, kind: Kind, userId: Uuid, tokenId: Uuid): (out: (Result<bool>, Registry))
    ensures out.1.refused == reg.refused
    ensures out.0.Ok? <==> Del(Key(kind, userId, tokenId)) !in reg.refused
    ensures out.0.Ok? ==> out.0.value && out.1.entries == reg.entries - {Key(kind, userId, tokenId)}
    ensures out.0.Err? ==> out.0.error == InternalServerError(DeleteMessage(kind)) && out.1 == reg
  {
    var (r, reg') := DeleteTokenSpec(reg, Key(kind, userId, tokenId));
    match r
    case Ok(_) => (Ok(true), reg')
    case Err(_) => (Err(InternalServerError(DeleteMessage(kind))), reg')
  }

  /** A get after a save for the same user, token id and kind returns the saved token. */
  lemma SaveThenGetSame(reg: Registry, kind: Kind, userId: Uuid, tokenId: Uuid, token: string)
    requires SaveSpec(reg, kind, userId, tokenId, token).0.Ok?
    requires Get(Key(kind, userId, tokenId)) !in reg.refused
    ensures GetSpec(SaveSpec(reg, kind, userId, tokenId, token).1, kind, userId, tokenId) == Ok(token)
  {
  }

  /** A save of one kind leaves what a get of the other kind sees unchanged. */
  lemma SaveLeavesOtherKind(reg: Registry, kind: Kind, userId: Uuid, tokenId: Uuid, token: string)
    ensures GetSpec(SaveSpec(reg, kind, userId, tokenId, token).1, if kind == Access then Refresh else Access, userId, tokenId)
         == GetSpec(reg, if kind == Access then Refresh else Access, userId, tokenId)
  {
    var other := if kind == Access then Refresh else Access;
    if Key(kind, userId, tokenId) == Key(other, userId, tokenId) {
      KeyInjective(kind, userId, tokenId, other, userId, tokenId);
    }
  }

  /** After a delete the token of that kind can no longer be read. */
  lemma DeleteThenGet(reg: Registry, kind: Kind, userId: Uuid, tokenId: Uuid)
    requires DeleteSpec(reg, kind, userId, tokenId).0.Ok?
    ensures GetSpec(DeleteSpec(reg, kind, userId, tokenId).1, kind, userId, tokenId).Err?
  {
  }

  class TokenServiceImpl {
    const settings: Settings
    const jwt: Codec
    const repository: TokenRepositoryImpl

    constructor(settings: Settings, jwt: Codec, repository: TokenRepositoryImpl)
      ensures this.settings == settings && this.jwt == jwt && this.repository == repository
    {
      this.settings := settings;
      this.jwt := jwt;
      this.repository := repository;
    }

    method GetToken(kind: Kind, userId: Uuid, tokenId: Uuid) returns (r: Result<string>)
      ensures r == GetSpec(repository.Model(), kind, userId, tokenId)
    {
      var found := repository.GetToken(Key(kind, userId, tokenId));
      match found
      case Ok(token) => r := Ok(token);
      case Err(_) => r := Err(InternalServerError(GetMessage(kind)));
    }

    method SaveToken(kind: Kind, userId: Uuid, tokenId: Uuid, token: string) returns (r: Result<bool>)
      modifies repository
      ensures (r, repository.Model()) == SaveSpec(old(repository.Model()), kind, userId, tokenId, token)
    {
      var saved := repository.SaveToken(Key(kind, userId, tokenId), token, Ttl(kind));
      match saved
      case Ok(_) => r := Ok(true);
      case Err(_) => r := Err(InternalServerError(SaveMessage(kind)));
    }

    method DeleteToken(kind: Kind, userId: Uuid, tokenId: Uuid) returns (r: Result<bool>)
      modifies repository
      ensures (r, repository.Model()) == DeleteSpec(old(repository.Model()), kind, userId, tokenId)
    {
      var deleted := repository.DeleteToken(Key(kind, userId, tokenId));
      match deleted
      case Ok(_) => r := Ok(true);
      case Err(_) => r := Err(InternalServerError(DeleteMessage(kind)));
    }
  }
}
