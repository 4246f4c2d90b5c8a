/** `src/services/auth_service.rs`: login, logout and refresh over the user table and the
    token registry. Every failure of these operations is an internal error (500); only the
    middleware answers 401. The registry writes happen in a fixed order with early returns,
    and nothing is undone when a later step fails. */
module AuthService {
  import opened Uuids
  import opened Errors
  import opened Models
  import opened Dtos
  import opened Jwt
  import opened TokenUtil
  import opened TokenRepository
  import opened TokenService
  import opened PasswordUtil
  import opened UserRepository

  const AuthenticationFailedMessage: string := "Authentication failed."
  const SaveTokensMessage: string := "Error while saving tokens."
  const UserNotFoundMessage: string := "User not found."
  const LookupMessage: string := "An error occurred."
  const RefreshForLogoutMessage: string := "Used refresh token for logout."
  const MustBeRefreshMessage: string := "Must be refresh token."

  /** What the service is wired with: its own settings (whose secrets decode presented
      tokens), the token service's settings (whose secrets sign new ones), the JWT library
      and the password hasher. */
  datatype AuthConfig = AuthConfig(settings: Settings, tokenSettings: Settings, jwt: Codec, hasher: Hasher)

  /** `check_user`: the stored row must carry the presented email and the password must match
      its hash. The email comparison comes first, so a mismatch never reaches bcrypt. */
  function CheckUser(hasher: Hasher, user: User, dbUser: User): (o: Outcome<()>)
    ensures o == Returned(Ok(())) <==>
              dbUser.email == user.email && hasher.verify(user.password, dbUser.password) == Some(true)
    ensures o.Panicked? <==>
              dbUser.email == user.email && hasher.verify(user.password, dbUser.password).None?
    ensures o.Returned? && o.result.Err? ==> o.result.error == InternalServerError(AuthenticationFailedMessage)
  {
    if dbUser.email != user.email then Returned(Err(InternalServerError(AuthenticationFailedMessage)))
    else
      match CheckPasswordHash(hasher, user.password, dbUser.password)
      case Panicked => Panicked
      case Returned(r) =>
        if r.value then Returned(Ok(())) else Returned(Err(InternalServerError(AuthenticationFailedMessage)))
  }

  /** `generate_tokens`: the access token, then the refresh token, for one user and token id
      at one instant; the first failure is returned. */
  function GenerateTokens(settings: Settings, jwt: Codec, userId: Uuid, tokenId: Uuid, now: int): (r: Result<TokensResponseDto>)
    ensures r.Ok? <==> GenerateToken(settings, jwt, Access, userId, tokenId, now).Ok?
                       && GenerateToken(settings, jwt, Refresh, userId, tokenId, now).Ok?
    ensures r.Ok? ==> r.value == TokensResponseDto(GenerateToken(settings, jwt, Access, userId, tokenId, now).value,
                                                   GenerateToken(settings, jwt, Refresh, userId, tokenId, now).value)
    ensures r.Err? && GenerateToken(settings, jwt, Access, userId, tokenId, now).Err? ==>
              r.error == InternalServerError(GenerateMessage(Access))
    ensures r.Err? && GenerateToken(settings, jwt, Access, userId, tokenId, now).Ok? ==>
              r.error == InternalServerError(GenerateMessage(Refresh))
  {
    match GenerateToken(settings, jwt, Access, userId, tokenId, now)
    case Err(e) => Err(e)
    case Ok(accessToken) =>
      match GenerateToken(settings, jwt, Refresh, userId, tokenId, now)
      case Err(e) => Err(e)
      case Ok(refreshToken) => Ok(TokensResponseDto(accessToken, refreshToken))
  }

  /** `save_tokens`: the access token, then the refresh token; stops at the first failure,
      so a refused refresh write leaves the access entry in place. */
  function SaveTokensSpec(reg: Registry, userId: Uuid, tokenId: Uuid, tokens: TokensResponseDto): (out: (Result<()>, Registry))
    ensures out.1.refused == reg.refused
    ensures out.0.Ok? <==> SetEx(Key(Access, userId, tokenId)) !in reg.refused
                           && SetEx(Key(Refresh, userId, tokenId)) !in reg.refused
    ensures out.0.Ok? ==> out.1.entries == reg.entries[Key(Access, userId, tokenId) := Entry(tokens.accessToken, AccessTtl)]
                                                      [Key(Refresh, userId, tokenId) := Entry(tokens.refreshToken, RefreshTtl)]
    ensures SetEx(Key(Access, userId, tokenId)) in reg.refused ==>
              out == (Err(InternalServerError(SaveMessage(Access))), reg)
    ensures SetEx(Key(Access, userId, tokenId)) !in reg.refused && SetEx(Key(Refresh, userId, tokenId)) in reg.refused ==>
              && out.0 == Err(InternalServerError(SaveMessage(Refresh)))
              && out.1.entries == reg.entries[Key(Access, userId, tokenId) := Entry(tokens.accessToken, AccessTtl)]
  {
    var (r1, reg1) := SaveSpec(reg, Access, userId, tokenId, tokens.accessToken);
    if r1.Err? then (Err(r1.error), reg1)
    else
      var (r2, reg2) := SaveSpec(reg1, Refresh, userId, tokenId, tokens.refreshToken);
      if r2.Err? then (Err(r2.error), reg2) else (Ok(()), reg2)
  }

  /** `delete_tokens`: the access entry, then the refresh entry; stops at the first failure,
      so the refresh entry is not touched when the access delete is refused. Absent entries
      are no obstacle. */
  function DeleteTokensSpec(reg: Registry, userId: Uuid, tokenId: Uuid): (out: (Result<()>, Registry))
    ensures out.1.refused == reg.refused
    ensures out.0.Ok? <==> Del(Key(Access, userId, tokenId)) !in reg.refused
                           && Del(Key(Refresh, userId, tokenId)) !in reg.refused
    ensures out.0.Ok? ==> out.1.entries == reg.entries - {Key(Access, userId, tokenId), Key(Refresh, userId, tokenId)}
    ensures Del(Key(Access, userId, tokenId)) in reg.refused ==>
              out == (Err(InternalServerError(DeleteMessage(Access))), reg)
    ensures Del(Key(Access, userId, tokenId)) !in reg.refused && Del(Key(Refresh, userId, tokenId)) in reg.refused ==>
              && out.0 == Err(InternalServerError(DeleteMessage(Refresh)))
              && out.1.entries == reg.entries - {Key(Access, userId, tokenId)}
  {
    var (r1, reg1) := DeleteSpec(reg, Access, userId, tokenId);
    if r1.Err? then (Err(r1.error), reg1)
    else
      var (r2, reg2) := DeleteSpec(reg1, Refresh, userId, tokenId);
      if r2.Err? then (Err(r2.error), reg2) else (Ok(()), reg2)
  }

  /** `login`: look the user up by email, check the password, mint the fresh token id
      `tokenId`, sign both tokens at `now`, record them. */
  function LoginSpec(cfg: AuthConfig, db: UserDb, reg: Registry, user: User, tokenId: Uuid, now: int)
    : (Outcome<TokensResponseDto>, Registry)
  {
    match GetByEmailSpec(db, user.email)
    case Err(_) => (Returned(Err(InternalServerError(UserNotFoundMessage))), reg)
    case Ok(None) => (Returned(Err(InternalServerError(LookupMessage))), reg)
    case Ok(Some(u)) =>
      match CheckUser(cfg.hasher, user, u)
      case Panicked => (Panicked, reg)
      case Returned(Err(e)) => (Returned(Err(e)), reg)
      case Returned(Ok(_)) =>
        match GenerateTokens(cfg.tokenSettings, cfg.jwt, u.id, tokenId, now)
        case Err(e) => (Returned(Err(e)), reg)
        case Ok(tokens) =>
          var (saved, reg') := SaveTokensSpec(reg, u.id, tokenId, tokens);
          if saved.Ok? then (Returned(Ok(tokens)), reg')
          else (Returned(Err(InternalServerError(SaveTokensMessage))), reg')
  }

  /** `logout`: the bearer token of the header, decoded with the access secret, must be an
      access token; its session's two entries are then deleted. */
  function LogoutSpec(cfg: AuthConfig, reg: Registry, authHeader: string, now: int): (Result<()>, Registry)
  {
    match GetBearerToken(authHeader)
    case Err(e) => (Err(e), reg)
    case Ok(token) =>
      match ParseJwtToken(cfg.jwt, token, cfg.settings.accessSecret, now)
      case Err(e) => (Err(e), reg)
      case Ok(claims) =>
        if claims.isRefresh then (Err(InternalServerError(RefreshForLogoutMessage)), reg)
        else DeleteTokensSpec(reg, claims.sub, claims.jti)
  }

  /** `refresh`: the token, decoded with the refresh secret, must be a refresh token; its
      session's entries are deleted and a new pair for the same user and the same token id
      is signed at `now` and recorded. Whether the old entries existed is never asked. */
  function RefreshSpec(cfg: AuthConfig, reg: Registry, tokenString: string, now: int): (Result<TokensResponseDto>, Registry)
  {
    match ParseJwtToken(cfg.jwt, tokenString, cfg.settings.refreshSecret, now)
    case Err(e) => (Err(e), reg)
    case Ok(claims) =>
      if !claims.isRefresh then (Err(InternalServerError(MustBeRefreshMessage)), reg)
      else
        var (deleted, reg1) := DeleteTokensSpec(reg, claims.sub, claims.jti);
        if deleted.Err? then (Err(deleted.error), reg1)
        else
          match GenerateTokens(cfg.tokenSettings, cfg.jwt, claims.sub, claims.jti, now)
          case Err(e) => (Err(e), reg1)
          case Ok(tokens) =>
            var (saved, reg2) := SaveTokensSpec(reg1, claims.sub, claims.jti, tokens);
            if saved.Ok? then (Ok(tokens), reg2)
            else (Err(InternalServerError(SaveTokensMessage)), reg2)
  }

  class AuthServiceImpl {
    const users: UserRepositoryImpl
    const tokens: TokenServiceImpl
    const settings: Settings
    const hasher: Hasher

    constructor(users: UserRepositoryImpl, tokens: TokenServiceImpl, settings: Settings, hasher: Hasher)
      ensures this.users == users && this.tokens == tokens
      ensures this.settings == settings && this.hasher == hasher
    {
      this.users := users;
      this.tokens := tokens;
      this.settings := settings;
      this.hasher := hasher;
    }

    function Config(): AuthConfig
    {
      AuthConfig(settings, tokens.settings, tokens.jwt, hasher)
    }

    method SaveTokens(userId: Uuid, tokenId: Uuid, pair: TokensResponseDto) returns (r: Result<()>)
      modifies tokens.repository
      ensures (r, tokens.repository.Model()) == SaveTokensSpec(old(tokens.repository.Model()), userId, tokenId, pair)
    {
      var saved := tokens.SaveToken(Access, userId, tokenId, pair.accessToken);
      if saved.Err? {
        return Err(saved.error);
      }
      saved := tokens.SaveToken(Kind.Refresh, userId, tokenId, pair.refreshToken);
      if saved.Err? {
        return Err(saved.error);
      }
      r := Ok(());
    }

    method DeleteTokens(userId: Uuid, tokenId: Uuid) returns (r: Result<()>)
      modifies tokens.repository
      ensures (r, tokens.repository.Model()) == DeleteTokensSpec(old(tokens.repository.Model()), userId, tokenId)
    {
      var deleted := tokens.DeleteToken(Access, userId, tokenId);
      if deleted.Err? {
        return Err(deleted.error);
      }
      deleted := tokens.DeleteToken(Kind.Refresh, userId, tokenId);
      if deleted.Err? {
        return Err(deleted.error);
      }
      r := Ok(());
    }

    method Login(user: User, tokenId: Uuid, now: int) returns (o: Outcome<TokensResponseDto>)
      modifies tokens.repository
      ensures (o, tokens.repository.Model())
           == LoginSpec(Config(), users.Model(), old(tokens.repository.Model()), user, tokenId, now)
    {
      var found := users.GetByEmail(user.email);
      if found.Err? {
        return Returned(Err(InternalServerError(UserNotFoundMessage)));
      }
      if found.value.None? {
        return Returned(Err(InternalServerError(LookupMessage)));
      }
      var u := found.value.value;
      var checked := CheckUser(hasher, user, u);
      if checked.Panicked? {
        return Panicked;
      }
      if checked.result.Err? {
        return Returned(Err(checked.result.error));
      }
      var generated := GenerateTokens(tokens.settings, tokens.jwt, u.id, tokenId, now);
      if generated.Err? {
        return Returned(Err(generated.error));
      }
      var saved := SaveTokens(u.id, tokenId, generated.value);
      if saved.Ok? {
        o := Returned(Ok(generated.value));
      } else {
        o := Returned(Err(InternalServerError(SaveTokensMessage)));
      }
    }

    method Logout(authHeader: string, now: int) returns (r: Result<()>)
      modifies tokens.repository
      ensures (r, tokens.repository.Model()) == LogoutSpec(Config(), old(tokens.repository.Model()), authHeader, now)
    {
      var token := GetBearerToken(authHeader);
      if token.Err? {
        return Err(token.error);
      }
      var parsed := ParseJwtToken(tokens.jwt, token.value, settings.accessSecret, now);
      if parsed.Err? {
        return Err(parsed.error);
      }
      var claims := parsed.value;
      if claims.isRefresh {
        return Err(InternalServerError(RefreshForLogoutMessage));
      }
      r := DeleteTokens(claims.sub, claims.jti);
    }

    method Refresh(tokenString: string, now: int) returns (r: Result<TokensResponseDto>)
      modifies tokens.repository
      ensures (r, tokens.repository.Model()) == RefreshSpec(Config(), old(tokens.repository.Model()), tokenString, now)
    {
      var parsed := ParseJwtToken(tokens.jwt, tokenString, settings.refreshSecret, now);
      if parsed.Err? {
        return Err(parsed.error);
      }
      var claims := parsed.value;
      if !claims.isRefresh {
        return Err(InternalServerError(MustBeRefreshMessage));
      }
      var deleted := DeleteTokens(claims.sub, claims.jti);
      if deleted.Err? {
        return Err(deleted.error);
      }
      var generated := GenerateTokens(tokens.settings, tokens.jwt, claims.sub, claims.jti, now);
      if generated.Err? {
        return Err(generated.error);
      }
      var saved := SaveTokens(claims.sub, claims.jti, generated.value);
      if saved.Ok? {
        r := Ok(generated.value);
      } else {
        r := Err(InternalServerError(SaveTokensMessage));
      }
    }
  }

  // ---- login ----

  /** An unknown email, or a failing lookup, is an internal error and the registry is
      untouched. */
  lemma LoginLookupFails(cfg: AuthConfig, db: UserDb, reg: Registry, user: User, tokenId: Uuid, now: int)
    requires SelectByEmail(user.email) in db.refused || user.email !in db.users
    ensures LoginSpec(cfg, db, reg, user, tokenId, now)
         == (Returned(Err(InternalServerError(if SelectByEmail(user.email) in db.refused then UserNotFoundMessage
                                              else LookupMessage))), reg)
  {
  }

  /** A stored row with another email, or a password bcrypt rejects, is an internal error and
      the registry is untouched. */
  lemma LoginBadCredentials(cfg: AuthConfig, db: UserDb, reg: Registry, user: User, tokenId: Uuid, now: int)
    requires SelectByEmail(user.email) !in db.refused && user.email in db.users
    requires db.users[user.email].email != user.email
          || cfg.hasher.verify(user.password, db.users[user.email].password) == Some(false)
    ensures LoginSpec(cfg, db, reg, user, tokenId, now)
         == (Returned(Err(InternalServerError(AuthenticationFailedMessage))), reg)
  {
  }

  /** A malformed stored hash makes the password check panic before any registry write. */
  lemma LoginMalformedHashPanics(cfg: AuthConfig, db: UserDb, reg: Registry, user: User, tokenId: Uuid, now: int)
    requires SelectByEmail(user.email) !in db.refused && user.email in db.users
    requires db.users[user.email].email == user.email
    requires cfg.hasher.verify(user.password, db.users[user.email].password).None?
    ensures LoginSpec(cfg, db, reg, user, tokenId, now) == (Panicked, reg)
  {
  }

  /** A successful login checked the stored user's password, signed both tokens for that
      user and the one fresh token id, and recorded exactly the two session entries. */
  lemma LoginSuccess(cfg: AuthConfig, db: UserDb, reg: Registry, user: User, tokenId: Uuid, now: int)
    requires LoginSpec(cfg, db, reg, user, tokenId, now).0.Returned?
    requires LoginSpec(cfg, db, reg, user, tokenId, now).0.result.Ok?
    ensures user.email in db.users
    ensures cfg.hasher.verify(user.password, db.users[user.email].password) == Some(true)
    ensures LoginSpec(cfg, db, reg, user, tokenId, now).0.result.value
         == GenerateTokens(cfg.tokenSettings, cfg.jwt, db.users[user.email].id, tokenId, now).value
    ensures LoginSpec(cfg, db, reg, user, tokenId, now).1
         == reg.(entries := reg.entries
                   [Key(Access, db.users[user.email].id, tokenId)
                      := Entry(LoginSpec(cfg, db, reg, user, tokenId, now).0.result.value.accessToken, AccessTtl)]
                   [Key(Refresh, db.users[user.email].id, tokenId)
                      := Entry(LoginSpec(cfg, db, reg, user, tokenId, now).0.result.value.refreshToken, RefreshTtl)])
  {
  }

  /** The tokens of a successful login decode, each with its own kind's signing secret and
      before it expires, to claims naming the logged-in user and the fresh token id. */
  lemma LoginTokensNameSession(cfg: AuthConfig, db: UserDb, reg: Registry, user: User, tokenId: Uuid, now: int, later: int)
    requires Sound(cfg.jwt)
    requires LoginSpec(cfg, db, reg, user, tokenId, now).0.Returned?
    requires LoginSpec(cfg, db, reg, user, tokenId, now).0.result.Ok?
    requires later <= now + AccessTtl
    ensures user.email in db.users
    ensures ParseJwtToken(cfg.jwt, LoginSpec(cfg, db, reg, user, tokenId, now).0.result.value.accessToken,
                          cfg.tokenSettings.accessSecret, later)
         == Ok(Claims(Access, db.users[user.email].id, tokenId, now))
    ensures ParseJwtToken(cfg.jwt, LoginSpec(cfg, db, reg, user, tokenId, now).0.result.value.refreshToken,
                          cfg.tokenSettings.refreshSecret, later)
         == Ok(Claims(Refresh, db.users[user.email].id, tokenId, now))
  {
    LoginSuccess(cfg, db, reg, user, tokenId, now);
    var u := db.users[user.email];
    GeneratedTokenParses(cfg.tokenSettings, cfg.jwt, Access, u.id, tokenId, now, later);
    GeneratedTokenParses(cfg.tokenSettings, cfg.jwt, Refresh, u.id, tokenId, now, later);
  }

  /** Conversely, with the right password, a signer that never fails and a backend that
      takes both writes, login succeeds. */
  lemma LoginSucceeds(cfg: AuthConfig, db: UserDb, reg: Registry, user: User, tokenId: Uuid, now: int)
    requires Total(cfg.jwt)
    requires SelectByEmail(user.email) !in db.refused && user.email in db.users
    requires db.users[user.email].email == user.email
    requires cfg.hasher.verify(user.password, db.users[user.email].password) == Some(true)
    requires SetEx(Key(Access, db.users[user.email].id, tokenId)) !in reg.refused
    requires SetEx(Key(Refresh, db.users[user.email].id, tokenId)) !in reg.refused
    ensures LoginSpec(cfg, db, reg, user, tokenId, now).0.Returned?
    ensures LoginSpec(cfg, db, reg, user, tokenId, now).0.result.Ok?
  {
    var u := db.users[user.email];
    assert cfg.jwt.encode(Claims(Access, u.id, tokenId, now), Secret(cfg.tokenSettings, Access)).Some?;
    assert cfg.jwt.encode(Claims(Refresh, u.id, tokenId, now), Secret(cfg.tokenSettings, Refresh)).Some?;
  }

  /** When the refresh write is refused, login reports an error but the access entry it
      already wrote stays: a session with an access entry and no refresh entry. */
  lemma LoginLeavesAccessOnly(cfg: AuthConfig, db: UserDb, reg: Registry, user: User, tokenId: Uuid, now: int)
    requires Total(cfg.jwt)
    requires SelectByEmail(user.email) !in db.refused && user.email in db.users
    requires db.users[user.email].email == user.email
    requires cfg.hasher.verify(user.password, db.users[user.email].password) == Some(true)
    requires SetEx(Key(Access, db.users[user.email].id, tokenId)) !in reg.refused
    requires SetEx(Key(Refresh, db.users[user.email].id, tokenId)) in reg.refused
    requires Key(Refresh, db.users[user.email].id, tokenId) !in reg.entries
    ensures LoginSpec(cfg, db, reg, user, tokenId, now).0 == Returned(Err(InternalServerError(SaveTokensMessage)))
    ensures Key(Access, db.users[user.email].id, tokenId) in LoginSpec(cfg, db, reg, user, tokenId, now).1.entries
    ensures Key(Refresh, db.users[user.email].id, tokenId) !in LoginSpec(cfg, db, reg, user, tokenId, now).1.entries
  {
    var u := db.users[user.email];
    assert cfg.jwt.encode(Claims(Access, u.id, tokenId, now), Secret(cfg.tokenSettings, Access)).Some?;
    assert cfg.jwt.encode(Claims(Refresh, u.id, tokenId, now), Secret(cfg.tokenSettings, Refresh)).Some?;
    if Key(Access, u.id, tokenId) == Key(Refresh, u.id, tokenId) {
      KeyInjective(Access, u.id, tokenId, Refresh, u.id, tokenId);
    }
  }

  // ---- logout ----

  /** A refresh token presented for logout is refused and the registry is untouched. */
  lemma LogoutRefreshRejected(cfg: AuthConfig, reg: Registry, authHeader: string, now: int)
    requires GetBearerToken(authHeader).Ok?
    requires ParseJwtToken(cfg.jwt, GetBearerToken(authHeader).value, cfg.settings.accessSecret, now).Ok?
    requires ParseJwtToken(cfg.jwt, GetBearerToken(authHeader).value, cfg.settings.accessSecret, now).value.isRefresh
    ensures LogoutSpec(cfg, reg, authHeader, now) == (Err(InternalServerError(RefreshForLogoutMessage)), reg)
  {
  }

  /** A successful logout was given an access token and removed exactly its session's two
      entries. */
  lemma LogoutSuccess(cfg: AuthConfig, reg: Registry, authHeader: string, now: int)
    requires LogoutSpec(cfg, reg, authHeader, now).0.Ok?
    ensures GetBearerToken(authHeader).Ok?
    ensures ParseJwtToken(cfg.jwt, GetBearerToken(authHeader).value, cfg.settings.accessSecret, now).Ok?
    ensures var claims := ParseJwtToken(cfg.jwt, GetBearerToken(authHeader).value, cfg.settings.accessSecret, now).value;
            && !claims.isRefresh
            && LogoutSpec(cfg, reg, authHeader, now).1
               == reg.(entries := reg.entries - {Key(Access, claims.sub, claims.jti), Key(Refresh, claims.sub, claims.jti)})
  {
  }

  /** When the access entry's delete is refused, the refresh entry's delete is not attempted
      and nothing changes. */
  lemma LogoutStopsAtAccessDelete(cfg: AuthConfig, reg: Registry, authHeader: string, now: int)
    requires GetBearerToken(authHeader).Ok?
    requires ParseJwtToken(cfg.jwt, GetBearerToken(authHeader).value, cfg.settings.accessSecret, now).Ok?
    requires var claims := ParseJwtToken(cfg.jwt, GetBearerToken(authHeader).value, cfg.settings.accessSecret, now).value;
             !claims.isRefresh && Del(Key(Access, claims.sub, claims.jti)) in reg.refused
    ensures LogoutSpec(cfg, reg, authHeader, now) == (Err(InternalServerError(DeleteMessage(Access))), reg)
  {
  }

  /** Logging out twice succeeds twice: deleting absent entries is not an error, and the
      second call changes nothing. */
  lemma LogoutTwice(cfg: AuthConfig, reg: Registry, authHeader: string, now: int)
    requires LogoutSpec(cfg, reg, authHeader, now).0.Ok?
    ensures LogoutSpec(cfg, LogoutSpec(cfg, reg, authHeader, now).1, authHeader, now)
         == (Ok(()), LogoutSpec(cfg, reg, authHeader, now).1)
  {
    LogoutSuccess(cfg, reg, authHeader, now);
    var claims := ParseJwtToken(cfg.jwt, GetBearerToken(authHeader).value, cfg.settings.accessSecret, now).value;
    var reg1 := LogoutSpec(cfg, reg, authHeader, now).1;
    var keys := {Key(Access, claims.sub, claims.jti), Key(Refresh, claims.sub, claims.jti)};
    assert reg1.entries - keys == reg1.entries;
  }

  // ---- refresh ----

  /** An access token presented for refresh is refused and the registry is untouched. */
  lemma RefreshAccessRejected(cfg: AuthConfig, reg: Registry, tokenString: string, now: int)
    requires ParseJwtToken(cfg.jwt, tokenString, cfg.settings.refreshSecret, now).Ok?
    requires !ParseJwtToken(cfg.jwt, tokenString, cfg.settings.refreshSecret, now).value.isRefresh
    ensures RefreshSpec(cfg, reg, tokenString, now) == (Err(InternalServerError(MustBeRefreshMessage)), reg)
  {
  }

  /** A successful refresh was given a refresh token; it reissued both tokens for that token's
      user and token id, and the session's entries are the new ones. */
  lemma RefreshSuccess(cfg: AuthConfig, reg: Registry, tokenString: string, now: int)
    requires RefreshSpec(cfg, reg, tokenString, now).0.Ok?
    ensures ParseJwtToken(cfg.jwt, tokenString, cfg.settings.refreshSecret, now).Ok?
    ensures var claims := ParseJwtToken(cfg.jwt, tokenString, cfg.settings.refreshSecret, now).value;
            var pair := RefreshSpec(cfg, reg, tokenString, now).0.value;
            && claims.isRefresh
            && pair == GenerateTokens(cfg.tokenSettings, cfg.jwt, claims.sub, claims.jti, now).value
            && RefreshSpec(cfg, reg, tokenString, now).1
               == reg.(entries := (reg.entries - {Key(Access, claims.sub, claims.jti), Key(Refresh, claims.sub, claims.jti)})
                                  [Key(Access, claims.sub, claims.jti) := Entry(pair.accessToken, AccessTtl)]
                                  [Key(Refresh, claims.sub, claims.jti) := Entry(pair.refreshToken, RefreshTtl)])
  {
  }

  /** The reissued tokens carry the presented token's user and token id: the session id is
      reused, not renewed. */
  lemma RefreshReusesSession(cfg: AuthConfig, reg: Registry, tokenString: string, now: int)
    requires Sound(cfg.jwt)
    requires RefreshSpec(cfg, reg, tokenString, now).0.Ok?
    ensures ParseJwtToken(cfg.jwt, tokenString, cfg.settings.refreshSecret, now).Ok?
    ensures var claims := ParseJwtToken(cfg.jwt, tokenString, cfg.settings.refreshSecret, now).value;
            && ParseJwtToken(cfg.jwt, RefreshSpec(cfg, reg, tokenString, now).0.value.accessToken,
                             cfg.tokenSettings.accessSecret, now)
               == Ok(Claims(Access, claims.sub, claims.jti, now))
            && ParseJwtToken(cfg.jwt, RefreshSpec(cfg, reg, tokenString, now).0.value.refreshToken,
                             cfg.tokenSettings.refreshSecret, now)
               == Ok(Claims(Refresh, claims.sub, claims.jti, now))
  {
    RefreshSuccess(cfg, reg, tokenString, now);
    var claims := ParseJwtToken(cfg.jwt, tokenString, cfg.settings.refreshSecret, now).value;
    GeneratedTokenParses(cfg.tokenSettings, cfg.jwt, Access, claims.sub, claims.jti, now, now);
    GeneratedTokenParses(cfg.tokenSettings, cfg.jwt, Refresh, claims.sub, claims.jti, now, now);
  }

  /** Refresh never asks whether the session is still registered: a decodable refresh token
      succeeds whatever the registry holds, as long as the backend takes the writes. */
  lemma RefreshIgnoresRegistry(cfg: AuthConfig, reg: Registry, tokenString: string, now: int)
    requires Total(cfg.jwt)
    requires ParseJwtToken(cfg.jwt, tokenString, cfg.settings.refreshSecret, now).Ok?
    requires var claims := ParseJwtToken(cfg.jwt, tokenString, cfg.settings.refreshSecret, now).value;
             && claims.isRefresh
             && Del(Key(Access, claims.sub, claims.jti)) !in reg.refused
             && Del(Key(Refresh, claims.sub, claims.jti)) !in reg.refused
             && SetEx(Key(Access, claims.sub, claims.jti)) !in reg.refused
             && SetEx(Key(Refresh, claims.sub, claims.jti)) !in reg.refused
    ensures RefreshSpec(cfg, reg, tokenString, now).0.Ok?
  {
    var claims := ParseJwtToken(cfg.jwt, tokenString, cfg.settings.refreshSecret, now).value;
    assert cfg.jwt.encode(Claims(Access, claims.sub, claims.jti, now), Secret(cfg.tokenSettings, Access)).Some?;
    assert cfg.jwt.encode(Claims(Refresh, claims.sub, claims.jti, now), Secret(cfg.tokenSettings, Refresh)).Some?;
  }
}
