/** Whole sessions across the auth service, the token registry and the middleware, with the
    service and the token service sharing one configuration as the application wires them
    (`src/container.rs`). */
module SessionScenarios {
  import opened Uuids
  import opened Errors
  import opened Models
  import opened Dtos
  import opened Jwt
  import opened TokenUtil
  import opened TokenRepository
  import opened TokenService
  import opened UserRepository
  import opened AuthService
  import opened JwtAuthMiddleware

  /** The registry commands of one session that a backend might refuse. */
  predicate SessionAccepted(reg: Registry, userId: Uuid, tokenId: Uuid)
  {
    && Del(Key(Access, userId, tokenId)) !in reg.refused
    && Del(Key(Refresh, userId, tokenId)) !in reg.refused
    && SetEx(Key(Access, userId, tokenId)) !in reg.refused
    && SetEx(Key(Refresh, userId, tokenId)) !in reg.refused
  }

  /** Logging out with the access token a login issued removes that session's two entries
      and leaves the registry as it was before the login everywhere else. */
  lemma LoginThenLogout(cfg: AuthConfig, db: UserDb, reg: Registry, user: User, tokenId: Uuid, now: int, later: int)
    requires Sound(cfg.jwt) && cfg.settings == cfg.tokenSettings
    requires LoginSpec(cfg, db, reg, user, tokenId, now).0.Returned?
    requires LoginSpec(cfg, db, reg, user, tokenId, now).0.result.Ok?
    requires later <= now + AccessTtl
    requires user.email in db.users && SessionAccepted(reg, db.users[user.email].id, tokenId)
    ensures LogoutSpec(cfg, LoginSpec(cfg, db, reg, user, tokenId, now).1,
                       Scheme + " " + LoginSpec(cfg, db, reg, user, tokenId, now).0.result.value.accessToken, later)
         == (Ok(()), reg.(entries := reg.entries - {Key(Access, db.users[user.email].id, tokenId),
                                                    Key(Refresh, db.users[user.email].id, tokenId)}))
  {
    var u := db.users[user.email];
    LoginSuccess(cfg, db, reg, user, tokenId, now);
    LoginTokensNameSession(cfg, db, reg, user, tokenId, now, later);
    GeneratedTokenIsWord(cfg.tokenSettings, cfg.jwt, Access, u.id, tokenId, now);
    var reg1 := LoginSpec(cfg, db, reg, user, tokenId, now).1;
    var keys := {Key(Access, u.id, tokenId), Key(Refresh, u.id, tokenId)};
    assert reg1.entries - keys == reg.entries - keys;
  }

  /** Logout does not revoke the access token: after it, the middleware still lets the token
      through with the session's claims until the token expires. */
  lemma LoggedOutTokenStillAccepted(cfg: AuthConfig, db: UserDb, reg: Registry, user: User, tokenId: Uuid, now: int,
                                    later: int, request: Request)
    requires Sound(cfg.jwt) && cfg.settings == cfg.tokenSettings
    requires LoginSpec(cfg, db, reg, user, tokenId, now).0.Returned?
    requires LoginSpec(cfg, db, reg, user, tokenId, now).0.result.Ok?
    requires later <= now + AccessTtl
    requires user.email in db.users && SessionAccepted(reg, db.users[user.email].id, tokenId)
    ensures IsCompact(LoginSpec(cfg, db, reg, user, tokenId, now).0.result.value.accessToken)
    ensures LogoutSpec(cfg, LoginSpec(cfg, db, reg, user, tokenId, now).1,
                       Scheme + " " + LoginSpec(cfg, db, reg, user, tokenId, now).0.result.value.accessToken, later).0
         == Ok(())
    ensures Middleware(Some(BearerHeader(LoginSpec(cfg, db, reg, user, tokenId, now).0.result.value.accessToken)),
                       request, cfg.jwt, cfg.settings.accessSecret, later)
         == Forwarded(request.(claims := Some(Claims(Access, db.users[user.email].id, tokenId, now))))
  {
    var u := db.users[user.email];
    LoginSuccess(cfg, db, reg, user, tokenId, now);
    LoginThenLogout(cfg, db, reg, user, tokenId, now, later);
    var claims := Claims(Access, u.id, tokenId, now);
    assert IsCompact(cfg.jwt.encode(claims, cfg.tokenSettings.accessSecret).value);
    IssuedAccessTokenForwarded(cfg.tokenSettings, cfg.jwt, u.id, tokenId, now, request, later);
  }

  /** Refresh does not consult the registry, so a logged-out session comes back: its refresh
      token still yields a new pair for the same session, and both entries are registered
      again. */
  lemma LoggedOutSessionRevives(cfg: AuthConfig, db: UserDb, reg: Registry, user: User, tokenId: Uuid, now: int,
                                later: int)
    requires Sound(cfg.jwt) && Total(cfg.jwt) && cfg.settings == cfg.tokenSettings
    requires LoginSpec(cfg, db, reg, user, tokenId, now).0.Returned?
    requires LoginSpec(cfg, db, reg, user, tokenId, now).0.result.Ok?
    requires later <= now + AccessTtl
    requires user.email in db.users && SessionAccepted(reg, db.users[user.email].id, tokenId)
    ensures var pair := LoginSpec(cfg, db, reg, user, tokenId, now).0.result.value;
            var loggedOut := LogoutSpec(cfg, LoginSpec(cfg, db, reg, user, tokenId, now).1,
                                        Scheme + " " + pair.accessToken, later).1;
            && RefreshSpec(cfg, loggedOut, pair.refreshToken, later).0
               == Ok(GenerateTokens(cfg.tokenSettings, cfg.jwt, db.users[user.email].id, tokenId, later).value)
            && Key(Access, db.users[user.email].id, tokenId) in RefreshSpec(cfg, loggedOut, pair.refreshToken, later).1.entries
            && Key(Refresh, db.users[user.email].id, tokenId) in RefreshSpec(cfg, loggedOut, pair.refreshToken, later).1.entries
  {
    var u := db.users[user.email];
    var pair := LoginSpec(cfg, db, reg, user, tokenId, now).0.result.value;
    LoginThenLogout(cfg, db, reg, user, tokenId, now, later);
    LoginTokensNameSession(cfg, db, reg, user, tokenId, now, later);
    var loggedOut := LogoutSpec(cfg, LoginSpec(cfg, db, reg, user, tokenId, now).1, Scheme + " " + pair.accessToken, later).1;
    assert loggedOut.refused == reg.refused;
    RefreshIgnoresRegistry(cfg, loggedOut, pair.refreshToken, later);
    RefreshSuccess(cfg, loggedOut, pair.refreshToken, later);
  }

  /** With distinct secrets, an access token is no refresh token: presented for refresh it
      fails to decode and the registry is untouched. */
  lemma AccessTokenCannotRefresh(cfg: AuthConfig, reg: Registry, userId: Uuid, tokenId: Uuid, issuedAt: int, now: int)
    requires Sound(cfg.jwt) && cfg.settings == cfg.tokenSettings
    requires cfg.settings.accessSecret != cfg.settings.refreshSecret
    requires GenerateToken(cfg.tokenSettings, cfg.jwt, Access, userId, tokenId, issuedAt).Ok?
    ensures RefreshSpec(cfg, reg, GenerateToken(cfg.tokenSettings, cfg.jwt, Access, userId, tokenId, issuedAt).value, now)
         == (Err(InternalServerError(DecodeMessage)), reg)
  {
    GeneratedTokenRejected(cfg.tokenSettings, cfg.jwt, Access, userId, tokenId, issuedAt, cfg.settings.refreshSecret, now);
  }

  /** Symmetrically, a refresh token presented for logout fails to decode with the access
      secret, and the registry is untouched. */
  lemma RefreshTokenCannotLogout(cfg: AuthConfig, reg: Registry, userId: Uuid, tokenId: Uuid, issuedAt: int, now: int)
    requires Sound(cfg.jwt) && cfg.settings == cfg.tokenSettings
    requires cfg.settings.accessSecret != cfg.settings.refreshSecret
    requires GenerateToken(cfg.tokenSettings, cfg.jwt, Refresh, userId, tokenId, issuedAt).Ok?
    ensures LogoutSpec(cfg, reg, Scheme + " " + GenerateToken(cfg.tokenSettings, cfg.jwt, Refresh, userId, tokenId, issuedAt).value, now)
         == (Err(InternalServerError(DecodeMessage)), reg)
  {
    GeneratedTokenIsWord(cfg.tokenSettings, cfg.jwt, Refresh, userId, tokenId, issuedAt);
    GeneratedTokenRejected(cfg.tokenSettings, cfg.jwt, Refresh, userId, tokenId, issuedAt, cfg.settings.accessSecret, now);
  }
}
