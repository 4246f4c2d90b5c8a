# rust-blog core, modelled in Dafny

This project models the logic of a small blog back end written in Rust (axum, sqlx, Redis, S3).
It covers three parts, and proves properties of each.

- **Sessions.** Login, logout and refresh (`AuthService`) issue and revoke token pairs.
  - The token registry is a Redis map with keys `"{user}.{jti}.at"` and `"{user}.{jti}.rt"`, built by `TokenService`.
  - The `Authorization: Bearer <token>` parser (`TokenUtil`, section 2.1 of RFC 6750) sits in front of these operations.
  - The JWT middleware guards the protected routes (`JwtAuthMiddleware`).
  - Tokens carry the registered claims `iss`, `sub`, `jti`, `iat` and `exp` of section 4.1 of RFC 7519, plus `is_refresh`. They are signed with HS256 (section 3.2 of RFC 7518).
- **Posts, images and comments.** `PostService` runs the ordered update, `add_image` and `delete` protocols over a posts table and a blob store. `CommentService` runs the body-only comment update.
- **Pure helpers.** These cover the DTO mappers and the `image_url` rule, `Error::code` and `Error::message`, the result-to-response adapters, the list mapper, and the demo seeder's insert-if-absent rule.

How the model is built:

- **Stores are values.** Each backing store is a datatype: the posts and comments tables, the users table, the Redis registry and the S3 bucket. Each also carries a set `refused` of the commands its backend rejects, so every failure path the services handle can be reached deterministically.
- **State is a class.** Each repository and service that changes a store is a class. Its fields are the store's contents, and its methods are proved equal to a specification function of the old state, e.g. `(r, Model()) == LoginSpec(old(...), ...)`. The lemmas state what the source promises about those functions.
- **Outcomes.** Operations return `Result` (`Ok`/`Err` with the service's `Error` kinds). Where the source calls `unwrap` or `expect` on something that can fail, they return an `Outcome` whose `Panicked` case is the panic.
- **Foreign code.** The JWT library is a pair of functions, `Codec(encode, decode)`, and bcrypt a pair `Hasher(hash, verify)`. The predicates `Jwt.Sound`, `Jwt.Total` and `PasswordUtil.Consistent` state what the code relies on from them. Lemmas take these predicates as hypotheses where they are needed.
- **Nondeterminism.** `Utc::now()`, `Uuid::new_v4()`, the database's generated ids and bcrypt's salt are parameters.

## Model

| member | source | states |
|---|---|---|
| Errors.Code | src/enums/error.rs:13-21 | each kind has its status (400, 401, 403, 404, 500), and the status tells the kind back in both directions |
| Errors.Message | src/enums/error.rs:23-31 | the message is the string the error carries, whatever the kind |
| Errors.CodeDeterminesKind | src/enums/error.rs:13-21 | two errors share a status code exactly when they are of the same kind (`code` is injective over the kinds) |
| Errors.CodeIsNeverSuccess | src/enums/error.rs:13-21 | no error maps to 200 or 204; every error code is at least 400 |
| FromResultToResponse.ToResponse | src/traits/from_result_to_response.rs:14-22 | `Ok(v)` becomes 200 with `op(v)`, and `op` is applied only on `Ok`; `Err(e)` becomes `(code(e), {error: message(e)})`, never 200 |
| FromResultToResponseWithNoContent.ToResponseWithNoContent | src/traits/from_result_to_response_with_no_content.rs:12-18 | `Ok(())` becomes 204 with an empty body; an error becomes its code and message, never 204 |
| FromResultToResponseWithNoContent.NoContentDependsOnlyOnVariant | src/traits/from_result_to_response_with_no_content.rs:14-17 | results with the same variant (and, for errors, the same code and message) give the same reply |
| MapperUtil.FromModelToDtoList | src/utils/mapper_util.rs:1-5 | the output has the input's length and element i is `transform(models[i])` (so empty gives empty, and order is kept) |
| MapperUtil.MapDistributes | src/utils/mapper_util.rs:1-5 | mapping a concatenation is the concatenation of the mappings |
| Uuids.ToString | src/mappers/post_mapper.rs:27 | the hyphenated text form of a UUID: 36 characters with hyphens at 8, 13, 18 and 23 |
| Uuids.ToStringInjective | src/mappers/post_mapper.rs:27 | distinct UUIDs have distinct text forms |
| Uuids.NilToString | src/mappers/post_mapper.rs:9 | the nil UUID prints as 36 characters of zeros and hyphens |
| PostMapper.FromDtoToPost | src/mappers/post_mapper.rs:7-16 | title and body come from the request; id, image id and author are nil |
| PostMapper.ImageUrl | src/mappers/post_mapper.rs:20-24 | the URL is empty exactly when the image id is nil, and otherwise is `/assets/images/` followed by the id |
| PostMapper.FromPostToDto | src/mappers/post_mapper.rs:19-34 | ids become their text forms; title, body and both timestamps are kept; the image URL follows the rule above |
| PostMapper.ImageUrlStripsToId | src/mappers/post_mapper.rs:21 | stripping the prefix from a non-nil image URL gives back the id's text |
| PostMapper.ImageUrlInjective | src/mappers/post_mapper.rs:20-24 | different image ids never share a URL |
| PostMapper.RequestShownBack | src/mappers/post_mapper.rs:7-24 | mapping a request to a post and back gives the request's title and body, an empty image URL and nil ids |
| CommentMapper.FromDtoToComment | src/mappers/comment_mapper.rs:5-13 | body and post id come from the request; id and author are nil |
| CommentMapper.FromCommentToDto | src/mappers/comment_mapper.rs:16-24 | the three ids become their text forms; body and both timestamps are kept |
| CommentMapper.PostIdTextNamesPost | src/mappers/comment_mapper.rs:21 | two responses with the same post-id text belong to the same post |
| AuthMapper.FromLoginDtoToUser | src/mappers/auth_mapper.rs:4-12 | email and cleartext password are copied; the id is nil and the username empty |
| TokenUtil.SplitWhitespace | src/utils/token_util.rs:7 | every part is a non-empty word without whitespace |
| TokenUtil.SplitHead | src/utils/token_util.rs:7 | a string with parts is leading whitespace, the first part, then a rest that splits into the other parts |
| TokenUtil.GetBearerToken | src/utils/token_util.rs:6-12 | on success the token is a non-empty word without whitespace; every failure is the one internal error |
| TokenUtil.BearerRoundTrip | src/utils/token_util.rs:6-12 | `Bearer`, whitespace and any whitespace-free token, with any leading, inner and trailing whitespace, parse back to that token |
| TokenUtil.BearerPlain | src/utils/token_util.rs:6-12 | `"Bearer " + t` parses to `t` for every whitespace-free `t` |
| TokenUtil.BearerShape | src/utils/token_util.rs:7-9 | conversely, an accepted header is exactly whitespace, `Bearer`, whitespace, the token, whitespace |
| TokenUtil.OneWordRejected | src/utils/token_util.rs:8-11 | a header with one word is rejected |
| TokenUtil.ManyWordsRejected | src/utils/token_util.rs:8-11 | a header with three or more words is rejected |
| TokenUtil.ThreeWordsRejected | src/utils/token_util.rs:8-11 | three words between whitespace are rejected |
| TokenUtil.OtherSchemeRejected | src/utils/token_util.rs:8-11 | two words whose first is not exactly `Bearer` are rejected |
| TokenUtil.LowerCaseSchemeRejected | src/utils/token_util.rs:8 | `bearer <token>` is rejected: the scheme comparison is case-sensitive |
| TokenUtil.ParseJwtToken | src/utils/token_util.rs:15-21 | decoded claims are returned unchanged; every decode failure is the one internal error |
| Jwt.CompactIsWord | src/utils/token_util.rs:6-12 | a compact token (base64url segments and dots) contains no whitespace |
| TokenRepository.GetTokenSpec | src/repository/token_repository.rs:30-37 | the stored token; a refused command or a missing key is an internal error |
| TokenRepository.SaveThenGet | src/repository/token_repository.rs:30-46 | a read after a write of the same key sees the written token |
| TokenRepository.TokenRepositoryImpl.GetToken | src/repository/token_repository.rs:30-37 | returns what the registry specification says, without changing it |
| TokenRepository.TokenRepositoryImpl.SaveToken | src/repository/token_repository.rs:39-46 | `SET key token EX ttl` overwrites the entry; a refused command changes nothing |
| TokenRepository.TokenRepositoryImpl.DeleteToken | src/repository/token_repository.rs:48-55 | `DEL key` removes the entry and answers whether it was there |
| TokenService.Key | src/services/token_service.rs:40 | a key is the user's text, `.`, the token id's text, then `.at` or `.rt` (76 characters) |
| TokenService.KeyInjective | src/services/token_service.rs:40-83 | equal keys mean the same kind, user and token id; so a session's access and refresh keys differ |
| TokenService.Claims | src/services/token_service.rs:89-102 | issuer `rustblog`, `sub` the user, `jti` the token id, `iat` now, `exp` now plus 3600 or 604800, `is_refresh` exactly for refresh tokens |
| TokenService.GenerateToken | src/services/token_service.rs:89-125 | the claims signed with the secret of their kind; a signing failure is the kind's internal error |
| TokenService.GeneratedTokenParses | src/services/token_service.rs:89-125 | before expiry, a generated token decodes with its own kind's secret to exactly its claims |
| TokenService.GeneratedTokenRejected | src/services/token_service.rs:89-125 | a generated token does not decode with any other secret |
| TokenService.GeneratedTokenIsWord | src/services/token_service.rs:89-125 | a generated token survives a bearer header: `Bearer <token>` parses back to it |
| TokenService.GetSpec | src/services/token_service.rs:39-53 | the token under the kind's key; any backend failure is the kind's internal error |
| TokenService.SaveSpec | src/services/token_service.rs:55-71 | the token is stored under the kind's key with TTL 3600 (access) or 604800 (refresh); a failure changes nothing |
| TokenService.DeleteSpec | src/services/token_service.rs:73-87 | success whether or not the key existed, and only the kind's key is removed; a failure changes nothing |
| TokenService.SaveThenGetSame | src/services/token_service.rs:39-71 | a get after a save for the same user, token id and kind returns the saved token |
| TokenService.SaveLeavesOtherKind | src/services/token_service.rs:55-71 | saving one kind does not change what a get of the other kind sees |
| TokenService.DeleteThenGet | src/services/token_service.rs:39-87 | after a delete, a get of that kind fails |
| TokenService.TokenServiceImpl.GetToken | src/services/token_service.rs:39-53 | matches `GetSpec` and changes nothing |
| TokenService.TokenServiceImpl.SaveToken | src/services/token_service.rs:55-71 | the registry and the result are those of `SaveSpec` |
| TokenService.TokenServiceImpl.DeleteToken | src/services/token_service.rs:73-87 | the registry and the result are those of `DeleteSpec` |
| JwtAuthMiddleware.ToStr | src/middlewares/jwt_auth_middleware.rs:18 | a header value is text exactly when every byte is visible ASCII or a tab, and then it is those bytes as characters |
| JwtAuthMiddleware.Middleware | src/middlewares/jwt_auth_middleware.rs:12-37 | a missing or non-ASCII header panics; the request is forwarded, with the decoded claims attached, exactly when a bearer token is found and decodes with the access secret; otherwise 401 |
| JwtAuthMiddleware.BearerHeader | src/middlewares/jwt_auth_middleware.rs:18-20 | the bytes of `Bearer <token>` read back as that text |
| JwtAuthMiddleware.DecodableTokenForwarded | src/middlewares/jwt_auth_middleware.rs:27-37 | any token that decodes with the access secret is forwarded with its claims, whatever `is_refresh` says |
| JwtAuthMiddleware.IssuedAccessTokenForwarded | src/middlewares/jwt_auth_middleware.rs:27-37 | an issued access token is accepted until it expires, with its claims; no registry is consulted |
| JwtAuthMiddleware.IssuedRefreshTokenRejected | src/middlewares/jwt_auth_middleware.rs:27-31 | with distinct secrets, a refresh token gets 401 |
| JwtAuthMiddleware.NoBearerRejected | src/middlewares/jwt_auth_middleware.rs:20-23 | a header that `to_str` reads as text (visible ASCII or tab) but that holds no bearer token gets 401, and the next handler does not run |
| PasswordUtil.HashPassword | src/utils/password_util.rs:3-9 | the hash bcrypt gives for the password and salt, or its failure; with a bcrypt-like hasher it is 60 characters long and `check_password_hash` accepts the password against it |
| PasswordUtil.CheckPasswordHash | src/utils/password_util.rs:7-9 | bcrypt's verdict; a malformed stored hash panics |
| UserRepository.GetByEmailSpec | src/repository/user_repository.rs:51-58 | the row with that email if any; a failing query is `NotFound` |
| UserRepository.CreateSpec | src/repository/user_repository.rs:60-71 | inserts the user with the generated id and timestamps; a refused insert or a taken email is an internal error and changes nothing |
| UserRepository.CreateKeepsKeying | src/repository/user_repository.rs:60-71 | inserting keeps every row filed under its own email |
| UserRepository.UserRepositoryImpl.GetByEmail | src/repository/user_repository.rs:51-58 | matches `GetByEmailSpec` and changes nothing |
| UserRepository.UserRepositoryImpl.Create | src/repository/user_repository.rs:60-71 | the table and result are those of `CreateSpec` |
| AuthService.CheckUser | src/services/auth_service.rs:37-47 | success exactly when the stored email equals the presented one and bcrypt accepts the password; a malformed hash panics only after the emails matched; every failure is "Authentication failed." |
| AuthService.GenerateTokens | src/services/auth_service.rs:49-65 | both tokens for one user and token id, access first; the first signing failure is returned (the access error if access signing fails, otherwise the refresh error) |
| AuthService.SaveTokensSpec | src/services/auth_service.rs:67-79 | access entry, then refresh entry; a refused refresh write leaves the access entry in place |
| AuthService.DeleteTokensSpec | src/services/auth_service.rs:81-93 | access entry, then refresh entry, absent entries allowed; a refused access delete means the refresh delete is never attempted |
| AuthService.LoginLookupFails | src/services/auth_service.rs:99-124 | a failing lookup ("User not found.") or an unknown email ("An error occurred.") is an internal error and the registry is untouched |
| AuthService.LoginBadCredentials | src/services/auth_service.rs:37-44 | another stored email or a rejected password is an internal error with no registry write |
| AuthService.LoginMalformedHashPanics | src/utils/password_util.rs:8 | a malformed stored hash panics before any registry write |
| AuthService.LoginSuccess | src/services/auth_service.rs:98-121 | a successful login checked the password, signed both tokens for the stored user and the one fresh token id, and added exactly the two session entries |
| AuthService.LoginTokensNameSession | src/services/auth_service.rs:108-119 | both issued tokens decode to claims with `sub` the user's id and `jti` the fresh token id |
| AuthService.LoginSucceeds | src/services/auth_service.rs:98-121 | with the right password, a signer that does not fail and a backend that takes both writes, login succeeds |
| AuthService.LoginLeavesAccessOnly | src/services/auth_service.rs:67-76 | when the refresh write fails, login errs but the access entry stays: an access-only session, nothing cleaned up |
| AuthService.LogoutRefreshRejected | src/services/auth_service.rs:143-145 | a refresh token presented for logout is an internal error and the registry is untouched |
| AuthService.LogoutSuccess | src/services/auth_service.rs:128-151 | a successful logout was given an access token and removed exactly its session's two entries |
| AuthService.LogoutStopsAtAccessDelete | src/services/auth_service.rs:81-86 | a refused access delete stops logout with nothing changed |
| AuthService.LogoutTwice | src/services/auth_service.rs:81-93 | a second logout with the same header succeeds and changes nothing |
| AuthService.RefreshAccessRejected | src/services/auth_service.rs:161-163 | an access token presented for refresh is an internal error and the registry is untouched |
| AuthService.RefreshSuccess | src/services/auth_service.rs:153-183 | a successful refresh was given a refresh token, deleted the session's entries, then saved the new pair under the same keys |
| AuthService.RefreshReusesSession | src/services/auth_service.rs:165-173 | the new tokens carry the presented token's `sub` and `jti` |
| AuthService.RefreshIgnoresRegistry | src/services/auth_service.rs:165-182 | refresh succeeds whatever the registry holds, even with no old entries |
| AuthService.AuthServiceImpl.SaveTokens | src/services/auth_service.rs:67-79 | the registry and result are those of `SaveTokensSpec` |
| AuthService.AuthServiceImpl.DeleteTokens | src/services/auth_service.rs:81-93 | the registry and result are those of `DeleteTokensSpec` |
| AuthService.AuthServiceImpl.Login | src/services/auth_service.rs:98-126 | the registry and outcome are those of the login specification |
| AuthService.AuthServiceImpl.Logout | src/services/auth_service.rs:128-151 | the registry and result are those of the logout specification |
| AuthService.AuthServiceImpl.Refresh | src/services/auth_service.rs:153-183 | the registry and result are those of the refresh specification |
| SessionScenarios.LoginThenLogout | src/services/auth_service.rs:98-151 | logging out with the access token a login issued leaves the registry as it was before the login, apart from those two keys |
| SessionScenarios.LoggedOutTokenStillAccepted | src/middlewares/jwt_auth_middleware.rs:27-37 | after logout, the middleware still forwards the session's access token with its claims until it expires |
| SessionScenarios.LoggedOutSessionRevives | src/services/auth_service.rs:153-183 | after logout, the session's refresh token still yields a new pair for the same session, and both entries are back |
| SessionScenarios.AccessTokenCannotRefresh | src/services/auth_service.rs:154-157 | with distinct secrets, an access token presented for refresh fails to decode and nothing changes |
| SessionScenarios.RefreshTokenCannotLogout | src/services/auth_service.rs:136-139 | with distinct secrets, a refresh token presented for logout fails to decode and nothing changes |
| PostRepository.GetOneSpec | src/repository/post_repository.rs:53-66 | the row with that id; any failure, a missing row included, is `NotFound` |
| PostRepository.CreatePostSpec | src/repository/post_repository.rs:68-85 | inserts title, body, image and author with the generated id and timestamps; a failure changes nothing |
| PostRepository.UpdatePostSpec | src/repository/post_repository.rs:87-106 | rewrites title, body, image and author of the row, keeping id and timestamps; a missing row is an internal error |
| PostRepository.DeletePostSpec | src/repository/post_repository.rs:108-120 | removes the row (an absent row is no error); a failure changes nothing |
| PostRepository.PostRepositoryImpl.GetOne | src/repository/post_repository.rs:53-66 | matches `GetOneSpec` and changes nothing |
| PostRepository.PostRepositoryImpl.Create | src/repository/post_repository.rs:68-85 | the table and result are those of `CreatePostSpec` |
| PostRepository.PostRepositoryImpl.Update | src/repository/post_repository.rs:87-106 | the table and result are those of `UpdatePostSpec` |
| PostRepository.PostRepositoryImpl.Delete | src/repository/post_repository.rs:108-120 | the table and result are those of `DeletePostSpec` |
| StoreService.SaveObjectSpec | src/services/store_service.rs:31-43 | stores the content under the new id and returns that id; a failure is "Error saving file." and changes nothing |
| StoreService.DeleteObjectSpec | src/services/store_service.rs:45-53 | removes the object (an absent one is no error); a failure is "Error deleting file." and changes nothing |
| StoreService.StoreServiceImpl.Save | src/services/store_service.rs:31-43 | the store and result are those of `SaveObjectSpec` |
| StoreService.StoreServiceImpl.Delete | src/services/store_service.rs:45-53 | the store and result are those of `DeleteObjectSpec` |
| PostService.OperationsKeepKeying | src/services/post_service.rs:45-105 | create, update, add_image and delete keep every row filed under its own id |
| PostService.CreateFromRequest | src/handlers/post_handler.rs:45-46 | a post created from a request has the request's title and body, no image, and the caller's `sub` as author |
| PostService.UpdateUnknown | src/services/post_service.rs:50-53 | updating an unknown post is `NotFound` and changes nothing |
| PostService.UpdateSuccess | src/services/post_service.rs:55-59 | a successful update changed only the stored post's title and body |
| PostService.UpdateIgnoresOtherFields | src/services/post_service.rs:55-57 | the request's image, author and timestamps play no part in an update |
| PostService.AddImageSuccess | src/services/post_service.rs:62-87 | on success the post points at the new image, which is stored, and the old image, if any, is gone |
| PostService.AddImageStoresImage | src/services/post_service.rs:63-68 | with a fresh id, the new image is in the store after success |
| PostService.AddImageMissingPost | src/services/post_service.rs:63-73 | a missing post is `NotFound` with the table unchanged, but the uploaded image stays in the store |
| PostService.AddImageOldDeleteFails | src/services/post_service.rs:77-81 | when the old image cannot be deleted the error is returned and the row is not updated |
| PostService.AddImageNoOldImage | src/services/post_service.rs:77 | with no old image, only the upload touches the store |
| PostService.AddImageUpdateFailureDangles | src/services/post_service.rs:77-86 | when the final row update fails, the post still points at the already-deleted old image |
| PostService.AddImagePreservesImages | src/services/post_service.rs:62-87 | a successful add_image keeps every post's image in the store and no image shared |
| PostService.DeleteSuccess | src/services/post_service.rs:89-105 | a successful delete removed the row and, if it had one, its image |
| PostService.DeleteImageFailureKeepsRow | src/services/post_service.rs:97-101 | when the image cannot be deleted, the row stays and nothing changes |
| PostService.DeleteWithoutImageKeepsStore | src/services/post_service.rs:97-104 | deleting a post without an image never touches the store |
| PostService.DeletePreservesImages | src/services/post_service.rs:89-105 | a successful delete keeps every remaining post's image in the store |
| PostService.PostServiceImpl.GetOne | src/services/post_service.rs:41-43 | the repository's answer, with nothing changed |
| PostService.PostServiceImpl.Create | src/services/post_service.rs:45-47 | the post goes to the repository unchanged |
| PostService.PostServiceImpl.Update | src/services/post_service.rs:49-60 | the table and result are those of the update specification |
| PostService.PostServiceImpl.AddImage | src/services/post_service.rs:62-87 | table, store and result are those of the add_image specification |
| PostService.PostServiceImpl.Delete | src/services/post_service.rs:89-105 | table, store and result are those of the delete specification |
| CommentRepository.IndexOf | src/repository/comment_repository.rs:61-74 | the first position of a row with that id, or -1 exactly when there is none |
| CommentRepository.ForPost | src/repository/comment_repository.rs:46-59 | exactly the rows of that post, no more rows than the table |
| CommentRepository.ForPostConcat | src/repository/comment_repository.rs:46-59 | the filter keeps order and multiplicity: the rows of a post in `a + b` are those in `a` followed by those in `b` |
| CommentRepository.GetAllForPostSpec | src/repository/comment_repository.rs:46-59 | the post's comments, in the model's row order; a failing query is an internal error |
| CommentRepository.GetOneSpec | src/repository/comment_repository.rs:61-74 | the row with that id; any failure, a missing row included, is `NotFound` |
| CommentRepository.CreateCommentSpec | src/repository/comment_repository.rs:76-92 | appends body, author and post with the generated id and timestamps; a failure changes nothing |
| CommentRepository.UpdateCommentSpec | src/repository/comment_repository.rs:94-112 | rewrites body, author and post of the row, keeping id and timestamps; a missing row is an internal error |
| CommentRepository.WritesKeepIdsUnique | src/repository/comment_repository.rs:76-112 | inserting and updating keep the ids unique |
| CommentRepository.CommentRepositoryImpl.GetAllForPost | src/repository/comment_repository.rs:46-59 | matches `GetAllForPostSpec` and changes nothing |
| CommentRepository.CommentRepositoryImpl.GetOne | src/repository/comment_repository.rs:61-74 | matches `GetOneSpec` and changes nothing |
| CommentRepository.CommentRepositoryImpl.Create | src/repository/comment_repository.rs:76-92 | the table and result are those of `CreateCommentSpec` |
| CommentRepository.CommentRepositoryImpl.Update | src/repository/comment_repository.rs:94-112 | the table and result are those of `UpdateCommentSpec` |
| CommentService.UpdateUnknown | src/services/comment_service.rs:50-53 | updating an unknown comment returns the lookup's `NotFound` and changes nothing |
| CommentService.UpdateSuccess | src/services/comment_service.rs:55-58 | a successful update replaced only the stored comment's body |
| CommentService.UpdateIgnoresOtherFields | src/services/comment_service.rs:55-57 | the request's author, post and timestamps play no part in an update |
| CommentService.UpdateIdempotent | src/services/comment_service.rs:55-58 | updating twice with the same body gives the same result and table as updating once |
| CommentService.CreateFromRequest | src/handlers/comment_handler.rs:34-35 | a comment created from a request has the request's body and post, and the caller's `sub` as author |
| CommentService.CommentServiceImpl.GetAllForPost | src/services/comment_service.rs:37-39 | the repository's answer, with nothing changed |
| CommentService.CommentServiceImpl.GetOne | src/services/comment_service.rs:41-43 | the repository's answer, with nothing changed |
| CommentService.CommentServiceImpl.Create | src/services/comment_service.rs:45-47 | the comment goes to the repository unchanged |
| CommentService.CommentServiceImpl.Update | src/services/comment_service.rs:49-59 | the table and result are those of the update specification |
| Demo.CreateUserExisting | src/config/demo.rs:8-13 | an existing email leaves the store as it is |
| Demo.CreateUserAdds | src/config/demo.rs:15-19 | for a new email exactly one user is added, with that email and username and the hash of the password |
| Demo.CreateUserAtMostOne | src/config/demo.rs:7-20 | whatever happens, the store stays as it is or gains that one email; a returning call leaves the email present |
| Demo.StoredPasswordNotCleartext | src/config/demo.rs:15-16 | with a bcrypt-like hasher, the stored password is a hash that verifies against the password, and for any password not exactly 60 characters long it is not the cleartext |
| Demo.InitDemoSeeds | src/config/demo.rs:22-28 | seeding returns with `john@rustblog.com` and `jane@rustblog.com` present; new ones get the usernames `jonn` and `jane` |
| Demo.InitDemoTwice | src/config/demo.rs:8-13 | once a seeding has returned, a second one changes nothing |
| Demo.CreateDemoUser | src/config/demo.rs:7-20 | the store and outcome are those of the insert-if-absent specification |
| Demo.InitDemo | src/config/demo.rs:22-28 | John then Jane; a panic stops the seeding |

## Left out

- Storage. SQL (PostgreSQL), Redis and S3 are modelled as maps, or for comments a sequence of rows. A fixed set of refused commands stands for connection and server failures. Connection pools, serialisation, the tokio `Mutex` around Redis and concurrency between requests are not modelled.
- Uniqueness. The users table's unique email and the tables' primary keys are part of the model's state. Migrations are not part of this model.
- Token expiry. Redis TTL expiry is not modelled as passing time: an `Entry` records the TTL it was written with.
- JWT. Signing and verification are abstract functions. `Jwt.Sound` promises decoding only while `now <= exp`, so the library's default 60-second leeway is not captured. Header and algorithm checks are also out.
- Login and refresh call `Utc::now()` once per token; the model uses one `now` for both tokens of a pair.
- bcrypt. Hashing and verification are abstract functions. The cost factor and the salt's randomness are not modelled; the salt is a parameter.
- Handlers, routing, `create_app`, `container`, `main`, the image proxy, multipart reading, request-body mapping and settings loading are not modelled. These are HTTP and wiring. From the handlers, only the assignment of `user_id = claims.sub` at creation is stated, in the two `CreateFromRequest` lemmas.
- `get_all` of posts, comments and users, and the user service's other pass-through operations (`get_one`, `delete`, `update`), are not modelled. They carry no logic beyond the query.
- Where the code departs from what its design evidently intends, the model follows the code and states the behaviour in a lemma. These places are:
  - a second logout with the same token succeeds (`AuthService.LogoutTwice`);
  - the middleware accepts a logged-out access token (`SessionScenarios.LoggedOutTokenStillAccepted`);
  - refresh brings a logged-out session back (`SessionScenarios.LoggedOutSessionRevives`);
  - refresh keeps the same `jti` and never checks the registry, so an already-rotated refresh token is accepted again (`AuthService.RefreshReusesSession`, `AuthService.RefreshIgnoresRegistry`);
  - login keeps the access entry when the refresh write fails (`AuthService.LoginLeavesAccessOnly`);
  - every authentication failure in the services is 500, never 401: bad credentials, an unknown email, the wrong token kind (`AuthService.LoginBadCredentials`, `AuthService.LoginLookupFails`, `AuthService.RefreshAccessRejected`, `AuthService.LogoutRefreshRejected`);
  - a malformed stored hash panics instead of failing the login (`AuthService.LoginMalformedHashPanics`);
  - `add_image` uploads before it looks the post up and deletes the old image before it re-points the post, which can leave an orphan image or a dangling `image_id` (`PostService.AddImageMissingPost`, `PostService.AddImageUpdateFailureDangles`).
- CommentRepository.UpdateCommentSpec: the `updated_at` column is kept as it was, because the statement does not set it; any database trigger is not modelled.
- PostRepository.UpdatePostSpec: the `updated_at` column is kept as it was, for the same reason.
- CommentRepository.GetAllForPostSpec: the query has no `ORDER BY`, so the database promises no order; the model returns the rows in its own table order, which is a choice of the model.
- Demo.StoredPasswordNotCleartext: proved only for passwords whose length is not 60. The hasher is assumed only to produce 60-character hashes, so a 60-character password that happened to equal its own hash is not excluded.
- JwtAuthMiddleware.Middleware: takes one optional `Authorization` value; with several such headers `HeaderMap::get` returns the first, and the model does not represent the others.
