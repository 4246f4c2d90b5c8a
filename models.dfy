/** The persistent records and the token payload (the `src/models` directory). Timestamps
    (`chrono::DateTime<Utc>`) are whole seconds since the Unix epoch; their default is the epoch. */
module Models {
  import opened Uuids

  /** Seconds since the Unix epoch. */
  type Timestamp = int

  /** `DateTime::<Utc>::default()`, the Unix epoch. */
  const Epoch: Timestamp := 0

  /** A row of `users`; `password` holds the bcrypt verifier. */
  datatype User = User(id: Uuid, email: string, username: string, password: string,
                       createdAt: Timestamp, updatedAt: Timestamp)

  /** What `users.create` inserts. */
  datatype CreateUser = CreateUser(email: string, username: string, password: string)

  /** A row of `posts`; `imageId == Nil` means the post has no image. */
  datatype Post = Post(id: Uuid, title: string, body: string, imageId: Uuid, userId: Uuid,
                       createdAt: Timestamp, updatedAt: Timestamp)

  /** A row of `comments`. */
  datatype Comment = Comment(id: Uuid, body: string, userId: Uuid, postId: Uuid,
                             createdAt: Timestamp, updatedAt: Timestamp)

  /** The registered claims of section 4.1 of RFC 7519 that the tokens carry, plus the
      private claim telling access and refresh tokens apart. */
  datatype TokenClaims = TokenClaims(iss: string, sub: Uuid, jti: Uuid, iat: int, exp: int,
                                     isRefresh: bool)

  /** An object in the blob store: its bytes and the recorded content type. */
  datatype Blob = Blob(content: seq<Byte>, contentType: string)
}

/** The request and response payloads (the `src/dtos` directory). */
module Dtos {
  import opened Uuids
  import opened Models

  datatype PostRequestDto = PostRequestDto(title: string, body: string)

  datatype PostResponseDto = PostResponseDto(id: string, title: string, body: string,
                                             imageUrl: string, userId: string,
                                             updatedAt: Timestamp, createdAt: Timestamp)

  datatype CommentRequestDto = CommentRequestDto(body: string, postId: Uuid)

  datatype CommentResponseDto = CommentResponseDto(id: string, body: string, userId: string,
                                                   postId: string, updatedAt: Timestamp,
                                                   createdAt: Timestamp)

  datatype LoginRequestDto = LoginRequestDto(email: string, password: string)

  datatype TokensResponseDto = TokensResponseDto(accessToken: string, refreshToken: string)

  datatype ErrorResponseDto = ErrorResponseDto(error: string)
}
