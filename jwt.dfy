/** The JSON Web Token library (HS256 signing, section 3.2 of RFC 7518) as the service uses
    it. Signing and verification are foreign code, so the library is a pair of functions:
    `encode` signs claims with a secret (or fails), `decode` checks a token against a secret
    at a given time and yields its claims (or fails). What the service relies on is stated
    by `Sound`, which lemmas take as a hypothesis. */
module Jwt {
  import opened Errors
  import opened Models
  import opened Text

  /** The library: `jsonwebtoken::encode` and `jsonwebtoken::decode` with HS256. */
  datatype Codec = Codec(encode: (TokenClaims, string) -> Option<string>,
                         decode: (string, string, int) -> Option<TokenClaims>)

  /** A character of the compact serialization: the base64url alphabet (section 5 of
      RFC 4648) and the dot between segments. */
  predicate IsCompactChar(c: char)
  {
    ('A' <= c <= 'Z') || ('a' <= c <= 'z') || ('0' <= c <= '9') || c == '-' || c == '_' || c == '.'
  }

  /** A non-empty compact token. */
  predicate IsCompact(s: string)
  {
    |s| > 0 && forall i | 0 <= i < |s| :: IsCompactChar(s[i])
  }

  /** A compact token is one word: it has no whitespace, so it survives a bearer header. */
  lemma CompactIsWord(s: string)
    requires IsCompact(s)
    ensures IsWord(s)
  {
  }

  /** What an HMAC-signed compact token gives: a token decodes with the secret it was signed
      with while it has not expired; it never decodes with another secret; and its text is
      base64url segments joined by dots (section 7.1 of RFC 7515). */
  ghost predicate Sound(jwt: Codec)
  {
    && (forall claims: TokenClaims, key: string, now: int | now <= claims.exp && jwt.encode(claims, key).Some? ::
          jwt.decode(jwt.encode(claims, key).value, key, now) == Some(claims))
    && (forall claims: TokenClaims, key: string, other: string, now: int | other != key && jwt.encode(claims, key).Some? ::
          jwt.decode(jwt.encode(claims, key).value, other, now) == None)
    && (forall claims: TokenClaims, key: string | jwt.encode(claims, key).Some? ::
          IsCompact(jwt.encode(claims, key).value))
  }

  /** Signing never fails (HS256 with any byte string as key). */
  ghost predicate Total(jwt: Codec)
  {
    forall claims: TokenClaims, key: string :: jwt.encode(claims, key).Some?
  }
}
