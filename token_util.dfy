/** `src/utils/token_util.rs`: reading the bearer token out of an `Authorization` header
    (section 2.1 of RFC 6750, with the scheme name compared case-sensitively) and decoding
    a token with a given secret. */
module TokenUtil {
  import opened Errors
  import opened Models
  import opened Text
  import opened Jwt

  /** The scheme word the header must start with. */
  const Scheme: string := "Bearer"

  const NoBearerMessage: string := "Bearer token was not found inside Authentication header."
  const DecodeMessage: string := "Error while decoding jwt token."

  /** Length of the leading run of whitespace. */
  function LeadingBlank(s: string): (n: nat)
    ensures n <= |s| && Blank(s[..n])
    ensures n < |s| ==> !IsWhitespace(s[n])
  {
    if s == [] || !IsWhitespace(s[0]) then 0
    else
      var m := LeadingBlank(s[1..]);
      assert s[..1 + m] == [s[0]] + s[1..][..m];
      1 + m
  }

  /** Length of the leading run of non-whitespace. */
  function LeadingWord(s: string): (n: nat)
    ensures n <= |s| && forall i | 0 <= i < n :: !IsWhitespace(s[i])
    ensures n < |s| ==> IsWhitespace(s[n])
    ensures s != [] && !IsWhitespace(s[0]) ==> n > 0
  {
    if s == [] || IsWhitespace(s[0]) then 0 else 1 + LeadingWord(s[1..])
  }

  /** `str::split_whitespace`: the maximal runs of non-whitespace characters, in order. */
  function SplitWhitespace(s: string): (parts: seq<string>)
    ensures forall i | 0 <= i < |parts| :: IsWord(parts[i])
    decreases |s|
  {
    var rest := s[LeadingBlank(s)..];
    if rest == [] then []
    else
      var n := LeadingWord(rest);
      [rest[..n]] + SplitWhitespace(rest[n..])
  }

  /** `get_bearer_token`: exactly two words, the first exactly `Bearer`; the token is the
      second. Anything else is an internal error (the middleware turns it into 401). */
  function GetBearerToken(header: string): (r: Result<string>)
    ensures r.Ok? ==> IsWord(r.value)
    ensures r.Err? ==> r.error == InternalServerError(NoBearerMessage)
  {
    var parts := SplitWhitespace(header);
    if |parts| == 2 && parts[0] == Scheme then Ok(parts[1])
    else Err(InternalServerError(NoBearerMessage))
  }

  /** `parse_jwt_token`: the decoded claims, unchanged, or one internal error for every
      kind of decoding failure (bad signature, expired, malformed). */
  function ParseJwtToken(jwt: Codec, token: string, secret: string, now: int): (r: Result<TokenClaims>)
    ensures r.Ok? <==> jwt.decode(token, secret, now).Some?
    ensures r.Ok? ==> r.value == jwt.decode(token, secret, now).value
    ensures r.Err? ==> r.error == InternalServerError(DecodeMessage)
  {
    match jwt.decode(token, secret, now)
    case Some(claims) => Ok(claims)
    case None => Err(InternalServerError(DecodeMessage))
  }

  // ---- how splitting sees whitespace and words ----

  lemma {:induction false} LeadingBlankOf(w: string, x: string)
    requires Blank(w)
    requires x == [] || !IsWhitespace(x[0])
    ensures LeadingBlank(w + x) == |w|
  {
    if w != [] {
      assert (w + x)[1..] == w[1..] + x;
      LeadingBlankOf(w[1..], x);
    }
  }

  lemma {:induction false} LeadingWordOf(a: string, x: string)
    requires forall i | 0 <= i < |a| :: !IsWhitespace(a[i])
    requires x == [] || IsWhitespace(x[0])
    ensures LeadingWord(a + x) == |a|
  {
    if a != [] {
      assert (a + x)[1..] == a[1..] + x;
      LeadingWordOf(a[1..], x);
    }
  }

  /** Whitespace alone has no words. */
  lemma SplitBlank(w: string)
    requires Blank(w)
    ensures SplitWhitespace(w) == []
  {
    LeadingBlankOf(w, []);
    assert w + [] == w;
  }

  /** Whitespace, a word, then something that starts with whitespace (or nothing): the word
      comes first, then the words of the rest. */
  lemma SplitCons(w: string, a: string, rest: string)
    requires Blank(w) && IsWord(a)
    requires rest == [] || IsWhitespace(rest[0])
    ensures SplitWhitespace(w + a + rest) == [a] + SplitWhitespace(rest)
  {
    var s := w + a + rest;
    assert s == w + (a + rest);
    LeadingBlankOf(w, a + rest);
    assert s[|w|..] == a + rest;
    LeadingWordOf(a, rest);
    assert (a + rest)[..|a|] == a;
    assert (a + rest)[|a|..] == rest;
  }

  /** Splitting a string with no words: it is all whitespace. */
  lemma SplitEmpty(s: string)
    requires SplitWhitespace(s) == []
    ensures Blank(s)
  {
    assert s[LeadingBlank(s)..] == [];
    assert s == s[..LeadingBlank(s)];
  }

  /** Splitting a string with words: it is whitespace, the first word, then a rest that
      starts with whitespace (or is empty) and holds the other words. */
  lemma SplitHead(s: string) returns (w: string, rest: string)
    requires SplitWhitespace(s) != []
    ensures Blank(w) && s == w + SplitWhitespace(s)[0] + rest
    ensures rest == [] || IsWhitespace(rest[0])
    ensures SplitWhitespace(rest) == SplitWhitespace(s)[1..]
  {
    var b := LeadingBlank(s);
    var tail := s[b..];
    var n := LeadingWord(tail);
    w, rest := s[..b], tail[n..];
    assert s == s[..b] + tail;
    assert tail == tail[..n] + tail[n..];
  }

  // ---- what the header parser accepts and rejects ----

  /** `Bearer` is one word. */
  lemma SchemeIsWord()
    ensures IsWord(Scheme)
  {
  }

  /** Round trip: any whitespace-free token behind `Bearer`, with any surrounding and inner
      whitespace (at least one character between the two words), is read back unchanged. */
  lemma BearerRoundTrip(w1: string, w2: string, token: string, w3: string)
    requires Blank(w1) && Blank(w2) && |w2| > 0 && Blank(w3)
    requires IsWord(token)
    ensures GetBearerToken(w1 + Scheme + w2 + token + w3) == Ok(token)
  {
    SchemeIsWord();
    var tail := w2 + token + w3;
    assert w1 + Scheme + w2 + token + w3 == w1 + Scheme + tail;
    SplitCons(w1, Scheme, tail);
    SplitCons(w2, token, w3);
    SplitBlank(w3);
  }

  /** The plain form `Bearer <token>` is accepted. */
  lemma BearerPlain(token: string)
    requires IsWord(token)
    ensures GetBearerToken(Scheme + " " + token) == Ok(token)
  {
    BearerRoundTrip("", " ", token, "");
    assert "" + Scheme + " " + token + "" == Scheme + " " + token;
  }

  /** Whitespace then a word: if the whole starts with whitespace, the leading run is not
      empty. */
  lemma GapNotEmpty(s: string, w: string, a: string, rest: string)
    requires s == w + a + rest && IsWord(a)
    requires s == [] || IsWhitespace(s[0])
    ensures |w| > 0
  {
    assert s[|w|] == a[0];
  }

  /** A string that splits into two words is those words between whitespace, with some
      whitespace between them. */
  lemma TwoWordsShape(s: string, a: string, b: string) returns (w1: string, w2: string, w3: string)
    requires SplitWhitespace(s) == [a, b]
    ensures Blank(w1) && Blank(w2) && |w2| > 0 && Blank(w3)
    ensures s == w1 + a + w2 + b + w3
  {
    var rest1, rest2;
    w1, rest1 := SplitHead(s);
    assert SplitWhitespace(rest1) == [b];
    w2, rest2 := SplitHead(rest1);
    SplitEmpty(rest2);
    w3 := rest2;
    GapNotEmpty(rest1, w2, b, rest2);
    Regroup(w1, a, w2, b, w3);
  }

  lemma Regroup(w1: string, a: string, w2: string, b: string, w3: string)
    ensures w1 + a + (w2 + b + w3) == w1 + a + w2 + b + w3
  {
  }

  /** Conversely, an accepted header is exactly of that shape. */
  lemma BearerShape(header: string) returns (w1: string, w2: string, w3: string)
    requires GetBearerToken(header).Ok?
    ensures Blank(w1) && Blank(w2) && |w2| > 0 && Blank(w3)
    ensures header == w1 + Scheme + w2 + GetBearerToken(header).value + w3
  {
    var parts := SplitWhitespace(header);
    assert parts == [Scheme, parts[1]];
    w1, w2, w3 := TwoWordsShape(header, Scheme, parts[1]);
  }

  /** A single word is not a bearer header (for instance a bare token). */
  lemma OneWordRejected(w1: string, a: string, w2: string)
    requires Blank(w1) && IsWord(a) && Blank(w2)
    ensures GetBearerToken(w1 + a + w2).Err?
  {
    SplitCons(w1, a, w2);
    SplitBlank(w2);
  }

  /** Three or more words are not a bearer header. */
  lemma ManyWordsRejected(header: string)
    requires |SplitWhitespace(header)| >= 3
    ensures GetBearerToken(header).Err?
  {
  }

  /** A three-word header, built from its words. */
  lemma ThreeWordsRejected(w1: string, a: string, w2: string, b: string, w3: string, c: string, w4: string)
    requires Blank(w1) && Blank(w2) && Blank(w3) && Blank(w4)
    requires |w2| > 0 && |w3| > 0
    requires IsWord(a) && IsWord(b) && IsWord(c)
    ensures GetBearerToken(w1 + a + w2 + b + w3 + c + w4).Err?
  {
    assert w1 + a + w2 + b + w3 + c + w4 == w1 + a + (w2 + b + (w3 + c + w4));
    SplitCons(w1, a, w2 + b + (w3 + c + w4));
    SplitCons(w2, b, w3 + c + w4);
    SplitCons(w3, c, w4);
    SplitBlank(w4);
  }

  /** Any other scheme word is rejected, including `bearer` in lower case. */
  lemma OtherSchemeRejected(w1: string, scheme: string, w2: string, token: string, w3: string)
    requires Blank(w1) && Blank(w2) && |w2| > 0 && Blank(w3)
    requires IsWord(scheme) && IsWord(token) && scheme != Scheme
    ensures GetBearerToken(w1 + scheme + w2 + token + w3).Err?
  {
    assert w1 + scheme + w2 + token + w3 == w1 + scheme + (w2 + token + w3);
    SplitCons(w1, scheme, w2 + token + w3);
  }

  /** The scheme comparison is case-sensitive. */
  lemma LowerCaseSchemeRejected(token: string)
    requires IsWord(token)
    ensures GetBearerToken("bearer " + token).Err?
  {
    OtherSchemeRejected("", "bearer", " ", token, "");
    assert "" + "bearer" + " " + token + "" == "bearer " + token;
  }
}
