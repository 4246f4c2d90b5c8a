/** Character classes the header handling relies on. */
module Text {
  import opened Uuids

  /** `char::is_whitespace`: the characters with the Unicode White_Space property. */
  predicate IsWhitespace(c: char)
  {
    var n := c as int;
    (0x09 <= n <= 0x0D) || n == 0x20 || n == 0x85 || n == 0xA0 || n == 0x1680 ||
    (0x2000 <= n <= 0x200A) || n == 0x2028 || n == 0x2029 || n == 0x202F || n == 0x205F ||
    n == 0x3000
  }

  /** Only whitespace (possibly empty). */
  predicate Blank(s: string)
  {
    forall i | 0 <= i < |s| :: IsWhitespace(s[i])
  }

  /** A non-empty run without whitespace: what `split_whitespace` yields. */
  predicate IsWord(s: string)
  {
    |s| > 0 && forall i | 0 <= i < |s| :: !IsWhitespace(s[i])
  }

  /** The bytes `HeaderValue::to_str` accepts: visible ASCII and horizontal tab. */
  predicate IsVisibleAscii(b: Byte)
  {
    (32 <= b < 127) || b == 9
  }
}
