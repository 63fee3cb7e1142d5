/**
 * `urllib.parse.quote(s, safe="")`: the text is encoded as UTF-8 and every
 * byte outside the always-safe set (ASCII letters, digits and `_.-~`) is
 * written as `%XX` with upper-case hex digits, as section 2.1 of RFC 3986
 * describes percent-encoding. With `safe=""` the slash is encoded too.
 */
module UrlQuote {
  import opened Wrappers

  newtype byte = x: int | 0 <= x < 256

  /** The UTF-8 encoding of one Unicode scalar value (section 3 of RFC 3629). */
  function Utf8(c: char): (bs: seq<byte>)
    ensures 1 <= |bs| <= 4
    ensures |bs| == 1 <==> c as int < 0x80
    ensures |bs| == 1 ==> bs[0] as int == c as int
    ensures |bs| > 1 ==> bs[0] >= 0xC0 && forall i :: 1 <= i < |bs| ==> 0x80 <= bs[i] < 0xC0
  {
    var cp := c as int;
    if cp < 0x80 then [cp as byte]
    else if cp < 0x800 then [(0xC0 + cp / 64) as byte, (0x80 + cp % 64) as byte]
    else if cp < 0x10000 then
      [(0xE0 + cp / 4096) as byte, (0x80 + (cp / 64) % 64) as byte, (0x80 + cp % 64) as byte]
    else
      [(0xF0 + cp / 262144) as byte, (0x80 + (cp / 4096) % 64) as byte,
       (0x80 + (cp / 64) % 64) as byte, (0x80 + cp % 64) as byte]
  }

  function Utf8Encode(s: string): seq<byte>
    decreases |s|
  {
    if s == [] then [] else Utf8(s[0]) + Utf8Encode(s[1..])
  }

  predicate IsUnreservedChar(c: char) {
    ('A' <= c <= 'Z') || ('a' <= c <= 'z') || ('0' <= c <= '9') || c == '_' || c == '.' || c == '-' || c == '~'
  }

  /** `quote`'s always-safe bytes. */
  predicate AlwaysSafe(b: byte) {
    b < 0x80 && IsUnreservedChar((b as int) as char)
  }

  /** A character that can appear in quoted text. */
  predicate QuotedChar(c: char) {
    IsUnreservedChar(c) || c == '%'
  }

  function HexDigit(n: int): (c: char)
    requires 0 <= n < 16
    ensures IsUnreservedChar(c)
  {
    if n < 10 then ('0' as int + n) as char else ('A' as int + n - 10) as char
  }

  predicate IsHexChar(c: char) {
    ('0' <= c <= '9') || ('A' <= c <= 'F') || ('a' <= c <= 'f')
  }

  function HexValue(c: char): (n: int)
    requires IsHexChar(c)
    ensures 0 <= n < 16
  {
    if '0' <= c <= '9' then c as int - '0' as int
    else if 'A' <= c <= 'F' then c as int - 'A' as int + 10
    else c as int - 'a' as int + 10
  }

  function QuoteByte(b: byte): string {
    if AlwaysSafe(b) then [(b as int) as char]
    else ['%', HexDigit(b as int / 16), HexDigit(b as int % 16)]
  }

  function QuoteBytes(bs: seq<byte>): (q: string)
    ensures forall i :: 0 <= i < |q| ==> QuotedChar(q[i])
    decreases |bs|
  {
    if bs == [] then [] else QuoteByte(bs[0]) + QuoteBytes(bs[1..])
  }

  /** `quote(s, safe="")`: no slash, colon or at-sign survives, so the result can stand as one URL path segment. */
  function Quote(s: string): (q: string)
    ensures forall i :: 0 <= i < |q| ==> QuotedChar(q[i])
    ensures '/' !in q && ':' !in q && '@' !in q
  {
    QuoteBytes(Utf8Encode(s))
  }

  /**
   * The reference decoder (`unquote_to_bytes` restricted to well-formed input):
   * `%XX` gives one byte, an ASCII character gives its own byte, anything else
   * is rejected.
   */
  function UnquoteToBytes(q: string): Option<seq<byte>>
    decreases |q|
  {
    if q == [] then Some([])
    else if q[0] == '%' then
      if |q| >= 3 && IsHexChar(q[1]) && IsHexChar(q[2]) then
        match UnquoteToBytes(q[3..])
        case Some(rest) => Some([(16 * HexValue(q[1]) + HexValue(q[2])) as byte] + rest)
        case None => None
      else None
    else if q[0] as int < 0x80 then
      match UnquoteToBytes(q[1..])
      case Some(rest) => Some([q[0] as int as byte] + rest)
      case None => None
    else None
  }

  lemma UnquoteQuotedByte(b: byte, rest: string)
    ensures UnquoteToBytes(QuoteByte(b) + rest) ==
      match UnquoteToBytes(rest)
      case Some(bs) => Some([b] + bs)
      case None => None
  {
    var q := QuoteByte(b) + rest;
    if AlwaysSafe(b) {
      assert q[1..] == rest;
    } else {
      assert q[3..] == rest;
      var hi, lo := b as int / 16, b as int % 16;
      assert HexValue(HexDigit(hi)) == hi;
      assert HexValue(HexDigit(lo)) == lo;
    }
  }

  lemma {:induction false} QuoteBytesRoundTrip(bs: seq<byte>)
    ensures UnquoteToBytes(QuoteBytes(bs)) == Some(bs)
    decreases |bs|
  {
    if bs != [] {
      QuoteBytesRoundTrip(bs[1..]);
      UnquoteQuotedByte(bs[0], QuoteBytes(bs[1..]));
      assert [bs[0]] + bs[1..] == bs;
    }
  }

  /** Percent-decoding the quoted text gives back the UTF-8 bytes of the original. */
  lemma QuoteRoundTrip(s: string)
    ensures UnquoteToBytes(Quote(s)) == Some(Utf8Encode(s))
  {
    QuoteBytesRoundTrip(Utf8Encode(s));
  }

  /** Text made only of always-safe characters is left as it is. */
  lemma {:induction false} QuoteKeepsUnreserved(s: string)
    requires forall i :: 0 <= i < |s| ==> IsUnreservedChar(s[i])
    ensures Quote(s) == s
    decreases |s|
  {
    if s != [] {
      QuoteKeepsUnreserved(s[1..]);
      assert Utf8Encode(s) == Utf8(s[0]) + Utf8Encode(s[1..]);
      assert [s[0]] + s[1..] == s;
    }
  }

  /** RabbitMQ's default virtual host "/" becomes "%2F". */
  lemma QuoteDefaultVhost()
    ensures Quote("/") == "%2F"
  {
    assert Utf8Encode("/") == [47 as byte];
    assert !AlwaysSafe(47 as byte);
    assert QuoteBytes([47 as byte]) == QuoteByte(47 as byte) + QuoteBytes([]);
  }
}
