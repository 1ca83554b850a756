/**
 * Percent-encoding of one URL path segment, as `quote(s, safe='')` performs it
 * (section 2.1 of RFC 3986): every character outside the always-safe set is
 * written as its UTF-8 bytes, each as `%` and two upper-case hex digits.
 * The always-safe set is Python 2's: letters, digits and `_.-`.
 */
module Quoting {
  import opened Wrappers

  type Byte = b: int | 0 <= b < 256

  /** Characters `quote` leaves alone even with `safe=''`. */
  predicate IsAlwaysSafe(c: char) {
    ('A' <= c <= 'Z') || ('a' <= c <= 'z') || ('0' <= c <= '9') || c == '_' || c == '.' || c == '-'
  }

  /** The UTF-8 encoding of one character. */
  function Utf8(c: char): (bs: seq<Byte>)
    ensures 1 <= |bs| <= 4
  {
    var n := c as int;
    if n < 0x80 then [n]
    else if n < 0x800 then [0xC0 + n / 0x40, 0x80 + n % 0x40]
    else if n < 0x1_0000 then [0xE0 + n / 0x1000, 0x80 + (n / 0x40) % 0x40, 0x80 + n % 0x40]
    else [0xF0 + n / 0x4_0000, 0x80 + (n / 0x1000) % 0x40, 0x80 + (n / 0x40) % 0x40, 0x80 + n % 0x40]
  }

  function HexDigit(d: nat): char
    requires d < 16
  {
    if d < 10 then ('0' as int + d) as char else ('A' as int + d - 10) as char
  }

  /** The value of a hex digit; `quote`'s inverse accepts either case. */
  function HexValue(c: char): Option<nat> {
    if '0' <= c <= '9' then Some(c as int - '0' as int)
    else if 'A' <= c <= 'F' then Some(c as int - 'A' as int + 10)
    else if 'a' <= c <= 'f' then Some(c as int - 'a' as int + 10)
    else None
  }

  function PercentEncode(bs: seq<Byte>): (t: string)
    ensures |t| == 3 * |bs|
  {
    if bs == [] then [] else ['%', HexDigit(bs[0] / 16), HexDigit(bs[0] % 16)] + PercentEncode(bs[1..])
  }

  function QuoteChar(c: char): string {
    if IsAlwaysSafe(c) then [c] else PercentEncode(Utf8(c))
  }

  /** `quote(s, safe='')`. */
  function Quote(s: string): string {
    if s == [] then [] else QuoteChar(s[0]) + Quote(s[1..])
  }

  // ----- the inverse: percent-decoding followed by UTF-8 decoding -----

  /** Reads `n` consecutive `%XX` triples from the front of `t`. */
  function PercentBytes(t: string, n: nat): Option<seq<Byte>>
    decreases n
  {
    if n == 0 then Some([])
    else if |t| < 3 || t[0] != '%' || HexValue(t[1]).None? || HexValue(t[2]).None? then None
    else
      var b := HexValue(t[1]).value * 16 + HexValue(t[2]).value;
      match PercentBytes(t[3..], n - 1)
      case None => None
      case Some(rest) => Some([b] + rest)
  }

  /** How many bytes the UTF-8 sequence starting with `b` has; 0 if `b` cannot start one. */
  function Utf8Length(b: Byte): nat {
    if b < 0x80 then 1
    else if 0xC0 <= b < 0xE0 then 2
    else if 0xE0 <= b < 0xF0 then 3
    else if 0xF0 <= b < 0xF8 then 4
    else 0
  }

  predicate IsContinuation(b: Byte) {
    0x80 <= b < 0xC0
  }

  /** The code point a well-formed UTF-8 sequence stands for. */
  function Utf8Value(bs: seq<Byte>): int
    requires 1 <= |bs| <= 4
  {
    var b: seq<int> := bs;
    if |b| == 1 then b[0]
    else if |b| == 2 then (b[0] - 0xC0) * 0x40 + (b[1] - 0x80)
    else if |b| == 3 then (b[0] - 0xE0) * 0x1000 + (b[1] - 0x80) * 0x40 + (b[2] - 0x80)
    else (b[0] - 0xF0) * 0x4_0000 + (b[1] - 0x80) * 0x1000 + (b[2] - 0x80) * 0x40 + (b[3] - 0x80)
  }

  predicate IsScalar(n: int) {
    (0 <= n < 0xD800) || (0xE000 <= n < 0x11_0000)
  }

  /** Decodes one percent-encoded character from the front of `t`, with the number of characters read. */
  function DecodeChar(t: string): Option<(char, nat)> {
    match PercentBytes(t, 1)
    case None => None
    case Some(lead) =>
      var n := Utf8Length(lead[0]);
      if n == 0 then None
      else match PercentBytes(t, n)
        case None => None
        case Some(bs) =>
          if (forall i :: 1 <= i < |bs| ==> IsContinuation(bs[i])) && IsScalar(Utf8Value(bs))
          then Some((Utf8Value(bs) as char, 3 * n))
          else None
  }

  /** The inverse of `quote`: decodes `%XX` sequences and keeps every other character. */
  function Unquote(t: string): Option<string>
    decreases |t|
  {
    if t == [] then Some([])
    else if t[0] != '%' then
      match Unquote(t[1..])
      case None => None
      case Some(r) => Some([t[0]] + r)
    else
      match DecodeChar(t)
      case None => None
      case Some(d) =>
        if d.1 == 0 || d.1 > |t| then None
        else match Unquote(t[d.1..])
          case None => None
          case Some(r) => Some([d.0] + r)
  }

  // ----- the round trip -----

  lemma Utf8TwoBytes(n: int)
    requires 0x80 <= n < 0x800
    ensures 0xC0 <= 0xC0 + n / 0x40 < 0xE0
    ensures (n / 0x40) * 0x40 + n % 0x40 == n
  {
  }

  lemma Utf8ThreeBytes(n: int)
    requires 0x800 <= n < 0x1_0000
    ensures 0xE0 <= 0xE0 + n / 0x1000 < 0xF0
    ensures (n / 0x1000) * 0x1000 + ((n / 0x40) % 0x40) * 0x40 + n % 0x40 == n
  {
  }

  lemma Utf8FourBytes(n: int)
    requires 0x1_0000 <= n < 0x11_0000
    ensures 0xF0 <= 0xF0 + n / 0x4_0000 < 0xF8
    ensures (n / 0x4_0000) * 0x4_0000 + ((n / 0x1000) % 0x40) * 0x1000 + ((n / 0x40) % 0x40) * 0x40 + n % 0x40 == n
  {
  }

  lemma Utf8Decodes(c: char)
    ensures Utf8Length(Utf8(c)[0]) == |Utf8(c)|
    ensures forall i :: 1 <= i < |Utf8(c)| ==> IsContinuation(Utf8(c)[i])
    ensures Utf8Value(Utf8(c)) == c as int
  {
    var n := c as int;
    if n < 0x80 {
    } else if n < 0x800 {
      Utf8TwoBytes(n);
    } else if n < 0x1_0000 {
      Utf8ThreeBytes(n);
    } else {
      Utf8FourBytes(n);
    }
  }

  lemma HexRoundTrip(d: nat)
    requires d < 16
    ensures HexValue(HexDigit(d)) == Some(d)
  {
  }

  lemma {:induction false} PercentBytesRoundTrip(bs: seq<Byte>, rest: string)
    ensures PercentBytes(PercentEncode(bs) + rest, |bs|) == Some(bs)
    decreases |bs|
  {
    if bs != [] {
      var t := PercentEncode(bs) + rest;
      HexRoundTrip(bs[0] / 16);
      HexRoundTrip(bs[0] % 16);
      assert t[3..] == PercentEncode(bs[1..]) + rest;
      PercentBytesRoundTrip(bs[1..], rest);
      assert [bs[0]] + bs[1..] == bs;
    }
  }

  lemma {:induction false} PercentBytesPrefix(bs: seq<Byte>, rest: string)
    requires |bs| >= 1
    ensures PercentBytes(PercentEncode(bs) + rest, 1) == Some([bs[0]])
  {
    var t := PercentEncode(bs) + rest;
    HexRoundTrip(bs[0] / 16);
    HexRoundTrip(bs[0] % 16);
    assert t[0] == '%' && t[1] == HexDigit(bs[0] / 16) && t[2] == HexDigit(bs[0] % 16);
    var b := HexValue(t[1]).value * 16 + HexValue(t[2]).value;
    assert b == bs[0];
    assert PercentBytes(t[3..], 0) == Some([]);
    assert [b] + [] == [bs[0]];
  }

  lemma DecodeQuotedChar(c: char, rest: string)
    requires !IsAlwaysSafe(c)
    ensures DecodeChar(QuoteChar(c) + rest) == Some((c, |QuoteChar(c)|))
  {
    var bs := Utf8(c);
    Utf8Decodes(c);
    PercentBytesPrefix(bs, rest);
    PercentBytesRoundTrip(bs, rest);
  }

  /** Decoding one quoted character in front of an already decodable text. */
  lemma UnquoteStep(c: char, tail: string, r: string)
    requires Unquote(tail) == Some(r)
    ensures Unquote(QuoteChar(c) + tail) == Some([c] + r)
  {
    var t := QuoteChar(c) + tail;
    if IsAlwaysSafe(c) {
      assert t[1..] == tail;
    } else {
      DecodeQuotedChar(c, tail);
      assert t[0] == '%';
      assert t[|QuoteChar(c)|..] == tail;
    }
  }

  /** Decoding the quoted form gives back the original string. */
  lemma {:induction false} QuoteRoundTrip(s: string)
    ensures Unquote(Quote(s)) == Some(s)
    decreases |s|
  {
    if s != [] {
      QuoteRoundTrip(s[1..]);
      UnquoteStep(s[0], Quote(s[1..]), s[1..]);
      assert s == [s[0]] + s[1..];
    }
  }

  /** Distinct strings quote differently, so the quoted slug names exactly one repository. */
  lemma QuoteInjective(a: string, b: string)
    requires Quote(a) == Quote(b)
    ensures a == b
  {
    QuoteRoundTrip(a);
    QuoteRoundTrip(b);
  }

  lemma {:induction false} PercentEncodeNoSlash(bs: seq<Byte>)
    ensures '/' !in PercentEncode(bs)
    decreases |bs|
  {
    if bs != [] { PercentEncodeNoSlash(bs[1..]); }
  }

  /** The quoted form never contains `/`: the slug stays one path segment. */
  lemma {:induction false} QuoteNoSlash(s: string)
    ensures '/' !in Quote(s)
    decreases |s|
  {
    if s != [] {
      QuoteNoSlash(s[1..]);
      PercentEncodeNoSlash(Utf8(s[0]));
    }
  }
}
