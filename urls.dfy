/**
 * `urllib.parse.quote_plus` with its defaults: form encoding of a search
 * term, with the text taken as UTF-8.
 */
module Urls {
  import opened Text

  /** The characters `quote_plus` leaves as they are. */
  predicate Unreserved(c: char) {
    IsAsciiLetter(c) || IsDigit(c) || c == '_' || c == '.' || c == '-' || c == '~'
  }

  function HexDigit(n: nat): char
    requires n < 16
  {
    "0123456789ABCDEF"[n]
  }

  /** "%XY" for one byte, with upper-case hex digits. */
  function PercentByte(b: nat): (r: string)
    requires b < 256
    ensures |r| == 3 && r[0] == '%'
  {
    ['%', HexDigit(b / 16), HexDigit(b % 16)]
  }

  /** The UTF-8 bytes of one character. */
  function Utf8(c: char): (bytes: seq<nat>)
    ensures 1 <= |bytes| <= 4 && forall k :: 0 <= k < |bytes| ==> bytes[k] < 256
  {
    var n := c as int;
    if n < 0x80 then [n]
    else if n < 0x800 then [0xC0 + n / 0x40, 0x80 + n % 0x40]
    else if n < 0x1_0000 then [0xE0 + n / 0x1000, 0x80 + (n / 0x40) % 0x40, 0x80 + n % 0x40]
    else [0xF0 + n / 0x4_0000, 0x80 + (n / 0x1000) % 0x40, 0x80 + (n / 0x40) % 0x40, 0x80 + n % 0x40]
  }

  function PercentBytes(bytes: seq<nat>): (r: string)
    requires forall k :: 0 <= k < |bytes| ==> bytes[k] < 256
    ensures |r| == 3 * |bytes|
    decreases |bytes|
  {
    if bytes == [] then "" else PercentByte(bytes[0]) + PercentBytes(bytes[1..])
  }

  /** The encoding of one character: itself, '+' for a space, or its UTF-8 bytes as "%XY". */
  function QuoteChar(c: char): string {
    if Unreserved(c) then [c] else if c == ' ' then "+" else PercentBytes(Utf8(c))
  }

  /** `quote_plus(s)`. */
  function QuotePlus(s: string): string
    decreases |s|
  {
    if s == [] then "" else QuoteChar(s[0]) + QuotePlus(s[1..])
  }

  predicate UrlSafe(c: char) {
    Unreserved(c) || c == '+' || c == '%'
  }

  lemma PercentBytesSafe(bytes: seq<nat>)
    requires forall k :: 0 <= k < |bytes| ==> bytes[k] < 256
    ensures forall k :: 0 <= k < |PercentBytes(bytes)| ==> UrlSafe(PercentBytes(bytes)[k])
    decreases |bytes|
  {
    if bytes != [] {
      PercentBytesSafe(bytes[1..]);
      var head := PercentByte(bytes[0]);
      assert forall k :: 0 <= k < 3 ==> UrlSafe(head[k]);
      var rest := PercentBytes(bytes[1..]);
      assert forall k :: 0 <= k < |head + rest| ==> (head + rest)[k] == if k < 3 then head[k] else rest[k - 3];
    }
  }

  /** An encoded term holds only unreserved characters, '+' and '%', so it has no space. */
  lemma {:induction false} QuotePlusSafe(s: string)
    ensures forall k :: 0 <= k < |QuotePlus(s)| ==> UrlSafe(QuotePlus(s)[k])
    decreases |s|
  {
    if s != [] {
      QuotePlusSafe(s[1..]);
      var head := QuoteChar(s[0]);
      if !Unreserved(s[0]) && s[0] != ' ' {
        PercentBytesSafe(Utf8(s[0]));
      }
      var rest := QuotePlus(s[1..]);
      assert forall k :: 0 <= k < |head + rest| ==> (head + rest)[k] == if k < |head| then head[k] else rest[k - |head|];
    }
  }

  /** A term of letters, digits and `_.-~` is sent as it is. */
  lemma {:induction false} QuotePlusUnreserved(s: string)
    requires forall k :: 0 <= k < |s| ==> Unreserved(s[k])
    ensures QuotePlus(s) == s
    decreases |s|
  {
    if s != [] {
      QuotePlusUnreserved(s[1..]);
      assert s == [s[0]] + s[1..];
    }
  }
}
