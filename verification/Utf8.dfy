/** The UTF-8 encoding of RFC 3629, section 3. */
module Utf8 {
  import opened Messages

  type byte = b: int | 0 <= b < 256

  type bytes = seq<byte>

  function EncodeChar(c: char): (b: bytes)
    ensures 1 <= |b| <= 4
  {
    var n := c as int;
    if n < 0x80 then [n]
    else if n < 0x800 then [0xC0 + n / 64, 0x80 + n % 64]
    else if n < 0x10000 then [0xE0 + n / 4096, 0x80 + n / 64 % 64, 0x80 + n % 64]
    else
      assert n < 0x110000;
      [0xF0 + n / 262144, 0x80 + n / 4096 % 64, 0x80 + n / 64 % 64, 0x80 + n % 64]
  }

  function Encode(s: string): bytes {
    if s == [] then [] else EncodeChar(s[0]) + Encode(s[1..])
  }

  predicate Continues(b: bytes, i: nat) {
    i < |b| && 0x80 <= b[i] < 0xC0
  }

  /** The low six bits of a continuation byte put behind the bits read so far. */
  function Append(high: int, b: bytes, i: nat): int
    requires Continues(b, i)
  {
    high * 64 + (b[i] as int - 0x80)
  }

  /** A code point no smaller than its encoded length stands for, surrogates excluded. */
  function Scalar(n: int, low: nat): Option<char> {
    if n < low || n >= 0x110000 || 0xD800 <= n < 0xE000 then None else Some(n as char)
  }

  /** The first character and its encoded length. */
  function DecodeChar(b: bytes): (r: Option<(char, nat)>)
    ensures r.Some? ==> 1 <= r.value.1 <= |b|
  {
    if b == [] then None
    else
      var lead := b[0] as int;
      if lead < 0x80 then Sized(Scalar(lead, 0), 1)
      else if 0xC0 <= lead < 0xE0 && Continues(b, 1) then Sized(Scalar(Append(lead - 0xC0, b, 1), 0x80), 2)
      else if 0xE0 <= lead < 0xF0 && Continues(b, 1) && Continues(b, 2) then
        Sized(Scalar(Append(Append(lead - 0xE0, b, 1), b, 2), 0x800), 3)
      else if 0xF0 <= lead < 0xF8 && Continues(b, 1) && Continues(b, 2) && Continues(b, 3) then
        Sized(Scalar(Append(Append(Append(lead - 0xF0, b, 1), b, 2), b, 3), 0x10000), 4)
      else None
  }

  function Sized(c: Option<char>, n: nat): Option<(char, nat)> {
    if c.Some? then Some((c.value, n)) else None
  }

  function Decode(b: bytes): Option<string> {
    if b == [] then Some([])
    else
      match DecodeChar(b)
      case None => None
      case Some((c, n)) =>
        match Decode(b[n..])
        case None => None
        case Some(s) => Some([c] + s)
  }

  lemma CharRoundTrip(c: char, rest: bytes)
    ensures DecodeChar(EncodeChar(c) + rest) == Some((c, |EncodeChar(c)|))
  {
    var n := c as int;
    assert n < 0xD800 || 0xE000 <= n < 0x110000;
    assert n == n / 64 * 64 + n % 64 && n / 64 == n / 4096 * 64 + n / 64 % 64;
    assert n / 4096 == n / 262144 * 64 + n / 4096 % 64;
  }

  /** Decoding undoes encoding. */
  lemma {:induction false} RoundTrip(s: string)
    ensures Decode(Encode(s)) == Some(s)
  {
    if s != [] {
      var head, tail := EncodeChar(s[0]), Encode(s[1..]);
      CharRoundTrip(s[0], tail);
      assert (head + tail)[|head|..] == tail;
      RoundTrip(s[1..]);
      assert [s[0]] + s[1..] == s;
    }
  }

  /** Only the empty string has an empty encoding, and a character of the ASCII range is one byte. */
  lemma EncodingLength(s: string, c: char)
    ensures Encode(s) == [] <==> s == []
    ensures c < '\U{80}' ==> Encode([c]) == [c as int]
  {
    assert [c][1..] == [] && EncodeChar(c) + [] == EncodeChar(c);
  }
}
