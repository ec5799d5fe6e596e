/** UTF-8 as section 3 of RFC 3629 defines it. */
module Utf8 {
  import opened Wrappers

  type Byte = b: int | 0 <= b < 256

  function Encode(c: char): seq<Byte> {
    var n := c as int;
    if n < 0x80 then [n]
    else if n < 0x800 then [0xC0 + n / 64, 0x80 + n % 64]
    else if n < 0x10000 then [0xE0 + n / 4096, 0x80 + n / 64 % 64, 0x80 + n % 64]
    else [0xF0 + n / 262144, 0x80 + n / 4096 % 64, 0x80 + n / 64 % 64, 0x80 + n % 64]
  }

  function EncodeAll(s: string): seq<Byte>
    decreases |s|
  {
    if s == "" then [] else Encode(s[0]) + EncodeAll(s[1..])
  }

  predicate Continues(b: Byte) { 0x80 <= b < 0xC0 }

  /** The six payload bits of a continuation byte. */
  function Low(b: Byte): int { b as int - 0x80 }

  /** A code point from its value, unless it is overlong, a surrogate or too large. */
  function Point(n: int, least: nat): Option<char> {
    if least <= n < 0xD800 || (least <= n && 0xE000 <= n < 0x110000) then Some(n as char) else None
  }

  /** The first character and how many bytes it takes. */
  function DecodeOne(bs: seq<Byte>): Option<(char, nat)>
    requires bs != []
  {
    var b: int := bs[0];
    if b < 0x80 then Some((b as char, 1))
    else if 0xC0 <= b < 0xE0 && |bs| >= 2 && Continues(bs[1]) then
      Sized(Point((b - 0xC0) * 64 + Low(bs[1]), 0x80), 2)
    else if 0xE0 <= b < 0xF0 && |bs| >= 3 && Continues(bs[1]) && Continues(bs[2]) then
      Sized(Point((b - 0xE0) * 4096 + Low(bs[1]) * 64 + Low(bs[2]), 0x800), 3)
    else if 0xF0 <= b < 0xF8 && |bs| >= 4 && Continues(bs[1]) && Continues(bs[2]) && Continues(bs[3]) then
      Sized(Point((b - 0xF0) * 262144 + Low(bs[1]) * 4096 + Low(bs[2]) * 64 + Low(bs[3]), 0x10000), 4)
    else None
  }

  function Sized(c: Option<char>, n: nat): Option<(char, nat)> {
    match c
    case None => None
    case Some(x) => Some((x, n))
  }

  /** Strict decoding: None on any malformed sequence. */
  function DecodeAll(bs: seq<Byte>): Option<string>
    decreases |bs|
  {
    if bs == [] then Some("")
    else
      match DecodeOne(bs)
      case None => None
      case Some(cn) =>
        if 0 < cn.1 <= |bs| then
          match DecodeAll(bs[cn.1..])
          case None => None
          case Some(rest) => Some([cn.0] + rest)
        else None
  }

  lemma Digits64(n: nat)
    ensures n == n / 64 * 64 + n % 64
    ensures n / 64 == n / 4096 * 64 + n / 64 % 64
    ensures n / 4096 == n / 262144 * 64 + n / 4096 % 64
  {}

  lemma DecodesEncoded(c: char, rest: seq<Byte>)
    ensures DecodeOne(Encode(c) + rest) == Some((c, |Encode(c)|))
  {
    var n := c as int;
    Digits64(n);
    if n < 0x80 {
    } else if n < 0x800 {
    } else if n < 0x10000 {
      assert (n / 4096) * 4096 + (n / 64 % 64) * 64 + n % 64 == n;
    } else {
      assert (n / 262144) * 262144 + (n / 4096 % 64) * 4096 + (n / 64 % 64) * 64 + n % 64 == n;
    }
  }

  lemma {:induction false} Utf8RoundTrip(s: string)
    ensures DecodeAll(EncodeAll(s)) == Some(s)
    decreases |s|
  {
    if s != "" {
      var head, rest := Encode(s[0]), EncodeAll(s[1..]);
      DecodesEncoded(s[0], rest);
      assert (head + rest)[|head|..] == rest;
      Utf8RoundTrip(s[1..]);
      assert [s[0]] + s[1..] == s;
    }
  }

  /** The digits of a number written in base 64. */
  lemma DigitsOf(w: nat, x: nat, y: nat, z: nat)
    requires x < 64 && y < 64 && z < 64
    ensures var n := w * 262144 + x * 4096 + y * 64 + z;
            n % 64 == z && n / 64 % 64 == y && n / 4096 % 64 == x && n / 262144 == w
  {
    var n := w * 262144 + x * 4096 + y * 64 + z;
    assert n / 64 == w * 4096 + x * 64 + y;
    assert n / 4096 == w * 64 + x;
  }

  /** Whatever is decoded as a character is that character's encoding. */
  lemma DecodesOnlyEncoded(bs: seq<Byte>)
    requires bs != [] && DecodeOne(bs).Some?
    ensures var (c, n) := DecodeOne(bs).value;
            0 < n <= |bs| && n == |Encode(c)| && bs[..n] == Encode(c)
  {
    var (c, n) := DecodeOne(bs).value;
    var b: int := bs[0];
    if b < 0x80 {
    } else if b < 0xE0 {
      DigitsOf(0, 0, b - 0xC0, Low(bs[1]));
    } else if b < 0xF0 {
      DigitsOf(0, b - 0xE0, Low(bs[1]), Low(bs[2]));
      assert c as int / 4096 == b - 0xE0;
    } else {
      DigitsOf(b - 0xF0, Low(bs[1]), Low(bs[2]), Low(bs[3]));
    }
  }

  /** Decoding succeeds exactly on encodings, and gives back what was encoded. */
  lemma {:induction false} Utf8Exactly(bs: seq<Byte>, s: string)
    ensures DecodeAll(bs) == Some(s) <==> bs == EncodeAll(s)
    decreases |bs|
  {
    Utf8RoundTrip(s);
    if DecodeAll(bs) == Some(s) && bs != [] {
      DecodesOnlyEncoded(bs);
      var (c, n) := DecodeOne(bs).value;
      Utf8Exactly(bs[n..], s[1..]);
      assert bs == bs[..n] + bs[n..];
    }
  }
}
