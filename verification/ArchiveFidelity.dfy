/**
 Comparing a closing archive with the committed tree: undoing git's quoting of path
 names, and comparing text files up to the documented line-ending conversion.
 */
module ArchiveFidelity {
  import opened Wrappers
  import opened Utf8
  import ProofMap

  // ------------------------------------------------------------------- decoding

  /** Python's int(s, 8) on three characters: more generous than three octal digits
      (it takes signs, blanks and underscores), so any reader of octal will do. */
  type OctalReader = string -> Option<int>

  predicate IsOctal(c: char) { '0' <= c <= '7' }

  function OctalValue(c: char): int { c as int - '0' as int }

  ghost predicate ReadsOctal(int8: OctalReader) {
    forall a, b, c | IsOctal(a) && IsOctal(b) && IsOctal(c) ::
      int8([a, b, c]) == Some(64 * OctalValue(a) + 8 * OctalValue(b) + OctalValue(c))
  }

  /** The byte an escape at the head of the text stands for; bytearray.append refuses
      what is no byte, and the text is then taken literally. */
  function Escape(inner: string, int8: OctalReader): Option<Byte> {
    if |inner| > 3 && inner[0] == '\\' then
      match int8(inner[1..4])
      case Some(v) => if 0 <= v < 256 then Some(v) else None
      case None => None
    else None
  }

  function Unescape(inner: string, int8: OctalReader): seq<Byte>
    decreases |inner|
  {
    if inner == "" then []
    else
      match Escape(inner, int8)
      case Some(b) => if |inner| >= 4 then [b] + Unescape(inner[4..], int8) else []
      case None => Encode(inner[0]) + Unescape(inner[1..], int8)
  }

  predicate Quoted(raw: string) { raw != "" && raw[0] == '"' && raw[|raw| - 1] == '"' }

  function Inner(raw: string): string { if |raw| < 2 then "" else raw[1..|raw| - 1] }

  /** None is the UnicodeDecodeError. */
  function Decoded(raw: string, int8: OctalReader): Option<string> {
    if Quoted(raw) then DecodeAll(Unescape(Inner(raw), int8)) else Some(raw)
  }

  /** One turn of the decoding loop. */
  lemma UnescapeStep(inner: string, i: nat, int8: OctalReader)
    requires i < |inner|
    ensures var taken := if inner[i] == '\\' && i + 3 < |inner| then int8(inner[i + 1..i + 4]) else None;
            Unescape(inner[i..], int8) ==
            if taken.Some? && 0 <= taken.value < 256 then [taken.value] + Unescape(inner[i + 4..], int8)
            else Encode(inner[i]) + Unescape(inner[i + 1..], int8)
  {
    hide Encode;
    var rest := inner[i..];
    assert rest[1..] == inner[i + 1..];
    if |rest| > 3 {
      assert rest[1..4] == inner[i + 1..i + 4] && rest[4..] == inner[i + 4..];
    }
  }

  lemma UnescapeEnd(int8: OctalReader)
    ensures Unescape("", int8) == []
  {}

  method DecodeGitPath(raw: string, int8: OctalReader) returns (path: Option<string>)
    ensures path == Decoded(raw, int8)
  {
    hide Unescape, Encode, DecodeAll;
    if !Quoted(raw) {
      return Some(raw);
    }
    var inner := Inner(raw);
    var out: seq<Byte> := [];
    var i := 0;
    assert inner[0..] == inner;
    while i < |inner|
      invariant 0 <= i <= |inner|
      invariant Unescape(inner, int8) == out + Unescape(inner[i..], int8)
    {
      UnescapeStep(inner, i, int8);
      var taken := if inner[i] == '\\' && i + 3 < |inner| then int8(inner[i + 1..i + 4]) else None;
      if taken.Some? && 0 <= taken.value < 256 {
        out := out + [taken.value];
        i := i + 4;
      } else {
        out := out + Encode(inner[i]);
        i := i + 1;
      }
    }
    UnescapeEnd(int8);
    assert inner[i..] == "" && out == Unescape(inner, int8);
    return DecodeAll(out);
  }

  /** No escape for a byte stands anywhere in the text. */
  predicate EscapeFree(inner: string, int8: OctalReader) {
    forall i | 0 <= i < |inner| - 3 && inner[i] == '\\' ::
      var v := int8(inner[i + 1..i + 4]); v.None? || !(0 <= v.value < 256)
  }

  lemma {:induction false} EscapeFreeIsLiteral(inner: string, int8: OctalReader)
    requires EscapeFree(inner, int8)
    ensures Unescape(inner, int8) == EncodeAll(inner)
    decreases |inner|
  {
    if inner != "" {
      if |inner| > 3 && inner[0] == '\\' {
        assert inner[0 + 1..0 + 4] == inner[1..4];
      }
      assert EscapeFree(inner[1..], int8) by {
        forall i | 0 <= i < |inner[1..]| - 3 && inner[1..][i] == '\\'
          ensures inner[1..][i + 1..i + 4] == inner[(i + 1) + 1..(i + 1) + 4]
        {
          var j := i + 1;
          assert inner[j] == '\\';
        }
      }
      EscapeFreeIsLiteral(inner[1..], int8);
    }
  }

  /** Only a path between double quotes is changed, and without an escape for a byte in
      it only the quotes go; a lone quote is both ends at once. */
  lemma QuotesDecide(raw: string, int8: OctalReader)
    ensures raw == "" || raw[0] != '"' || raw[|raw| - 1] != '"' ==> Decoded(raw, int8) == Some(raw)
    ensures EscapeFree(raw, int8) ==> Decoded("\"" + raw + "\"", int8) == Some(raw)
    ensures Decoded("\"", int8) == Some("")
  {
    if EscapeFree(raw, int8) {
      EscapeFreeIsLiteral(raw, int8);
      Utf8RoundTrip(raw);
      assert ("\"" + raw + "\"")[1..|raw| + 1] == raw;
    }
  }

  // ---------------------------------------------------------------- git's quoting

  /** No control characters, double quotes or backslashes. */
  predicate Plain(path: string) {
    forall c | c in path :: c >= ' ' && c != '\U{7F}' && c != '"' && c != '\\'
  }

  predicate Ascii(path: string) { forall c | c in path :: c < '\U{80}' }

  function OctalDigit(n: int): char
    requires 0 <= n < 8
  {
    "01234567"[n]
  }

  function QuoteByte(b: Byte): string {
    if b < 0x80 then [b as char] else ['\\', OctalDigit(b / 64), OctalDigit(b / 8 % 8), OctalDigit(b % 8)]
  }

  function QuoteBytes(bs: seq<Byte>): string
    decreases |bs|
  {
    if bs == [] then "" else QuoteByte(bs[0]) + QuoteBytes(bs[1..])
  }

  /** How git lists a plain path: as it is when ASCII, otherwise quoted with an octal
      escape for every byte above 127. */
  function GitListing(path: string): string {
    if Ascii(path) then path else "\"" + QuoteBytes(EncodeAll(path)) + "\""
  }

  predicate PlainBytes(bs: seq<Byte>) { forall b | b in bs :: b != 0x5C }

  lemma OctalDigitReads(n: int)
    requires 0 <= n < 8
    ensures IsOctal(OctalDigit(n)) && OctalValue(OctalDigit(n)) == n
  {}

  lemma OctalOf(b: Byte)
    ensures b == 64 * (b / 64) + 8 * (b / 8 % 8) + b % 8
  {}

  lemma EscapedByte(b: Byte, rest: string, int8: OctalReader)
    requires ReadsOctal(int8) && b >= 0x80
    ensures Escape(QuoteByte(b) + rest, int8) == Some(b)
    ensures |QuoteByte(b)| == 4 && (QuoteByte(b) + rest)[4..] == rest
  {
    hide OctalDigit, OctalValue, IsOctal;
    var x, y, z := OctalDigit(b / 64), OctalDigit(b / 8 % 8), OctalDigit(b % 8);
    OctalDigitReads(b / 64);
    OctalDigitReads(b / 8 % 8);
    OctalDigitReads(b % 8);
    OctalOf(b);
    assert QuoteByte(b) == ['\\', x, y, z];
    assert (QuoteByte(b) + rest)[1..4] == [x, y, z];
  }

  lemma {:induction false} UnescapeQuote(bs: seq<Byte>, int8: OctalReader)
    requires ReadsOctal(int8) && PlainBytes(bs)
    ensures Unescape(QuoteBytes(bs), int8) == bs
    decreases |bs|
  {
    if bs != [] {
      var b, rest := bs[0], QuoteBytes(bs[1..]);
      assert b in bs && forall x | x in bs[1..] :: x in bs;
      UnescapeQuote(bs[1..], int8);
      assert [b] + bs[1..] == bs;
      if b >= 0x80 {
        EscapedByte(b, rest, int8);
      } else {
        var text := QuoteByte(b) + rest;
        assert text[0] == b as char && text[1..] == rest;
        assert b != 0x5C && text[0] != '\\';
        assert Encode(b as char) == [b];
      }
    }
  }

  lemma PlainEncode(c: char)
    requires c != '\\'
    ensures forall b | b in Encode(c) :: b != 0x5C
  {}

  lemma {:induction false} PlainEncodes(path: string)
    requires Plain(path)
    ensures PlainBytes(EncodeAll(path))
    decreases |path|
  {
    if path != "" {
      assert path[0] in path && forall c | c in path[1..] :: c in path;
      PlainEncode(path[0]);
      PlainEncodes(path[1..]);
    }
  }

  /** decode_git_path undoes the listing of every plain path. */
  lemma PathRoundTrip(path: string, int8: OctalReader)
    requires ReadsOctal(int8) && Plain(path)
    ensures Decoded(GitListing(path), int8) == Some(path)
  {
    if Ascii(path) {
      assert path != "" ==> path[0] in path;
    } else {
      PlainEncodes(path);
      UnescapeQuote(EncodeAll(path), int8);
      Utf8RoundTrip(path);
      var q := QuoteBytes(EncodeAll(path));
      assert ("\"" + q + "\"")[1..|q| + 1] == q;
    }
  }

  /** The caller strips the listed path first.  That is harmless exactly when the path
      is quoted or has no blank at either end. */
  lemma StrippedRoundTrip(path: string, int8: OctalReader)
    requires ReadsOctal(int8) && Plain(path)
    ensures Decoded(ProofMap.Trim(GitListing(path)), int8) == Some(path)
            <==> !Ascii(path) || ProofMap.Trimmed(path)
  {
    hide QuoteBytes, EncodeAll, DecodeAll, Unescape;
    PathRoundTrip(path, int8);
    if Ascii(path) {
      TrimOnlyShortens(path);
      TrimmedPlain(path);
    } else {
      QuotedIsTrimmed(QuoteBytes(EncodeAll(path)));
    }
  }

  lemma QuotedIsTrimmed(q: string)
    ensures ProofMap.Trim("\"" + q + "\"") == "\"" + q + "\""
  {}

  lemma {:induction false} TrimLeftFixed(s: string)
    ensures |ProofMap.TrimLeft(s)| <= |s| && (ProofMap.TrimLeft(s) != s ==> |ProofMap.TrimLeft(s)| < |s|)
    ensures ProofMap.TrimLeft(s) == s <==> s == "" || !ProofMap.IsSpace(s[0])
    ensures forall c | c in ProofMap.TrimLeft(s) :: c in s
    decreases |s|
  {
    if s != "" && ProofMap.IsSpace(s[0]) {
      TrimLeftFixed(s[1..]);
    }
  }

  lemma {:induction false} TrimRightFixed(s: string)
    ensures |ProofMap.TrimRight(s)| <= |s| && (ProofMap.TrimRight(s) != s ==> |ProofMap.TrimRight(s)| < |s|)
    ensures ProofMap.TrimRight(s) == s <==> s == "" || !ProofMap.IsSpace(s[|s| - 1])
    ensures forall c | c in ProofMap.TrimRight(s) :: c in s
    decreases |s|
  {
    if s != "" && ProofMap.IsSpace(s[|s| - 1]) {
      TrimRightFixed(s[..|s| - 1]);
    }
  }

  /** Trimming changes a text exactly when a blank stands at an end. */
  lemma TrimOnlyShortens(s: string)
    ensures ProofMap.Trim(s) == s <==> ProofMap.Trimmed(s)
    ensures forall c | c in ProofMap.Trim(s) :: c in s
  {
    TrimLeftFixed(s);
    TrimRightFixed(ProofMap.TrimLeft(s));
  }

  /** A trimmed plain path is still unquoted. */
  lemma TrimmedPlain(path: string)
    requires Plain(path)
    ensures !Quoted(ProofMap.Trim(path))
  {
    TrimOnlyShortens(path);
    var t := ProofMap.Trim(path);
    assert t != "" ==> t[0] in t;
  }

  // ------------------------------------------------------------- line endings

  const CR: Byte := 13
  const LF: Byte := 10

  /** bytes.replace(b"\r\n", b"\n"). */
  function Normalize(bs: seq<Byte>): seq<Byte>
    decreases |bs|
  {
    if |bs| < 2 then bs
    else if bs[0] == CR && bs[1] == LF then [LF] + Normalize(bs[2..])
    else [bs[0]] + Normalize(bs[1..])
  }

  /** The conversion on checkout: every LF becomes CR LF. */
  function ToCrlf(bs: seq<Byte>): seq<Byte>
    decreases |bs|
  {
    if bs == [] then [] else (if bs[0] == LF then [CR, LF] else [bs[0]]) + ToCrlf(bs[1..])
  }

  predicate HasCrlf(bs: seq<Byte>) {
    exists i | 0 <= i < |bs| - 1 :: bs[i] == CR && bs[i + 1] == LF
  }

  /** A converted text never starts with a bare LF. */
  lemma ConvertedHead(bs: seq<Byte>)
    ensures ToCrlf(bs) != [] ==> ToCrlf(bs)[0] != LF
    ensures ToCrlf(bs) == [] <==> bs == []
  {}

  /** Normalization undoes the conversion, whatever the blob. */
  lemma {:induction false} NormalizeConverted(bs: seq<Byte>)
    ensures Normalize(ToCrlf(bs)) == bs
    decreases |bs|
  {
    if bs != [] {
      var rest := ToCrlf(bs[1..]);
      NormalizeConverted(bs[1..]);
      ConvertedHead(bs[1..]);
      assert [bs[0]] + bs[1..] == bs;
      if bs[0] == LF {
        assert ([CR, LF] + rest)[2..] == rest;
      } else {
        assert ([bs[0]] + rest)[1..] == rest;
        assert rest == [] ==> bs[1..] == [];
      }
    }
  }

  lemma {:induction false} NormalizeFixed(bs: seq<Byte>)
    ensures |Normalize(bs)| <= |bs|
    ensures Normalize(bs) == bs <==> !HasCrlf(bs)
    decreases |bs|
  {
    if |bs| >= 2 {
      if bs[0] == CR && bs[1] == LF {
        NormalizeFixed(bs[2..]);
        assert HasCrlf(bs);
      } else {
        NormalizeFixed(bs[1..]);
        assert bs == [bs[0]] + bs[1..];
        assert HasCrlf(bs) <==> HasCrlf(bs[1..]) by {
          if HasCrlf(bs) {
            var i :| 0 <= i < |bs| - 1 && bs[i] == CR && bs[i + 1] == LF;
            assert bs[1..][i - 1] == CR && bs[1..][i] == LF;
          }
          if HasCrlf(bs[1..]) {
            var i :| 0 <= i < |bs[1..]| - 1 && bs[1..][i] == CR && bs[1..][i + 1] == LF;
            assert bs[i + 1] == CR && bs[i + 2] == LF;
          }
        }
      }
    }
  }

  lemma NormalizeStep(a: seq<Byte>, b: seq<Byte>)
    requires |a| >= 2
    ensures var n := if a[0] == CR && a[1] == LF then 2 else 1;
            && Normalize(a) == [if n == 2 then LF else a[0]] + Normalize(a[n..])
            && Normalize(a + b) == [if n == 2 then LF else a[0]] + Normalize(a[n..] + b)
  {
    assert (a + b)[1..] == a[1..] + b && (a + b)[2..] == a[2..] + b;
  }

  lemma NormalizeOne(x: Byte, b: seq<Byte>)
    requires b == [] || x != CR || b[0] != LF
    ensures Normalize([x] + b) == [x] + Normalize(b)
  {
    assert ([x] + b)[1..] == b;
    assert b == [] ==> [x] + b == [x];
  }

  /** Nothing is cut where a ends and b begins. */
  predicate Uncut(a: seq<Byte>, b: seq<Byte>) { a == [] || b == [] || a[|a| - 1] != CR || b[0] != LF }

  lemma UncutLater(a: seq<Byte>, b: seq<Byte>, n: nat)
    requires Uncut(a, b) && n <= |a|
    ensures Uncut(a[n..], b)
  {}

  lemma Joined(x: Byte, u: seq<Byte>, v: seq<Byte>)
    ensures [x] + (u + v) == ([x] + u) + v
  {}

  lemma NormalizeShort(a: seq<Byte>, b: seq<Byte>)
    requires Uncut(a, b) && |a| < 2
    ensures Normalize(a + b) == Normalize(a) + Normalize(b)
  {
    if a == [] {
      assert a + b == b;
    } else {
      assert a == [a[0]];
      NormalizeOne(a[0], b);
    }
  }

  /** Normalizing works piece by piece, as long as no CR LF is cut. */
  lemma {:induction false} NormalizeConcat(a: seq<Byte>, b: seq<Byte>)
    requires Uncut(a, b)
    ensures Normalize(a + b) == Normalize(a) + Normalize(b)
    decreases |a|
  {
    hide Normalize, Uncut;
    if |a| < 2 {
      NormalizeShort(a, b);
    } else {
      var n, x := if a[0] == CR && a[1] == LF then 2 else 1, if a[0] == CR && a[1] == LF then LF else a[0];
      NormalizeStep(a, b);
      UncutLater(a, b, n);
      NormalizeConcat(a[n..], b);
      Joined(x, Normalize(a[n..]), Normalize(b));
    }
  }

  lemma CrlfIsLf()
    ensures Normalize([13, 10]) == [10]
  {
    assert [CR, LF][2..] == [];
  }

  /** The comparison of a text file: both sides normalized. */
  predicate Matches(archived: seq<Byte>, blob: seq<Byte>) { Normalize(archived) == Normalize(blob) }

  /** Documented conversion never reports a mismatch exactly on blobs without CR LF;
      in particular on every blob without CR. */
  lemma {:induction false} ConversionMatchesExactly(blob: seq<Byte>)
    ensures Matches(ToCrlf(blob), blob) <==> !HasCrlf(blob)
    ensures CR !in blob ==> Matches(ToCrlf(blob), blob)
  {
    NormalizeConverted(blob);
    NormalizeFixed(blob);
  }
}
