/**
 The row patterns of the proof map, said by what a matching line is put together from:
 the parser, which cuts a line at its bars and trims the pieces, reads exactly those.
 */
module RowPatterns {
  import opened Strings
  import opened ProofMap

  // ----------------------------------------------------------------- characters

  lemma CharacterClasses(c: char)
    ensures IsUpper(c) <==> 65 <= c as int <= 90
    ensures IsDigit(c) <==> 48 <= c as int <= 57
    ensures InDomain(c) <==> 65 <= c as int <= 90 || 48 <= c as int <= 57 || c as int == 95
    ensures InIdent(c) <==> InDomain(c) || 97 <= c as int <= 122 || c as int == 45 || c as int == 46
    ensures IsSpace(c) <==>
              || 9 <= c as int <= 13 || 28 <= c as int <= 32 || c as int in {133, 160, 5760}
              || 8192 <= c as int <= 8202 || c as int in {8232, 8233, 8239, 8287, 12288}
    ensures IsBreak(c) <==> 10 <= c as int <= 13 || 28 <= c as int <= 30 || c as int in {133, 8232, 8233}
  {
    var spaces := " \t\n\r\U{0B}\U{0C}\U{1C}\U{1D}\U{1E}\U{1F}\U{85}\U{A0}\U{1680}\U{2028}\U{2029}\U{202F}\U{205F}\U{3000}";
    var breaks := "\n\r\U{0B}\U{0C}\U{1C}\U{1D}\U{1E}\U{85}\U{2028}\U{2029}";
    assert c in spaces <==> 9 <= c as int <= 13 || 28 <= c as int <= 32 || c as int in {133, 160, 5760, 8232, 8233, 8239, 8287, 12288};
    assert c in breaks <==> 10 <= c as int <= 13 || 28 <= c as int <= 30 || c as int in {133, 8232, 8233};
  }

  // --------------------------------------------------------------------- fields

  /** A text between blanks. */
  ghost predicate Padded(piece: string, t: string) {
    exists a, b :: Blank(a) && Blank(b) && piece == a + t + b
  }

  lemma {:induction false} TrimLeftCuts(s: string) returns (a: string)
    ensures Blank(a) && s == a + TrimLeft(s)
    decreases |s|
  {
    hide IsSpace;
    if s != "" && IsSpace(s[0]) {
      var b := TrimLeftCuts(s[1..]);
      a := [s[0]] + b;
    } else {
      a := "";
    }
  }

  lemma {:induction false} TrimRightCuts(s: string) returns (b: string)
    ensures Blank(b) && s == TrimRight(s) + b
    decreases |s|
  {
    hide IsSpace;
    if s != "" && IsSpace(s[|s| - 1]) {
      var a := TrimRightCuts(s[..|s| - 1]);
      b := a + [s[|s| - 1]];
    } else {
      b := "";
    }
  }

  lemma {:induction false} TrimLeftPad(a: string, s: string)
    requires Blank(a)
    ensures TrimLeft(a + s) == TrimLeft(s)
    decreases |a|
  {
    if a == "" {
      assert a + s == s;
    } else {
      assert (a + s)[1..] == a[1..] + s;
      TrimLeftPad(a[1..], s);
    }
  }

  lemma {:induction false} TrimRightPad(s: string, b: string)
    requires Blank(b)
    ensures TrimRight(s + b) == TrimRight(s)
    decreases |b|
  {
    if b == "" {
      assert s + b == s;
    } else {
      assert (s + b)[..|s + b| - 1] == s + b[..|b| - 1];
      TrimRightPad(s, b[..|b| - 1]);
    }
  }

  lemma {:induction false} TrimLeftEnds(s: string)
    ensures TrimLeft(s) != "" ==> !IsSpace(TrimLeft(s)[0])
    decreases |s|
  {
    if s != "" && IsSpace(s[0]) {
      TrimLeftEnds(s[1..]);
    }
  }

  lemma {:induction false} TrimRightEnds(s: string)
    ensures TrimRight(s) <= s
    ensures TrimRight(s) != "" ==> !IsSpace(TrimRight(s)[|TrimRight(s)| - 1])
    decreases |s|
  {
    if s != "" && IsSpace(s[|s| - 1]) {
      TrimRightEnds(s[..|s| - 1]);
    }
  }

  lemma TrimPadded(a: string, t: string, b: string)
    requires Blank(a) && Blank(b) && Trimmed(t)
    ensures Trim(a + t + b) == t
  {
    hide IsSpace;
    assert a + t + b == a + (t + b);
    TrimLeftPad(a, t + b);
    if t == "" {
      assert t + b == b && b + "" == b;
      TrimLeftPad(b, "");
    } else {
      assert (t + b)[0] == t[0];
      TrimRightPad(t, b);
    }
  }

  /** Trimming leaves exactly the text that stands between the outer blanks. */
  lemma TrimExactly(s: string, t: string)
    ensures Trim(s) == t <==> Trimmed(t) && Padded(s, t)
  {
    hide IsSpace, Blank;
    if Trim(s) == t {
      TrimLeftEnds(s);
      TrimRightEnds(TrimLeft(s));
      var a := TrimLeftCuts(s);
      var b := TrimRightCuts(TrimLeft(s));
      assert s == a + t + b;
    }
    if Trimmed(t) && Padded(s, t) {
      var a, b :| Blank(a) && Blank(b) && s == a + t + b;
      TrimPadded(a, t, b);
    }
  }

  /** A non-empty lazy field between greedy blanks: what stands between the outer blanks,
      or of blanks alone the last one. */
  ghost predicate Captured(piece: string, c: string) {
    c != "" && Padded(piece, c) && (Trimmed(c) || (Blank(piece) && c == piece[|piece| - 1..]))
  }

  lemma CapturedExactly(piece: string, c: string)
    requires piece != ""
    ensures LazyField(piece) == c <==> Captured(piece, c)
  {
    TrimExactly(piece, c);
    if Blank(piece) {
      var n := |piece| - 1;
      assert piece == piece[..n] + piece[n..] + "" && Blank(piece[..n]) && Blank("");
      assert Padded(piece, piece[n..]);
      if Captured(piece, c) {
        var a, b :| Blank(a) && Blank(b) && piece == a + c + b;
        assert piece[|a|] == c[0] && piece[|a|] in piece;
      }
    } else {
      OnlyBlanksVanish(piece);
    }
  }

  lemma OnlyBlanksVanish(piece: string)
    ensures Trim(piece) == "" ==> Blank(piece)
  {
    TrimExactly(piece, "");
    if Trim(piece) == "" {
      var a, b :| Blank(a) && Blank(b) && piece == a + "" + b;
    }
  }

  // ----------------------------------------------------------------------- bars

  /** The pieces with a bar between each two. */
  function Join(pieces: seq<string>): string
    requires pieces != []
    decreases |pieces|
  {
    if |pieces| == 1 then pieces[0] else pieces[0] + ("|" + Join(pieces[1..]))
  }

  predicate BarFree(pieces: seq<string>) { forall p | p in pieces :: '|' !in p }

  lemma {:induction false} SplitJoins(s: string)
    ensures Join(Split(s)) == s && BarFree(Split(s))
    decreases |s|
  {
    if s != "" {
      var rest := Split(s[1..]);
      SplitJoins(s[1..]);
      if s[0] == '|' {
        assert ([""] + rest)[1..] == rest;
      } else {
        var p := [[s[0]] + rest[0]] + rest[1..];
        assert p[1..] == rest[1..];
        assert rest[0] in rest;
        assert forall x | x in p :: x == [s[0]] + rest[0] || x in rest;
      }
    }
  }

  lemma {:induction false} JoinSplits(pieces: seq<string>)
    requires pieces != [] && BarFree(pieces)
    ensures Split(Join(pieces)) == pieces
    decreases |pieces|
  {
    assert pieces[0] in pieces;
    if |pieces| == 1 {
      NoBar(pieces[0]);
    } else {
      assert forall x | x in pieces[1..] :: x in pieces;
      JoinSplits(pieces[1..]);
      Bar(pieces[0], Join(pieces[1..]));
    }
  }

  lemma {:induction false} NoBar(s: string)
    requires '|' !in s
    ensures Split(s) == [s]
    decreases |s|
  {
    if s != "" {
      NoBar(s[1..]);
      assert s == [s[0]] + s[1..];
    }
  }

  /** Splitting is the only way to cut a line at its bars. */
  lemma SplitExactly(s: string, pieces: seq<string>)
    ensures Split(s) == pieces <==> pieces != [] && BarFree(pieces) && Join(pieces) == s
  {
    SplitJoins(s);
    if pieces != [] && BarFree(pieces) && Join(pieces) == s {
      JoinSplits(pieces);
    }
  }

  // ----------------------------------------------------------------- the patterns

  predicate AllIn(s: string, kind: char -> bool) { forall c | c in s :: kind(c) }

  /** [A-Z0-9_]+:[A-Za-z0-9_.\-]+ */
  ghost predicate KeyText(s: string) {
    exists domain, ident ::
      s == domain + ":" + ident && domain != "" && ident != "" && AllIn(domain, InDomain) && AllIn(ident, InIdent)
  }

  lemma KeysExactly(s: string)
    ensures IsKey(s) <==> KeyText(s)
  {
    if IsKey(s) {
      var i :| 0 < i < |s| - 1 && s[i] == ':' && (forall j | 0 <= j < i :: InDomain(s[j])) && (forall j | i < j < |s| :: InIdent(s[j]));
      KeyAt(s, i, s[..i], s[i + 1..]);
    }
    if KeyText(s) {
      var domain, ident :| s == domain + ":" + ident && domain != "" && ident != "" && AllIn(domain, InDomain) && AllIn(ident, InIdent);
      KeyAt(s, |domain|, domain, ident);
    }
  }

  lemma KeyAt(s: string, i: nat, domain: string, ident: string)
    requires i < |s| && s[i] == ':' && domain == s[..i] && ident == s[i + 1..]
    ensures s == domain + ":" + ident
    ensures AllIn(domain, InDomain) <==> forall j | 0 <= j < i :: InDomain(s[j])
    ensures AllIn(ident, InIdent) <==> forall j | i < j < |s| :: InIdent(s[j])
  {
    hide InDomain, InIdent;
    if AllIn(domain, InDomain) {
      forall j | 0 <= j < i
        ensures InDomain(s[j])
      {
        assert domain[j] in domain;
      }
    }
    if AllIn(ident, InIdent) {
      forall j | i < j < |s|
        ensures InIdent(s[j])
      {
        assert ident[j - i - 1] in ident;
      }
    }
  }

  ghost predicate CommandText(s: string) { exists ident :: s == "CMD:" + ident && ident != "" && AllIn(ident, InIdent) }

  lemma CommandKeysExactly(s: string)
    ensures IsCommandKey(s) <==> CommandText(s)
  {
    if |s| >= 4 && s[..4] == "CMD:" {
      KeyAt(s, 3, "CMD", s[4..]);
      assert s == "CMD:" + s[4..];
    }
    if CommandText(s) {
      var ident :| s == "CMD:" + ident && ident != "" && AllIn(ident, InIdent);
      assert s[..4] == "CMD:" && s[4..] == ident;
    }
  }

  /** ^\|\s*(key)\s*\|\s*([A-Z\-]+)\s*\|\s*([^|]*?)\s*\|\s*([^|]*?)\s*\|\s*$, the last two stripped */
  ghost predicate RowMatches(line: string, key: string, disposition: string, owner: string, note: string) {
    && KeyText(key) && disposition != "" && AllIn(disposition, c => IsUpper(c) || c == '-')
    && Trimmed(owner) && Trimmed(note)
    && exists p :: RowOf(p, line, key, disposition, owner, note)
  }

  ghost predicate RowOf(p: seq<string>, line: string, key: string, disposition: string, owner: string, note: string) {
    && |p| == 5 && BarFree(p) && Blank(p[4])
    && line == "|" + Join(p)
    && Padded(p[0], key) && Padded(p[1], disposition) && Padded(p[2], owner) && Padded(p[3], note)
  }

  /** ^\|\s*(CMD:ident)\s*\|\s*([^|]+?)\s*\|\s*([^|]+?)\s*\|\s*$ */
  ghost predicate AppendixMatches(line: string, key: string, command: string, owner: string) {
    CommandText(key) && exists p :: AppendixOf(p, line, key, command, owner)
  }

  ghost predicate AppendixOf(p: seq<string>, line: string, key: string, command: string, owner: string) {
    && |p| == 4 && BarFree(p) && Blank(p[3])
    && line == "|" + Join(p)
    && Padded(p[0], key) && Captured(p[1], command) && Captured(p[2], owner)
  }

  lemma LinePieces(line: string, p: seq<string>)
    requires p != []
    ensures Split(line) == [""] + p <==> BarFree(p) && line == "|" + Join(p)
  {
    hide Split;
    var q := [""] + p;
    SplitExactly(line, q);
    assert q[1..] == p && Join(q) == "" + ("|" + Join(p));
    assert BarFree(q) <==> BarFree(p) by {
      assert forall x :: x in q <==> x == "" || x in p;
    }
  }

  // ---------------------------------------------------------------- what is read

  const CLOSED_DISPOSITIONS: set<string> := {"TEST", "STRUCTURAL", "INHERITED", "NOT-APPLICABLE-SOURCE-FIT"}

  lemma DispositionsExactly(d: string)
    ensures IsDisposition(d) <==> d != "" && AllIn(d, c => IsUpper(c) || c == '-')
  {}

  lemma SpaceFree(s: string)
    requires forall c | c in s :: !IsSpace(c)
    ensures Trimmed(s)
  {
    if s != "" {
      assert s[0] in s && s[|s| - 1] in s;
    }
  }

  lemma DispositionTrimmed(d: string)
    requires IsDisposition(d)
    ensures Trimmed(d)
  {
    SpaceFree(d);
  }

  /** A row, read as the parser reads it. */
  predicate Cut(line: string, key: string, disposition: string, owner: string, note: string) {
    var p := Split(line);
    && |p| == 6 && p[0] == "" && IsKey(key) && IsDisposition(disposition) && Blank(p[5])
    && Trim(p[1]) == key && Trim(p[2]) == disposition && Trim(p[3]) == owner && Trim(p[4]) == note
  }

  lemma CutMatches(line: string, key: string, disposition: string, owner: string, note: string)
    ensures Cut(line, key, disposition, owner, note) <==> RowMatches(line, key, disposition, owner, note)
  {
    hide Split, Trim, Padded, Blank, IsKey, KeyText, IsDisposition, BarFree, Trimmed;
    KeysExactly(key);
    DispositionsExactly(disposition);
    if IsKey(key) && IsDisposition(disposition) {
      KeyIsField(key);
      DispositionTrimmed(disposition);
    }
    if Cut(line, key, disposition, owner, note) {
      var p := Split(line)[1..];
      assert Split(line) == [""] + p;
      LinePieces(line, p);
      TrimFields(p, [key, disposition, owner, note]);
      assert RowOf(p, line, key, disposition, owner, note);
    }
    if RowMatches(line, key, disposition, owner, note) {
      var p :| RowOf(p, line, key, disposition, owner, note);
      LinePieces(line, p);
      TrimFields(p, [key, disposition, owner, note]);
    }
  }

  lemma TrimFields(p: seq<string>, fields: seq<string>)
    requires |fields| == 4 && |p| >= 4
    ensures forall k | 0 <= k < 4 :: Trim(p[k]) == fields[k] <==> Trimmed(fields[k]) && Padded(p[k], fields[k])
  {
    hide Trim, Padded;
    forall k | 0 <= k < 4
      ensures Trim(p[k]) == fields[k] <==> Trimmed(fields[k]) && Padded(p[k], fields[k])
    {
      TrimExactly(p[k], fields[k]);
    }
  }

  /** Outside the CMD domain a line is an obligation exactly when the row pattern matches
      it with these four groups and the disposition is one of the four. */
  lemma ObligationsExactly(line: string, key: string, disposition: string, owner: string, note: string)
    ensures ReadLine(line) == Obligation(key, disposition, owner, note) <==>
              && !StartsWith(line, "| CMD:")
              && RowMatches(line, key, disposition, owner, note)
              && disposition in CLOSED_DISPOSITIONS
  {
    hide Split, Trim, Blank, IsKey, IsDisposition, RowMatches, LazyField, IsCommandKey, LooksLikeRow;
    CutMatches(line, key, disposition, owner, note);
  }

  lemma UnknownExactly(line: string, key: string, disposition: string)
    ensures ReadLine(line) == Unknown(key, disposition) <==>
              && !StartsWith(line, "| CMD:")
              && (exists owner, note :: RowMatches(line, key, disposition, owner, note))
              && disposition !in CLOSED_DISPOSITIONS
  {
    hide Split, Trim, Blank, IsKey, IsDisposition, RowMatches, LazyField, IsCommandKey, LooksLikeRow;
    if ReadLine(line) == Unknown(key, disposition) {
      var p := Split(line);
      CutMatches(line, key, disposition, Trim(p[3]), Trim(p[4]));
    }
    if owner, note :| RowMatches(line, key, disposition, owner, note) {
      CutMatches(line, key, disposition, owner, note);
    }
  }

  /** ^\|\s*[A-Z0-9_]+: */
  ghost predicate RowHead(line: string) {
    exists blanks, domain, rest ::
      line == "|" + blanks + domain + ":" + rest && Blank(blanks) && domain != "" && AllIn(domain, InDomain)
  }

  lemma DomainsAreTrimmed(c: char)
    requires InDomain(c)
    ensures !IsSpace(c)
  {}

  lemma HeadIsRow(line: string, blanks: string, domain: string, rest: string)
    requires line == "|" + blanks + domain + ":" + rest && Blank(blanks) && domain != "" && AllIn(domain, InDomain)
    ensures LooksLikeRow(line)
  {
    hide InDomain, IsSpace, TrimLeft;
    var s := domain + ":" + rest;
    assert line[1..] == blanks + s;
    TrimLeftPad(blanks, s);
    assert s[0] == domain[0] && domain[0] in domain;
    DomainsAreTrimmed(s[0]);
    TrimLeftFixes(s);
    KeyAt(s, |domain|, domain, rest);
  }

  lemma TrimLeftFixes(s: string)
    requires s != "" && !IsSpace(s[0])
    ensures TrimLeft(s) == s
  {}

  lemma HeadsExactly(line: string)
    ensures LooksLikeRow(line) <==> RowHead(line)
  {
    hide InDomain, IsSpace, TrimLeft, Blank;
    if LooksLikeRow(line) {
      var s := TrimLeft(line[1..]);
      var blanks := TrimLeftCuts(line[1..]);
      var i :| 0 < i < |s| && s[i] == ':' && forall j | 0 <= j < i :: InDomain(s[j]);
      KeyAt(s, i, s[..i], s[i + 1..]);
      assert line == "|" + line[1..];
      assert line == "|" + blanks + s[..i] + ":" + s[i + 1..];
    }
    if RowHead(line) {
      var blanks, domain, rest :|
        line == "|" + blanks + domain + ":" + rest && Blank(blanks) && domain != "" && AllIn(domain, InDomain);
      HeadIsRow(line, blanks, domain, rest);
    }
  }

  /** A line is reported as a malformed row exactly when it starts like one, and the row
      pattern does not match it whatever the groups. */
  lemma BadRowsExactly(line: string)
    ensures ReadLine(line) == BadRow <==>
              && !StartsWith(line, "| CMD:") && RowHead(line)
              && forall key, disposition, owner, note :: !RowMatches(line, key, disposition, owner, note)
  {
    hide Split, Trim, Blank, IsKey, IsDisposition, RowMatches, LazyField, IsCommandKey, LooksLikeRow, RowHead;
    HeadsExactly(line);
    forall key, disposition, owner, note
      ensures Cut(line, key, disposition, owner, note) <==> RowMatches(line, key, disposition, owner, note)
    {
      CutMatches(line, key, disposition, owner, note);
    }
    var p := Split(line);
    if |p| == 6 {
      assert Cut(line, Trim(p[1]), Trim(p[2]), Trim(p[3]), Trim(p[4])) <==>
             p[0] == "" && IsKey(Trim(p[1])) && IsDisposition(Trim(p[2])) && Blank(p[5]);
    }
  }

  /** An appendix row, read as the parser reads it. */
  predicate CutAppendix(line: string, key: string, command: string, owner: string) {
    var p := Split(line);
    && |p| == 5 && p[0] == "" && IsCommandKey(key) && p[2] != "" && p[3] != "" && Blank(p[4])
    && Trim(p[1]) == key && LazyField(p[2]) == command && LazyField(p[3]) == owner
  }

  lemma CutAppendixMatches(line: string, key: string, command: string, owner: string)
    ensures CutAppendix(line, key, command, owner) <==> AppendixMatches(line, key, command, owner)
  {
    hide Split, Trim, Padded, Captured, LazyField, Blank, IsCommandKey, CommandText, BarFree, Trimmed;
    CommandKeysExactly(key);
    if IsCommandKey(key) {
      KeyIsField(key);
    }
    if CutAppendix(line, key, command, owner) {
      var p := Split(line)[1..];
      assert Split(line) == [""] + p;
      LinePieces(line, p);
      TrimExactly(p[0], key);
      CapturedExactly(p[1], command);
      CapturedExactly(p[2], owner);
      assert AppendixOf(p, line, key, command, owner);
    }
    if AppendixMatches(line, key, command, owner) {
      var p :| AppendixOf(p, line, key, command, owner);
      LinePieces(line, p);
      TrimExactly(p[0], key);
      NothingCaptured(p[1], command);
      NothingCaptured(p[2], owner);
      CapturedExactly(p[1], command);
      CapturedExactly(p[2], owner);
    }
  }

  lemma NothingCaptured(piece: string, c: string)
    requires Captured(piece, c)
    ensures piece != ""
  {}

  /** In the CMD domain a line is a command exactly when the appendix pattern matches it
      with these three groups, and otherwise a malformed appendix row. */
  lemma CommandsExactly(line: string, key: string, command: string, owner: string)
    ensures ReadLine(line) == Command(key, command, owner) <==>
              StartsWith(line, "| CMD:") && AppendixMatches(line, key, command, owner)
  {
    hide Split, Trim, Blank, IsKey, IsDisposition, AppendixMatches, LazyField, IsCommandKey, LooksLikeRow;
    CutAppendixMatches(line, key, command, owner);
  }

  lemma BadAppendixExactly(line: string)
    ensures ReadLine(line) == BadAppendix <==>
              StartsWith(line, "| CMD:") && forall key, command, owner :: !AppendixMatches(line, key, command, owner)
  {
    hide Split, Trim, Blank, IsKey, IsDisposition, AppendixMatches, LazyField, IsCommandKey, LooksLikeRow;
    forall key, command, owner
      ensures CutAppendix(line, key, command, owner) <==> AppendixMatches(line, key, command, owner)
    {
      CutAppendixMatches(line, key, command, owner);
    }
    var p := Split(line);
    if |p| == 5 && p[2] != "" && p[3] != "" {
      assert CutAppendix(line, Trim(p[1]), LazyField(p[2]), LazyField(p[3])) <==>
             p[0] == "" && IsCommandKey(Trim(p[1])) && Blank(p[4]);
    }
  }
}
