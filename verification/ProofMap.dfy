/**
 The proof-map parser: rows of a Markdown table, one obligation or one closure
 command to a line, told apart by two regular expressions.
 */
module ProofMap {
  import opened Wrappers
  import opened Strings

  // ----------------------------------------------------------------- characters

  /** What \s matches and strip() removes. */
  predicate IsSpace(c: char) {
    c in " \t\n\r\U{0B}\U{0C}\U{1C}\U{1D}\U{1E}\U{1F}\U{85}\U{A0}\U{1680}\U{2028}\U{2029}\U{202F}\U{205F}\U{3000}"
    || '\U{2000}' <= c <= '\U{200A}'
  }

  /** Where splitlines() ends a line. */
  predicate IsBreak(c: char) {
    c in "\n\r\U{0B}\U{0C}\U{1C}\U{1D}\U{1E}\U{85}\U{2028}\U{2029}"
  }

  predicate IsUpper(c: char) { 'A' <= c <= 'Z' }

  predicate IsDigit(c: char) { '0' <= c <= '9' }

  predicate InDomain(c: char) { IsUpper(c) || IsDigit(c) || c == '_' }

  predicate InIdent(c: char) { InDomain(c) || 'a' <= c <= 'z' || c == '.' || c == '-' }

  // -------------------------------------------------------------------- strings

  function TrimLeft(s: string): string
    decreases |s|
  {
    if s != "" && IsSpace(s[0]) then TrimLeft(s[1..]) else s
  }

  function TrimRight(s: string): string
    decreases |s|
  {
    if s != "" && IsSpace(s[|s| - 1]) then TrimRight(s[..|s| - 1]) else s
  }

  function Trim(s: string): string { TrimRight(TrimLeft(s)) }

  predicate Blank(s: string) { forall c | c in s :: IsSpace(c) }

  /** No space at either end. */
  predicate Trimmed(s: string) {
    s != "" ==> !IsSpace(s[0]) && !IsSpace(s[|s| - 1])
  }

  /** The pieces between the bars of a line. */
  function Split(s: string): (pieces: seq<string>)
    ensures |pieces| > 0
    decreases |s|
  {
    if s == "" then [""]
    else
      var rest := Split(s[1..]);
      if s[0] == '|' then [""] + rest else [[s[0]] + rest[0]] + rest[1..]
  }

  // ----------------------------------------------------------------------- lines

  datatype Problem =
    | MalformedAppendix(line: nat) | DuplicateAppendix(line: nat, key: string)
    | MalformedRow(line: nat) | UnknownDisposition(line: nat, key: string) | DuplicateKey(line: nat, key: string)

  datatype Line =
    | Prose
    | BadAppendix
    | Command(key: string, command: string, owner: string)
    | BadRow
    | Unknown(key: string, disposition: string)
    | Obligation(key: string, disposition: string, owner: string, note: string)

  const DISPOSITIONS: set<string> := {"TEST", "STRUCTURAL", "INHERITED", "NOT-APPLICABLE-SOURCE-FIT"}

  /** [A-Z0-9_]+:[A-Za-z0-9_.\-]+ */
  predicate IsKey(s: string) {
    exists i | 0 < i < |s| - 1 ::
      && s[i] == ':' && (forall j | 0 <= j < i :: InDomain(s[j])) && (forall j | i < j < |s| :: InIdent(s[j]))
  }

  const COMMAND_DOMAIN := "CMD:"

  predicate IsCommandKey(s: string) {
    StartsWith(s, COMMAND_DOMAIN) && |s| > 4 && forall j | 4 <= j < |s| :: InIdent(s[j])
  }

  predicate IsDisposition(s: string) { s != "" && forall c | c in s :: IsUpper(c) || c == '-' }

  /** Lines the row pattern should have matched: ^\|\s*[A-Z0-9_]+: */
  predicate LooksLikeRow(line: string) {
    line != "" && line[0] == '|'
    && var s := TrimLeft(line[1..]);
       exists i | 0 < i < |s| :: s[i] == ':' && forall j | 0 <= j < i :: InDomain(s[j])
  }

  /** What a lazy non-empty field captures between greedy blanks: the trimmed text, or
      the last blank of a field that is all blank. */
  function LazyField(piece: string): string
    requires piece != ""
  {
    if Blank(piece) then piece[|piece| - 1..] else Trim(piece)
  }

  function ReadLine(line: string): Line {
    var p := Split(line);
    if StartsWith(line, "| CMD:") then
      if |p| == 5 && p[0] == "" && IsCommandKey(Trim(p[1])) && p[2] != "" && p[3] != "" && Blank(p[4])
      then Command(Trim(p[1]), LazyField(p[2]), LazyField(p[3])) else BadAppendix
    else if |p| == 6 && p[0] == "" && IsKey(Trim(p[1])) && IsDisposition(Trim(p[2])) && Blank(p[5]) then
      if Trim(p[2]) in DISPOSITIONS then Obligation(Trim(p[1]), Trim(p[2]), Trim(p[3]), Trim(p[4]))
      else Unknown(Trim(p[1]), Trim(p[2]))
    else if LooksLikeRow(line) then BadRow else Prose
  }

  // --------------------------------------------------------------------- the map

  datatype Entry = Entry(disposition: string, owner: string, note: string, line: nat)

  datatype Row = Row(key: string, command: string, owner: string)

  datatype Parsed = Parsed(entries: map<string, Entry>, appendix: seq<Row>, problems: seq<Problem>)

  predicate InAppendix(appendix: seq<Row>, key: string) { exists r :: r in appendix && r.key == key }

  function Absorb(m: Parsed, line: string, n: nat): Parsed {
    match ReadLine(line)
    case Prose => m
    case BadAppendix => m.(problems := m.problems + [MalformedAppendix(n)])
    case Command(key, command, owner) =>
      m.(appendix := m.appendix + [Row(key, command, owner)],
         problems := if key in m.entries || InAppendix(m.appendix, key)
                     then m.problems + [DuplicateAppendix(n, key)] else m.problems)
    case BadRow => m.(problems := m.problems + [MalformedRow(n)])
    case Unknown(key, _) => m.(problems := m.problems + [UnknownDisposition(n, key)])
    case Obligation(key, disposition, owner, note) =>
      m.(entries := m.entries[key := Entry(disposition, owner, note, n)],
         problems := if key in m.entries then m.problems + [DuplicateKey(n, key)] else m.problems)
  }

  function ParseLines(lines: seq<string>): Parsed
    decreases |lines|
  {
    if lines == [] then Parsed(map[], [], [])
    else Absorb(ParseLines(lines[..|lines| - 1]), lines[|lines| - 1], |lines|)
  }

  method ParseMap(lines: seq<string>) returns (m: Parsed)
    ensures m == ParseLines(lines)
  {
    var entries: map<string, Entry> := map[];
    var appendix: seq<Row> := [];
    var problems: seq<Problem> := [];
    var k := 0;
    while k < |lines|
      invariant 0 <= k <= |lines|
      invariant Parsed(entries, appendix, problems) == ParseLines(lines[..k])
    {
      var n := k + 1;
      assert lines[..n][..k] == lines[..k];
      match ReadLine(lines[k]) {
        case Prose =>
        case BadAppendix => problems := problems + [MalformedAppendix(n)];
        case Command(key, command, owner) =>
          if key in entries || InAppendix(appendix, key) {
            problems := problems + [DuplicateAppendix(n, key)];
          }
          appendix := appendix + [Row(key, command, owner)];
        case BadRow => problems := problems + [MalformedRow(n)];
        case Unknown(key, _) => problems := problems + [UnknownDisposition(n, key)];
        case Obligation(key, disposition, owner, note) =>
          if key in entries {
            problems := problems + [DuplicateKey(n, key)];
          }
          entries := entries[key := Entry(disposition, owner, note, n)];
      }
      k := n;
    }
    assert lines[..k] == lines;
    return Parsed(entries, appendix, problems);
  }

  // ------------------------------------------------------- what a whole text yields

  /** Line n, counted from 1, carries this obligation key, or this command key. */
  predicate Obliges(lines: seq<string>, n: nat, key: string) {
    1 <= n <= |lines| && ReadLine(lines[n - 1]).Obligation? && ReadLine(lines[n - 1]).key == key
  }

  predicate Commands(lines: seq<string>, n: nat, key: string) {
    1 <= n <= |lines| && ReadLine(lines[n - 1]).Command? && ReadLine(lines[n - 1]).key == key
  }

  /** Some line up to k does. */
  ghost predicate ObligedBy(lines: seq<string>, k: nat, key: string) { exists n: nat :: n <= k && Obliges(lines, n, key) }

  ghost predicate CommandedBy(lines: seq<string>, k: nat, key: string) { exists n: nat :: n <= k && Commands(lines, n, key) }

  /** Which lines are reported, and for what. */
  ghost predicate Reported(lines: seq<string>, p: Problem) {
    1 <= p.line <= |lines|
    && var l, before := ReadLine(lines[p.line - 1]), p.line - 1;
       match p
       case MalformedAppendix(_) => l.BadAppendix?
       case MalformedRow(_) => l.BadRow?
       case UnknownDisposition(_, key) => l.Unknown? && l.key == key
       case DuplicateKey(_, key) => l.Obligation? && l.key == key && ObligedBy(lines, before, key)
       case DuplicateAppendix(_, key) =>
         l.Command? && l.key == key && (ObligedBy(lines, before, key) || CommandedBy(lines, before, key))
  }

  /** The entry of a key is that of the last line up to k that carries it. */
  ghost predicate EntryOf(lines: seq<string>, k: nat, key: string, e: Entry) {
    && 1 <= e.line <= k <= |lines| && ReadLine(lines[e.line - 1]) == Obligation(key, e.disposition, e.owner, e.note)
    && forall m: nat | e.line < m <= k :: !Obliges(lines, m, key)
  }

  lemma ParseOneMore(lines: seq<string>, k: nat)
    requires k < |lines|
    ensures ParseLines(lines[..k + 1]) == Absorb(ParseLines(lines[..k]), lines[k], k + 1)
  {
    assert lines[..k + 1][..k] == lines[..k];
  }

  lemma OneMoreLine(lines: seq<string>, k: nat, key: string)
    requires k < |lines|
    ensures ObligedBy(lines, k + 1, key) <==> ObligedBy(lines, k, key) || Obliges(lines, k + 1, key)
    ensures CommandedBy(lines, k + 1, key) <==> CommandedBy(lines, k, key) || Commands(lines, k + 1, key)
  {
    hide ReadLine, Obliges, Commands;
    if n: nat :| n <= k + 1 && Obliges(lines, n, key) {
      assert n <= k || n == k + 1;
    }
    if n: nat :| n <= k + 1 && Commands(lines, n, key) {
      assert n <= k || n == k + 1;
    }
  }

  /** What one line adds to the entries and the appendix. */
  lemma AbsorbKeys(m: Parsed, line: string, n: nat, key: string)
    ensures var l, m' := ReadLine(line), Absorb(m, line, n);
            && (key in m'.entries <==> key in m.entries || (l.Obligation? && l.key == key))
            && (l.Obligation? && l.key == key ==> m'.entries[key] == Entry(l.disposition, l.owner, l.note, n))
            && (!(l.Obligation? && l.key == key) && key in m.entries ==> m'.entries[key] == m.entries[key])
            && (InAppendix(m'.appendix, key) <==> InAppendix(m.appendix, key) || (l.Command? && l.key == key))
  {
    hide ReadLine;
    var l := ReadLine(line);
    if l.Command? {
      var row := Row(l.key, l.command, l.owner);
      assert forall r :: r in m.appendix + [row] <==> r in m.appendix || r == row;
    }
  }

  lemma {:induction false} KeysUpTo(lines: seq<string>, k: nat, key: string)
    requires k <= |lines|
    ensures var m := ParseLines(lines[..k]);
            && (key in m.entries <==> ObligedBy(lines, k, key))
            && (key in m.entries ==> EntryOf(lines, k, key, m.entries[key]))
            && (InAppendix(m.appendix, key) <==> CommandedBy(lines, k, key))
    decreases k
  {
    hide ReadLine, Absorb, ObligedBy, CommandedBy, InAppendix;
    if k > 0 {
      KeysUpTo(lines, k - 1, key);
      ParseOneMore(lines, k - 1);
      OneMoreLine(lines, k - 1, key);
      AbsorbKeys(ParseLines(lines[..k - 1]), lines[k - 1], k, key);
    } else {
      NoLines(lines, key);
    }
  }

  lemma NoLines(lines: seq<string>, key: string)
    ensures !ObligedBy(lines, 0, key) && !CommandedBy(lines, 0, key)
    ensures ParseLines(lines[..0]) == Parsed(map[], [], []) && !InAppendix([], key)
  {}

  /** Every obligation that is read is an entry, the last one of its key, and every
      command that is read a row of the appendix; nothing else is. */
  lemma EntriesExactly(lines: seq<string>, key: string)
    ensures var m := ParseLines(lines);
            && (key in m.entries <==> ObligedBy(lines, |lines|, key))
            && (key in m.entries ==> EntryOf(lines, |lines|, key, m.entries[key]))
            && (InAppendix(m.appendix, key) <==> CommandedBy(lines, |lines|, key))
  {
    KeysUpTo(lines, |lines|, key);
    assert lines[..|lines|] == lines;
  }

  /** What one line adds to the problems. */
  lemma AbsorbProblems(m: Parsed, line: string, n: nat, p: Problem)
    ensures var l := ReadLine(line);
            p in Absorb(m, line, n).problems <==>
              || p in m.problems
              || (p.line == n
                  && match p
                     case MalformedAppendix(_) => l.BadAppendix?
                     case MalformedRow(_) => l.BadRow?
                     case UnknownDisposition(_, key) => l.Unknown? && l.key == key
                     case DuplicateKey(_, key) => l.Obligation? && l.key == key && key in m.entries
                     case DuplicateAppendix(_, key) =>
                       l.Command? && l.key == key && (key in m.entries || InAppendix(m.appendix, key)))
  {
    hide ReadLine, InAppendix;
    assert forall q: Problem :: p in m.problems + [q] <==> p in m.problems || p == q;
  }

  lemma {:induction false} ProblemsUpTo(lines: seq<string>, k: nat, p: Problem)
    requires k <= |lines|
    ensures p in ParseLines(lines[..k]).problems <==> p.line <= k && Reported(lines, p)
    decreases k
  {
    hide ReadLine, Absorb, ObligedBy, CommandedBy, InAppendix, EntryOf;
    if k > 0 {
      ProblemsUpTo(lines, k - 1, p);
      ParseOneMore(lines, k - 1);
      AbsorbProblems(ParseLines(lines[..k - 1]), lines[k - 1], k, p);
      if p.DuplicateKey? || p.DuplicateAppendix? {
        KeysUpTo(lines, k - 1, p.key);
      }
    } else {
      NoLines(lines, "");
    }
  }

  /** Repeated keys, malformed rows and unknown dispositions are reported, each with its
      line, and nothing else is. */
  lemma ProblemsExactly(lines: seq<string>, p: Problem)
    ensures p in ParseLines(lines).problems <==> Reported(lines, p)
  {
    hide ReadLine, ObligedBy, CommandedBy;
    ProblemsUpTo(lines, |lines|, p);
    assert lines[..|lines|] == lines;
  }

  // ------------------------------------------------------------------- rendering

  datatype Item =
    | EntryItem(key: string, disposition: string, owner: string, note: string)
    | CommandItem(key: string, command: string, owner: string)

  predicate Field(s: string) { Trimmed(s) && '|' !in s && forall c | c in s :: !IsBreak(c) }

  predicate Legal(i: Item) {
    match i
    case EntryItem(key, disposition, owner, note) =>
      IsKey(key) && !StartsWith(key, COMMAND_DOMAIN) && disposition in DISPOSITIONS && Field(owner) && Field(note)
    case CommandItem(key, command, owner) =>
      IsCommandKey(key) && Field(command) && Field(owner) && command != "" && owner != ""
  }

  function Cell(s: string): string { " " + s + " " }

  function Render(i: Item): string {
    match i
    case EntryItem(key, disposition, owner, note) =>
      "|" + (Cell(key) + ("|" + (Cell(disposition) + ("|" + (Cell(owner) + ("|" + (Cell(note) + "|")))))))
    case CommandItem(key, command, owner) =>
      "|" + (Cell(key) + ("|" + (Cell(command) + ("|" + (Cell(owner) + "|")))))
  }

  function RenderAll(items: seq<Item>): seq<string> {
    seq(|items|, i requires 0 <= i < |items| => Render(items[i]))
  }

  /** What parsing should give back. */
  function Expected(items: seq<Item>): Parsed
    decreases |items|
  {
    if items == [] then Parsed(map[], [], [])
    else
      var m := Expected(items[..|items| - 1]);
      match items[|items| - 1]
      case EntryItem(key, disposition, owner, note) =>
        m.(entries := m.entries[key := Entry(disposition, owner, note, |items|)])
      case CommandItem(key, command, owner) => m.(appendix := m.appendix + [Row(key, command, owner)])
  }

  // ---------------------------------------------------------------------- lemmas

  lemma {:induction false} SplitPiece(a: string, rest: string)
    requires '|' !in a
    ensures Split(a + "|" + rest) == [a] + Split(rest)
    decreases |a|
  {
    if a == "" {
      assert a + "|" + rest == "|" + rest;
      assert ("|" + rest)[1..] == rest;
    } else {
      SplitPiece(a[1..], rest);
      assert (a + "|" + rest)[1..] == a[1..] + "|" + rest;
      assert [a[0]] + a[1..] == a;
    }
  }

  lemma TrimCell(s: string)
    requires Trimmed(s)
    ensures Trim(Cell(s)) == s
    ensures s != "" ==> !Blank(Cell(s))
  {
    if s == "" {
      assert Cell(s) == "  ";
      assert "  "[1..] == " " && " "[1..] == "";
      assert TrimLeft("  ") == "";
    } else {
      assert Cell(s)[1..] == s + " ";
      assert TrimLeft(Cell(s)) == TrimLeft(s + " ") == s + " ";
      var t := s + " ";
      assert t[..|t| - 1] == s && t[|t| - 1] == ' ';
      assert TrimRight(t) == TrimRight(s) == s;
      assert Cell(s)[1] == s[0];
    }
  }

  lemma KeyIsField(key: string)
    requires IsKey(key) || IsCommandKey(key)
    ensures Trimmed(key) && '|' !in key && key != ""
  {}

  lemma DispositionIsField(d: string)
    requires d in DISPOSITIONS
    ensures IsDisposition(d) && Trimmed(d) && '|' !in d && d != ""
  {}

  lemma CellHasNoBar(s: string)
    requires '|' !in s
    ensures '|' !in Cell(s)
  {}

  lemma SplitEntry(i: Item)
    requires i.EntryItem? && '|' !in i.key && '|' !in i.disposition && '|' !in i.owner && '|' !in i.note
    ensures Split(Render(i)) == ["", Cell(i.key), Cell(i.disposition), Cell(i.owner), Cell(i.note), ""]
  {
    CellHasNoBar(i.key);
    CellHasNoBar(i.disposition);
    CellHasNoBar(i.owner);
    CellHasNoBar(i.note);
    var r4 := Cell(i.note) + "|";
    var r3 := Cell(i.owner) + ("|" + r4);
    var r2 := Cell(i.disposition) + ("|" + r3);
    var r1 := Cell(i.key) + ("|" + r2);
    Bar("", r1);
    Bar(Cell(i.key), r2);
    Bar(Cell(i.disposition), r3);
    Bar(Cell(i.owner), r4);
    Bar(Cell(i.note), "");
    assert Cell(i.note) + ("|" + "") == r4;
    assert "" + ("|" + r1) == Render(i);
  }

  lemma Bar(a: string, rest: string)
    requires '|' !in a
    ensures Split(a + ("|" + rest)) == [a] + Split(rest)
  {
    SplitPiece(a, rest);
    assert a + ("|" + rest) == a + "|" + rest;
  }

  lemma SplitCommand(i: Item)
    requires i.CommandItem? && '|' !in i.key && '|' !in i.command && '|' !in i.owner
    ensures Split(Render(i)) == ["", Cell(i.key), Cell(i.command), Cell(i.owner), ""]
  {
    CellHasNoBar(i.key);
    CellHasNoBar(i.command);
    CellHasNoBar(i.owner);
    var r3 := Cell(i.owner) + "|";
    var r2 := Cell(i.command) + ("|" + r3);
    var r1 := Cell(i.key) + ("|" + r2);
    Bar("", r1);
    Bar(Cell(i.key), r2);
    Bar(Cell(i.command), r3);
    Bar(Cell(i.owner), "");
    assert Cell(i.owner) + ("|" + "") == r3;
    assert "" + ("|" + r1) == Render(i);
  }

  lemma RenderedKey(i: Item)
    ensures |Render(i)| > |i.key| + 2 && Render(i)[0] == '|' && Render(i)[1] == ' '
    ensures Render(i)[2..2 + |i.key|] == i.key
  {
    var rest := match i
      case EntryItem(_, disposition, owner, note) =>
        "|" + (Cell(disposition) + ("|" + (Cell(owner) + ("|" + (Cell(note) + "|")))))
      case CommandItem(_, command, owner) => "|" + (Cell(command) + ("|" + (Cell(owner) + "|")));
    assert Render(i) == "|" + (Cell(i.key) + rest);
    assert Render(i) == "| " + i.key + (" " + rest);
  }

  /** A row is taken for a closure command exactly by the domain of its key. */
  lemma CommandPrefix(i: Item)
    requires IsKey(i.key) || IsCommandKey(i.key)
    ensures StartsWith(Render(i), "| CMD:") <==> StartsWith(i.key, COMMAND_DOMAIN)
  {
    hide Render;
    RenderedKey(i);
    var r := Render(i);
    if |i.key| >= 4 {
      assert r[2..6] == i.key[..4];
      assert StartsWith(r, "| CMD:") <==> r[..6] == "| CMD:";
      assert r[..6] == r[..2] + r[2..6];
    } else {
      assert r[3] == i.key[1];
      assert i.key[1] == ':';
      assert "| CMD:"[3] == 'M';
    }
  }

  /** An item as a line that was read. */
  function ReadItem(i: Item): Line {
    match i
    case EntryItem(key, disposition, owner, note) => Obligation(key, disposition, owner, note)
    case CommandItem(key, command, owner) => Command(key, command, owner)
  }

  /** Parsing a rendered row gives the row back. */
  lemma RowRoundTrip(i: Item)
    requires Legal(i)
    ensures ReadLine(Render(i)) == ReadItem(i)
  {
    hide Render, Split, Trim, Blank;
    CommandPrefix(i);
    KeyIsField(i.key);
    TrimCell(i.key);
    TrimCell(i.owner);
    BlankEnd();
    match i {
      case EntryItem(_, disposition, _, note) =>
        DispositionIsField(disposition);
        TrimCell(disposition);
        TrimCell(note);
        SplitEntry(i);
      case CommandItem(_, command, _) =>
        TrimCell(command);
        SplitCommand(i);
    }
  }

  lemma BlankEnd()
    ensures Blank("")
  {}

  /** An otherwise legal obligation is read back exactly when its domain is not CMD:
      with that domain the row is a malformed appendix row. */
  lemma CommandDomainBreaksRoundTrip(i: Item)
    requires i.EntryItem? && IsKey(i.key) && i.disposition in DISPOSITIONS && Field(i.owner) && Field(i.note)
    ensures ReadLine(Render(i)) == Obligation(i.key, i.disposition, i.owner, i.note)
            <==> !StartsWith(i.key, COMMAND_DOMAIN)
    ensures StartsWith(i.key, COMMAND_DOMAIN) ==> ReadLine(Render(i)) == BadAppendix
  {
    hide Render, Split, Trim, Blank;
    CommandPrefix(i);
    KeyIsField(i.key);
    DispositionIsField(i.disposition);
    SplitEntry(i);
    if !StartsWith(i.key, COMMAND_DOMAIN) {
      RowRoundTrip(i);
    }
  }

  predicate DistinctKeys(items: seq<Item>) {
    forall a, b | 0 <= a < b < |items| :: items[a].key != items[b].key
  }

  /** Keys collected so far are keys of items read so far. */
  lemma {:induction false} ExpectedKeys(items: seq<Item>)
    ensures forall k | k in Expected(items).entries :: exists i :: i in items && i.key == k
    ensures forall r | r in Expected(items).appendix :: exists i :: i in items && i.key == r.key
    decreases |items|
  {
    if items != [] {
      var n := |items| - 1;
      ExpectedKeys(items[..n]);
      assert items == items[..n] + [items[n]];
      assert items[n] in items;
      assert forall i | i in items[..n] :: i in items;
    }
  }

  /** Reading one more rendered item adds it, and with a new key nothing is wrong. */
  lemma AbsorbRendered(items: seq<Item>)
    requires items != [] && DistinctKeys(items) && Legal(items[|items| - 1])
    ensures Absorb(Expected(items[..|items| - 1]), Render(items[|items| - 1]), |items|) == Expected(items)
    ensures Expected(items).problems == Expected(items[..|items| - 1]).problems
  {
    hide ReadLine, ReadItem, Render, Legal, InAppendix, DistinctKeys, Absorb, Expected;
    NewKey(items);
    ExpectOneMore(items);
    RowRoundTrip(items[|items| - 1]);
    AbsorbItem(Expected(items[..|items| - 1]), Render(items[|items| - 1]), |items|, items[|items| - 1]);
  }

  lemma ExpectOneMore(items: seq<Item>)
    requires items != []
    ensures var m := Expected(items[..|items| - 1]);
            Expected(items) ==
            match items[|items| - 1]
            case EntryItem(key, disposition, owner, note) =>
              m.(entries := m.entries[key := Entry(disposition, owner, note, |items|)])
            case CommandItem(key, command, owner) => m.(appendix := m.appendix + [Row(key, command, owner)])
  {}

  lemma AbsorbItem(m: Parsed, line: string, n: nat, i: Item)
    requires i.key !in m.entries && !InAppendix(m.appendix, i.key)
    requires ReadLine(line) == ReadItem(i)
    ensures Absorb(m, line, n) ==
            match i
            case EntryItem(key, disposition, owner, note) => m.(entries := m.entries[key := Entry(disposition, owner, note, n)])
            case CommandItem(key, command, owner) => m.(appendix := m.appendix + [Row(key, command, owner)])
  {
    hide ReadLine, InAppendix;
  }

  lemma NewKey(items: seq<Item>)
    requires items != [] && DistinctKeys(items)
    ensures var before, key := Expected(items[..|items| - 1]), items[|items| - 1].key;
            key !in before.entries && !InAppendix(before.appendix, key)
  {
    hide Expected;
    var n := |items| - 1;
    ExpectedKeys(items[..n]);
    assert forall i | i in items[..n] :: i.key != items[n].key;
  }

  /** Any set of obligations and closure commands with distinct keys, rendered in any
      order and parsed, comes back whole and without a problem. */
  lemma {:induction false} MapRoundTrip(items: seq<Item>)
    requires DistinctKeys(items) && forall i | i in items :: Legal(i)
    ensures ParseLines(RenderAll(items)) == Expected(items)
    ensures Expected(items).problems == []
    decreases |items|
  {
    hide Absorb, Render, Legal;
    if items != [] {
      var n := |items| - 1;
      assert items == items[..n] + [items[n]] && items[n] in items;
      assert forall i | i in items[..n] :: i in items;
      MapRoundTrip(items[..n]);
      assert RenderAll(items)[..n] == RenderAll(items[..n]);
      AbsorbRendered(items);
    }
  }

  // ------------------------------------------------------------- text and lines

  /** splitlines(): a line break ends a line; CR LF is one break, and a last line
      without one counts too. */
  function SplitLines(text: string): seq<string>
    decreases |text|
  {
    if text == "" then []
    else if IsBreak(text[0]) then
      [""] + SplitLines(if |text| > 1 && text[0] == '\r' && text[1] == '\n' then text[2..] else text[1..])
    else
      var rest := SplitLines(text[1..]);
      if rest == [] then [[text[0]]] else [[text[0]] + rest[0]] + rest[1..]
  }

  function JoinLines(lines: seq<string>): string
    decreases |lines|
  {
    if lines == [] then "" else lines[0] + ("\n" + JoinLines(lines[1..]))
  }

  predicate NoBreak(s: string) { forall c | c in s :: !IsBreak(c) }

  /** Any break ends the line before it, CR and LF together once. */
  lemma {:induction false} FirstLine(line: string, b: char, rest: string)
    requires NoBreak(line) && IsBreak(b)
    ensures SplitLines(line + ([b] + rest)) ==
            [line] + SplitLines(if b == '\r' && rest != "" && rest[0] == '\n' then rest[1..] else rest)
    decreases |line|
  {
    var text := line + ([b] + rest);
    if line == "" {
      assert text == [b] + rest && text[1..] == rest;
      assert |text| > 1 ==> text[1] == rest[0] && text[2..] == rest[1..];
    } else {
      FirstLine(line[1..], b, rest);
      assert text[1..] == line[1..] + ([b] + rest);
      assert !IsBreak(text[0]) by { assert line[0] in line; }
      assert [line[0]] + line[1..] == line;
    }
  }

  /** A text without a break is one line, unless it is empty. */
  lemma {:induction false} OneLine(line: string)
    requires NoBreak(line)
    ensures SplitLines(line) == if line == "" then [] else [line]
    decreases |line|
  {
    if line != "" {
      assert line[0] in line;
      OneLine(line[1..]);
      assert [line[0]] + line[1..] == line;
      assert line[1..] == "" ==> line == [line[0]];
      assert [line[1..]][1..] == [];
    }
  }

  lemma {:induction false} LinesRoundTrip(lines: seq<string>)
    requires forall l | l in lines :: NoBreak(l)
    ensures SplitLines(JoinLines(lines)) == lines
    decreases |lines|
  {
    if lines != [] {
      LinesRoundTrip(lines[1..]);
      FirstLine(lines[0], '\n', JoinLines(lines[1..]));
    }
  }

  lemma NoBreakConcat(a: string, b: string)
    requires NoBreak(a) && NoBreak(b)
    ensures NoBreak(a + b)
  {}

  lemma CellNoBreak(s: string)
    requires NoBreak(s)
    ensures NoBreak(Cell(s))
  {}

  lemma KeyNoBreak(key: string)
    requires IsKey(key) || IsCommandKey(key)
    ensures NoBreak(key)
  {}

  lemma DispositionNoBreak(d: string)
    requires IsDisposition(d)
    ensures NoBreak(d)
  {}

  lemma FieldNoBreak(s: string)
    requires Field(s)
    ensures NoBreak(s)
  {}

  lemma KeyHasNoBreak(i: Item)
    requires Legal(i)
    ensures NoBreak(Cell(i.key)) && NoBreak("|")
    ensures i.EntryItem? ==> NoBreak(Cell(i.disposition)) && NoBreak(Cell(i.owner)) && NoBreak(Cell(i.note))
    ensures i.CommandItem? ==> NoBreak(Cell(i.command)) && NoBreak(Cell(i.owner))
  {
    KeyNoBreak(i.key);
    CellNoBreak(i.key);
    FieldNoBreak(i.owner);
    CellNoBreak(i.owner);
    BarNoBreak();
    hide NoBreak, Cell, Field, IsKey, IsCommandKey;
    match i {
      case EntryItem(_, disposition, _, note) =>
        DispositionIsField(disposition);
        DispositionNoBreak(disposition);
        CellNoBreak(disposition);
        FieldNoBreak(note);
        CellNoBreak(note);
      case CommandItem(_, command, _) =>
        FieldNoBreak(command);
        CellNoBreak(command);
    }
  }

  lemma BarNoBreak()
    ensures NoBreak("|")
  {}

  lemma RenderHasNoBreak(i: Item)
    requires Legal(i)
    ensures NoBreak(Render(i))
  {
    KeyHasNoBreak(i);
    hide NoBreak, Legal;
    match i {
      case EntryItem(key, disposition, owner, note) =>
        NoBreakConcat(Cell(note), "|");
        NoBreakConcat("|", Cell(note) + "|");
        NoBreakConcat(Cell(owner), "|" + (Cell(note) + "|"));
        NoBreakConcat("|", Cell(owner) + ("|" + (Cell(note) + "|")));
        NoBreakConcat(Cell(disposition), "|" + (Cell(owner) + ("|" + (Cell(note) + "|"))));
        NoBreakConcat("|", Cell(disposition) + ("|" + (Cell(owner) + ("|" + (Cell(note) + "|")))));
        NoBreakConcat(Cell(key), "|" + (Cell(disposition) + ("|" + (Cell(owner) + ("|" + (Cell(note) + "|"))))));
        NoBreakConcat("|", Cell(key) + ("|" + (Cell(disposition) + ("|" + (Cell(owner) + ("|" + (Cell(note) + "|")))))));
      case CommandItem(key, command, owner) =>
        NoBreakConcat(Cell(owner), "|");
        NoBreakConcat("|", Cell(owner) + "|");
        NoBreakConcat(Cell(command), "|" + (Cell(owner) + "|"));
        NoBreakConcat("|", Cell(command) + ("|" + (Cell(owner) + "|")));
        NoBreakConcat(Cell(key), "|" + (Cell(command) + ("|" + (Cell(owner) + "|"))));
        NoBreakConcat("|", Cell(key) + ("|" + (Cell(command) + ("|" + (Cell(owner) + "|")))));
    }
  }

  /** The whole text: parse_map of the rendered text is the map that was rendered. */
  lemma TextRoundTrip(items: seq<Item>)
    requires DistinctKeys(items) && forall i | i in items :: Legal(i)
    ensures ParseLines(SplitLines(JoinLines(RenderAll(items)))) == Expected(items)
    ensures Expected(items).problems == []
  {
    hide Legal, Render, ReadLine;
    forall l | l in RenderAll(items)
      ensures NoBreak(l)
    {
      var k :| 0 <= k < |items| && RenderAll(items)[k] == l;
      RenderHasNoBreak(items[k]);
    }
    LinesRoundTrip(RenderAll(items));
    MapRoundTrip(items);
  }
}
