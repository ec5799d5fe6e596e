/**
 The M16 proof-map validator: the rows must be exactly the required cells, each with
 an owner of its own that exists.
 */
module ProofUniverse {
  import opened Wrappers
  import ProofMap
  import opened Decimals
  import opened ProofOwners
  import opened Strings

  /** The frozen family table: which ids each family has. */
  type Families = map<string, seq<nat>>

  datatype Row = Row(cell: string, owner: string)

  /** The repository as the validator sees it: file texts and collected test nodes. */
  datatype World = World(files: map<string, string>, nodes: set<string>)

  const UNIVERSE_SIZE := 164

  // ----------------------------------------------------------------- cell names

  /** At least two digits. */
  function Pad2(n: nat): string { if n < 10 then "0" + Decimal(n) else Decimal(n) }

  function CellName(family: string, n: nat): string { "M16:" + (family + (":" + Pad2(n))) }

  function Required(families: Families): set<string> {
    set f, k | f in families && 0 <= k < |families[f]| :: CellName(f, families[f][k])
  }

  /** The text up to the first colon. */
  function UpToColon(s: string): string
    decreases |s|
  {
    if s == "" || s[0] == ':' then "" else [s[0]] + UpToColon(s[1..])
  }

  /** cell.split(":")[1]; a required cell always has that part. */
  function FamilyOf(cell: string): string {
    var first := UpToColon(cell);
    if |first| < |cell| then UpToColon(cell[|first| + 1..]) else ""
  }

  lemma {:induction false} LeadingZero(s: string)
    ensures Value("0" + s) == Value(s)
    decreases |s|
  {
    var z := "0" + s;
    if s == "" {
      assert z == "0" && z[..0] == "";
    } else {
      LeadingZero(s[..|s| - 1]);
      assert z[..|z| - 1] == "0" + s[..|s| - 1];
    }
  }

  /** The rendered id determines the id: a numeral of two digits, or of more without a
      leading zero. */
  lemma PadReads(n: nat)
    ensures Value(Pad2(n)) == n && (forall c | c in Pad2(n) :: '0' <= c <= '9')
    ensures |Pad2(n)| >= 2 && (|Pad2(n)| > 2 ==> Pad2(n)[0] != '0')
  {
    DecimalReads(n);
    DecimalDigits(n);
    DecimalForm(n);
    LeadingZero(Decimal(n));
  }

  lemma {:induction false} ColonStops(a: string, rest: string)
    requires ':' !in a
    ensures UpToColon(a + (":" + rest)) == a
    decreases |a|
  {
    var s := a + (":" + rest);
    if a == "" {
      assert s == ":" + rest;
    } else {
      ColonStops(a[1..], rest);
      assert s[1..] == a[1..] + (":" + rest);
      assert [a[0]] + a[1..] == a;
    }
  }

  lemma FamilyReads(family: string, rest: string)
    requires ':' !in family
    ensures FamilyOf("M16:" + (family + (":" + rest))) == family
  {
    var tail := family + (":" + rest);
    var cell := "M16:" + tail;
    assert cell == "M16" + (":" + tail);
    ColonStops("M16", tail);
    assert cell[4..] == tail;
    ColonStops(family, rest);
  }

  /** A cell names its family and its id. */
  lemma CellNameReads(family: string, n: nat)
    requires ':' !in family
    ensures FamilyOf(CellName(family, n)) == family
    ensures CellName(family, n) == "M16:" + family + ":" + Pad2(n)
    ensures CellName(family, n)[5 + |family|..] == Pad2(n) && Value(Pad2(n)) == n
  {
    hide FamilyOf, Pad2, Value;
    FamilyReads(family, Pad2(n));
    PadReads(n);
    assert CellName(family, n) == ("M16:" + family + ":") + Pad2(n);
  }

  // --------------------------------------------------------------------- owners

  function Lower(s: string): string {
    seq(|s|, i requires 0 <= i < |s| => if 'A' <= s[i] <= 'Z' then ((s[i] as int) + 32) as char else s[i])
  }

  predicate Mentions(text: string, part: string) { Find(text, part).Some? }

  predicate Unfinished(owner: string) { Mentions(Lower(owner), "pending") || Mentions(Lower(owner), "todo") }

  /** The text before the first separator, or all of it. */
  function Before(s: string, separator: string): string {
    match Find(s, separator)
    case None => s
    case Some(k) => FindOccurs(s, separator); s[..k]
  }

  function After(s: string, separator: string): string {
    match Find(s, separator)
    case None => ""
    case Some(k) => FindOccurs(s, separator); s[k + |separator|..]
  }

  datatype Verdict = Good | PathAbsent | NotCollectable | MarkerAbsent | FunctionAbsent | UnknownGrammar | Crash

  /** python_owner_resolves unpacks owner.split("::", 1) without checking. */
  function JudgePython(owner: string, w: World): Verdict
    requires |owner| >= 3
  {
    if Before(owner[3..], "::") !in w.files then PathAbsent
    else
      var o := ProofMap.Trim(owner[3..]);
      if SplitOwner(o).None? then Crash
      else if M16Guards(o, w.files.Keys) && Collected(o, w.nodes) then Good
      else NotCollectable
  }

  function JudgeFrontend(owner: string, w: World): Verdict
    requires |owner| >= 3
  {
    var spec := ProofMap.Trim(owner[3..]);
    if Mentions(spec, "#") && Before(spec, "#") in w.files && Mentions(w.files[Before(spec, "#")], After(spec, "#"))
    then Good else MarkerAbsent
  }

  function JudgeStructural(owner: string, w: World): Verdict
    requires |owner| >= 7
  {
    var spec := ProofMap.Trim(owner[7..]);
    if Mentions(spec, "::") && Before(spec, "::") in w.files
       && Mentions(w.files[Before(spec, "::")], "def " + After(spec, "::") + "(")
    then Good else FunctionAbsent
  }

  function Judge(owner: string, w: World): Verdict {
    if StartsWith(owner, "PY ") then JudgePython(owner, w)
    else if StartsWith(owner, "FE ") then JudgeFrontend(owner, w)
    else if StartsWith(owner, "STRUCT ") then JudgeStructural(owner, w)
    else UnknownGrammar
  }

  // ------------------------------------------------------------------- universe

  datatype Error =
    | DuplicateCell(cell: string) | MissingCells(cells: set<string>) | UnknownCells(cells: set<string>)
    | PendingOwner(cell: string) | SharedOwner(cell: string, other: string) | BadOwner(cell: string, verdict: Verdict)
    | WrongSize(n: nat) | WrongFamilyCount(family: string, n: nat) | UnknownFamilies(families: set<string>)

  function CellsOf(rows: seq<Row>): set<string> { set r | r in rows :: r.cell }

  predicate DistinctCells(rows: seq<Row>) {
    forall a, b | 0 <= a < b < |rows| :: rows[a].cell != rows[b].cell
  }

  /** The rows list the required cells, each once. */
  predicate Listing(rows: seq<Row>, families: Families) {
    DistinctCells(rows) && CellsOf(rows) == Required(families)
  }

  /** No row before row k is for the same cell. */
  predicate FirstAt(rows: seq<Row>, k: nat)
    requires k < |rows|
  {
    forall j | 0 <= j < k :: rows[j].cell != rows[k].cell
  }

  /** The cells met so far, each with the owner it was first met with. */
  predicate FirstOwners(seen: map<string, string>, rows: seq<Row>) {
    && seen.Keys == CellsOf(rows)
    && (forall k | 0 <= k < |rows| && FirstAt(rows, k) :: rows[k].cell in seen && seen[rows[k].cell] == rows[k].owner)
  }

  predicate Repeated(rows: seq<Row>, c: string) {
    exists i, j | 0 <= i < j < |rows| :: rows[i].cell == rows[j].cell == c
  }

  /** What check_universe has to report. */
  predicate UniverseReports(rows: seq<Row>, families: Families, e: Error) {
    match e
    case DuplicateCell(c) => Repeated(rows, c)
    case MissingCells(cells) => cells == Required(families) - CellsOf(rows) != {}
    case UnknownCells(cells) => cells == CellsOf(rows) - Required(families) != {}
    case _ => false
  }

  lemma NoRowYet(rows: seq<Row>)
    ensures FirstOwners(map[], rows[..0]) && DistinctCells(rows[..0]) && forall c :: !Repeated(rows[..0], c)
  {}

  method CollectRows(rows: seq<Row>) returns (errors: seq<Error>, seen: map<string, string>)
    ensures errors == [] <==> DistinctCells(rows)
    ensures forall e :: e in errors <==> e.DuplicateCell? && Repeated(rows, e.cell)
    ensures FirstOwners(seen, rows)
  {
    hide FirstOwners, DistinctCells, CellsOf, Repeated;
    errors, seen := [], map[];
    NoRowYet(rows);
    var k := 0;
    while k < |rows|
      invariant 0 <= k <= |rows|
      invariant errors == [] <==> DistinctCells(rows[..k])
      invariant forall e :: e in errors <==> e.DuplicateCell? && Repeated(rows[..k], e.cell)
      invariant FirstOwners(seen, rows[..k])
    {
      var r := rows[k];
      SeenBefore(rows, k);
      RepeatedNext(rows, k);
      FirstOwnersGrow(seen, rows, k);
      if r.cell in seen {
        errors := errors + [DuplicateCell(r.cell)];
      } else {
        seen := seen[r.cell := r.owner];
      }
      k := k + 1;
    }
    assert rows[..k] == rows;
  }

  method CheckUniverse(rows: seq<Row>, families: Families) returns (errors: seq<Error>, seen: map<string, string>)
    ensures errors == [] <==> Listing(rows, families)
    ensures forall e :: e in errors <==> UniverseReports(rows, families, e)
    ensures FirstOwners(seen, rows)
  {
    errors, seen := CollectRows(rows);
    hide Required, DistinctCells, CellsOf, Repeated;
    var missing := Required(families) - seen.Keys;
    var unknown := seen.Keys - Required(families);
    if missing != {} {
      errors := errors + [MissingCells(missing)];
    }
    if unknown != {} {
      errors := errors + [UnknownCells(unknown)];
    }
    assert missing == {} && unknown == {} <==> seen.Keys == Required(families);
  }

  lemma MetIsNotFirst(rows: seq<Row>, k: nat)
    requires k < |rows|
    ensures rows[k].cell in CellsOf(rows[..k]) ==> !FirstAt(rows[..k + 1], k)
  {
    if rows[k].cell in CellsOf(rows[..k]) {
      var j :| 0 <= j < k && rows[..k][j].cell == rows[k].cell;
      assert rows[..k + 1][j].cell == rows[..k + 1][k].cell;
    }
  }

  lemma FirstOwnersGrow(seen: map<string, string>, rows: seq<Row>, k: nat)
    requires k < |rows| && FirstOwners(seen, rows[..k])
    ensures rows[k].cell in seen <==> rows[k].cell in CellsOf(rows[..k])
    ensures FirstOwners(if rows[k].cell in seen then seen else seen[rows[k].cell := rows[k].owner], rows[..k + 1])
  {
    var more := if rows[k].cell in seen then seen else seen[rows[k].cell := rows[k].owner];
    assert rows[..k + 1] == rows[..k] + [rows[k]];
    MetIsNotFirst(rows, k);
    forall i | 0 <= i <= k && FirstAt(rows[..k + 1], i)
      ensures rows[i].cell in more && more[rows[i].cell] == rows[i].owner
    {
      if i < k {
        assert FirstAt(rows[..k], i) by {
          assert forall j | 0 <= j < i :: rows[..k][j] == rows[..k + 1][j];
        }
      }
    }
  }

  lemma SeenBefore(rows: seq<Row>, k: nat)
    requires k < |rows|
    ensures rows[k].cell in CellsOf(rows[..k]) <==> exists j :: 0 <= j < k && rows[j].cell == rows[k].cell
    ensures CellsOf(rows[..k + 1]) == CellsOf(rows[..k]) + {rows[k].cell}
    ensures DistinctCells(rows[..k + 1]) <==> DistinctCells(rows[..k]) && rows[k].cell !in CellsOf(rows[..k])
  {}

  lemma RepeatedNext(rows: seq<Row>, k: nat)
    requires k < |rows|
    ensures forall c :: Repeated(rows[..k + 1], c) <==> Repeated(rows[..k], c) || (c == rows[k].cell && c in CellsOf(rows[..k]))
  {
    forall c
      ensures Repeated(rows[..k + 1], c) <==> Repeated(rows[..k], c) || (c == rows[k].cell && c in CellsOf(rows[..k]))
    {
      if c == rows[k].cell && c in CellsOf(rows[..k]) {
        var j :| 0 <= j < k && rows[j].cell == c;
        assert rows[..k + 1][j].cell == rows[..k + 1][k].cell == c;
      }
      if Repeated(rows[..k], c) {
        var i, j :| 0 <= i < j < k && rows[..k][i].cell == rows[..k][j].cell == c;
        assert rows[..k + 1][i].cell == rows[..k + 1][j].cell == c;
      }
      if Repeated(rows[..k + 1], c) {
        var i, j :| 0 <= i < j <= k && rows[..k + 1][i].cell == rows[..k + 1][j].cell == c;
        assert rows[..k][i].cell == c;
        assert j < k ==> rows[..k][j].cell == c;
      }
    }
  }

  // ------------------------------------------------------------------ all owners

  predicate OwnerOk(owner: string, w: World) { !Unfinished(owner) && Judge(owner, w) == Good }

  /** Every owner is finished and exists, and no two cells share one. */
  predicate OwnersOk(items: seq<Row>, w: World) {
    && (forall k | 0 <= k < |items| :: OwnerOk(items[k].owner, w))
    && (forall j, k | 0 <= j < k < |items| :: items[j].owner != items[k].owner)
  }

  function CountFamily(items: seq<Row>, f: string): nat
    decreases |items|
  {
    if items == [] then 0
    else CountFamily(items[..|items| - 1], f) + if FamilyOf(items[|items| - 1].cell) == f then 1 else 0
  }

  predicate FamilyCountsOk(items: seq<Row>, families: Families) {
    && (forall f | f in families :: CountFamily(items, f) == |families[f]|)
    && (forall r | r in items :: FamilyOf(r.cell) in families)
  }

  predicate Tally(perFamily: map<string, nat>, items: seq<Row>) {
    && (forall r | r in items :: FamilyOf(r.cell) in perFamily)
    && (forall f | f in perFamily :: perFamily[f] == CountFamily(items, f) > 0)
  }

  /** The last cell before row k with this owner. */
  predicate LastUser(items: seq<Row>, k: nat, owner: string, cell: string)
    requires k <= |items|
  {
    exists j | 0 <= j < k ::
      items[j] == Row(cell, owner) && forall i | j < i < k :: items[i].owner != owner
  }

  /** What row k is reported for: an unfinished owner for nothing else. */
  predicate ReportsAt(items: seq<Row>, k: nat, w: World, e: Error)
    requires k < |items|
  {
    match e
    case PendingOwner(c) => c == items[k].cell && Unfinished(items[k].owner)
    case SharedOwner(c, other) => c == items[k].cell && !Unfinished(items[k].owner) && LastUser(items, k, items[k].owner, other)
    case BadOwner(c, v) => c == items[k].cell && !Unfinished(items[k].owner) && v == Judge(items[k].owner, w) != Good
    case _ => false
  }

  predicate OwnerReports(items: seq<Row>, w: World, e: Error) {
    exists k | 0 <= k < |items| :: ReportsAt(items, k, w, e)
  }

  /** Of each finished owner, the last cell that used it. */
  ghost predicate Remembered(ownersSeen: map<string, string>, items: seq<Row>, k: nat)
    requires k <= |items|
  {
    && (forall o | o in ownersSeen :: !Unfinished(o) && LastUser(items, k, o, ownersSeen[o]))
    && (forall j | 0 <= j < k :: !Unfinished(items[j].owner) ==> items[j].owner in ownersSeen)
  }

  lemma TallyGrows(items: seq<Row>, k: nat, perFamily: map<string, nat>)
    requires k < |items| && Tally(perFamily, items[..k])
    ensures var family := FamilyOf(items[k].cell);
            Tally(perFamily[family := if family in perFamily then perFamily[family] + 1 else 1], items[..k + 1])
  {
    hide FamilyOf;
    assert items[..k + 1] == items[..k] + [items[k]];
    assert items[..k + 1][..k] == items[..k];
    if FamilyOf(items[k].cell) !in perFamily {
      Uncounted(items[..k], FamilyOf(items[k].cell));
    }
  }

  lemma {:induction false} Uncounted(items: seq<Row>, f: string)
    requires forall r | r in items :: FamilyOf(r.cell) != f
    ensures CountFamily(items, f) == 0
    decreases |items|
  {
    hide FamilyOf;
    if items != [] {
      assert items[|items| - 1] in items;
      Uncounted(items[..|items| - 1], f);
    }
  }

  lemma RememberNext(items: seq<Row>, k: nat, ownersSeen: map<string, string>)
    requires k < |items| && Remembered(ownersSeen, items, k)
    ensures Remembered(if Unfinished(items[k].owner) then ownersSeen else ownersSeen[items[k].owner := items[k].cell], items, k + 1)
  {
    hide Unfinished;
    var o := items[k].owner;
    assert items[k] == Row(items[k].cell, o);
    forall x | x in ownersSeen && x != o
      ensures LastUser(items, k + 1, x, ownersSeen[x])
    {
      var j :| 0 <= j < k && items[j] == Row(ownersSeen[x], x) && forall i | j < i < k :: items[i].owner != x;
    }
  }

  /** Who is remembered is who would be reported as the other user. */
  lemma RememberedUser(items: seq<Row>, k: nat, ownersSeen: map<string, string>, o: string, c: string)
    requires k <= |items| && Remembered(ownersSeen, items, k) && !Unfinished(o)
    ensures LastUser(items, k, o, c) <==> o in ownersSeen && ownersSeen[o] == c
  {
    hide Unfinished;
    if LastUser(items, k, o, c) {
      var j :| 0 <= j < k && items[j] == Row(c, o) && forall i | j < i < k :: items[i].owner != o;
      var l :| 0 <= l < k && items[l] == Row(ownersSeen[o], o) && forall i | l < i < k :: items[i].owner != o;
      assert j == l;
    }
  }

  /** What one row adds to the report. */
  method JudgeRow(items: seq<Row>, k: nat, w: World, ownersSeen: map<string, string>) returns (found: seq<Error>)
    requires k < |items| && Remembered(ownersSeen, items, k)
    ensures forall e :: e in found <==> ReportsAt(items, k, w, e)
  {
    hide Judge, Unfinished, Remembered, LastUser;
    var r := items[k];
    if Unfinished(r.owner) {
      return [PendingOwner(r.cell)];
    }
    forall c
      ensures LastUser(items, k, r.owner, c) <==> r.owner in ownersSeen && ownersSeen[r.owner] == c
    {
      RememberedUser(items, k, ownersSeen, r.owner, c);
    }
    found := [];
    if r.owner in ownersSeen {
      found := [SharedOwner(r.cell, ownersSeen[r.owner])];
    }
    var verdict := Judge(r.owner, w);
    if verdict != Good {
      found := found + [BadOwner(r.cell, verdict)];
    }
  }

  /** items is what seen.items() walks.  A validator that crashes on an owner does not
      exit with success, so a crash counts as an error here. */
  method CheckEachOwner(items: seq<Row>, w: World) returns (errors: seq<Error>, perFamily: map<string, nat>)
    ensures errors == [] <==> OwnersOk(items, w)
    ensures forall e :: e in errors <==> OwnerReports(items, w, e)
    ensures Tally(perFamily, items)
  {
    hide Remembered, Tally, Unfinished, FamilyOf, ReportsAt, OwnersOk;
    errors, perFamily := [], map[];
    var ownersSeen: map<string, string> := map[];
    NothingCounted(items);
    var k := 0;
    while k < |items|
      invariant 0 <= k <= |items|
      invariant forall e :: e in errors <==> exists j | 0 <= j < k :: ReportsAt(items, j, w, e)
      invariant Remembered(ownersSeen, items, k)
      invariant Tally(perFamily, items[..k])
    {
      var r := items[k];
      RememberNext(items, k, ownersSeen);
      TallyGrows(items, k, perFamily);
      var family := FamilyOf(r.cell);
      perFamily := perFamily[family := if family in perFamily then perFamily[family] + 1 else 1];
      var found := JudgeRow(items, k, w, ownersSeen);
      errors := errors + found;
      if !Unfinished(r.owner) {
        ownersSeen := ownersSeen[r.owner := r.cell];
      }
      k := k + 1;
    }
    assert items[..k] == items;
    assert forall e :: e in errors <==> OwnerReports(items, w, e);
    NoReports(items, w);
    if errors != [] {
      assert errors[0] in errors;
    }
  }

  lemma NothingCounted(items: seq<Row>)
    ensures Remembered(map[], items, 0) && Tally(map[], items[..0])
  {}

  /** Nothing is reported of the owners exactly when all are good and none is shared. */
  lemma NoReports(items: seq<Row>, w: World)
    ensures (forall e :: !OwnerReports(items, w, e)) <==> OwnersOk(items, w)
  {
    hide Unfinished, Judge;
    if forall e :: !OwnerReports(items, w, e) {
      forall k | 0 <= k < |items|
        ensures OwnerOk(items[k].owner, w) && forall j | 0 <= j < k :: items[j].owner != items[k].owner
      {
        NotReported(items, k, w);
      }
    }
  }

  lemma NotReported(items: seq<Row>, k: nat, w: World)
    requires k < |items| && forall e :: !OwnerReports(items, w, e)
    ensures OwnerOk(items[k].owner, w) && forall j | 0 <= j < k :: items[j].owner != items[k].owner
  {
    hide Unfinished, Judge;
    var r := items[k];
    var pending, bad := PendingOwner(r.cell), BadOwner(r.cell, Judge(r.owner, w));
    assert !OwnerReports(items, w, pending) && !OwnerReports(items, w, bad);
    assert !ReportsAt(items, k, w, pending) && !ReportsAt(items, k, w, bad);
    forall j | 0 <= j < k
      ensures items[j].owner != r.owner
    {
      if items[j].owner == r.owner {
        SharedReported(items, j, k, w);
      }
    }
  }

  lemma SharedReported(items: seq<Row>, j: nat, k: nat, w: World)
    requires j < k < |items| && items[j].owner == items[k].owner && !Unfinished(items[k].owner)
    ensures exists e :: OwnerReports(items, w, e)
  {
    hide Unfinished, Judge;
    var c := FindLast(items, k, items[k].owner, j);
    var shared := SharedOwner(items[k].cell, c);
    assert ReportsAt(items, k, w, shared);
    assert OwnerReports(items, w, shared);
  }

  lemma {:induction false} FindLast(items: seq<Row>, k: nat, owner: string, j: nat) returns (cell: string)
    requires j < k <= |items| && items[j].owner == owner
    ensures LastUser(items, k, owner, cell)
    decreases k
  {
    if items[k - 1].owner == owner {
      cell := items[k - 1].cell;
      assert items[k - 1] == Row(cell, owner);
    } else {
      cell := FindLast(items, k - 1, owner, j);
      var l :| 0 <= l < k - 1 && items[l] == Row(cell, owner) && forall i | l < i < k - 1 :: items[i].owner != owner;
    }
  }

  /** What the counts are reported for. */
  predicate CountReports(items: seq<Row>, families: Families, e: Error) {
    match e
    case WrongSize(n) => n == |items| && n != 164
    case WrongFamilyCount(f, n) => f in families && n == CountFamily(items, f) && n != |families[f]|
    case UnknownFamilies(fs) => fs == UnlistedFamilies(items, families) && fs != {}
    case _ => false
  }

  function UnlistedFamilies(items: seq<Row>, families: Families): set<string> {
    set r | r in items && FamilyOf(r.cell) !in families :: FamilyOf(r.cell)
  }

  /** order is FAMILY_IDS in its own order. */
  method CheckCounts(items: seq<Row>, families: Families, order: seq<string>, perFamily: map<string, nat>) returns (errors: seq<Error>)
    requires Tally(perFamily, items) && forall f :: f in order <==> f in families
    ensures errors == [] <==> |items| == UNIVERSE_SIZE && FamilyCountsOk(items, families)
    ensures forall e :: e in errors <==> CountReports(items, families, e)
  {
    hide FamilyCountsOk, CountFamily, UnlistedFamilies, Tally;
    TallyMeans(perFamily, items, families);
    errors := if |items| != UNIVERSE_SIZE then [WrongSize(|items|)] else [];
    var k := 0;
    while k < |order|
      invariant 0 <= k <= |order|
      invariant errors == [] <==> |items| == UNIVERSE_SIZE && forall j | 0 <= j < k :: CountIn(perFamily, order[j]) == |families[order[j]]|
      invariant forall e :: e in errors <==>
                  CountReports(items, families, e) && (e.WrongSize? || (e.WrongFamilyCount? && e.family in order[..k]))
    {
      if CountIn(perFamily, order[k]) != |families[order[k]]| {
        errors := errors + [WrongFamilyCount(order[k], CountIn(perFamily, order[k]))];
      }
      k := k + 1;
    }
    EveryFamily(perFamily, families, order);
    var unexpected := perFamily.Keys - families.Keys;
    if unexpected != {} {
      errors := errors + [UnknownFamilies(unexpected)];
    }
  }

  method CheckOwners(items: seq<Row>, families: Families, order: seq<string>, w: World) returns (errors: seq<Error>)
    requires forall f :: f in order <==> f in families
    ensures errors == [] <==> OwnersOk(items, w) && |items| == UNIVERSE_SIZE && FamilyCountsOk(items, families)
    ensures forall e :: e in errors <==> OwnerReports(items, w, e) || CountReports(items, families, e)
  {
    hide OwnersOk, FamilyCountsOk, OwnerReports, CountReports;
    var ofOwners, perFamily := CheckEachOwner(items, w);
    var ofCounts := CheckCounts(items, families, order, perFamily);
    errors := ofOwners + ofCounts;
  }

  function CountIn(perFamily: map<string, nat>, f: string): nat { if f in perFamily then perFamily[f] else 0 }

  predicate CountsMatch(perFamily: map<string, nat>, families: Families) {
    forall f | f in families :: CountIn(perFamily, f) == |families[f]|
  }

  lemma EveryFamily(perFamily: map<string, nat>, families: Families, order: seq<string>)
    requires forall f :: f in order <==> f in families
    ensures CountsMatch(perFamily, families) <==> forall j | 0 <= j < |order| :: CountIn(perFamily, order[j]) == |families[order[j]]|
  {}

  lemma TallyMeans(perFamily: map<string, nat>, items: seq<Row>, families: Families)
    requires Tally(perFamily, items)
    ensures FamilyCountsOk(items, families) <==> CountsMatch(perFamily, families) && perFamily.Keys - families.Keys == {}
    ensures forall f :: CountIn(perFamily, f) == CountFamily(items, f)
    ensures perFamily.Keys - families.Keys == UnlistedFamilies(items, families)
  {
    hide FamilyOf;
    forall f
      ensures CountIn(perFamily, f) == CountFamily(items, f)
      ensures f in perFamily ==> exists r :: r in items && FamilyOf(r.cell) == f
    {
      if forall r | r in items :: FamilyOf(r.cell) != f {
        Uncounted(items, f);
      } else {
        var r :| r in items && FamilyOf(r.cell) == f;
      }
    }
    var unexpected := perFamily.Keys - families.Keys;
    assert forall f :: f in unexpected <==> f in perFamily && f !in families;
    if FamilyCountsOk(items, families) {
      forall f | f in perFamily
        ensures f in families
      {
        var r :| r in items && FamilyOf(r.cell) == f;
      }
    }
  }

  // ---------------------------------------------------------------------- counts

  predicate DistinctIds(ids: seq<nat>) {
    forall a, b | 0 <= a < b < |ids| :: ids[a] != ids[b]
  }

  predicate ColonFree(families: Families) { forall f | f in families :: ':' !in f }

  function CellsOfFamily(items: seq<Row>, f: string): set<string> {
    set r | r in items && FamilyOf(r.cell) == f :: r.cell
  }

  lemma {:induction false} CountIsCardinality(items: seq<Row>, f: string)
    requires DistinctCells(items)
    ensures CountFamily(items, f) == |CellsOfFamily(items, f)|
    decreases |items|
  {
    hide FamilyOf;
    if items == [] {
      assert CellsOfFamily(items, f) == {};
    } else {
      var n := |items| - 1;
      CountIsCardinality(items[..n], f);
      CellsOfFamilyGrow(items[..n], items[n], f);
      assert items == items[..n] + [items[n]];
      hide CellsOfFamily, DistinctCells;
    }
  }

  lemma CellsOfFamilyGrow(items: seq<Row>, r: Row, f: string)
    requires DistinctCells(items + [r])
    ensures r.cell !in CellsOfFamily(items, f)
    ensures CellsOfFamily(items + [r], f) ==
            CellsOfFamily(items, f) + if FamilyOf(r.cell) == f then {r.cell} else {}
  {
    hide FamilyOf;
    var more := items + [r];
    assert forall j | 0 <= j < |items| :: more[j] == items[j] && more[j].cell != more[|items|].cell;
  }

  function Rendered(f: string, ids: seq<nat>): set<string> {
    set k | 0 <= k < |ids| :: CellName(f, ids[k])
  }

  lemma {:induction false} RenderedCardinality(f: string, ids: seq<nat>)
    requires ':' !in f
    ensures |Rendered(f, ids)| <= |ids|
    ensures |Rendered(f, ids)| == |ids| <==> DistinctIds(ids)
    decreases |ids|
  {
    hide CellName;
    if ids == [] {
      assert Rendered(f, ids) == {};
    } else {
      var n := |ids| - 1;
      var before, last := ids[..n], ids[n];
      RenderedCardinality(f, before);
      assert Rendered(f, ids) == Rendered(f, before) + {CellName(f, last)};
      RenderedAgain(f, before, last);
      DistinctSnoc(ids);
    }
  }

  lemma RenderedAgain(f: string, ids: seq<nat>, id: nat)
    requires ':' !in f
    ensures CellName(f, id) in Rendered(f, ids) <==> id in ids
  {
    hide CellName;
    forall k | 0 <= k < |ids|
      ensures CellName(f, ids[k]) == CellName(f, id) <==> ids[k] == id
    {
      CellNameReads(f, ids[k]);
      CellNameReads(f, id);
    }
  }

  lemma DistinctSnoc(ids: seq<nat>)
    requires ids != []
    ensures DistinctIds(ids) <==> DistinctIds(ids[..|ids| - 1]) && ids[|ids| - 1] !in ids[..|ids| - 1]
  {}

  /** In a listing of the required cells the family counts say nothing new: they are
      right exactly when no family repeats an id. */
  lemma CountsFollowFromListing(items: seq<Row>, families: Families)
    requires Listing(items, families) && ColonFree(families)
    ensures FamilyCountsOk(items, families) <==> forall f | f in families :: DistinctIds(families[f])
  {
    hide FamilyOf, CellName, DistinctIds;
    forall f | f in families
      ensures CountFamily(items, f) == |families[f]| <==> DistinctIds(families[f])
    {
      CountIsCardinality(items, f);
      RenderedCardinality(f, families[f]);
      FamilyCells(items, families, f);
    }
    forall r | r in items
      ensures FamilyOf(r.cell) in families
    {
      RequiredFamily(items, families, r);
    }
  }

  lemma RequiredFamily(items: seq<Row>, families: Families, r: Row)
    requires Listing(items, families) && ColonFree(families) && r in items
    ensures FamilyOf(r.cell) in families
  {
    hide FamilyOf, CellName;
    assert r.cell in CellsOf(items);
    var f, k :| f in families && 0 <= k < |families[f]| && CellName(f, families[f][k]) == r.cell;
    CellNameReads(f, families[f][k]);
  }

  lemma FamilyCells(items: seq<Row>, families: Families, f: string)
    requires Listing(items, families) && ColonFree(families) && f in families
    ensures CellsOfFamily(items, f) == Rendered(f, families[f])
  {
    hide FamilyOf, CellName;
    forall c
      ensures c in CellsOfFamily(items, f) <==> c in Rendered(f, families[f])
    {
      if c in CellsOfFamily(items, f) {
        assert c in CellsOf(items);
        var g, k :| g in families && 0 <= k < |families[g]| && CellName(g, families[g][k]) == c;
        CellNameReads(g, families[g][k]);
      }
      if c in Rendered(f, families[f]) {
        var k :| 0 <= k < |families[f]| && CellName(f, families[f][k]) == c;
        CellNameReads(f, families[f][k]);
        assert c in Required(families) && c in CellsOf(items);
      }
    }
  }

  lemma {:induction false} ListingSize(items: seq<Row>)
    requires DistinctCells(items)
    ensures |items| == |CellsOf(items)|
    decreases |items|
  {
    if items != [] {
      var n := |items| - 1;
      ListingSize(items[..n]);
      SeenBefore(items, n);
      assert items[..n + 1] == items;
      assert items[n].cell !in CellsOf(items[..n]) by {
        assert forall j | 0 <= j < n :: items[j].cell != items[n].cell;
      }
    }
  }

  // ------------------------------------------------------------------------ main

  /** The validator succeeds exactly on a duplicate-free listing of the required cells
      whose owners are finished, existing and pairwise different, when the family table
      itself has 164 cells and repeats no id.  It reports what is wrong with the listing
      before it looks at any owner. */
  method Validate(rows: seq<Row>, families: Families, order: seq<string>, w: World) returns (errors: seq<Error>)
    requires forall f :: f in order <==> f in families
    requires ColonFree(families)
    ensures errors == [] <==>
              && Listing(rows, families) && OwnersOk(rows, w)
              && |Required(families)| == 164 && forall f | f in families :: DistinctIds(families[f])
    ensures !Listing(rows, families) ==> forall e :: e in errors <==> UniverseReports(rows, families, e)
    ensures Listing(rows, families) ==> forall e :: e in errors <==> OwnerReports(rows, w, e) || CountReports(rows, families, e)
  {
    hide Listing, OwnersOk, FamilyCountsOk, Required, UniverseReports, OwnerReports, CountReports;
    var seen;
    errors, seen := CheckUniverse(rows, families);
    if errors != [] {
      return;
    }
    // without duplicates, seen.items() is the rows themselves
    errors := CheckOwners(rows, families, order, w);
    CountsFollowFromListing(rows, families);
    SizeOfListing(rows, families);
  }

  lemma SizeOfListing(rows: seq<Row>, families: Families)
    requires Listing(rows, families)
    ensures |rows| == |Required(families)|
  {
    ListingSize(rows);
  }
}
