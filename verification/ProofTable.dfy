/**
 The M15 proof-map validator: rows of a table, each with an owner that exists or a
 promised one, against the required cells and their frozen counts.
 */
module ProofTable {
  import opened Wrappers
  import opened Decimals
  import opened Strings
  import opened ProofOwners
  import ProofUniverse

  datatype Disposition = Test | Pending

  /** What the row pattern captures of a line that matches it, stripped. */
  datatype MapRow = MapRow(cell: string, disposition: Disposition, owner: string)

  /** How many cells each family has: 01 to that number. */
  type Families = map<string, nat>

  datatype World = World(files: map<string, string>, nodes: set<string>)

  datatype Error =
    | DuplicateCell(cell: string) | UnresolvableOwner(cell: string) | BadPendingOwner(cell: string)
    | MissingCells(cells: set<string>) | UnknownCells(cells: set<string>)
    | FamilyCount(family: string, derived: nat) | TotalCount(derived: nat) | PendingCells(promised: seq<string>)

  // ------------------------------------------------------------------------- cells

  function CellName(family: string, n: nat): string { family + ":" + ProofUniverse.Pad2(n) }

  function Required(families: Families): set<string> {
    set f, n | f in families && 1 <= n <= families[f] :: CellName(f, n)
  }

  /** cell.rsplit(":", 1)[0] */
  function FamilyOf(cell: string): string { if ':' in cell then UpToLastColon(cell) else cell }

  function UpToLastColon(s: string): string
    decreases |s|
  {
    if s == "" then ""
    else if s[|s| - 1] == ':' then s[..|s| - 1]
    else UpToLastColon(s[..|s| - 1])
  }

  lemma {:induction false} LastColon(f: string, d: string)
    requires ':' !in d
    ensures UpToLastColon(f + ":" + d) == f
    decreases |d|
  {
    var s := f + ":" + d;
    if d == "" {
      assert s[..|s| - 1] == f;
    } else {
      LastColon(f, d[..|d| - 1]);
      assert s[..|s| - 1] == f + ":" + d[..|d| - 1];
      assert s[|s| - 1] == d[|d| - 1] && d[|d| - 1] in d;
    }
  }

  /** The text before the last colon, or all of it. */
  lemma FamilyExactly(f: string, d: string)
    requires ':' !in d
    ensures FamilyOf(f + ":" + d) == f && FamilyOf(d) == d
  {
    LastColon(f, d);
    assert (f + ":" + d)[|f|] == ':';
  }

  lemma CellReads(f: string, n: nat)
    ensures FamilyOf(CellName(f, n)) == f
    ensures forall m :: CellName(f, m) == CellName(f, n) <==> m == n
  {
    hide FamilyOf, ProofUniverse.Pad2;
    PadDigits(n);
    FamilyExactly(f, ProofUniverse.Pad2(n));
    forall m: nat
      ensures CellName(f, m) == CellName(f, n) <==> m == n
    {
      ProofUniverse.PadReads(m);
      ProofUniverse.PadReads(n);
      assert CellName(f, m)[|f| + 1..] == ProofUniverse.Pad2(m) && CellName(f, n)[|f| + 1..] == ProofUniverse.Pad2(n);
    }
  }

  lemma PadDigits(n: nat)
    ensures ':' !in ProofUniverse.Pad2(n)
  {
    DecimalDigits(n);
  }

  // ------------------------------------------------------------------------ owners

  predicate LowerWord(s: string) { forall c | c in s :: 'a' <= c <= 'z' || '0' <= c <= '9' || c == '_' }

  predicate LowerDashed(s: string) { forall c | c in s :: 'a' <= c <= 'z' || '0' <= c <= '9' || c == '-' }

  /** tests/test_m15[a-z0-9_]*\.py::test_[a-z0-9_]+ */
  predicate IsPendingPython(owner: string) {
    StartsWith(owner, "tests/test_m15")
    && var rest := owner[|"tests/test_m15"|..];
       exists i | 0 <= i <= |rest| ::
         LowerWord(rest[..i]) && StartsWith(rest[i..], ".py::test_")
         && rest[i + |".py::test_"|..] != "" && LowerWord(rest[i + |".py::test_"|..])
  }

  /** apps/web/src/__tests__/m15-[a-z0-9-]+\.test\.tsx::.+ */
  predicate IsPendingFrontend(owner: string) {
    StartsWith(owner, "apps/web/src/__tests__/m15-")
    && var rest := owner[|"apps/web/src/__tests__/m15-"|..];
       exists i | 0 < i <= |rest| ::
         LowerDashed(rest[..i]) && StartsWith(rest[i..], ".test.tsx::")
         && rest[i + |".test.tsx::"|..] != "" && '\n' !in rest[i + |".test.tsx::"|..]
  }

  /** A test file of the front end whose text holds the title between like quotes. */
  predicate FrontendResolves(owner: string, files: map<string, string>) {
    SplitOwner(owner).Some?
    && var (path, title) := SplitOwner(owner).value;
       && StartsWith(path, "apps/web/src/__tests__/") && EndsWith(path, ".tsx") && path in files
       && exists q | q in ["\"", "'", "`"] :: ProofUniverse.Mentions(files[path], q + title + q)
  }

  predicate OwnerOk(r: MapRow, w: World) {
    match r.disposition
    case Test => (M15Guards(r.owner, w.files.Keys) && Collected(r.owner, w.nodes)) || FrontendResolves(r.owner, w.files)
    case Pending => IsPendingPython(r.owner) || IsPendingFrontend(r.owner)
  }

  method JudgeOwner(r: MapRow, w: World) returns (problem: Option<Error>)
    ensures problem.None? <==> OwnerOk(r, w)
    ensures problem.Some? ==> problem.value == if r.disposition == Test then UnresolvableOwner(r.cell) else BadPendingOwner(r.cell)
  {
    hide IsPendingPython, IsPendingFrontend, FrontendResolves, M15Guards, Collected;
    if r.disposition == Test {
      var python := M15PythonOwnerResolves(r.owner, w.files.Keys, w.nodes);
      return if python || FrontendResolves(r.owner, w.files) then None else Some(UnresolvableOwner(r.cell));
    }
    return if IsPendingPython(r.owner) || IsPendingFrontend(r.owner) then None else Some(BadPendingOwner(r.cell));
  }

  // ---------------------------------------------------------------------- the scan

  function CellsOf(rows: seq<MapRow>): set<string> { set r | r in rows :: r.cell }

  predicate DistinctCells(rows: seq<MapRow>) {
    forall i, j | 0 <= i < j < |rows| :: rows[i].cell != rows[j].cell
  }

  predicate AllOwned(rows: seq<MapRow>, w: World) { forall r | r in rows :: OwnerOk(r, w) }

  function CountOf(rows: seq<MapRow>, f: string): nat
    decreases |rows|
  {
    if rows == [] then 0
    else CountOf(rows[..|rows| - 1], f) + if FamilyOf(rows[|rows| - 1].cell) == f then 1 else 0
  }

  function DerivedOf(perFamily: map<string, nat>, f: string): nat { if f in perFamily then perFamily[f] else 0 }

  /** sum(per_family.values()), in the order in which the families were met. */
  function Total(order: seq<string>, perFamily: map<string, nat>): nat
    decreases |order|
  {
    if order == [] then 0
    else Total(order[..|order| - 1], perFamily) + DerivedOf(perFamily, order[|order| - 1])
  }

  predicate NoneTwice(order: seq<string>) { forall i, j | 0 <= i < j < |order| :: order[i] != order[j] }

  /** The rows whose cell has not been met before: the others are reported and skipped. */
  function Firsts(rows: seq<MapRow>): seq<MapRow>
    decreases |rows|
  {
    if rows == [] then []
    else
      var n := |rows| - 1;
      if rows[n].cell in CellsOf(rows[..n]) then Firsts(rows[..n]) else Firsts(rows[..n]) + [rows[n]]
  }

  /** The cells that are only promised, in the order of the rows. */
  function Promised(rows: seq<MapRow>): seq<string>
    decreases |rows|
  {
    if rows == [] then []
    else
      var n := |rows| - 1;
      if rows[n].disposition == Pending then Promised(rows[..n]) + [rows[n].cell] else Promised(rows[..n])
  }

  /** What the scan holds of rows without duplicates. */
  ghost predicate Tallied(rows: seq<MapRow>, order: seq<string>, perFamily: map<string, nat>, pending: seq<string>) {
    && Keyed(order, perFamily) && Counted(rows, perFamily) && Total(order, perFamily) == |rows|
    && pending == Promised(rows)
  }

  ghost predicate Keyed(order: seq<string>, perFamily: map<string, nat>) {
    NoneTwice(order) && forall f :: f in order <==> f in perFamily
  }

  ghost predicate Counted(rows: seq<MapRow>, perFamily: map<string, nat>) {
    forall f :: DerivedOf(perFamily, f) == CountOf(rows, f)
  }

  predicate AllTests(rows: seq<MapRow>) { forall r | r in rows :: r.disposition == Test }

  lemma {:induction false} TotalElsewhere(order: seq<string>, perFamily: map<string, nat>, f: string, n: nat)
    requires f !in order
    ensures Total(order, perFamily[f := n]) == Total(order, perFamily)
    decreases |order|
  {
    if order != [] {
      assert order[|order| - 1] in order;
      TotalElsewhere(order[..|order| - 1], perFamily, f, n);
    }
  }

  lemma {:induction false} TotalCounts(order: seq<string>, perFamily: map<string, nat>, f: string)
    requires NoneTwice(order) && f in order && f in perFamily
    ensures Total(order, perFamily[f := perFamily[f] + 1]) == Total(order, perFamily) + 1
    decreases |order|
  {
    var n := |order| - 1;
    assert order == order[..n] + [order[n]];
    if order[n] == f {
      TotalElsewhere(order[..n], perFamily, f, perFamily[f] + 1);
    } else {
      TotalCounts(order[..n], perFamily, f);
    }
  }

  function MetOrder(order: seq<string>, perFamily: map<string, nat>, f: string): seq<string> {
    if f in perFamily then order else order + [f]
  }

  lemma TallyOne(rows: seq<MapRow>, order: seq<string>, perFamily: map<string, nat>, pending: seq<string>, r: MapRow)
    requires Tallied(rows, order, perFamily, pending)
    ensures var f := FamilyOf(r.cell);
            Tallied(rows + [r], MetOrder(order, perFamily, f), perFamily[f := DerivedOf(perFamily, f) + 1],
                    if r.disposition == Pending then pending + [r.cell] else pending)
  {
    hide FamilyOf, Keyed, Counted, Promised;
    KeyedGrows(order, perFamily, FamilyOf(r.cell));
    CountedGrows(rows, perFamily, r);
    PromisedGrow(rows, r);
  }

  lemma KeyedGrows(order: seq<string>, perFamily: map<string, nat>, f: string)
    requires Keyed(order, perFamily)
    ensures var met, counts := MetOrder(order, perFamily, f), perFamily[f := DerivedOf(perFamily, f) + 1];
            Keyed(met, counts) && Total(met, counts) == Total(order, perFamily) + 1
  {
    var met, counts := MetOrder(order, perFamily, f), perFamily[f := DerivedOf(perFamily, f) + 1];
    if f in perFamily {
      TotalCounts(order, perFamily, f);
    } else {
      TotalElsewhere(order, perFamily, f, DerivedOf(perFamily, f) + 1);
      assert met[..|order|] == order && met[|order|] == f;
      assert forall i | 0 <= i < |order| :: order[i] in order;
    }
  }

  lemma CountedGrows(rows: seq<MapRow>, perFamily: map<string, nat>, r: MapRow)
    requires Counted(rows, perFamily)
    ensures var f := FamilyOf(r.cell); Counted(rows + [r], perFamily[f := DerivedOf(perFamily, f) + 1])
  {
    hide FamilyOf;
    CountGrows(rows, r);
  }

  lemma PromisedGrow(rows: seq<MapRow>, r: MapRow)
    ensures Promised(rows + [r]) == if r.disposition == Pending then Promised(rows) + [r.cell] else Promised(rows)
  {
    assert (rows + [r])[..|rows|] == rows;
  }

  lemma {:induction false} NonePromised(rows: seq<MapRow>)
    ensures Promised(rows) == [] <==> AllTests(rows)
    decreases |rows|
  {
    if rows != [] {
      var n := |rows| - 1;
      NonePromised(rows[..n]);
      assert rows == rows[..n] + [rows[n]];
    }
  }

  lemma CountGrows(rows: seq<MapRow>, r: MapRow)
    ensures forall f :: CountOf(rows + [r], f) == CountOf(rows, f) + if FamilyOf(r.cell) == f then 1 else 0
  {
    hide FamilyOf;
    assert (rows + [r])[..|rows|] == rows;
  }

  lemma SeenBefore(rows: seq<MapRow>, k: nat, w: World)
    requires k < |rows|
    ensures CellsOf(rows[..k + 1]) == CellsOf(rows[..k]) + {rows[k].cell}
    ensures DistinctCells(rows[..k + 1]) <==> DistinctCells(rows[..k]) && rows[k].cell !in CellsOf(rows[..k])
    ensures rows[k].cell in CellsOf(rows[..k]) <==> !First(rows, k)
    ensures AllOwned(rows[..k + 1], w) <==> AllOwned(rows[..k], w) && OwnerOk(rows[k], w)
    ensures rows[..k + 1] == rows[..k] + [rows[k]]
  {
    hide OwnerOk;
    assert rows[..k + 1] == rows[..k] + [rows[k]];
  }

  lemma FirstsGrow(rows: seq<MapRow>, k: nat)
    requires k < |rows|
    ensures Firsts(rows[..k + 1]) ==
            if rows[k].cell in CellsOf(rows[..k]) then Firsts(rows[..k]) else Firsts(rows[..k]) + [rows[k]]
  {
    assert rows[..k + 1][..k] == rows[..k];
  }

  lemma NoFirsts()
    ensures Firsts([]) == [] && CellsOf([]) == {} && DistinctCells([])
  {}

  lemma {:induction false} FirstsKeepCells(rows: seq<MapRow>)
    ensures CellsOf(Firsts(rows)) == CellsOf(rows) && DistinctCells(Firsts(rows))
    decreases |rows|
  {
    hide CellsOf, DistinctCells, Firsts;
    if rows == [] {
      NoFirsts();
    } else {
      var n := |rows| - 1;
      var before, last := rows[..n], rows[n];
      FirstsKeepCells(before);
      FirstsGrow(rows, n);
      assert rows[..n + 1] == rows == before + [last];
      OneMoreCell(before, last);
      var cells := CellsOf(before);
      if last.cell in cells {
        assert cells + {last.cell} == cells;
      } else {
        OneMoreCell(Firsts(before), last);
      }
    }
  }

  lemma {:induction false} FirstsOfDistinct(rows: seq<MapRow>)
    requires DistinctCells(rows)
    ensures Firsts(rows) == rows
    decreases |rows|
  {
    hide CellsOf, DistinctCells, Firsts;
    if rows == [] {
      NoFirsts();
    } else {
      var n := |rows| - 1;
      assert rows[..n + 1] == rows == rows[..n] + [rows[n]];
      OneMoreCell(rows[..n], rows[n]);
      FirstsOfDistinct(rows[..n]);
      FirstsGrow(rows, n);
    }
  }

  lemma OneMoreCell(rows: seq<MapRow>, r: MapRow)
    ensures CellsOf(rows + [r]) == CellsOf(rows) + {r.cell}
    ensures DistinctCells(rows + [r]) <==> DistinctCells(rows) && r.cell !in CellsOf(rows)
  {
    var more := rows + [r];
    assert forall x :: x in more <==> x in rows || x == r;
    if DistinctCells(more) {
      assert forall i, j | 0 <= i < j < |rows| :: more[i] == rows[i] && more[j] == rows[j];
      assert forall i | 0 <= i < |rows| :: more[i].cell != more[|rows|].cell;
    }
  }

  lemma NothingScanned(rows: seq<MapRow>, w: World)
    ensures DistinctCells(rows[..0]) && AllOwned(rows[..0], w) && CellsOf(rows[..0]) == {} && Tallied(Firsts(rows[..0]), [], map[], [])
  {}

  /** No row before row k is for the same cell. */
  predicate First(rows: seq<MapRow>, k: nat)
    requires k < |rows|
  {
    forall j | 0 <= j < k :: rows[j].cell != rows[k].cell
  }

  /** What row k is reported for. */
  predicate ReportsAt(rows: seq<MapRow>, k: nat, w: World, e: Error)
    requires k < |rows|
  {
    match e
    case DuplicateCell(c) => c == rows[k].cell && !First(rows, k)
    case UnresolvableOwner(c) => c == rows[k].cell && First(rows, k) && rows[k].disposition == Test && !OwnerOk(rows[k], w)
    case BadPendingOwner(c) => c == rows[k].cell && First(rows, k) && rows[k].disposition == Pending && !OwnerOk(rows[k], w)
    case _ => false
  }

  /** Duplicates are reported and skipped, everything else is judged and tallied. */
  method ScanRows(rows: seq<MapRow>, w: World)
    returns (errors: seq<Error>, seen: set<string>, order: seq<string>, perFamily: map<string, nat>, pending: seq<string>)
    ensures errors == [] <==> DistinctCells(rows) && AllOwned(rows, w)
    ensures forall e :: e in errors <==> exists k | 0 <= k < |rows| :: ReportsAt(rows, k, w, e)
    ensures seen == CellsOf(rows)
    ensures Tallied(Firsts(rows), order, perFamily, pending)
  {
    hide DistinctCells, AllOwned, CellsOf, Tallied, FamilyOf, OwnerOk, MetOrder, DerivedOf, Firsts, First;
    errors, seen, order, perFamily, pending := [], {}, [], map[], [];
    NothingScanned(rows, w);
    var k := 0;
    while k < |rows|
      invariant 0 <= k <= |rows| && seen == CellsOf(rows[..k])
      invariant errors == [] <==> DistinctCells(rows[..k]) && AllOwned(rows[..k], w)
      invariant forall e :: e in errors <==> exists j | 0 <= j < k :: ReportsAt(rows, j, w, e)
      invariant Tallied(Firsts(rows[..k]), order, perFamily, pending)
    {
      var r := rows[k];
      ghost var before := errors;
      SeenBefore(rows, k, w);
      FirstsGrow(rows, k);
      TallyOne(Firsts(rows[..k]), order, perFamily, pending, r);
      if r.cell in seen {
        errors := errors + [DuplicateCell(r.cell)];
      } else {
        seen := seen + {r.cell};
        var f := FamilyOf(r.cell);
        order, perFamily := MetOrder(order, perFamily, f), perFamily[f := DerivedOf(perFamily, f) + 1];
        var problem := JudgeOwner(r, w);
        if problem.Some? {
          errors := errors + [problem.value];
        }
        if r.disposition == Pending {
          pending := pending + [r.cell];
        }
      }
      assert forall e :: e in errors <==> e in before || ReportsAt(rows, k, w, e);
      k := k + 1;
    }
    assert rows[..k] == rows;
  }

  // --------------------------------------------------------------------- the counts

  predicate Listing(rows: seq<MapRow>, families: Families) {
    DistinctCells(rows) && CellsOf(rows) == Required(families)
  }

  function Numbered(f: string, n: nat): set<string> { set k | 1 <= k <= n :: CellName(f, k) }

  lemma {:induction false} NumberedSize(f: string, n: nat)
    ensures |Numbered(f, n)| == n
    decreases n
  {
    hide CellName;
    if n == 0 {
      assert Numbered(f, 0) == {};
    } else {
      NumberedSize(f, n - 1);
      CellReads(f, n);
      assert Numbered(f, n) == Numbered(f, n - 1) + {CellName(f, n)};
    }
  }

  function CellsIn(rows: seq<MapRow>, f: string): set<string> { set r | r in rows && FamilyOf(r.cell) == f :: r.cell }

  lemma {:induction false} CountIsSize(rows: seq<MapRow>, f: string)
    requires DistinctCells(rows)
    ensures CountOf(rows, f) == |CellsIn(rows, f)|
    decreases |rows|
  {
    hide FamilyOf;
    if rows == [] {
      assert CellsIn(rows, f) == {};
    } else {
      var n := |rows| - 1;
      CountIsSize(rows[..n], f);
      CellsInGrow(rows[..n], rows[n], f);
      assert rows == rows[..n] + [rows[n]];
      hide CellsIn, DistinctCells;
    }
  }

  lemma CellsInGrow(rows: seq<MapRow>, r: MapRow, f: string)
    requires DistinctCells(rows + [r])
    ensures r.cell !in CellsIn(rows, f)
    ensures CellsIn(rows + [r], f) == CellsIn(rows, f) + if FamilyOf(r.cell) == f then {r.cell} else {}
  {
    hide FamilyOf;
    var more := rows + [r];
    assert forall j | 0 <= j < |rows| :: more[j] == rows[j] && more[j].cell != more[|rows|].cell;
  }

  /** In a listing the derived count of a family is the size of the family. */
  lemma CountsFollow(rows: seq<MapRow>, families: Families, f: string)
    requires Listing(rows, families)
    ensures CountOf(rows, f) == if f in families then families[f] else 0
  {
    hide FamilyOf, CellName;
    CountIsSize(rows, f);
    var n := if f in families then families[f] else 0;
    NumberedSize(f, n);
    forall c
      ensures c in CellsIn(rows, f) <==> c in Numbered(f, n)
    {
      if c in CellsIn(rows, f) {
        assert c in CellsOf(rows);
        var g, k :| g in families && 1 <= k <= families[g] && CellName(g, k) == c;
        CellReads(g, k);
      }
      if c in Numbered(f, n) {
        var k :| 1 <= k <= n && CellName(f, k) == c;
        CellReads(f, k);
        assert c in Required(families) && c in CellsOf(rows);
      }
    }
    assert CellsIn(rows, f) == Numbered(f, n);
  }

  lemma {:induction false} ListingSize(rows: seq<MapRow>)
    requires DistinctCells(rows)
    ensures |rows| == |CellsOf(rows)|
    decreases |rows|
  {
    if rows != [] {
      var n := |rows| - 1;
      ListingSize(rows[..n]);
      assert rows == rows[..n] + [rows[n]];
      assert CellsOf(rows) == CellsOf(rows[..n]) + {rows[n].cell};
      assert rows[n].cell !in CellsOf(rows[..n]);
    }
  }

  // --------------------------------------------------------------------------- main

  /** The frozen diagnostic counts agree with the required families. */
  predicate FrozenAgree(families: Families, frozen: map<string, nat>, total: nat) {
    && (forall f | f in frozen :: frozen[f] == if f in families then families[f] else 0)
    && |Required(families)| == total
  }

  /** What the whole table is reported for, after its rows. */
  predicate TableReports(rows: seq<MapRow>, families: Families, frozen: map<string, nat>, total: nat, complete: bool, e: Error) {
    match e
    case MissingCells(cells) => cells == Required(families) - CellsOf(rows) != {}
    case UnknownCells(cells) => cells == CellsOf(rows) - Required(families) != {}
    case FamilyCount(f, derived) => f in frozen && derived == |CellsIn(rows, f)| != frozen[f]
    case TotalCount(derived) => derived == |CellsOf(rows)| != total
    case PendingCells(promised) => complete && promised == Promised(Firsts(rows)) != []
    case _ => false
  }

  /** The comparisons with the frozen tables and the closure mode. */
  method CheckTable(rows: seq<MapRow>, families: Families, frozen: map<string, nat>, frozenOrder: seq<string>, total: nat, complete: bool,
                    seen: set<string>, order: seq<string>, perFamily: map<string, nat>, pending: seq<string>) returns (errors: seq<Error>)
    requires forall f :: f in frozenOrder <==> f in frozen
    requires seen == CellsOf(rows) && Tallied(Firsts(rows), order, perFamily, pending)
    ensures forall e :: e in errors <==> TableReports(rows, families, frozen, total, complete, e)
  {
    hide DistinctCells, CellsOf, Required, FamilyOf, Firsts, Promised, CellsIn, CountOf, Total, Keyed;
    DerivedExactly(rows, order, perFamily, pending);
    errors := [];
    var missing, unknown := Required(families) - seen, seen - Required(families);
    if missing != {} {
      errors := errors + [MissingCells(missing)];
    }
    if unknown != {} {
      errors := errors + [UnknownCells(unknown)];
    }
    var k := 0;
    while k < |frozenOrder|
      invariant 0 <= k <= |frozenOrder|
      invariant forall e :: e in errors <==>
                  TableReports(rows, families, frozen, total, complete, e)
                  && (e.MissingCells? || e.UnknownCells? || (e.FamilyCount? && e.family in frozenOrder[..k]))
    {
      var f := frozenOrder[k];
      if DerivedOf(perFamily, f) != frozen[f] {
        errors := errors + [FamilyCount(f, DerivedOf(perFamily, f))];
      }
      k := k + 1;
    }
    var derived := Total(order, perFamily);
    if derived != total {
      errors := errors + [TotalCount(derived)];
    }
    if complete && pending != [] {
      errors := errors + [PendingCells(pending)];
    }
  }

  /** What was tallied are the sizes of the families among the cells, and of all of them. */
  lemma DerivedExactly(rows: seq<MapRow>, order: seq<string>, perFamily: map<string, nat>, pending: seq<string>)
    requires Tallied(Firsts(rows), order, perFamily, pending)
    ensures forall f :: DerivedOf(perFamily, f) == |CellsIn(rows, f)|
    ensures Total(order, perFamily) == |CellsOf(rows)| && pending == Promised(Firsts(rows))
  {
    hide FamilyOf, DistinctCells, Firsts, CountOf, Promised;
    FirstsKeepCells(rows);
    ListingSize(Firsts(rows));
    forall f
      ensures DerivedOf(perFamily, f) == |CellsIn(rows, f)|
    {
      CountIsSize(Firsts(rows), f);
      SameCellsIn(Firsts(rows), rows, f);
    }
  }

  lemma SameCellsIn(a: seq<MapRow>, b: seq<MapRow>, f: string)
    requires CellsOf(a) == CellsOf(b)
    ensures CellsIn(a, f) == CellsIn(b, f)
  {
    hide FamilyOf;
    CellsInOf(a, f);
    CellsInOf(b, f);
  }

  lemma CellsInOf(rows: seq<MapRow>, f: string)
    ensures CellsIn(rows, f) == set c | c in CellsOf(rows) && FamilyOf(c) == f
  {
    hide FamilyOf;
  }

  /** validate_map_text reports nothing exactly on a duplicate-free listing of the required
      cells whose owners resolve or are promised in the frozen grammars, with no promise
      left in closure mode; the counts it derives add nothing about the rows, they only
      compare the two frozen tables with each other. */
  method ValidateRows(rows: seq<MapRow>, families: Families, frozen: map<string, nat>, frozenOrder: seq<string>, total: nat,
                      w: World, complete: bool) returns (errors: seq<Error>)
    requires forall f :: f in frozenOrder <==> f in frozen
    ensures errors == [] <==>
              && Listing(rows, families) && AllOwned(rows, w) && FrozenAgree(families, frozen, total)
              && (complete ==> AllTests(rows))
    ensures forall e :: e in errors <==>
              || (exists k | 0 <= k < |rows| :: ReportsAt(rows, k, w, e))
              || TableReports(rows, families, frozen, total, complete, e)
  {
    hide DistinctCells, AllOwned, ReportsAt, TableReports, Listing, FrozenAgree, AllTests, Tallied;
    var ofRows, seen, order, perFamily, pending := ScanRows(rows, w);
    var ofTable := CheckTable(rows, families, frozen, frozenOrder, total, complete, seen, order, perFamily, pending);
    NothingReported(rows, families, frozen, total, complete);
    assert ofTable == [] <==> forall e :: e !in ofTable by {
      if ofTable != [] {
        assert ofTable[0] in ofTable;
      }
    }
    errors := ofRows + ofTable;
  }

  lemma NothingReported(rows: seq<MapRow>, families: Families, frozen: map<string, nat>, total: nat, complete: bool)
    ensures DistinctCells(rows) && (forall e :: !TableReports(rows, families, frozen, total, complete, e)) <==>
              Listing(rows, families) && FrozenAgree(families, frozen, total) && (complete ==> AllTests(rows))
  {
    hide CellsIn, DistinctCells, FamilyOf, Promised, AllTests;
    NonePromised(rows);
    if DistinctCells(rows) {
      FirstsOfDistinct(rows);
    }
    if Listing(rows, families) {
      forall f
        ensures |CellsIn(rows, f)| == if f in families then families[f] else 0
      {
        CountsFollow(rows, families, f);
        CountIsSize(rows, f);
      }
    }
    if forall e :: !TableReports(rows, families, frozen, total, complete, e) {
      NoneOfEach(rows, families, frozen, total, complete);
    }
  }

  lemma NoneOfEach(rows: seq<MapRow>, families: Families, frozen: map<string, nat>, total: nat, complete: bool)
    requires forall e :: !TableReports(rows, families, frozen, total, complete, e)
    ensures CellsOf(rows) == Required(families) && |CellsOf(rows)| == total
    ensures forall f | f in frozen :: |CellsIn(rows, f)| == frozen[f]
    ensures complete ==> Promised(Firsts(rows)) == []
  {
    hide CellsIn, CellsOf, Required, Promised, Firsts;
    var missing, unknown := Required(families) - CellsOf(rows), CellsOf(rows) - Required(families);
    assert !TableReports(rows, families, frozen, total, complete, MissingCells(missing));
    assert !TableReports(rows, families, frozen, total, complete, UnknownCells(unknown));
    assert CellsOf(rows) == Required(families) by {
      assert forall c :: c !in missing && c !in unknown;
    }
    assert !TableReports(rows, families, frozen, total, complete, TotalCount(|CellsOf(rows)|));
    assert !TableReports(rows, families, frozen, total, complete, PendingCells(Promised(Firsts(rows))));
    forall f | f in frozen
      ensures |CellsIn(rows, f)| == frozen[f]
    {
      assert !TableReports(rows, families, frozen, total, complete, FamilyCount(f, |CellsIn(rows, f)|));
    }
  }
}
