/**
 The coverage ledger of a certifying run, as executed and as hardened afterwards, and
 the packager's disposition over it.
 */
module CoverageLedger {
  import opened Wrappers
  import opened Decimals
  import opened CertifyingRun

  /** A row of the frozen cell table. */
  datatype TableRow = TableRow(cell: Cell, required: bool)

  datatype Execution = Passed | Failed | NotExecuted | EvidenceMissing

  datatype LedgerRow = LedgerRow(cell: Cell, required: bool, status: Execution, verdict: string)

  /** The multi-part cells and the records each is made of. */
  function Parts(c: Cell): seq<Cell> {
    if c == "PM16:CORE1:03" then ["PM16:CORE1:03a", "PM16:CORE1:03b", "PM16:CORE1:03c"]
    else if c == "PM16:SEQ:08" then ["PM16:SEQ:08a", "PM16:SEQ:08b"]
    else []
  }

  function Cells(table: seq<TableRow>): set<Cell> { set t | t in table :: t.cell }

  /** The row a record is filed under: a part not in the table counts for its whole. */
  function Canon(table: seq<TableRow>, c: Cell): Cell {
    if c !in Cells(table) && IsPart(c) then Whole(c) else c
  }

  predicate FiledUnder(table: seq<TableRow>, r: Rec, c: Cell) { Canon(table, r.cell) == c }

  predicate Executed(results: seq<Rec>, table: seq<TableRow>, c: Cell) {
    exists r :: r in results && FiledUnder(table, r, c)
  }

  predicate AllPass(results: seq<Rec>, table: seq<TableRow>, c: Cell) {
    forall r | r in results && FiledUnder(table, r, c) :: r.status == Pass
  }

  /** A cell passes exactly when it was executed and no record under it failed. */
  function OriginalStatus(results: seq<Rec>, table: seq<TableRow>, c: Cell): Execution {
    if !Executed(results, table, c) then NotExecuted
    else if AllPass(results, table, c) then Passed else Failed
  }

  /** The fold of the ledger builders: the first record of a cell stays until a record
      that is no pass replaces it. */
  function Fold(results: seq<Rec>, table: seq<TableRow>): map<Cell, Rec>
    decreases |results|
  {
    if results == [] then map[]
    else
      var before := Fold(results[..|results| - 1], table);
      var r := results[|results| - 1];
      var canon := Canon(table, r.cell);
      if canon !in before || r.status != Pass then before[canon := r] else before
  }

  function StatusOf(r: Rec): Execution { if r.status == Pass then Passed else Failed }

  /** The fold computes the status. */
  lemma {:induction false} FoldIsStatus(results: seq<Rec>, table: seq<TableRow>, c: Cell)
    ensures c in Fold(results, table) <==> Executed(results, table, c)
    ensures c in Fold(results, table) ==> StatusOf(Fold(results, table)[c]) == OriginalStatus(results, table, c)
    decreases |results|
  {
    if results != [] {
      var n := |results| - 1;
      FoldIsStatus(results[..n], table, c);
      assert results == results[..n] + [results[n]];
      assert forall r :: r in results <==> r in results[..n] || r == results[n];
      assert FiledUnder(table, results[n], Canon(table, results[n].cell));
    }
  }

  /** Record k is the one a row shows: the last failing record of the cell, or its first
      one if all passed. */
  predicate IsShown(results: seq<Rec>, table: seq<TableRow>, c: Cell, k: nat)
    requires k < |results|
  {
    && FiledUnder(table, results[k], c)
    && (forall j | k < j < |results| && FiledUnder(table, results[j], c) :: results[j].status == Pass)
    && (results[k].status == Pass ==> forall j | 0 <= j < k :: !FiledUnder(table, results[j], c))
  }

  predicate Shows(results: seq<Rec>, table: seq<TableRow>, c: Cell, verdict: string) {
    if Executed(results, table, c)
    then exists k | 0 <= k < |results| :: IsShown(results, table, c, k) && verdict == results[k].verdict
    else verdict == ""
  }

  /** The fold keeps the record to show. */
  lemma {:induction false} FoldShows(results: seq<Rec>, table: seq<TableRow>, c: Cell) returns (k: nat)
    requires c in Fold(results, table)
    ensures k < |results| && Fold(results, table)[c] == results[k] && IsShown(results, table, c, k)
    decreases |results|
  {
    var n := |results| - 1;
    var before := results[..n];
    FoldIsStatus(before, table, c);
    if c in Fold(before, table) && (Canon(table, results[n].cell) != c || results[n].status == Pass) {
      k := FoldShows(before, table, c);
      assert forall j | 0 <= j < n :: before[j] == results[j];
    } else {
      k := n;
      assert c !in Fold(before, table) ==> forall j | 0 <= j < n :: before[j] in before;
    }
  }

  lemma ShownByFold(results: seq<Rec>, table: seq<TableRow>, c: Cell)
    ensures Shows(results, table, c, if c in Fold(results, table) then Fold(results, table)[c].verdict else "")
  {
    FoldIsStatus(results, table, c);
    if c in Fold(results, table) {
      var k := FoldShows(results, table, c);
    }
  }

  /** One ledger row per table row, with the original status. */
  predicate OriginalLedger(ledger: seq<LedgerRow>, results: seq<Rec>, table: seq<TableRow>) {
    && |ledger| == |table|
    && forall i | 0 <= i < |table| ::
         && ledger[i].cell == table[i].cell && ledger[i].required == table[i].required
         && ledger[i].status == OriginalStatus(results, table, table[i].cell)
         && Shows(results, table, table[i].cell, ledger[i].verdict)
  }

  method BuildFullLedger(results: seq<Rec>, table: seq<TableRow>) returns (ledger: seq<LedgerRow>)
    ensures OriginalLedger(ledger, results, table)
  {
    var byCell := FoldRecords(results, table);
    ledger := [];
    var k := 0;
    while k < |table|
      invariant 0 <= k <= |table| && |ledger| == k
      invariant forall i | 0 <= i < k ::
          && ledger[i].cell == table[i].cell && ledger[i].required == table[i].required
          && ledger[i].status == OriginalStatus(results, table, table[i].cell)
          && Shows(results, table, table[i].cell, ledger[i].verdict)
    {
      hide Shows, Fold;
      var t := table[k];
      FoldIsStatus(results, table, t.cell);
      ShownByFold(results, table, t.cell);
      ledger := ledger + [
        if t.cell in byCell then LedgerRow(t.cell, t.required, StatusOf(byCell[t.cell]), byCell[t.cell].verdict)
        else LedgerRow(t.cell, t.required, NotExecuted, "")];
      k := k + 1;
    }
  }

  method FoldRecords(results: seq<Rec>, table: seq<TableRow>) returns (byCell: map<Cell, Rec>)
    ensures byCell == Fold(results, table)
  {
    byCell := map[];
    var k := 0;
    while k < |results|
      invariant 0 <= k <= |results|
      invariant byCell == Fold(results[..k], table)
    {
      var r := results[k];
      assert results[..k + 1][..k] == results[..k];
      var canon := Canon(table, r.cell);
      if canon !in byCell || r.status != Pass {
        byCell := byCell[canon := r];
      }
      k := k + 1;
    }
    assert results[..k] == results;
  }

  // -------------------------------------------------------------------- hardened

  /** The last record of exactly this name. */
  function Last(results: seq<Rec>, c: Cell): Option<Rec>
    decreases |results|
  {
    if results == [] then None
    else if results[|results| - 1].cell == c then Some(results[|results| - 1])
    else Last(results[..|results| - 1], c)
  }

  function PartStatus(results: seq<Rec>, files: set<Cell>, part: Cell): Execution {
    var r := Last(results, part);
    if r.None? || part !in files then EvidenceMissing
    else StatusOf(r.value)
  }

  /** A multi-part cell fails with any failing part, misses evidence with any missing
      one, and passes only with all parts passing; other cells are as before. */
  function HardenedStatus(results: seq<Rec>, files: set<Cell>, table: seq<TableRow>, c: Cell): Execution {
    if Parts(c) == [] then OriginalStatus(results, table, c)
    else if exists p | p in Parts(c) :: PartStatus(results, files, p) == Failed then Failed
    else if exists p | p in Parts(c) :: PartStatus(results, files, p) == EvidenceMissing then EvidenceMissing
    else Passed
  }

  function StatusName(e: Execution): string {
    match e
    case Passed => "PASS"
    case Failed => "FAIL"
    case EvidenceMissing => "EVIDENCE_MISSING"
    case NotExecuted => "NOT_EXECUTED"
  }

  /** The parts with their statuses, separated. */
  function PartList(results: seq<Rec>, files: set<Cell>, parts: seq<Cell>): string
    decreases |parts|
  {
    if parts == [] then ""
    else
      var n := |parts| - 1;
      var entry := parts[n] + "=" + StatusName(PartStatus(results, files, parts[n]));
      if n == 0 then entry else PartList(results, files, parts[..n]) + "; " + entry
  }

  function AggregateVerdict(results: seq<Rec>, files: set<Cell>, c: Cell): string {
    c + " aggregates " + Decimal(|Parts(c)|) + " constituents " + PartList(results, files, Parts(c))
  }

  /** The aggregate verdicts in words. */
  lemma AggregateInWords(results: seq<Rec>, files: set<Cell>, a: string, b: string, d: string)
    requires a == StatusName(PartStatus(results, files, "PM16:CORE1:03a"))
    requires b == StatusName(PartStatus(results, files, "PM16:CORE1:03b"))
    requires d == StatusName(PartStatus(results, files, "PM16:CORE1:03c"))
    ensures AggregateVerdict(results, files, "PM16:CORE1:03") ==
            "PM16:CORE1:03" + " aggregates " + "3" + " constituents "
            + ("PM16:CORE1:03a" + "=" + a + "; " + ("PM16:CORE1:03b" + "=" + b) + "; " + ("PM16:CORE1:03c" + "=" + d))
  {
    hide StatusName, PartStatus;
    var parts := Parts("PM16:CORE1:03");
    assert parts[..2][..1] == ["PM16:CORE1:03a"] && parts[..2] == ["PM16:CORE1:03a", "PM16:CORE1:03b"];
    assert PartList(results, files, parts[..2][..1]) == "PM16:CORE1:03a" + "=" + a;
    assert PartList(results, files, parts[..2]) == "PM16:CORE1:03a" + "=" + a + "; " + ("PM16:CORE1:03b" + "=" + b);
    assert Decimal(3) == "3";
  }

  /** The hardened row of a table row. */
  predicate HardenedRow(l: LedgerRow, results: seq<Rec>, files: set<Cell>, table: seq<TableRow>, t: TableRow) {
    && l.cell == t.cell && l.required == t.required && l.status == HardenedStatus(results, files, table, t.cell)
    && (if Parts(t.cell) == [] then Shows(results, table, t.cell, l.verdict)
        else l.verdict == AggregateVerdict(results, files, t.cell))
  }

  predicate HardenedLedger(ledger: seq<LedgerRow>, results: seq<Rec>, files: set<Cell>, table: seq<TableRow>) {
    |ledger| == |table| && forall i | 0 <= i < |table| :: HardenedRow(ledger[i], results, files, table, table[i])
  }

  method BuildHardenedLedger(results: seq<Rec>, files: set<Cell>, table: seq<TableRow>) returns (ledger: seq<LedgerRow>)
    ensures HardenedLedger(ledger, results, files, table)
  {
    hide HardenedRow, Fold;
    var byCell := FoldRecords(results, table);
    ledger := [];
    var k := 0;
    while k < |table|
      invariant 0 <= k <= |table| && |ledger| == k
      invariant forall i | 0 <= i < k :: HardenedRow(ledger[i], results, files, table, table[i])
    {
      var row := HardenRow(results, files, table, byCell, table[k]);
      ledger := ledger + [row];
      k := k + 1;
    }
  }

  method HardenRow(results: seq<Rec>, files: set<Cell>, table: seq<TableRow>, byCell: map<Cell, Rec>, t: TableRow) returns (row: LedgerRow)
    requires byCell == Fold(results, table)
    ensures HardenedRow(row, results, files, table, t)
  {
    hide Shows, Fold, AggregateVerdict;
    FoldIsStatus(results, table, t.cell);
    ShownByFold(results, table, t.cell);
    row := if t.cell in byCell then LedgerRow(t.cell, t.required, StatusOf(byCell[t.cell]), byCell[t.cell].verdict)
           else LedgerRow(t.cell, t.required, NotExecuted, "");
    if Parts(t.cell) != [] {
      var status, verdict := Aggregate(results, files, t.cell);
      row := row.(status := status, verdict := verdict);
    }
  }

  method Aggregate(results: seq<Rec>, files: set<Cell>, c: Cell) returns (status: Execution, verdict: string)
    requires Parts(c) != []
    ensures forall table :: status == HardenedStatus(results, files, table, c)
    ensures verdict == AggregateVerdict(results, files, c)
  {
    var parts := Parts(c);
    var statuses: seq<Execution> := [];
    var list := "";
    var k := 0;
    while k < |parts|
      invariant 0 <= k <= |parts| && |statuses| == k
      invariant list == PartList(results, files, parts[..k])
      invariant forall j | 0 <= j < k :: statuses[j] == PartStatus(results, files, parts[j])
    {
      var status := PartStatus(results, files, parts[k]);
      statuses := statuses + [status];
      assert parts[..k + 1][..k] == parts[..k];
      list := (if k == 0 then "" else list + "; ") + (parts[k] + "=" + StatusName(status));
      k := k + 1;
    }
    assert parts[..k] == parts;
    verdict := c + " aggregates " + Decimal(|parts|) + " constituents " + list;
    assert forall j | 0 <= j < k :: statuses[j] in statuses && parts[j] in parts;
    if Failed in statuses {
      status := Failed;
    } else if EvidenceMissing in statuses {
      status := EvidenceMissing;
    } else {
      status := Passed;
    }
  }

  // ------------------------------------------------------------------ refinement

  /** The frozen table names whole cells, never parts. */
  predicate WholeTable(table: seq<TableRow>) { forall t | t in table :: !IsPart(t.cell) }

  lemma {:induction false} LastIsRecorded(results: seq<Rec>, c: Cell)
    ensures Last(results, c).Some? <==> exists r :: r in results && r.cell == c
    ensures Last(results, c).Some? ==> Last(results, c).value in results && Last(results, c).value.cell == c
    decreases |results|
  {
    if results != [] {
      LastIsRecorded(results[..|results| - 1], c);
      assert results == results[..|results| - 1] + [results[|results| - 1]];
    }
  }

  lemma PartsOfAreParts(c: Cell, p: Cell)
    requires p in Parts(c)
    ensures IsPart(p) && Whole(p) == c
  {}

  /** The only record that may fail is charged to a whole cell, and only while no part
      of that cell has been recorded. */
  lemma FailureMeansNoParts(results: seq<Rec>, n: nat, phase: nat, r: Rec, c: Cell, p: Cell)
    requires ReachableAs(results, n, phase) && r in results && r.status == Fail && r.cell == c && c != HARNESS
    requires p in Parts(c)
    ensures forall q | q in results :: q.cell != p
  {
    hide PHASE_CELLS, Target, Parts;
    PartsOfAreParts(c, p);
    TargetIsWhole(results[..n], phase);
    TargetIsFresh(results[..n], phase);
    var k :| 0 <= k < |results| && results[k] == r;
    assert k == n;
    forall q | q in results
      ensures q.cell != p
    {
      var j :| 0 <= j < |results| && results[j] == q;
      if j < n {
        assert q in results[..n];
      }
    }
  }

  lemma TargetIsWhole(results: seq<Rec>, phase: nat)
    requires phase < |PHASE_CELLS|
    ensures !IsPart(Target(results, phase)) && Target(results, phase) != ""
  {
    hide Pending, IsPart;
    PendingIsFirst(results, PHASE_CELLS[phase]);
    HarnessIsWhole();
    forall k | 0 <= k < |PHASE_CELLS[phase]|
      ensures !IsPart(PHASE_CELLS[phase][k]) && PHASE_CELLS[phase][k] != ""
    {
      ListedCellsAreWhole(phase, k);
    }
  }

  lemma HarnessIsWhole()
    ensures !IsPart(HARNESS) && HARNESS != ""
  {}

  /** Reachable records under a multi-part cell: all pass once a part is recorded. */
  lemma RecordedPartPasses(results: seq<Rec>, table: seq<TableRow>, c: Cell, p: Cell)
    requires Reachable(results) && WholeTable(table) && p in Parts(c) && exists q :: q in results && q.cell == p
    ensures OriginalStatus(results, table, c) == Passed
    ensures forall q | q in results && q.cell == p :: q.status == Pass
  {
    hide PHASE_CELLS, Target, Parts;
    var n: nat, phase: nat :| ReachableAs(results, n, phase);
    PartsOfAreParts(c, p);
    NotReserved(c, p);
    var q :| q in results && q.cell == p;
    assert p !in Cells(table);
    assert FiledUnder(table, q, c);
    forall r | r in results
      ensures r.status == Fail ==> !FiledUnder(table, r, c) && r.cell != p
    {
      if r.status == Fail {
        var k :| 0 <= k < |results| && results[k] == r;
        TargetIsWhole(results[..n], phase);
        if r.cell == c {
          FailureMeansNoParts(results, n, phase, r, c, p);
        }
      }
    }
  }

  lemma NotReserved(c: Cell, p: Cell)
    requires p in Parts(c)
    ensures c != HARNESS
  {}

  /** The hardened ledger refines the original on every run: it never passes a cell
      that the original does not. */
  lemma HardenedRefinesOriginal(phases: seq<PhaseRun>, until: int, table: seq<TableRow>, files: set<Cell>, c: Cell)
    requires Honest(phases) && WholeTable(table)
    ensures var l := Records(phases, until);
            HardenedStatus(l, files, table, c) == Passed ==> OriginalStatus(l, table, c) == Passed
  {
    hide PHASE_CELLS, Parts, OriginalStatus, Records;
    EveryRunReaches(phases, until);
    var l := Records(phases, until);
    if HardenedStatus(l, files, table, c) == Passed && Parts(c) != [] {
      var p := Parts(c)[0];
      assert p in Parts(c);
      LastIsRecorded(l, p);
      RecordedPartPasses(l, table, c, p);
    }
  }

  /** On every run a multi-part cell passes the hardened ledger exactly when each of
      its parts has a record and an evidence file. */
  lemma HardenedMultiPartExactly(phases: seq<PhaseRun>, until: int, table: seq<TableRow>, files: set<Cell>, c: Cell)
    requires Honest(phases) && WholeTable(table) && Parts(c) != []
    ensures var l := Records(phases, until);
            HardenedStatus(l, files, table, c) == Passed <==>
              forall p | p in Parts(c) :: p in files && exists r :: r in l && r.cell == p && r.status == Pass
  {
    hide PHASE_CELLS, Parts, Records;
    EveryRunReaches(phases, until);
    var l := Records(phases, until);
    forall p | p in Parts(c)
      ensures PartStatus(l, files, p) == Passed <==> p in files && exists r :: r in l && r.cell == p && r.status == Pass
    {
      LastIsRecorded(l, p);
      if exists r :: r in l && r.cell == p {
        RecordedPartPasses(l, table, c, p);
      }
    }
  }

  /** A passing record and an evidence file of exactly this name. */
  predicate Evidenced(results: seq<Rec>, files: set<Cell>, p: Cell) {
    p in files && exists r :: r in results && r.cell == p && r.status == Pass
  }

  /** By name: CORE1:03 needs its three parts, SEQ:08 its two, and every other cell has
      the status it had. */
  lemma HardenedByName(phases: seq<PhaseRun>, until: int, table: seq<TableRow>, files: set<Cell>, c: Cell)
    requires Honest(phases) && WholeTable(table)
    ensures var l := Records(phases, until);
            && (HardenedStatus(l, files, table, "PM16:CORE1:03") == Passed <==>
                  && Evidenced(l, files, "PM16:CORE1:03a") && Evidenced(l, files, "PM16:CORE1:03b")
                  && Evidenced(l, files, "PM16:CORE1:03c"))
            && (HardenedStatus(l, files, table, "PM16:SEQ:08") == Passed <==>
                  Evidenced(l, files, "PM16:SEQ:08a") && Evidenced(l, files, "PM16:SEQ:08b"))
            && (c != "PM16:CORE1:03" && c != "PM16:SEQ:08" ==>
                  HardenedStatus(l, files, table, c) == OriginalStatus(l, table, c))
  {
    hide PHASE_CELLS, Records, HardenedStatus, Parts;
    PartsByName(c);
    var l := Records(phases, until);
    assert (forall p | p in Parts("PM16:CORE1:03") :: Evidenced(l, files, p)) <==>
             Evidenced(l, files, "PM16:CORE1:03a") && Evidenced(l, files, "PM16:CORE1:03b") && Evidenced(l, files, "PM16:CORE1:03c");
    assert (forall p | p in Parts("PM16:SEQ:08") :: Evidenced(l, files, p)) <==>
             Evidenced(l, files, "PM16:SEQ:08a") && Evidenced(l, files, "PM16:SEQ:08b");
    HardenedMultiPartExactly(phases, until, table, files, "PM16:CORE1:03");
    HardenedMultiPartExactly(phases, until, table, files, "PM16:SEQ:08");
    if Parts(c) == [] {
      SinglePartKeeps(Records(phases, until), files, table, c);
    }
  }

  lemma PartsByName(c: Cell)
    ensures forall p :: p in Parts("PM16:CORE1:03") <==> p == "PM16:CORE1:03a" || p == "PM16:CORE1:03b" || p == "PM16:CORE1:03c"
    ensures forall p :: p in Parts("PM16:SEQ:08") <==> p == "PM16:SEQ:08a" || p == "PM16:SEQ:08b"
    ensures Parts("PM16:CORE1:03") != [] && Parts("PM16:SEQ:08") != []
    ensures Parts(c) == [] <==> c != "PM16:CORE1:03" && c != "PM16:SEQ:08"
  {}

  lemma SinglePartKeeps(results: seq<Rec>, files: set<Cell>, table: seq<TableRow>, c: Cell)
    requires Parts(c) == []
    ensures HardenedStatus(results, files, table, c) == OriginalStatus(results, table, c)
  {}

  /** A cell with a passing record never has a failing one: the failure is charged to a
      cell that nothing stands for yet. */
  lemma PassingRecordDecides(results: seq<Rec>, table: seq<TableRow>, c: Cell, p: Rec, r: Rec)
    requires Reachable(results) && c != HARNESS
    requires p in results && p.status == Pass && FiledUnder(table, p, c)
    requires r in results && FiledUnder(table, r, c)
    ensures r.status == Pass
  {
    hide PHASE_CELLS, Target, IsPart;
    var n: nat, phase: nat :| ReachableAs(results, n, phase);
    if r.status == Fail {
      var k :| 0 <= k < |results| && results[k] == r;
      var j :| 0 <= j < |results| && results[j] == p;
      TargetIsWhole(results[..n], phase);
      TargetIsFresh(results[..n], phase);
    }
  }

  /** What an original pass is worth, on every run: some passing record is filed under
      the cell, and nothing more. */
  lemma OriginalPassExactly(phases: seq<PhaseRun>, until: int, table: seq<TableRow>, c: Cell)
    requires Honest(phases) && c != HARNESS
    ensures var l := Records(phases, until);
            OriginalStatus(l, table, c) == Passed <==> exists r :: r in l && r.status == Pass && FiledUnder(table, r, c)
  {
    hide Records, FiledUnder;
    EveryRunReaches(phases, until);
    var l := Records(phases, until);
    if p :| p in l && p.status == Pass && FiledUnder(table, p, c) {
      forall r | r in l && FiledUnder(table, r, c)
        ensures r.status == Pass
      {
        PassingRecordDecides(l, table, c, p, r);
      }
    }
  }

  /** So the original ledger passes a multi-part cell that the hardened one does not,
      exactly when something passing is filed under it and some part has no record or no
      file; and the hardened ledger then says that evidence is missing. */
  lemma LedgersDifferExactly(phases: seq<PhaseRun>, until: int, table: seq<TableRow>, files: set<Cell>, c: Cell)
    requires Honest(phases) && WholeTable(table) && Parts(c) != []
    ensures var l := Records(phases, until);
            && HardenedStatus(l, files, table, c) != Failed
            && ((OriginalStatus(l, table, c) == Passed && HardenedStatus(l, files, table, c) != Passed)
                <==> ((exists r :: r in l && r.status == Pass && FiledUnder(table, r, c))
                      && exists p | p in Parts(c) :: p !in files || !HasRecord(l, p)))
  {
    hide PHASE_CELLS, Parts, Records, OriginalStatus, FiledUnder;
    EveryRunReaches(phases, until);
    var l := Records(phases, until);
    assert Parts(c)[0] in Parts(c);
    NotReserved(c, Parts(c)[0]);
    OriginalPassExactly(phases, until, table, c);
    forall p | p in Parts(c)
      ensures PartStatus(l, files, p) == if p in files && HasRecord(l, p) then Passed else EvidenceMissing
    {
      LastIsRecorded(l, p);
      if HasRecord(l, p) {
        RecordedPartPasses(l, table, c, p);
      }
    }
  }

  /** The run that separates the two ledgers: phase 5 records part 03a and raises. */
  function AbortedRun(): seq<PhaseRun> {
    seq(10, i => if i == 5 then PhaseRun([("PM16:CORE1:03a", "")], true) else PhaseRun([], false))
  }

  lemma AbortedRecords()
    ensures Honest(AbortedRun())
    ensures Records(AbortedRun(), 99) ==
            [Rec("PM16:CORE1:03a", Pass, ""), Rec("PM16:SEQ:06", Fail, UNEXPECTED)]
  {
    var a := AbortedRun();
    var done := [Rec("PM16:CORE1:03a", Pass, "")];
    assert [] + Passes([]) == [] && [] + Passes(a[5].emits) == done;
    assert Execute([], a, 99, 0) == Execute([], a, 99, 1) == Execute([], a, 99, 2) == Execute([], a, 99, 3)
        == Execute([], a, 99, 4) == Execute([], a, 99, 5);
    assert Execute([], a, 99, 5) == done + [Rec(Target(done, 5), Fail, UNEXPECTED)];
    assert done[0] in done && Recorded(done, "PM16:CORE1:03");
    assert !Recorded(done, "PM16:SEQ:06");
    TargetIsNext(done, 5, 1);
  }

  /** Original: pass.  Hardened: evidence missing.  The failure is charged to the cell
      after the one that was in fact incomplete. */
  lemma LedgersDiffer(table: seq<TableRow>, files: set<Cell>)
    requires WholeTable(table)
    ensures var l := Records(AbortedRun(), 99);
            && OriginalStatus(l, table, "PM16:CORE1:03") == Passed
            && HardenedStatus(l, files, table, "PM16:CORE1:03") == EvidenceMissing
  {
    AbortedRecords();
    EveryRunReaches(AbortedRun(), 99);
    var l := Records(AbortedRun(), 99);
    hide PHASE_CELLS, Execute, Records;
    assert l[0] in l;
    RecordedPartPasses(l, table, "PM16:CORE1:03", "PM16:CORE1:03a");
    forall p | p in Parts("PM16:CORE1:03")
      ensures PartStatus(l, files, p) != Failed
    {
      LastIsRecorded(l, p);
    }
    LastIsRecorded(l, "PM16:CORE1:03b");
    assert "PM16:CORE1:03b" in Parts("PM16:CORE1:03");
  }

  // -------------------------------------------------------------------- packager

  const REQUIRED_TOTAL := 64

  function RequiredRows(ledger: seq<LedgerRow>): seq<LedgerRow>
    decreases |ledger|
  {
    if ledger == [] then []
    else (if ledger[0].required then [ledger[0]] else []) + RequiredRows(ledger[1..])
  }

  function PassingRows(rows: seq<LedgerRow>): seq<LedgerRow>
    decreases |rows|
  {
    if rows == [] then []
    else (if rows[0].status == Passed then [rows[0]] else []) + PassingRows(rows[1..])
  }

  datatype Guards = Guards(preExit: string, postExit: string, preRc: int, postRc: int)

  predicate GuardsOk(g: Guards) { g.preExit == "0" && g.postExit == "0" && g.preRc == 0 && g.postRc == 0 }

  /** The packager's disposition. */
  predicate Disposition(ledger: seq<LedgerRow>, g: Guards, driverRc: int) {
    var req := RequiredRows(ledger);
    GuardsOk(g) && driverRc == 0 && |PassingRows(req)| == |req| == REQUIRED_TOTAL
  }

  lemma {:induction false} PassingIsAll(rows: seq<LedgerRow>)
    ensures |PassingRows(rows)| <= |rows|
    ensures |PassingRows(rows)| == |rows| <==> forall i | 0 <= i < |rows| :: rows[i].status == Passed
    decreases |rows|
  {
    if rows != [] {
      PassingIsAll(rows[1..]);
      assert forall i | 0 < i < |rows| :: rows[i] == rows[1..][i - 1];
    }
  }

  lemma {:induction false} RequiredIsFilter(ledger: seq<LedgerRow>)
    ensures forall r :: r in RequiredRows(ledger) <==> r in ledger && r.required
    decreases |ledger|
  {
    if ledger != [] {
      RequiredIsFilter(ledger[1..]);
      assert ledger == [ledger[0]] + ledger[1..];
    }
  }

  function RequiredCount(table: seq<TableRow>): nat
    decreases |table|
  {
    if table == [] then 0 else (if table[0].required then 1 else 0) + RequiredCount(table[1..])
  }

  lemma {:induction false} RequiredRowsCount(ledger: seq<LedgerRow>, table: seq<TableRow>)
    requires |ledger| == |table| && forall i | 0 <= i < |table| :: ledger[i].required == table[i].required
    ensures |RequiredRows(ledger)| == RequiredCount(table)
    decreases |table|
  {
    if table != [] {
      RequiredRowsCount(ledger[1..], table[1..]);
    }
  }

  /** All required rows pass, said of the filtered list and of the ledger. */
  lemma {:induction false} RequiredPass(ledger: seq<LedgerRow>)
    ensures (forall r | r in RequiredRows(ledger) :: r.status == Passed) <==>
              forall r | r in ledger && r.required :: r.status == Passed
  {
    RequiredIsFilter(ledger);
  }

  lemma {:induction false} PassingRowsPass(rows: seq<LedgerRow>)
    ensures |PassingRows(rows)| == |rows| <==> forall r | r in rows :: r.status == Passed
  {
    PassingIsAll(rows);
    assert forall i | 0 <= i < |rows| :: rows[i] in rows;
  }

  /** What the disposition asks of a ledger. */
  lemma {:induction false} DispositionMeans(ledger: seq<LedgerRow>, table: seq<TableRow>, g: Guards, driverRc: int)
    requires |ledger| == |table| && forall i | 0 <= i < |table| :: ledger[i].required == table[i].required
    ensures Disposition(ledger, g, driverRc) <==>
              && GuardsOk(g) && driverRc == 0 && RequiredCount(table) == REQUIRED_TOTAL
              && forall i | 0 <= i < |table| && table[i].required :: ledger[i].status == Passed
  {
    hide RequiredRows, PassingRows, RequiredCount;
    PassingRowsPass(RequiredRows(ledger));
    RequiredRowsCount(ledger, table);
    RequiredPass(ledger);
    forall i | 0 <= i < |ledger|
      ensures ledger[i] in ledger
    {}
  }

  /** End to end, original ledger: whatever the phases did and wherever the run was cut,
      the package passes exactly when the guards pass, nothing failed, the table has 64
      required cells, and each of them has a record. */
  lemma PackagePassesExactly(
    phases: seq<PhaseRun>, until: int, table: seq<TableRow>, ledger: seq<LedgerRow>, g: Guards, exit: int)
    requires Honest(phases) && OriginalLedger(ledger, Records(phases, until), table)
    requires exit == 0 <==> forall r | r in Records(phases, until) :: r.status == Pass
    ensures Disposition(ledger, g, exit) <==>
              && g.preExit == "0" && g.postExit == "0" && g.preRc == 0 && g.postRc == 0 && RequiredCount(table) == 64
              && (forall r | r in Records(phases, until) :: r.status == Pass)
              && forall t | t in table && t.required :: Executed(Records(phases, until), table, t.cell)
  {
    hide Disposition, Records, RequiredCount;
    DispositionMeans(ledger, table, g, exit);
    if exit == 0 {
      forall t | t in table
        ensures OriginalStatus(Records(phases, until), table, t.cell) == Passed <==>
                  Executed(Records(phases, until), table, t.cell)
      {}
      assert forall i | 0 <= i < |table| :: table[i] in table;
    }
  }

  /** End to end, hardened ledger: each part of a multi-part cell must be there too. */
  lemma HardenedPackagePassesExactly(
    phases: seq<PhaseRun>, until: int, table: seq<TableRow>, files: set<Cell>, ledger: seq<LedgerRow>, g: Guards, exit: int)
    requires Honest(phases) && WholeTable(table) && HardenedLedger(ledger, Records(phases, until), files, table)
    requires exit == 0 <==> forall r | r in Records(phases, until) :: r.status == Pass
    ensures Disposition(ledger, g, exit) <==>
              && g.preExit == "0" && g.postExit == "0" && g.preRc == 0 && g.postRc == 0 && RequiredCount(table) == 64
              && (forall r | r in Records(phases, until) :: r.status == Pass)
              && forall t | t in table && t.required ::
                   if Parts(t.cell) == [] then Executed(Records(phases, until), table, t.cell)
                   else forall p | p in Parts(t.cell) :: p in files && HasRecord(Records(phases, until), p)
  {
    hide Disposition, Records, RequiredCount, Parts, HardenedStatus, OriginalStatus, Executed;
    DispositionMeans(ledger, table, g, exit);
    if exit == 0 {
      forall t | t in table
        ensures HardenedStatus(Records(phases, until), files, table, t.cell) == Passed <==>
                  if Parts(t.cell) == [] then Executed(Records(phases, until), table, t.cell)
                  else forall p | p in Parts(t.cell) :: p in files && HasRecord(Records(phases, until), p)
      {
        if Parts(t.cell) != [] {
          HardenedMultiPartExactly(phases, until, table, files, t.cell);
        } else {
          SinglePart(Records(phases, until), files, table, t.cell);
        }
      }
      assert forall i | 0 <= i < |table| :: table[i] in table;
    }
  }

  /** Some record bears exactly this name. */
  predicate HasRecord(results: seq<Rec>, c: Cell) { exists r :: r in results && r.cell == c }

  lemma SinglePart(results: seq<Rec>, files: set<Cell>, table: seq<TableRow>, c: Cell)
    requires Parts(c) == [] && forall r | r in results :: r.status == Pass
    ensures HardenedStatus(results, files, table, c) == Passed <==> Executed(results, table, c)
  {}
}
