/**
 The certifying run: a driver that executes phases, records one row per cell, fails
 fast, and attributes an unexpected exception to the pending cell.
 */
module CertifyingRun {
  import opened Wrappers

  type Cell = string

  datatype Status = Pass | Fail

  datatype Rec = Rec(cell: Cell, status: Status, verdict: string)

  /** What a phase did: the cells it recorded as passing, and whether it then raised.
      Phases only ever call ok(), so they record no failure themselves. */
  datatype PhaseRun = PhaseRun(emits: seq<(Cell, string)>, raises: bool)

  const PHASE_CELLS: seq<seq<Cell>> := [
    ["PM16:ORACLE:01", "PM16:ORACLE:02", "PM16:ORACLE:03", "PM16:IDENTITY:01"],
    ["PM16:SEQ:17", "PM16:SEQ:01"],
    ["PM16:SEQ:02", "PM16:SEQ:03", "PM16:NEG:N09", "PM16:NEG:N23", "PM16:NEG:N17", "PM16:NEG:N03"],
    ["PM16:CORE1:01", "PM16:CORE1:02", "PM16:CORE2:01", "PM16:NEG:N11", "PM16:CORE3:01", "PM16:CORE3:02",
     "PM16:NEG:N12", "PM16:CORE3:03", "PM16:CORE3:04", "PM16:NEG:E", "PM16:CORE3:05", "PM16:CORE4:01",
     "PM16:CORE4:02", "PM16:EVENTFREE:01"],
    ["PM16:CORE2:02", "PM16:CORE2:03", "PM16:SEQ:04", "PM16:SEQ:05"],
    ["PM16:CORE1:03", "PM16:SEQ:06", "PM16:CORE1:04", "PM16:NEG:A", "PM16:NEG:N10"],
    ["PM16:CORE1B:01", "PM16:CORE1B:02", "PM16:NEG:B", "PM16:NEG:D", "PM16:NEG:C", "PM16:NEG:F", "PM16:NEG:N20",
     "PM16:NEG:N24", "PM16:SEQ:07", "PM16:SEQ:08", "PM16:CORE1:05", "PM16:EVENTFREE:02"],
    ["PM16:CORE2:04", "PM16:NEG:G", "PM16:NEG:N16"],
    ["PM16:HISTORY:01", "PM16:HISTORY:02", "PM16:HISTORY:03", "PM16:NEG:N14", "PM16:NEG:N13", "PM16:NEG:N02",
     "PM16:NEG:N04", "PM16:NEG:N05", "PM16:NEG:N08"],
    ["PM16:RECOVERY:01", "PM16:RECOVERY:02", "PM16:NEG:H", "PM16:RECOVERY:03", "PM16:G8:01"]]

  const HARNESS: Cell := "HARNESS"

  /** The name ends in a part letter, as in 03a. */
  predicate IsPart(c: Cell) { c != "" && c[|c| - 1] in "abc" }

  function Whole(c: Cell): Cell
    requires c != ""
  {
    c[..|c| - 1]
  }

  predicate Named(r: Rec) { r.cell != "" }

  /** A cell counts as recorded under its own name and, for a part, under the whole. */
  predicate Recorded(results: seq<Rec>, c: Cell) {
    exists r :: r in results && Named(r) && (r.cell == c || (IsPart(r.cell) && Whole(r.cell) == c))
  }

  /** By name: its own, or with one of the three part letters. */
  lemma RecordedByName(results: seq<Rec>, c: Cell)
    requires c != ""
    ensures Recorded(results, c) <==>
              exists r :: r in results && (r.cell == c || r.cell == c + "a" || r.cell == c + "b" || r.cell == c + "c")
  {
    forall r: Rec
      ensures r.cell != "" && IsPart(r.cell) && Whole(r.cell) == c <==>
                r.cell == c + "a" || r.cell == c + "b" || r.cell == c + "c"
    {
      if r.cell != "" && Whole(r.cell) == c {
        assert r.cell == c + [r.cell[|r.cell| - 1]];
      }
    }
  }

  /** The first listed cell of the phase that is not recorded yet. */
  function Pending(results: seq<Rec>, cells: seq<Cell>): Option<Cell>
    decreases |cells|
  {
    if cells == [] then None
    else if !Recorded(results, cells[0]) then Some(cells[0])
    else Pending(results, cells[1..])
  }

  function Passes(emits: seq<(Cell, string)>): seq<Rec> {
    seq(|emits|, i requires 0 <= i < |emits| => Rec(emits[i].0, Pass, emits[i].1))
  }

  /** The cell an unexpected exception of this phase is charged to. */
  function Target(results: seq<Rec>, phase: nat): Cell
    requires phase < |PHASE_CELLS|
  {
    var p := Pending(results, PHASE_CELLS[phase]);
    if p.Some? then p.value else HARNESS
  }

  const UNEXPECTED := "unexpected exception"

  /** Everything recorded from phase i on. */
  function Execute(done: seq<Rec>, phases: seq<PhaseRun>, until: int, i: nat): seq<Rec>
    requires i <= |phases| == |PHASE_CELLS|
    decreases |phases| - i
  {
    if i == |phases| || i > until then done
    else
      var now := done + Passes(phases[i].emits);
      if phases[i].raises then now + [Rec(Target(now, i), Fail, UNEXPECTED)]
      else Execute(now, phases, until, i + 1)
  }

  function Records(phases: seq<PhaseRun>, until: int): seq<Rec>
    requires |phases| == |PHASE_CELLS|
  {
    Execute([], phases, until, 0)
  }

  /** Phases record cells by name, and never the name reserved for the harness. */
  predicate Honest(phases: seq<PhaseRun>) {
    && |phases| == |PHASE_CELLS|
    && forall p, e | p in phases && e in p.emits :: e.0 != "" && e.0 != HARNESS
  }

  class Driver {
    var results: seq<Rec>
    var failed: bool

    constructor ()
      ensures results == [] && !failed
    {
      results, failed := [], false;
    }

    /** True when the record is a failure, which raises at once. */
    method Record(cell: Cell, status: Status, verdict: string) returns (raised: bool)
      modifies this
      ensures results == old(results) + [Rec(cell, status, verdict)]
      ensures failed == (old(failed) || status == Fail) && raised == (status == Fail)
    {
      results := results + [Rec(cell, status, verdict)];
      if status == Fail {
        failed := true;
      }
      return status == Fail;
    }

    method PendingCell(phase: nat) returns (p: Option<Cell>)
      requires phase < |PHASE_CELLS| && forall r | r in results :: Named(r)
      ensures p == Pending(results, PHASE_CELLS[phase])
    {
      var recorded: set<Cell> := {};
      var k := 0;
      while k < |results|
        invariant 0 <= k <= |results|
        invariant forall c :: c in recorded <==> Recorded(results[..k], c)
      {
        var r := results[k];
        assert results[..k + 1] == results[..k] + [r];
        assert Named(r);
        RecordedGrows(results[..k], r);
        recorded := recorded + {r.cell};
        if IsPart(r.cell) {
          recorded := recorded + {Whole(r.cell)};
        }
        k := k + 1;
      }
      assert results[..k] == results;
      var cells := PHASE_CELLS[phase];
      k := 0;
      while k < |cells|
        invariant 0 <= k <= |cells|
        invariant Pending(results, cells) == Pending(results, cells[k..])
      {
        if cells[k] !in recorded {
          return Some(cells[k]);
        }
        k := k + 1;
      }
      return None;
    }

    /** Runs phase by phase; the first exception ends the run. */
    method Run(phases: seq<PhaseRun>, until: int) returns (exit: int)
      requires Honest(phases) && results == [] && !failed
      modifies this
      ensures results == Records(phases, until)
      ensures exit == 1 <==> exists r :: r in results && r.status == Fail
      ensures exit == 0 || exit == 1
    {
      var i := 0;
      while i < |phases| && i <= until
        invariant 0 <= i <= |phases| && !failed
        invariant Records(phases, until) == Execute(results, phases, until, i)
        invariant forall r | r in results :: Named(r) && r.status == Pass
      {
        ghost var before := results;
        var emits := phases[i].emits;
        var k := 0;
        while k < |emits|
          invariant 0 <= k <= |emits| && !failed
          invariant results == before + Passes(emits[..k])
          invariant forall r | r in results :: Named(r) && r.status == Pass
        {
          assert emits[k] in phases[i].emits && phases[i] in phases;
          assert Passes(emits[..k + 1]) == Passes(emits[..k]) + [Rec(emits[k].0, Pass, emits[k].1)];
          var raised := Record(emits[k].0, Pass, emits[k].1);
          k := k + 1;
        }
        assert emits[..k] == emits;
        if phases[i].raises {
          var pending := PendingCell(i);
          var raised := Record(if pending.Some? then pending.value else HARNESS, Fail, UNEXPECTED);
          assert results[|results| - 1] in results;
          return 1;
        }
        i := i + 1;
      }
      return 0;
    }
  }

  lemma RecordedGrows(results: seq<Rec>, r: Rec)
    requires Named(r)
    ensures forall c :: Recorded(results + [r], c) <==>
              Recorded(results, c) || c == r.cell || (IsPart(r.cell) && c == Whole(r.cell))
  {}

  // ------------------------------------------------------------------ the records

  /** What every reachable record list looks like: passing records, then at most one
      failure, charged to a cell nobody had recorded. */
  ghost predicate Reachable(results: seq<Rec>) {
    exists n: nat, phase: nat :: ReachableAs(results, n, phase)
  }

  ghost predicate ReachableAs(results: seq<Rec>, n: nat, phase: nat) {
    && phase < |PHASE_CELLS|
    && n <= |results| <= n + 1
    && (forall k | 0 <= k < n :: results[k].status == Pass && Named(results[k]) && results[k].cell != HARNESS)
    && (n < |results| ==> results[n] == Rec(Target(results[..n], phase), Fail, UNEXPECTED))
  }

  lemma {:induction false} ExecuteReaches(done: seq<Rec>, phases: seq<PhaseRun>, until: int, i: nat)
    requires Honest(phases) && i <= |phases|
    requires forall r | r in done :: r.status == Pass && Named(r) && r.cell != HARNESS
    ensures Reachable(Execute(done, phases, until, i))
    decreases |phases| - i
  {
    if i == |phases| || i > until {
      assert ReachableAs(done, |done|, 0);
    } else {
      var now := done + Passes(phases[i].emits);
      forall r | r in now
        ensures r.status == Pass && Named(r) && r.cell != HARNESS
      {
        if r !in done {
          var k :| 0 <= k < |phases[i].emits| && Passes(phases[i].emits)[k] == r;
          assert phases[i] in phases && phases[i].emits[k] in phases[i].emits;
        }
      }
      if phases[i].raises {
        var all := now + [Rec(Target(now, i), Fail, UNEXPECTED)];
        assert all[..|now|] == now;
        assert ReachableAs(all, |now|, i);
      } else {
        ExecuteReaches(now, phases, until, i + 1);
      }
    }
  }

  lemma EveryRunReaches(phases: seq<PhaseRun>, until: int)
    requires Honest(phases)
    ensures Reachable(Records(phases, until))
  {
    ExecuteReaches([], phases, until, 0);
  }

  lemma {:induction false} PendingIsFirst(results: seq<Rec>, cells: seq<Cell>)
    ensures match Pending(results, cells)
            case None => forall c | c in cells :: Recorded(results, c)
            case Some(p) =>
              exists k :: 0 <= k < |cells| && cells[k] == p && !Recorded(results, p)
                          && forall j | 0 <= j < k :: Recorded(results, cells[j])
    decreases |cells|
  {
    if cells != [] && Recorded(results, cells[0]) {
      PendingIsFirst(results, cells[1..]);
      if Pending(results, cells).Some? {
        var k :| 0 <= k < |cells[1..]| && cells[1..][k] == Pending(results, cells).value
                 && forall j | 0 <= j < k :: Recorded(results, cells[1..][j]);
        assert cells[k + 1] == cells[1..][k];
        forall j | 0 <= j < k + 1
          ensures Recorded(results, cells[j])
        {
          if j > 0 {
            assert cells[j] == cells[1..][j - 1];
          }
        }
      }
    }
  }

  lemma TargetIsFresh(results: seq<Rec>, phase: nat)
    requires phase < |PHASE_CELLS|
    ensures Target(results, phase) == HARNESS || !Recorded(results, Target(results, phase))
  {
    PendingIsFirst(results, PHASE_CELLS[phase]);
  }

  /** A run records at most one failure, as its last record, on a cell that no other
      record names. */
  lemma OneFailureAndLast(phases: seq<PhaseRun>, until: int)
    requires Honest(phases)
    ensures var l := Records(phases, until);
            && (forall k | 0 <= k < |l| && l[k].status == Fail :: k == |l| - 1)
            && (forall j, k | 0 <= j < |l| && 0 <= k < |l| && l[j].cell == l[k].cell :: l[j].status == l[k].status)
  {
    hide Execute, Target, Records;
    EveryRunReaches(phases, until);
    var l := Records(phases, until);
    var n: nat, phase: nat :| ReachableAs(l, n, phase);
    if n < |l| {
      TargetIsFresh(l[..n], phase);
      forall k | 0 <= k < n
        ensures l[k].cell != l[n].cell
      {
        assert l[k] in l[..n];
      }
    }
  }

  lemma TargetIsNext(done: seq<Rec>, phase: nat, k: nat)
    requires phase < |PHASE_CELLS| && k <= |PHASE_CELLS[phase]|
    requires forall j | 0 <= j < k :: Recorded(done, PHASE_CELLS[phase][j])
    requires k < |PHASE_CELLS[phase]| ==> !Recorded(done, PHASE_CELLS[phase][k])
    ensures Target(done, phase) == if k < |PHASE_CELLS[phase]| then PHASE_CELLS[phase][k] else HARNESS
  {
    PendingIsFirst(done, PHASE_CELLS[phase]);
    var cells := PHASE_CELLS[phase];
    assert forall j | 0 <= j < |cells| :: cells[j] in cells;
  }

  // ------------------------------------------------- the ten lists name each cell once

  function Digit(c: char): int { (c as int) - ('0' as int) }

  /** Which list a listed cell is in, and where: read from the length of its name, which
      tells the families apart but for one or two letters, and from its last two signs. */
  function Place(c: Cell): (nat, nat) {
    if |c| < 10 then NOWHERE
    else
      var a, b := c[|c| - 2], c[|c| - 1];
      var n := 10 * Digit(a) + Digit(b);
      match |c|
      case 10 => if c[5] == 'G' then (9, 4) else LetterPlace(b)
      case 11 => SequencePlace(n)
      case 12 => NegativePlace(n)
      case 13 => CorePlace(Digit(c[9]), n)
      case 14 => if c[5] == 'O' then Among([(0, 0), (0, 1), (0, 2)], n) else Among([(6, 0), (6, 1)], n)
      case 15 => Among([(8, 0), (8, 1), (8, 2)], n)
      case 16 => if c[5] == 'I' then (0, 3) else Among([(9, 0), (9, 1), (9, 3)], n)
      case 17 => Among([(3, 13), (6, 11)], n)
      case _ => NOWHERE
  }

  const NOWHERE: (nat, nat) := (10, 0)

  /** The n-th of these, counted from 1. */
  function Among(places: seq<(nat, nat)>, n: int): (nat, nat) {
    if 1 <= n <= |places| then places[n - 1] else NOWHERE
  }

  function SequencePlace(n: int): (nat, nat) {
    if n == 17 then (1, 0)
    else Among([(1, 1), (2, 0), (2, 1), (4, 2), (4, 3), (5, 1), (6, 8), (6, 9)], n)
  }

  function NegativePlace(n: int): (nat, nat) {
    match n
    case 2 => (8, 5) case 3 => (2, 5) case 4 => (8, 6) case 5 => (8, 7)
    case 8 => (8, 8) case 9 => (2, 2) case 10 => (5, 4) case 11 => (3, 3)
    case 12 => (3, 6) case 13 => (8, 4) case 14 => (8, 3) case 16 => (7, 2)
    case 17 => (2, 4) case 20 => (6, 6) case 23 => (2, 3) case 24 => (6, 7)
    case _ => NOWHERE
  }

  function LetterPlace(b: char): (nat, nat) {
    match b
    case 'A' => (5, 3) case 'B' => (6, 2) case 'C' => (6, 4) case 'D' => (6, 3)
    case 'E' => (3, 9) case 'F' => (6, 5) case 'G' => (7, 1) case 'H' => (9, 2)
    case _ => NOWHERE
  }

  function CorePlace(core: int, n: int): (nat, nat) {
    match core
    case 1 => Among([(3, 0), (3, 1), (5, 0), (5, 2), (6, 10)], n)
    case 2 => Among([(3, 2), (4, 0), (4, 1), (7, 0)], n)
    case 3 => Among([(3, 4), (3, 5), (3, 7), (3, 8), (3, 10)], n)
    case 4 => Among([(3, 11), (3, 12)], n)
    case _ => NOWHERE
  }

  lemma EarlyPlaces(phase: nat, k: nat)
    requires phase < 3 && k < |PHASE_CELLS[phase]|
    ensures Place(PHASE_CELLS[phase][k]) == (phase, k)
  {
    match phase {
      case 0 => assert PHASE_CELLS[phase] == PHASE_CELLS[0];
      case 1 => assert PHASE_CELLS[phase] == PHASE_CELLS[1];
      case 2 => assert PHASE_CELLS[phase] == PHASE_CELLS[2];
    }
  }

  lemma MiddlePlaces(phase: nat, k: nat)
    requires 3 <= phase < 5 && k < |PHASE_CELLS[phase]|
    ensures Place(PHASE_CELLS[phase][k]) == (phase, k)
  {
    match phase {
      case 3 => assert PHASE_CELLS[phase] == PHASE_CELLS[3];
      case 4 => assert PHASE_CELLS[phase] == PHASE_CELLS[4];
    }
  }

  lemma UpperPlaces(phase: nat, k: nat)
    requires 5 <= phase < 7 && k < |PHASE_CELLS[phase]|
    ensures Place(PHASE_CELLS[phase][k]) == (phase, k)
  {
    match phase {
      case 5 => assert PHASE_CELLS[phase] == PHASE_CELLS[5];
      case 6 => assert PHASE_CELLS[phase] == PHASE_CELLS[6];
    }
  }

  lemma LatePlaces(phase: nat, k: nat)
    requires 7 <= phase < 10 && k < |PHASE_CELLS[phase]|
    ensures Place(PHASE_CELLS[phase][k]) == (phase, k)
  {
    match phase {
      case 7 => assert PHASE_CELLS[phase] == PHASE_CELLS[7];
      case 8 => assert PHASE_CELLS[phase] == PHASE_CELLS[8];
      case 9 => assert PHASE_CELLS[phase] == PHASE_CELLS[9];
    }
  }

  lemma PlaceOfListed(phase: nat, k: nat)
    requires phase < |PHASE_CELLS| && k < |PHASE_CELLS[phase]|
    ensures Place(PHASE_CELLS[phase][k]) == (phase, k)
  {
    hide Place;
    if phase < 3 {
      EarlyPlaces(phase, k);
    } else if phase < 5 {
      MiddlePlaces(phase, k);
    } else if phase < 7 {
      UpperPlaces(phase, k);
    } else {
      LatePlaces(phase, k);
    }
  }

  /** No part is ever listed. */
  lemma ListedCellsAreWhole(phase: nat, k: nat)
    requires phase < |PHASE_CELLS| && k < |PHASE_CELLS[phase]|
    ensures !IsPart(PHASE_CELLS[phase][k]) && PHASE_CELLS[phase][k] != ""
  {}

  // ------------------------------------------------------------ where a failure lands

  /** A record of this name counts for the cell. */
  predicate StandsFor(name: Cell, c: Cell) { name != "" && (name == c || (IsPart(name) && Whole(name) == c)) }

  predicate Covers(emits: seq<(Cell, string)>, c: Cell) { exists e :: e in emits && StandsFor(e.0, c) }

  predicate Listed(phase: nat, name: Cell)
    requires phase < |PHASE_CELLS|
  {
    exists k :: 0 <= k < |PHASE_CELLS[phase]| && StandsFor(name, PHASE_CELLS[phase][k])
  }

  /** The phases up to i record cells of their own lists, or parts of them, and of these
      only phase i raises. */
  predicate RaisesFirst(phases: seq<PhaseRun>, i: nat) {
    && i < |phases| == |PHASE_CELLS| && phases[i].raises
    && (forall h | 0 <= h < i :: !phases[h].raises)
    && (forall h, e | 0 <= h <= i && e in phases[h].emits :: Listed(h, e.0))
  }

  /** What the first n phases record. */
  function Emitted(phases: seq<PhaseRun>, n: nat): seq<Rec>
    requires n <= |phases|
  {
    if n == 0 then [] else Emitted(phases, n - 1) + Passes(phases[n - 1].emits)
  }

  lemma {:induction false} ExecuteTo(phases: seq<PhaseRun>, until: int, i: nat, n: nat)
    requires RaisesFirst(phases, i) && n <= i <= until
    ensures Records(phases, until) == Execute(Emitted(phases, n), phases, until, n)
    decreases n
  {
    if n > 0 {
      ExecuteTo(phases, until, i, n - 1);
    }
  }

  /** A name stands for at most one listed cell. */
  lemma StandsForOne(name: Cell, i: nat, k: nat, h: nat, j: nat)
    requires i < |PHASE_CELLS| && k < |PHASE_CELLS[i]| && StandsFor(name, PHASE_CELLS[i][k])
    requires h < |PHASE_CELLS| && j < |PHASE_CELLS[h]| && StandsFor(name, PHASE_CELLS[h][j])
    ensures i == h && k == j
  {
    hide PHASE_CELLS, IsPart, Place;
    PlaceOfListed(i, k);
    PlaceOfListed(h, j);
    ListedCellsAreWhole(i, k);
    ListedCellsAreWhole(h, j);
  }

  lemma PassesRecord(done: seq<Rec>, emits: seq<(Cell, string)>, c: Cell)
    ensures Recorded(done + Passes(emits), c) <==> Recorded(done, c) || Covers(emits, c)
  {
    hide IsPart;
    var more := done + Passes(emits);
    if Covers(emits, c) {
      var e :| e in emits && StandsFor(e.0, c);
      var k :| 0 <= k < |emits| && emits[k] == e;
      assert more[|done| + k] == Rec(e.0, Pass, e.1) && more[|done| + k] in more;
    }
    if Recorded(done, c) {
      var r :| r in done && Named(r) && StandsFor(r.cell, c);
      assert r in more;
    }
    if Recorded(more, c) {
      var r :| r in more && Named(r) && StandsFor(r.cell, c);
      if r !in done {
        var k :| 0 <= k < |emits| && Passes(emits)[k] == r;
        assert emits[k] in emits;
      }
    }
  }

  /** Earlier phases record nothing for the cells of phase i. */
  lemma {:induction false} EarlierPhasesCoverNothing(phases: seq<PhaseRun>, i: nat, n: nat, k: nat)
    requires RaisesFirst(phases, i) && n <= i && k < |PHASE_CELLS[i]|
    ensures !Recorded(Emitted(phases, n), PHASE_CELLS[i][k])
    decreases n
  {
    hide PHASE_CELLS, StandsFor;
    if n > 0 {
      var emits := phases[n - 1].emits;
      EarlierPhasesCoverNothing(phases, i, n - 1, k);
      PassesRecord(Emitted(phases, n - 1), emits, PHASE_CELLS[i][k]);
      if e :| e in emits && StandsFor(e.0, PHASE_CELLS[i][k]) {
        assert Listed(n - 1, e.0);
        var j :| 0 <= j < |PHASE_CELLS[n - 1]| && StandsFor(e.0, PHASE_CELLS[n - 1][j]);
        StandsForOne(e.0, i, k, n - 1, j);
      }
    }
  }

  /** Where the failure of phase i lands: on its k-th cell exactly if the phase itself had
      recorded the cells before it and not this one, and on the harness exactly if it had
      recorded its whole list. */
  predicate LandsRight(failure: Rec, emits: seq<(Cell, string)>, cells: seq<Cell>) {
    && failure.status == Fail && failure.verdict == UNEXPECTED
    && (forall k | 0 <= k < |cells| ::
          failure.cell == cells[k] <==> !Covers(emits, cells[k]) && forall j | 0 <= j < k :: Covers(emits, cells[j]))
    && (failure.cell == HARNESS <==> forall k | 0 <= k < |cells| :: Covers(emits, cells[k]))
  }

  /** In every run whose phases keep to their lists, the first exception ends the records
      with one failure that lands exactly there; everything before it passes. */
  lemma FailureLandsOnNextCell(phases: seq<PhaseRun>, until: int, i: nat)
    requires RaisesFirst(phases, i) && i <= until
    ensures var l := Records(phases, until);
            && l != [] && l[..|l| - 1] == Emitted(phases, i + 1)
            && LandsRight(l[|l| - 1], phases[i].emits, PHASE_CELLS[i])
  {
    hide PHASE_CELLS, Place, Pending, Covers;
    ExecuteTo(phases, until, i, i);
    var now, cells, emits := Emitted(phases, i + 1), PHASE_CELLS[i], phases[i].emits;
    var l := Records(phases, until);
    var t := Target(now, i);
    assert l == now + [Rec(t, Fail, UNEXPECTED)];
    assert l[..|l| - 1] == now;
    forall k | 0 <= k < |cells|
      ensures Recorded(now, cells[k]) <==> Covers(emits, cells[k])
    {
      EarlierPhasesCoverNothing(phases, i, i, k);
      PassesRecord(Emitted(phases, i), emits, cells[k]);
    }
    PendingLandsRight(now, emits, i);
  }

  lemma PendingLandsRight(now: seq<Rec>, emits: seq<(Cell, string)>, i: nat)
    requires i < |PHASE_CELLS|
    requires forall k | 0 <= k < |PHASE_CELLS[i]| :: Recorded(now, PHASE_CELLS[i][k]) <==> Covers(emits, PHASE_CELLS[i][k])
    ensures LandsRight(Rec(Target(now, i), Fail, UNEXPECTED), emits, PHASE_CELLS[i])
  {
    hide PHASE_CELLS, Covers, Recorded, Place;
    var cells, t := PHASE_CELLS[i], Target(now, i);
    PendingIsFirst(now, cells);
    HarnessIsNowhere();
    forall k | 0 <= k < |cells|
      ensures Place(cells[k]) == (i, k) && cells[k] != HARNESS && cells[k] in cells
    {
      PlaceOfListed(i, k);
    }
    if Pending(now, cells).Some? {
      var k :| 0 <= k < |cells| && cells[k] == t && !Recorded(now, t) && forall j | 0 <= j < k :: Recorded(now, cells[j]);
    }
  }

  lemma HarnessIsNowhere()
    ensures Place(HARNESS) == NOWHERE && NOWHERE.0 == |PHASE_CELLS|
  {}

  // --------------------------------------------------------------- cutting the run

  /** How many phases have an index of at most until. */
  function PhasesUpTo(until: int): nat {
    if until < 0 then 0 else if until < |PHASE_CELLS| then until + 1 else |PHASE_CELLS|
  }

  lemma {:induction false} ExecuteRest(phases: seq<PhaseRun>, until: int, i: nat)
    requires |phases| == |PHASE_CELLS| && i <= PhasesUpTo(until)
    requires forall h | 0 <= h <= until && h < |phases| :: !phases[h].raises
    ensures Execute(Emitted(phases, i), phases, until, i) == Emitted(phases, PhasesUpTo(until))
    decreases PhasesUpTo(until) - i
  {
    hide PHASE_CELLS;
    if i < PhasesUpTo(until) {
      ExecuteRest(phases, until, i + 1);
    }
  }

  /** When no phase up to the cut raises, the records are exactly what these phases
      emit, in order. */
  lemma CutRecords(phases: seq<PhaseRun>, until: int)
    requires |phases| == |PHASE_CELLS|
    requires forall h | 0 <= h <= until && h < |phases| :: !phases[h].raises
    ensures Records(phases, until) == Emitted(phases, PhasesUpTo(until))
  {
    ExecuteRest(phases, until, 0);
  }

  lemma {:induction false} SameExecution(done: seq<Rec>, phases: seq<PhaseRun>, others: seq<PhaseRun>, until: int, i: nat)
    requires i <= |phases| == |PHASE_CELLS| == |others|
    requires forall h | 0 <= h <= until && h < |phases| :: phases[h] == others[h]
    ensures Execute(done, phases, until, i) == Execute(done, others, until, i)
    decreases |phases| - i
  {
    hide PHASE_CELLS;
    if i < |phases| && i <= until {
      SameExecution(done + Passes(phases[i].emits), phases, others, until, i + 1);
    }
  }

  /** What the phases beyond the cut would do never matters, to the records or to the
      exit code. */
  lemma BeyondTheCut(phases: seq<PhaseRun>, others: seq<PhaseRun>, until: int)
    requires |phases| == |PHASE_CELLS| == |others|
    requires forall h | 0 <= h <= until && h < |phases| :: phases[h] == others[h]
    ensures Records(phases, until) == Records(others, until)
  {
    SameExecution([], phases, others, until, 0);
  }
}
