/**
 Migration 0007: from uniqueness over all narrative rows, tombstones included, to
 uniqueness over active rows only, and back.  DDL is not transactional here, so a
 statement that fails leaves the statements before it in force.
 */
module NarrativeUniqueness {
  import opened Wrappers

  type Id = string

  datatype Item = Item(parent: Option<Id>, position: Option<int>, deletedAt: Option<string>, rest: string)

  type Rows = map<Id, Item>

  /** A uniqueness rule on (parent, position), or none while one is being swapped. */
  datatype Rule = NoRule | Global | ActiveOnly | ActiveAssigned

  datatype Table = Table(rows: Rows, rule: Rule)

  datatype Narrative = Narrative(sequences: Table, scenes: Table, shots: Table)

  datatype Which = Sequences | Scenes | Shots

  predicate Covers(rule: Rule, r: Item) {
    match rule
    case NoRule => false
    case Global => true
    case ActiveOnly => r.deletedAt.None?
    case ActiveAssigned => r.deletedAt.None? && r.parent.Some?
  }

  /** SQLite's unique indexes treat NULLs as distinct from each other. */
  predicate Clash(rule: Rule, a: Item, b: Item) {
    && Covers(rule, a) && Covers(rule, b)
    && a.parent.Some? && a.position.Some? && a.parent == b.parent && a.position == b.position
  }

  predicate Admits(rule: Rule, rows: Rows) {
    forall i, j | i in rows && j in rows && i != j :: !Clash(rule, rows[i], rows[j])
  }

  /** No two of these rows are at one place. */
  predicate NoneShared(rows: Rows, activeOnly: bool) {
    forall i, j | i in rows && j in rows && i != j && (activeOnly ==> rows[i].deletedAt.None? && rows[j].deletedAt.None?) ::
      rows[i].parent.None? || rows[i].position.None? || rows[i].parent != rows[j].parent || rows[i].position != rows[j].position
  }

  /** Under 0007 two active rows never share a place, whatever tombstones do; under 0006
      no two rows do.  A row without a parent or a position is at no place. */
  lemma RulesMean(rows: Rows)
    ensures Admits(ActiveOnly, rows) <==> NoneShared(rows, true)
    ensures Admits(ActiveAssigned, rows) <==> NoneShared(rows, true)
    ensures Admits(Global, rows) <==> NoneShared(rows, false)
    ensures Admits(NoRule, rows)
  {
    forall i, j | i in rows && j in rows && i != j
      ensures !Clash(NoRule, rows[i], rows[j])
      ensures Clash(ActiveOnly, rows[i], rows[j]) <==> Clash(ActiveAssigned, rows[i], rows[j])
    {}
  }

  /** NOT NULL and CHECK of sequences and scenes. */
  predicate PlacedRow(r: Item) { r.parent.Some? && r.position.Some? && r.position.value >= 0 }

  /** The pair CHECK of migration 0006 on shots. */
  predicate PairedRow(r: Item) {
    (r.parent.None? <==> r.position.None?) && (r.position.Some? ==> r.position.value >= 0)
  }

  predicate RowsChecked(n: Narrative) {
    && (forall i | i in n.sequences.rows :: PlacedRow(n.sequences.rows[i]))
    && (forall i | i in n.scenes.rows :: PlacedRow(n.scenes.rows[i]))
    && (forall i | i in n.shots.rows :: PairedRow(n.shots.rows[i]))
  }

  /** Every rule in force holds of the rows. */
  predicate RulesHold(n: Narrative) {
    Admits(n.sequences.rule, n.sequences.rows) && Admits(n.scenes.rule, n.scenes.rows)
    && Admits(n.shots.rule, n.shots.rows)
  }

  function WithRules(n: Narrative, rule: Rule, shotRule: Rule): Narrative {
    Narrative(n.sequences.(rule := rule), n.scenes.(rule := rule), n.shots.(rule := shotRule))
  }

  predicate At0006(n: Narrative) {
    RowsChecked(n) && RulesHold(n) && n == WithRules(n, Global, Global)
  }

  predicate At0007(n: Narrative) {
    RowsChecked(n) && RulesHold(n) && n == WithRules(n, ActiveOnly, ActiveAssigned)
  }

  /** 0006 can hold these rows. */
  predicate Representable(n: Narrative) {
    Admits(Global, n.sequences.rows) && Admits(Global, n.scenes.rows) && Admits(Global, n.shots.rows)
  }

  // ------------------------------------------------------------------------ DDL

  datatype Ddl = DropRule(w: Which) | AddRule(w: Which, rule: Rule)

  function Get(n: Narrative, w: Which): Table {
    match w case Sequences => n.sequences case Scenes => n.scenes case Shots => n.shots
  }

  function Set(n: Narrative, w: Which, t: Table): Narrative {
    match w
    case Sequences => n.(sequences := t)
    case Scenes => n.(scenes := t)
    case Shots => n.(shots := t)
  }

  /** One statement: creating a rule fails on rows that break it. */
  function Apply(n: Narrative, d: Ddl): Option<Narrative> {
    match d
    case DropRule(w) => Some(Set(n, w, Get(n, w).(rule := NoRule)))
    case AddRule(w, rule) =>
      if Admits(rule, Get(n, w).rows) then Some(Set(n, w, Get(n, w).(rule := rule))) else None
  }

  /** Statements run until one fails; the answer says whether all succeeded. */
  function RunDdl(n: Narrative, script: seq<Ddl>): (Narrative, bool)
    decreases |script|
  {
    if script == [] then (n, true)
    else match Apply(n, script[0])
      case None => (n, false)
      case Some(next) => RunDdl(next, script[1..])
  }

  const UPGRADE_0007: seq<Ddl> := [
    DropRule(Sequences), AddRule(Sequences, ActiveOnly),
    DropRule(Scenes), AddRule(Scenes, ActiveOnly),
    DropRule(Shots), AddRule(Shots, ActiveAssigned)]

  const DOWNGRADE_0007: seq<Ddl> := [
    DropRule(Shots), AddRule(Shots, Global),
    DropRule(Scenes), AddRule(Scenes, Global),
    DropRule(Sequences), AddRule(Sequences, Global)]

  /** Every 0006 state upgrades: rows untouched, only the rules change. */
  lemma UpgradeNeverFails(n: Narrative)
    requires At0006(n)
    ensures RunDdl(n, UPGRADE_0007) == (WithRules(n, ActiveOnly, ActiveAssigned), true)
    ensures At0007(RunDdl(n, UPGRADE_0007).0)
  {}

  /** The downgrade script alone succeeds exactly on representable rows; on any other
      it stops half way, in a schema that is neither 0006 nor 0007. */
  lemma DowngradeScript(n: Narrative)
    requires At0007(n)
    ensures RunDdl(n, DOWNGRADE_0007).1 <==> Representable(n)
    ensures Representable(n) ==> RunDdl(n, DOWNGRADE_0007).0 == WithRules(n, Global, Global)
    ensures !Representable(n) ==> !At0006(RunDdl(n, DOWNGRADE_0007).0) && !At0007(RunDdl(n, DOWNGRADE_0007).0)
  {}

  // ------------------------------------------------------------------ preflight

  type Coordinate = (Option<Id>, Option<int>)

  /** The coordinates GROUP BY ... HAVING COUNT(*) > 1 returns.  GROUP BY puts all
      NULLs of a column in one group. */
  function Crowded(rows: Rows, assignedOnly: bool): set<Coordinate> {
    set i, j | i in rows && j in rows && i != j
               && rows[i].parent == rows[j].parent && rows[i].position == rows[j].position
               && (assignedOnly ==> rows[i].parent.Some?) :: (rows[i].parent, rows[i].position)
  }

  /** The three checks: only shots restrict themselves to assigned rows. */
  function CrowdedIn(n: Narrative, w: Which): set<Coordinate> {
    Crowded(Get(n, w).rows, w == Shots)
  }

  predicate PreflightPasses(n: Narrative) {
    CrowdedIn(n, Sequences) == {} && CrowdedIn(n, Scenes) == {} && CrowdedIn(n, Shots) == {}
  }

  /** Grouping finds something exactly when a global unique index would fail, given
      that an assigned row has a position. */
  lemma GroupingIsUniqueness(rows: Rows, assignedOnly: bool)
    requires forall i | i in rows :: rows[i].parent.Some? ==> rows[i].position.Some?
    requires !assignedOnly ==> forall i | i in rows :: rows[i].parent.Some?
    ensures Crowded(rows, assignedOnly) == {} <==> Admits(Global, rows)
  {
    if Crowded(rows, assignedOnly) == {} {
      forall i, j | i in rows && j in rows && i != j
        ensures !Clash(Global, rows[i], rows[j])
      {
        assert (rows[i].parent, rows[i].position) !in Crowded(rows, assignedOnly);
      }
    } else {
      var c :| c in Crowded(rows, assignedOnly);
      var i, j :| i in rows && j in rows && i != j
                  && rows[i].parent == rows[j].parent && rows[i].position == rows[j].position
                  && (assignedOnly ==> rows[i].parent.Some?) && c == (rows[i].parent, rows[i].position);
      assert Clash(Global, rows[i], rows[j]);
    }
  }

  /** The preflight is exact. */
  lemma PreflightIsExact(n: Narrative)
    requires RowsChecked(n)
    ensures PreflightPasses(n) <==> Representable(n)
  {
    GroupingIsUniqueness(n.sequences.rows, false);
    GroupingIsUniqueness(n.scenes.rows, false);
    GroupingIsUniqueness(n.shots.rows, true);
  }

  /** Without the pair CHECK the preflight refuses rows that 0006 could hold: two
      assigned shots without a position are one group but two distinct index keys. */
  lemma PairCheckIsNeeded(i: Id, j: Id, scene: Id, rest: string)
    requires i != j
    ensures var unplaced := Item(Some(scene), None, None, rest);
            var n := WithRules(Narrative(Table(map[], NoRule), Table(map[], NoRule),
                                         Table(map[i := unplaced, j := unplaced], NoRule)), ActiveOnly, ActiveAssigned);
            RulesHold(n) && Representable(n) && !PreflightPasses(n)
  {
    var unplaced := Item(Some(scene), None, None, rest);
    var rows: Rows := map[i := unplaced, j := unplaced];
    assert rows[i] == rows[j] && (rows[i].parent, rows[i].position) in Crowded(rows, true);
  }

  /** Without the WHERE clause it would refuse as soon as two shots are unassigned. */
  lemma AssignedFilterIsNeeded(i: Id, j: Id, rest: string)
    requires i != j
    ensures var rows: Rows := map[i := Item(None, None, None, rest), j := Item(None, None, None, rest)];
            Admits(Global, rows) && Crowded(rows, true) == {} && Crowded(rows, false) != {}
  {
    var rows: Rows := map[i := Item(None, None, None, rest), j := Item(None, None, None, rest)];
    assert rows[i] == rows[j] && (rows[i].parent, rows[i].position) in Crowded(rows, false);
  }

  // -------------------------------------------------------------------- in place

  datatype Outcome = Migrated | Refused | Broken

  /** What downgrade does, script and preflight together. */
  function Downgrade(n: Narrative): (Narrative, Outcome) {
    if !PreflightPasses(n) then (n, Refused)
    else
      var (n', ok) := RunDdl(n, DOWNGRADE_0007);
      (n', if ok then Migrated else Broken)
  }

  /** The downgrade never breaks the schema: it either restores 0006 over the same
      rows, or refuses and changes nothing; it refuses exactly unrepresentable rows. */
  lemma DowngradeIsAllOrNothing(n: Narrative)
    requires At0007(n)
    ensures Downgrade(n) ==
            if Representable(n) then (WithRules(n, Global, Global), Migrated) else (n, Refused)
    ensures Representable(n) ==> At0006(Downgrade(n).0)
  {
    PreflightIsExact(n);
    DowngradeScript(n);
  }

  /** Upgrade, then downgrade, is the identity. */
  lemma UpgradeThenDowngrade(n: Narrative)
    requires At0006(n)
    ensures Downgrade(RunDdl(n, UPGRADE_0007).0) == (n, Migrated)
  {
    UpgradeNeverFails(n);
    DowngradeIsAllOrNothing(WithRules(n, ActiveOnly, ActiveAssigned));
  }

  class NarrativeStore {
    var sequences: Table
    var scenes: Table
    var shots: Table

    function Value(): Narrative
      reads this
    {
      Narrative(sequences, scenes, shots)
    }

    constructor (n: Narrative)
      ensures Value() == n
    {
      sequences, scenes, shots := n.sequences, n.scenes, n.shots;
    }

    method Execute(d: Ddl) returns (ok: bool)
      modifies this
      ensures ok <==> Apply(old(Value()), d).Some?
      ensures Value() == if ok then Apply(old(Value()), d).value else old(Value())
    {
      match d {
        case DropRule(Sequences) => sequences := sequences.(rule := NoRule);
        case DropRule(Scenes) => scenes := scenes.(rule := NoRule);
        case DropRule(Shots) => shots := shots.(rule := NoRule);
        case AddRule(w, rule) =>
          var rows := match w case Sequences => sequences.rows case Scenes => scenes.rows case Shots => shots.rows;
          if !Admits(rule, rows) {
            return false;
          }
          match w {
            case Sequences => sequences := sequences.(rule := rule);
            case Scenes => scenes := scenes.(rule := rule);
            case Shots => shots := shots.(rule := rule);
          }
      }
      return true;
    }

    method ExecuteAll(script: seq<Ddl>) returns (ok: bool)
      modifies this
      ensures (Value(), ok) == RunDdl(old(Value()), script)
    {
      var i := 0;
      ok := true;
      while i < |script|
        invariant 0 <= i <= |script|
        invariant RunDdl(old(Value()), script) == RunDdl(Value(), script[i..])
      {
        ok := Execute(script[i]);
        if !ok {
          return;
        }
        i := i + 1;
      }
    }

    method UpgradeTo0007() returns (ok: bool)
      requires At0006(Value())
      modifies this
      ensures ok && Value() == WithRules(old(Value()), ActiveOnly, ActiveAssigned) && At0007(Value())
    {
      UpgradeNeverFails(Value());
      ok := ExecuteAll(UPGRADE_0007);
    }

    /** One query per table; every table with crowded coordinates is reported. */
    method PreflightDowngradeRepresentable() returns (collisions: seq<(Which, set<Coordinate>)>)
      ensures collisions == [] <==> PreflightPasses(Value())
      ensures forall w :: (exists c :: c in collisions && c.0 == w) <==> CrowdedIn(Value(), w) != {}
      ensures forall c | c in collisions :: c.1 == CrowdedIn(Value(), c.0)
    {
      var checks := [Sequences, Scenes, Shots];
      collisions := [];
      var k := 0;
      while k < |checks|
        invariant 0 <= k <= |checks|
        invariant forall c | c in collisions :: c.1 == CrowdedIn(Value(), c.0) && c.1 != {} && c.0 in checks[..k]
        invariant forall w | w in checks[..k] && CrowdedIn(Value(), w) != {} ::
            (w, CrowdedIn(Value(), w)) in collisions
      {
        var rows := CrowdedIn(Value(), checks[k]);
        if rows != {} {
          collisions := collisions + [(checks[k], rows)];
        }
        k := k + 1;
      }
      assert checks[..k] == checks;
      assert Sequences in checks && Scenes in checks && Shots in checks;
      if collisions != [] {
        assert collisions[0] in collisions;
      }
    }

    method DowngradeTo0006() returns (r: Outcome)
      requires At0007(Value())
      modifies this
      ensures (Value(), r) == Downgrade(old(Value()))
      ensures r == (if Representable(old(Value())) then Migrated else Refused)
    {
      DowngradeIsAllOrNothing(Value());
      var collisions := PreflightDowngradeRepresentable();
      if collisions != [] {
        return Refused;
      }
      var ok := ExecuteAll(DOWNGRADE_0007);
      return if ok then Migrated else Broken;
    }
  }
}
