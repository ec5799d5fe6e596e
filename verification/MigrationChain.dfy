/**
 The migration chain between heads 0006 and 0012, and the 0015 step on its own: each
 downgrade is a preflight over the data followed by DDL that destroys the rows of
 every table it drops.
 */
module MigrationChain {
  import opened Wrappers
  import opened NarrativeUniqueness
  import opened SchemaVersions

  datatype Name =
    // 0008
    | ContinuityFeatures | ContinuityFeatureTransitions | ContinuityPredicates | ContinuityRelations
    | ContinuityRelationTransitions | ShotRevisionFeatureStates | ShotRevisionRelationStates
    // 0009
    | VisualFacets | VisualFacetValuePolicies | VisualAnchors | VisualAnchorItems | VisualAnchorRevisions
    | VisualAnchorRevisionItems | ShotRevisionVisualAnchors | ShotRevisionVisualAnchorItems
    // 0010
    | ShotRevisionSpatialPlans | ShotRevisionSpatialTrackStates | ShotRevisionSpatialWorlds
    | SpatialWorldRevisionAxes | SpatialWorldRevisionFrames | SpatialWorldRevisions | ShotSpatialPlans
    | SpatialTransitions | SpatialTracks | SpatialWorldStateAxes | SpatialWorldStateFrames | SpatialAxes
    | SpatialFrames | SpatialWorldStates | SpatialWorlds
    // 0011
    | GenerationDerivedSpatialInputs | DerivedSpatialArtifacts
    // 0012
    | ProductionRevisionSourceAssets | ProductionRevisionClosures | ProductionRevisions | ProductionObjects
    // 0015
    | GenerationDerivedObservationInputs | DerivedObservationArtifacts

  /** A stored row, soft-delete mark included. */
  type Record = string

  datatype Database = Database(
    head: int,
    narrative: Narrative,
    tables: map<Name, map<Id, Record>>,
    revisions: map<Id, Revision>,
    specs: map<Id, Payload>)

  /** The tables whose emptiness the preflight of a head demands, in its order. */
  function Demanded(head: int): seq<Name> {
    if head == 8 then
      [ContinuityFeatures, ContinuityFeatureTransitions, ContinuityPredicates, ContinuityRelations,
       ContinuityRelationTransitions, ShotRevisionFeatureStates, ShotRevisionRelationStates]
    else if head == 9 then
      [VisualFacets, VisualFacetValuePolicies, VisualAnchors, VisualAnchorItems, VisualAnchorRevisions,
       VisualAnchorRevisionItems, ShotRevisionVisualAnchors, ShotRevisionVisualAnchorItems]
    else if head == 10 then
      [ShotRevisionSpatialPlans, ShotRevisionSpatialTrackStates, ShotRevisionSpatialWorlds,
       SpatialWorldRevisionAxes, SpatialWorldRevisionFrames, SpatialWorldRevisions, ShotSpatialPlans,
       SpatialTransitions, SpatialTracks, SpatialWorldStateAxes, SpatialWorldStateFrames, SpatialAxes,
       SpatialFrames, SpatialWorldStates, SpatialWorlds]
    else if head == 11 then [GenerationDerivedSpatialInputs, DerivedSpatialArtifacts]
    else if head == 12 then
      [ProductionRevisionSourceAssets, ProductionRevisionClosures, ProductionRevisions, ProductionObjects]
    else if head == 15 then [GenerationDerivedObservationInputs, DerivedObservationArtifacts]
    else []
  }

  /** The tables its DDL drops, children before parents. */
  function Dropped(head: int): seq<Name> {
    if head == 8 then
      [ShotRevisionRelationStates, ShotRevisionFeatureStates, ContinuityRelationTransitions,
       ContinuityRelations, ContinuityPredicates, ContinuityFeatureTransitions, ContinuityFeatures]
    else if head == 9 then
      [ShotRevisionVisualAnchorItems, ShotRevisionVisualAnchors, VisualAnchorRevisionItems,
       VisualAnchorRevisions, VisualAnchorItems, VisualAnchors, VisualFacetValuePolicies, VisualFacets]
    else Demanded(head)
  }

  function Names(ts: seq<Name>): set<Name> { set t | t in ts }

  function EmptyTables(ts: seq<Name>): map<Name, map<Id, Record>> { map t | t in Names(ts) :: map[] }

  /** The tables of this chain that exist at a head. */
  function TablesAt(head: int): set<Name>
    requires 6 <= head <= 12
    decreases head
  {
    if head <= 7 then {} else TablesAt(head - 1) + Names(Dropped(head))
  }

  predicate WellFormed(db: Database) {
    && 6 <= db.head <= 12
    && db.tables.Keys == TablesAt(db.head)
    && (if db.head == 6 then At0006(db.narrative) else At0007(db.narrative))
    && (forall i | i in db.revisions :: !db.revisions[i].snapshot.SqlNull?)
  }

  // ------------------------------------------------------------------ the steps

  predicate AllEmpty(db: Database, ts: seq<Name>) {
    forall t | t in ts :: t in db.tables ==> db.tables[t] == map[]
  }

  /** The part of a preflight that reads captured documents. */
  predicate VersionsClear(db: Database, head: int) {
    if head == 8 then forall i | i in db.revisions :: Clears0008(db.revisions[i])
    else if head == 9 then forall i | i in db.revisions :: Clears0009(db.revisions[i].snapshot)
    else if head == 10 then
      (forall i | i in db.revisions :: Clears0010(db.revisions[i].snapshot))
      && (forall i | i in db.specs :: SpecClears0010(db.specs[i]))
    else if head == 11 then forall i | i in db.specs :: SpecClears0010(db.specs[i])
    else if head == 15 then forall i | i in db.specs :: SpecClears0015(db.specs[i])
    else true
  }

  /** The downgrade of one head above 0007: preflight, then drops. */
  function DropDown(db: Database): (Database, Outcome) {
    if AllEmpty(db, Demanded(db.head)) && VersionsClear(db, db.head)
    then (db.(head := db.head - 1, tables := db.tables - Names(Dropped(db.head))), Migrated)
    else (db, Refused)
  }

  function StepDown(db: Database): (Database, Outcome) {
    if db.head == 6 then (db, Refused)  // below 0006 is not part of this chain
    else if db.head == 7 then
      var (n, o) := NarrativeUniqueness.Downgrade(db.narrative);
      (db.(head := if o == Migrated then 6 else 7, narrative := n), o)
    else DropDown(db)
  }

  function StepUp(db: Database): (Database, Outcome) {
    if db.head == 12 then (db, Refused)
    else if db.head == 6 then
      var (n, ok) := RunDdl(db.narrative, UPGRADE_0007);
      (db.(head := if ok then 7 else 6, narrative := n), if ok then Migrated else Broken)
    else
      (db.(head := db.head + 1, tables := db.tables + EmptyTables(Dropped(db.head + 1))), Migrated)
  }

  /** Application writes are arbitrary within the schema of the current head. */
  datatype Step = Write(to: Database) | Up | Down

  function Take(db: Database, step: Step): Database {
    match step
    case Write(to) => if to.head == db.head && WellFormed(to) then to else db
    case Up => StepUp(db).0
    case Down => StepDown(db).0
  }

  function TakeAll(db: Database, steps: seq<Step>): Database
    decreases |steps|
  {
    if steps == [] then db else Take(TakeAll(db, steps[..|steps| - 1]), steps[|steps| - 1])
  }

  // --------------------------------------------------------------- conservation

  function RowsOf(db: Database, t: Name): map<Id, Record> {
    if t in db.tables then db.tables[t] else map[]
  }

  /** The same rows everywhere; a table that does not exist holds none. */
  ghost predicate SameRows(a: Database, b: Database) {
    && (forall t :: RowsOf(a, t) == RowsOf(b, t))
    && a.revisions == b.revisions && a.specs == b.specs
    && (forall w :: Get(a.narrative, w).rows == Get(b.narrative, w).rows)
  }

  lemma DropsOnlyDemanded(head: int)
    ensures Names(Dropped(head)) == Names(Demanded(head))
  {}

  /** A downgrade that drops tables, refused or not, loses no row. */
  lemma DropDownConserves(db: Database)
    ensures SameRows(DropDown(db).0, db)
  {}

  function Introduced(t: Name): int {
    match t
    case ContinuityFeatures | ContinuityFeatureTransitions | ContinuityPredicates | ContinuityRelations
       | ContinuityRelationTransitions | ShotRevisionFeatureStates | ShotRevisionRelationStates => 8
    case VisualFacets | VisualFacetValuePolicies | VisualAnchors | VisualAnchorItems | VisualAnchorRevisions
       | VisualAnchorRevisionItems | ShotRevisionVisualAnchors | ShotRevisionVisualAnchorItems => 9
    case GenerationDerivedSpatialInputs | DerivedSpatialArtifacts => 11
    case ProductionRevisionSourceAssets | ProductionRevisionClosures | ProductionRevisions | ProductionObjects => 12
    case GenerationDerivedObservationInputs | DerivedObservationArtifacts => 15
    case _ => 10
  }

  lemma DroppedAt8(t: Name)
    requires t in Dropped(8)
    ensures Introduced(t) == 8
  {}

  lemma DroppedAt9(t: Name)
    requires t in Dropped(9)
    ensures Introduced(t) == 9
  {}

  lemma DroppedAt10(t: Name)
    requires t in Dropped(10)
    ensures Introduced(t) == 10
  {}

  lemma DroppedAt11(t: Name)
    requires t in Dropped(11)
    ensures Introduced(t) == 11
  {}

  lemma DroppedAt12(t: Name)
    requires t in Dropped(12)
    ensures Introduced(t) == 12
  {}

  lemma DroppedAt(h: int, t: Name)
    requires 8 <= h <= 12 && t in Dropped(h)
    ensures Introduced(t) == h
  {
    hide Dropped, Introduced;
    if h == 8 {
      DroppedAt8(t);
    } else if h == 9 {
      DroppedAt9(t);
    } else if h == 10 {
      DroppedAt10(t);
    } else if h == 11 {
      DroppedAt11(t);
    } else {
      DroppedAt12(t);
    }
  }

  lemma {:induction false} IntroducedBy(h: int, t: Name)
    requires 6 <= h <= 12 && t in TablesAt(h)
    ensures 8 <= Introduced(t) <= h
    decreases h
  {
    if h > 7 {
      if t in Names(Dropped(h)) {
        DroppedAt(h, t);
      } else {
        IntroducedBy(h - 1, t);
      }
    }
  }

  lemma EveryTableIsDropped(t: Name)
    ensures Introduced(t) == 8 ==> t in Dropped(8)
    ensures Introduced(t) == 9 ==> t in Dropped(9)
    ensures Introduced(t) == 11 ==> t in Dropped(11)
    ensures Introduced(t) == 12 ==> t in Dropped(12)
    ensures Introduced(t) == 15 ==> t in Dropped(15)
  {}

  lemma EveryTableOf0010IsDropped(t: Name)
    ensures Introduced(t) == 10 ==> t in Dropped(10)
  {}

  /** A head drops exactly the tables that its upgrade introduced. */
  lemma DroppedExactly(h: int, t: Name)
    requires 8 <= h <= 12
    ensures t in Dropped(h) <==> Introduced(t) == h
  {
    hide Dropped, Introduced;
    EveryTableIsDropped(t);
    EveryTableOf0010IsDropped(t);
    if t in Dropped(h) {
      DroppedAt(h, t);
    }
  }

  /** The tables that exist at a head are those introduced up to it. */
  lemma {:induction false} TablesExactly(h: int, t: Name)
    requires 6 <= h <= 12
    ensures t in TablesAt(h) <==> 8 <= Introduced(t) <= h
    decreases h
  {
    hide Dropped, Introduced;
    if h > 7 {
      DroppedExactly(h, t);
      TablesExactly(h - 1, t);
    } else {
      AllFrom0008(t);
    }
  }

  lemma AllFrom0008(t: Name)
    ensures Introduced(t) >= 8
  {}

  /** A head's tables do not exist below it. */
  lemma NewTablesAreNew(h: int)
    requires 7 <= h < 12
    ensures TablesAt(h) !! Names(Dropped(h + 1))
  {
    hide Dropped, TablesAt, Introduced;
    forall t | t in TablesAt(h)
      ensures Introduced(t) <= h
    {
      IntroducedBy(h, t);
    }
    forall t | t in Dropped(h + 1)
      ensures Introduced(t) == h + 1
    {
      DroppedAt(h + 1, t);
    }
  }

  lemma TablesBelow(h: int)
    requires 7 <= h < 12
    ensures TablesAt(h + 1) == TablesAt(h) + Names(Dropped(h + 1)) && TablesAt(h) !! Names(Dropped(h + 1))
  {
    hide Dropped;
    NewTablesAreNew(h);
  }

  lemma DropDownKeeps(db: Database)
    requires WellFormed(db) && 7 < db.head
    ensures WellFormed(DropDown(db).0)
  {
    hide Dropped, Demanded, Names, VersionsClear, AllEmpty, At0006, At0007;
    TablesBelow(db.head - 1);
    if AllEmpty(db, Demanded(db.head)) && VersionsClear(db, db.head) {
      assert db.tables.Keys - Names(Dropped(db.head)) == TablesAt(db.head - 1);
    }
  }

  lemma StepUpKeeps(db: Database)
    requires WellFormed(db) && 7 <= db.head < 12
    ensures WellFormed(StepUp(db).0) && SameRows(StepUp(db).0, db)
  {
    hide Dropped, Names, At0006, At0007;
    TablesBelow(db.head);
    var up := StepUp(db).0;
    assert up.tables.Keys == TablesAt(db.head + 1);
    forall t
      ensures RowsOf(up, t) == RowsOf(db, t)
    {
      if t in Names(Dropped(db.head + 1)) {
        assert t !in TablesAt(db.head);
      }
    }
  }

  /** One migration step, up or down, refused or not: no row lost, changed or added,
      and the schema is again that of a head, never half way. */
  lemma MigrationConserves(db: Database, step: Step)
    requires WellFormed(db) && !step.Write?
    ensures SameRows(Take(db, step), db) && WellFormed(Take(db, step))
  {
    match step {
      case Down => DownConserves(db);
      case Up =>
        hide At0006, At0007, RunDdl, Dropped;
        if db.head == 6 {
          UpgradeNeverFails(db.narrative);
        } else if db.head < 12 {
          StepUpKeeps(db);
        }
    }
  }

  lemma DownConserves(db: Database)
    requires WellFormed(db)
    ensures SameRows(StepDown(db).0, db) && WellFormed(StepDown(db).0)
  {
    hide At0006, At0007, Downgrade, DropDown, Representable;
    if db.head == 7 {
      DowngradeIsAllOrNothing(db.narrative);
    } else if db.head > 7 {
      DropDownConserves(db);
      DropDownKeeps(db);
    }
  }

  lemma {:induction false} RunsStayWellFormed(db: Database, steps: seq<Step>)
    requires WellFormed(db)
    ensures WellFormed(TakeAll(db, steps))
    decreases |steps|
  {
    hide WellFormed, SameRows, Take;
    if steps != [] {
      var before := steps[..|steps| - 1];
      RunsStayWellFormed(db, before);
      OneStepWellFormed(TakeAll(db, before), steps[|steps| - 1]);
    }
  }

  lemma OneStepWellFormed(db: Database, step: Step)
    requires WellFormed(db)
    ensures WellFormed(Take(db, step))
  {
    hide WellFormed, StepUp, StepDown;
    if !step.Write? {
      MigrationConserves(db, step);
    }
  }

  /** In any run of writes, upgrades and attempted downgrades, only writes touch rows. */
  lemma RunConserves(db: Database, steps: seq<Step>, i: nat)
    requires WellFormed(db) && i < |steps| && !steps[i].Write?
    ensures SameRows(TakeAll(db, steps[..i + 1]), TakeAll(db, steps[..i]))
  {
    hide WellFormed, SameRows, Take;
    RunsStayWellFormed(db, steps[..i]);
    MigrationConserves(TakeAll(db, steps[..i]), steps[i]);
    assert steps[..i + 1][..i] == steps[..i];
  }

  /** What the documents must be for the step down from each head, in numbers. */
  ghost predicate DocumentsAllow(db: Database) {
    && (db.head == 9 ==> forall i | i in db.revisions ::
          var p := db.revisions[i].snapshot;
          p.Object? && (p.version.JBool? || (p.version.JInt? && p.version.n < 4)))
    && (db.head == 10 ==> forall i | i in db.revisions :: !CountedAt(db.revisions[i].snapshot, 5))
    && (db.head == 10 || db.head == 11 ==> forall i | i in db.specs :: !CountedAt(db.specs[i], 3))
  }

  /** From 0009 to 0012 a downgrade migrates exactly if every table that the head
      introduced is empty and the documents are below its ceilings; it takes away
      those tables and nothing else. */
  lemma StepDownExactly(db: Database)
    requires WellFormed(db) && 9 <= db.head
    ensures StepDown(db).1 == Migrated <==>
              (forall t | t in db.tables && Introduced(t) == db.head :: db.tables[t] == map[]) && DocumentsAllow(db)
    ensures StepDown(db).1 == Migrated || StepDown(db) == (db, Refused)
    ensures StepDown(db).1 == Migrated ==>
              && StepDown(db).0.head == db.head - 1
              && StepDown(db).0 == db.(head := db.head - 1, tables := StepDown(db).0.tables)
              && forall t :: t in StepDown(db).0.tables <==> t in db.tables && Introduced(t) != db.head
  {
    hide At0006, At0007, Dropped, Demanded, Introduced, VersionsClear, DocumentsAllow, AllEmpty;
    DemandsExactly(db, db.head);
    DocumentsExactly(db);
    forall t
      ensures t in Names(Dropped(db.head)) <==> Introduced(t) == db.head
    {
      DroppedExactly(db.head, t);
    }
  }

  lemma DemandsExactly(db: Database, h: int)
    requires 8 <= h <= 12
    ensures AllEmpty(db, Demanded(h)) <==> forall t | t in db.tables && Introduced(t) == h :: db.tables[t] == map[]
  {
    hide Dropped, Demanded, Introduced;
    DropsOnlyDemanded(h);
    forall t
      ensures t in Demanded(h) <==> Introduced(t) == h
    {
      assert t in Demanded(h) <==> t in Names(Demanded(h));
      assert t in Dropped(h) <==> t in Names(Dropped(h));
      DroppedExactly(h, t);
    }
  }

  lemma DocumentsExactly(db: Database)
    requires 9 <= db.head <= 12
    ensures VersionsClear(db, db.head) <==> DocumentsAllow(db)
  {
    hide CountedAt, SpecClears0010, Clears0010, Clears0009;
    forall p: Payload
      ensures SpecClears0010(p) <==> !CountedAt(p, 3)
      ensures Clears0010(p) <==> !CountedAt(p, 5)
      ensures Clears0009(p) <==> p.Object? && (p.version.JBool? || (p.version.JInt? && p.version.n < 4))
    {
      CeilingsInNumbers(p);
    }
  }

  /** The 0015 step alone obeys the same law. */
  lemma Step0015Conserves(db: Database)
    requires db.head == 15 && GenerationDerivedObservationInputs in db.tables && DerivedObservationArtifacts in db.tables
    ensures SameRows(DropDown(db).0, db)
    ensures DropDown(db).1 == Migrated <==>
              && db.tables[GenerationDerivedObservationInputs] == map[] && db.tables[DerivedObservationArtifacts] == map[]
              && forall i | i in db.specs ::
                   !db.specs[i].SqlNull? && !db.specs[i].Malformed?
                   && !(db.specs[i].Object? && EqualTo(db.specs[i], 4).True?)
  {}

  // ------------------------------------------------------------- whole descents

  /** Downgrades until one refuses or 0006 is reached. */
  function Descend(db: Database): Database
    decreases db.head
  {
    if db.head <= 6 then db
    else
      var (down, o) := StepDown(db);
      if o == Migrated && down.head < db.head then Descend(down) else db
  }

  /** Nothing of the milestones above 0006 has been used. */
  predicate Unused(db: Database) {
    && (forall t | t in db.tables :: db.tables[t] == map[])
    && (db.head >= 8 ==> forall i | i in db.revisions :: Clears0008(db.revisions[i]))
    && (db.head >= 10 ==> forall i | i in db.specs :: SpecClears0010(db.specs[i]))
    && Representable(db.narrative)
  }

  /** The snapshot ceilings of 0009 and 0010 follow from that of 0008. */
  lemma CeilingsFollow(db: Database)
    requires WellFormed(db) && forall i | i in db.revisions :: Clears0008(db.revisions[i])
    ensures VersionsClear(db, 9)
    ensures forall i | i in db.revisions :: Clears0010(db.revisions[i].snapshot)
  {}

  lemma UnusedStep(db: Database)
    requires WellFormed(db) && 7 < db.head
    ensures Unused(db) <==> DropDown(db).1 == Migrated && Unused(DropDown(db).0)
  {
    hide At0006, At0007, Clears0008, Clears0009, Clears0010, SpecClears0010, Dropped, Demanded, Representable;
    DropsOnlyDemanded(db.head);
    TablesBelow(db.head - 1);
    if forall i | i in db.revisions :: Clears0008(db.revisions[i]) {
      CeilingsFollow(db);
    }
    assert forall t :: t in Demanded(db.head) <==> t in Names(Demanded(db.head));
  }

  /** A full descent reaches 0006 exactly when nothing above it was ever used; the
      snapshot checks of 0009 and 0010 add no refusal to that of 0008.  Wherever it
      stops, no row is lost. */
  lemma {:induction false} DescentIsExact(db: Database)
    requires WellFormed(db)
    ensures Descend(db).head == 6 <==> db.head == 6 || Unused(db)
    ensures SameRows(Descend(db), db) && WellFormed(Descend(db))
    decreases db.head
  {
    hide At0006, At0007, DropDown, Downgrade, Unused, Representable, SameRows;
    if db.head > 6 {
      DownConserves(db);
      RowsTransitive(Descend(StepDown(db).0), StepDown(db).0, db);
      RowsTransitive(db, db, db);
      if db.head == 7 {
        LastStep(db);
      } else {
        UnusedStep(db);
        DroppedOne(db);
        if DropDown(db).1 == Migrated {
          DescentIsExact(DropDown(db).0);
        }
      }
    } else {
      RowsTransitive(db, db, db);
    }
  }

  lemma DroppedOne(db: Database)
    ensures DropDown(db).1 == Migrated ==> DropDown(db).0.head == db.head - 1
    ensures DropDown(db).1 != Migrated ==> DropDown(db).0 == db
  {}

  lemma RowsTransitive(a: Database, b: Database, c: Database)
    ensures SameRows(a, b) && SameRows(b, c) ==> SameRows(a, c)
    ensures SameRows(c, c)
  {}

  lemma LastStep(db: Database)
    requires WellFormed(db) && db.head == 7
    ensures StepDown(db).1 == Migrated <==> Unused(db)
    ensures StepDown(db).1 == Migrated ==> StepDown(db).0.head == 6
  {}

  /** What schema 0007 can represent: an integer version below 3, where version 1 has no
      continuity document and version 2 has one of version 1. */
  predicate Fits0007(r: Revision) {
    && r.snapshot.Object? && r.snapshot.version.JInt? && r.snapshot.version.n < 3
    && (r.snapshot.version.n == 1 ==> r.continuity.SqlNull? && r.continuityHash.None?)
    && (r.snapshot.version.n == 2 ==> r.continuity == Object(JInt(1)) && r.continuityHash.Some?)
    && (r.continuity.SqlNull? || r.continuity == Object(JInt(1)))
  }

  predicate AllFit0007(db: Database) { forall i | i in db.revisions :: Fits0007(db.revisions[i]) }

  /** In any run of writes, upgrades and downgrades, a step leads from 0008 to 0007
      exactly if it is a downgrade of a database whose 0008 tables are empty and whose
      revisions 0007 can represent; and then it changed none of them. */
  lemma SnapshotsBelow0008(db: Database, steps: seq<Step>, i: nat)
    requires WellFormed(db) && i < |steps| && TakeAll(db, steps[..i]).head == 8
    ensures var before, after := TakeAll(db, steps[..i]), TakeAll(db, steps[..i + 1]);
            && (after.head == 7 <==> steps[i] == Down && AllEmpty(before, Demanded(8)) && AllFit0007(before))
            && (after.head == 7 ==> AllFit0007(after) && after.revisions == before.revisions)
  {
    hide At0006, At0007, Dropped, Demanded;
    RunsStayWellFormed(db, steps[..i]);
    assert steps[..i + 1][..i] == steps[..i];
    var before := TakeAll(db, steps[..i]);
    forall j | j in before.revisions
      ensures Fits0007(before.revisions[j]) <==> Clears0008(before.revisions[j])
    {}
  }

  /** Up and down again is the identity exactly when the documents clear the ceiling
      of the step; they need not, since nothing but the preflight enforces it. */
  lemma UpThenDown(db: Database)
    requires WellFormed(db) && db.head < 12
    ensures StepDown(StepUp(db).0) == (db, Migrated) <==> VersionsClear(db, db.head + 1)
  {
    hide At0006, At0007, Dropped, Demanded, Clears0008, Clears0009, Clears0010, SpecClears0010, Downgrade, RunDdl;
    if db.head == 6 {
      hide AllEmpty, TablesAt, VersionsClear;
      UpgradeNeverFails(db.narrative);
      UpgradeThenDowngrade(db.narrative);
      assert VersionsClear(db, 7) by { ClearAt7(db); }
    } else {
      hide VersionsClear;
      SameDocumentsClear(db, StepUp(db).0);
      TablesBelow(db.head);
      DropsOnlyDemanded(db.head + 1);
      var up := StepUp(db).0;
      var ts := Demanded(db.head + 1);
      assert forall t | t in ts :: t in Names(ts);
      assert AllEmpty(up, Demanded(up.head));
      assert up.tables - Names(Dropped(up.head)) == db.tables;
    }
  }

  lemma SameDocumentsClear(a: Database, b: Database)
    requires a.revisions == b.revisions && a.specs == b.specs
    ensures forall h :: VersionsClear(a, h) <==> VersionsClear(b, h)
  {}

  lemma ClearAt7(db: Database)
    ensures VersionsClear(db, 7)
  {}

  // ------------------------------------------------------------------- in place

  class MigratedDatabase {
    var head: int
    var tables: map<Name, map<Id, Record>>
    var revisions: map<Id, Revision>
    var specs: map<Id, Payload>
    const narrative: NarrativeStore

    function Value(): Database
      reads this, narrative
    {
      Database(head, narrative.Value(), tables, revisions, specs)
    }

    constructor (db: Database)
      ensures Value() == db && fresh(narrative)
    {
      head, tables, revisions, specs := db.head, db.tables, db.revisions, db.specs;
      narrative := new NarrativeStore(db.narrative);
    }

    /** SELECT COUNT(*) of one table after another, stopping at the first that has rows. */
    method TablesEmpty(ts: seq<Name>) returns (empty: bool)
      ensures empty <==> AllEmpty(Value(), ts)
    {
      var k := 0;
      while k < |ts|
        invariant 0 <= k <= |ts|
        invariant AllEmpty(Value(), ts[..k])
      {
        if ts[k] in tables && |tables[ts[k]]| != 0 {
          assert ts[k] in ts;
          return false;
        }
        assert ts[..k + 1] == ts[..k] + [ts[k]];
        k := k + 1;
      }
      assert ts[..k] == ts;
      return true;
    }

    /** The Python preflights of 0008 and 0009 walk the revisions one by one. */
    method RevisionsClear(listing: seq<Id>) returns (clear: bool)
      requires forall i :: i in listing <==> i in revisions
      requires head == 8 || head == 9
      ensures clear <==> VersionsClear(Value(), head)
    {
      var k := 0;
      while k < |listing|
        invariant 0 <= k <= |listing|
        invariant forall a | 0 <= a < k :: listing[a] in revisions
        invariant head == 8 ==> forall a | 0 <= a < k :: Clears0008(revisions[listing[a]])
        invariant head == 9 ==> forall a | 0 <= a < k :: Clears0009(revisions[listing[a]].snapshot)
      {
        assert listing[k] in listing;
        var r := revisions[listing[k]];
        if head == 8 {
          var res := Preflight0008(r);
          if res.Failure? {
            return false;
          }
        } else if !Clears0009(r.snapshot) {
          return false;
        }
        k := k + 1;
      }
      return true;
    }

    method DropTables(ts: seq<Name>)
      modifies this`tables
      ensures tables == old(tables) - Names(ts)
    {
      var k := 0;
      while k < |ts|
        invariant 0 <= k <= |ts|
        invariant tables == old(tables) - Names(ts[..k])
      {
        assert ts[..k + 1] == ts[..k] + [ts[k]];
        tables := tables - {ts[k]};
        k := k + 1;
      }
      assert ts[..k] == ts;
    }

    method CreateTables(ts: seq<Name>)
      modifies this`tables
      ensures tables == old(tables) + EmptyTables(ts)
    {
      var k := 0;
      while k < |ts|
        invariant 0 <= k <= |ts|
        invariant tables == old(tables) + EmptyTables(ts[..k])
      {
        assert ts[..k + 1] == ts[..k] + [ts[k]];
        tables := tables[ts[k] := map[]];
        k := k + 1;
      }
      assert ts[..k] == ts;
    }

    method Downgrade(listing: seq<Id>) returns (o: Outcome)
      requires WellFormed(Value()) && forall i :: i in listing <==> i in revisions
      modifies this, narrative
      ensures (Value(), o) == StepDown(old(Value()))
      ensures o == Migrated ==> head == old(head) - 1
      ensures o != Migrated ==> o == Refused && Value() == old(Value())
    {
      if head == 6 {
        return Refused;
      }
      if head == 7 {
        o := narrative.DowngradeTo0006();
        if o == Migrated {
          head := 6;
        }
        return;
      }
      var empty := TablesEmpty(Demanded(head));
      if !empty {
        return Refused;
      }
      var clear := true;
      if head == 8 || head == 9 {
        clear := RevisionsClear(listing);
      } else {
        clear := VersionsClear(Value(), head);
      }
      if !clear {
        return Refused;
      }
      DropTables(Dropped(head));
      head := head - 1;
      return Migrated;
    }

    method UpgradeAbove0007()
      requires 7 <= head < 12
      modifies this
      ensures Value() == StepUp(old(Value())).0 && narrative.Value() == old(narrative.Value())
    {
      hide Dropped, EmptyTables, RunDdl;
      CreateTables(Dropped(head + 1));
      head := head + 1;
    }

    method Upgrade() returns (o: Outcome)
      requires WellFormed(Value())
      modifies this, narrative
      ensures (Value(), o) == StepUp(old(Value()))
      ensures o == Migrated <==> old(head) < 12
    {
      if head == 12 {
        return Refused;
      }
      hide Dropped, At0006, At0007, RunDdl, EmptyTables;
      if head == 6 {
        UpgradeNeverFails(narrative.Value());
        var ok := narrative.UpgradeTo0007();
        head := 7;
        return Migrated;
      }
      UpgradeAbove0007();
      return Migrated;
    }
  }
}
