/**
 How each downgrade preflight reads the schema version of a captured document:
 0008 and 0009 parse it in Python, 0010, 0011 and 0015 compare it in SQL.
 */
module SchemaVersions {
  import opened Wrappers

  /** The schema_version member of a JSON object. */
  datatype Version =
    | Missing | JNull | JInt(n: int) | JReal(x: real) | JBool(b: bool) | JText(s: string) | JNested

  /** A TEXT column holding JSON. */
  datatype Payload = SqlNull | Malformed | NotAnObject | Object(version: Version)

  datatype Revision = Revision(snapshot: Payload, continuity: Payload, continuityHash: Option<string>, rest: string)

  // ------------------------------------------------------------ SQL three-valued

  datatype Truth = True | False | Unknown | Fails

  function OfBool(b: bool): Truth { if b then True else False }

  /** json_extract(p, '$.schema_version') >= limit.  SQLite raises on malformed JSON,
      yields NULL for NULL, for a document that is no object, and for a missing or
      null member, reads a JSON bool as 0 or 1, and orders every text after every number. */
  function AtLeast(p: Payload, limit: int): Truth {
    match p
    case SqlNull => Unknown
    case Malformed => Fails
    case NotAnObject => Unknown
    case Object(Missing) => Unknown
    case Object(JNull) => Unknown
    case Object(JInt(n)) => OfBool(n >= limit)
    case Object(JReal(x)) => OfBool(x >= limit as real)
    case Object(JBool(b)) => OfBool((if b then 1 else 0) >= limit)
    case Object(JText(_)) => True
    case Object(JNested) => True
  }

  function EqualTo(p: Payload, n: int): Truth {
    match p
    case SqlNull => Unknown
    case Malformed => Fails
    case NotAnObject => Unknown
    case Object(Missing) => Unknown
    case Object(JNull) => Unknown
    case Object(JInt(k)) => OfBool(k == n)
    case Object(JReal(x)) => OfBool(x == n as real)
    case Object(JBool(b)) => OfBool((if b then 1 else 0) == n)
    case Object(_) => False
  }

  function Or(a: Truth, b: Truth): Truth {
    if a.True? then True else if a.Fails? || b.Fails? then Fails
    else if b.True? then True else if a.Unknown? || b.Unknown? then Unknown else False
  }

  /** WHERE p IS NULL OR version >= limit: a row is counted only on True, and an error
      anywhere refuses.  The row clears the preflight on False and on Unknown. */
  predicate ClearsSql(p: Payload, limit: int) {
    var t := Or(OfBool(p.SqlNull?), AtLeast(p, limit));
    t.False? || t.Unknown?
  }

  /** 0010 on snapshots, 0010 and 0011 on workflow specs, 0015 on workflow specs. */
  predicate Clears0010(snapshot: Payload) { ClearsSql(snapshot, 5) }

  predicate SpecClears0010(spec: Payload) { ClearsSql(spec, 3) }

  predicate SpecClears0015(spec: Payload) {
    var t := Or(OfBool(spec.SqlNull?), EqualTo(spec, 4));
    t.False? || t.Unknown?
  }

  // --------------------------------------------------------------------- Python

  /** 0009: json.loads(...).get("schema_version") must be an int, and a bool is one. */
  predicate Clears0009(snapshot: Payload) {
    match snapshot
    case Object(JInt(n)) => n < 4
    case Object(JBool(_)) => true
    case _ => false
  }

  /** A column of 0008: NULL is skipped, anything else needs a true int below limit. */
  predicate Column0008(p: Payload, limit: int) {
    p.SqlNull? || (p.Object? && p.version.JInt? && p.version.n < limit)
  }

  predicate Clears0008(r: Revision) {
    && Column0008(r.snapshot, 3)
    && (r.snapshot == Object(JInt(1)) ==> r.continuity.SqlNull? && r.continuityHash.None?)
    && (r.snapshot == Object(JInt(2)) ==> !r.continuity.SqlNull? && r.continuityHash.Some?)
    && (r.continuity.SqlNull? || r.continuity == Object(JInt(1)))
  }

  datatype Refusal0008 =
    | MalformedJson | NoObject | NoInteger | TooNew | SchemaOneWithContinuity | SchemaTwoWithout | ContinuityNotOne

  /** The snapshot of a revision, together with what stands beside it, holds nothing new. */
  predicate SnapshotClears0008(r: Revision) {
    || r.snapshot.SqlNull?
    || (r.snapshot.Object? && r.snapshot.version.JInt? && r.snapshot.version.n < 1)
    || (r.snapshot == Object(JInt(1)) && r.continuity.SqlNull? && r.continuityHash.None?)
    || (r.snapshot == Object(JInt(2)) && !r.continuity.SqlNull? && r.continuityHash.Some?)
  }

  /** What a column is refused for before its version is compared. */
  predicate Unreadable(p: Payload, why: Refusal0008) {
    match why
    case MalformedJson => p.Malformed?
    case NoObject => p.NotAnObject?
    case NoInteger => p.Object? && !p.version.JInt?
    case _ => false
  }

  /** The checks of one revision in the order the preflight makes them: the snapshot
      first, the continuity snapshot only if that one clears. */
  method Preflight0008(r: Revision) returns (res: Result<(), Refusal0008>)
    ensures res.Success? <==> Clears0008(r)
    ensures res.Failure? ==>
              match res.error
              case TooNew =>
                (r.snapshot.Object? && r.snapshot.version.JInt? && r.snapshot.version.n >= 3)
                || (SnapshotClears0008(r) && r.continuity.Object? && r.continuity.version.JInt? && r.continuity.version.n >= 2)
              case SchemaOneWithContinuity => r.snapshot == Object(JInt(1)) && (!r.continuity.SqlNull? || r.continuityHash.Some?)
              case SchemaTwoWithout => r.snapshot == Object(JInt(2)) && (r.continuity.SqlNull? || r.continuityHash.None?)
              case ContinuityNotOne =>
                SnapshotClears0008(r) && r.continuity.Object? && r.continuity.version.JInt? && r.continuity.version.n < 1
              case why => Unreadable(r.snapshot, why) || (SnapshotClears0008(r) && Unreadable(r.continuity, why))
  {
    var columns := [(r.snapshot, 3), (r.continuity, 2)];
    var k := 0;
    while k < |columns|
      invariant 0 <= k <= |columns|
      invariant k > 0 ==> Column0008(r.snapshot, 3)
      invariant k > 0 ==> (r.snapshot == Object(JInt(1)) ==> r.continuity.SqlNull? && r.continuityHash.None?)
      invariant k > 0 ==> (r.snapshot == Object(JInt(2)) ==> !r.continuity.SqlNull? && r.continuityHash.Some?)
      invariant k > 1 ==> r.continuity.SqlNull? || r.continuity == Object(JInt(1))
    {
      var (payload, limit) := columns[k];
      if !payload.SqlNull? {
        if payload.Malformed? {
          return Failure(MalformedJson);
        }
        if payload.NotAnObject? {
          return Failure(NoObject);
        }
        if !payload.version.JInt? {
          return Failure(NoInteger);
        }
        var version := payload.version.n;
        if version >= limit {
          return Failure(TooNew);
        }
        if k == 0 && version == 1 && (!r.continuity.SqlNull? || r.continuityHash.Some?) {
          return Failure(SchemaOneWithContinuity);
        }
        if k == 0 && version == 2 && (r.continuity.SqlNull? || r.continuityHash.None?) {
          return Failure(SchemaTwoWithout);
        }
        if k == 1 && version != 1 {
          return Failure(ContinuityNotOne);
        }
      }
      k := k + 1;
    }
    return Success(());
  }

  // -------------------------------------------------------------------- nesting

  /** The ceilings nest: what clears 0008 clears 0009, and what clears 0009 clears
      0010, given that snapshot_json is NOT NULL. */
  lemma CeilingsNest(r: Revision)
    ensures Clears0008(r) && !r.snapshot.SqlNull? ==> Clears0009(r.snapshot)
    ensures Clears0009(r.snapshot) ==> Clears0010(r.snapshot)
  {}

  /** Each inclusion is strict, and the NOT NULL is needed for the first. */
  lemma CeilingsAreStrict()
    ensures exists r: Revision :: Clears0008(r) && r.snapshot.SqlNull? && !Clears0009(r.snapshot)
    ensures exists r: Revision :: Clears0009(r.snapshot) && !Clears0008(r)
    ensures exists p: Payload :: Clears0010(p) && !Clears0009(p) && p.Object?
  {
    var absent := Revision(SqlNull, SqlNull, None, "");
    assert Clears0008(absent) && absent.snapshot.SqlNull? && !Clears0009(absent.snapshot);
    var flag := Revision(Object(JBool(true)), SqlNull, None, "");
    assert Clears0009(flag.snapshot) && !Clears0008(flag);
    var unversioned := Object(Missing);
    assert Clears0010(unversioned) && !Clears0009(unversioned) && unversioned.Object?;
  }

  /** What 0010 cannot see: exactly the documents whose version compares as NULL, and
      every one of them is refused by 0009. */
  lemma InvisibleTo0010(p: Payload, limit: int)
    ensures (Or(OfBool(p.SqlNull?), AtLeast(p, limit)).Unknown?) <==>
              (p.NotAnObject? || p == Object(Missing) || p == Object(JNull))
    ensures Or(OfBool(p.SqlNull?), AtLeast(p, limit)).Unknown? ==> ClearsSql(p, limit) && !Clears0009(p)
  {}

  // ------------------------------------------------------------- the ceilings in numbers

  /** What a comparison with a ceiling counts, case by case: no document, an unreadable
      one, and a version that is a number from the ceiling on, a text or a structure.  A
      JSON bool is 0 or 1. */
  predicate CountedAt(p: Payload, ceiling: int) {
    match p
    case SqlNull => true
    case Malformed => true
    case NotAnObject => false
    case Object(v) =>
      match v
      case Missing => false
      case JNull => false
      case JInt(n) => n >= ceiling
      case JReal(x) => x >= ceiling as real
      case JBool(b) => (if b then 1 else 0) >= ceiling
      case JText(_) => true
      case JNested => true
  }

  /** 0010 and 0011 refuse a workflow spec from 3 on, 0010 a snapshot from 5 on; 0009 wants
      an integer below 4. */
  lemma CeilingsInNumbers(p: Payload)
    ensures SpecClears0010(p) <==> !CountedAt(p, 3)
    ensures Clears0010(p) <==> !CountedAt(p, 5)
    ensures Clears0009(p) <==> p.Object? && (p.version.JBool? || (p.version.JInt? && p.version.n < 4))
    ensures SpecClears0015(p) <==>
              !(p.SqlNull? || p.Malformed?
                || (p.Object? && (p.version == JInt(4) || p.version == JReal(4.0))))
  {}
}
