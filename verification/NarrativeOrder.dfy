/**
 Narrative ordering: positions of the active members of one scope (the scenes of a
 sequence, the sequences of a project), rewritten one row at a time under a unique
 index that SQLite enforces after every single row.
 */
module NarrativeOrder {
  import opened Wrappers
  import opened NarrativeUniqueness

  predicate Active(rows: Rows, scope: Id, i: Id) {
    i in rows && rows[i].parent == Some(scope) && rows[i].deletedAt.None?
  }

  /** The position of a placed row. */
  function Pos(rows: Rows, i: Id): int {
    if i in rows && rows[i].position.Some? then rows[i].position.value else -1
  }

  function Members(ids: seq<Id>): set<Id> { set i | i in ids }

  predicate Distinct(ids: seq<Id>) {
    forall a, b | 0 <= a < b < |ids| :: ids[a] != ids[b]
  }

  /** ids lists the active members of the scope, each once. */
  ghost predicate Lists(ids: seq<Id>, rows: Rows, scope: Id) {
    Distinct(ids) && (forall i :: i in ids <==> Active(rows, scope, i))
  }

  predicate Checked(rows: Rows) { forall i | i in rows :: PlacedRow(rows[i]) }

  /** Only the listed rows changed, and only in position: each now has its index. */
  ghost predicate Renumbered(before: Rows, after: Rows, ids: seq<Id>) {
    && after.Keys == before.Keys
    && (forall i | i in before && i !in ids :: after[i] == before[i])
    && (forall k | 0 <= k < |ids| :: ids[k] in before && after[ids[k]] == before[ids[k]].(position := Some(k)))
  }

  /** The active members stand at exactly 0..N-1, in this order. */
  ghost predicate Contiguous(rows: Rows, scope: Id, ids: seq<Id>) {
    Lists(ids, rows, scope) && forall k | 0 <= k < |ids| :: ids[k] in rows && rows[ids[k]].position == Some(k)
  }

  datatype OrderError = DuplicateIds | IncompleteSet | IndexViolation

  /** One more than the highest active position; -1 stands for "no active member". */
  ghost predicate Highest(rows: Rows, scope: Id, m: int) {
    && (forall i | Active(rows, scope, i) :: rows[i].position.Some? && rows[i].position.value <= m)
    && (m == -1 || exists i :: Active(rows, scope, i) && rows[i].position == Some(m))
  }

  class OrderedTable {
    var rows: Rows

    constructor (rows: Rows)
      ensures this.rows == rows
    {
      this.rows := rows;
    }

    /** One UPDATE of one active row; the index refuses a duplicate. */
    method SetPosition(i: Id, position: int) returns (ok: bool)
      requires i in rows
      modifies this
      ensures ok <==> Admits(ActiveOnly, old(rows)[i := old(rows)[i].(position := Some(position))])
      ensures rows == if ok then old(rows)[i := old(rows)[i].(position := Some(position))] else old(rows)
    {
      var updated := rows[i := rows[i].(position := Some(position))];
      ok := Admits(ActiveOnly, updated);
      if ok {
        rows := updated;
      }
    }

    /** COALESCE(MAX(position), -1) over the active members. */
    method CurrentMax(scope: Id, ids: seq<Id>) returns (m: int)
      requires Lists(ids, rows, scope) && Checked(rows)
      ensures Highest(rows, scope, m) && m >= -1
    {
      m := -1;
      var k := 0;
      while k < |ids|
        invariant 0 <= k <= |ids| && m >= -1
        invariant forall a | 0 <= a < k :: Pos(rows, ids[a]) <= m
        invariant m == -1 || exists a :: 0 <= a < k && Pos(rows, ids[a]) == m
      {
        assert ids[k] in ids;
        if Pos(rows, ids[k]) > m {
          m := Pos(rows, ids[k]);
        }
        k := k + 1;
      }
    }

    /** The append position is the first one behind all active members, and extends a
        contiguous range by one. */
    method NextPosition(scope: Id, ids: seq<Id>) returns (p: int)
      requires Lists(ids, rows, scope) && Checked(rows)
      ensures p >= 0 && forall i | Active(rows, scope, i) :: Pos(rows, i) < p
      ensures p == 0 || exists i | Active(rows, scope, i) :: rows[i].position == Some(p - 1)
      ensures Contiguous(rows, scope, ids) ==> p == |ids|
    {
      var m := CurrentMax(scope, ids);
      if Contiguous(rows, scope, ids) && ids != [] {
        assert Active(rows, scope, ids[|ids| - 1]);
        var i :| Active(rows, scope, i) && rows[i].position == Some(m);
        assert i in ids;
      }
      return m + 1;
    }

    /** ids is the active members ORDER BY position.  Every single update passes the
        index, so the renumbering always completes; no tombstone moves. */
    method CompactActive(scope: Id, ids: seq<Id>) returns (ok: bool)
      requires Checked(rows) && Admits(ActiveOnly, rows) && Lists(ids, rows, scope)
      requires forall a, b | 0 <= a < b < |ids| :: Pos(rows, ids[a]) <= Pos(rows, ids[b])
      modifies this
      ensures ok && Renumbered(old(rows), rows, ids)
      ensures Admits(ActiveOnly, rows) && Contiguous(rows, scope, ids)
    {
      ok := true;
      Ascending(rows, scope, ids);
      var k := 0;
      while k < |ids|
        invariant 0 <= k <= |ids| && ok
        invariant Renumbered(old(rows), rows, ids[..k]) && Admits(ActiveOnly, rows)
      {
        ghost var before := rows;
        RoomToCompact(old(rows), before, scope, ids, k);
        ok := SetPosition(ids[k], k);
        RenumberedOneMore(old(rows), before, ids, k);
        k := k + 1;
      }
      assert ids[..k] == ids;
      RenumberedIsContiguous(old(rows), rows, scope, ids);
    }

    /** The multi-row UPDATE that moves every active member up by offset, row by row. */
    method ShiftActive(scope: Id, ids: seq<Id>, offset: int) returns (ok: bool)
      requires Checked(rows) && Admits(ActiveOnly, rows) && Lists(ids, rows, scope)
      requires offset > 0 && forall i | Active(rows, scope, i) :: Pos(rows, i) < offset
      modifies this
      ensures ok && Shifted(old(rows), rows, ids, |ids|, offset) && Admits(ActiveOnly, rows)
    {
      ghost var start := rows;
      ok := true;
      var k := 0;
      while k < |ids|
        invariant 0 <= k <= |ids| && ok
        invariant Shifted(start, rows, ids, k, offset) && Admits(ActiveOnly, rows)
      {
        hide Shifted, Admits, Lists, Active;
        ghost var before := rows;
        RoomToShift(start, before, scope, ids, k, offset);
        ok := SetPosition(ids[k], rows[ids[k]].position.value + offset);
        ShiftedOneMore(start, before, ids, k, offset);
        k := k + 1;
      }
    }

    /** The final positions, one member at a time. */
    method PlaceInOrder(scope: Id, ordered: seq<Id>) returns (ok: bool)
      requires Admits(ActiveOnly, rows) && Lists(ordered, rows, scope)
      requires forall i | i in ordered :: Pos(rows, i) >= |ordered|
      modifies this
      ensures ok && Renumbered(old(rows), rows, ordered) && Admits(ActiveOnly, rows)
    {
      ghost var start := rows;
      ok := true;
      var k := 0;
      while k < |ordered|
        invariant 0 <= k <= |ordered| && ok
        invariant Renumbered(start, rows, ordered[..k]) && Admits(ActiveOnly, rows)
      {
        ghost var before := rows;
        RoomToPlace(start, before, scope, ordered, k);
        ok := SetPosition(ordered[k], k);
        RenumberedOneMore(start, before, ordered, k);
        k := k + 1;
      }
      assert ordered[..k] == ordered;
    }

    /** Both passes for a complete request: no row update is refused by the index. */
    method RewritePositions(scope: Id, ids: seq<Id>, ordered: seq<Id>) returns (ok: bool)
      requires Checked(rows) && Admits(ActiveOnly, rows) && Lists(ids, rows, scope) && Lists(ordered, rows, scope)
      requires ordered != []
      modifies this
      ensures ok && Renumbered(old(rows), rows, ordered) && Contiguous(rows, scope, ordered)
      ensures Admits(ActiveOnly, rows)
    {
      hide Lists, Admits, Renumbered, Shifted, Contiguous, Checked, Highest, Active, Pos;
      ghost var start := rows;
      var m := CurrentMax(scope, ids);
      var offset := m + |ordered| + 1;
      AboveTheHighest(start, scope, m, |ordered| + 1);
      ok := ShiftActive(scope, ids, offset);
      ghost var shifted := rows;
      ShiftedStillLists(start, shifted, scope, ids, ordered, offset);
      ok := PlaceInOrder(scope, ordered);
      RenumberedSinceStart(start, shifted, rows, scope, ids, ordered, offset);
    }

    /** ids is the active members in any order.  The request must name each of them
        exactly once; otherwise nothing is written. */
    method ReorderFullSet(scope: Id, ids: seq<Id>, ordered: seq<Id>) returns (r: Result<(), OrderError>)
      requires Checked(rows) && Admits(ActiveOnly, rows) && Lists(ids, rows, scope)
      modifies this
      ensures r.Success? <==> Lists(ordered, old(rows), scope)
      ensures r.Failure? ==> rows == old(rows) && (r.error == DuplicateIds <==> !Distinct(ordered))
                             && r.error != IndexViolation
      ensures r.Success? ==> Renumbered(old(rows), rows, ordered) && Contiguous(rows, scope, ordered)
      ensures Admits(ActiveOnly, rows)
    {
      hide Lists, Admits, Renumbered, Contiguous, Checked, Distinct, Members;
      OnlyDistinctLists(rows, scope, ordered);
      if !Distinct(ordered) {
        return Failure(DuplicateIds);
      }
      SameMembers(rows, scope, ids, ordered);
      if Members(ids) != Members(ordered) {
        return Failure(IncompleteSet);
      }
      if ordered == [] {
        NothingToPlace(rows, scope);
        return Success(());
      }
      var ok := RewritePositions(scope, ids, ordered);
      return if ok then Success(()) else Failure(IndexViolation);
    }
  }

  lemma OnlyDistinctLists(rows: Rows, scope: Id, ordered: seq<Id>)
    ensures Lists(ordered, rows, scope) ==> Distinct(ordered)
  {}

  lemma NothingToPlace(rows: Rows, scope: Id)
    ensures Renumbered(rows, rows, []) && (Lists([], rows, scope) ==> Contiguous(rows, scope, []))
  {}

  lemma AboveTheHighest(rows: Rows, scope: Id, m: int, more: int)
    requires Highest(rows, scope, m) && more > 0
    ensures forall i | Active(rows, scope, i) :: Pos(rows, i) < m + more
  {}

  lemma RenumberedSinceStart(start: Rows, shifted: Rows, rows: Rows, scope: Id, ids: seq<Id>, ordered: seq<Id>, offset: int)
    requires Checked(start) && Lists(ids, start, scope) && Lists(ordered, start, scope)
    requires Shifted(start, shifted, ids, |ids|, offset) && Renumbered(shifted, rows, ordered)
    ensures Renumbered(start, rows, ordered) && Contiguous(rows, scope, ordered)
  {
    ShiftedStillLists(start, shifted, scope, ids, ordered, offset);
    RenumberedIsContiguous(shifted, rows, scope, ordered);
  }

  /** Comparing the two sets of ids decides whether the request is complete. */
  lemma SameMembers(rows: Rows, scope: Id, ids: seq<Id>, ordered: seq<Id>)
    requires Lists(ids, rows, scope) && Distinct(ordered)
    ensures Lists(ordered, rows, scope) <==> Members(ids) == Members(ordered)
  {
    var current, named := Members(ids), Members(ordered);
    if current == named {
      forall i
        ensures i in ordered <==> Active(rows, scope, i)
      {
        assert i in ordered <==> i in named;
        assert i in ids <==> i in current;
      }
    } else {
      var i :| (i in current) != (i in named);
      assert (i in ids) != (i in ordered);
    }
  }

  /** Sorted and without duplicates: the k-th active position is at least k. */
  lemma {:induction false} AtLeastIndex(rows: Rows, scope: Id, ids: seq<Id>, k: nat)
    requires Checked(rows) && Lists(ids, rows, scope) && k < |ids|
    requires forall a, b | 0 <= a < b < |ids| :: Pos(rows, ids[a]) < Pos(rows, ids[b])
    ensures Pos(rows, ids[k]) >= k
  {
    if k > 0 {
      AtLeastIndex(rows, scope, ids, k - 1);
      assert Pos(rows, ids[k - 1]) < Pos(rows, ids[k]);
    } else {
      assert ids[0] in ids;
    }
  }

  lemma Ascending(rows: Rows, scope: Id, ids: seq<Id>)
    requires Checked(rows) && Admits(ActiveOnly, rows) && Lists(ids, rows, scope)
    requires forall a, b | 0 <= a < b < |ids| :: Pos(rows, ids[a]) <= Pos(rows, ids[b])
    ensures forall a, b | 0 <= a < b < |ids| :: Pos(rows, ids[a]) < Pos(rows, ids[b])
    ensures forall k | 0 <= k < |ids| :: Pos(rows, ids[k]) >= k
  {
    forall a, b | 0 <= a < b < |ids|
      ensures Pos(rows, ids[a]) < Pos(rows, ids[b])
    {
      assert ids[a] in ids && ids[b] in ids && Active(rows, scope, ids[a]) && Active(rows, scope, ids[b]);
      assert !Clash(ActiveOnly, rows[ids[a]], rows[ids[b]]);
    }
    forall k | 0 <= k < |ids|
      ensures Pos(rows, ids[k]) >= k
    {
      AtLeastIndex(rows, scope, ids, k);
    }
  }

  /** Position k is free for the k-th member once the ones before it are placed. */
  lemma RoomToCompact(start: Rows, rows: Rows, scope: Id, ids: seq<Id>, k: nat)
    requires Lists(ids, start, scope) && k < |ids| && Checked(start)
    requires forall a, b | 0 <= a < b < |ids| :: Pos(start, ids[a]) < Pos(start, ids[b])
    requires forall a | 0 <= a < |ids| :: Pos(start, ids[a]) >= a
    requires Renumbered(start, rows, ids[..k]) && Admits(ActiveOnly, rows)
    ensures ids[k] in rows && Admits(ActiveOnly, rows[ids[k] := rows[ids[k]].(position := Some(k))])
  {
    assert ids[k] in ids;
    assert ids[k] !in ids[..k];
    FreeSlot(start, rows, scope, ids, k, k);
  }

  /** A slot no other active member of the scope occupies can be taken. */
  lemma FreeSlot(start: Rows, rows: Rows, scope: Id, ids: seq<Id>, k: nat, position: int)
    requires Lists(ids, start, scope) && k < |ids| && ids[k] in start
    requires rows.Keys == start.Keys && Admits(ActiveOnly, rows)
    requires position >= 0 && forall i | i in start :: rows[i] == start[i].(position := rows[i].position)
    requires forall a | 0 <= a < |ids| && a != k && ids[a] in rows :: Pos(rows, ids[a]) != position
    ensures Admits(ActiveOnly, rows[ids[k] := rows[ids[k]].(position := Some(position))])
  {
    var moved := rows[ids[k]].(position := Some(position));
    assert ids[k] in ids;
    forall j | j in rows && j != ids[k]
      ensures !Clash(ActiveOnly, moved, rows[j])
    {
      if Active(start, scope, j) {
        assert j in ids;
      }
    }
  }

  lemma RenumberedOneMore(start: Rows, rows: Rows, ids: seq<Id>, k: nat)
    requires Distinct(ids) && k < |ids| && Renumbered(start, rows, ids[..k]) && ids[k] in rows
    ensures Renumbered(start, rows[ids[k] := rows[ids[k]].(position := Some(k))], ids[..k + 1])
  {}

  lemma RenumberedIsContiguous(start: Rows, rows: Rows, scope: Id, ids: seq<Id>)
    requires Lists(ids, start, scope) && Renumbered(start, rows, ids)
    ensures Contiguous(rows, scope, ids)
  {}

  /** The first k listed rows have moved up by offset, nothing else has changed. */
  ghost predicate Shifted(start: Rows, rows: Rows, ids: seq<Id>, k: nat, offset: int)
    requires k <= |ids|
  {
    && rows.Keys == start.Keys
    && (forall i | i in start && i !in ids[..k] :: rows[i] == start[i])
    && (forall a | 0 <= a < k :: ids[a] in start
                                 && rows[ids[a]] == start[ids[a]].(position := Some(Pos(start, ids[a]) + offset)))
  }

  /** Two active members of a scope never share a position. */
  lemma ActiveApart(rows: Rows, scope: Id, ids: seq<Id>, a: nat, b: nat)
    requires Checked(rows) && Admits(ActiveOnly, rows) && Lists(ids, rows, scope) && a < |ids| && b < |ids| && a != b
    ensures ids[a] in rows && ids[b] in rows && ids[a] != ids[b] && Pos(rows, ids[a]) != Pos(rows, ids[b])
  {
    assert ids[a] in ids && ids[b] in ids && Active(rows, scope, ids[a]) && Active(rows, scope, ids[b]);
    assert ids[a] != ids[b] by { if a < b { assert ids[a] != ids[b]; } else { assert ids[b] != ids[a]; } }
    assert !Clash(ActiveOnly, rows[ids[a]], rows[ids[b]]);
  }

  /** The shifted range starts above every unshifted active position. */
  lemma RoomToShift(start: Rows, rows: Rows, scope: Id, ids: seq<Id>, k: nat, offset: int)
    requires Checked(start) && Admits(ActiveOnly, start) && Lists(ids, start, scope) && k < |ids|
    requires offset > 0 && forall i | Active(start, scope, i) :: Pos(start, i) < offset
    requires Shifted(start, rows, ids, k, offset) && Admits(ActiveOnly, rows)
    ensures ids[k] in rows && rows[ids[k]] == start[ids[k]] && rows[ids[k]].position.Some?
    ensures Admits(ActiveOnly, rows[ids[k] := rows[ids[k]].(position := Some(Pos(start, ids[k]) + offset))])
  {
    assert ids[k] in ids && Active(start, scope, ids[k]);
    assert ids[k] !in ids[..k];
    forall a | 0 <= a < |ids| && a != k && ids[a] in rows
      ensures Pos(rows, ids[a]) != Pos(start, ids[k]) + offset
    {
      ActiveApart(start, scope, ids, a, k);
      assert ids[a] in ids && Active(start, scope, ids[a]);
      if a >= k {
        assert ids[a] !in ids[..k];
      }
    }
    forall i | i in start
      ensures rows[i] == start[i].(position := rows[i].position)
    {
      if i in ids[..k] {
        var a :| 0 <= a < k && ids[a] == i;
      }
    }
    FreeSlot(start, rows, scope, ids, k, Pos(start, ids[k]) + offset);
  }

  lemma ShiftedOneMore(start: Rows, rows: Rows, ids: seq<Id>, k: nat, offset: int)
    requires Distinct(ids) && k < |ids| && Shifted(start, rows, ids, k, offset)
    requires ids[k] in rows && rows[ids[k]] == start[ids[k]]
    ensures Shifted(start, rows[ids[k] := rows[ids[k]].(position := Some(Pos(start, ids[k]) + offset))], ids, k + 1, offset)
  {
    assert ids[..k + 1] == ids[..k] + [ids[k]];
    assert ids[k] !in ids[..k];
  }

  /** After the shift the same members are active, all of them at or above offset. */
  lemma ShiftedStillLists(start: Rows, rows: Rows, scope: Id, ids: seq<Id>, ordered: seq<Id>, offset: int)
    requires Checked(start) && Lists(ids, start, scope) && Lists(ordered, start, scope)
    requires Shifted(start, rows, ids, |ids|, offset)
    ensures Lists(ordered, rows, scope) && Lists(ids, rows, scope)
    ensures forall i | i in start :: rows[i] == start[i].(position := rows[i].position)
    ensures forall i | i in ordered :: Pos(rows, i) >= offset
    ensures forall i | i in start && i !in ordered :: rows[i] == start[i]
  {}

  lemma RoomToPlace(shifted: Rows, rows: Rows, scope: Id, ordered: seq<Id>, k: nat)
    requires Lists(ordered, shifted, scope) && k < |ordered|
    requires forall i | i in ordered :: Pos(shifted, i) >= |ordered|
    requires Renumbered(shifted, rows, ordered[..k]) && Admits(ActiveOnly, rows)
    ensures ordered[k] in rows && Admits(ActiveOnly, rows[ordered[k] := rows[ordered[k]].(position := Some(k))])
  {
    assert ordered[k] in ordered && Active(shifted, scope, ordered[k]);
    forall a | 0 <= a < |ordered| && a != k && ordered[a] in rows
      ensures Pos(rows, ordered[a]) != k
    {
      assert ordered[a] in ordered;
      if a < k {
        assert ordered[..k][a] == ordered[a];
      } else {
        assert ordered[a] !in ordered[..k];
      }
    }
    FreeSlot(shifted, rows, scope, ordered, k, k);
  }

  // --------------------------------------------------- why 0006 could not compact

  /** Under uniqueness over all rows, the compacted state is legal exactly when no
      tombstone of the scope stands below N: tombstones keep their coordinates, so
      otherwise it cannot be reached by any order of updates. */
  lemma GlobalUniquenessBlocksCompaction(before: Rows, after: Rows, scope: Id, ids: seq<Id>)
    requires Checked(before) && Admits(Global, before) && Lists(ids, before, scope)
    requires Renumbered(before, after, ids)
    ensures Admits(Global, after) <==>
              forall t | t in before && before[t].parent == Some(scope) && before[t].deletedAt.Some? ::
                Pos(before, t) >= |ids|
  {
    RenumberedIsContiguous(before, after, scope, ids);
    if t :| t in before && before[t].parent == Some(scope) && before[t].deletedAt.Some? && Pos(before, t) < |ids| {
      var k := Pos(before, t);
      assert t !in ids;
      assert ids[k] in ids && Active(before, scope, ids[k]);
      assert Clash(Global, after[t], after[ids[k]]);
    } else {
      forall i, j | i in after && j in after && i != j
        ensures !Clash(Global, after[i], after[j])
      {
        NoClashAfter(before, after, scope, ids, i, j);
      }
    }
  }

  lemma NoClashAfter(before: Rows, after: Rows, scope: Id, ids: seq<Id>, i: Id, j: Id)
    requires Checked(before) && Admits(Global, before) && Lists(ids, before, scope)
    requires Renumbered(before, after, ids) && i in after && j in after && i != j
    requires forall t | t in before && before[t].parent == Some(scope) && before[t].deletedAt.Some? ::
               Pos(before, t) >= |ids|
    ensures !Clash(Global, after[i], after[j])
  {
    assert !Clash(Global, before[i], before[j]);
    var ki, kj := if i in ids then IndexIn(ids, i) else 0, if j in ids then IndexIn(ids, j) else 0;
    if i !in ids {
      assert !Active(before, scope, i);
    }
    if j !in ids {
      assert !Active(before, scope, j);
    }
  }

  ghost function IndexIn(ids: seq<Id>, i: Id): (k: nat)
    requires i in ids
    ensures k < |ids| && ids[k] == i
  {
    var k :| 0 <= k < |ids| && ids[k] == i;
    k
  }
}
