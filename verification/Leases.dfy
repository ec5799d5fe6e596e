/**
 The lease over time: which settings keep a live worker from being taken over,
 and why the ownership check and the write must share one transaction.
 */
module Leases {
  import opened Wrappers
  import opened Ownership

  const TIMING_SAFETY_MULTIPLE := 3

  // ------------------------------------------------------------------- settings

  datatype TimingError = LeaseTtlTooShort | HeartbeatStaleTooShort

  /** Timing as the field validators leave it: every value positive. */
  datatype Timing = Timing(leaseTtl: nat, refreshInterval: nat, heartbeatInterval: nat, heartbeatStale: nat)

  class Settings {
    const dataDir: string
    const timing: Timing
    var blobDir: Option<string>
    var stagingDir: Option<string>
    var tmpDir: Option<string>

    constructor (dataDir: string, timing: Timing, blob: Option<string>, staging: Option<string>, tmp: Option<string>)
      ensures this.dataDir == dataDir && this.timing == timing
      ensures blobDir == blob && stagingDir == staging && tmpDir == tmp
    {
      this.dataDir, this.timing := dataDir, timing;
      blobDir, stagingDir, tmpDir := blob, staging, tmp;
    }

    /** Explicit directories are kept, missing ones derived; loading succeeds exactly
        when both thresholds are at least three cadences. */
    method DeriveStorageAndValidateTiming() returns (r: Result<(), TimingError>)
      modifies this
      ensures blobDir == Some(if old(blobDir).Some? then old(blobDir).value else dataDir + "/blobs")
      ensures stagingDir == Some(if old(stagingDir).Some? then old(stagingDir).value else dataDir + "/staging")
      ensures tmpDir == Some(if old(tmpDir).Some? then old(tmpDir).value else dataDir + "/tmp")
      ensures r.Success? <==> SafeTiming(timing)
      ensures r.Failure? ==> (r.error.LeaseTtlTooShort? <==> !Tolerates(timing.refreshInterval, timing.leaseTtl, 2))
    {
      if blobDir.None? {
        blobDir := Some(dataDir + "/blobs");
      }
      if stagingDir.None? {
        stagingDir := Some(dataDir + "/staging");
      }
      if tmpDir.None? {
        tmpDir := Some(dataDir + "/tmp");
      }
      ToleranceIsExact(timing.refreshInterval, timing.leaseTtl, 2);
      ToleranceIsExact(timing.heartbeatInterval, timing.heartbeatStale, 2);
      if timing.refreshInterval * TIMING_SAFETY_MULTIPLE > timing.leaseTtl {
        return Failure(LeaseTtlTooShort);
      }
      if timing.heartbeatInterval * TIMING_SAFETY_MULTIPLE > timing.heartbeatStale {
        return Failure(HeartbeatStaleTooShort);
      }
      return Success(());
    }
  }

  /** Both cadences survive any two consecutive missed beats. */
  ghost predicate SafeTiming(t: Timing) {
    Tolerates(t.refreshInterval, t.leaseTtl, 2) && Tolerates(t.heartbeatInterval, t.heartbeatStale, 2)
  }

  // ----------------------------------------------------------- beats and takeover

  /** One refresh attempt: when it was made and whether it reached the store. */
  datatype Attempt = Attempt(at: Time, lands: bool)

  function LastTry(start: Time, tries: seq<Attempt>): Time {
    if tries == [] then start else tries[|tries| - 1].at
  }

  /** The stored heartbeat after these attempts. */
  function Beat(start: Time, tries: seq<Attempt>): Time {
    if tries == [] then start
    else if tries[|tries| - 1].lands then tries[|tries| - 1].at
    else Beat(start, tries[..|tries| - 1])
  }

  /** How many of the last attempts in a row missed. */
  function Missed(tries: seq<Attempt>): nat {
    if tries == [] || tries[|tries| - 1].lands then 0 else 1 + Missed(tries[..|tries| - 1])
  }

  /** Attempts in time order, no further apart than the interval. */
  predicate Paced(start: Time, tries: seq<Attempt>, interval: nat)
    decreases |tries|
  {
    tries == [] || (
      var before := tries[..|tries| - 1];
      && Paced(start, before, interval)
      && LastTry(start, before) <= tries[|tries| - 1].at <= LastTry(start, before) + interval)
  }

  /** An attempt history, looked at no later than one interval after its last try. */
  predicate Keeping(start: Time, tries: seq<Attempt>, interval: nat, now: Time) {
    Paced(start, tries, interval) && LastTry(start, tries) <= now <= LastTry(start, tries) + interval
  }

  /** Nobody can take over while the worker is at most one interval past an attempt
      and has missed at most `misses` of them in a row, whatever happened before. */
  ghost predicate Tolerates(interval: nat, ttl: nat, misses: nat) {
    forall start: Time, tries: seq<Attempt>, now: Time ::
      Keeping(start, tries, interval, now) && Missed(tries) <= misses ==>
        now - Beat(start, tries) <= ttl
  }

  lemma {:induction false} BeatLags(start: Time, tries: seq<Attempt>, interval: nat)
    requires Paced(start, tries, interval)
    ensures LastTry(start, tries) - Beat(start, tries) <= Missed(tries) * interval
    decreases |tries|
  {
    if tries != [] && !tries[|tries| - 1].lands {
      BeatLags(start, tries[..|tries| - 1], interval);
    }
  }

  function AllMissed(interval: nat, n: nat): seq<Attempt> {
    if n == 0 then [] else AllMissed(interval, n - 1) + [Attempt(n * interval, false)]
  }

  lemma {:induction false} AllMissedPaced(interval: nat, n: nat)
    ensures var tries := AllMissed(interval, n);
            && Paced(0, tries, interval) && Missed(tries) == n && Beat(0, tries) == 0
            && LastTry(0, tries) == n * interval
  {
    if n > 0 {
      AllMissedPaced(interval, n - 1);
      assert AllMissed(interval, n)[..|AllMissed(interval, n)| - 1] == AllMissed(interval, n - 1);
    }
  }

  lemma Scaled(a: nat, b: nat, interval: nat)
    requires a <= b
    ensures a * interval <= b * interval
  {}

  /** A threshold tolerates n missed beats exactly when it is n + 1 intervals long. */
  lemma ToleranceIsExact(interval: nat, ttl: nat, misses: nat)
    ensures Tolerates(interval, ttl, misses) <==> (misses + 1) * interval <= ttl
  {
    assert (misses + 1) * interval == misses * interval + interval;
    if (misses + 1) * interval <= ttl {
      forall start: Time, tries: seq<Attempt>, now: Time
        | Keeping(start, tries, interval, now) && Missed(tries) <= misses
        ensures now - Beat(start, tries) <= ttl
      {
        BeatLags(start, tries, interval);
        Scaled(Missed(tries), misses, interval);
      }
    }
    if Tolerates(interval, ttl, misses) {
      AllMissedPaced(interval, misses);
      var tries, now := AllMissed(interval, misses), misses * interval + interval;
      assert Keeping(0, tries, interval, now);
      assert now - Beat(0, tries) <= ttl;
    }
  }

  /** A contender w meets a lease kept by these attempts. */
  predicate Contended(db: Db, w: WorkerId, start: Time, tries: seq<Attempt>, interval: nat) {
    && db.lease.Some? && db.lease.value.workerId != w && db.lease.value.heartbeatAt == Beat(start, tries)
    && Keeping(start, tries, interval, db.now)
  }

  /** The contender is held off through any two consecutive missed refreshes exactly
      when the settings load: with a shorter TTL some such history loses the lease. */
  lemma LoadedSettingsHoldTheLease(interval: nat, ttl: nat)
    ensures interval * TIMING_SAFETY_MULTIPLE <= ttl <==>
              forall db: Db, w: WorkerId, start: Time, tries: seq<Attempt> ::
                Contended(db, w, start, tries, interval) && Missed(tries) <= 2 ==>
                  AcquireLease(db, w, ttl) == (db, HeldByOther)
  {
    ToleranceIsExact(interval, ttl, 2);
    if Tolerates(interval, ttl, 2) {
      forall db: Db, w: WorkerId, start: Time, tries: seq<Attempt>
        | Contended(db, w, start, tries, interval) && Missed(tries) <= 2
        ensures AcquireLease(db, w, ttl) == (db, HeldByOther)
      {
        assert db.now - Beat(start, tries) <= ttl;
      }
    } else {
      var start: Time, tries: seq<Attempt>, now: Time :|
        Keeping(start, tries, interval, now) && Missed(tries) <= 2
        && now - Beat(start, tries) > ttl;
      var db := Db(now, Some(Lease("holder", start, Beat(start, tries))), map[]);
      assert Contended(db, "contender", start, tries, interval);
      assert AcquireLease(db, "contender", ttl).1 == TakenOver;
    }
  }

  // ----------------------------------------------------- split check-then-write

  /** A writer that reads the lease in one transaction and writes in another, among
      contenders of any TTL. */
  datatype SplitStep =
    | Check(w: WorkerId)
    | WriteAfterCheck(w: WorkerId, g: GenId, to: Status)
    | Acquire(w: WorkerId, ttl: int)
    | Refresh(w: WorkerId)
    | Wait(seconds: nat)

  /** The store, the heartbeat that each believer's last check showed, and how many
      status writes were committed by somebody who did not hold the lease. */
  datatype Split = Split(db: Db, believes: map<WorkerId, Time>, strays: nat)

  function SplitNext(s: Split, a: SplitStep): Split {
    match a
    case Check(w) =>
      if Holder(s.db) == Some(w) then s.(believes := s.believes[w := s.db.lease.value.heartbeatAt])
      else s.(believes := s.believes - {w})
    case WriteAfterCheck(w, g, to) =>
      if w in s.believes && g in s.db.gens
      then s.(db := PutRow(s.db, g, s.db.gens[g].(status := to)),
              strays := if Holder(s.db) == Some(w) then s.strays else s.strays + 1)
      else s
    case Acquire(w, ttl) => s.(db := AcquireLease(s.db, w, ttl).0)
    case Refresh(w) => s.(db := RefreshLease(s.db, w).0)
    case Wait(n) => s.(db := s.db.(now := s.db.now + n))
  }

  function SplitRun(s: Split, run: seq<SplitStep>): Split {
    if run == [] then s else SplitNext(SplitRun(s, run[..|run| - 1]), run[|run| - 1])
  }

  /** The state in which step i of the run is taken. */
  function Before(s: Split, run: seq<SplitStep>, i: nat): Split
    requires i <= |run|
  {
    SplitRun(s, run[..i])
  }

  lemma Onward(s: Split, run: seq<SplitStep>, i: nat)
    requires i < |run|
    ensures Before(s, run, i + 1) == SplitNext(Before(s, run, i), run[i])
  {
    assert run[..i + 1][..i] == run[..i];
  }

  /** Nobody has checked yet, and no heartbeat lies in the future. */
  predicate Fresh(s: Split) {
    s.believes == map[] && (s.db.lease.Some? ==> s.db.lease.value.heartbeatAt <= s.db.now)
  }

  // what a writer may rely on

  /** Every contender uses at least this TTL. */
  predicate Contenders(run: seq<SplitStep>, ttl: nat) {
    forall a | a in run && a.Acquire? :: ttl <= a.ttl
  }

  /** Within the TTL of the heartbeat it saw, a believer still holds the lease. */
  predicate Justified(s: Split, ttl: nat) {
    && (s.db.lease.Some? ==> s.db.lease.value.heartbeatAt <= s.db.now)
    && forall w | w in s.believes && s.db.now <= s.believes[w] + ttl ::
         Holder(s.db) == Some(w) && s.believes[w] <= s.db.lease.value.heartbeatAt
  }

  lemma {:induction false} BelieversAreJustified(s: Split, run: seq<SplitStep>, ttl: nat)
    requires Fresh(s) && Contenders(run, ttl)
    ensures Justified(SplitRun(s, run), ttl)
    decreases |run|
  {
    if run != [] {
      BelieversAreJustified(s, run[..|run| - 1], ttl);
      assert run[|run| - 1] in run;
    }
  }

  /** In no run does a worker that writes this long after the heartbeat it saw find the
      lease with somebody else. */
  ghost predicate SafeStall(ttl: nat, stall: nat) {
    forall s, run, w | Stalled(s, run, w, ttl, stall) :: Holder(SplitRun(s, run).db) == Some(w)
  }

  predicate Stalled(s: Split, run: seq<SplitStep>, w: WorkerId, ttl: nat, stall: nat) {
    && Fresh(s) && Contenders(run, ttl)
    && w in SplitRun(s, run).believes && SplitRun(s, run).db.now == SplitRun(s, run).believes[w] + stall
  }

  /** A split write is safe exactly up to the least TTL of the contenders, counted from
      the heartbeat that the check saw: within it no run strays, and for every longer
      stall some run does. */
  lemma StallIsSafeExactly(ttl: nat, stall: nat)
    ensures SafeStall(ttl, stall) <==> stall <= ttl
  {
    if stall <= ttl {
      forall s, run, w | Stalled(s, run, w, ttl, stall)
        ensures Holder(SplitRun(s, run).db) == Some(w)
      {
        BelieversAreJustified(s, run, ttl);
      }
    } else {
      LongStallStrays(ttl, stall, "G", FreshRow(0, []), Succeeded);
      assert Stalled(OldHolds("G", FreshRow(0, [])), TakeoverDuringStall(ttl, stall), "OLD", ttl, stall);
    }
  }

  function OldHolds(g: GenId, row: Row): Split {
    Split(Db(0, Some(Lease("OLD", 0, 0)), map[g := row]), map[], 0)
  }

  function TakeoverDuringStall(ttl: nat, stall: nat): seq<SplitStep> {
    [Check("OLD"), Wait(stall), Acquire("NEW", ttl)]
  }

  /** The old holder checks, stalls past the TTL, and writes under the new holder; in
      one transaction with the check the same write is refused. */
  lemma LongStallStrays(ttl: nat, stall: nat, g: GenId, row: Row, to: Status)
    requires ttl < stall
    ensures var s := SplitRun(OldHolds(g, row), TakeoverDuringStall(ttl, stall));
            var after := SplitNext(s, WriteAfterCheck("OLD", g, to));
            && Fresh(OldHolds(g, row)) && Contenders(TakeoverDuringStall(ttl, stall), ttl)
            && s.believes == map["OLD" := 0] && s.db.now == stall && Holder(s.db) == Some("NEW")
            && after.strays == 1 && after.db.gens == map[g := row.(status := to)]
            && Transition(s.db, "OLD", g, to) == (s.db, LeaseLost)
  {
    var s0, run := OldHolds(g, row), TakeoverDuringStall(ttl, stall);
    Onward(s0, run, 0);
    Onward(s0, run, 1);
    Onward(s0, run, 2);
    assert Before(s0, run, 0) == s0 && run[..3] == run;
    assert Before(s0, run, 1).believes == map["OLD" := 0];
    assert Before(s0, run, 2).db == s0.db.(now := stall);
  }

  // when a write is a stray

  /** Step i writes to an existing generation without holding the lease. */
  predicate Strays(s: Split, run: seq<SplitStep>, i: nat)
    requires i < |run|
  {
    var b := Before(s, run, i);
    && run[i].WriteAfterCheck? && run[i].w in b.believes && run[i].g in b.db.gens && Holder(b.db) != Some(run[i].w)
  }

  /** A check that succeeds, made by w at step c, and its last before i. */
  predicate LastCheck(s: Split, run: seq<SplitStep>, w: WorkerId, c: nat, i: nat)
    requires i <= |run|
  {
    && c < i && run[c] == Check(w) && Holder(Before(s, run, c).db) == Some(w)
    && forall j | c < j < i :: run[j] != Check(w)
  }

  /** At step t somebody takes the lease over from its holder. */
  predicate TakesOver(s: Split, run: seq<SplitStep>, t: nat)
    requires t < |run|
  {
    run[t].Acquire? && AcquireLease(Before(s, run, t).db, run[t].w, run[t].ttl).1 == TakenOver
  }

  /** Somebody other than w takes the lease over at step t, and w never does before i. */
  predicate LosesFor(s: Split, run: seq<SplitStep>, w: WorkerId, t: nat, i: nat)
    requires i <= |run|
  {
    && t < i && TakesOver(s, run, t) && run[t].w != w
    && forall j | t < j < i && TakesOver(s, run, j) :: run[j].w != w
  }

  lemma {:induction false} BelievesSince(s: Split, run: seq<SplitStep>, w: WorkerId, i: nat)
    requires Fresh(s) && i <= |run|
    ensures w in Before(s, run, i).believes <==> exists c :: LastCheck(s, run, w, c, i)
    decreases i
  {
    if i > 0 {
      Onward(s, run, i - 1);
      BelievesSince(s, run, w, i - 1);
      if run[i - 1] == Check(w) {
        assert Holder(Before(s, run, i - 1).db) == Some(w) ==> LastCheck(s, run, w, i - 1, i);
      } else {
        if c: nat :| LastCheck(s, run, w, c, i) {
          assert LastCheck(s, run, w, c, i - 1);
        }
        var before: nat := i - 1;
        if c: nat :| LastCheck(s, run, w, c, before) {
          assert LastCheck(s, run, w, c, i);
        }
      }
    }
  }

  lemma {:induction false} LostSince(s: Split, run: seq<SplitStep>, w: WorkerId, c: nat, i: nat)
    requires c <= i <= |run| && Holder(Before(s, run, c).db) == Some(w)
    ensures Before(s, run, i).db.lease.Some?
    ensures Holder(Before(s, run, i).db) != Some(w) <==> exists t :: c <= t && LosesFor(s, run, w, t, i)
    decreases i
  {
    if i > c {
      Onward(s, run, i - 1);
      LostSince(s, run, w, c, i - 1);
      if TakesOver(s, run, i - 1) {
        assert run[i - 1].w != w ==> LosesFor(s, run, w, i - 1, i);
      } else {
        if t: nat :| c <= t && LosesFor(s, run, w, t, i) {
          assert LosesFor(s, run, w, t, i - 1);
        }
        var before: nat := i - 1;
        if t: nat :| c <= t && LosesFor(s, run, w, t, before) {
          assert LosesFor(s, run, w, t, i);
        }
      }
    }
  }

  lemma {:induction false} SplitKeepsRows(s: Split, run: seq<SplitStep>)
    ensures SplitRun(s, run).db.gens.Keys == s.db.gens.Keys
    decreases |run|
  {
    if run != [] {
      SplitKeepsRows(s, run[..|run| - 1]);
    }
  }

  /** A takeover between the writer's last check and its write, not undone in between. */
  predicate Overtaken(s: Split, run: seq<SplitStep>, c: nat, t: nat, i: nat)
    requires i < |run|
  {
    && run[i].WriteAfterCheck? && run[i].g in s.db.gens
    && LastCheck(s, run, run[i].w, c, i) && c < t && LosesFor(s, run, run[i].w, t, i)
  }

  /** In any run a write is a stray exactly when such a takeover exists. */
  lemma StraysExactly(s: Split, run: seq<SplitStep>, i: nat)
    requires Fresh(s) && i < |run|
    ensures Strays(s, run, i) <==> exists c, t :: Overtaken(s, run, c, t, i)
  {
    SplitKeepsRows(s, run[..i]);
    if run[i].WriteAfterCheck? {
      var w := run[i].w;
      BelievesSince(s, run, w, i);
      if Strays(s, run, i) {
        var c :| LastCheck(s, run, w, c, i);
        LostSince(s, run, w, c, i);
        var t :| c <= t && LosesFor(s, run, w, t, i);
        assert Overtaken(s, run, c, t, i);
      }
      if c, t :| Overtaken(s, run, c, t, i) {
        LostSince(s, run, w, c, i);
      }
    }
  }

  /** So a whole run commits a stray write exactly when one of its writers is overtaken. */
  lemma RunStraysExactly(s: Split, run: seq<SplitStep>)
    requires Fresh(s)
    ensures SplitRun(s, run).strays > s.strays <==>
              exists i: nat, c: nat, t: nat :: i < |run| && Overtaken(s, run, c, t, i)
  {
    StraysCounted(s, run, |run|);
    assert run[..|run|] == run;
    if i: nat :| i < |run| && Strays(s, run, i) {
      StraysExactly(s, run, i);
    }
    if i: nat, c: nat, t: nat :| i < |run| && Overtaken(s, run, c, t, i) {
      StraysExactly(s, run, i);
    }
  }

  lemma {:induction false} StraysCounted(s: Split, run: seq<SplitStep>, n: nat)
    requires n <= |run|
    ensures Before(s, run, n).strays >= s.strays
    ensures Before(s, run, n).strays > s.strays <==> exists i :: 0 <= i < n && Strays(s, run, i)
    decreases n
  {
    if n > 0 {
      Onward(s, run, n - 1);
      StraysCounted(s, run, n - 1);
      assert Before(s, run, n).strays == Before(s, run, n - 1).strays + if Strays(s, run, n - 1) then 1 else 0;
    }
  }
}
