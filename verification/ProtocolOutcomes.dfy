/**
 What a drive makes of each answer: led on by itself while it keeps its authority, which
 status it records and reports for what it was told.
 */
module ProtocolOutcomes {
  import opened Wrappers
  import opened Ownership
  import opened Rediscovery
  import opened Protocol
  import opened ProtocolInvariant
  import opened ProtocolCancellation

  /** Drive k at this point, with its row and log. */
  ghost predicate Stands(s: Sys, k: Key, pc: Pc) {
    k in s.frames && s.frames[k].pc == pc && k.1 in s.db.gens && k.1 in s.logs
  }

  /** Its worker has the lease and owns the row, which is active. */
  predicate Entitled(s: Sys, k: Key) {
    && s.db.lease.Some? && s.db.lease.value.workerId == k.0
    && k.1 in s.db.gens && s.db.gens[k.1].workerId == Some(k.0)
    && s.db.gens[k.1].status in {Queued, Preparing, Submitted, Running, Importing}
  }

  /** The state after drive k alone took one step for each answer. */
  ghost function Play(s: Sys, k: Key, answers: seq<Answer>): Sys
    decreases |answers|
  {
    if answers == [] then s else Play(Next(s, k, answers[0]), k, answers[1..])
  }

  /** The drive ends there, having recorded this status and reported it. */
  ghost predicate Reports(s: Sys, k: Key, answers: seq<Answer>, st: Status) {
    k.1 in s.db.gens && k.1 in s.logs
    && var t := Play(s, k, answers);
       && k !in t.frames && t.db == s.db.(gens := s.db.gens[k.1 := s.db.gens[k.1].(status := st)])
       && t.logs == s.logs[k.1 := s.logs[k.1] + [Returned(st)]]
  }

  /** One step that only moves the drive. */
  ghost predicate MovesTo(s: Sys, k: Key, ans: Answer, pc: Pc) {
    k in s.frames && Next(s, k, ans) == s.(frames := s.frames[k := s.frames[k].(pc := pc)])
  }

  lemma PlayOne(s: Sys, k: Key, a: Answer)
    ensures Play(s, k, [a]) == Next(s, k, a)
  {
    assert [a][1..] == [];
    assert Play(Next(s, k, a), k, []) == Next(s, k, a);
  }

  /** A move first, and the rest from where it leads. */
  lemma MoveThen(s: Sys, k: Key, a: Answer, pc: Pc, rest: seq<Answer>, st: Status)
    requires MovesTo(s, k, a, pc) && Reports(Next(s, k, a), k, rest, st)
    ensures Reports(s, k, [a] + rest, st)
  {
    hide Next;
    assert ([a] + rest)[1..] == rest;
  }

  lemma StillStands(s: Sys, k: Key, a: Answer, pc: Pc)
    requires MovesTo(s, k, a, pc) && k.1 in s.db.gens && k.1 in s.logs
    ensures Stands(Next(s, k, a), k, pc) && (Entitled(s, k) ==> Entitled(Next(s, k, a), k))
    ensures Next(s, k, a).db == s.db
  {
    hide Next;
  }

  // ------------------------------------------------------------------- the two ends

  /** The terminal write of an entitled drive is recorded and reported. */
  lemma FinishReports(s: Sys, k: Key, st: Status)
    requires Stands(s, k, Finishing(st)) && Entitled(s, k)
    ensures Reports(s, k, [Silent], st)
  {
    hide AdvanceLoad, AdvanceSubmit, AdvanceResolve, AdvanceObserve, AdvanceCancel, PublishNext, Guarded;
    PlayOne(s, k, Silent);
  }

  /** The error envelope: interrupted exactly when the remote service was unavailable, and
      failed for every other fault. */
  lemma FaultReports(s: Sys, k: Key, f: Fault)
    requires Stands(s, k, Raising(f)) && Entitled(s, k)
    ensures Reports(s, k, [Silent], Interrupted) <==> f == RemoteUnavailable
    ensures Reports(s, k, [Silent], Failed) <==> f != RemoteUnavailable
  {
    hide AdvanceLoad, AdvanceSubmit, AdvanceResolve, AdvanceObserve, AdvanceCancel, PublishNext, Guarded;
    PlayOne(s, k, Silent);
    var l := s.logs[k.1];
    assert (l + [Returned(Interrupted)])[|l|] != (l + [Returned(Failed)])[|l|];
    var a, b := s.logs[k.1 := l + [Returned(Interrupted)]], s.logs[k.1 := l + [Returned(Failed)]];
    assert a[k.1] != b[k.1];
  }

  /** Without authority nothing is recorded and nothing is reported: the terminal write
      turns into the envelope, and the envelope just ends the drive. */
  lemma UnentitledEnds(s: Sys, k: Key, pc: Pc)
    requires Stands(s, k, pc) && !Entitled(s, k) && (pc.Finishing? || pc.Raising?)
    ensures pc.Finishing? ==> MovesTo(s, k, Silent, Raising(AuthorityFault))
    ensures pc.Raising? ==> Next(s, k, Silent) == s.(frames := s.frames - {k})
  {
    hide AdvanceLoad, AdvanceSubmit, AdvanceResolve, AdvanceObserve, AdvanceCancel, PublishNext, Guarded;
  }

  /** Led to a terminal write, the drive reports that status. */
  lemma ThenFinish(s: Sys, k: Key, a: Answer, st: Status)
    requires MovesTo(s, k, a, Finishing(st)) && Entitled(s, k) && k.1 in s.logs
    ensures Reports(s, k, [a, Silent], st)
  {
    hide Next;
    StillStands(s, k, a, Finishing(st));
    FinishReports(Next(s, k, a), k, st);
    MoveThen(s, k, a, Finishing(st), [Silent], st);
    assert [a] + [Silent] == [a, Silent];
  }

  lemma ThenFault(s: Sys, k: Key, a: Answer, f: Fault)
    requires MovesTo(s, k, a, Raising(f)) && Entitled(s, k) && k.1 in s.logs
    ensures Reports(s, k, [a, Silent], if f == RemoteUnavailable then Interrupted else Failed)
  {
    hide Next;
    StillStands(s, k, a, Raising(f));
    FaultReports(Next(s, k, a), k, f);
    MoveThen(s, k, a, Raising(f), [Silent], if f == RemoteUnavailable then Interrupted else Failed);
    assert [a] + [Silent] == [a, Silent];
  }

  // ------------------------------------------------------------------ observation

  predicate Ongoing(o: Observation) { o == ObsPending || o == ObsRunning || o == ObsUnknown }

  /** Where each observation leads: an ongoing job is watched on, with a heartbeat and the
      running status on progress. */
  lemma ObservingMoves(s: Sys, k: Key, p: PromptId, o: Observation, progress: bool)
    requires Stands(s, k, Observing(p))
    ensures Ongoing(o) ==> MovesTo(s, k, Observed(o, progress), if progress then ProgressStep(p) else CheckIntent(p))
    ensures o.ObsEnd? ==> MovesTo(s, k, Observed(o, progress), Resolved(p, o.end))
    ensures o.ObsLost? ==> MovesTo(s, k, Observed(o, progress), Finishing(Interrupted))
    ensures MovesTo(s, k, Unreachable(true), Finishing(Interrupted)) && MovesTo(s, k, Unreachable(false), CheckIntent(p))
  {
    hide AdvanceLoad, AdvanceSubmit, AdvanceResolve, AdvanceCancel, AdvanceFinish;
  }

  lemma ResolvedMoves(s: Sys, k: Key, p: PromptId, e: RemoteEnd)
    requires Stands(s, k, Resolved(p, e))
    ensures e == RemoteSucceeded ==> MovesTo(s, k, Silent, FetchingHistory(p))
    ensures e == RemoteFailed ==> MovesTo(s, k, Silent, Finishing(Failed))
    ensures e == RemoteCancelled ==> MovesTo(s, k, Silent, Finishing(Cancelled))
  {
    hide AdvanceLoad, AdvanceSubmit, AdvanceResolve, AdvanceObserve, AdvanceCancel, Terminalize, PublishNext, Guarded;
  }

  lemma TwoStatuses(s: Sys, k: Key, answers: seq<Answer>, a: Status, b: Status)
    requires Reports(s, k, answers, a) && Reports(s, k, answers, b)
    ensures a == b
  {
    hide Play;
    var l := s.logs[k.1];
    var x, y := s.logs[k.1 := l + [Returned(a)]], s.logs[k.1 := l + [Returned(b)]];
    assert x[k.1] == y[k.1];
    assert (l + [Returned(a)])[|l|] == (l + [Returned(b)])[|l|];
  }

  /** A job that the executor ended: failed is recorded and reported exactly for a failed
      job, cancelled exactly for a cancelled one, and a succeeded job goes on to its outputs. */
  lemma ObservedEndDecides(s: Sys, k: Key, p: PromptId, e: RemoteEnd, progress: bool)
    requires Stands(s, k, Observing(p)) && Entitled(s, k)
    ensures Reports(s, k, [Observed(ObsEnd(e), progress), Silent, Silent], Failed) <==> e == RemoteFailed
    ensures Reports(s, k, [Observed(ObsEnd(e), progress), Silent, Silent], Cancelled) <==> e == RemoteCancelled
    ensures e == RemoteSucceeded ==>
              Stands(Play(s, k, [Observed(ObsEnd(e), progress), Silent]), k, FetchingHistory(p))
  {
    hide Next, Reports, Entitled;
    var a := Observed(ObsEnd(e), progress);
    ObservingMoves(s, k, p, ObsEnd(e), progress);
    StillStands(s, k, a, Resolved(p, e));
    var t := Next(s, k, a);
    ResolvedMoves(t, k, p, e);
    var all := [a, Silent, Silent];
    assert all == [a] + [Silent, Silent];
    if e == RemoteSucceeded {
      StillStands(t, k, Silent, FetchingHistory(p));
      assert [a, Silent][1..] == [Silent];
      PlayOne(t, k, Silent);
      SuccessGoesOn(s, k, p, all, t);
    } else {
      var st := if e == RemoteFailed then Failed else Cancelled;
      ThenFinish(t, k, Silent, st);
      MoveThen(s, k, a, Resolved(p, e), [Silent, Silent], st);
      if Reports(s, k, all, Failed) {
        TwoStatuses(s, k, all, st, Failed);
      }
      if Reports(s, k, all, Cancelled) {
        TwoStatuses(s, k, all, st, Cancelled);
      }
    }
  }

  lemma SuccessGoesOn(s: Sys, k: Key, p: PromptId, answers: seq<Answer>, t: Sys)
    requires |answers| == 3 && answers[1..] == [Silent, Silent] && t == Next(s, k, answers[0])
    requires MovesTo(t, k, Silent, FetchingHistory(p)) && k.1 in t.db.gens && k.1 in t.logs
    ensures !Reports(s, k, answers, Failed) && !Reports(s, k, answers, Cancelled)
  {
    var u := Next(t, k, Silent);
    StillStands(t, k, Silent, FetchingHistory(p));
    HistoryMoves(u, k, p);
    hide Next;
    StillStands(u, k, Silent, EnterImporting(p));
    assert [Silent, Silent][1..] == [Silent];
    PlayOne(u, k, Silent);
    assert Play(s, k, answers) == Play(t, k, [Silent, Silent]) == Play(u, k, [Silent]);
  }

  lemma HistoryMoves(s: Sys, k: Key, p: PromptId)
    requires Stands(s, k, FetchingHistory(p))
    ensures MovesTo(s, k, Silent, EnterImporting(p)) && MovesTo(s, k, HistoryVanished, Finishing(Interrupted))
    ensures forall expired :: MovesTo(s, k, Unreachable(expired), Raising(RemoteUnavailable))
  {
    hide AdvanceLoad, AdvanceSubmit, AdvanceResolve, AdvanceObserve, AdvanceCancel, Terminalize, PublishNext, Guarded;
  }

  /** A job that is lost, or an outage past its grace: interrupted.  A shorter outage is
      waited out. */
  lemma LossIsInterruption(s: Sys, k: Key, p: PromptId, progress: bool)
    requires Stands(s, k, Observing(p)) && Entitled(s, k)
    ensures Reports(s, k, [Observed(ObsLost, progress), Silent], Interrupted)
    ensures Reports(s, k, [Unreachable(true), Silent], Interrupted)
    ensures MovesTo(s, k, Unreachable(false), CheckIntent(p))
  {
    hide Next, Reports, Entitled;
    ObservingMoves(s, k, p, ObsLost, progress);
    ThenFinish(s, k, Observed(ObsLost, progress), Interrupted);
    ThenFinish(s, k, Unreachable(true), Interrupted);
  }

  /** A history that vanished, and an outage while fetching it: interrupted. */
  lemma VanishedIsInterruption(s: Sys, k: Key, p: PromptId, expired: bool)
    requires Stands(s, k, FetchingHistory(p)) && Entitled(s, k)
    ensures Reports(s, k, [HistoryVanished, Silent], Interrupted)
    ensures Reports(s, k, [Unreachable(expired), Silent], Interrupted)
  {
    hide Next, Reports, Entitled;
    HistoryMoves(s, k, p);
    ThenFinish(s, k, HistoryVanished, Interrupted);
    ThenFault(s, k, Unreachable(expired), RemoteUnavailable);
  }

  /** One column of the drive's own row changes, and the drive moves on. */
  ghost predicate WritesAndMoves(s: Sys, k: Key, row: Row, pc: Pc) {
    k in s.frames && k.1 in s.db.gens
    && Next(s, k, Silent) == s.(db := s.db.(gens := s.db.gens[k.1 := row]), frames := s.frames[k := s.frames[k].(pc := pc)])
  }

  lemma BeatMoves(s: Sys, k: Key, p: PromptId)
    requires Stands(s, k, ProgressStep(p)) && Entitled(s, k)
    ensures WritesAndMoves(s, k, s.db.gens[k.1].(heartbeatAt := Some(s.db.now)), RunningStep(p))
  {
    hide AdvanceLoad, AdvanceSubmit, AdvanceResolve, AdvanceCancel, AdvanceFinish;
  }

  lemma RunningMoves(s: Sys, k: Key, p: PromptId)
    requires Stands(s, k, RunningStep(p)) && Entitled(s, k)
    ensures WritesAndMoves(s, k, s.db.gens[k.1].(status := Running), CheckIntent(p))
  {
    hide AdvanceLoad, AdvanceSubmit, AdvanceResolve, AdvanceCancel, AdvanceFinish;
  }

  /** On progress the row gets a heartbeat and the running status, and on nothing else. */
  lemma ProgressIsRecorded(s: Sys, k: Key, p: PromptId)
    requires Stands(s, k, ProgressStep(p)) && Entitled(s, k)
    ensures var t := Play(s, k, [Silent, Silent]);
            && t.db == s.db.(gens := s.db.gens[k.1 := s.db.gens[k.1].(heartbeatAt := Some(s.db.now), status := Running)])
            && Stands(t, k, CheckIntent(p)) && t.logs == s.logs && t.remote == s.remote
  {
    hide Next;
    BeatMoves(s, k, p);
    var beaten := Next(s, k, Silent);
    RunningMoves(beaten, k, p);
    PlayTwo(s, k);
  }

  lemma PlayTwo(s: Sys, k: Key)
    ensures Play(s, k, [Silent, Silent]) == Next(Next(s, k, Silent), k, Silent)
  {
    hide Next;
    assert [Silent, Silent][1..] == [Silent];
    PlayOne(Next(s, k, Silent), k, Silent);
  }

  // ------------------------------------------------------------------ cancellation

  /** With an intent each pass reconciles, without one it observes. */
  lemma IntentMoves(s: Sys, k: Key, p: PromptId)
    requires Stands(s, k, CheckIntent(p))
    ensures MovesTo(s, k, Silent, if s.db.gens[k.1].cancelRequestedAt.Some? then Reconciling(p) else Observing(p))
  {
    hide AdvanceLoad, AdvanceSubmit, AdvanceResolve, AdvanceCancel, AdvanceFinish;
  }

  /** A pending job is deleted, a running one interrupted only if that is targeted and
      retry-safe, and everything else left to a soft cancel. */
  lemma ReconcilingMoves(s: Sys, k: Key, p: PromptId, o: Observation, progress: bool)
    requires Stands(s, k, Reconciling(p))
    ensures o.ObsEnd? ==> MovesTo(s, k, Observed(o, progress), SoftCheck(p, o.end))
    ensures o.ObsLost? ==> MovesTo(s, k, Observed(o, progress), Finishing(Interrupted))
    ensures o.ObsPending? ==> MovesTo(s, k, Observed(o, progress), ProvingAuthority(p, DeletePending))
    ensures o.ObsRunning? && s.frames[k].cap.targeted && s.frames[k].cap.retrySafe ==>
              MovesTo(s, k, Observed(o, progress), ProvingAuthority(p, HardCancel))
    ensures o.ObsUnknown? || (o.ObsRunning? && !(s.frames[k].cap.targeted && s.frames[k].cap.retrySafe)) ==>
              MovesTo(s, k, Observed(o, progress), SelectingSoft(p))
    ensures forall expired :: MovesTo(s, k, Unreachable(expired), Raising(RemoteUnavailable))
  {
    hide AdvanceLoad, AdvanceSubmit, AdvanceResolve, AdvanceObserve, AdvanceFinish;
  }

  /** The mark decides what an ended job means: marked is cancelled, unmarked is what the
      executor said, except that a remote cancel only ends the drive. */
  lemma SoftCheckMoves(s: Sys, k: Key, p: PromptId, e: RemoteEnd)
    requires Stands(s, k, SoftCheck(p, e))
    ensures var row := s.db.gens[k.1];
            && (row.workerId != Some(k.0) ==> MovesTo(s, k, Silent, Raising(AuthorityFault)))
            && (row.workerId == Some(k.0) && row.softCancelSelectedAt.Some? ==> MovesTo(s, k, Silent, Finishing(Cancelled)))
            && (row.workerId == Some(k.0) && row.softCancelSelectedAt.None? && e != RemoteCancelled ==>
                  MovesTo(s, k, Silent, Resolved(p, e)))
            && (row.workerId == Some(k.0) && row.softCancelSelectedAt.None? && e == RemoteCancelled ==>
                  Next(s, k, Silent) == s.(frames := s.frames - {k}, logs := s.logs[k.1 := s.logs[k.1] + [ReturnedUnrecorded]]))
  {
    hide AdvanceLoad, AdvanceSubmit, AdvanceResolve, AdvanceObserve, AdvanceFinish;
  }

  /** After the call: accepted is cancelled, too late looks once more, and ambiguous goes
      round again; the call is logged with its kind and prompt. */
  lemma CallMoves(s: Sys, k: Key, p: PromptId, kind: CancelKind, c: CancelOutcome)
    requires Stands(s, k, Destroying(p, kind))
    ensures Next(s, k, CancelAnswer(c)) ==
            s.(frames := s.frames[k := s.frames[k].(
                 pc := if c == Accepted then Finishing(Cancelled) else if c == TooLate then LateObserve(p) else CheckIntent(p))],
               logs := s.logs[k.1 := s.logs[k.1] + [Destroyed(kind, p)]])
  {
    hide AdvanceLoad, AdvanceSubmit, AdvanceResolve, AdvanceObserve, AdvanceFinish;
  }

  lemma LateMoves(s: Sys, k: Key, p: PromptId, o: Observation, progress: bool)
    requires Stands(s, k, LateObserve(p))
    ensures MovesTo(s, k, Observed(o, progress), if o.ObsEnd? then SoftCheck(p, o.end) else Finishing(Cancelled))
    ensures forall expired :: MovesTo(s, k, Unreachable(expired), Raising(RemoteUnavailable))
  {
    hide AdvanceLoad, AdvanceSubmit, AdvanceResolve, AdvanceObserve, AdvanceFinish;
  }

  /** The mark is written under authority and with an intent; the call is made only with
      authority, and the proof renews the lease. */
  lemma SelectingMoves(s: Sys, k: Key, p: PromptId)
    requires Stands(s, k, SelectingSoft(p))
    ensures var row := s.db.gens[k.1];
            && (!Entitled(s, k) ==> MovesTo(s, k, Silent, Raising(AuthorityFault)))
            && (Entitled(s, k) && row.softCancelSelectedAt.Some? ==> MovesTo(s, k, Silent, CheckIntent(p)))
            && (Entitled(s, k) && row.softCancelSelectedAt.None? && row.cancelRequestedAt.None? ==>
                  MovesTo(s, k, Silent, Raising(IntentBug)))
            && (Entitled(s, k) && row.softCancelSelectedAt.None? && row.cancelRequestedAt.Some? ==>
                  Next(s, k, Silent) ==
                  s.(db := s.db.(gens := s.db.gens[k.1 := row.(softCancelSelectedAt := Some(s.db.now))]),
                     frames := s.frames[k := s.frames[k].(pc := CheckIntent(p))],
                     logs := s.logs[k.1 := s.logs[k.1] + [SoftSelected]]))
  {
    hide AdvanceLoad, AdvanceSubmit, AdvanceResolve, AdvanceObserve, AdvanceFinish;
  }

  /** The lease with its heartbeat at this moment. */
  function Renewed(db: Db): Db
    requires db.lease.Some?
  {
    db.(lease := Some(Lease(db.lease.value.workerId, db.lease.value.acquiredAt, db.now)))
  }

  predicate HasLease(s: Sys, k: Key) { s.db.lease.Some? && s.db.lease.value.workerId == k.0 }

  lemma ProvingMoves(s: Sys, k: Key, p: PromptId, kind: CancelKind)
    requires Stands(s, k, ProvingAuthority(p, kind))
    ensures !HasLease(s, k) ==> MovesTo(s, k, Silent, Raising(AuthorityFault))
    ensures HasLease(s, k) ==>
              Next(s, k, Silent) ==
              s.(db := Renewed(s.db),
                 frames := s.frames[k := s.frames[k].(
                   pc := if Entitled(s, k) then Destroying(p, kind) else Raising(AuthorityFault))])
  {
    hide AdvanceLoad, AdvanceSubmit, AdvanceResolve, AdvanceObserve, AdvanceFinish;
  }

  /** A soft-cancelled drive that sees its job end, however, records cancelled. */
  lemma SoftCancelDecides(s: Sys, k: Key, p: PromptId, e: RemoteEnd, progress: bool)
    requires Stands(s, k, Reconciling(p)) && Entitled(s, k) && s.db.gens[k.1].softCancelSelectedAt.Some?
    ensures Reports(s, k, [Observed(ObsEnd(e), progress), Silent, Silent], Cancelled)
  {
    hide Next, Reports;
    var a := Observed(ObsEnd(e), progress);
    ReconcilingMoves(s, k, p, ObsEnd(e), progress);
    StillStands(s, k, a, SoftCheck(p, e));
    var t := Next(s, k, a);
    SoftCheckMoves(t, k, p, e);
    ThenFinish(t, k, Silent, Cancelled);
    MoveThen(s, k, a, SoftCheck(p, e), [Silent, Silent], Cancelled);
    assert [a] + [Silent, Silent] == [a, Silent, Silent];
  }

  /** While a cancel is requested: a lost job is interrupted, and so is an outage. */
  lemma LossUnderIntent(s: Sys, k: Key, p: PromptId, progress: bool, expired: bool)
    requires Stands(s, k, Reconciling(p)) && Entitled(s, k)
    ensures Reports(s, k, [Observed(ObsLost, progress), Silent], Interrupted)
    ensures Reports(s, k, [Unreachable(expired), Silent], Interrupted)
  {
    hide Next, Reports, Entitled;
    ReconcilingMoves(s, k, p, ObsLost, progress);
    ThenFinish(s, k, Observed(ObsLost, progress), Interrupted);
    ThenFault(s, k, Unreachable(expired), RemoteUnavailable);
  }

  // ------------------------------------------------------------------- submission

  lemma LoadingMoves(s: Sys, k: Key, job: Option<PromptId>)
    requires Stands(s, k, Loaded(job))
    ensures var row := s.db.gens[k.1];
            if row.workerId != Some(k.0) then MovesTo(s, k, Silent, Raising(AuthorityFault))
            else match row.submission
                 case Uncertain => MovesTo(s, k, Silent, UncertainFound)
                 case Confirmed => MovesTo(s, k, Silent, if job.Some? then CheckPreparing(job.value) else Raising(MissingJob))
                 case NotStarted => MovesTo(s, k, Silent, PreSubmit(true))
                 case SubmissionPossible => MovesTo(s, k, Silent, PreSubmit(false))
  {
    hide AdvanceSubmit, AdvanceResolve, AdvanceObserve, AdvanceCancel, AdvanceFinish;
  }

  /** A drive that finds its attempt given up reports the status it finds, or interrupts. */
  lemma UncertainFoundMoves(s: Sys, k: Key)
    requires Stands(s, k, UncertainFound)
    ensures var st := s.db.gens[k.1].status;
            if st in {Succeeded, Failed, Cancelled}
            then Next(s, k, Silent) == s.(frames := s.frames - {k}, logs := s.logs[k.1 := s.logs[k.1] + [Returned(st)]])
            else MovesTo(s, k, Silent, Finishing(Interrupted))
  {
    hide AdvanceSubmit, AdvanceResolve, AdvanceObserve, AdvanceCancel, AdvanceFinish;
  }

  lemma PreSubmitMoves(s: Sys, k: Key, payload: bool)
    requires Stands(s, k, PreSubmit(payload))
    ensures var row := s.db.gens[k.1];
            if row.workerId != Some(k.0) then MovesTo(s, k, Silent, Raising(AuthorityFault))
            else match row.submission
                 case Uncertain => MovesTo(s, k, Silent, Finishing(Interrupted))
                 case NotStarted => MovesTo(s, k, Silent, if payload then Persisting else Raising(OrderingBug))
                 case SubmissionPossible => MovesTo(s, k, Silent, Rediscovering)
                 case Confirmed => MovesTo(s, k, Silent, Rediscovering)
  {
    hide AdvanceSubmit, AdvanceResolve, AdvanceObserve, AdvanceCancel, AdvanceFinish;
  }

  /** The drive's attempt is the row's. */
  predicate OwnAttempt(s: Sys, k: Key) {
    k in s.frames && k.1 in s.db.gens && s.db.gens[k.1].attemptId == Some(s.frames[k].attempt)
  }

  lemma PersistMoves(s: Sys, k: Key, json: string, hash: string)
    requires Stands(s, k, Persisting)
    ensures var row, a := s.db.gens[k.1], Artifact(json, hash);
            if Entitled(s, k) && OwnAttempt(s, k) && row.submission == NotStarted && row.jobId.None?
            then Next(s, k, a) ==
                 s.(db := s.db.(gens := s.db.gens[k.1 := row.(submissionJson := Some(json), submissionHash := Some(hash),
                                                              heartbeatAt := Some(s.db.now))]),
                    frames := s.frames[k := s.frames[k].(pc := Marking)])
            else MovesTo(s, k, a, Raising(AuthorityFault))
  {
    hide AdvanceLoad, AdvanceResolve, AdvanceObserve, AdvanceCancel, AdvanceFinish;
  }

  /** Only a permit of its own lets a drive go on to the POST; one that finds it spent,
      or the row ended, looks for the prompt. */
  lemma MarkingMoves(s: Sys, k: Key)
    requires Stands(s, k, Marking)
    ensures var row := s.db.gens[k.1];
            if !HasLease(s, k) || row.workerId != Some(k.0) then MovesTo(s, k, Silent, Raising(AuthorityFault))
            else if !Entitled(s, k) then MovesTo(s, k, Silent, Rediscovering)
            else if !OwnAttempt(s, k) then MovesTo(s, k, Silent, Raising(OrderingBug))
            else if row.submission != NotStarted then MovesTo(s, k, Silent, Rediscovering)
            else if row.submissionJson.None? then MovesTo(s, k, Silent, Raising(OrderingBug))
            else Next(s, k, Silent) ==
                 s.(db := s.db.(gens := s.db.gens[k.1 := row.(submission := SubmissionPossible,
                                                              submissionPossibleAt := Some(s.db.now),
                                                              heartbeatAt := Some(s.db.now))]),
                    frames := s.frames[k := s.frames[k].(pc := Permitted)])
  {
    hide AdvanceLoad, AdvanceResolve, AdvanceObserve, AdvanceCancel, AdvanceFinish;
  }

  /** Two proofs stand before the POST: the lease, then the full authority. */
  lemma ProofMoves(s: Sys, k: Key)
    requires Stands(s, k, Permitted) || Stands(s, k, Refreshed)
    ensures !HasLease(s, k) ==> MovesTo(s, k, Silent, Raising(AuthorityFault))
    ensures HasLease(s, k) ==>
              Next(s, k, Silent) ==
              s.(db := Renewed(s.db),
                 frames := s.frames[k := s.frames[k].(
                   pc := if s.frames[k].pc == Permitted then Refreshed
                         else if Entitled(s, k) then Cleared else Raising(AuthorityFault))])
  {
    hide AdvanceLoad, AdvanceResolve, AdvanceObserve, AdvanceCancel, AdvanceFinish;
  }

  /** The POST is logged whatever comes back: accepted is confirmed, rejected fails, and
      ambiguous is rediscovered; an accepted prompt carries the marker of the attempt. */
  lemma PostMoves(s: Sys, k: Key, p: PromptId)
    requires Stands(s, k, Cleared)
    ensures var logs := s.logs[k.1 := s.logs[k.1] + [Posted]];
            var queued := s.remote[p := (k.1, s.frames[k].attempt)];
            && Next(s, k, PostRejected) == s.(logs := logs, frames := s.frames[k := s.frames[k].(pc := Raising(PromptRejected))])
            && Next(s, k, PostAmbiguous(None)) == s.(logs := logs, frames := s.frames[k := s.frames[k].(pc := Rediscovering)])
            && (p !in s.remote ==>
                  && Next(s, k, PostAccepted(p)) ==
                     s.(logs := logs, remote := queued, frames := s.frames[k := s.frames[k].(pc := Confirming(p))])
                  && Next(s, k, PostAmbiguous(Some(p))) ==
                     s.(logs := logs, remote := queued, frames := s.frames[k := s.frames[k].(pc := Rediscovering)]))
  {
    hide AdvanceLoad, AdvanceResolve, AdvanceObserve, AdvanceCancel, AdvanceFinish;
  }

  /** Rediscovery adopts the one prompt, waits for an absent one until the grace expires,
      and fails on duplicates and conflicts, for whatever evidence is credible. */
  lemma RediscoveringMoves(s: Sys, k: Key, seen: seq<Sighting>, v: Verdict, expired: bool)
    requires Stands(s, k, Rediscovering)
    requires Truthful(seen, s.remote) && Answers(seen, (k.1, s.frames[k].attempt), v)
    ensures v.Adopt? ==> MovesTo(s, k, Evidence(seen, v, expired), Confirming(v.prompt))
    ensures v.Absent? && expired ==> MovesTo(s, k, Evidence(seen, v, expired), GivingUp)
    ensures v.Absent? && !expired ==> Next(s, k, Evidence(seen, v, expired)) == s
    ensures v.DuplicateAttempt? ==> MovesTo(s, k, Evidence(seen, v, expired), Raising(DuplicateAttemptFault))
    ensures v.ConflictingEvidence? ==> MovesTo(s, k, Evidence(seen, v, expired), Raising(EvidenceFault))
    ensures MovesTo(s, k, Unreachable(true), GivingUp) && Next(s, k, Unreachable(false)) == s
  {
    hide AdvanceLoad, AdvanceSubmit, AdvanceObserve, AdvanceCancel, AdvanceFinish, Truthful, Answers;
  }

  lemma GivingUpMoves(s: Sys, k: Key)
    requires Stands(s, k, GivingUp) && Entitled(s, k) && OwnAttempt(s, k) && s.db.gens[k.1].submission == SubmissionPossible
    ensures WritesAndMoves(s, k, s.db.gens[k.1].(submission := Uncertain, heartbeatAt := Some(s.db.now)), Finishing(Interrupted))
  {
    hide AdvanceLoad, AdvanceSubmit, AdvanceObserve, AdvanceCancel, AdvanceFinish;
  }

  /** Giving up: uncertain is recorded, then interrupted is recorded and reported. */
  lemma GivingUpReports(s: Sys, k: Key)
    requires Stands(s, k, GivingUp) && Entitled(s, k) && OwnAttempt(s, k) && s.db.gens[k.1].submission == SubmissionPossible
    ensures var t := Play(s, k, [Silent, Silent]);
            && k !in t.frames && t.logs == s.logs[k.1 := s.logs[k.1] + [Returned(Interrupted)]]
            && t.db == s.db.(gens := s.db.gens[k.1 := s.db.gens[k.1].(submission := Uncertain, heartbeatAt := Some(s.db.now),
                                                                       status := Interrupted)])
  {
    GivingUpMoves(s, k);
    var t := Next(s, k, Silent);
    hide Next;
    FinishReports(t, k, Interrupted);
    assert [Silent, Silent][1..] == [Silent];
    assert Play(s, k, [Silent, Silent]) == Play(t, k, [Silent]);
  }

  /** A confirmation that is refused: with the row in another state the drive goes on only
      if the row already names its prompt, and fails otherwise. */
  lemma ConfirmingMoves(s: Sys, k: Key, p: PromptId)
    requires Stands(s, k, Confirming(p))
    ensures var row := s.db.gens[k.1];
            if !Entitled(s, k) then MovesTo(s, k, Silent, Raising(AuthorityFault))
            else if !OwnAttempt(s, k) || row.submission != SubmissionPossible then MovesTo(s, k, Silent, ConflictRead(p))
            else Next(s, k, Silent) ==
                 s.(db := s.db.(gens := s.db.gens[k.1 := row.(submission := Confirmed, jobId := Some(p), handleJson := Some(p),
                                                              heartbeatAt := Some(s.db.now))]),
                    frames := s.frames[k := s.frames[k].(pc := CheckPreparing(p))])
  {
    hide AdvanceLoad, AdvanceSubmit, AdvanceObserve, AdvanceCancel, AdvanceFinish;
  }

  lemma ConflictMoves(s: Sys, k: Key, p: PromptId)
    requires Stands(s, k, ConflictRead(p))
    ensures MovesTo(s, k, Silent, if s.db.gens[k.1].jobId == Some(p) then CheckPreparing(p) else Raising(HandleConflict))
  {
    hide AdvanceLoad, AdvanceSubmit, AdvanceObserve, AdvanceCancel, AdvanceFinish;
  }

  /** Submitted is recorded only from preparing: an adopted row keeps its status. */
  lemma PreparingMoves(s: Sys, k: Key, p: PromptId)
    requires Stands(s, k, CheckPreparing(p)) || Stands(s, k, MarkSubmitted(p))
    ensures s.frames[k].pc == CheckPreparing(p) ==>
              MovesTo(s, k, Silent, if s.db.gens[k.1].status == Preparing then MarkSubmitted(p) else CheckIntent(p))
    ensures s.frames[k].pc == MarkSubmitted(p) && !Entitled(s, k) ==> MovesTo(s, k, Silent, Raising(AuthorityFault))
    ensures s.frames[k].pc == MarkSubmitted(p) && Entitled(s, k) ==>
              Next(s, k, Silent) ==
              s.(db := s.db.(gens := s.db.gens[k.1 := s.db.gens[k.1].(status := Submitted)]),
                 frames := s.frames[k := s.frames[k].(pc := CheckIntent(p))])
  {
    hide AdvanceLoad, AdvanceSubmit, AdvanceObserve, AdvanceCancel, AdvanceFinish;
  }

  /** The rejected POST, the duplicate, the conflict and the refused handle all fail. */
  lemma SubmissionFaultsFail(s: Sys, k: Key, f: Fault)
    requires Stands(s, k, Raising(f)) && Entitled(s, k)
    requires f in {PromptRejected, DuplicateAttemptFault, EvidenceFault, HandleConflict, OrderingBug, MissingJob, OutputFault, IntentBug, Unexpected}
    ensures Reports(s, k, [Silent], Failed)
  {
    hide Next, Reports;
    FaultReports(s, k, f);
  }

  // ---------------------------------------------------------------------- outputs

  lemma ImportMoves(s: Sys, k: Key, p: PromptId)
    requires Stands(s, k, EnterImporting(p))
    ensures if Entitled(s, k)
            then Next(s, k, Silent) ==
                 s.(db := s.db.(gens := s.db.gens[k.1 := s.db.gens[k.1].(status := Importing)]),
                    frames := s.frames[k := s.frames[k].(pc := Staging(p))])
            else MovesTo(s, k, Silent, Raising(AuthorityFault))
  {
    hide AdvanceLoad, AdvanceSubmit, AdvanceResolve, AdvanceObserve, AdvanceCancel, Terminalize, PublishNext;
  }

  /** Publication begins only with exactly the declared outputs staged. */
  lemma StagingMoves(s: Sys, k: Key, p: PromptId, keys: seq<string>)
    requires Stands(s, k, Staging(p))
    ensures MovesTo(s, k, Staged(keys),
                    if multiset(keys) == multiset(s.db.gens[k.1].outputs) then Publishing(p, keys) else Raising(OutputFault))
  {
    hide AdvanceLoad, AdvanceSubmit, AdvanceResolve, AdvanceObserve, AdvanceCancel, Terminalize, PublishNext, Guarded;
  }

  /** One output after another: minted and logged if it has no Take yet, passed over if it
      has, and nothing at all without the publication fence. */
  lemma PublishingMoves(s: Sys, k: Key, p: PromptId, todo: seq<string>)
    requires Stands(s, k, Publishing(p, todo))
    ensures todo == [] ==> MovesTo(s, k, Silent, Finishing(Succeeded))
    ensures todo != [] ==>
              var row := s.db.gens[k.1];
              if !(Entitled(s, k) && OwnAttempt(s, k) && row.status == Importing) then MovesTo(s, k, Silent, Raising(AuthorityFault))
              else if todo[0] in row.takes then MovesTo(s, k, Silent, Publishing(p, todo[1..]))
              else Next(s, k, Silent) ==
                   s.(db := s.db.(gens := s.db.gens[k.1 := row.(takes := row.takes + {todo[0]})]),
                      frames := s.frames[k := s.frames[k].(pc := Publishing(p, todo[1..]))],
                      logs := s.logs[k.1 := s.logs[k.1] + [Published(todo[0])]])
  {
    hide AdvanceLoad, AdvanceSubmit, AdvanceResolve, AdvanceObserve, AdvanceCancel, Terminalize, Guarded;
  }

  lemma PlayMore(s: Sys, k: Key, a: Answer, rest: seq<Answer>)
    ensures Play(s, k, [a] + rest) == Play(Next(s, k, a), k, rest)
  {
    assert ([a] + rest)[1..] == rest;
  }

  predicate AboutToPost(s: Sys, k: Key) {
    && k in s.frames && s.frames[k].pc == Cleared && k.1 in s.logs
    && Entitled(s, k) && OwnAttempt(s, k) && s.db.gens[k.1].submission == SubmissionPossible
  }

  lemma AcceptedIsConfirmed(s: Sys, k: Key, p: PromptId)
    requires AboutToPost(s, k) && p !in s.remote
    ensures var t := Play(s, k, [PostAccepted(p)] + [Silent]);
            && Stands(t, k, CheckPreparing(p)) && p in t.remote && t.remote[p] == (k.1, s.frames[k].attempt)
            && t.db.gens[k.1] == s.db.gens[k.1].(submission := Confirmed, jobId := Some(p), handleJson := Some(p),
                                                  heartbeatAt := Some(s.db.now))
  {
    hide Next;
    PostMoves(s, k, p);
    var accepted := Next(s, k, PostAccepted(p));
    PlayMore(s, k, PostAccepted(p), [Silent]);
    PlayOne(accepted, k, Silent);
    ConfirmingMoves(accepted, k, p);
  }

  lemma RejectedIsFailed(s: Sys, k: Key, p: PromptId)
    requires AboutToPost(s, k)
    ensures Reports(Next(s, k, PostRejected), k, [Silent], Failed)
  {
    hide Next, Reports;
    PostMoves(s, k, p);
    FaultReports(Next(s, k, PostRejected), k, PromptRejected);
  }

  lemma UnfoundIsUncertain(s: Sys, k: Key, p: PromptId)
    requires AboutToPost(s, k)
    ensures var t := Play(s, k, [PostAmbiguous(None)] + ([Unreachable(true)] + [Silent, Silent]));
            && k !in t.frames && k.1 in t.logs && t.logs[k.1] == s.logs[k.1] + [Posted] + [Returned(Interrupted)]
            && k.1 in t.db.gens
            && t.db.gens[k.1] == s.db.gens[k.1].(submission := Uncertain, heartbeatAt := Some(s.db.now), status := Interrupted)
  {
    hide Next;
    PostMoves(s, k, p);
    PlayMore(s, k, PostAmbiguous(None), [Unreachable(true)] + [Silent, Silent]);
    GivesUp(Next(s, k, PostAmbiguous(None)), k);
  }

  /** What becomes of the POST, as long as the drive keeps its authority: rejected, the
      generation failed; accepted, the row names the prompt that the executor queued; and
      ambiguous with nothing found in time, the attempt is given up as interrupted. */
  lemma PostDecides(s: Sys, k: Key, p: PromptId)
    requires AboutToPost(s, k) && p !in s.remote
    ensures Reports(Next(s, k, PostRejected), k, [Silent], Failed)
    ensures var t := Play(s, k, [PostAccepted(p)] + [Silent]);
            && Stands(t, k, CheckPreparing(p)) && p in t.remote && t.remote[p] == (k.1, s.frames[k].attempt)
            && t.db.gens[k.1] == s.db.gens[k.1].(submission := Confirmed, jobId := Some(p), handleJson := Some(p),
                                                  heartbeatAt := Some(s.db.now))
    ensures var t := Play(s, k, [PostAmbiguous(None)] + ([Unreachable(true)] + [Silent, Silent]));
            && k !in t.frames && k.1 in t.logs && t.logs[k.1] == s.logs[k.1] + [Posted] + [Returned(Interrupted)]
            && k.1 in t.db.gens
            && t.db.gens[k.1] == s.db.gens[k.1].(submission := Uncertain, heartbeatAt := Some(s.db.now), status := Interrupted)
  {
    hide Next, Reports, Play, Stands;
    AcceptedIsConfirmed(s, k, p);
    RejectedIsFailed(s, k, p);
    UnfoundIsUncertain(s, k, p);
  }

  lemma GivesUp(s: Sys, k: Key)
    requires Stands(s, k, Rediscovering) && Entitled(s, k) && OwnAttempt(s, k) && s.db.gens[k.1].submission == SubmissionPossible
    ensures var t := Play(s, k, [Unreachable(true)] + [Silent, Silent]);
            && k !in t.frames && k.1 in t.logs && t.logs[k.1] == s.logs[k.1] + [Returned(Interrupted)] && k.1 in t.db.gens
            && t.db.gens[k.1] == s.db.gens[k.1].(submission := Uncertain, heartbeatAt := Some(s.db.now), status := Interrupted)
  {
    hide Next;
    RediscoveringMoves(s, k, [], Absent, true);
    PlayMore(s, k, Unreachable(true), [Silent, Silent]);
    GivingUpReports(Next(s, k, Unreachable(true)), k);
  }

  // ------------------------------------------------------------- what is asked when

  /** The points at which the world has an answer to give, and the answers to give there. */
  predicate Fits(pc: Pc, ans: Answer) {
    match pc
    case Persisting => ans.Artifact?
    case Cleared => ans.PostAccepted? || ans.PostRejected? || ans.PostAmbiguous?
    case Rediscovering => ans.Evidence? || ans.Unreachable?
    case Observing(_) => ans.Observed? || ans.Unreachable?
    case Reconciling(_) => ans.Observed? || ans.Unreachable?
    case LateObserve(_) => ans.Observed? || ans.Unreachable?
    case Destroying(_, _) => ans.CancelAnswer?
    case Staging(_) => ans.Staged?
    case _ => true
  }

  /** Until its answer comes a drive waits. */
  lemma DriveWaits(s: Sys, k: Key, ans: Answer)
    requires k in s.frames && !Fits(s.frames[k].pc, ans)
    ensures Next(s, k, ans) == s
  {
    hide AdvanceLoad, Terminalize, PublishNext, Guarded;
  }

  /** Where nothing is asked every answer is the same. */
  lemma AnswerIgnored(s: Sys, k: Key, ans: Answer)
    requires k in s.frames && Fits(s.frames[k].pc, Silent) && !s.frames[k].pc.FetchingHistory? && !ans.Evidence?
    ensures Next(s, k, ans) == Next(s, k, Silent)
  {
    hide AdvanceLoad, Terminalize, PublishNext, Guarded;
  }

  lemma StartMoves(s: Sys, k: Key)
    requires Stands(s, k, Start)
    ensures MovesTo(s, k, Silent, Loaded(s.db.gens[k.1].jobId))
  {
    hide AdvanceSubmit, AdvanceResolve, AdvanceObserve, AdvanceCancel, AdvanceFinish;
  }

  // ---------------------------------------------- what starts and ends a drive

  predicate Leads(s: Sys, w: WorkerId) { s.db.lease.Some? && s.db.lease.value.workerId == w }

  predicate MayBeClaimed(r: Row) { r.status == Queued && r.submission == NotStarted }

  /** A claim starts a drive with a new attempt on the oldest queued, never submitted row
      and on no other; only the lease holder claims. */
  lemma ClaimStarts(s: Sys, w: WorkerId, g: GenId, a: AttemptId, cap: Capability)
    ensures var s', gens := Step(s, ClaimStep(w, g, a, cap)), s.db.gens;
            if Leads(s, w) && g in gens && MayBeClaimed(gens[g])
               && forall h | h in gens && MayBeClaimed(gens[h]) :: gens[g].queuedAt <= gens[h].queuedAt
            then s' == s.(
                   db := s.db.(gens := gens[g := gens[g].(
                     status := Preparing, workerId := Some(w), attemptId := Some(a), submissionPossibleAt := None,
                     heartbeatAt := Some(s.db.now))]),
                   frames := s.frames[(w, g) := Frame(a, cap, Start)])
            else s' == s
  {
    assert forall h | h in s.db.gens :: Claimable(s.db, h) <==> MayBeClaimed(s.db.gens[h]);
  }

  /** An adoption starts a drive of the attempt it finds, on any active row of another
      worker; only the lease holder adopts. */
  lemma AdoptionStarts(s: Sys, w: WorkerId, g: GenId, cap: Capability)
    ensures var s', gens := Step(s, AdoptStep(w, g, cap)), s.db.gens;
            if Leads(s, w) && g in gens && gens[g].status in {Preparing, Submitted, Running, Importing}
               && gens[g].workerId != Some(w) && gens[g].attemptId.Some?
            then s' == s.(
                   db := s.db.(gens := gens[g := gens[g].(workerId := Some(w), heartbeatAt := Some(s.db.now))]),
                   frames := s.frames[(w, g) := Frame(gens[g].attemptId.value, cap, Start)])
            else s' == s
  {}

  /** A worker asks for the lease until it first has it: it gets a free lease, its own,
      and another's only past the staleness threshold. */
  lemma AcquisitionStarts(s: Sys, w: WorkerId, ttl: int)
    ensures var s', l := Step(s, AcquireStep(w, ttl)), s.db.lease;
            if Leads(s, w) then s' == s.(db := s.db.(lease := Some(l.value.(heartbeatAt := s.db.now))), everHeld := s.everHeld + {w})
            else if w !in s.everHeld && (l.None? || l.value.heartbeatAt < s.db.now - ttl)
            then s' == s.(db := s.db.(lease := Some(Lease(w, s.db.now, s.db.now))), everHeld := s.everHeld + {w})
            else s' == s
  {}

  /** A crash ends the drives of one worker and touches nothing else; a fault raised from
      outside only moves its drive into the error envelope; a new generation is queued. */
  lemma DrivesEnd(s: Sys, w: WorkerId, g: GenId, f: Fault, outputs: seq<string>)
    ensures var t := Step(s, Crash(w));
            && t.db == s.db && t.logs == s.logs && t.remote == s.remote && t.everHeld == s.everHeld
            && forall k :: k in t.frames <==> k in s.frames && k.0 != w
    ensures forall k | k in Step(s, Crash(w)).frames :: Step(s, Crash(w)).frames[k] == s.frames[k]
    ensures var t := Step(s, Throw(w, g, f));
            if (w, g) in s.frames && f in {RemoteUnavailable, Unexpected}
            then t == s.(frames := s.frames[(w, g) := s.frames[(w, g)].(pc := Raising(f))]) else t == s
    ensures var t := Step(s, NewGeneration(g, outputs));
            if g in s.db.gens || g in s.logs then t == s
            else && g in t.db.gens && t == s.(db := s.db.(gens := s.db.gens[g := t.db.gens[g]]), logs := s.logs[g := []])
                 && MayBeClaimed(t.db.gens[g]) && t.db.gens[g].queuedAt == s.db.now && t.db.gens[g].outputs == outputs
                 && t.db.gens[g].takes == {} && t.db.gens[g].workerId.None? && t.db.gens[g].attemptId.None?
                 && t.db.gens[g].jobId.None? && t.db.gens[g].submissionJson.None? && t.db.gens[g].cancelRequestedAt.None?
                 && t.db.gens[g].softCancelSelectedAt.None? && t.db.gens[g].handleJson.None?
  {}
}
