/**
 What remains possible once a soft cancel is selected.  Publication does not
 (ProtocolTheorems.SoftCancelIsFinal); a destructive remote call does, because
 decide_cancellation looks at the executor's state and not at the durable mark.
 */
module ProtocolCancellation {
  import opened Wrappers
  import opened Ownership
  import opened Rediscovery
  import opened Protocol
  import opened ProtocolInvariant
  import opened ProtocolSteps
  import opened ProtocolHistory
  import opened ProtocolTheorems
  import opened ProtocolEffects
  import opened ProtocolLimits

  /** Some continuation makes a destructive call of this kind for g. */
  ghost predicate DestroyMayFollow(s: Sys, g: GenId, kind: CancelKind)
    requires g in s.logs
  {
    exists more: seq<Action> :: DestroysIn(s, Run(s, more), g, kind)
  }

  ghost predicate DestroysIn(s: Sys, s': Sys, g: GenId, kind: CancelKind)
    requires g in s.logs
  {
    g in s'.logs && exists i :: |s.logs[g]| <= i < |s'.logs[g]| && s'.logs[g][i].Destroyed? && s'.logs[g][i].kind == kind
  }

  /** A drive already past its authority proof for such a call. */
  ghost predicate CallPending(s: Sys, g: GenId, kind: CancelKind) {
    exists k :: k in s.frames && k.1 == g && s.frames[k].pc.Destroying? && s.frames[k].pc.kind == kind
  }

  // ------------------------------------------------- no call can follow any more

  ghost predicate Closed(s: Sys, g: GenId, kind: CancelKind) {
    && g in s.db.gens && g in s.logs && Terminal(s.db.gens[g].status) && !CallPending(s, g, kind)
  }

  lemma AdvanceClosed(s: Sys, k: Key, ans: Answer, g: GenId, kind: CancelKind)
    requires k in s.frames && k.1 in s.db.gens && k.1 in s.logs && Closed(s, g, kind)
    ensures var s' := AdvanceFrame(s, k, ans);
            !CallPending(s', g, kind) && g in s'.logs && !DestroysIn(s, s', g, kind)
  {
    hide AdvanceFrame;
    AdvanceIsLocal(s, k, ans);
    var s' := AdvanceFrame(s, k, ans);
    assert forall j | j in s'.frames && j.1 == g && s'.frames[j].pc.Destroying? ::
        j in s.frames && s'.frames[j] == s.frames[j];
  }

  lemma StaysTerminal(s: Sys, s': Sys, g: GenId)
    requires Follows(s, s') && g in s.db.gens && Terminal(s.db.gens[g].status)
    ensures g in s'.db.gens && Terminal(s'.db.gens[g].status)
  {}

  lemma StepClosed(s: Sys, a: Action, g: GenId, kind: CancelKind)
    requires Inv(s) && Closed(s, g, kind)
    ensures Closed(Step(s, a), g, kind) && !DestroysIn(s, Step(s, a), g, kind)
  {
    hide Inv, AdvanceFrame, Follows, RefreshLease, AcquireLease, UserCancel, Ownership.Adopt, Requeue, Claim;
    StepFollows(s, a);
    StaysTerminal(s, Step(s, a), g);
    match a {
      case Advance(w, h, ans) =>
        if (w, h) in s.frames && h in s.db.gens && h in s.logs {
          AdvanceClosed(s, (w, h), ans, g, kind);
        }
      case _ =>
    }
  }

  lemma {:induction false} RunClosed(s: Sys, more: seq<Action>, g: GenId, kind: CancelKind)
    requires Inv(s) && Closed(s, g, kind)
    ensures Closed(Run(s, more), g, kind) && !DestroysIn(s, Run(s, more), g, kind)
    decreases |more|
  {
    hide Inv, Step, CallPending;
    if more != [] {
      var before := more[..|more| - 1];
      RunClosed(s, before, g, kind);
      RunKeeps(s, before);
      RunFollows(s, before);
      StepClosed(Run(s, before), more[|more| - 1], g, kind);
      StepFollows(Run(s, before), more[|more| - 1]);
    }
  }

  // ------------------------------------------------ a successor reaches the call

  /** A drive of the lease holder on its own confirmed row with an intent. */
  ghost predicate Focus(s: Sys, k: Key, cap: Capability, p: PromptId, l: seq<Event>, pc: Pc) {
    && k in s.frames && s.frames[k].pc == pc && s.frames[k].cap == cap && Holder(s.db) == Some(k.0)
    && k.1 in s.db.gens && k.1 in s.logs && s.logs[k.1] == l
    && var row := s.db.gens[k.1];
    && row.workerId == Some(k.0) && !Terminal(row.status) && row.submission == Confirmed
    && row.jobId == Some(p) && row.cancelRequestedAt.Some?
  }

  ghost function Next(s: Sys, k: Key, ans: Answer): Sys { Step(s, Advance(k.0, k.1, ans)) }

  lemma FocusLoad(s: Sys, k: Key, cap: Capability, p: PromptId, l: seq<Event>)
    ensures Focus(s, k, cap, p, l, Start) ==> Focus(Next(s, k, Silent), k, cap, p, l, Loaded(Some(p)))
    ensures Focus(s, k, cap, p, l, Loaded(Some(p))) ==> Focus(Next(s, k, Silent), k, cap, p, l, CheckPreparing(p))
  {
    hide AdvanceSubmit, AdvanceResolve, AdvanceObserve, AdvanceCancel, AdvanceFinish;
    if Focus(s, k, cap, p, l, Start) {
    } else if Focus(s, k, cap, p, l, Loaded(Some(p))) {
      assert ReadState(s, k) == Some(Confirmed);
    }
  }

  lemma FocusPreparing(s: Sys, k: Key, cap: Capability, p: PromptId, l: seq<Event>)
    ensures Focus(s, k, cap, p, l, CheckPreparing(p)) ==>
              || Focus(Next(s, k, Silent), k, cap, p, l, MarkSubmitted(p))
              || Focus(Next(s, k, Silent), k, cap, p, l, CheckIntent(p))
  {
    hide AdvanceSubmit, AdvanceLoad, AdvanceObserve, AdvanceCancel, AdvanceFinish, Transition;
  }

  lemma FocusSubmitted(s: Sys, k: Key, cap: Capability, p: PromptId, l: seq<Event>)
    ensures Focus(s, k, cap, p, l, MarkSubmitted(p)) ==> Focus(Next(s, k, Silent), k, cap, p, l, CheckIntent(p))
  {
    hide AdvanceSubmit, AdvanceLoad, AdvanceObserve, AdvanceCancel, AdvanceFinish;
  }

  /** What the executor must show, and the deployment allow, for a call of this kind. */
  function Pretext(kind: CancelKind): Observation {
    match kind
    case DeletePending => ObsPending
    case HardCancel => ObsRunning
  }

  const Hard: Capability := Capability(true, true)

  lemma FocusIntent(s: Sys, k: Key, p: PromptId, l: seq<Event>)
    ensures Focus(s, k, Hard, p, l, CheckIntent(p)) ==> Focus(Next(s, k, Silent), k, Hard, p, l, Reconciling(p))
  {
    hide AdvanceSubmit, AdvanceLoad, AdvanceResolve, AdvanceCancel, AdvanceFinish;
  }

  lemma FocusReconcile(s: Sys, k: Key, p: PromptId, l: seq<Event>, kind: CancelKind)
    ensures Focus(s, k, Hard, p, l, Reconciling(p)) ==>
              Focus(Next(s, k, Observed(Pretext(kind), false)), k, Hard, p, l, ProvingAuthority(p, kind))
  {
    hide AdvanceSubmit, AdvanceLoad, AdvanceResolve, AdvanceObserve, AdvanceFinish;
  }

  lemma FocusProve(s: Sys, k: Key, p: PromptId, l: seq<Event>, kind: CancelKind)
    ensures Focus(s, k, Hard, p, l, ProvingAuthority(p, kind)) ==>
              Focus(Next(s, k, Silent), k, Hard, p, l, Destroying(p, kind))
  {
    hide AdvanceSubmit, AdvanceLoad, AdvanceResolve, AdvanceObserve, AdvanceFinish;
  }

  lemma CallIsMade(s: Sys, k: Key)
    requires k in s.frames && k.1 in s.db.gens && k.1 in s.logs && s.frames[k].pc.Destroying?
    ensures DestroysIn(s, Next(s, k, CancelAnswer(Accepted)), k.1, s.frames[k].pc.kind)
  {
    hide AdvanceSubmit, AdvanceLoad, AdvanceResolve, AdvanceObserve, AdvanceFinish;
    var s' := Next(s, k, CancelAnswer(Accepted));
    assert s'.logs[k.1][|s.logs[k.1]|].Destroyed?;
  }

  lemma Extend(s: Sys, more: seq<Action>, k: Key, ans: Answer) returns (longer: seq<Action>)
    ensures Run(s, longer) == Next(Run(s, more), k, ans)
  {
    hide Step;
    longer := more + [Advance(k.0, k.1, ans)];
    RunSnoc(s, more, Advance(k.0, k.1, ans));
  }

  /** From a fresh adoption to the point of the call. */
  lemma DriveToCall(s: Sys, start: seq<Action>, k: Key, p: PromptId, l: seq<Event>, kind: CancelKind)
    returns (more: seq<Action>)
    requires Focus(Run(s, start), k, Hard, p, l, Start)
    ensures Focus(Run(s, more), k, Hard, p, l, Destroying(p, kind))
  {
    hide Focus, Step, Run, Next;
    FocusLoad(Run(s, start), k, Hard, p, l);
    more := Extend(s, start, k, Silent);
    FocusLoad(Run(s, more), k, Hard, p, l);
    more := Extend(s, more, k, Silent);
    FocusPreparing(Run(s, more), k, Hard, p, l);
    more := Extend(s, more, k, Silent);
    if !Focus(Run(s, more), k, Hard, p, l, CheckIntent(p)) {
      FocusSubmitted(Run(s, more), k, Hard, p, l);
      more := Extend(s, more, k, Silent);
    }
    FocusIntent(Run(s, more), k, p, l);
    more := Extend(s, more, k, Silent);
    FocusReconcile(Run(s, more), k, p, l, kind);
    more := Extend(s, more, k, Observed(Pretext(kind), false));
    FocusProve(Run(s, more), k, p, l, kind);
    more := Extend(s, more, k, Silent);
  }

  lemma {:induction false} LongerThanAll(names: set<string>) returns (n: nat)
    ensures forall x | x in names :: |x| < n
    decreases |names|
  {
    if names == {} {
      n := 0;
    } else {
      var x :| x in names;
      n := LongerThanAll(names - {x});
      n := if n <= |x| then |x| + 1 else n;
    }
  }

  lemma FreshName(names: set<string>) returns (w: WorkerId)
    ensures w !in names
  {
    var n := LongerThanAll(names);
    w := seq(n, _ => 'w');
  }

  /** A fresh drive of a worker that holds the lease and has just adopted the row. */
  ghost predicate Adopted(s: Sys, s': Sys, k: Key, cap: Capability) {
    && k in s'.frames && s'.frames[k].pc == Start && s'.frames[k].cap == cap && Holder(s'.db) == Some(k.0)
    && k.1 in s.db.gens && k.1 in s.logs && k.1 in s'.db.gens && k.1 in s'.logs && s'.logs[k.1] == s.logs[k.1]
    && s'.remote == s.remote
    && var r, r' := s.db.gens[k.1], s'.db.gens[k.1];
    && r' == r.(workerId := Some(k.0), heartbeatAt := r'.heartbeatAt)
  }

  /** A worker not seen before waits out the lease, takes it, and adopts g. */
  lemma TakeOver(s: Sys, g: GenId, cap: Capability) returns (w: WorkerId, more: seq<Action>)
    requires Inv(s) && g in s.db.gens && !Terminal(s.db.gens[g].status) && s.db.gens[g].status != Queued
    ensures Adopted(s, Run(s, more), (w, g), cap)
  {
    hide Inv, RowShape, AdvanceFrame;
    RowOfInv(s, g);
    ShapeOf(s, g);
    AttemptThere(s.db.gens[g]);
    var row := s.db.gens[g];
    w := FreshName(s.everHeld + if row.workerId.Some? then {row.workerId.value} else {});
    var start := TakeLease(s, w);
    var s2 := Run(s, start);
    assert Adopted(s, Step(s2, AdoptStep(w, g, cap)), (w, g), cap);
    hide Step, Adopted;
    RunSnoc(s, start, AdoptStep(w, g, cap));
    more := start + [AdoptStep(w, g, cap)];
  }

  /** A worker that never had the lease waits out its holder and takes it. */
  lemma TakeLease(s: Sys, w: WorkerId) returns (more: seq<Action>)
    requires Inv(s) && w !in s.everHeld
    ensures var t := Run(s, more);
            && Held(t, w) && t.db.gens == s.db.gens && t.logs == s.logs && t.frames == s.frames && t.remote == s.remote
  {
    hide RowOk, FrameOk, OnePermit, AdvanceFrame;
    var wait: nat := if s.db.lease.Some? && s.db.lease.value.heartbeatAt >= s.db.now
                     then s.db.lease.value.heartbeatAt - s.db.now + 2 else 2;
    var s1 := Step(s, Tick(wait));
    var s2 := Step(s1, AcquireStep(w, 1));
    assert Held(s2, w) && s2 == s1.(db := s2.db, everHeld := s2.everHeld) && s2.db.gens == s.db.gens;
    hide Inv, Step;
    assert Run(s, []) == s;
    RunSnoc(s, [], Tick(wait));
    RunSnoc(s, [] + [Tick(wait)], AcquireStep(w, 1));
    more := [] + [Tick(wait)] + [AcquireStep(w, 1)];
  }

  lemma AttemptThere(r: Row)
    requires RowShape(r) && !Terminal(r.status) && r.status != Queued
    ensures r.attemptId.Some? && (r.submission == Confirmed ==> r.jobId.Some?)
  {}

  lemma ConfirmedThere(r: Row)
    requires RowShape(r) && r.submission == Confirmed
    ensures r.status != Queued && r.jobId.Some?
  {}

  /** The same for a confirmed row whose cancellation was requested. */
  lemma Succeed(s: Sys, g: GenId, cap: Capability) returns (w: WorkerId, more: seq<Action>)
    requires Inv(s) && g in s.db.gens && !Terminal(s.db.gens[g].status)
    requires s.db.gens[g].submission == Confirmed && s.db.gens[g].cancelRequestedAt.Some?
    ensures g in s.logs && s.db.gens[g].jobId.Some?
    ensures Focus(Run(s, more), (w, g), cap, s.db.gens[g].jobId.value, s.logs[g], Start)
  {
    hide Inv, RowShape, Run, Step;
    ShapeOf(s, g);
    ConfirmedThere(s.db.gens[g]);
    w, more := TakeOver(s, g, cap);
  }

  // ------------------------------------------------------- every row can still end

  /** The envelope of a drive that raises records a terminal status. */
  lemma EnvelopeEnds(s: Sys, s': Sys, k: Key, cap: Capability)
    requires Adopted(s, s', k, cap) && !Terminal(s.db.gens[k.1].status)
    ensures var t := Step(s', Throw(k.0, k.1, Unexpected));
            var u := Step(t, Advance(k.0, k.1, Silent));
            k.1 in u.db.gens && u.db.gens[k.1].status == Failed
  {
    hide AdvanceLoad, AdvanceSubmit, AdvanceResolve, AdvanceObserve, AdvanceCancel, PublishNext, Guarded;
    var t := Step(s', Throw(k.0, k.1, Unexpected));
    assert t == At(s', k, Raising(Unexpected)) && k in t.frames && k.1 in t.db.gens && k.1 in t.logs;
    assert Step(t, Advance(k.0, k.1, Silent)) == Terminalize(t, k, Failed, End(t, k));
  }

  /** From every reachable state an active generation can still reach a terminal
      status, whatever became of its worker: a queued one by the user, any other by a
      worker that takes over, adopts it and fails it. */
  lemma ActiveRowsCanEnd(b: seq<Sys>, i: nat, g: GenId) returns (more: seq<Action>)
    requires Behaviour(b) && i < |b| && g in b[i].db.gens && !Terminal(b[i].db.gens[g].status)
    ensures g in Run(b[i], more).db.gens && Terminal(Run(b[i], more).db.gens[g].status)
  {
    hide Behaviour, Inv, Adopted, AdvanceFrame;
    var s := b[i];
    StatesAreOk(b, i);
    assert Run(s, []) == s;
    if s.db.gens[g].status == Queued {
      RunSnoc(s, [], CancelStep(g));
      more := [] + [CancelStep(g)];
    } else {
      hide Step;
      var w, start := TakeOver(s, g, NoCapability);
      EnvelopeEnds(s, Run(s, start), (w, g), NoCapability);
      RunSnoc(s, start, Throw(w, g, Unexpected));
      RunSnoc(s, start + [Throw(w, g, Unexpected)], Advance(w, g, Silent));
      more := start + [Throw(w, g, Unexpected)] + [Advance(w, g, Silent)];
    }
  }

  const NoCapability: Capability := Capability(false, false)

  /** After soft cancel is selected, a destructive remote call of either kind can
      still follow exactly while the generation is not terminal, or a drive already
      stands past its authority proof for it. */
  lemma DestroyAfterSoftCancel(run: seq<Action>, g: GenId, kind: CancelKind)
    ensures var s := Run(Init, run);
            g in s.db.gens && s.db.gens[g].softCancelSelectedAt.Some? ==>
              && g in s.logs
              && (DestroyMayFollow(s, g, kind) <==>
                  !Terminal(s.db.gens[g].status) || CallPending(s, g, kind))
  {
    hide Inv, Step, CallPending, DestroysIn;
    Reachable(run);
    var s := Run(Init, run);
    if g in s.db.gens && s.db.gens[g].softCancelSelectedAt.Some? {
      RowOfInv(s, g);
      if CallPending(s, g, kind) {
        PendingCall(s, g, kind);
      } else if Terminal(s.db.gens[g].status) {
        forall more: seq<Action>
          ensures !DestroysIn(s, Run(s, more), g, kind)
        {
          RunClosed(s, more, g, kind);
        }
      } else {
        LiveCall(s, g, kind);
      }
    }
  }

  lemma PendingCall(s: Sys, g: GenId, kind: CancelKind)
    requires Inv(s) && g in s.logs && CallPending(s, g, kind)
    ensures DestroyMayFollow(s, g, kind)
  {
    hide Inv, Step, DestroysIn;
    var k :| k in s.frames && k.1 == g && s.frames[k].pc.Destroying? && s.frames[k].pc.kind == kind;
    FrameHasRow(s, k);
    CallIsMade(s, k);
    assert Run(s, []) == s;
    var more := Extend(s, [], k, CancelAnswer(Accepted));
  }

  lemma LiveCall(s: Sys, g: GenId, kind: CancelKind)
    requires Inv(s) && g in s.db.gens && g in s.logs && !Terminal(s.db.gens[g].status)
    requires s.db.gens[g].softCancelSelectedAt.Some?
    ensures DestroyMayFollow(s, g, kind)
  {
    hide Inv, Step, DestroysIn, Next;
    ShapeOf(s, g);
    var w, start := Succeed(s, g, Hard);
    var more := DriveToCall(s, start, (w, g), s.db.gens[g].jobId.value, s.logs[g], kind);
    CallIsMade(Run(s, more), (w, g));
    SameLog(s, Run(s, more), Next(Run(s, more), (w, g), CancelAnswer(Accepted)), g, kind);
    more := Extend(s, more, (w, g), CancelAnswer(Accepted));
  }

  lemma SameLog(s: Sys, s1: Sys, s2: Sys, g: GenId, kind: CancelKind)
    requires g in s.logs && g in s1.logs && s1.logs[g] == s.logs[g] && DestroysIn(s1, s2, g, kind)
    ensures DestroysIn(s, s2, g, kind)
  {}

  // ------------------------------------------------- hard cancel needs the capability

  predicate CanHardCancel(c: Capability) { c.targeted && c.retrySafe }

  /** The deployment of every drive of the run lacks targeted, retry-safe interruption. */
  predicate NeverCapable(run: seq<Action>) {
    forall a | a in run :: (a.ClaimStep? || a.AdoptStep?) ==> !CanHardCancel(a.cap)
  }

  predicate SparesRunning(f: Frame) {
    && !CanHardCancel(f.cap)
    && !(f.pc.ProvingAuthority? && f.pc.kind == HardCancel) && !(f.pc.Destroying? && f.pc.kind == HardCancel)
  }

  predicate NoHardCall(l: seq<Event>) {
    forall i | 0 <= i < |l| :: !(l[i].Destroyed? && l[i].kind == HardCancel)
  }

  ghost predicate Gentle(s: Sys) {
    && (forall k | k in s.frames :: SparesRunning(s.frames[k]))
    && (forall g | g in s.logs :: NoHardCall(s.logs[g]))
  }

  lemma AdvanceGentle(s: Sys, k: Key, ans: Answer)
    requires Gentle(s) && k in s.frames && k.1 in s.db.gens && k.1 in s.logs
    ensures var s' := AdvanceFrame(s, k, ans);
            && (forall j | j in s'.frames :: SparesRunning(s'.frames[j]))
            && (forall g | g in s.logs :: g in s'.logs && NoHardCall(s'.logs[g]))
  {
    hide AdvanceFrame;
    AdvanceIsLocal(s, k, ans);
  }

  lemma StepGentle(s: Sys, a: Action)
    requires Inv(s) && Gentle(s) && NeverCapable([a])
    ensures Gentle(Step(s, a))
  {
    hide Inv, AdvanceFrame;
    assert a in [a];
    match a {
      case Advance(w, g, ans) =>
        if (w, g) in s.frames && g in s.db.gens && g in s.logs {
          SameLogs(s, a);
          AdvanceGentle(s, (w, g), ans);
        }
      case _ =>
    }
  }

  /** A step of a drive invents no generation. */
  lemma SameLogs(s: Sys, a: Action)
    requires Inv(s) && a.Advance?
    ensures Step(s, a).logs.Keys == s.logs.Keys
  {
    hide AdvanceFrame, RowOk, FrameOk;
    StepKeeps(s, a);
    if (a.w, a.g) in s.frames && a.g in s.db.gens && a.g in s.logs {
      AdvanceIsLocal(s, (a.w, a.g), a.answer);
    }
  }

  lemma GentleAtStart()
    ensures Gentle(Init)
  {}

  lemma {:induction false} RunGentle(run: seq<Action>)
    requires NeverCapable(run)
    ensures Gentle(Run(Init, run))
    decreases |run|
  {
    hide Inv, Step, Gentle;
    if run == [] {
      GentleAtStart();
    } else {
      var before := run[..|run| - 1];
      RunGentle(before);
      Reachable(before);
      StepGentle(Run(Init, before), run[|run| - 1]);
    }
  }

  /** Without the capability no run ever interrupts a running job. */
  lemma NoHardCancelWithoutCapability(run: seq<Action>, g: GenId, p: PromptId)
    ensures NeverCapable(run) && g in Run(Init, run).logs ==>
              Destroyed(HardCancel, p) !in Run(Init, run).logs[g]
  {
    hide Step;
    if NeverCapable(run) {
      RunGentle(run);
    }
  }

  // --------------------------------------------- "cancelled" that nobody writes down

  /** At the terminal branch of reconcile_cancellation, the drive reports
      "cancelled" and writes nothing exactly when the executor's job was cancelled
      and no soft cancel was selected; the generation then stays active. */
  lemma UnrecordedReport(run: seq<Action>, k: Key)
    ensures var s := Run(Init, run);
            k in s.frames && s.frames[k].pc.SoftCheck? ==>
              && k.1 in s.db.gens && k.1 in s.logs
              && var s' := Step(s, Advance(k.0, k.1, Silent));
              && k.1 in s'.logs
              && ((s'.logs[k.1] == s.logs[k.1] + [ReturnedUnrecorded]) <==>
                  (s.frames[k].pc.end == RemoteCancelled && Owns(s, k)
                   && s.db.gens[k.1].softCancelSelectedAt.None?))
              && (s'.logs[k.1] == s.logs[k.1] + [ReturnedUnrecorded] ==>
                    s'.db == s.db && !Terminal(s.db.gens[k.1].status) && k !in s'.frames)
  {
    hide Inv, Run;
    Reachable(run);
    var s := Run(Init, run);
    if k in s.frames && s.frames[k].pc.SoftCheck? {
      FrameHasRow(s, k);
      hide RowOk, AdvanceLoad, AdvanceSubmit, AdvanceResolve, AdvanceObserve, AdvanceFinish;
      assert |s.logs[k.1] + [ReturnedUnrecorded]| == |s.logs[k.1]| + 1;
    }
  }

  /** An active generation whose owner w has stopped driving it. */
  ghost predicate Stranded(s: Sys, w: WorkerId, g: GenId, st: Status) {
    && g in s.db.gens && g in s.logs && w in s.everHeld && (w, g) !in s.frames
    && var row := s.db.gens[g];
    && row.workerId == Some(w) && row.status == st && !Terminal(st) && st != Queued && row.jobId.Some?
  }

  /** A lease once lost is never regained by the same worker. */
  lemma LostForGood(s: Sys, a: Action, w: WorkerId)
    requires Inv(s) && w in s.everHeld && !Held(s, w)
    ensures !Held(Step(s, a), w) && w in Step(s, a).everHeld
  {
    hide Inv, AdvanceFrame, Credible;
    match a {
      case Advance(v, g, ans) =>
        if (v, g) in s.frames && g in s.db.gens && g in s.logs {
          AdvanceIsLocal(s, (v, g), ans);
        }
      case _ =>
    }
  }

  lemma StepStranded(s: Sys, a: Action, w: WorkerId, g: GenId, st: Status)
    requires Inv(s) && Stranded(s, w, g, st) && Held(s, w)
    ensures Stranded(Step(s, a), w, g, st)
  {
    hide Inv, AdvanceFrame, RowOk, RowShape, Follows;
    match a {
      case Advance(v, h, ans) =>
        if (v, h) in s.frames && h in s.db.gens && h in s.logs {
          AdvanceStranded(s, (v, h), ans, w, g, st);
        }
      case RequeueStep(v, h) => RequeueNeverFires(s, v, h);
      case _ =>
    }
  }

  lemma AdvanceStranded(s: Sys, k: Key, ans: Answer, w: WorkerId, g: GenId, st: Status)
    requires Inv(s) && Stranded(s, w, g, st) && Held(s, w) && k in s.frames && k.1 in s.db.gens && k.1 in s.logs
    ensures Stranded(AdvanceFrame(s, k, ans), w, g, st)
  {
    hide Inv, AdvanceFrame, RowOk, RowShape;
    AdvanceIsLocal(s, k, ans);
    if g == k.1 {
      assert !Fenced(s, k);
    }
  }

  lemma {:induction false} LateStranded(b: seq<Sys>, i: nat, j: nat, w: WorkerId, g: GenId, st: Status)
    requires Behaviour(b) && i <= j < |b| && Stranded(b[i], w, g, st)
    ensures Held(b[j], w) ==> Stranded(b[j], w, g, st)
    ensures w in b[j].everHeld
    decreases j
  {
    hide Inv, Step, Held;
    if i < j {
      var s := b[j - 1];
      LateStranded(b, i, j - 1, w, g, st);
      StatesAreOk(b, j - 1);
      assert Moves(b[j - 1], b[j]);
      var a :| b[j] == Step(s, a);
      if Held(s, w) {
        hide Stranded;
        StepStranded(s, a, w, g, st);
        OwnerSeen(b[j], w, g, st);
      } else {
        LostForGood(s, a, w);
      }
    }
  }

  lemma OwnerSeen(s: Sys, w: WorkerId, g: GenId, st: Status)
    requires Stranded(s, w, g, st)
    ensures w in s.everHeld
  {}

  /** Such a generation stays active, undriven and in the same status for as long as
      its owner keeps the lease: recovery skips the rows its own worker owns, and no
      one else may write them. */
  lemma StrandedUntilTakeover(b: seq<Sys>, i: nat, j: nat, w: WorkerId, g: GenId, st: Status)
    requires Behaviour(b) && i <= j < |b| && Stranded(b[i], w, g, st) && Held(b[j], w)
    ensures g in b[j].db.gens && b[j].db.gens[g].status == st && !Terminal(st)
    ensures b[j].db.gens[g].workerId == Some(w) && (w, g) !in b[j].frames
  {
    hide Behaviour;
    LateStranded(b, i, j, w, g, st);
  }
}
