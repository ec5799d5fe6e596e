/** Concrete runs that break what the documentation of the protocol says. */
module ProtocolWitnesses {
  import opened Wrappers
  import opened Ownership
  import opened Rediscovery
  import opened Protocol
  import opened ProtocolInvariant
  import opened ProtocolSteps
  import opened ProtocolHistory
  import opened ProtocolTheorems
  import opened ProtocolLimits
  import opened ProtocolCancellation

  // A run is exhibited as a chain of states, one action at a time.

  /** One generation, at most two drives. */
  ghost function World(now: Time, lease: Option<Lease>, held: set<WorkerId>, row: Row,
                       frames: map<Key, Frame>, log: seq<Event>): Sys
  {
    Sys(Db(now, lease, map["g" := row]), held, frames, map[], map["g" := log])
  }

  ghost const NoStop: Capability := Capability(false, false)
  ghost const A: Key := ("A", "g")
  ghost const B: Key := ("B", "g")
  ghost const LeaseA: Option<Lease> := Some(Lease("A", 0, 0))
  ghost const Claimed: Row := FreshRow(0, ["k"]).(status := Preparing, workerId := Some("A"), attemptId := Some("a"),
                                           heartbeatAt := Some(0))
  ghost const WithArtifact: Row := Claimed.(submissionJson := Some("j"), submissionHash := Some("h"))
  ghost const Possible: Row := WithArtifact.(submission := SubmissionPossible, submissionPossibleAt := Some(0))

  ghost function OnlyA(row: Row, pc: Pc): Sys {
    World(0, LeaseA, {"A"}, row, map[A := Frame("a", NoStop, pc)], [])
  }

  lemma Then(run: seq<Action>, s: Sys, a: Action, s': Sys) returns (longer: seq<Action>)
    requires Run(Init, run) == s && Step(s, a) == s'
    ensures longer == run + [a] && Run(Init, longer) == s'
  {
    hide Step;
    RunSnoc(Init, run, a);
    longer := run + [a];
  }

  /** A claims the generation. */
  lemma ReachClaimed() returns (run: seq<Action>)
    ensures Run(Init, run) == OnlyA(Claimed, Start)
  {
    var s0 := World(0, None, {}, FreshRow(0, ["k"]), map[], []);
    var s1 := World(0, LeaseA, {"A"}, FreshRow(0, ["k"]), map[], []);
    assert Step(Init, NewGeneration("g", ["k"])) == s0;
    assert Step(s0, AcquireStep("A", 45)) == s1;
    assert Step(s1, ClaimStep("A", "g", "a", NoStop)) == OnlyA(Claimed, Start);
    hide Step;
    run := Then([], Init, NewGeneration("g", ["k"]), s0);
    run := Then(run, s0, AcquireStep("A", 45), s1);
    run := Then(run, s1, ClaimStep("A", "g", "a", NoStop), OnlyA(Claimed, Start));
  }

  /** One step of A's drive in a world that holds nothing else. */
  lemma LoadA(row: Row, pc: Pc)
    requires pc.Start? || pc.Loaded? || pc.PreSubmit?
    ensures Step(OnlyA(row, pc), Advance("A", "g", Silent)) == AdvanceLoad(OnlyA(row, pc), A)
  {}

  lemma SubmitA(row: Row, pc: Pc, ans: Answer)
    requires pc.Persisting? || pc.Marking? || HoldsPermit(pc)
    requires !ans.Evidence?
    ensures Step(OnlyA(row, pc), Advance("A", "g", ans)) == AdvanceSubmit(OnlyA(row, pc), A, ans)
  {
    hide AdvanceSubmit;
  }

  lemma ReachPersisting() returns (run: seq<Action>)
    ensures Run(Init, run) == OnlyA(Claimed, Persisting)
  {
    run := ReachClaimed();
    var go := Advance("A", "g", Silent);
    LoadA(Claimed, Start);
    LoadA(Claimed, Loaded(None));
    LoadA(Claimed, PreSubmit(true));
    hide Step;
    run := Then(run, OnlyA(Claimed, Start), go, OnlyA(Claimed, Loaded(None)));
    run := Then(run, OnlyA(Claimed, Loaded(None)), go, OnlyA(Claimed, PreSubmit(true)));
    run := Then(run, OnlyA(Claimed, PreSubmit(true)), go, OnlyA(Claimed, Persisting));
  }

  lemma StoreAndMark()
    ensures AdvanceSubmit(OnlyA(Claimed, Persisting), A, Artifact("j", "h")) == OnlyA(WithArtifact, Marking)
    ensures AdvanceSubmit(OnlyA(WithArtifact, Marking), A, Silent) == OnlyA(Possible, Permitted)
  {}

  lemma RefreshAndProve()
    ensures AdvanceSubmit(OnlyA(Possible, Permitted), A, Silent) == OnlyA(Possible, Refreshed)
    ensures AdvanceSubmit(OnlyA(Possible, Refreshed), A, Silent) == OnlyA(Possible, Cleared)
  {}

  /** A goes on to its last authority proof before the POST. */
  lemma ReachCleared() returns (run: seq<Action>)
    ensures Run(Init, run) == OnlyA(Possible, Cleared)
  {
    hide Step, AdvanceSubmit, OnlyA;
    run := ReachPersisting();
    var go := Advance("A", "g", Silent);
    var store := Advance("A", "g", Artifact("j", "h"));
    StoreAndMark();
    RefreshAndProve();
    SubmitA(Claimed, Persisting, store.answer);
    SubmitA(WithArtifact, Marking, Silent);
    SubmitA(Possible, Permitted, Silent);
    SubmitA(Possible, Refreshed, Silent);
    run := Then(run, OnlyA(Claimed, Persisting), store, OnlyA(WithArtifact, Marking));
    run := Then(run, OnlyA(WithArtifact, Marking), go, OnlyA(Possible, Permitted));
    run := Then(run, OnlyA(Possible, Permitted), go, OnlyA(Possible, Refreshed));
    run := Then(run, OnlyA(Possible, Refreshed), go, OnlyA(Possible, Cleared));
  }

  // ------------------------------------------------ a POST after "uncertain"

  ghost const LeaseB: Option<Lease> := Some(Lease("B", 46, 46))
  ghost const Adopted: Row := Possible.(workerId := Some("B"), heartbeatAt := Some(46))
  ghost const GaveUp: Row := Adopted.(submission := Uncertain)

  /** B has taken over and adopted; A still stands before its POST. */
  ghost function Racing(row: Row, pc: Pc): Sys {
    World(46, LeaseB, {"A", "B"}, row, map[A := Frame("a", NoStop, Cleared), B := Frame("a", NoStop, pc)], [])
  }

  lemma TakeOver()
    ensures var s := OnlyA(Possible, Cleared);
            var s1 := s.(db := s.db.(now := 46));
            var s2 := s1.(db := s1.db.(lease := LeaseB), everHeld := {"A", "B"});
            && Step(s, Tick(46)) == s1
            && Step(s1, AcquireStep("B", 45)) == s2
            && Step(s2, AdoptStep("B", "g", NoStop)) == Racing(Adopted, Start)
  {}

  lemma ReachRace() returns (run: seq<Action>)
    ensures Run(Init, run) == Racing(Adopted, Start)
  {
    hide Step;
    run := ReachCleared();
    TakeOver();
    var s := OnlyA(Possible, Cleared);
    var s1 := s.(db := s.db.(now := 46));
    var s2 := s1.(db := s1.db.(lease := LeaseB), everHeld := {"A", "B"});
    run := Then(run, s, Tick(46), s1);
    run := Then(run, s1, AcquireStep("B", 45), s2);
    run := Then(run, s2, AdoptStep("B", "g", NoStop), Racing(Adopted, Start));
  }

  lemma LoadB(row: Row, pc: Pc)
    requires pc.Start? || pc.Loaded? || pc.PreSubmit?
    ensures Step(Racing(row, pc), Advance("B", "g", Silent)) == AdvanceLoad(Racing(row, pc), B)
  {
    hide AdvanceLoad;
  }

  lemma LoadStatesB()
    ensures AdvanceLoad(Racing(Adopted, Start), B) == Racing(Adopted, Loaded(None))
    ensures AdvanceLoad(Racing(Adopted, Loaded(None)), B) == Racing(Adopted, PreSubmit(false))
    ensures AdvanceLoad(Racing(Adopted, PreSubmit(false)), B) == Racing(Adopted, Rediscovering)
  {}

  /** The executor truthfully shows nothing, and the grace period has expired. */
  const NothingSeen: Answer := Evidence([], Absent, true)

  lemma ResolveStatesB()
    ensures Step(Racing(Adopted, Rediscovering), Advance("B", "g", NothingSeen)) == Racing(Adopted, GivingUp)
  {
    hide AdvanceLoad, AdvanceSubmit, AdvanceObserve, AdvanceCancel, AdvanceFinish;
  }

  lemma GivesUpB()
    ensures Step(Racing(Adopted, GivingUp), Advance("B", "g", Silent)) == Racing(GaveUp, Finishing(Interrupted))
  {
    hide AdvanceLoad, AdvanceSubmit, AdvanceObserve, AdvanceCancel, AdvanceFinish;
  }

  /** The successor declares the attempt uncertain while the slow first worker
      stands between its authority proof and its POST; then that worker posts, and
      the executor accepts.  "POST permanently forbidden" is thus not a property of
      the durable state: UncertainForbidsPosts says when it holds. */
  lemma PostAfterUncertain() returns (b: seq<Sys>, i: nat)
    ensures Behaviour(b) && i + 2 == |b|
    ensures var s, s' := b[i], b[i + 1];
            && "g" in s.db.gens && s.db.gens["g"].submission == Uncertain
            && "g" in s.logs && Count(s, "g", Posted) == 0
            && "g" in s'.logs && Count(s', "g", Posted) == 1 && "p" in s'.remote
            && "g" in s'.db.gens && s'.db.gens["g"].submission == Uncertain
  {
    hide Step, AdvanceLoad, Racing, Behaviour;
    var run := ReachRace();
    var go := Advance("B", "g", Silent);
    LoadB(Adopted, Start);
    LoadB(Adopted, Loaded(None));
    LoadB(Adopted, PreSubmit(false));
    LoadStatesB();
    ResolveStatesB();
    GivesUpB();
    run := Then(run, Racing(Adopted, Start), go, Racing(Adopted, Loaded(None)));
    run := Then(run, Racing(Adopted, Loaded(None)), go, Racing(Adopted, PreSubmit(false)));
    run := Then(run, Racing(Adopted, PreSubmit(false)), go, Racing(Adopted, Rediscovering));
    run := Then(run, Racing(Adopted, Rediscovering), Advance("B", "g", NothingSeen), Racing(Adopted, GivingUp));
    run := Then(run, Racing(Adopted, GivingUp), go, Racing(GaveUp, Finishing(Interrupted)));
    var post := Advance("A", "g", PostAccepted("p"));
    LatePost();
    RunSnoc(Init, run, post);
    assert (run + [post])[..|run|] == run;
    b := RunIsBehaviour(run + [post]);
    i := |run|;
  }

  lemma LatePost()
    ensures var s := Racing(GaveUp, Finishing(Interrupted));
            var s' := Step(s, Advance("A", "g", PostAccepted("p")));
            && "g" in s.db.gens && s.db.gens["g"].submission == Uncertain
            && "g" in s.logs && Count(s, "g", Posted) == 0
            && "g" in s'.logs && Count(s', "g", Posted) == 1 && "p" in s'.remote
            && "g" in s'.db.gens && s'.db.gens["g"].submission == Uncertain
  {
    hide AdvanceLoad, AdvanceResolve, AdvanceObserve, AdvanceCancel, AdvanceFinish;
  }

  // ------------------------------------------ cancellation against a finished job

  ghost const Done: Row := Possible.(submission := Confirmed, jobId := Some("p"), handleJson := Some("p"))
  ghost const Sent: Row := Done.(status := Submitted)
  ghost const Intent: Row := Sent.(cancelRequestedAt := Some(0))
  ghost const Import: Row := Intent.(status := Importing)
  ghost const ImportK: Row := Import.(takes := {"k"})

  /** A drives its confirmed prompt alone. */
  ghost function Solo(row: Row, pc: Pc, log: seq<Event>): Sys {
    World(0, LeaseA, {"A"}, row, map[A := Frame("a", NoStop, pc)], log).(remote := map["p" := ("g", "a")])
  }

  lemma ResolveSolo(row: Row, pc: Pc)
    requires pc.Confirming? || pc.CheckPreparing? || pc.MarkSubmitted?
    ensures Step(Solo(row, pc, [Posted]), Advance("A", "g", Silent)) == AdvanceResolve(Solo(row, pc, [Posted]), A, Silent)
  {
    hide AdvanceResolve;
  }

  lemma ConfirmSolo()
    ensures AdvanceResolve(Solo(Possible, Confirming("p"), [Posted]), A, Silent) == Solo(Done, CheckPreparing("p"), [Posted])
  {}

  lemma SubmittedSolo()
    ensures AdvanceResolve(Solo(Done, CheckPreparing("p"), [Posted]), A, Silent) == Solo(Done, MarkSubmitted("p"), [Posted])
    ensures AdvanceResolve(Solo(Done, MarkSubmitted("p"), [Posted]), A, Silent) == Solo(Sent, CheckIntent("p"), [Posted])
  {
    CheckedSolo();
    hide ConfirmSubmission, MarkUncertain;
  }

  lemma CheckedSolo()
    ensures AdvanceResolve(Solo(Done, CheckPreparing("p"), [Posted]), A, Silent) == Solo(Done, MarkSubmitted("p"), [Posted])
  {
    hide Transition, ConfirmSubmission, MarkUncertain;
  }

  lemma PostSolo()
    ensures Step(OnlyA(Possible, Cleared), Advance("A", "g", PostAccepted("p"))) == Solo(Possible, Confirming("p"), [Posted])
  {
    hide AdvanceLoad, AdvanceResolve, AdvanceObserve, AdvanceCancel, AdvanceFinish;
    assert [] + [Posted] == [Posted];
  }

  /** A's prompt runs remotely and the user has asked to cancel it. */
  lemma ReachReconciling() returns (run: seq<Action>)
    ensures Run(Init, run) == Solo(Intent, Reconciling("p"), [Posted])
  {
    hide Step, OnlyA, Solo, AdvanceResolve;
    var go := Advance("A", "g", Silent);
    run := ReachCleared();
    PostSolo();
    run := Then(run, OnlyA(Possible, Cleared), Advance("A", "g", PostAccepted("p")), Solo(Possible, Confirming("p"), [Posted]));
    ConfirmSolo();
    SubmittedSolo();
    ResolveSolo(Possible, Confirming("p"));
    run := Then(run, Solo(Possible, Confirming("p"), [Posted]), go, Solo(Done, CheckPreparing("p"), [Posted]));
    ResolveSolo(Done, CheckPreparing("p"));
    run := Then(run, Solo(Done, CheckPreparing("p"), [Posted]), go, Solo(Done, MarkSubmitted("p"), [Posted]));
    ResolveSolo(Done, MarkSubmitted("p"));
    run := Then(run, Solo(Done, MarkSubmitted("p"), [Posted]), go, Solo(Sent, CheckIntent("p"), [Posted]));
    UserAsks();
    run := Then(run, Solo(Sent, CheckIntent("p"), [Posted]), CancelStep("g"), Solo(Intent, CheckIntent("p"), [Posted]));
    run := Then(run, Solo(Intent, CheckIntent("p"), [Posted]), go, Solo(Intent, Reconciling("p"), [Posted]));
  }

  lemma UserAsks()
    ensures Step(Solo(Sent, CheckIntent("p"), [Posted]), CancelStep("g")) == Solo(Intent, CheckIntent("p"), [Posted])
    ensures Step(Solo(Intent, CheckIntent("p"), [Posted]), Advance("A", "g", Silent)) == Solo(Intent, Reconciling("p"), [Posted])
  {
    hide AdvanceLoad, AdvanceSubmit, AdvanceResolve, AdvanceCancel, AdvanceFinish;
  }

  /** The next reconcile pass finds the job over. */
  lemma SeesEnd(end: RemoteEnd)
    ensures Step(Solo(Intent, Reconciling("p"), [Posted]), Advance("A", "g", Observed(ObsEnd(end), false)))
            == Solo(Intent, SoftCheck("p", end), [Posted])
  {
    hide AdvanceLoad, AdvanceSubmit, AdvanceResolve, AdvanceObserve, AdvanceFinish;
  }

  /** A job somebody else cancelled: the drive says "cancelled" and the row stays
      submitted.  UnrecordedReport and StrandedUntilTakeover say when and how long. */
  lemma CancelledButActive() returns (b: seq<Sys>)
    ensures Behaviour(b)
    ensures var s := b[|b| - 1];
            && "g" in s.logs && s.logs["g"] == [Posted, ReturnedUnrecorded]
            && "g" in s.db.gens && s.db.gens["g"].status == Submitted && A !in s.frames && Held(s, "A")
  {
    hide Behaviour, Step, Solo;
    var run := ReachReconciling();
    SeesEnd(RemoteCancelled);
    run := Then(run, Solo(Intent, Reconciling("p"), [Posted]), Advance("A", "g", Observed(ObsEnd(RemoteCancelled), false)),
                Solo(Intent, SoftCheck("p", RemoteCancelled), [Posted]));
    run := Then(run, Solo(Intent, SoftCheck("p", RemoteCancelled), [Posted]), Advance("A", "g", Silent),
                Step(Solo(Intent, SoftCheck("p", RemoteCancelled), [Posted]), Advance("A", "g", Silent)));
    LeavesActive();
    b := RunIsBehaviour(run);
  }

  lemma LeavesActive()
    ensures var s := Step(Solo(Intent, SoftCheck("p", RemoteCancelled), [Posted]), Advance("A", "g", Silent));
            && "g" in s.logs && s.logs["g"] == [Posted, ReturnedUnrecorded]
            && "g" in s.db.gens && s.db.gens["g"].status == Submitted && A !in s.frames && Held(s, "A")
  {
    hide AdvanceLoad, AdvanceSubmit, AdvanceResolve, AdvanceObserve, AdvanceFinish;
  }

  lemma FinishSolo(row: Row, pc: Pc, log: seq<Event>, ans: Answer)
    requires pc.Resolved? || pc.FetchingHistory? || pc.EnterImporting? || pc.Staging? || pc.Publishing? || pc.Finishing?
    requires !ans.Evidence?
    ensures Step(Solo(row, pc, log), Advance("A", "g", ans)) == AdvanceFinish(Solo(row, pc, log), A, ans)
  {
    hide AdvanceFinish;
  }

  lemma FinishSolos()
    ensures AdvanceFinish(Solo(Intent, Resolved("p", RemoteSucceeded), [Posted]), A, Silent)
            == Solo(Intent, FetchingHistory("p"), [Posted])
    ensures AdvanceFinish(Solo(Intent, FetchingHistory("p"), [Posted]), A, Silent)
            == Solo(Intent, EnterImporting("p"), [Posted])
  {
    hide Terminalize, Guarded;
  }

  lemma ImportSolo()
    ensures AdvanceFinish(Solo(Intent, EnterImporting("p"), [Posted]), A, Silent)
            == Solo(Import, Staging("p"), [Posted])
  {
    hide Terminalize;
  }

  lemma PassesSoftCheck()
    ensures Step(Solo(Intent, SoftCheck("p", RemoteSucceeded), [Posted]), Advance("A", "g", Silent))
            == Solo(Intent, Resolved("p", RemoteSucceeded), [Posted])
  {
    hide AdvanceLoad, AdvanceSubmit, AdvanceResolve, AdvanceObserve, AdvanceFinish;
  }

  lemma StagedSolo()
    ensures AdvanceFinish(Solo(Import, Staging("p"), [Posted]), A, Staged(["k"])) == Solo(Import, Publishing("p", ["k"]), [Posted])
  {
    hide Terminalize, Guarded, PublishNext;
  }

  lemma PublishSolo()
    ensures AdvanceFinish(Solo(Import, Publishing("p", ["k"]), [Posted]), A, Silent)
            == Solo(ImportK, Publishing("p", []), [Posted, Published("k")])
  {
    hide Terminalize, Guarded;
    assert [Posted] + [Published("k")] == [Posted, Published("k")];
    assert ["k"][1..] == [] && {} + {"k"} == {"k"};
  }

  /** The job had succeeded before any cancellation was selected, so completion wins:
      a generation with a cancel intent publishes its outputs. */
  lemma ReachPublished() returns (run: seq<Action>)
    ensures Run(Init, run) == Solo(ImportK, Publishing("p", []), [Posted, Published("k")])
  {
    hide Step, Solo, AdvanceFinish;
    var go := Advance("A", "g", Silent);
    run := ReachReconciling();
    SeesEnd(RemoteSucceeded);
    run := Then(run, Solo(Intent, Reconciling("p"), [Posted]), Advance("A", "g", Observed(ObsEnd(RemoteSucceeded), false)),
                Solo(Intent, SoftCheck("p", RemoteSucceeded), [Posted]));
    PassesSoftCheck();
    run := Then(run, Solo(Intent, SoftCheck("p", RemoteSucceeded), [Posted]), go, Solo(Intent, Resolved("p", RemoteSucceeded), [Posted]));
    FinishSolos();
    ImportSolo();
    FinishSolo(Intent, Resolved("p", RemoteSucceeded), [Posted], Silent);
    run := Then(run, Solo(Intent, Resolved("p", RemoteSucceeded), [Posted]), go, Solo(Intent, FetchingHistory("p"), [Posted]));
    FinishSolo(Intent, FetchingHistory("p"), [Posted], Silent);
    run := Then(run, Solo(Intent, FetchingHistory("p"), [Posted]), go, Solo(Intent, EnterImporting("p"), [Posted]));
    FinishSolo(Intent, EnterImporting("p"), [Posted], Silent);
    run := Then(run, Solo(Intent, EnterImporting("p"), [Posted]), go, Solo(Import, Staging("p"), [Posted]));
    StagedSolo();
    FinishSolo(Import, Staging("p"), [Posted], Staged(["k"]));
    run := Then(run, Solo(Import, Staging("p"), [Posted]), Advance("A", "g", Staged(["k"])),
                Solo(Import, Publishing("p", ["k"]), [Posted]));
    PublishSolo();
    FinishSolo(Import, Publishing("p", ["k"]), [Posted], Silent);
    run := Then(run, Solo(Import, Publishing("p", ["k"]), [Posted]), go,
                Solo(ImportK, Publishing("p", []), [Posted, Published("k")]));
  }

  /** Completion wins over an intent that was not yet selected: the generation
      carries a cancel request, publishes, and is recorded as succeeded. */
  lemma TerminalBeforeCancelPublishes() returns (b: seq<Sys>)
    ensures Behaviour(b)
    ensures var s := b[|b| - 1];
            && "g" in s.logs && s.logs["g"] == [Posted, Published("k"), Returned(Succeeded)]
            && "g" in s.db.gens && s.db.gens["g"].status == Succeeded
            && s.db.gens["g"].cancelRequestedAt.Some? && s.db.gens["g"].softCancelSelectedAt.None?
  {
    hide Behaviour, Step, Solo, AdvanceFinish;
    var run := ReachPublished();
    var s1 := Solo(ImportK, Publishing("p", []), [Posted, Published("k")]);
    var s2 := Solo(ImportK, Finishing(Succeeded), [Posted, Published("k")]);
    FinishSolo(ImportK, Publishing("p", []), [Posted, Published("k")], Silent);
    FinishSolo(ImportK, Finishing(Succeeded), [Posted, Published("k")], Silent);
    LastOutputSolo();
    SucceedSolo();
    run := Then(run, s1, Advance("A", "g", Silent), s2);
    run := Then(run, s2, Advance("A", "g", Silent), PublishedAndDone());
    b := RunIsBehaviour(run);
  }

  ghost function PublishedAndDone(): Sys {
    World(0, LeaseA, {"A"}, ImportK.(status := Succeeded), map[], [Posted, Published("k"), Returned(Succeeded)])
      .(remote := map["p" := ("g", "a")])
  }

  lemma LastOutputSolo()
    ensures AdvanceFinish(Solo(ImportK, Publishing("p", []), [Posted, Published("k")]), A, Silent)
            == Solo(ImportK, Finishing(Succeeded), [Posted, Published("k")])
  {
    hide Guarded, Terminalize;
  }

  lemma SucceedSolo()
    ensures AdvanceFinish(Solo(ImportK, Finishing(Succeeded), [Posted, Published("k")]), A, Silent) == PublishedAndDone()
  {
    hide Guarded, PublishNext;
    assert [Posted, Published("k")] + [Returned(Succeeded)] == [Posted, Published("k"), Returned(Succeeded)];
    assert map[A := Frame("a", NoStop, Finishing(Succeeded))] - {A} == map[];
  }

  // ---------------------------------------- a soft-cancelled generation with Takes

  ghost predicate Softened(s: Sys, k: Key, p: PromptId, l: seq<Event>, pc: Pc) {
    Focus(s, k, NoStop, p, l, pc) && s.db.gens[k.1].softCancelSelectedAt.Some?
  }

  lemma FocusIntent(s: Sys, k: Key, p: PromptId, l: seq<Event>)
    ensures Focus(s, k, NoStop, p, l, CheckIntent(p)) ==> Focus(Next(s, k, Silent), k, NoStop, p, l, Reconciling(p))
  {
    hide AdvanceSubmit, AdvanceLoad, AdvanceResolve, AdvanceCancel, AdvanceFinish;
  }

  lemma FocusReconcile(s: Sys, k: Key, p: PromptId, l: seq<Event>)
    ensures Focus(s, k, NoStop, p, l, Reconciling(p)) ==>
              Focus(Next(s, k, Observed(ObsUnknown, false)), k, NoStop, p, l, SelectingSoft(p))
  {
    hide AdvanceSubmit, AdvanceLoad, AdvanceResolve, AdvanceObserve, AdvanceFinish;
  }

  lemma FocusSelect(s: Sys, k: Key, p: PromptId, l: seq<Event>)
    requires Focus(s, k, NoStop, p, l, SelectingSoft(p)) && s.db.gens[k.1].softCancelSelectedAt.None?
    ensures Softened(Next(s, k, Silent), k, p, l + [SoftSelected], CheckIntent(p))
  {
    hide AdvanceSubmit, AdvanceLoad, AdvanceResolve, AdvanceObserve, AdvanceFinish;
  }

  lemma SoftenedIntent(s: Sys, k: Key, p: PromptId, l: seq<Event>)
    ensures Softened(s, k, p, l, CheckIntent(p)) ==> Softened(Next(s, k, Silent), k, p, l, Reconciling(p))
  {
    hide AdvanceSubmit, AdvanceLoad, AdvanceResolve, AdvanceCancel, AdvanceFinish;
  }

  lemma SoftenedSeesEnd(s: Sys, k: Key, p: PromptId, l: seq<Event>)
    ensures Softened(s, k, p, l, Reconciling(p)) ==>
              Softened(Next(s, k, Observed(ObsEnd(RemoteSucceeded), false)), k, p, l, SoftCheck(p, RemoteSucceeded))
  {
    hide AdvanceSubmit, AdvanceLoad, AdvanceResolve, AdvanceObserve, AdvanceFinish;
  }

  lemma SoftenedReconcile(s: Sys, k: Key, p: PromptId, l: seq<Event>)
    ensures Softened(s, k, p, l, SoftCheck(p, RemoteSucceeded)) ==>
              Softened(Next(s, k, Silent), k, p, l, Finishing(Cancelled))
  {
    hide AdvanceSubmit, AdvanceLoad, AdvanceResolve, AdvanceObserve, AdvanceFinish;
  }

  lemma SoftenedEnds(s: Sys, k: Key, p: PromptId, l: seq<Event>)
    requires Softened(s, k, p, l, Finishing(Cancelled))
    ensures var s' := Next(s, k, Silent);
            && k.1 in s'.db.gens && s'.db.gens[k.1].status == Cancelled
            && s'.db.gens[k.1].softCancelSelectedAt.Some?
            && k.1 in s'.logs && s'.logs[k.1] == l + [Returned(Cancelled)]
  {
    hide AdvanceSubmit, AdvanceLoad, AdvanceResolve, AdvanceObserve, AdvanceCancel;
  }

  /** A row B adopted for soft cancel is the row of s but for owner and heartbeat. */
  lemma StillUnselected(s: Sys, more: seq<Action>, g: GenId, l: seq<Event>)
    requires Inv(Run(s, more)) && g in Run(s, more).db.gens && g in Run(s, more).logs
    requires Run(s, more).logs[g] == l && SoftSelected !in l
    ensures Run(s, more).db.gens[g].softCancelSelectedAt.None?
  {}

  /** The worker dies between two publications of a generation whose cancellation was
      requested.  Its successor finds the executor's state unknown, selects soft
      cancel, and records the generation as cancelled with a Take already minted. */
  lemma CancelledWithTake() returns (b: seq<Sys>)
    ensures Behaviour(b)
    ensures var s := b[|b| - 1];
            && "g" in s.db.gens && s.db.gens["g"].status == Cancelled && s.db.gens["g"].softCancelSelectedAt.Some?
            && "g" in s.logs && s.logs["g"] == [Posted, Published("k"), SoftSelected, Returned(Cancelled)]
  {
    hide Behaviour, Step, Run, Inv, Focus, Softened, Next;
    var run := ReachPublished();
    Reachable(run);
    var s := Run(Init, run);
    var l := [Posted, Published("k")];
    PublishedShape();
    var w, more := Succeed(s, "g", NoStop);
    var k := (w, "g");
    FocusLoad(Run(s, more), k, NoStop, "p", l);
    more := Extend(s, more, k, Silent);
    FocusLoad(Run(s, more), k, NoStop, "p", l);
    more := Extend(s, more, k, Silent);
    FocusPreparing(Run(s, more), k, NoStop, "p", l);
    more := Extend(s, more, k, Silent);
    if !Focus(Run(s, more), k, NoStop, "p", l, CheckIntent("p")) {
      FocusSubmitted(Run(s, more), k, NoStop, "p", l);
      more := Extend(s, more, k, Silent);
    }
    FocusIntent(Run(s, more), k, "p", l);
    more := Extend(s, more, k, Silent);
    FocusReconcile(Run(s, more), k, "p", l);
    more := Extend(s, more, k, Observed(ObsUnknown, false));
    RunKeeps(s, more);
    FocusSees(Run(s, more), k, NoStop, "p", l, SelectingSoft("p"));
    StillUnselected(s, more, "g", l);
    FocusSelect(Run(s, more), k, "p", l);
    more := Extend(s, more, k, Silent);
    more := EndSoftened(s, more, k, "p", l + [SoftSelected]);
    RunConcat(Init, run, more);
    run := run + more;
    assert l + [SoftSelected] + [Returned(Cancelled)] == [Posted, Published("k"), SoftSelected, Returned(Cancelled)];
    b := RunIsBehaviour(run);
  }

  lemma FocusSees(s: Sys, k: Key, cap: Capability, p: PromptId, l: seq<Event>, pc: Pc)
    requires Focus(s, k, cap, p, l, pc)
    ensures k.1 in s.db.gens && k.1 in s.logs && s.logs[k.1] == l
  {}

  lemma PublishedShape()
    ensures var s := Solo(ImportK, Publishing("p", []), [Posted, Published("k")]);
            && "g" in s.db.gens && !Terminal(s.db.gens["g"].status) && s.db.gens["g"].submission == Confirmed
            && s.db.gens["g"].cancelRequestedAt.Some? && s.db.gens["g"].jobId == Some("p")
            && "g" in s.logs && s.logs["g"] == [Posted, Published("k")]
  {}

  lemma EndSoftened(s: Sys, start: seq<Action>, k: Key, p: PromptId, l: seq<Event>) returns (more: seq<Action>)
    requires Softened(Run(s, start), k, p, l, CheckIntent(p))
    ensures var s' := Run(s, more);
            && k.1 in s'.db.gens && s'.db.gens[k.1].status == Cancelled
            && s'.db.gens[k.1].softCancelSelectedAt.Some?
            && k.1 in s'.logs && s'.logs[k.1] == l + [Returned(Cancelled)]
  {
    hide Step, Run, Focus, Softened, Next;
    more := start;
    SoftenedIntent(Run(s, more), k, p, l);
    more := Extend(s, more, k, Silent);
    SoftenedSeesEnd(Run(s, more), k, p, l);
    more := Extend(s, more, k, Observed(ObsEnd(RemoteSucceeded), false));
    SoftenedReconcile(Run(s, more), k, p, l);
    more := Extend(s, more, k, Silent);
    SoftenedEnds(Run(s, more), k, p, l);
    more := Extend(s, more, k, Silent);
  }
}
