/**
 One drive, led from its start to recorded success by a world that answers well: every
 step that the lease holder's drive of its own unmarked row takes on the way.
 */
module ProtocolDrive {
  import opened Wrappers
  import opened Ownership
  import opened Rediscovery
  import opened Protocol
  import opened ProtocolInvariant
  import opened ProtocolSteps
  import opened ProtocolHistory
  import opened ProtocolLimits
  import opened ProtocolCancellation

  /** The lease holder drives its own active row, and no soft cancel is selected. */
  ghost predicate Drives(s: Sys, k: Key, pc: Pc) {
    && k in s.frames && s.frames[k].pc == pc && Holder(s.db) == Some(k.0) && k.1 in s.db.gens && k.1 in s.logs
    && var row := s.db.gens[k.1];
    && row.workerId == Some(k.0) && !Terminal(row.status) && row.softCancelSelectedAt.None?
  }

  ghost predicate Good(s: Sys, k: Key, pc: Pc) { Inv(s) && Drives(s, k, pc) }

  function RowOf(s: Sys, k: Key): Row
    requires k.1 in s.db.gens
  {
    s.db.gens[k.1]
  }

  ghost predicate InState(s: Sys, k: Key, need: SubmissionState) { k.1 in s.db.gens && s.db.gens[k.1].submission == need }

  lemma NextIsGood(s: Sys, k: Key, ans: Answer, pc: Pc)
    requires Inv(s) && Drives(Next(s, k, ans), k, pc)
    ensures Good(Next(s, k, ans), k, pc)
  {
    hide Inv, Step;
    StepKeeps(s, Advance(k.0, k.1, ans));
  }

  // ------------------------------------------------------------ before the submission

  lemma GoStart(s: Sys, k: Key)
    requires Good(s, k, Start)
    ensures Good(Next(s, k, Silent), k, Loaded(RowOf(s, k).jobId))
    ensures Next(s, k, Silent).db == s.db && Next(s, k, Silent).remote == s.remote
  {
    hide Inv, AdvanceSubmit, AdvanceResolve, AdvanceObserve, AdvanceCancel, AdvanceFinish;
    NextIsGood(s, k, Silent, Loaded(RowOf(s, k).jobId));
  }

  function AfterLoading(row: Row): Pc
    requires row.submission == Confirmed ==> row.jobId.Some?
    requires row.submission != Uncertain
  {
    match row.submission
    case NotStarted => PreSubmit(true)
    case SubmissionPossible => PreSubmit(false)
    case Confirmed => CheckPreparing(row.jobId.value)
  }

  lemma GoLoaded(s: Sys, k: Key)
    requires k.1 in s.db.gens && Good(s, k, Loaded(RowOf(s, k).jobId)) && !InState(s, k, Uncertain)
    ensures RowOf(s, k).submission == Confirmed ==> RowOf(s, k).jobId.Some?
    ensures Good(Next(s, k, Silent), k, AfterLoading(RowOf(s, k)))
    ensures Next(s, k, Silent).db == s.db && Next(s, k, Silent).remote == s.remote
  {
    hide Inv, AdvanceSubmit, AdvanceResolve, AdvanceObserve, AdvanceCancel, AdvanceFinish;
    ShapeOf(s, k.1);
    assert RowOf(s, k).submission == Confirmed ==> RowOf(s, k).jobId.Some?;
    assert ReadState(s, k) == Some(RowOf(s, k).submission);
    NextIsGood(s, k, Silent, AfterLoading(RowOf(s, k)));
  }

  lemma GoPreSubmit(s: Sys, k: Key, payload: bool)
    requires Good(s, k, PreSubmit(payload)) && InState(s, k, if payload then NotStarted else SubmissionPossible)
    ensures Good(Next(s, k, Silent), k, if payload then Persisting else Rediscovering)
    ensures Next(s, k, Silent).db == s.db && Next(s, k, Silent).remote == s.remote
  {
    hide Inv, AdvanceSubmit, AdvanceResolve, AdvanceObserve, AdvanceCancel, AdvanceFinish;
    NextIsGood(s, k, Silent, if payload then Persisting else Rediscovering);
  }

  lemma AttemptMatches(s: Sys, k: Key)
    requires Inv(s) && k in s.frames
    ensures k.1 in s.db.gens && s.db.gens[k.1].attemptId == Some(s.frames[k].attempt) && RowShape(s.db.gens[k.1])
    ensures Held(s, k.0) ==> Owns(s, k)
  {
    FrameHasRow(s, k);
  }

  lemma GoPersist(s: Sys, k: Key)
    requires Good(s, k, Persisting) && InState(s, k, NotStarted)
    ensures var t := Next(s, k, Artifact("{}", "hash"));
            Good(t, k, Marking) && InState(t, k, NotStarted) && RowOf(t, k).submissionJson.Some?
  {
    hide Inv, AdvanceLoad, AdvanceResolve, AdvanceObserve, AdvanceCancel, AdvanceFinish;
    AttemptMatches(s, k);
    NextIsGood(s, k, Artifact("{}", "hash"), Marking);
  }

  lemma GoMark(s: Sys, k: Key)
    requires Good(s, k, Marking) && InState(s, k, NotStarted) && RowOf(s, k).submissionJson.Some?
    ensures Good(Next(s, k, Silent), k, Permitted) && InState(Next(s, k, Silent), k, SubmissionPossible)
  {
    hide Inv, AdvanceLoad, AdvanceResolve, AdvanceObserve, AdvanceCancel, AdvanceFinish;
    AttemptMatches(s, k);
    NextIsGood(s, k, Silent, Permitted);
  }

  lemma GoRefresh(s: Sys, k: Key)
    requires Good(s, k, Permitted)
    ensures Good(Next(s, k, Silent), k, Refreshed) && Next(s, k, Silent).db.gens == s.db.gens
  {
    hide Inv, AdvanceLoad, AdvanceResolve, AdvanceObserve, AdvanceCancel, AdvanceFinish;
    NextIsGood(s, k, Silent, Refreshed);
  }

  lemma GoProve(s: Sys, k: Key)
    requires Good(s, k, Refreshed)
    ensures Good(Next(s, k, Silent), k, Cleared) && Next(s, k, Silent).db.gens == s.db.gens
  {
    hide Inv, AdvanceLoad, AdvanceResolve, AdvanceObserve, AdvanceCancel, AdvanceFinish;
    NextIsGood(s, k, Silent, Cleared);
  }

  // ------------------------------------------------------------------ the submission

  /** p is a prompt of the drive's attempt. */
  ghost predicate OurPrompt(s: Sys, k: Key, p: PromptId) {
    k in s.frames && p in s.remote && s.remote[p] == (k.1, s.frames[k].attempt)
  }

  /** Any drive that stands at its POST can make it, whoever owns the row by now. */
  lemma GoPost(s: Sys, k: Key, p: PromptId)
    requires k in s.frames && s.frames[k].pc.Cleared? && k.1 in s.db.gens && k.1 in s.logs && p !in s.remote
    ensures var t := Next(s, k, PostAccepted(p));
            && t.db == s.db && t.remote == s.remote[p := (k.1, s.frames[k].attempt)]
            && k in t.frames && t.frames[k] == s.frames[k].(pc := Confirming(p)) && k.1 in t.logs
  {
    hide AdvanceLoad, AdvanceResolve, AdvanceObserve, AdvanceCancel, AdvanceFinish;
  }

  lemma GoRediscover(s: Sys, k: Key, p: PromptId)
    requires Good(s, k, Rediscovering) && OurPrompt(s, k, p)
    ensures Good(Next(s, k, Found(s, k, p)), k, Confirming(p)) && Next(s, k, Found(s, k, p)).db == s.db
  {
    hide Inv, AdvanceLoad, AdvanceSubmit, AdvanceObserve, AdvanceCancel, AdvanceFinish;
    var us := (k.1, s.frames[k].attempt);
    var seen := [Sighting(p, Some(us))];
    assert Ours(seen, us) == {p} by { assert seen[0].prompt == p; }
    assert Answers(seen, us, Adopt(p)) && Truthful(seen, s.remote);
    hide Answers, Truthful, Ours;
    NextIsGood(s, k, Found(s, k, p), Confirming(p));
  }

  function Found(s: Sys, k: Key, p: PromptId): Answer
    requires k in s.frames
  {
    Evidence([Sighting(p, Some((k.1, s.frames[k].attempt)))], Adopt(p), false)
  }

  lemma GoConfirm(s: Sys, k: Key, p: PromptId)
    requires Good(s, k, Confirming(p)) && InState(s, k, SubmissionPossible)
    ensures Good(Next(s, k, Silent), k, CheckPreparing(p)) && InState(Next(s, k, Silent), k, Confirmed)
  {
    hide Inv, AdvanceLoad, AdvanceSubmit, AdvanceObserve, AdvanceCancel, AdvanceFinish;
    AttemptMatches(s, k);
    NextIsGood(s, k, Silent, CheckPreparing(p));
  }

  // ------------------------------------------------------------------ to the outputs

  lemma GoPreparing(s: Sys, k: Key, p: PromptId)
    requires Good(s, k, CheckPreparing(p))
    ensures Good(Next(s, k, Silent), k, MarkSubmitted(p)) || Good(Next(s, k, Silent), k, CheckIntent(p))
  {
    hide Inv, AdvanceLoad, AdvanceSubmit, AdvanceObserve, AdvanceCancel, AdvanceFinish;
    NextIsGood(s, k, Silent, if RowOf(s, k).status == Preparing then MarkSubmitted(p) else CheckIntent(p));
  }

  lemma GoSubmitted(s: Sys, k: Key, p: PromptId)
    requires Good(s, k, MarkSubmitted(p))
    ensures Good(Next(s, k, Silent), k, CheckIntent(p))
  {
    hide Inv, AdvanceLoad, AdvanceSubmit, AdvanceObserve, AdvanceCancel, AdvanceFinish;
    NextIsGood(s, k, Silent, CheckIntent(p));
  }

  const Done: Answer := Observed(ObsEnd(RemoteSucceeded), false)

  lemma GoIntent(s: Sys, k: Key, p: PromptId)
    requires Good(s, k, CheckIntent(p))
    ensures Good(Next(s, k, Silent), k, Observing(p)) || Good(Next(s, k, Silent), k, Reconciling(p))
  {
    hide Inv, AdvanceLoad, AdvanceSubmit, AdvanceResolve, AdvanceCancel, AdvanceFinish;
    NextIsGood(s, k, Silent, if RowOf(s, k).cancelRequestedAt.Some? then Reconciling(p) else Observing(p));
  }

  lemma GoObserve(s: Sys, k: Key, p: PromptId)
    requires Good(s, k, Observing(p))
    ensures Good(Next(s, k, Done), k, Resolved(p, RemoteSucceeded))
  {
    hide Inv, AdvanceLoad, AdvanceSubmit, AdvanceResolve, AdvanceCancel, AdvanceFinish;
    NextIsGood(s, k, Done, Resolved(p, RemoteSucceeded));
  }

  lemma GoReconcile(s: Sys, k: Key, p: PromptId)
    requires Good(s, k, Reconciling(p))
    ensures Good(Next(s, k, Done), k, SoftCheck(p, RemoteSucceeded))
  {
    hide Inv, AdvanceLoad, AdvanceSubmit, AdvanceResolve, AdvanceObserve, AdvanceFinish;
    NextIsGood(s, k, Done, SoftCheck(p, RemoteSucceeded));
  }

  lemma GoSoftCheck(s: Sys, k: Key, p: PromptId)
    requires Good(s, k, SoftCheck(p, RemoteSucceeded))
    ensures Good(Next(s, k, Silent), k, Resolved(p, RemoteSucceeded))
  {
    hide Inv, AdvanceLoad, AdvanceSubmit, AdvanceResolve, AdvanceObserve, AdvanceFinish;
    NextIsGood(s, k, Silent, Resolved(p, RemoteSucceeded));
  }

  lemma GoFetch(s: Sys, k: Key, p: PromptId)
    requires Good(s, k, Resolved(p, RemoteSucceeded))
    ensures Good(Next(s, k, Silent), k, FetchingHistory(p))
  {
    hide Inv, AdvanceLoad, AdvanceSubmit, AdvanceResolve, AdvanceObserve, AdvanceCancel;
    NextIsGood(s, k, Silent, FetchingHistory(p));
  }

  lemma GoEnter(s: Sys, k: Key, p: PromptId)
    requires Good(s, k, FetchingHistory(p))
    ensures Good(Next(s, k, Silent), k, EnterImporting(p))
  {
    hide Inv, AdvanceLoad, AdvanceSubmit, AdvanceResolve, AdvanceObserve, AdvanceCancel;
    NextIsGood(s, k, Silent, EnterImporting(p));
  }

  ghost predicate IsImporting(s: Sys, k: Key) { k.1 in s.db.gens && s.db.gens[k.1].status == Importing }

  lemma GoImport(s: Sys, k: Key, p: PromptId)
    requires Good(s, k, EnterImporting(p))
    ensures Good(Next(s, k, Silent), k, Staging(p)) && IsImporting(Next(s, k, Silent), k)
  {
    hide Inv, AdvanceLoad, AdvanceSubmit, AdvanceResolve, AdvanceObserve, AdvanceCancel;
    NextIsGood(s, k, Silent, Staging(p));
  }

  lemma GoStage(s: Sys, k: Key, p: PromptId)
    requires Good(s, k, Staging(p)) && IsImporting(s, k)
    ensures var t := Next(s, k, Staged(RowOf(s, k).outputs));
            Good(t, k, Publishing(p, RowOf(s, k).outputs)) && IsImporting(t, k)
  {
    hide Inv, AdvanceLoad, AdvanceSubmit, AdvanceResolve, AdvanceObserve, AdvanceCancel;
    NextIsGood(s, k, Staged(RowOf(s, k).outputs), Publishing(p, RowOf(s, k).outputs));
  }

  lemma GoPublish(s: Sys, k: Key, p: PromptId, todo: seq<string>)
    requires Good(s, k, Publishing(p, todo)) && IsImporting(s, k) && todo != []
    ensures Good(Next(s, k, Silent), k, Publishing(p, todo[1..])) && IsImporting(Next(s, k, Silent), k)
  {
    hide Inv, AdvanceLoad, AdvanceSubmit, AdvanceResolve, AdvanceObserve, AdvanceCancel;
    AttemptMatches(s, k);
    NextIsGood(s, k, Silent, Publishing(p, todo[1..]));
  }

  lemma GoFinish(s: Sys, k: Key, p: PromptId)
    requires Good(s, k, Publishing(p, []))
    ensures Good(Next(s, k, Silent), k, Finishing(Succeeded))
  {
    hide Inv, AdvanceLoad, AdvanceSubmit, AdvanceResolve, AdvanceObserve, AdvanceCancel;
    NextIsGood(s, k, Silent, Finishing(Succeeded));
  }

  predicate HasSucceeded(s: Sys, g: GenId) { g in s.db.gens && s.db.gens[g].status == Succeeded }

  lemma GoRecord(s: Sys, k: Key)
    requires Good(s, k, Finishing(Succeeded))
    ensures HasSucceeded(Next(s, k, Silent), k.1)
  {
    hide Inv, AdvanceLoad, AdvanceSubmit, AdvanceResolve, AdvanceObserve, AdvanceCancel;
  }

  // ----------------------------------------------------------------- the whole way

  lemma DriveOutputs(s: Sys, start: seq<Action>, k: Key, p: PromptId, todo: seq<string>) returns (more: seq<Action>)
    requires Good(Run(s, start), k, Publishing(p, todo)) && IsImporting(Run(s, start), k)
    ensures HasSucceeded(Run(s, more), k.1)
    decreases |todo|
  {
    hide Good, Step, Run, Next, HasSucceeded, IsImporting;
    if todo == [] {
      GoFinish(Run(s, start), k, p);
      more := Extend(s, start, k, Silent);
      GoRecord(Run(s, more), k);
      more := Extend(s, more, k, Silent);
    } else {
      GoPublish(Run(s, start), k, p, todo);
      more := Extend(s, start, k, Silent);
      more := DriveOutputs(s, more, k, p, todo[1..]);
    }
  }

  lemma DriveEnd(s: Sys, start: seq<Action>, k: Key, p: PromptId) returns (more: seq<Action>)
    requires Good(Run(s, start), k, Resolved(p, RemoteSucceeded))
    ensures HasSucceeded(Run(s, more), k.1)
  {
    hide Good, Step, Run, Next, HasSucceeded;
    GoFetch(Run(s, start), k, p);
    more := Extend(s, start, k, Silent);
    GoEnter(Run(s, more), k, p);
    more := Extend(s, more, k, Silent);
    GoImport(Run(s, more), k, p);
    more := Extend(s, more, k, Silent);
    var t := Run(s, more);
    GoStage(t, k, p);
    more := Extend(s, more, k, Staged(RowOf(t, k).outputs));
    more := DriveOutputs(s, more, k, p, RowOf(t, k).outputs);
  }

  lemma DriveConfirmed(s: Sys, start: seq<Action>, k: Key, p: PromptId) returns (more: seq<Action>)
    requires Good(Run(s, start), k, CheckPreparing(p))
    ensures HasSucceeded(Run(s, more), k.1)
  {
    hide Good, Step, Run, Next, HasSucceeded;
    GoPreparing(Run(s, start), k, p);
    more := Extend(s, start, k, Silent);
    if !Good(Run(s, more), k, CheckIntent(p)) {
      GoSubmitted(Run(s, more), k, p);
      more := Extend(s, more, k, Silent);
    }
    GoIntent(Run(s, more), k, p);
    more := Extend(s, more, k, Silent);
    if Good(Run(s, more), k, Observing(p)) {
      GoObserve(Run(s, more), k, p);
      more := Extend(s, more, k, Done);
    } else {
      GoReconcile(Run(s, more), k, p);
      more := Extend(s, more, k, Done);
      GoSoftCheck(Run(s, more), k, p);
      more := Extend(s, more, k, Silent);
    }
    more := DriveEnd(s, more, k, p);
  }

  lemma DriveConfirming(s: Sys, start: seq<Action>, k: Key, p: PromptId) returns (more: seq<Action>)
    requires Good(Run(s, start), k, Confirming(p)) && InState(Run(s, start), k, SubmissionPossible)
    ensures HasSucceeded(Run(s, more), k.1)
  {
    hide Good, Step, Run, Next, HasSucceeded, InState;
    GoConfirm(Run(s, start), k, p);
    more := Extend(s, start, k, Silent);
    more := DriveConfirmed(s, more, k, p);
  }

  lemma FreshPrompt(s: Sys) returns (p: PromptId)
    ensures p !in s.remote
  {
    p := FreshName(s.remote.Keys);
  }

  /** From the permit to the point of the POST. */
  lemma DrivePermit(s: Sys, start: seq<Action>, k: Key) returns (more: seq<Action>)
    requires Good(Run(s, start), k, Permitted) || Good(Run(s, start), k, Refreshed) || Good(Run(s, start), k, Cleared)
    ensures Good(Run(s, more), k, Cleared) && Run(s, more).db.gens == Run(s, start).db.gens
  {
    hide Good, Step, Run, Next;
    more := start;
    if Good(Run(s, more), k, Permitted) {
      GoRefresh(Run(s, more), k);
      more := Extend(s, more, k, Silent);
    }
    if Good(Run(s, more), k, Refreshed) {
      GoProve(Run(s, more), k);
      more := Extend(s, more, k, Silent);
    }
  }

  lemma GoodPost(s: Sys, k: Key, p: PromptId)
    requires Good(s, k, Cleared) && p !in s.remote
    ensures Good(Next(s, k, PostAccepted(p)), k, Confirming(p)) && Next(s, k, PostAccepted(p)).db == s.db
  {
    hide Inv, Step, Next;
    GoPost(s, k, p);
    NextIsGood(s, k, PostAccepted(p), Confirming(p));
  }

  /** A row that was never submitted: artifact, permit, proofs, and a POST that is accepted. */
  lemma DriveNew(s: Sys, start: seq<Action>, k: Key) returns (more: seq<Action>)
    requires Good(Run(s, start), k, PreSubmit(true)) && InState(Run(s, start), k, NotStarted)
    ensures HasSucceeded(Run(s, more), k.1)
  {
    hide Good, Step, Run, Next, HasSucceeded;
    GoPreSubmit(Run(s, start), k, true);
    more := Extend(s, start, k, Silent);
    GoPersist(Run(s, more), k);
    more := Extend(s, more, k, Artifact("{}", "hash"));
    GoMark(Run(s, more), k);
    more := Extend(s, more, k, Silent);
    more := DrivePermit(s, more, k);
    var p := FreshPrompt(Run(s, more));
    GoodPost(Run(s, more), k, p);
    more := Extend(s, more, k, PostAccepted(p));
    more := DriveConfirming(s, more, k, p);
  }

  /** A row whose prompt is at the executor: it is rediscovered. */
  lemma DriveSubmitted(s: Sys, start: seq<Action>, k: Key, p: PromptId) returns (more: seq<Action>)
    requires Good(Run(s, start), k, PreSubmit(false)) && InState(Run(s, start), k, SubmissionPossible)
    requires p in Run(s, start).remote && Run(s, start).remote[p].0 == k.1
    ensures HasSucceeded(Run(s, more), k.1)
  {
    hide Step, Run, Next, HasSucceeded, Inv;
    GoPreSubmit(Run(s, start), k, false);
    more := Extend(s, start, k, Silent);
    var t := Run(s, more);
    PromptIsOurs(t, k, p);
    GoRediscover(t, k, p);
    more := Extend(s, more, k, Found(t, k, p));
    more := DriveConfirming(s, more, k, p);
  }

  lemma PromptIsOurs(s: Sys, k: Key, p: PromptId)
    requires Inv(s) && k in s.frames && p in s.remote && s.remote[p].0 == k.1
    ensures OurPrompt(s, k, p)
  {
    FrameHasRow(s, k);
  }

  /** From a fresh drive to recorded success, when the row is not given up and, once
      possible, a prompt of it is at the executor. */
  lemma DriveToSuccess(s: Sys, start: seq<Action>, k: Key) returns (more: seq<Action>)
    requires Good(Run(s, start), k, Start) && !InState(Run(s, start), k, Uncertain)
    requires InState(Run(s, start), k, SubmissionPossible) ==> exists p :: p in Run(s, start).remote && Run(s, start).remote[p].0 == k.1
    ensures HasSucceeded(Run(s, more), k.1)
  {
    hide Step, Run, Next, HasSucceeded, Inv;
    var row := RowOf(Run(s, start), k);
    GoStart(Run(s, start), k);
    more := Extend(s, start, k, Silent);
    GoLoaded(Run(s, more), k);
    more := Extend(s, more, k, Silent);
    match row.submission {
      case NotStarted => more := DriveNew(s, more, k);
      case SubmissionPossible =>
        var p :| p in Run(s, start).remote && Run(s, start).remote[p].0 == k.1;
        more := DriveSubmitted(s, more, k, p);
      case Confirmed => more := DriveConfirmed(s, more, k, row.jobId.value);
    }
  }
}
