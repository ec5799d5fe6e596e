/** No step of the protocol takes back what an earlier one committed. */
module ProtocolHistory {
  import opened Wrappers
  import opened Ownership
  import opened Rediscovery
  import opened Protocol
  import opened ProtocolInvariant
  import opened ProtocolSteps

  lemma Reachable(run: seq<Action>)
    ensures Inv(Run(Init, run))
  {
    InitOk();
    RunKeeps(Init, run);
  }

  predicate Later(a: SubmissionState, b: SubmissionState) {
    a == b || a == NotStarted || (a == SubmissionPossible && (b == Confirmed || b == Uncertain))
  }

  /** How a row may age: a terminal row never changes again; the attempt, the
      artifact of a started submission, the job and both cancel marks are final. */
  predicate Ages(r: Row, r': Row) {
    r == r' || (
      && !Terminal(r.status)
      && (r.attemptId.Some? ==> r'.attemptId == r.attemptId)
      && Later(r.submission, r'.submission)
      && (r.submission != NotStarted ==>
            r'.submissionJson == r.submissionJson && r'.submissionHash == r.submissionHash
            && r'.submissionPossibleAt == r.submissionPossibleAt)
      && (r.jobId.Some? ==> r'.jobId == r.jobId && r'.handleJson == r.handleJson)
      && (r.softCancelSelectedAt.Some? ==> r'.softCancelSelectedAt == r.softCancelSelectedAt)
      && (r.cancelRequestedAt.Some? ==> r'.cancelRequestedAt.Some?)
      && r'.outputs == r.outputs && r.takes <= r'.takes)
  }

  /** No row vanishes, all rows age, and the logs only grow. */
  ghost predicate Follows(s: Sys, s': Sys) {
    && (forall g | g in s.db.gens :: g in s'.db.gens && Ages(s.db.gens[g], s'.db.gens[g]))
    && (forall g | g in s.logs :: g in s'.logs && s.logs[g] <= s'.logs[g])
  }

  lemma LoadFollows(s: Sys, k: Key)
    requires k in s.frames && k.1 in s.db.gens && k.1 in s.logs
    ensures Follows(s, AdvanceLoad(s, k))
  {}

  lemma SubmitFollows(s: Sys, k: Key, ans: Answer)
    requires k in s.frames && k.1 in s.db.gens && k.1 in s.logs && RowShape(s.db.gens[k.1])
    ensures Follows(s, AdvanceSubmit(s, k, ans))
  {
    hide Post;
    if s.frames[k].pc.Cleared? {
      PostFollows(s, k, ans);
    }
  }

  lemma PostFollows(s: Sys, k: Key, ans: Answer)
    requires k in s.frames && k.1 in s.logs
    ensures Follows(s, Post(s, k, ans))
  {}

  /** A step that leaves the logs alone and ages one row. */
  lemma RowFollows(s: Sys, s': Sys, g: GenId)
    requires g in s.db.gens && g in s'.db.gens && s'.logs == s.logs
    requires s'.db.gens == s.db.gens[g := s'.db.gens[g]] && Ages(s.db.gens[g], s'.db.gens[g])
    ensures Follows(s, s')
  {}

  lemma ResolveFollows(s: Sys, k: Key, ans: Answer)
    requires k in s.frames && k.1 in s.db.gens && k.1 in s.logs && RowShape(s.db.gens[k.1])
    ensures Follows(s, AdvanceResolve(s, k, ans))
  {
    hide Follows;
    var s' := AdvanceResolve(s, k, ans);
    assert s'.logs == s.logs && k.1 in s'.db.gens && s'.db.gens == s.db.gens[k.1 := s'.db.gens[k.1]];
    ResolveAges(s, k, ans);
    RowFollows(s, s', k.1);
  }

  lemma ResolveAges(s: Sys, k: Key, ans: Answer)
    requires k in s.frames && k.1 in s.db.gens && k.1 in s.logs && RowShape(s.db.gens[k.1])
    ensures var s' := AdvanceResolve(s, k, ans);
            k.1 in s'.db.gens && Ages(s.db.gens[k.1], s'.db.gens[k.1])
  {
    hide Ages, Transition, ConfirmSubmission, MarkUncertain, RowShape;
    SameAges(s.db.gens[k.1]);
    match s.frames[k].pc {
      case GivingUp => UncertainAges(s.db, k.0, k.1, s.frames[k].attempt);
      case Confirming(p) => ConfirmAges(s.db, k.0, k.1, s.frames[k].attempt, p, p);
      case MarkSubmitted(_) => TransitionAges(s.db, k.0, k.1, Submitted);
      case _ =>
    }
  }

  lemma ObserveFollows(s: Sys, k: Key, ans: Answer)
    requires k in s.frames && k.1 in s.db.gens && k.1 in s.logs
    ensures Follows(s, AdvanceObserve(s, k, ans))
  {
    hide Follows, Ages;
    var s' := AdvanceObserve(s, k, ans);
    assert s'.logs == s.logs && k.1 in s'.db.gens && s'.db.gens == s.db.gens[k.1 := s'.db.gens[k.1]];
    TransitionAges(s.db, k.0, k.1, Running);
    ProgressAges(s.db, k.0, k.1);
    SameAges(s.db.gens[k.1]);
    RowFollows(s, s', k.1);
  }

  lemma SameAges(r: Row)
    ensures Ages(r, r)
  {}

  lemma TransitionAges(db: Db, w: WorkerId, g: GenId, to: Status)
    requires g in db.gens
    ensures var db' := Transition(db, w, g, to).0; g in db'.gens && Ages(db.gens[g], db'.gens[g])
  {}

  lemma ProgressAges(db: Db, w: WorkerId, g: GenId)
    requires g in db.gens
    ensures var db' := ProgressWrite(db, w, g).0; g in db'.gens && Ages(db.gens[g], db'.gens[g])
  {}

  lemma ConfirmAges(db: Db, w: WorkerId, g: GenId, a: AttemptId, job: PromptId, handle: string)
    requires g in db.gens && RowShape(db.gens[g])
    ensures var db' := ConfirmSubmission(db, w, g, a, job, handle).0; g in db'.gens && Ages(db.gens[g], db'.gens[g])
  {}

  lemma UncertainAges(db: Db, w: WorkerId, g: GenId, a: AttemptId)
    requires g in db.gens
    ensures var db' := MarkUncertain(db, w, g, a).0; g in db'.gens && Ages(db.gens[g], db'.gens[g])
  {}

  /** A step that leaves the rows alone and may log one event. */
  lemma LogFollows(s: Sys, s': Sys, g: GenId)
    requires g in s.logs && g in s'.logs && s'.db.gens == s.db.gens
    requires s'.logs == s.logs[g := s'.logs[g]] && s.logs[g] <= s'.logs[g]
    ensures Follows(s, s')
  {}

  lemma CancelFollows(s: Sys, k: Key, ans: Answer)
    requires k in s.frames && k.1 in s.db.gens && k.1 in s.logs
    ensures Follows(s, AdvanceCancel(s, k, ans))
  {
    if s.frames[k].pc.SelectingSoft? {
      SelectFollows(s, k, ans);
    } else {
      hide Follows;
      var s' := AdvanceCancel(s, k, ans);
      assert s'.db.gens == s.db.gens && k.1 in s'.logs && s'.logs == s.logs[k.1 := s'.logs[k.1]];
      LogFollows(s, s', k.1);
    }
  }

  lemma SelectFollows(s: Sys, k: Key, ans: Answer)
    requires k in s.frames && k.1 in s.db.gens && k.1 in s.logs && s.frames[k].pc.SelectingSoft?
    ensures Follows(s, AdvanceCancel(s, k, ans))
  {}

  lemma FinishFollows(s: Sys, k: Key, ans: Answer)
    requires k in s.frames && k.1 in s.db.gens && k.1 in s.logs
    ensures Follows(s, AdvanceFinish(s, k, ans))
  {
    hide Terminalize, PublishNext, Follows, Ages, Transition;
    match s.frames[k].pc {
      case Finishing(st) => TerminalizeFollows(s, k, st, At(s, k, Raising(AuthorityFault)));
      case Raising(f) => TerminalizeFollows(s, k, if f.RemoteUnavailable? then Interrupted else Failed, End(s, k));
      case Publishing(p, todo) => PublishFollows(s, k, p, todo);
      case EnterImporting(_) => ImportFollows(s, k, ans);
      case _ => FetchFollows(s, k, ans);
    }
  }

  lemma ImportFollows(s: Sys, k: Key, ans: Answer)
    requires k in s.frames && k.1 in s.db.gens && k.1 in s.logs && s.frames[k].pc.EnterImporting?
    ensures Follows(s, AdvanceFinish(s, k, ans))
  {
    hide Follows, Ages, Transition, Terminalize, PublishNext;
    TransitionAges(s.db, k.0, k.1, Importing);
    TransitionIsOneRow(s.db, k.0, k.1, Importing);
    SameAges(s.db.gens[k.1]);
    var s' := AdvanceFinish(s, k, ans);
    assert s'.logs == s.logs && k.1 in s'.db.gens && s'.db.gens == s.db.gens[k.1 := s'.db.gens[k.1]];
    RowFollows(s, s', k.1);
  }

  lemma FetchFollows(s: Sys, k: Key, ans: Answer)
    requires k in s.frames && k.1 in s.db.gens && k.1 in s.logs
    requires var pc := s.frames[k].pc; !pc.Finishing? && !pc.Raising? && !pc.Publishing? && !pc.EnterImporting?
    ensures Follows(s, AdvanceFinish(s, k, ans))
  {
    hide Follows, Guarded, Terminalize, PublishNext;
    var s' := AdvanceFinish(s, k, ans);
    assert s'.db == s.db && s'.logs == s.logs;
    LogFollows(s, s', k.1);
  }

  lemma TransitionIsOneRow(db: Db, w: WorkerId, g: GenId, to: Status)
    requires g in db.gens
    ensures var db' := Transition(db, w, g, to).0; g in db'.gens && db'.gens == db.gens[g := db'.gens[g]]
  {}

  lemma PublishFollows(s: Sys, k: Key, p: PromptId, todo: seq<string>)
    requires k in s.frames && k.1 in s.db.gens && k.1 in s.logs
    ensures Follows(s, PublishNext(s, k, p, todo))
  {}

  lemma TerminalizeFollows(s: Sys, k: Key, to: Status, onFail: Sys)
    requires k.1 in s.db.gens && k.1 in s.logs && onFail.db == s.db && onFail.logs == s.logs
    ensures Follows(s, Terminalize(s, k, to, onFail))
  {}

  lemma AdvanceFollows(s: Sys, k: Key, ans: Answer)
    requires k in s.frames && k.1 in s.db.gens && k.1 in s.logs && RowShape(s.db.gens[k.1])
    ensures Follows(s, AdvanceFrame(s, k, ans))
  {
    hide Credible, RowShape, AdvanceLoad, AdvanceSubmit, AdvanceResolve, AdvanceObserve, AdvanceCancel, AdvanceFinish;
    LoadFollows(s, k);
    SubmitFollows(s, k, ans);
    ResolveFollows(s, k, ans);
    ObserveFollows(s, k, ans);
    CancelFollows(s, k, ans);
    FinishFollows(s, k, ans);
  }

  lemma StepFollows(s: Sys, a: Action)
    requires Inv(s)
    ensures Follows(s, Step(s, a))
  {
    hide Inv, AdvanceFrame, RowOk, RowShape;
    match a {
      case Advance(w, g, ans) =>
        if (w, g) in s.frames && g in s.db.gens && g in s.logs {
          ShapeOf(s, g);
          AdvanceFollows(s, (w, g), ans);
        }
      case ClaimStep(w, g, attempt, cap) => ClaimFollows(s, w, g, attempt, cap);
      case RequeueStep(w, g) =>
        RequeueNeverFires(s, w, g);
      case _ =>
    }
  }

  lemma ClaimFollows(s: Sys, w: WorkerId, g: GenId, attempt: AttemptId, cap: Capability)
    requires Inv(s)
    ensures Follows(s, Step(s, ClaimStep(w, g, attempt, cap)))
  {
    hide Inv, AdvanceFrame, RowOk, RowShape;
    if g in s.db.gens {
      ShapeOf(s, g);
    }
  }

  lemma ShapeOf(s: Sys, g: GenId)
    requires Inv(s) && g in s.db.gens
    ensures RowShape(s.db.gens[g])
    ensures s.db.gens[g].status == Queued ==> s.db.gens[g].attemptId.None? && s.db.gens[g].jobId.None?
                                              && s.db.gens[g].softCancelSelectedAt.None?
                                              && s.db.gens[g].cancelRequestedAt.None?
  {}

  lemma {:induction false} RunFollows(s: Sys, more: seq<Action>)
    requires Inv(s)
    ensures Follows(s, Run(s, more))
    decreases |more|
  {
    hide Inv, Step;
    if more != [] {
      var mid := Run(s, more[..|more| - 1]);
      RunFollows(s, more[..|more| - 1]);
      RunKeeps(s, more[..|more| - 1]);
      StepFollows(mid, more[|more| - 1]);
    }
  }
}
