/** Every action of the worker protocol keeps the invariant. */
module ProtocolSteps {
  import opened Wrappers
  import opened Ownership
  import opened Rediscovery
  import opened Protocol
  import opened ProtocolInvariant

  lemma Goto(s: Sys, k: Key, pc: Pc)
    requires Inv(s) && k in s.frames
    requires FrameOk(s, k, s.frames[k].(pc := pc))
    requires HoldsPermit(pc) ==> HoldsPermit(s.frames[k].pc)
    ensures Inv(At(s, k, pc))
  {
    hide Inv, FrameOk, HoldsPermit;
    Move(s, At(s, k, pc), k, s.frames[k].(pc := pc));
  }

  /** Program counters a frame may move to from anywhere. */
  predicate Plain(pc: Pc) {
    pc.UncertainFound? || pc == PreSubmit(true) || pc.Persisting? || pc.Rediscovering? || pc.GivingUp?
    || (pc.Finishing? && Terminal(pc.status))
    || (pc.Raising? && (pc.fault == AuthorityFault || pc.fault == PromptRejected || pc.fault == OutputFault
                        || pc.fault == RemoteUnavailable || pc.fault == Unexpected))
  }

  lemma GotoPlain(s: Sys, k: Key, pc: Pc)
    requires Inv(s) && k in s.frames && Plain(pc)
    ensures Inv(At(s, k, pc))
  {
    hide Inv;
    FrameHasRow(s, k);
    assert FrameOk(s, k, s.frames[k].(pc := pc));
    Goto(s, k, pc);
  }

  /** Moving among the points that work on a confirmed prompt. */
  lemma GotoKnown(s: Sys, k: Key, pc: Pc)
    requires Inv(s) && k in s.frames
    requires KnownPrompt(pc).Some? && !pc.Loaded?
    requires KnownPrompt(s.frames[k].pc) == KnownPrompt(pc)
    requires PastSoftCheck(pc) && !PastSoftCheck(s.frames[k].pc) && Owns(s, k) ==>
               s.db.gens[k.1].softCancelSelectedAt.None?
    requires pc.SelectingSoft? || pc.Reconciling? ==>
               s.frames[k].pc.Reconciling? || (k.1 in s.db.gens && s.db.gens[k.1].cancelRequestedAt.Some?)
    ensures Inv(At(s, k, pc))
  {
    hide Inv;
    FrameHasRow(s, k);
    assert FrameOk(s, k, s.frames[k].(pc := pc));
    Goto(s, k, pc);
  }

  lemma LoadKeeps(s: Sys, k: Key)
    requires Inv(s) && k in s.frames && k.1 in s.db.gens && k.1 in s.logs
    requires s.frames[k].pc.Start? || s.frames[k].pc.Loaded?
    ensures Inv(AdvanceLoad(s, k))
  {
    hide Inv;
    FrameHasRow(s, k);
    var f := s.frames[k];
    var row := s.db.gens[k.1];
    match f.pc {
      case Start =>
        assert FrameOk(s, k, f.(pc := Loaded(row.jobId)));
        Goto(s, k, Loaded(row.jobId));
      case Loaded(job) =>
        match ReadState(s, k) {
          case None => GotoPlain(s, k, Raising(AuthorityFault));
          case Some(Uncertain) => GotoPlain(s, k, UncertainFound);
          case Some(Confirmed) =>
            assert job.Some?;
            GotoKnown(s, k, CheckPreparing(job.value));
          case Some(NotStarted) => GotoPlain(s, k, PreSubmit(true));
          case Some(SubmissionPossible) =>
            assert FrameOk(s, k, f.(pc := PreSubmit(false)));
            Goto(s, k, PreSubmit(false));
        }
      case _ =>
    }
  }

  lemma PreSubmitKeeps(s: Sys, k: Key)
    requires Inv(s) && k in s.frames && k.1 in s.db.gens && k.1 in s.logs && s.frames[k].pc.PreSubmit?
    ensures Inv(AdvanceLoad(s, k))
  {
    hide Inv;
    FrameHasRow(s, k);
    match ReadState(s, k) {
      case None => GotoPlain(s, k, Raising(AuthorityFault));
      case Some(Uncertain) => GotoPlain(s, k, Finishing(Interrupted));
      case Some(NotStarted) => GotoPlain(s, k, Persisting);
      case Some(_) => GotoPlain(s, k, Rediscovering);
    }
  }

  // ------------------------------------------------------------ frames that end

  /** A drive that stops; its row may have taken a last status, and its log may
      have grown by notes that are not POSTs. */
  lemma EndIsStep(s: Sys, s': Sys, k: Key, r: Row, l: seq<Event>)
    requires Inv(s) && k in s.frames && k.1 in s.db.gens && k.1 in s.logs
    requires s'.frames == s.frames - {k} && s'.everHeld == s.everHeld && s'.remote == s.remote
    requires Holder(s'.db) == Holder(s.db)
    requires s'.db.gens == s.db.gens[k.1 := r] && s'.logs == s.logs[k.1 := l]
    requires r == s.db.gens[k.1].(status := r.status)
    requires r.status == s.db.gens[k.1].status || Owns(s, k)
    requires multiset(l)[Posted] == Count(s, k.1, Posted)
    requires RowShape(r) && LogOk(l, r)
    ensures FrameStep(s, s', k)
  {
    hide Inv, FrameOk;
    FrameHasRow(s, k);
  }

  lemma EndKeeps(s: Sys, k: Key)
    requires Inv(s) && k in s.frames
    ensures Inv(End(s, k))
  {
    hide Inv, FrameOk;
    FrameHasRow(s, k);
    EndIsStep(s, End(s, k), k, s.db.gens[k.1], s.logs[k.1]);
    StepOfFrame(s, End(s, k), k);
  }

  lemma UncertainFoundKeeps(s: Sys, k: Key)
    requires Inv(s) && k in s.frames && k.1 in s.db.gens && k.1 in s.logs && s.frames[k].pc.UncertainFound?
    ensures Inv(AdvanceLoad(s, k))
  {
    hide Inv, FrameOk;
    FrameHasRow(s, k);
    var row := s.db.gens[k.1];
    if PipelineTerminal(row.status) {
      var s' := Note(End(s, k), k.1, Returned(row.status));
      NoteOk(s.logs[k.1], row, row, Returned(row.status));
      EndIsStep(s, s', k, row, s'.logs[k.1]);
      StepOfFrame(s, s', k);
    } else {
      GotoPlain(s, k, Finishing(Interrupted));
    }
  }

  /** Which events may be appended while the row goes from r to r'. */
  ghost predicate MayNote(l: seq<Event>, r: Row, r': Row, e: Event) {
    && r'.jobId == r.jobId
    && (!Terminal(r.status) || r'.status == r.status)
    && (!e.Published? ==> r'.takes == r.takes)
    && match e
       case Posted => r'.softCancelSelectedAt == r.softCancelSelectedAt
       case SoftSelected => r'.softCancelSelectedAt.Some?
       case Destroyed(_, p) => r.jobId == Some(p) && r'.softCancelSelectedAt == r.softCancelSelectedAt
       case Published(key) => r.softCancelSelectedAt.None? && r'.softCancelSelectedAt.None?
                                 && key !in r.takes && r'.takes == r.takes + {key}
       case Returned(st) => st == r'.status && Terminal(st) && r'.softCancelSelectedAt == r.softCancelSelectedAt
       case ReturnedUnrecorded => r'.softCancelSelectedAt == r.softCancelSelectedAt
  }

  lemma NoteOk(l: seq<Event>, r: Row, r': Row, e: Event)
    requires LogOk(l, r) && MayNote(l, r, r', e)
    ensures LogOk(l + [e], r')
  {}

  lemma TerminalizeKeeps(s: Sys, k: Key, to: Status, onFail: Sys)
    requires Inv(s) && k in s.frames && Terminal(to) && Inv(onFail) && k.1 in s.logs
    ensures Inv(Terminalize(s, k, to, onFail))
  {
    hide Inv, FrameOk, RowOk;
    FrameHasRow(s, k);
    var (db, r) := Transition(s.db, k.0, k.1, to);
    if r.Ok? {
      var s' := Note(End(s.(db := db), k), k.1, Returned(to));
      RowFacts(s, k);
      NoteOk(s.logs[k.1], s.db.gens[k.1], db.gens[k.1], Returned(to));
      EndIsStep(s, s', k, db.gens[k.1], s'.logs[k.1]);
      StepOfFrame(s, s', k);
    }
  }

  lemma RowFacts(s: Sys, k: Key)
    requires k.1 in s.db.gens && k.1 in s.logs && RowOk(s, k.1) && k in s.frames && FrameOk(s, k, s.frames[k])
    ensures RowShape(s.db.gens[k.1]) && PostsOk(s, k.1) && LogOk(s.logs[k.1], s.db.gens[k.1])
    ensures s.db.gens[k.1].attemptId == Some(s.frames[k].attempt) && s.db.gens[k.1].status != Queued
  {}

  // ------------------------------------------------------------- the submission

  lemma PersistKeeps(s: Sys, k: Key, ans: Answer)
    requires Inv(s) && k in s.frames && k.1 in s.logs && s.frames[k].pc.Persisting?
    ensures Inv(AdvanceSubmit(s, k, ans))
  {
    hide Inv, RowOk, FrameOk;
    FrameHasRow(s, k);
    if ans.Artifact? {
      var f := s.frames[k];
      var (db, r) := PersistSubmission(s.db, k.0, k.1, f.attempt, ans.json, ans.hash);
      if r.Ok? {
        var f' := f.(pc := Marking);
        var s' := At(s.(db := db), k, Marking);
        SubmissionWriteOk(s, s', k, db.gens[k.1], f');
        Write(s, s', k, db.gens[k.1], f');
      } else {
        GotoPlain(s, k, Raising(AuthorityFault));
      }
    }
  }

  /** Fenced writes of the submission columns: what the row and the frame must meet. */
  lemma SubmissionWriteOk(s: Sys, s': Sys, k: Key, r: Row, f: Frame)
    requires k in s.frames && FrameOk(s, k, s.frames[k]) && k.1 in s.db.gens && k.1 in s.logs && RowOk(s, k.1)
    requires Fence(s.db, k.0, k.1) == Ok
    requires s' == s.(db := PutRow(s.db, k.1, r), frames := s.frames[k := f])
    requires var r0 := s.db.gens[k.1];
             r == r0.(heartbeatAt := r.heartbeatAt, submission := r.submission, submissionPossibleAt := r.submissionPossibleAt,
                      submissionJson := r.submissionJson, submissionHash := r.submissionHash,
                      jobId := r.jobId, handleJson := r.handleJson)
    requires f == s.frames[k].(pc := f.pc)
    requires
      || (s.frames[k].pc.Persisting? && f.pc.Marking? && s.db.gens[k.1].submission == NotStarted
          && r.submission == NotStarted && r.submissionJson.Some? && r.jobId == s.db.gens[k.1].jobId
          && r.handleJson == s.db.gens[k.1].handleJson)
      || (s.frames[k].pc.Marking? && f.pc.Permitted? && s.db.gens[k.1].submission == NotStarted
          && r.submission == SubmissionPossible && r.submissionJson.Some? && r.jobId == s.db.gens[k.1].jobId
          && r.handleJson == s.db.gens[k.1].handleJson)
      || (s.frames[k].pc.GivingUp? && f.pc == Finishing(Interrupted) && s.db.gens[k.1].submission == SubmissionPossible
          && r.submission == Uncertain && r.submissionJson == s.db.gens[k.1].submissionJson
          && r.jobId == s.db.gens[k.1].jobId && r.handleJson == s.db.gens[k.1].handleJson)
      || (f.pc.CheckPreparing? && s.frames[k].pc == Confirming(f.pc.prompt)
          && s.db.gens[k.1].submission == SubmissionPossible && r.submission == Confirmed
          && r.jobId == Some(f.pc.prompt) && r.handleJson.Some?
          && r.submissionJson == s.db.gens[k.1].submissionJson)
    ensures RowShape(r) && PostsOk(s', k.1) && FrameOk(s', k, f) && Grows(s.db.gens[k.1], r)
  {
    assert Count(s', k.1, Posted) == Count(s, k.1, Posted);
  }

  lemma MarkingKeeps(s: Sys, k: Key, ans: Answer)
    requires Inv(s) && k in s.frames && k.1 in s.logs && s.frames[k].pc.Marking?
    ensures Inv(AdvanceSubmit(s, k, ans))
  {
    hide Inv, RowOk, FrameOk;
    FrameHasRow(s, k);
    var f := s.frames[k];
    MarkingHasArtifact(s, k);
    var (db, p) := MarkPossible(s.db, k.0, k.1, f.attempt);
    match p {
      case MayPost =>
        var f' := f.(pc := Permitted);
        var s' := At(s.(db := db), k, Permitted);
        SubmissionWriteOk(s, s', k, db.gens[k.1], f');
        Write(s, s', k, db.gens[k.1], f');
      case PermLeaseLost => GotoPlain(s, k, Raising(AuthorityFault));
      case PermOwnershipLost => GotoPlain(s, k, Raising(AuthorityFault));
      case _ => GotoPlain(s, k, Rediscovering);
    }
  }

  lemma MarkingHasArtifact(s: Sys, k: Key)
    requires k in s.frames && FrameOk(s, k, s.frames[k]) && s.frames[k].pc.Marking?
    ensures k.1 in s.db.gens && s.db.gens[k.1].submissionJson.Some?
    ensures s.db.gens[k.1].attemptId == Some(s.frames[k].attempt)
  {}

  lemma PermitKeeps(s: Sys, k: Key, ans: Answer)
    requires Inv(s) && k in s.frames && k.1 in s.logs
    requires s.frames[k].pc.Permitted? || s.frames[k].pc.Refreshed?
    ensures Inv(AdvanceSubmit(s, k, ans))
  {
    hide Inv, RowOk;
    FrameHasRow(s, k);
    var f := s.frames[k];
    var s' := AdvanceSubmit(s, k, ans);
    assert FrameOk(s, k, s'.frames[k]);
    Move(s, s', k, s'.frames[k]);
  }

  lemma PostKeeps(s: Sys, k: Key, ans: Answer)
    requires Inv(s) && k in s.frames && k.1 in s.logs && s.frames[k].pc.Cleared?
    ensures Inv(Post(s, k, ans))
  {
    hide Inv, RowOk, FrameOk, FrameStep, Post;
    FrameHasRow(s, k);
    if Post(s, k, ans) != s {
      PostedRow(s, k, ans);
      PostedFrame(s, k, ans);
      PostIsStep(s, k, ans);
      StepOfFrame(s, Post(s, k, ans), k);
    }
  }

  lemma PostIsStep(s: Sys, k: Key, ans: Answer)
    requires k in s.frames && k.1 in s.db.gens && k.1 in s.logs && s.frames[k].pc.Cleared?
    requires var s' := Post(s, k, ans);
             s' != s && RowOk(s', k.1) && k in s'.frames && FrameOk(s', k, s'.frames[k])
             && !HoldsPermit(s'.frames[k].pc)
    ensures FrameStep(s, Post(s, k, ans), k)
  {
    hide RowOk, FrameOk, Post;
    PostedTargets(s, k, ans);
    PostedFrameOnly(s, k, ans);
  }

  /** A POST moves nothing but its drive, its log and the executor's queue. */
  lemma PostedFrameOnly(s: Sys, k: Key, ans: Answer)
    requires k in s.frames && k.1 in s.logs
    ensures var s' := Post(s, k, ans);
            && s'.db == s.db && s'.everHeld == s.everHeld && s'.frames.Keys == s.frames.Keys
            && (forall j | j in s'.frames && j != k :: s'.frames[j] == s.frames[j])
            && s'.logs.Keys == s.logs.Keys && (forall h | h in s.logs && h != k.1 :: s'.logs[h] == s.logs[h])
            && (forall p | p in s.remote :: p in s'.remote && s'.remote[p] == s.remote[p])
  {}

  lemma PostedTargets(s: Sys, k: Key, ans: Answer)
    requires k in s.frames && k.1 in s.db.gens && k.1 in s.logs
    ensures forall p | p in Post(s, k, ans).remote && p !in s.remote :: Post(s, k, ans).remote[p] == (k.1, s.frames[k].attempt)
  {}

  lemma PostedRow(s: Sys, k: Key, ans: Answer)
    requires k in s.frames && k.1 in s.db.gens && k.1 in s.logs && s.frames[k].pc.Cleared?
    requires FrameOk(s, k, s.frames[k]) && RowOk(s, k.1)
    ensures Post(s, k, ans) != s ==> RowOk(Post(s, k, ans), k.1)
  {
    var s' := Post(s, k, ans);
    if s' != s {
      assert s'.logs[k.1] == s.logs[k.1] + [Posted];
      assert Count(s', k.1, Posted) == Count(s, k.1, Posted) + 1;
      assert forall p | p in s.remote :: s.remote[p].0 != k.1;
      NoteOk(s.logs[k.1], s.db.gens[k.1], s.db.gens[k.1], Posted);
    }
  }

  lemma PostedFrame(s: Sys, k: Key, ans: Answer)
    requires k in s.frames && k.1 in s.db.gens && k.1 in s.logs && s.frames[k].pc.Cleared?
    requires FrameOk(s, k, s.frames[k]) && RowOk(s, k.1)
    ensures var s' := Post(s, k, ans);
            s' != s ==> k in s'.frames && FrameOk(s', k, s'.frames[k]) && !HoldsPermit(s'.frames[k].pc)
  {
    hide RowOk, FrameOk;
    var s' := Post(s, k, ans);
    if s' != s {
      var f' := s'.frames[k];
      assert f'.pc.Confirming? || f'.pc.Rediscovering? || f'.pc == Raising(PromptRejected);
      assert f'.pc.Confirming? ==> f'.pc.prompt in s'.remote && s'.remote[f'.pc.prompt] == (k.1, f'.attempt);
      hide Post;
      AfterPostOk(s, s', k, f');
    }
  }

  lemma AfterPostOk(s: Sys, s': Sys, k: Key, f': Frame)
    requires k in s.frames && FrameOk(s, k, s.frames[k])
    requires s'.db == s.db && s'.everHeld == s.everHeld && k.1 in s'.logs && f'.attempt == s.frames[k].attempt
    requires f'.pc.Confirming? || f'.pc.Rediscovering? || f'.pc == Raising(PromptRejected)
    requires f'.pc.Confirming? ==> f'.pc.prompt in s'.remote && s'.remote[f'.pc.prompt] == (k.1, f'.attempt)
    ensures FrameOk(s', k, f')
  {}

  // --------------------------------------------- rediscovery and confirmation

  lemma RediscoverKeeps(s: Sys, k: Key, ans: Answer)
    requires Inv(s) && k in s.frames && k.1 in s.db.gens && k.1 in s.logs && s.frames[k].pc.Rediscovering?
    requires Credible(s, k, ans)
    ensures Inv(AdvanceResolve(s, k, ans))
  {
    hide Inv, RowOk, FrameOk;
    FrameHasRow(s, k);
    var us := (k.1, s.frames[k].attempt);
    match ans {
      case Unreachable(expired) =>
        if expired {
          GotoPlain(s, k, GivingUp);
        }
      case Evidence(seen, verdict, expired) =>
        OnePrompt(s, k);
        TruthfulEvidenceNeverConflicts(seen, us, s.remote, verdict);
        if verdict.Adopt? {
          FoundPrompt(s, k, verdict.prompt);
          Goto(s, k, Confirming(verdict.prompt));
        } else if expired {
          GotoPlain(s, k, GivingUp);
        }
      case _ =>
    }
  }

  lemma OnePrompt(s: Sys, k: Key)
    requires k in s.frames && k.1 in s.db.gens && k.1 in s.logs && RowOk(s, k.1)
    ensures forall p, q | p in s.remote && q in s.remote && s.remote[p].0 == k.1 && s.remote[q].0 == k.1 :: p == q
  {}

  lemma FoundPrompt(s: Sys, k: Key, p: PromptId)
    requires k in s.frames && FrameOk(s, k, s.frames[k]) && p in s.remote
    requires s.remote[p] == (k.1, s.frames[k].attempt)
    ensures FrameOk(s, k, s.frames[k].(pc := Confirming(p)))
  {}

  lemma GiveUpKeeps(s: Sys, k: Key, ans: Answer)
    requires Inv(s) && k in s.frames && k.1 in s.db.gens && k.1 in s.logs && s.frames[k].pc.GivingUp?
    ensures Inv(AdvanceResolve(s, k, ans))
  {
    hide Inv, RowOk, FrameOk;
    FrameHasRow(s, k);
    var f := s.frames[k];
    var (db, r) := MarkUncertain(s.db, k.0, k.1, f.attempt);
    if r.Ok? {
      var f' := f.(pc := Finishing(Interrupted));
      var s' := At(s.(db := db), k, Finishing(Interrupted));
      SubmissionWriteOk(s, s', k, db.gens[k.1], f');
      Write(s, s', k, db.gens[k.1], f');
    } else {
      GotoPlain(s, k, Raising(AuthorityFault));
    }
  }

  lemma ConfirmKeeps(s: Sys, k: Key, ans: Answer)
    requires Inv(s) && k in s.frames && k.1 in s.db.gens && k.1 in s.logs && s.frames[k].pc.Confirming?
    ensures Inv(AdvanceResolve(s, k, ans))
  {
    hide Inv, RowOk, FrameOk;
    FrameHasRow(s, k);
    var f := s.frames[k];
    var p := f.pc.prompt;
    var (db, r) := ConfirmSubmission(s.db, k.0, k.1, f.attempt, p, p);
    if r.Ok? {
      var f' := f.(pc := CheckPreparing(p));
      var s' := At(s.(db := db), k, CheckPreparing(p));
      SubmissionWriteOk(s, s', k, db.gens[k.1], f');
      Write(s, s', k, db.gens[k.1], f');
    } else {
      assert db == s.db;
      if r.StateConflict? {
        ConfirmConflict(s, k);
        Goto(s, k, ConflictRead(p));
      } else {
        GotoPlain(s, k, Raising(AuthorityFault));
      }
    }
  }

  /** A refused confirmation of a prompt that exists: the row already left
      submission_possible, because a prompt means the permit was consumed. */
  lemma ConfirmConflict(s: Sys, k: Key)
    requires k in s.frames && k.1 in s.db.gens && k.1 in s.logs && s.frames[k].pc.Confirming?
    requires FrameOk(s, k, s.frames[k]) && RowOk(s, k.1)
    requires SubmissionFence(s.db, k.0, k.1, s.frames[k].attempt, SubmissionPossible) == StateConflict
    ensures FrameOk(s, k, s.frames[k].(pc := ConflictRead(s.frames[k].pc.prompt)))
  {}

  /** A conflicting handle is never another prompt: it is an uncertain attempt. */
  lemma ConflictKeeps(s: Sys, k: Key, ans: Answer)
    requires Inv(s) && k in s.frames && k.1 in s.db.gens && k.1 in s.logs && s.frames[k].pc.ConflictRead?
    ensures Inv(AdvanceResolve(s, k, ans))
  {
    hide Inv;
    FrameHasRow(s, k);
    var f := s.frames[k];
    var p := f.pc.prompt;
    var row := s.db.gens[k.1];
    if row.jobId == Some(p) {
      assert FrameOk(s, k, f.(pc := CheckPreparing(p)));
      Goto(s, k, CheckPreparing(p));
    } else {
      assert row.submission != Confirmed;
      assert FrameOk(s, k, f.(pc := Raising(HandleConflict)));
      Goto(s, k, Raising(HandleConflict));
    }
  }

  /** A fenced status write that is not terminal. */
  lemma StatusKeeps(s: Sys, k: Key, to: Status, next: Pc)
    requires Inv(s) && k in s.frames && k.1 in s.db.gens && Fence(s.db, k.0, k.1) == Ok
    requires !Terminal(to) && to != Queued
    requires KnownPrompt(next).Some? && KnownPrompt(next) == KnownPrompt(s.frames[k].pc) && !next.Loaded?
    requires PastSoftCheck(next) ==> PastSoftCheck(s.frames[k].pc)
    requires !next.SelectingSoft? && !next.Reconciling?
    ensures Inv(At(s.(db := Transition(s.db, k.0, k.1, to).0), k, next))
  {
    hide Inv, RowOk, FrameOk;
    FrameHasRow(s, k);
    var db := Transition(s.db, k.0, k.1, to).0;
    var s' := At(s.(db := db), k, next);
    StatusWriteOk(s, s', k, to, next);
    Write(s, s', k, db.gens[k.1], s'.frames[k]);
  }

  lemma StatusWriteOk(s: Sys, s': Sys, k: Key, to: Status, next: Pc)
    requires k in s.frames && FrameOk(s, k, s.frames[k]) && k.1 in s.logs && k.1 in s.db.gens && RowOk(s, k.1)
    requires !Terminal(to) && to != Queued
    requires s' == At(s.(db := PutRow(s.db, k.1, s.db.gens[k.1].(status := to))), k, next)
    requires KnownPrompt(next).Some? && KnownPrompt(next) == KnownPrompt(s.frames[k].pc) && !next.Loaded?
    requires PastSoftCheck(next) ==> PastSoftCheck(s.frames[k].pc)
    requires !next.SelectingSoft? && !next.Reconciling?
    ensures RowShape(s'.db.gens[k.1]) && PostsOk(s', k.1) && FrameOk(s', k, s'.frames[k])
  {}

  lemma SubmittedKeeps(s: Sys, k: Key, ans: Answer)
    requires Inv(s) && k in s.frames && k.1 in s.db.gens && k.1 in s.logs
    requires s.frames[k].pc.CheckPreparing? || s.frames[k].pc.MarkSubmitted?
    ensures Inv(AdvanceResolve(s, k, ans))
  {
    hide Inv, RowOk, FrameOk;
    var p := s.frames[k].pc.prompt;
    if s.frames[k].pc.CheckPreparing? {
      GotoKnown(s, k, if s.db.gens[k.1].status == Preparing then MarkSubmitted(p) else CheckIntent(p));
    } else if Fence(s.db, k.0, k.1) == Ok {
      StatusKeeps(s, k, Submitted, CheckIntent(p));
    } else {
      GotoPlain(s, k, Raising(AuthorityFault));
    }
  }

  // ---------------------------------------------------------------- observation

  lemma IntentKeeps(s: Sys, k: Key, ans: Answer)
    requires Inv(s) && k in s.frames && k.1 in s.db.gens && k.1 in s.logs && s.frames[k].pc.CheckIntent?
    ensures Inv(AdvanceObserve(s, k, ans))
  {
    hide Inv;
    FrameHasRow(s, k);
    var p := s.frames[k].pc.prompt;
    GotoKnown(s, k, if s.db.gens[k.1].cancelRequestedAt.Some? then Reconciling(p) else Observing(p));
  }

  lemma ObservingKeeps(s: Sys, k: Key, ans: Answer)
    requires Inv(s) && k in s.frames && k.1 in s.db.gens && k.1 in s.logs && s.frames[k].pc.Observing?
    ensures Inv(AdvanceObserve(s, k, ans))
  {
    hide Inv, RowOk, FrameOk;
    var p := s.frames[k].pc.prompt;
    match ans {
      case Unreachable(expired) =>
        if expired { GotoPlain(s, k, Finishing(Interrupted)); } else { GotoKnown(s, k, CheckIntent(p)); }
      case Observed(ObsEnd(e), _) => GotoKnown(s, k, Resolved(p, e));
      case Observed(ObsLost, _) => GotoPlain(s, k, Finishing(Interrupted));
      case Observed(_, progress) => GotoKnown(s, k, if progress then ProgressStep(p) else CheckIntent(p));
      case _ =>
    }
  }

  lemma ProgressKeeps(s: Sys, k: Key, ans: Answer)
    requires Inv(s) && k in s.frames && k.1 in s.db.gens && k.1 in s.logs && s.frames[k].pc.ProgressStep?
    ensures Inv(AdvanceObserve(s, k, ans))
  {
    hide Inv, RowOk, FrameOk;
    FrameHasRow(s, k);
    var p := s.frames[k].pc.prompt;
    var (db, r) := ProgressWrite(s.db, k.0, k.1);
    if r.Ok? {
      var s' := At(s.(db := db), k, RunningStep(p));
      HeartbeatOk(s, s', k);
      Write(s, s', k, db.gens[k.1], s'.frames[k]);
    } else if r.LeaseLost? || r.OwnershipLost? {
      GotoPlain(s, k, Raising(AuthorityFault));
    } else {
      GotoKnown(s, k, RunningStep(p));
    }
  }

  lemma HeartbeatOk(s: Sys, s': Sys, k: Key)
    requires k in s.frames && FrameOk(s, k, s.frames[k]) && k.1 in s.logs && k.1 in s.db.gens && RowOk(s, k.1)
    requires s.frames[k].pc.ProgressStep?
    requires s' == At(s.(db := PutRow(s.db, k.1, s.db.gens[k.1].(heartbeatAt := Some(s.db.now)))), k, RunningStep(s.frames[k].pc.prompt))
    ensures RowShape(s'.db.gens[k.1]) && PostsOk(s', k.1) && FrameOk(s', k, s'.frames[k])
  {
    assert Count(s', k.1, Posted) == Count(s, k.1, Posted);
  }

  lemma RunningKeeps(s: Sys, k: Key, ans: Answer)
    requires Inv(s) && k in s.frames && k.1 in s.db.gens && k.1 in s.logs && s.frames[k].pc.RunningStep?
    ensures Inv(AdvanceObserve(s, k, ans))
  {
    hide Inv, RowOk, FrameOk;
    var p := s.frames[k].pc.prompt;
    var (db, r) := Transition(s.db, k.0, k.1, Running);
    if r.Ok? {
      StatusKeeps(s, k, Running, CheckIntent(p));
    } else if r.LeaseLost? || r.OwnershipLost? {
      GotoPlain(s, k, Raising(AuthorityFault));
    } else {
      GotoKnown(s, k, CheckIntent(p));
    }
  }

  // --------------------------------------------------------------- cancellation

  lemma ReconcileKeeps(s: Sys, k: Key, ans: Answer)
    requires Inv(s) && k in s.frames && k.1 in s.db.gens && k.1 in s.logs
    requires s.frames[k].pc.Reconciling? || s.frames[k].pc.LateObserve?
    ensures Inv(AdvanceCancel(s, k, ans))
  {
    hide Inv, RowOk, FrameOk;
    var p := s.frames[k].pc.prompt;
    match ans {
      case Unreachable(_) => GotoPlain(s, k, Raising(RemoteUnavailable));
      case Observed(ObsEnd(e), _) => GotoKnown(s, k, SoftCheck(p, e));
      case Observed(ObsLost, _) =>
        GotoPlain(s, k, Finishing(if s.frames[k].pc.LateObserve? then Cancelled else Interrupted));
      case Observed(o, _) =>
        if s.frames[k].pc.LateObserve? {
          GotoPlain(s, k, Finishing(Cancelled));
        } else {
          match DecideCancellation(o, s.frames[k].cap) {
            case SoftCancel => GotoKnown(s, k, SelectingSoft(p));
            case Destroy(kind) => GotoKnown(s, k, ProvingAuthority(p, kind));
          }
        }
      case _ =>
    }
  }

  lemma SoftCheckKeeps(s: Sys, k: Key, ans: Answer)
    requires Inv(s) && k in s.frames && k.1 in s.db.gens && k.1 in s.logs && s.frames[k].pc.SoftCheck?
    ensures Inv(AdvanceCancel(s, k, ans))
  {
    hide Inv, RowOk, FrameOk;
    FrameHasRow(s, k);
    var row := s.db.gens[k.1];
    var pc := s.frames[k].pc;
    if row.workerId != Some(k.0) {
      GotoPlain(s, k, Raising(AuthorityFault));
    } else if row.softCancelSelectedAt.Some? {
      GotoPlain(s, k, Finishing(Cancelled));
    } else if pc.end.RemoteCancelled? {
      var s' := Note(End(s, k), k.1, ReturnedUnrecorded);
      RowFacts(s, k);
      NoteOk(s.logs[k.1], row, row, ReturnedUnrecorded);
      EndIsStep(s, s', k, row, s'.logs[k.1]);
      StepOfFrame(s, s', k);
    } else {
      GotoKnown(s, k, Resolved(pc.prompt, pc.end));
    }
  }

  lemma SelectKeeps(s: Sys, k: Key, ans: Answer)
    requires Inv(s) && k in s.frames && k.1 in s.db.gens && k.1 in s.logs && s.frames[k].pc.SelectingSoft?
    ensures Inv(AdvanceCancel(s, k, ans))
  {
    hide Inv, RowOk, FrameOk;
    FrameHasRow(s, k);
    IntentThere(s, k);
    var p := s.frames[k].pc.prompt;
    var (db, c) := SelectSoftCancel(s.db, k.0, k.1);
    if c.Selected? && s.db.gens[k.1].softCancelSelectedAt.None? {
      var s' := AdvanceCancel(s, k, ans);
      SelectedIsStep(s, s', k);
      StepOfFrame(s, s', k);
    } else if c.Selected? {
      assert db == s.db;
      GotoKnown(s, k, CheckIntent(p));
    } else {
      GotoPlain(s, k, Raising(AuthorityFault));
    }
  }

  lemma IntentThere(s: Sys, k: Key)
    requires k in s.frames && FrameOk(s, k, s.frames[k]) && s.frames[k].pc.SelectingSoft?
    ensures k.1 in s.db.gens && s.db.gens[k.1].cancelRequestedAt.Some?
  {}

  lemma SelectedOk(s: Sys, s': Sys, k: Key)
    requires k in s.frames && FrameOk(s, k, s.frames[k]) && k.1 in s.logs && k.1 in s.db.gens && RowOk(s, k.1)
    requires s.frames[k].pc.SelectingSoft? && Fence(s.db, k.0, k.1) == Ok
    requires s.db.gens[k.1].cancelRequestedAt.Some? && s.db.gens[k.1].softCancelSelectedAt.None?
    requires s' == Note(At(s.(db := PutRow(s.db, k.1, s.db.gens[k.1].(softCancelSelectedAt := Some(s.db.now)))), k,
                           CheckIntent(s.frames[k].pc.prompt)), k.1, SoftSelected)
    ensures RowOk(s', k.1) && FrameOk(s', k, s'.frames[k]) && Grows(s.db.gens[k.1], s'.db.gens[k.1])
    ensures Count(s', k.1, Posted) == Count(s, k.1, Posted)
  {
    assert s'.logs[k.1] == s.logs[k.1] + [SoftSelected];
    NoteOk(s.logs[k.1], s.db.gens[k.1], s'.db.gens[k.1], SoftSelected);
  }

  lemma SelectedIsStep(s: Sys, s': Sys, k: Key)
    requires Inv(s) && k in s.frames && k.1 in s.logs && k.1 in s.db.gens
    requires s.frames[k].pc.SelectingSoft? && Fence(s.db, k.0, k.1) == Ok
    requires s.db.gens[k.1].cancelRequestedAt.Some? && s.db.gens[k.1].softCancelSelectedAt.None?
    requires s' == Note(At(s.(db := PutRow(s.db, k.1, s.db.gens[k.1].(softCancelSelectedAt := Some(s.db.now)))), k,
                           CheckIntent(s.frames[k].pc.prompt)), k.1, SoftSelected)
    ensures FrameStep(s, s', k)
  {
    hide Inv, RowOk, FrameOk, Grows;
    FrameHasRow(s, k);
    SelectedOk(s, s', k);
  }

  lemma ProveAuthorityKeeps(s: Sys, k: Key, ans: Answer)
    requires Inv(s) && k in s.frames && k.1 in s.db.gens && k.1 in s.logs && s.frames[k].pc.ProvingAuthority?
    ensures Inv(AdvanceCancel(s, k, ans))
  {
    hide Inv, RowOk;
    FrameHasRow(s, k);
    var s' := AdvanceCancel(s, k, ans);
    assert FrameOk(s, k, s'.frames[k]);
    Move(s, s', k, s'.frames[k]);
  }

  /** A step that only appends an event other than a POST, and moves on. */
  lemma NoteKeeps(s: Sys, s': Sys, k: Key, e: Event)
    requires Inv(s) && k in s.frames && k.1 in s.db.gens && k.1 in s.logs
    requires s' == s.(logs := s.logs[k.1 := s.logs[k.1] + [e]], frames := s'.frames)
    requires k in s'.frames && s'.frames == s.frames[k := s'.frames[k]]
    requires FrameOk(s, k, s'.frames[k]) && !HoldsPermit(s'.frames[k].pc) && e != Posted
    requires MayNote(s.logs[k.1], s.db.gens[k.1], s.db.gens[k.1], e)
    requires e != SoftSelected
    ensures Inv(s')
  {
    hide Inv, RowOk, FrameOk, HoldsPermit;
    FrameHasRow(s, k);
    NotedRow(s, s', k.1, e);
    NotedFrame(s, s', k, e);
    StepOfFrame(s, s', k);
  }

  lemma NotedRow(s: Sys, s': Sys, g: GenId, e: Event)
    requires g in s.db.gens && g in s.logs && RowOk(s, g) && e != Posted && e != SoftSelected
    requires s' == s.(logs := s.logs[g := s.logs[g] + [e]], frames := s'.frames)
    requires MayNote(s.logs[g], s.db.gens[g], s.db.gens[g], e)
    ensures RowOk(s', g) && Count(s', g, Posted) == Count(s, g, Posted)
  {}

  lemma NotedFrame(s: Sys, s': Sys, k: Key, e: Event)
    requires k.1 in s.logs && e != Posted && s' == s.(logs := s.logs[k.1 := s.logs[k.1] + [e]], frames := s'.frames)
    requires k in s'.frames && FrameOk(s, k, s'.frames[k])
    ensures FrameOk(s', k, s'.frames[k])
  {}

  lemma DestroyKeeps(s: Sys, k: Key, ans: Answer)
    requires Inv(s) && k in s.frames && k.1 in s.db.gens && k.1 in s.logs && s.frames[k].pc.Destroying?
    ensures Inv(AdvanceCancel(s, k, ans))
  {
    hide Inv, RowOk;
    FrameHasRow(s, k);
    if ans.CancelAnswer? {
      var s' := AdvanceCancel(s, k, ans);
      assert FrameOk(s, k, s'.frames[k]);
      var pc := s.frames[k].pc;
      NoteKeeps(s, s', k, Destroyed(pc.kind, pc.prompt));
    }
  }

  // -------------------------------------------------------------- finishing up

  lemma FinishingTerminal(s: Sys, k: Key)
    requires Inv(s) && k in s.frames && s.frames[k].pc.Finishing?
    ensures Terminal(s.frames[k].pc.status)
  {
    assert FrameOk(s, k, s.frames[k]);
  }

  lemma FinishKeeps(s: Sys, k: Key, ans: Answer)
    requires Inv(s) && k in s.frames && k.1 in s.db.gens && k.1 in s.logs
    requires var pc := s.frames[k].pc;
             pc.Resolved? || pc.FetchingHistory? || pc.EnterImporting? || pc.Staging? || pc.Raising? || pc.Finishing?
    ensures Inv(AdvanceFinish(s, k, ans))
  {
    hide Inv, RowOk, FrameOk, Terminalize, At, End, Fence, PutRow;
    if s.frames[k].pc.EnterImporting? {
      var p := s.frames[k].pc.prompt;
      if Fence(s.db, k.0, k.1) == Ok { StatusKeeps(s, k, Importing, Staging(p)); }
      else { GotoPlain(s, k, Raising(AuthorityFault)); }
    } else if s.frames[k].pc.Raising? || s.frames[k].pc.Finishing? {
      LastWriteKeeps(s, k, ans);
    } else {
      FetchKeeps(s, k, ans);
    }
  }

  /** Between the remote end and the importing status, and the staging after it. */
  lemma FetchKeeps(s: Sys, k: Key, ans: Answer)
    requires Inv(s) && k in s.frames && k.1 in s.db.gens && k.1 in s.logs
    requires var pc := s.frames[k].pc; pc.Resolved? || pc.FetchingHistory? || pc.Staging?
    ensures Inv(AdvanceFinish(s, k, ans))
  {
    hide Inv, RowOk, FrameOk, Terminalize, PublishNext, Guarded, At, Transition;
    match s.frames[k].pc {
      case Resolved(p, e) =>
        if e.RemoteSucceeded? { GotoKnown(s, k, FetchingHistory(p)); } else { GotoPlain(s, k, Finishing(EndStatus(e))); }
      case FetchingHistory(p) =>
        match ans {
          case HistoryVanished => GotoPlain(s, k, Finishing(Interrupted));
          case Unreachable(_) => GotoPlain(s, k, Raising(RemoteUnavailable));
          case _ => GotoKnown(s, k, EnterImporting(p));
        }
      case Staging(p) =>
        if ans.Staged? {
          GotoPlain(s, k, Raising(OutputFault));
          GotoKnown(s, k, Publishing(p, ans.keys));
        }
    }
  }

  lemma LastWriteKeeps(s: Sys, k: Key, ans: Answer)
    requires Inv(s) && k in s.frames && k.1 in s.db.gens && k.1 in s.logs
    requires s.frames[k].pc.Raising? || s.frames[k].pc.Finishing?
    ensures Inv(AdvanceFinish(s, k, ans))
  {
    hide Inv, RowOk, FrameOk, Terminalize, At, End, Fence, PutRow;
    match s.frames[k].pc {
      case Finishing(st) =>
        FinishingTerminal(s, k);
        GotoPlain(s, k, Raising(AuthorityFault));
        TerminalizeKeeps(s, k, st, At(s, k, Raising(AuthorityFault)));
      case Raising(fault) =>
        EndKeeps(s, k);
        TerminalizeKeeps(s, k, if fault.RemoteUnavailable? then Interrupted else Failed, End(s, k));
    }
  }

  lemma PublishKeeps(s: Sys, k: Key, ans: Answer)
    requires Inv(s) && k in s.frames && k.1 in s.db.gens && k.1 in s.logs && s.frames[k].pc.Publishing?
    ensures Inv(AdvanceFinish(s, k, ans))
  {
    hide Inv, RowOk, FrameOk, Fence, PublicationFence, At, Note;
    var p, todo := s.frames[k].pc.prompt, s.frames[k].pc.todo;
    if todo == [] {
      GotoPlain(s, k, Finishing(Succeeded));
    } else {
      match PublishOutput(s.db, k.0, k.1, s.frames[k].attempt, todo[0]).1 {
        case NotFenced => GotoPlain(s, k, Raising(AuthorityFault));
        case Converged => GotoKnown(s, k, Publishing(p, todo[1..]));
        case Minted => MintKeeps(s, k);
      }
    }
  }

  /** The state after a Take is minted for the next output. */
  function Mint(s: Sys, k: Key): Sys
    requires k in s.frames && k.1 in s.db.gens && k.1 in s.logs
    requires s.frames[k].pc.Publishing? && s.frames[k].pc.todo != []
  {
    var p, todo := s.frames[k].pc.prompt, s.frames[k].pc.todo;
    var db := PublishOutput(s.db, k.0, k.1, s.frames[k].attempt, todo[0]).0;
    Note(At(s.(db := db), k, Publishing(p, todo[1..])), k.1, Published(todo[0]))
  }

  lemma MintKeeps(s: Sys, k: Key)
    requires Inv(s) && k in s.frames && k.1 in s.db.gens && k.1 in s.logs
    requires s.frames[k].pc.Publishing? && s.frames[k].pc.todo != []
    requires PublishOutput(s.db, k.0, k.1, s.frames[k].attempt, s.frames[k].pc.todo[0]).1 == Minted
    ensures Inv(Mint(s, k))
  {
    hide Inv, RowOk, FrameOk, FrameStep;
    FrameHasRow(s, k);
    MintedOk(s, k);
    MintIsStep(s, k);
    StepOfFrame(s, Mint(s, k), k);
  }

  lemma MintedOk(s: Sys, k: Key)
    requires k in s.frames && k.1 in s.db.gens && k.1 in s.logs
    requires RowOk(s, k.1) && FrameOk(s, k, s.frames[k])
    requires s.frames[k].pc.Publishing? && s.frames[k].pc.todo != []
    requires PublishOutput(s.db, k.0, k.1, s.frames[k].attempt, s.frames[k].pc.todo[0]).1 == Minted
    ensures var s' := Mint(s, k);
            RowOk(s', k.1) && FrameOk(s', k, s'.frames[k])
  {
    var s' := Mint(s, k);
    MintedRow(s, k);
    hide RowOk;
    assert Owns(s', k) == Owns(s, k) && Held(s', k.0) == Held(s, k.0);
  }

  lemma MintedRow(s: Sys, k: Key)
    requires k in s.frames && k.1 in s.db.gens && k.1 in s.logs
    requires RowOk(s, k.1) && FrameOk(s, k, s.frames[k])
    requires s.frames[k].pc.Publishing? && s.frames[k].pc.todo != []
    requires PublishOutput(s.db, k.0, k.1, s.frames[k].attempt, s.frames[k].pc.todo[0]).1 == Minted
    ensures RowOk(Mint(s, k), k.1) && Count(Mint(s, k), k.1, Posted) == Count(s, k.1, Posted)
  {
    var s' := Mint(s, k);
    NoteOk(s.logs[k.1], s.db.gens[k.1], s'.db.gens[k.1], Published(s.frames[k].pc.todo[0]));
    hide LogOk, FrameOk;
    assert RowShape(s'.db.gens[k.1]);
  }

  lemma MintIsStep(s: Sys, k: Key)
    requires k in s.frames && k.1 in s.db.gens && k.1 in s.logs
    requires s.frames[k].pc.Publishing? && s.frames[k].pc.todo != []
    requires PublishOutput(s.db, k.0, k.1, s.frames[k].attempt, s.frames[k].pc.todo[0]).1 == Minted
    requires var s' := Mint(s, k);
             RowOk(s', k.1) && FrameOk(s', k, s'.frames[k])
    ensures FrameStep(s, Mint(s, k), k)
  {
    hide RowOk, FrameOk;
  }

  lemma AdvanceKeeps(s: Sys, k: Key, ans: Answer)
    requires Inv(s) && k in s.frames && k.1 in s.db.gens && k.1 in s.logs
    ensures Inv(AdvanceFrame(s, k, ans))
  {
    hide Inv, Credible, AdvanceLoad, AdvanceSubmit, AdvanceResolve, AdvanceObserve, AdvanceCancel, AdvanceFinish;
    if Credible(s, k, ans) {
      match s.frames[k].pc {
        case Start => LoadKeeps(s, k);
        case Loaded(_) => LoadKeeps(s, k);
        case UncertainFound => UncertainFoundKeeps(s, k);
        case PreSubmit(_) => PreSubmitKeeps(s, k);
        case Persisting => PersistKeeps(s, k, ans);
        case Marking => MarkingKeeps(s, k, ans);
        case Permitted => PermitKeeps(s, k, ans);
        case Refreshed => PermitKeeps(s, k, ans);
        case Cleared => ClearedKeeps(s, k, ans);
        case Rediscovering => RediscoverKeeps(s, k, ans);
        case GivingUp => GiveUpKeeps(s, k, ans);
        case Confirming(_) => ConfirmKeeps(s, k, ans);
        case ConflictRead(_) => ConflictKeeps(s, k, ans);
        case CheckPreparing(_) => SubmittedKeeps(s, k, ans);
        case MarkSubmitted(_) => SubmittedKeeps(s, k, ans);
        case CheckIntent(_) => IntentKeeps(s, k, ans);
        case Observing(_) => ObservingKeeps(s, k, ans);
        case ProgressStep(_) => ProgressKeeps(s, k, ans);
        case RunningStep(_) => RunningKeeps(s, k, ans);
        case Reconciling(_) => ReconcileKeeps(s, k, ans);
        case SoftCheck(_, _) => SoftCheckKeeps(s, k, ans);
        case SelectingSoft(_) => SelectKeeps(s, k, ans);
        case ProvingAuthority(_, _) => ProveAuthorityKeeps(s, k, ans);
        case Destroying(_, _) => DestroyKeeps(s, k, ans);
        case LateObserve(_) => ReconcileKeeps(s, k, ans);
        case Publishing(_, _) => PublishKeeps(s, k, ans);
        case _ => FinishKeeps(s, k, ans);
      }
    }
  }

  lemma ClearedKeeps(s: Sys, k: Key, ans: Answer)
    requires Inv(s) && k in s.frames && k.1 in s.logs && s.frames[k].pc.Cleared?
    ensures Inv(AdvanceSubmit(s, k, ans))
  {
    hide Inv, Post;
    PostKeeps(s, k, ans);
  }

  // ----------------------------------------------------- actions of the workers

  /** Lease acquisition: the new holder is new to the lease, so it has no drives. */
  lemma AcquireKeeps(s: Sys, w: WorkerId, ttl: int)
    requires Inv(s)
    ensures Inv(Step(s, AcquireStep(w, ttl)))
  {
    hide RowOk, Inv;
    var s' := Step(s, AcquireStep(w, ttl));
    if s' != s {
      forall k | k in s'.frames
        ensures FrameOk(s', k, s'.frames[k])
      {
        FrameHasRow(s, k);
      }
      AcquireRest(s, s', w);
    }
  }

  lemma AcquireRest(s: Sys, s': Sys, w: WorkerId)
    requires Inv(s) && s'.db.gens == s.db.gens && s'.logs == s.logs && s'.remote == s.remote && s'.frames == s.frames
    requires s'.everHeld == s.everHeld + {w} && Holder(s'.db) == Some(w)
    requires forall k | k in s'.frames :: FrameOk(s', k, s'.frames[k])
    ensures Inv(s')
  {
    hide FrameOk, RowOk;
    forall g | g in s'.db.gens
      ensures RowOk(s', g)
    {
      assert RowOk(s, g);
      RowOkReads(s, s', g);
    }
  }

  lemma RowOkReads(s: Sys, s': Sys, g: GenId)
    requires s'.db.gens == s.db.gens && s'.logs == s.logs && s'.remote == s.remote
    requires g in s.db.gens && g in s.logs && RowOk(s, g)
    ensures RowOk(s', g)
  {}

  /** Time passing and a bare lease refresh. */
  lemma StoreKeeps(s: Sys, s': Sys)
    requires Inv(s) && SameStore(s, s') && s'.frames.Keys <= s.frames.Keys
    requires forall k | k in s'.frames :: s'.frames[k] == s.frames[k]
    ensures Inv(s')
  {
    hide FrameOk, RowOk;
    forall g | g in s'.db.gens
      ensures RowOk(s', g)
    {
      RowOkReads(s, s', g);
    }
    forall k | k in s'.frames
      ensures FrameOk(s', k, s'.frames[k])
    {
      SameFrameOk(s, s', k, s.frames[k]);
    }
  }

  lemma NewGenerationKeeps(s: Sys, g: GenId, outputs: seq<string>)
    requires Inv(s)
    ensures Inv(Step(s, NewGeneration(g, outputs)))
  {
    hide FrameOk, RowOk;
    var s' := Step(s, NewGeneration(g, outputs));
    if s' != s {
      FreshRowOk(s, g, outputs);
      forall h | h in s'.db.gens
        ensures RowOk(s', h)
      {
        if h != g {
          UntouchedRow(s, s', h);
        }
      }
      forall k | k in s'.frames
        ensures FrameOk(s', k, s'.frames[k])
      {
        UntouchedFrame(s, s', k);
      }
    }
  }

  lemma FreshRowOk(s: Sys, g: GenId, outputs: seq<string>)
    requires Inv(s) && g !in s.db.gens && g !in s.logs
    ensures RowOk(Step(s, NewGeneration(g, outputs)), g)
  {}

  lemma UntouchedRow(s: Sys, s': Sys, h: GenId)
    requires h in s.db.gens && h in s.logs && RowOk(s, h) && s'.remote == s.remote
    requires h in s'.db.gens && h in s'.logs && s'.db.gens[h] == s.db.gens[h] && s'.logs[h] == s.logs[h]
    ensures RowOk(s', h)
  {}

  lemma UntouchedFrame(s: Sys, s': Sys, k: Key)
    requires Inv(s) && k in s.frames && s'.frames == s.frames
    requires s'.remote == s.remote && s'.everHeld == s.everHeld && Holder(s'.db) == Holder(s.db)
    requires forall h | h in s.db.gens && h in s.logs ::
               h in s'.db.gens && h in s'.logs && s'.db.gens[h] == s.db.gens[h] && s'.logs[h] == s.logs[h]
    ensures FrameOk(s', k, s'.frames[k])
  {
    assert FrameOk(s, k, s.frames[k]);
  }

  /** A row changed by nobody's drive: the user, or recovery before it spawns one. */
  lemma RowChangeKeeps(s: Sys, s': Sys, g: GenId)
    requires Inv(s) && OneRow(s, s', g) && s'.frames == s.frames && s'.remote == s.remote && s'.logs == s.logs
    requires forall k | k in s.frames && k.1 == g ::
               SameView(s.db.gens[g], s'.db.gens[g]) || (!Owns(s, k) && !Owns(s', k))
    requires RowOk(s', g)
    ensures Inv(s')
  {
    hide FrameOk, RowOk, Grows;
    forall k | k in s'.frames
      ensures FrameOk(s', k, s'.frames[k])
    {
      OtherFrame(s, s', g, k);
    }
    forall h | h in s'.db.gens
      ensures RowOk(s', h)
    {
      if h != g {
        OtherRow(s, s', g, h);
      }
    }
  }

  lemma CancelledRow(s: Sys, s': Sys, g: GenId)
    requires s' == Step(s, CancelStep(g)) && s' != s && g in s.db.gens && g in s.logs && RowOk(s, g)
    ensures g in s'.db.gens && RowOk(s', g)
  {
    var l := s.logs[g];
    assert forall i | 0 <= i < |l| :: !l[i].Returned?;
    assert Count(s', g, Posted) == Count(s, g, Posted);
  }

  lemma CancelKeeps(s: Sys, g: GenId)
    requires Inv(s)
    ensures Inv(Step(s, CancelStep(g)))
  {
    hide Inv, FrameOk;
    var s' := Step(s, CancelStep(g));
    if s' != s {
      RowOfInv(s, g);
      CancelledRow(s, s', g);
      hide RowOk;
      RowChangeKeeps(s, s', g);
    } else {
      assert s' == s;
    }
  }

  lemma RowOfInv(s: Sys, g: GenId)
    requires Inv(s) && g in s.db.gens
    ensures g in s.logs && RowOk(s, g)
  {}

  /** No row ever goes back to the queue: an active row always has its attempt. */
  lemma RequeueNeverFires(s: Sys, w: WorkerId, g: GenId)
    requires Inv(s)
    ensures Requeue(s.db, w, g).0 == s.db
  {}

  /** A new drive never replaces a live one. */
  lemma SpawnKeeps(s: Sys, k: Key, a: AttemptId, cap: Capability)
    requires Inv(s) && k !in s.frames && k.1 in s.db.gens && Held(s, k.0)
    requires s.db.gens[k.1].attemptId == Some(a) && s.db.gens[k.1].workerId == Some(k.0)
    requires !Terminal(s.db.gens[k.1].status)
    ensures Inv(Spawn(s, k, a, cap))
  {
    hide FrameOk, RowOk;
    var s' := Spawn(s, k, a, cap);
    forall j | j in s'.frames
      ensures FrameOk(s', j, s'.frames[j])
    {
      if j == k {
        SpawnedFrame(s, k, a, cap);
      } else {
        SameFrameOk(s, s', j, s.frames[j]);
      }
    }
    forall g | g in s'.db.gens
      ensures RowOk(s', g)
    {
      RowOkReads(s, s', g);
    }
  }

  lemma SpawnedFrame(s: Sys, k: Key, a: AttemptId, cap: Capability)
    requires Inv(s) && k.1 in s.db.gens && Held(s, k.0)
    requires s.db.gens[k.1].attemptId == Some(a) && s.db.gens[k.1].workerId == Some(k.0)
    requires !Terminal(s.db.gens[k.1].status)
    ensures FrameOk(Spawn(s, k, a, cap), k, Frame(a, cap, Start))
  {
    RowOfInv(s, k.1);
  }

  lemma ClaimKeeps(s: Sys, w: WorkerId, g: GenId, a: AttemptId, cap: Capability)
    requires Inv(s) && Held(s, w) && Claimable(s.db, g)
    ensures (w, g) !in s.frames
    ensures Inv(Spawn(s.(db := Claim(s.db, w, g, a)), (w, g), a, cap))
  {
    hide Inv;
    RowOfInv(s, g);
    forall k | k in s.frames
      ensures k.1 != g
    {
      FrameHasRow(s, k);
    }
    var s' := s.(db := Claim(s.db, w, g, a));
    ClaimedRow(s, s', w, g, a);
    SpawnKeeps(s', (w, g), a, cap);
  }

  lemma ClaimedRow(s: Sys, s': Sys, w: WorkerId, g: GenId, a: AttemptId)
    requires Inv(s) && Claimable(s.db, g) && s' == s.(db := Claim(s.db, w, g, a))
    requires forall k | k in s.frames :: k.1 != g
    ensures Inv(s')
  {
    hide FrameOk, RowOk;
    RowOfInv(s, g);
    ClaimedRowOk(s, s', w, g, a);
    forall k | k in s'.frames
      ensures FrameOk(s', k, s'.frames[k])
    {
      FrameElsewhere(s, s', g, k);
    }
    forall h | h in s'.db.gens
      ensures RowOk(s', h)
    {
      if h != g {
        UntouchedRow(s, s', h);
      }
    }
  }

  lemma ClaimedRowOk(s: Sys, s': Sys, w: WorkerId, g: GenId, a: AttemptId)
    requires Claimable(s.db, g) && s' == s.(db := Claim(s.db, w, g, a)) && g in s.logs && RowOk(s, g)
    ensures RowOk(s', g)
  {}

  lemma FrameElsewhere(s: Sys, s': Sys, g: GenId, k: Key)
    requires k in s.frames && FrameOk(s, k, s.frames[k]) && k.1 != g
    requires s'.logs == s.logs && s'.remote == s.remote && s'.everHeld == s.everHeld
    requires Holder(s'.db) == Holder(s.db)
    requires forall h | h in s.db.gens && h != g :: h in s'.db.gens && s'.db.gens[h] == s.db.gens[h]
    ensures FrameOk(s', k, s.frames[k])
  {}

  lemma AdoptKeeps(s: Sys, w: WorkerId, g: GenId, cap: Capability)
    requires Inv(s) && Ownership.Adopt(s.db, w, g).1.Ok? && s.db.gens[g].workerId != Some(w)
    requires s.db.gens[g].status != Queued
    ensures s.db.gens[g].attemptId.Some? && (w, g) !in s.frames
    ensures Inv(Spawn(s.(db := Ownership.Adopt(s.db, w, g).0), (w, g), s.db.gens[g].attemptId.value, cap))
  {
    hide Inv;
    RowOfInv(s, g);
    forall k | k in s.frames && k.1 == g
      ensures k.0 != w
    {
      FrameHasRow(s, k);
    }
    var s' := s.(db := Ownership.Adopt(s.db, w, g).0);
    AdoptedRow(s, s', w, g);
    SpawnKeeps(s', (w, g), s.db.gens[g].attemptId.value, cap);
  }

  lemma AdoptedRow(s: Sys, s': Sys, w: WorkerId, g: GenId)
    requires Inv(s) && g in s.db.gens && Holder(s.db) == Some(w) && !Terminal(s.db.gens[g].status)
    requires s.db.gens[g].attemptId.Some? && s.db.gens[g].workerId != Some(w)
    requires s' == s.(db := PutRow(s.db, g, s.db.gens[g].(workerId := Some(w), heartbeatAt := Some(s.db.now))))
    requires forall k | k in s.frames && k.1 == g :: k.0 != w
    ensures Inv(s')
  {
    hide FrameOk, RowOk;
    RowOfInv(s, g);
    AdoptedRowOk(s, s', g);
    forall k | k in s'.frames
      ensures FrameOk(s', k, s'.frames[k])
    {
      if k.1 == g {
        DisownedFrame(s, s', w, g, k);
      } else {
        FrameElsewhere(s, s', g, k);
      }
    }
    forall h | h in s'.db.gens
      ensures RowOk(s', h)
    {
      if h != g {
        UntouchedRow(s, s', h);
      }
    }
  }

  lemma AdoptedRowOk(s: Sys, s': Sys, g: GenId)
    requires g in s.db.gens && g in s.logs && RowOk(s, g) && s.db.gens[g].attemptId.Some?
    requires g in s'.db.gens && s'.logs == s.logs && s'.remote == s.remote
    requires s'.db.gens[g] == s.db.gens[g].(workerId := s'.db.gens[g].workerId, heartbeatAt := s'.db.gens[g].heartbeatAt)
    requires s'.db.gens[g].workerId.Some?
    ensures RowOk(s', g)
  {}

  lemma DisownedFrame(s: Sys, s': Sys, w: WorkerId, g: GenId, k: Key)
    requires Inv(s) && k in s.frames && k.1 == g && k.0 != w && Holder(s.db) == Some(w)
    requires g in s.db.gens
    requires s' == s.(db := PutRow(s.db, g, s.db.gens[g].(workerId := Some(w), heartbeatAt := Some(s.db.now))))
    ensures FrameOk(s', k, s.frames[k])
  {
    assert FrameOk(s, k, s.frames[k]);
  }

  // --------------------------------------------------------------- every action

  lemma StepKeeps(s: Sys, a: Action)
    requires Inv(s)
    ensures Inv(Step(s, a))
  {
    hide Inv, AdvanceFrame;
    match a {
      case Tick(n) => StoreKeeps(s, Step(s, a));
      case NewGeneration(g, outputs) => NewGenerationKeeps(s, g, outputs);
      case AcquireStep(w, ttl) => AcquireKeeps(s, w, ttl);
      case RefreshStep(w) => StoreKeeps(s, Step(s, a));
      case ClaimStep(w, g, attempt, cap) =>
        if Held(s, w) && OldestClaimable(s.db, g) {
          ClaimKeeps(s, w, g, attempt, cap);
        }
      case AdoptStep(w, g, cap) =>
        var (_, r) := Ownership.Adopt(s.db, w, g);
        if r.Ok? && s.db.gens[g].workerId != Some(w) && s.db.gens[g].status != Queued {
          AdoptKeeps(s, w, g, cap);
        }
      case RequeueStep(w, g) =>
        RequeueNeverFires(s, w, g);
        assert Step(s, a) == s;
      case CancelStep(g) => CancelKeeps(s, g);
      case Advance(w, g, ans) =>
        if (w, g) in s.frames && g in s.db.gens && g in s.logs {
          AdvanceKeeps(s, (w, g), ans);
        }
      case Throw(w, g, fault) =>
        if (w, g) in s.frames && (fault.RemoteUnavailable? || fault.Unexpected?) {
          GotoPlain(s, (w, g), Raising(fault));
        }
      case Crash(w) => StoreKeeps(s, Step(s, a));
    }
  }

  /** Every state of every run satisfies the invariant. */
  lemma {:induction false} RunKeeps(s: Sys, run: seq<Action>)
    requires Inv(s)
    ensures Inv(Run(s, run))
    decreases |run|
  {
    hide Inv, Step;
    if run != [] {
      RunKeeps(s, run[..|run| - 1]);
      StepKeeps(Run(s, run[..|run| - 1]), run[|run| - 1]);
    }
  }

  lemma InitOk()
    ensures Inv(Init)
  {}
}
