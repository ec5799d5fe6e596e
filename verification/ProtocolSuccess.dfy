/**
 When a generation can still succeed: what, visible in the store, in the drives and at
 the executor, decides whether any continuation records it as succeeded.
 */
module ProtocolSuccess {
  import opened Wrappers
  import opened Ownership
  import opened Rediscovery
  import opened Protocol
  import opened ProtocolInvariant
  import opened ProtocolSteps
  import opened ProtocolHistory
  import opened ProtocolTheorems
  import opened ProtocolEffects
  import opened ProtocolLimits
  import opened ProtocolCancellation
  import opened ProtocolDrive
  import opened ProtocolPublication

  // --------------------------------------------------------------- the condition

  /** The executor has accepted a prompt of this generation. */
  ghost predicate HasPrompt(s: Sys, g: GenId) { exists p :: p in s.remote && s.remote[p].0 == g }

  /** This drive holds the one-shot permit and can still spend it: it is past its
      authority proof, or its worker has the lease. */
  predicate CanPost(s: Sys, k: Key) {
    k in s.frames && (s.frames[k].pc.Cleared? || (HoldsPermit(s.frames[k].pc) && Held(s, k.0)))
  }

  ghost predicate PostMayFollow(s: Sys, g: GenId) { exists k :: k in s.frames && k.1 == g && CanPost(s, k) }

  /** Succeeded already, or: active, no soft cancel selected, not given up; and once the
      permit was taken, a prompt is at the executor or its POST can still be made. */
  ghost predicate CanSucceed(s: Sys, g: GenId) {
    g in s.db.gens && g in s.logs
    && var r := s.db.gens[g];
       || r.status == Succeeded
       || (&& !Terminal(r.status) && r.softCancelSelectedAt.None? && r.submission != Uncertain
           && (r.submission == SubmissionPossible ==> HasPrompt(s, g) || PostMayFollow(s, g)))
  }

  ghost predicate SuccessMayFollow(s: Sys, g: GenId) {
    exists more: seq<Action> :: HasSucceeded(Run(s, more), g)
  }

  // ------------------------------------------------------- what success comes from

  /** A drive about to record success stands on a confirmed row, and owns it unmarked. */
  ghost predicate Due(s: Sys) {
    forall k | k in s.frames && k.1 in s.db.gens && s.frames[k].pc == Finishing(Succeeded) ::
      && s.db.gens[k.1].submission == Confirmed
      && (Owns(s, k) ==> s.db.gens[k.1].softCancelSelectedAt.None?)
  }

  /** A step of drive k: where success, the permit, the mark and new prompts come from. */
  ghost predicate Tame(s: Sys, s': Sys, k: Key)
    requires k in s.frames && k.1 in s.db.gens
  {
    k.1 in s'.db.gens
    && var r, r', pc := s.db.gens[k.1], s'.db.gens[k.1], s.frames[k].pc;
    && r'.workerId == r.workerId
    && (r'.status == Succeeded ==> r.status == Succeeded || (pc == Finishing(Succeeded) && Owns(s, k)))
    && (r.softCancelSelectedAt.None? && r'.softCancelSelectedAt.Some? ==> pc.SelectingSoft? && Owns(s, k))
    && (s'.remote == s.remote || pc.Cleared?)
    && (k in s'.frames && s'.frames[k].pc == Finishing(Succeeded) ==>
          s'.frames[k].pc == pc || (pc.Publishing? && r' == r))
    && (k in s'.frames && HoldsPermit(s'.frames[k].pc) ==>
          s'.frames[k].pc == pc || r.submission == NotStarted || (HoldsPermit(pc) && Held(s, k.0)))
  }

  lemma LoadIsTame(s: Sys, k: Key)
    requires k in s.frames && k.1 in s.db.gens && k.1 in s.logs
    ensures Tame(s, AdvanceLoad(s, k), k)
  {}

  lemma SubmitIsTame(s: Sys, k: Key, ans: Answer)
    requires k in s.frames && k.1 in s.db.gens && k.1 in s.logs
    ensures Tame(s, AdvanceSubmit(s, k, ans), k)
  {
    hide PersistSubmission, MarkPossible, RefreshLease, VerifyAuthority;
    match s.frames[k].pc {
      case Persisting => PersistIsTame(s, k, ans);
      case Marking => MarkIsTame(s, k, ans);
      case Permitted => RefreshIsTame(s, k, ans);
      case Refreshed => ProofIsTame(s, k, ans);
      case _ =>
    }
  }

  lemma PersistIsTame(s: Sys, k: Key, ans: Answer)
    requires k in s.frames && k.1 in s.db.gens && k.1 in s.logs && s.frames[k].pc.Persisting?
    ensures Tame(s, AdvanceSubmit(s, k, ans), k)
  {}

  lemma MarkIsTame(s: Sys, k: Key, ans: Answer)
    requires k in s.frames && k.1 in s.db.gens && k.1 in s.logs && s.frames[k].pc.Marking?
    ensures Tame(s, AdvanceSubmit(s, k, ans), k)
  {}

  lemma RefreshIsTame(s: Sys, k: Key, ans: Answer)
    requires k in s.frames && k.1 in s.db.gens && k.1 in s.logs && s.frames[k].pc.Permitted?
    ensures Tame(s, AdvanceSubmit(s, k, ans), k)
  {}

  lemma ProofIsTame(s: Sys, k: Key, ans: Answer)
    requires k in s.frames && k.1 in s.db.gens && k.1 in s.logs && s.frames[k].pc.Refreshed?
    ensures Tame(s, AdvanceSubmit(s, k, ans), k)
  {}

  lemma ResolveIsTame(s: Sys, k: Key, ans: Answer)
    requires k in s.frames && k.1 in s.db.gens && k.1 in s.logs
    ensures Tame(s, AdvanceResolve(s, k, ans), k)
  {}

  lemma ObserveIsTame(s: Sys, k: Key, ans: Answer)
    requires k in s.frames && k.1 in s.db.gens && k.1 in s.logs
    ensures Tame(s, AdvanceObserve(s, k, ans), k)
  {}

  lemma CancelIsTame(s: Sys, k: Key, ans: Answer)
    requires k in s.frames && k.1 in s.db.gens && k.1 in s.logs
    ensures Tame(s, AdvanceCancel(s, k, ans), k)
  {
    hide SelectSoftCancel, VerifyAuthority, DecideCancellation;
    match s.frames[k].pc {
      case SelectingSoft(_) => SelectIsTame(s, k, ans);
      case ProvingAuthority(_, _) => ProvingIsTame(s, k, ans);
      case SoftCheck(_, _) => CheckIsTame(s, k, ans);
      case _ =>
    }
  }

  lemma CheckIsTame(s: Sys, k: Key, ans: Answer)
    requires k in s.frames && k.1 in s.db.gens && k.1 in s.logs && s.frames[k].pc.SoftCheck?
    ensures Tame(s, AdvanceCancel(s, k, ans), k)
  {
    hide SelectSoftCancel, VerifyAuthority;
  }

  lemma SelectIsTame(s: Sys, k: Key, ans: Answer)
    requires k in s.frames && k.1 in s.db.gens && k.1 in s.logs && s.frames[k].pc.SelectingSoft?
    ensures Tame(s, AdvanceCancel(s, k, ans), k)
  {}

  lemma ProvingIsTame(s: Sys, k: Key, ans: Answer)
    requires k in s.frames && k.1 in s.db.gens && k.1 in s.logs && s.frames[k].pc.ProvingAuthority?
    ensures Tame(s, AdvanceCancel(s, k, ans), k)
  {}

  lemma FinishIsTame(s: Sys, k: Key, ans: Answer)
    requires k in s.frames && k.1 in s.db.gens && k.1 in s.logs
    ensures Tame(s, AdvanceFinish(s, k, ans), k)
  {
    hide PublishNext, Terminalize, Guarded, Transition, Tame;
    MoveIsTame(s, k, Raising(AuthorityFault));
    EndIsTame(s, k);
    match s.frames[k].pc {
      case Publishing(p, todo) => PublishIsTame(s, k, p, todo);
      case EnterImporting(_) => ImportIsTame(s, k, ans);
      case Finishing(st) => TerminalizeIsTame(s, k, st, At(s, k, Raising(AuthorityFault)));
      case Raising(f) => TerminalizeIsTame(s, k, if f.RemoteUnavailable? then Interrupted else Failed, End(s, k));
      case _ => FetchIsTame(s, k, ans);
    }
  }

  lemma MoveIsTame(s: Sys, k: Key, pc: Pc)
    requires k in s.frames && k.1 in s.db.gens && !HoldsPermit(pc) && pc != Finishing(Succeeded)
    ensures Tame(s, At(s, k, pc), k) && Tame(s, s, k)
  {}

  lemma EndIsTame(s: Sys, k: Key)
    requires k in s.frames && k.1 in s.db.gens
    ensures Tame(s, End(s, k), k)
  {}

  lemma FetchIsTame(s: Sys, k: Key, ans: Answer)
    requires k in s.frames && k.1 in s.db.gens && k.1 in s.logs
    requires var pc := s.frames[k].pc; !pc.Publishing? && !pc.EnterImporting? && !pc.Finishing? && !pc.Raising?
    ensures Tame(s, AdvanceFinish(s, k, ans), k)
  {
    hide Tame, PublishNext, Terminalize, Guarded;
    MoveIsTame(s, k, Start);
    var s' := AdvanceFinish(s, k, ans);
    if s' != s {
      var pc := s'.frames[k].pc;
      assert s' == At(s, k, pc) && !HoldsPermit(pc) && pc != Finishing(Succeeded);
      MoveIsTame(s, k, pc);
    }
  }

  lemma ImportIsTame(s: Sys, k: Key, ans: Answer)
    requires k in s.frames && k.1 in s.db.gens && k.1 in s.logs && s.frames[k].pc.EnterImporting?
    ensures Tame(s, AdvanceFinish(s, k, ans), k)
  {
    hide PublishNext, Terminalize;
  }

  lemma PublishIsTame(s: Sys, k: Key, p: PromptId, todo: seq<string>)
    requires k in s.frames && k.1 in s.db.gens && k.1 in s.logs && s.frames[k].pc == Publishing(p, todo)
    ensures Tame(s, PublishNext(s, k, p, todo), k)
  {}

  lemma TerminalizeIsTame(s: Sys, k: Key, to: Status, onFail: Sys)
    requires k in s.frames && k.1 in s.db.gens && k.1 in s.logs && Tame(s, onFail, k) && k in s.frames
    requires to == Succeeded ==> s.frames[k].pc == Finishing(Succeeded)
    ensures Tame(s, Terminalize(s, k, to, onFail), k)
  {}

  lemma AdvanceIsTame(s: Sys, k: Key, ans: Answer)
    requires k in s.frames && k.1 in s.db.gens && k.1 in s.logs
    ensures Tame(s, AdvanceFrame(s, k, ans), k)
  {
    hide Credible, AdvanceLoad, AdvanceSubmit, AdvanceResolve, AdvanceObserve, AdvanceCancel, AdvanceFinish;
    LoadIsTame(s, k);
    SubmitIsTame(s, k, ans);
    ResolveIsTame(s, k, ans);
    ObserveIsTame(s, k, ans);
    CancelIsTame(s, k, ans);
    FinishIsTame(s, k, ans);
  }

  // ------------------------------------------------------------------- necessity

  lemma AdvanceDue(s: Sys, k: Key, ans: Answer)
    requires Inv(s) && Due(s) && k in s.frames && k.1 in s.db.gens && k.1 in s.logs
    requires Inv(AdvanceFrame(s, k, ans)) && Follows(s, AdvanceFrame(s, k, ans))
    ensures Due(AdvanceFrame(s, k, ans))
  {
    hide Inv, AdvanceFrame;
    FrameHasRow(s, k);
    AdvanceIsTame(s, k, ans);
    AdvanceIsLocal(s, k, ans);
    var s' := AdvanceFrame(s, k, ans);
    forall j | j in s'.frames && j.1 in s'.db.gens && s'.frames[j].pc == Finishing(Succeeded)
      ensures s'.db.gens[j.1].submission == Confirmed
      ensures Owns(s', j) ==> s'.db.gens[j.1].softCancelSelectedAt.None?
    {
      if j != k {
        FrameHasRow(s, j);
      }
      StaysDue(s, s', k, j);
    }
  }

  lemma StaysDueElsewhere(s: Sys, s': Sys, k: Key, j: Key)
    requires Due(s) && Follows(s, s') && k in s.frames && k.1 in s.db.gens && k.1 in s.logs && Local(s, s', k) && Tame(s, s', k)
    requires j in s'.frames && j.1 in s'.db.gens && s'.frames[j].pc == Finishing(Succeeded)
    requires j.1 != k.1 && j in s.frames && j.1 in s.db.gens
    ensures s'.db.gens[j.1].submission == Confirmed
    ensures Owns(s', j) ==> s'.db.gens[j.1].softCancelSelectedAt.None?
  {
    hide LogsOne, Earned, Justified, Follows, Tame;
  }

  lemma StaysDueBeside(s: Sys, s': Sys, k: Key, j: Key)
    requires Due(s) && Follows(s, s') && k in s.frames && k.1 in s.db.gens && k.1 in s.logs && Local(s, s', k) && Tame(s, s', k)
    requires j in s'.frames && j.1 in s'.db.gens && s'.frames[j].pc == Finishing(Succeeded)
    requires j != k && j.1 == k.1 && j in s.frames && j.1 in s.db.gens
    ensures s'.db.gens[j.1].submission == Confirmed
    ensures Owns(s', j) ==> s'.db.gens[j.1].softCancelSelectedAt.None?
  {
    hide LogsOne, Earned, Justified;
  }

  lemma StaysDueItself(s: Sys, s': Sys, k: Key)
    requires Due(s) && Follows(s, s') && k in s.frames && k.1 in s.db.gens && k.1 in s.logs && Local(s, s', k) && Tame(s, s', k)
    requires k in s'.frames && k.1 in s'.db.gens && s'.frames[k].pc == Finishing(Succeeded)
    requires FrameOk(s, k, s.frames[k]) && RowShape(s.db.gens[k.1])
    ensures s'.db.gens[k.1].submission == Confirmed
    ensures Owns(s', k) ==> s'.db.gens[k.1].softCancelSelectedAt.None?
  {
    hide LogsOne, Earned, Justified, RowsFenced;
  }

  lemma StaysDue(s: Sys, s': Sys, k: Key, j: Key)
    requires Due(s) && Follows(s, s') && k in s.frames && k.1 in s.db.gens && k.1 in s.logs && Local(s, s', k) && Tame(s, s', k)
    requires j in s'.frames && j.1 in s'.db.gens && s'.frames[j].pc == Finishing(Succeeded)
    requires FrameOk(s, k, s.frames[k]) && RowShape(s.db.gens[k.1])
    requires j != k ==> j in s.frames && j.1 in s.db.gens
    ensures s'.db.gens[j.1].submission == Confirmed
    ensures Owns(s', j) ==> s'.db.gens[j.1].softCancelSelectedAt.None?
  {
    hide Due, Follows, Local, Tame, FrameOk, RowShape, Owns;
    if j.1 != k.1 {
      StaysDueElsewhere(s, s', k, j);
    } else if j != k {
      StaysDueBeside(s, s', k, j);
    } else {
      StaysDueItself(s, s', k);
    }
  }

  lemma StepDue(s: Sys, a: Action)
    requires Inv(s) && Due(s)
    ensures Due(Step(s, a))
  {
    hide Inv, AdvanceFrame, RowOk, FrameOk, RowShape;
    StepKeeps(s, a);
    StepFollows(s, a);
    match a {
      case Advance(w, g, ans) =>
        if (w, g) in s.frames && g in s.db.gens && g in s.logs {
          AdvanceDue(s, (w, g), ans);
        }
      case _ => OtherDue(s, a);
    }
  }

  /** No other action brings a drive to success or marks a row. */
  lemma OtherDue(s: Sys, a: Action)
    requires Inv(s) && Due(s) && !a.Advance? && Follows(s, Step(s, a))
    ensures Due(Step(s, a))
  {
    hide Inv, AdvanceFrame, RowOk, FrameOk, RowShape, Follows;
    var s' := Step(s, a);
    forall j | j in s'.frames && j.1 in s'.db.gens && s'.frames[j].pc == Finishing(Succeeded)
      ensures s'.db.gens[j.1].submission == Confirmed
      ensures Owns(s', j) ==> s'.db.gens[j.1].softCancelSelectedAt.None?
    {
      assert j in s.frames && s.frames[j] == s'.frames[j];
      FrameHasRow(s, j);
      OtherUnmarked(s, a, j.1);
      OtherOwner(s, a, j);
      ConfirmedStays(s, s', j.1);
    }
  }

  lemma ConfirmedStays(s: Sys, s': Sys, g: GenId)
    requires Follows(s, s') && g in s.db.gens && s.db.gens[g].submission == Confirmed
    ensures g in s'.db.gens && s'.db.gens[g].submission == Confirmed
  {}

  /** Nobody but a drive writes the soft mark. */
  lemma OtherUnmarked(s: Sys, a: Action, g: GenId)
    requires !a.Advance? && g in s.db.gens
    ensures g in Step(s, a).db.gens
    ensures Step(s, a).db.gens[g].softCancelSelectedAt == s.db.gens[g].softCancelSelectedAt
    ensures Step(s, a).db.gens[g].status == Succeeded ==> s.db.gens[g].status == Succeeded
    ensures Step(s, a).remote == s.remote
  {
    hide AdvanceFrame;
  }

  /** A worker becomes the owner of a row only with a new drive of it. */
  lemma OtherOwner(s: Sys, a: Action, k: Key)
    requires Inv(s) && !a.Advance? && k in s.frames && k.1 in s.db.gens && k in Step(s, a).frames
    requires Step(s, a).frames[k].pc == Finishing(Succeeded)
    ensures Owns(Step(s, a), k) ==> Owns(s, k)
  {
    hide Inv, AdvanceFrame;
  }

  /** Success is recorded by a drive that was due, and by nothing else. */
  lemma SuccessWasDue(s: Sys, a: Action, g: GenId)
    requires Inv(s) && Due(s) && g in s.db.gens && g in Step(s, a).db.gens
    requires Step(s, a).db.gens[g].status == Succeeded && s.db.gens[g].status != Succeeded
    ensures s.db.gens[g].submission == Confirmed && s.db.gens[g].softCancelSelectedAt.None?
  {
    hide Inv, AdvanceFrame, FrameOk, RowOk, RowsFenced;
    if a.Advance? {
      var k := (a.w, a.g);
      if k in s.frames && k.1 in s.db.gens && k.1 in s.logs {
        AdvanceIsTame(s, k, a.answer);
        if g != k.1 {
          OtherRowKept(s, k, a.answer, g);
        }
      }
    } else {
      OtherUnmarked(s, a, g);
    }
  }

  lemma OtherRowKept(s: Sys, k: Key, ans: Answer, g: GenId)
    requires k in s.frames && k.1 in s.db.gens && k.1 in s.logs && g in s.db.gens && g != k.1
    ensures g in AdvanceFrame(s, k, ans).db.gens && AdvanceFrame(s, k, ans).db.gens[g] == s.db.gens[g]
  {
    hide AdvanceFrame;
    AdvanceIsLocal(s, k, ans);
  }

  /** A generation whose permit is taken, with no prompt and no drive that can post. */
  ghost predicate Fruitless(s: Sys, g: GenId) {
    g in s.db.gens && s.db.gens[g].submission != NotStarted && !HasPrompt(s, g) && !PostMayFollow(s, g)
  }

  lemma StaysFruitless(s: Sys, a: Action, g: GenId)
    requires Inv(s) && Fruitless(s, g) && Inv(Step(s, a))
    ensures !HasPrompt(Step(s, a), g) && !PostMayFollow(Step(s, a), g)
  {
    hide Inv, AdvanceFrame, FrameOk, RowOk;
    forall k | k in Step(s, a).frames && k.1 == g
      ensures !CanPost(Step(s, a), k)
    {
      NoNewPost(s, a, g, k);
    }
    if p :| p in Step(s, a).remote && Step(s, a).remote[p].0 == g {
      NoNewPrompt(s, a, g, p);
    }
  }

  lemma NoNewPrompt(s: Sys, a: Action, g: GenId, p: PromptId)
    requires Inv(s) && Fruitless(s, g) && p in Step(s, a).remote
    ensures Step(s, a).remote[p].0 != g
  {
    hide Inv, AdvanceFrame, FrameOk, RowOk;
    if a.Advance? {
      var k := (a.w, a.g);
      if k in s.frames && k.1 in s.db.gens && k.1 in s.logs {
        AdvanceIsTame(s, k, a.answer);
        PromptsGrow(s, k, a.answer);
        assert k.1 == g ==> !CanPost(s, k);
      }
    } else {
      OtherUnmarked(s, a, g);
    }
  }

  /** A new prompt is of the drive's own generation. */
  lemma PromptsGrow(s: Sys, k: Key, ans: Answer)
    requires k in s.frames && k.1 in s.db.gens && k.1 in s.logs
    ensures var s' := AdvanceFrame(s, k, ans);
            forall p | p in s'.remote && (p !in s.remote || s'.remote[p] != s.remote[p]) :: s'.remote[p].0 == k.1
  {
    hide AdvanceLoad, AdvanceResolve, AdvanceObserve, AdvanceCancel, AdvanceFinish, Credible;
    AdvanceIsTame(s, k, ans);
    if s.frames[k].pc.Cleared? {
      hide AdvanceFrame;
      ClearedPosts(s, k, ans);
    }
  }

  lemma ClearedPosts(s: Sys, k: Key, ans: Answer)
    requires k in s.frames && k.1 in s.db.gens && k.1 in s.logs && s.frames[k].pc.Cleared?
    ensures AdvanceFrame(s, k, ans) == s || AdvanceFrame(s, k, ans) == Post(s, k, ans)
    ensures forall p | p in Post(s, k, ans).remote && (p !in s.remote || Post(s, k, ans).remote[p] != s.remote[p]) ::
              Post(s, k, ans).remote[p].0 == k.1
  {
    hide AdvanceLoad, AdvanceResolve, AdvanceObserve, AdvanceCancel, AdvanceFinish, Credible;
  }

  lemma NoNewPost(s: Sys, a: Action, g: GenId, j: Key)
    requires Inv(s) && Fruitless(s, g) && j in Step(s, a).frames && j.1 == g
    ensures !CanPost(Step(s, a), j)
  {
    hide Inv, AdvanceFrame, RowOk, HasPrompt;
    if j in s.frames {
      FrameHasRow(s, j);
      assert !CanPost(s, j);
      if !Held(s, j.0) {
        LostForGood(s, a, j.0);
      }
      hide FrameOk;
      if a.Advance? && (a.w, a.g) in s.frames && a.g in s.db.gens && a.g in s.logs {
        AdvanceIsTame(s, (a.w, a.g), a.answer);
        AdvanceIsLocal(s, (a.w, a.g), a.answer);
      }
    } else {
      NewFrame(s, a, j);
    }
  }

  /** A new drive starts at the start. */
  lemma NewFrame(s: Sys, a: Action, j: Key)
    requires j in Step(s, a).frames && j !in s.frames
    ensures Step(s, a).frames[j].pc == Start
  {
    hide AdvanceFrame;
    if a.Advance? && (a.w, a.g) in s.frames && a.g in s.db.gens && a.g in s.logs {
      AdvanceIsLocal(s, (a.w, a.g), a.answer);
    }
  }

  lemma StillLost(s: Sys, a: Action, g: GenId)
    requires Inv(s) && Due(s) && Inv(Step(s, a)) && Follows(s, Step(s, a)) && g in s.db.gens && !CanSucceed(s, g)
    ensures g in Step(s, a).db.gens && !CanSucceed(Step(s, a), g)
  {
    hide Inv, AdvanceFrame, Step, Due, HasPrompt, PostMayFollow;
    RowOfInv(s, g);
    var s' := Step(s, a);
    RowOfInv(s', g);
    var r, r' := s.db.gens[g], s'.db.gens[g];
    if !Terminal(r.status) {
      if r'.status == Succeeded {
        SuccessWasDue(s, a, g);
        assert false;
      }
      if r.softCancelSelectedAt.None? && r.submission == SubmissionPossible {
        StaysFruitless(s, a, g);
        if r'.submission == Confirmed {
          ConfirmedHasPrompt(s', g);
        }
      }
    }
  }

  lemma ConfirmedHasPrompt(s: Sys, g: GenId)
    requires g in s.db.gens && g in s.logs && RowOk(s, g) && s.db.gens[g].submission == Confirmed
    ensures HasPrompt(s, g)
  {}

  /** No continuation of such a state succeeds. */
  ghost predicate Lost(s: Sys, g: GenId) { Inv(s) && Due(s) && g in s.db.gens && !CanSucceed(s, g) }

  lemma StepLost(s: Sys, a: Action, g: GenId)
    requires Lost(s, g)
    ensures Lost(Step(s, a), g)
  {
    hide Inv, AdvanceFrame, RowOk, FrameOk, Due, Follows, CanSucceed;
    StepKeeps(s, a);
    StepFollows(s, a);
    StepDue(s, a);
    StillLost(s, a, g);
  }

  lemma {:induction false} RunLost(s: Sys, more: seq<Action>, g: GenId)
    requires Lost(s, g)
    ensures Lost(Run(s, more), g)
    decreases |more|
  {
    hide Lost, Step;
    if more != [] {
      RunLost(s, more[..|more| - 1], g);
      StepLost(Run(s, more[..|more| - 1]), more[|more| - 1], g);
    }
  }

  lemma {:induction false} ReachableDue(run: seq<Action>)
    ensures Due(Run(Init, run))
    decreases |run|
  {
    hide Inv, Step;
    if run != [] {
      var before := run[..|run| - 1];
      ReachableDue(before);
      Reachable(before);
      hide Due;
      StepDue(Run(Init, before), run[|run| - 1]);
    }
  }

  // ------------------------------------------------------------------ sufficiency

  /** An adopted row starts a drive that can be led to success. */
  lemma SucceedActive(s: Sys, g: GenId) returns (more: seq<Action>)
    requires Inv(s) && g in s.db.gens && g in s.logs && CanSucceed(s, g) && s.db.gens[g].status != Succeeded
    requires s.db.gens[g].status != Queued && (s.db.gens[g].submission == SubmissionPossible ==> HasPrompt(s, g))
    ensures HasSucceeded(Run(s, more), g)
  {
    hide Inv, Run, HasSucceeded, PostMayFollow;
    var w, start := TakeOver(s, g, NoCapability);
    RunKeeps(s, start);
    more := DriveToSuccess(s, start, (w, g));
  }

  /** The other claimable rows in front of g. */
  function Others(s: Sys, g: GenId): set<GenId> { set h | h in s.db.gens && h != g && Claimable(s.db, h) }

  lemma CancelOther(s: Sys, g: GenId, h: GenId)
    requires Inv(s) && g in s.db.gens && h in Others(s, g)
    ensures var t := Step(s, CancelStep(h));
            && Inv(t) && Others(t, g) == Others(s, g) - {h} && g in t.db.gens && t.db.gens[g] == s.db.gens[g]
  {
    hide Inv, Step;
    StepKeeps(s, CancelStep(h));
    CancelQueued(s, h);
  }

  lemma CancelQueued(s: Sys, h: GenId)
    requires h in s.db.gens && s.db.gens[h].status == Queued
    ensures Step(s, CancelStep(h)).db == s.db.(gens := s.db.gens[h := s.db.gens[h].(status := Cancelled)])
  {
    hide AdvanceFrame;
  }

  lemma {:induction false} ClearQueue(s: Sys, g: GenId) returns (more: seq<Action>)
    requires Inv(s) && g in s.db.gens
    ensures var t := Run(s, more); Inv(t) && Others(t, g) == {} && g in t.db.gens && t.db.gens[g] == s.db.gens[g]
    decreases |Others(s, g)|
  {
    hide Inv, Step;
    if Others(s, g) == {} {
      more := [];
    } else {
      var h :| h in Others(s, g);
      CancelOther(s, g, h);
      var rest := ClearQueue(Step(s, CancelStep(h)), g);
      assert Run(s, []) == s;
      RunSnoc(s, [], CancelStep(h));
      RunConcat(s, [CancelStep(h)], rest);
      assert [] + [CancelStep(h)] == [CancelStep(h)];
      more := [CancelStep(h)] + rest;
    }
  }

  /** A queued row: whatever waits before it is cancelled, and a new worker claims it. */
  lemma ClaimQueued(s: Sys, g: GenId) returns (w: WorkerId, more: seq<Action>)
    requires Inv(s) && g in s.db.gens && g in s.logs && s.db.gens[g].status == Queued && Others(s, g) == {}
    ensures Good(Run(s, more), (w, g), Start) && InState(Run(s, more), (w, g), NotStarted)
  {
    hide Inv, RowShape, AdvanceFrame, Others;
    ShapeOf(s, g);
    QueuedIsNew(s.db.gens[g]);
    w := FreshName(s.everHeld);
    var start := TakeLease(s, w);
    var t := Run(s, start);
    OnlyClaimable(s, t, g);
    var claim := ClaimStep(w, g, "a", NoCapability);
    assert Drives(Step(t, claim), (w, g), Start) && InState(Step(t, claim), (w, g), NotStarted);
    hide Step, Drives, InState;
    RunSnoc(s, start, claim);
    more := start + [claim];
    RunKeeps(s, more);
  }

  lemma OnlyClaimable(s: Sys, t: Sys, g: GenId)
    requires g in s.db.gens && Claimable(s.db, g) && Others(s, g) == {} && t.db.gens == s.db.gens
    ensures OldestClaimable(t.db, g)
  {
    forall h | h in t.db.gens && Claimable(t.db, h)
      ensures h == g
    {
      assert h !in Others(s, g);
    }
  }

  lemma QueuedIsNew(r: Row)
    requires RowShape(r) && r.status == Queued
    ensures r.submission == NotStarted && r.softCancelSelectedAt.None?
  {}

  lemma SucceedQueued(s: Sys, g: GenId) returns (more: seq<Action>)
    requires Inv(s) && g in s.db.gens && g in s.logs && s.db.gens[g].status == Queued
    ensures HasSucceeded(Run(s, more), g)
  {
    hide Inv, Step, Run, HasSucceeded, Good, Others;
    var queue := ClearQueue(s, g);
    LogThere(Run(s, queue), g);
    var w, claim := ClaimQueued(Run(s, queue), g);
    var rest := DriveToSuccess(Run(s, queue), claim, (w, g));
    RunConcat(s, queue, rest);
    more := queue + rest;
  }

  lemma LogThere(s: Sys, g: GenId)
    requires Inv(s) && g in s.db.gens
    ensures g in s.logs
  {}

  /** A drive that holds the permit posts, and a successor finds the prompt. */
  lemma SucceedByPost(s: Sys, g: GenId) returns (more: seq<Action>)
    requires Inv(s) && g in s.db.gens && g in s.logs && CanSucceed(s, g) && s.db.gens[g].submission == SubmissionPossible
    requires PostMayFollow(s, g) && s.db.gens[g].status != Succeeded && s.db.gens[g].status != Queued
    ensures HasSucceeded(Run(s, more), g)
  {
    hide Inv, Step, Run, HasSucceeded;
    var k :| k in s.frames && k.1 == g && CanPost(s, k);
    var start := ReachPost(s, k);
    var s1 := Run(s, start);
    var p := FreshPrompt(s1);
    GoPost(s1, k, p);
    start := Extend(s, start, k, PostAccepted(p));
    RunKeeps(s, start);
    var t := Run(s, start);
    assert HasPrompt(t, g) by { assert p in t.remote && t.remote[p].0 == g; }
    LogThere(t, g);
    var rest := SucceedActive(t, g);
    RunConcat(s, start, rest);
    more := start + rest;
  }

  lemma ReachPost(s: Sys, k: Key) returns (more: seq<Action>)
    requires Inv(s) && CanPost(s, k) && k.1 in s.db.gens && !Terminal(s.db.gens[k.1].status) && s.db.gens[k.1].softCancelSelectedAt.None?
    ensures var t := Run(s, more);
            && k in t.frames && t.frames[k].pc.Cleared? && k.1 in t.db.gens && k.1 in t.logs && t.db.gens == s.db.gens
  {
    hide Inv, Step;
    LogThere(s, k.1);
    AttemptMatches(s, k);
    assert Run(s, []) == s;
    if s.frames[k].pc.Cleared? {
      more := [];
    } else {
      assert Good(s, k, s.frames[k].pc);
      more := DrivePermit(s, [], k);
    }
  }

  /** In every reachable state: some continuation records the generation as succeeded if
      and only if CanSucceed holds of that state. */
  lemma SuccessExactly(run: seq<Action>, g: GenId)
    ensures var s := Run(Init, run);
            g in s.db.gens ==> (SuccessMayFollow(s, g) <==> CanSucceed(s, g))
  {
    hide Inv, Step, HasPrompt, PostMayFollow;
    Reachable(run);
    ReachableDue(run);
    var s := Run(Init, run);
    if g in s.db.gens {
      LogThere(s, g);
      hide Run, Due;
      if CanSucceed(s, g) {
        Sufficient(s, g);
      } else {
        forall more
          ensures !HasSucceeded(Run(s, more), g)
        {
          RunLost(s, more, g);
          if g in Run(s, more).db.gens {
            LogThere(Run(s, more), g);
          }
        }
      }
    }
  }

  lemma Sufficient(s: Sys, g: GenId)
    requires Inv(s) && g in s.db.gens && g in s.logs && CanSucceed(s, g)
    ensures SuccessMayFollow(s, g)
  {
    hide Inv, Step, HasPrompt, PostMayFollow;
    var row := s.db.gens[g];
    var more: seq<Action>;
    if row.status == Succeeded {
      more := [];
      assert Run(s, more) == s;
    } else if row.status == Queued {
      more := SucceedQueued(s, g);
    } else if row.submission == SubmissionPossible && !HasPrompt(s, g) {
      more := SucceedByPost(s, g);
    } else {
      more := SucceedActive(s, g);
    }
    assert HasSucceeded(Run(s, more), g);
  }

  /** And success is complete: every declared output has been published, once. */
  lemma SuccessDelivers(run: seq<Action>, g: GenId)
    ensures var s := Run(Init, run);
            HasSucceeded(s, g) ==>
              g in s.logs && forall key | key in s.db.gens[g].outputs :: Count(s, g, Published(key)) == 1
  {
    hide Inv, Step;
    Reachable(run);
    var s := Run(Init, run);
    if HasSucceeded(s, g) {
      LogThere(s, g);
      var b := RunIsBehaviour(run);
      forall key | key in s.db.gens[g].outputs
        ensures Count(s, g, Published(key)) == 1
      {
        PublishedExactly(b, |b| - 1, g, key);
      }
    }
  }
}
