/**
 Every effect of a drive (a POST, a destructive call, a published Take, a
 reported status) is justified by where the drive stands and by what the store
 said at that moment; and one step of a drive touches nothing else.
 */
module ProtocolEffects {
  import opened Wrappers
  import opened Ownership
  import opened Rediscovery
  import opened Protocol
  import opened ProtocolInvariant

  ghost predicate Fenced(s: Sys, k: Key) { Fence(s.db, k.0, k.1) == Ok }

  ghost predicate Justified(s: Sys, k: Key, e: Event)
    requires k in s.frames
  {
    var pc := s.frames[k].pc;
    match e
    case Posted => pc.Cleared?
    case Destroyed(kind, p) => pc == Destroying(p, kind)
    case SoftSelected => pc.SelectingSoft? && Fenced(s, k) && s.db.gens[k.1].cancelRequestedAt.Some?
    case Published(key) =>
      && pc.Publishing? && pc.todo != [] && pc.todo[0] == key
      && PublicationFence(s.db, k.0, k.1, s.frames[k].attempt) && key !in s.db.gens[k.1].takes
    case Returned(st) => pc.UncertainFound? || Fenced(s, k)
    case ReturnedUnrecorded =>
      && pc.SoftCheck? && pc.end == RemoteCancelled
      && Owns(s, k) && s.db.gens[k.1].softCancelSelectedAt.None?
  }

  /** Where a drive may come from to reach a dangerous point. */
  ghost predicate Earned(s: Sys, k: Key, f: Frame)
    requires k in s.frames
  {
    var before := s.frames[k];
    && f.attempt == before.attempt && f.cap == before.cap
    && (f.pc.Cleared? ==> before.pc.Refreshed? && Fenced(s, k))
    && (f.pc.Destroying? ==> before.pc == ProvingAuthority(f.pc.prompt, f.pc.kind) && Fenced(s, k))
    && (f.pc.ProvingAuthority? && f.pc.kind == HardCancel ==> f.cap.targeted && f.cap.retrySafe)
  }

  /** One step of drive k: no other drive, row or log moves, the lease
      keeps its holder, its own row changes only under the fence, and at most one justified event is logged. */
  ghost predicate Local(s: Sys, s': Sys, k: Key) {
    && k in s.frames && k.1 in s.logs && k.1 in s'.logs
    && (forall j | j in s'.frames && j != k :: j in s.frames && s'.frames[j] == s.frames[j])
    && (k in s'.frames ==> s'.frames[k] == s.frames[k] || Earned(s, k, s'.frames[k]))
    && (forall g | g in s.logs && g != k.1 :: g in s'.logs && s'.logs[g] == s.logs[g])
    && s'.everHeld == s.everHeld && Holder(s'.db) == Holder(s.db)
    && RowsFenced(s, k, s'.db.gens)
    && LogsOne(s, k, s'.logs[k.1])
  }

  ghost predicate RowsFenced(s: Sys, k: Key, gens: map<GenId, Row>) {
    gens == s.db.gens || (Fenced(s, k) && k.1 in gens && gens == s.db.gens[k.1 := gens[k.1]])
  }

  ghost predicate LogsOne(s: Sys, k: Key, l: seq<Event>)
    requires k in s.frames && k.1 in s.logs
  {
    || l == s.logs[k.1]
    || (|l| == |s.logs[k.1]| + 1 && l[..|l| - 1] == s.logs[k.1] && Justified(s, k, l[|l| - 1]))
  }

  lemma NoteIsLocal(s: Sys, s0: Sys, k: Key, e: Event)
    requires Local(s, s0, k) && s0.logs[k.1] == s.logs[k.1] && Justified(s, k, e)
    ensures Local(s, Note(s0, k.1, e), k)
  {
    hide Justified, Earned;
    assert Note(s0, k.1, e).logs[k.1][..|s.logs[k.1]|] == s.logs[k.1];
  }

  lemma MoveIsLocal(s: Sys, s0: Sys, k: Key, pc: Pc)
    requires Local(s, s0, k) && k in s0.frames && s0.frames[k] == s.frames[k]
    requires Earned(s, k, s.frames[k].(pc := pc))
    ensures Local(s, At(s0, k, pc), k)
  {}

  lemma LoadIsLocal(s: Sys, k: Key)
    requires k in s.frames && k.1 in s.db.gens && k.1 in s.logs
    ensures Local(s, AdvanceLoad(s, k), k)
  {
    if s.frames[k].pc.UncertainFound? && PipelineTerminal(s.db.gens[k.1].status) {
      NoteIsLocal(s, End(s, k), k, Returned(s.db.gens[k.1].status));
    } else {
      hide Local, ReadState;
      StayIsLocal(s, k);
      var s' := AdvanceLoad(s, k);
      if s' != s {
        var pc := s'.frames[k].pc;
        assert s' == At(s, k, pc) && !pc.Cleared? && !pc.Destroying? && !pc.ProvingAuthority?;
        hide AdvanceLoad, At;
        MoveIsLocal(s, s, k, pc);
      }
    }
  }

  lemma StayIsLocal(s: Sys, k: Key)
    requires k in s.frames && k.1 in s.logs
    ensures Local(s, s, k)
  {}

  lemma PostIsLocal(s: Sys, k: Key, ans: Answer)
    requires k in s.frames && k.1 in s.db.gens && k.1 in s.logs && s.frames[k].pc.Cleared?
    ensures Local(s, Post(s, k, ans), k)
  {
    NoteIsLocal(s, s, k, Posted);
  }

  predicate Harmless(pc: Pc) { !pc.Cleared? && !pc.Destroying? && !pc.ProvingAuthority? }

  lemma RowMoveIsLocal(s: Sys, k: Key, db: Db, pc: Pc)
    requires k in s.frames && k.1 in s.db.gens && k.1 in s.logs && RowsFenced(s, k, db.gens)
    requires Holder(db) == Holder(s.db)
    requires Harmless(pc)
    ensures Local(s, At(s.(db := db), k, pc), k)
  {
    hide RowsFenced;
  }

  lemma MovesAreLocal(s: Sys, k: Key)
    requires k in s.frames && k.1 in s.db.gens && k.1 in s.logs
    ensures Local(s, s, k)
    ensures forall pc | Harmless(pc) :: Local(s, At(s, k, pc), k)
  {
    hide Local, At;
    NoMove(s, k);
    forall pc | Harmless(pc)
      ensures Local(s, At(s, k, pc), k)
    {
      RowMoveIsLocal(s, k, s.db, pc);
    }
  }

  /** A guarded write of drive k that lands, or fails into a fault. */
  lemma GuardedIsLocal(s: Sys, k: Key, step: (Db, Mutation), next: Pc)
    requires k in s.frames && k.1 in s.db.gens && k.1 in s.logs
    requires RowsFenced(s, k, step.0.gens) && Holder(step.0) == Holder(s.db)
    requires Harmless(next)
    ensures Local(s, Guarded(s, k, step, next), k)
  {
    hide Local, RowsFenced, At;
    RowMoveIsLocal(s, k, step.0, next);
    MovesAreLocal(s, k);
  }

  lemma PersistIsLocal(s: Sys, k: Key, ans: Answer)
    requires k in s.frames && k.1 in s.db.gens && k.1 in s.logs && s.frames[k].pc.Persisting?
    ensures Local(s, AdvanceSubmit(s, k, ans), k)
  {}

  lemma NoMove(s: Sys, k: Key)
    requires k in s.frames && k.1 in s.logs
    ensures Local(s, s, k)
  {}

  lemma MarkIsLocal(s: Sys, k: Key, ans: Answer)
    requires k in s.frames && k.1 in s.db.gens && k.1 in s.logs && s.frames[k].pc.Marking?
    ensures Local(s, AdvanceSubmit(s, k, ans), k)
  {
    MarkIsFenced(s, k);
    hide Local, MarkPossible, RowsFenced, At;
    MovesAreLocal(s, k);
    RowMoveIsLocal(s, k, MarkPossible(s.db, k.0, k.1, s.frames[k].attempt).0, Permitted);
  }

  lemma MarkIsFenced(s: Sys, k: Key)
    requires k in s.frames && k.1 in s.db.gens
    ensures var (db, p) := MarkPossible(s.db, k.0, k.1, s.frames[k].attempt);
            && Holder(db) == Holder(s.db) && RowsFenced(s, k, db.gens)
            && (p != MayPost ==> db == s.db)
  {}

  lemma SubmitIsLocal(s: Sys, k: Key, ans: Answer)
    requires k in s.frames && k.1 in s.db.gens && k.1 in s.logs
    ensures Local(s, AdvanceSubmit(s, k, ans), k)
  {
    hide Post, MarkPossible, PersistSubmission, Guarded;
    match s.frames[k].pc {
      case Persisting => PersistIsLocal(s, k, ans);
      case Marking => MarkIsLocal(s, k, ans);
      case Cleared => PostIsLocal(s, k, ans);
      case _ =>
    }
  }

  lemma ResolveIsLocal(s: Sys, k: Key, ans: Answer)
    requires k in s.frames && k.1 in s.db.gens && k.1 in s.logs
    ensures Local(s, AdvanceResolve(s, k, ans), k)
  {
    hide Local, At, Guarded, RowsFenced, MarkUncertain, ConfirmSubmission, Transition;
    MovesAreLocal(s, k);
    ResolveIsFenced(s, k);
    match s.frames[k].pc {
      case GivingUp => GuardedIsLocal(s, k, MarkUncertain(s.db, k.0, k.1, s.frames[k].attempt), Finishing(Interrupted));
      case Confirming(p) =>
        RowMoveIsLocal(s, k, ConfirmSubmission(s.db, k.0, k.1, s.frames[k].attempt, p, p).0, CheckPreparing(p));
      case MarkSubmitted(p) => GuardedIsLocal(s, k, Transition(s.db, k.0, k.1, Submitted), CheckIntent(p));
      case _ =>
    }
  }

  lemma ResolveIsFenced(s: Sys, k: Key)
    requires k in s.frames && k.1 in s.db.gens
    ensures var db := MarkUncertain(s.db, k.0, k.1, s.frames[k].attempt).0;
            Holder(db) == Holder(s.db) && RowsFenced(s, k, db.gens)
    ensures forall p :: var (db, r) := ConfirmSubmission(s.db, k.0, k.1, s.frames[k].attempt, p, p);
                        Holder(db) == Holder(s.db) && RowsFenced(s, k, db.gens) && (!r.Ok? ==> db == s.db)
    ensures forall to :: var db := Transition(s.db, k.0, k.1, to).0;
                         Holder(db) == Holder(s.db) && RowsFenced(s, k, db.gens)
  {}

  lemma ObserveIsLocal(s: Sys, k: Key, ans: Answer)
    requires k in s.frames && k.1 in s.db.gens && k.1 in s.logs
    ensures Local(s, AdvanceObserve(s, k, ans), k)
  {
    hide Local, At, ProgressWrite, Transition, RowsFenced;
    MovesAreLocal(s, k);
    ObserveIsFenced(s, k);
    match s.frames[k].pc {
      case ProgressStep(p) =>
        var (db, r) := ProgressWrite(s.db, k.0, k.1);
        RowMoveIsLocal(s, k, db, if r.LeaseLost? || r.OwnershipLost? then Raising(AuthorityFault) else RunningStep(p));
      case RunningStep(p) =>
        var (db, r) := Transition(s.db, k.0, k.1, Running);
        RowMoveIsLocal(s, k, db, if r.LeaseLost? || r.OwnershipLost? then Raising(AuthorityFault) else CheckIntent(p));
      case _ =>
    }
  }

  lemma ObserveIsFenced(s: Sys, k: Key)
    requires k in s.frames && k.1 in s.db.gens
    ensures var db := ProgressWrite(s.db, k.0, k.1).0;
            Holder(db) == Holder(s.db) && RowsFenced(s, k, db.gens)
    ensures var db := Transition(s.db, k.0, k.1, Running).0;
            Holder(db) == Holder(s.db) && RowsFenced(s, k, db.gens)
  {}

  lemma CancelIsLocal(s: Sys, k: Key, ans: Answer)
    requires k in s.frames && k.1 in s.db.gens && k.1 in s.logs
    ensures Local(s, AdvanceCancel(s, k, ans), k)
  {
    hide AdvanceCancel, Local;
    match s.frames[k].pc {
      case Destroying(_, _) => DestroyIsLocal(s, k, ans);
      case SoftCheck(_, _) => SoftCheckIsLocal(s, k, ans);
      case SelectingSoft(_) => SelectIsLocal(s, k, ans);
      case _ => OtherCancelIsLocal(s, k, ans);
    }
  }

  lemma ProofIsLocal(s: Sys, k: Key, ans: Answer)
    requires k in s.frames && k.1 in s.db.gens && k.1 in s.logs && s.frames[k].pc.ProvingAuthority?
    ensures Local(s, AdvanceCancel(s, k, ans), k)
  {}

  lemma ReconcileIsLocal(s: Sys, k: Key, ans: Answer)
    requires k in s.frames && k.1 in s.db.gens && k.1 in s.logs && s.frames[k].pc.Reconciling?
    ensures Local(s, AdvanceCancel(s, k, ans), k)
  {
    hide Local, At;
    var p := s.frames[k].pc.prompt;
    MovesAreLocal(s, k);
    if ans.Observed? && DecideCancellation(ans.o, s.frames[k].cap).Destroy? {
      NoMove(s, k);
      MoveIsLocal(s, s, k, ProvingAuthority(p, DecideCancellation(ans.o, s.frames[k].cap).kind));
    }
  }

  lemma OtherCancelIsLocal(s: Sys, k: Key, ans: Answer)
    requires k in s.frames && k.1 in s.db.gens && k.1 in s.logs
    requires var pc := s.frames[k].pc; !pc.Destroying? && !pc.SoftCheck? && !pc.SelectingSoft?
    ensures Local(s, AdvanceCancel(s, k, ans), k)
  {
    hide Local, At;
    MovesAreLocal(s, k);
    match s.frames[k].pc {
      case Reconciling(_) => ReconcileIsLocal(s, k, ans);
      case ProvingAuthority(_, _) => ProofIsLocal(s, k, ans);
      case _ =>
    }
  }

  lemma DestroyIsLocal(s: Sys, k: Key, ans: Answer)
    requires k in s.frames && k.1 in s.db.gens && k.1 in s.logs && s.frames[k].pc.Destroying?
    ensures Local(s, AdvanceCancel(s, k, ans), k)
  {}

  lemma SoftCheckIsLocal(s: Sys, k: Key, ans: Answer)
    requires k in s.frames && k.1 in s.db.gens && k.1 in s.logs && s.frames[k].pc.SoftCheck?
    ensures Local(s, AdvanceCancel(s, k, ans), k)
  {
    hide Local, At;
    MovesAreLocal(s, k);
    EndIsLocal(s, k);
    if Justified(s, k, ReturnedUnrecorded) {
      NoteIsLocal(s, End(s, k), k, ReturnedUnrecorded);
    }
  }

  lemma EndIsLocal(s: Sys, k: Key)
    requires k in s.frames && k.1 in s.logs
    ensures Local(s, End(s, k), k)
  {}

  lemma SelectIsLocal(s: Sys, k: Key, ans: Answer)
    requires k in s.frames && k.1 in s.db.gens && k.1 in s.logs && s.frames[k].pc.SelectingSoft?
    ensures Local(s, AdvanceCancel(s, k, ans), k)
  {
    hide Local, SelectSoftCancel;
    var (db, c) := SelectSoftCancel(s.db, k.0, k.1);
    SelectionIsFenced(s, k);
    RowMoveIsLocal(s, k, db, CheckIntent(s.frames[k].pc.prompt));
    RowMoveIsLocal(s, k, db, Raising(AuthorityFault));
    RowMoveIsLocal(s, k, s.db, Raising(AuthorityFault));
    RowMoveIsLocal(s, k, s.db, Raising(IntentBug));
    if c.Selected? && s.db.gens[k.1].softCancelSelectedAt.None? {
      NoteIsLocal(s, At(s.(db := db), k, CheckIntent(s.frames[k].pc.prompt)), k, SoftSelected);
    }
  }

  lemma SelectionIsFenced(s: Sys, k: Key)
    requires k in s.frames && k.1 in s.db.gens && k.1 in s.logs && s.frames[k].pc.SelectingSoft?
    ensures var (db, c) := SelectSoftCancel(s.db, k.0, k.1);
            && RowsFenced(s, k, db.gens) && Holder(db) == Holder(s.db)
            && (c.Selected? && s.db.gens[k.1].softCancelSelectedAt.None? ==> Justified(s, k, SoftSelected))
  {}

  lemma PublishIsLocal(s: Sys, k: Key, p: PromptId, todo: seq<string>)
    requires k in s.frames && k.1 in s.db.gens && k.1 in s.logs && s.frames[k].pc == Publishing(p, todo)
    ensures Local(s, PublishNext(s, k, p, todo), k)
  {
    if todo != [] {
      PublishIsFenced(s, k, p, todo);
    }
    hide Local, At, PublishOutput, RowsFenced;
    MovesAreLocal(s, k);
    if todo != [] {
      var (db, r) := PublishOutput(s.db, k.0, k.1, s.frames[k].attempt, todo[0]);
      RowMoveIsLocal(s, k, db, Publishing(p, todo[1..]));
      if r == Minted {
        SameLogAt(s, k, db, Publishing(p, todo[1..]));
        NoteIsLocal(s, At(s.(db := db), k, Publishing(p, todo[1..])), k, Published(todo[0]));
      }
    }
  }

  lemma SameLogAt(s: Sys, k: Key, db: Db, pc: Pc)
    requires k in s.frames
    ensures At(s.(db := db), k, pc).logs == s.logs
  {}

  lemma PublishIsFenced(s: Sys, k: Key, p: PromptId, todo: seq<string>)
    requires k in s.frames && k.1 in s.db.gens && s.frames[k].pc == Publishing(p, todo) && todo != []
    ensures var (db, r) := PublishOutput(s.db, k.0, k.1, s.frames[k].attempt, todo[0]);
            && Holder(db) == Holder(s.db) && RowsFenced(s, k, db.gens)
            && (r == Minted ==> Justified(s, k, Published(todo[0])))
  {}

  lemma ImportIsLocal(s: Sys, k: Key, ans: Answer)
    requires k in s.frames && k.1 in s.db.gens && k.1 in s.logs && s.frames[k].pc.EnterImporting?
    ensures Local(s, AdvanceFinish(s, k, ans), k)
  {}

  lemma FinishIsLocal(s: Sys, k: Key, ans: Answer)
    requires k in s.frames && k.1 in s.db.gens && k.1 in s.logs
    ensures Local(s, AdvanceFinish(s, k, ans), k)
  {
    hide Terminalize, Guarded, Transition, PublishNext, Local, At;
    MovesAreLocal(s, k);
    EndIsLocal(s, k);
    match s.frames[k].pc {
      case Finishing(st) =>
        TerminalizeIsLocal(s, k, st, At(s, k, Raising(AuthorityFault)));
      case Raising(f) =>
        TerminalizeIsLocal(s, k, if f.RemoteUnavailable? then Interrupted else Failed, End(s, k));
      case Publishing(p, todo) => PublishIsLocal(s, k, p, todo);
      case EnterImporting(_) => ImportIsLocal(s, k, ans);
      case _ =>
    }
  }

  lemma TerminalizeIsLocal(s: Sys, k: Key, to: Status, onFail: Sys)
    requires k.1 in s.db.gens && Local(s, onFail, k)
    ensures Local(s, Terminalize(s, k, to, onFail), k)
  {
    if Fenced(s, k) {
      NoteIsLocal(s, End(s.(db := Transition(s.db, k.0, k.1, to).0), k), k, Returned(to));
    }
  }

  /** A drive's step is local and its effect is justified. */
  lemma AdvanceIsLocal(s: Sys, k: Key, ans: Answer)
    requires k in s.frames && k.1 in s.db.gens && k.1 in s.logs
    ensures Local(s, AdvanceFrame(s, k, ans), k)
  {
    hide Credible, AdvanceLoad, AdvanceSubmit, AdvanceResolve, AdvanceObserve, AdvanceCancel, AdvanceFinish;
    LoadIsLocal(s, k);
    SubmitIsLocal(s, k, ans);
    ResolveIsLocal(s, k, ans);
    ObserveIsLocal(s, k, ans);
    CancelIsLocal(s, k, ans);
    FinishIsLocal(s, k, ans);
  }
}
