/**
 The worker protocol as a state machine: any number of workers, each running
 any number of drives (one per generation it claimed or adopted), a user who
 may cancel at any time, and an executor that answers as it likes.  One action
 is one database transaction, one remote call, or one plain read, so every
 interleaving of the real code between those points is a run here.  An action
 that is not enabled changes nothing.
 */
module Protocol {
  import opened Wrappers
  import opened Ownership
  import opened Rediscovery

  /** Running-cancellation capability of the deployment, fixed for one drive. */
  datatype Capability = Capability(targeted: bool, retrySafe: bool)

  datatype RemoteEnd = RemoteSucceeded | RemoteFailed | RemoteCancelled

  datatype Observation = ObsPending | ObsRunning | ObsUnknown | ObsLost | ObsEnd(end: RemoteEnd)

  datatype CancelKind = DeletePending | HardCancel

  datatype CancelDecision = SoftCancel | Destroy(kind: CancelKind)

  /** decide_cancellation. */
  function DecideCancellation(o: Observation, c: Capability): CancelDecision {
    if o.ObsPending? then Destroy(DeletePending)
    else if o.ObsRunning? && c.targeted && c.retrySafe then Destroy(HardCancel)
    else SoftCancel
  }

  datatype CancelOutcome = Accepted | TooLate | Ambiguous

  /** Why a drive leaves its normal path for the error envelope. */
  datatype Fault =
    | AuthorityFault | OrderingBug | MissingJob | DuplicateAttemptFault | EvidenceFault
    | HandleConflict | OutputFault | PromptRejected | IntentBug | RemoteUnavailable | Unexpected

  /** Program counter of one drive_comfy_generation frame. */
  datatype Pc =
    | Start                                  // before the generation row is loaded
    | Loaded(job: Option<PromptId>)          // row loaded, durable state not yet read
    | UncertainFound
    | PreSubmit(hasPayload: bool)            // run_comfy_submission entered
    | Persisting
    | Marking
    | Permitted                              // MAY_POST in hand
    | Refreshed                              // lease refreshed, authority proof next
    | Cleared                                // authority proven, POST next
    | Rediscovering
    | GivingUp                               // grace expired, uncertain next
    | Confirming(prompt: PromptId)
    | ConflictRead(prompt: PromptId)
    | CheckPreparing(prompt: PromptId)
    | MarkSubmitted(prompt: PromptId)
    | CheckIntent(prompt: PromptId)
    | Observing(prompt: PromptId)
    | ProgressStep(prompt: PromptId)
    | RunningStep(prompt: PromptId)
    | Reconciling(prompt: PromptId)
    | SoftCheck(prompt: PromptId, end: RemoteEnd)
    | SelectingSoft(prompt: PromptId)
    | ProvingAuthority(prompt: PromptId, kind: CancelKind)
    | Destroying(prompt: PromptId, kind: CancelKind)
    | LateObserve(prompt: PromptId)
    | Resolved(prompt: PromptId, end: RemoteEnd)
    | FetchingHistory(prompt: PromptId)
    | EnterImporting(prompt: PromptId)
    | Staging(prompt: PromptId)              // outputs fetched, staged set next
    | Publishing(prompt: PromptId, todo: seq<string>)
    | Finishing(status: Status)              // the fenced terminal transition
    | Raising(fault: Fault)                  // the error envelope of the drive

  datatype Frame = Frame(attempt: AttemptId, cap: Capability, pc: Pc)

  /** What happened to one generation, in order. */
  datatype Event =
    | Posted                                 // POST /prompt
    | SoftSelected                           // the durable soft-cancel mark was set
    | Destroyed(kind: CancelKind, prompt: PromptId)
    | Published(key: string)                 // a Take was minted
    | Returned(status: Status)               // the drive reported this status
    | ReturnedUnrecorded                     // the drive reported cancelled and wrote nothing

  /** One drive per (worker, generation): a worker claims a queued row or adopts a
      row that it does not own, and row ownership outlives the drive. */
  type Key = (WorkerId, GenId)

  datatype Sys = Sys(
    db: Db,
    everHeld: set<WorkerId>,                 // workers that have had the lease
    frames: map<Key, Frame>,
    remote: map<PromptId, Marker>,           // every prompt the executor accepted
    logs: map<GenId, seq<Event>>)

  /** What the world answers to one step of a drive. */
  datatype Answer =
    | Silent
    | Artifact(json: string, hash: string)
    | PostAccepted(prompt: PromptId)
    | PostRejected
    | PostAmbiguous(queued: Option<PromptId>)
    | Evidence(seen: seq<Sighting>, verdict: Verdict, expired: bool)
    | Unreachable(expired: bool)
    | Observed(o: Observation, progress: bool)
    | CancelAnswer(c: CancelOutcome)
    | HistoryVanished
    | Staged(keys: seq<string>)              // the output keys of the staged files

  datatype Action =
    | Tick(seconds: nat)
    | NewGeneration(g: GenId, outputs: seq<string>)
    | AcquireStep(w: WorkerId, ttl: int)
    | RefreshStep(w: WorkerId)
    | ClaimStep(w: WorkerId, g: GenId, attempt: AttemptId, cap: Capability)
    | AdoptStep(w: WorkerId, g: GenId, cap: Capability)
    | RequeueStep(w: WorkerId, g: GenId)
    | CancelStep(g: GenId)
    | Advance(w: WorkerId, g: GenId, answer: Answer)
    | Throw(w: WorkerId, g: GenId, fault: Fault)
    | Crash(w: WorkerId)

  ghost const Init: Sys := Sys(Db(0, None, map[]), {}, map[], map[], map[])

  predicate Held(s: Sys, w: WorkerId) { Holder(s.db) == Some(w) }

  ghost function Count(s: Sys, g: GenId, e: Event): nat
    requires g in s.logs
  {
    multiset(s.logs[g])[e]
  }

  // -------------------------------------------------------- moves of one frame

  function At(s: Sys, k: Key, pc: Pc): Sys
    requires k in s.frames
  {
    s.(frames := s.frames[k := s.frames[k].(pc := pc)])
  }

  function End(s: Sys, k: Key): Sys { s.(frames := s.frames - {k}) }

  function Note(s: Sys, g: GenId, e: Event): Sys
    requires g in s.logs
  {
    s.(logs := s.logs[g := s.logs[g] + [e]])
  }

  /** A fenced terminal write; on success the drive returns that status. */
  function Terminalize(s: Sys, k: Key, to: Status, onFail: Sys): Sys
    requires k.1 in s.logs
  {
    var (db, r) := Transition(s.db, k.0, k.1, to);
    if r.Ok? then Note(End(s.(db := db), k), k.1, Returned(to)) else onFail
  }

  /** A fenced non-terminal write; on failure the drive raises. */
  function Guarded(s: Sys, k: Key, step: (Db, Mutation), next: Pc): Sys
    requires k in s.frames
  {
    if step.1.Ok? then At(s.(db := step.0), k, next) else At(s, k, Raising(AuthorityFault))
  }

  /** _current_submission_state: None when the row is not owned by this worker. */
  function ReadState(s: Sys, k: Key): Option<SubmissionState> {
    if k.1 in s.db.gens && s.db.gens[k.1].workerId == Some(k.0)
    then Some(s.db.gens[k.1].submission) else None
  }

  predicate PipelineTerminal(st: Status) { st == Succeeded || st == Failed || st == Cancelled }

  function EndStatus(e: RemoteEnd): Status {
    match e
    case RemoteSucceeded => Succeeded
    case RemoteFailed => Failed
    case RemoteCancelled => Cancelled
  }

  /** Reading the durable state first, before any submission prework. */
  function AdvanceLoad(s: Sys, k: Key): Sys
    requires k in s.frames && k.1 in s.db.gens && k.1 in s.logs
  {
    var row := s.db.gens[k.1];
    match s.frames[k].pc
    case Start => At(s, k, Loaded(row.jobId))
    case Loaded(job) =>
      (match ReadState(s, k)
       case None => At(s, k, Raising(AuthorityFault))
       case Some(Uncertain) => At(s, k, UncertainFound)
       case Some(Confirmed) =>
         At(s, k, if job.Some? then CheckPreparing(job.value) else Raising(MissingJob))
       case Some(NotStarted) => At(s, k, PreSubmit(true))
       case Some(SubmissionPossible) => At(s, k, PreSubmit(false)))
    case UncertainFound =>
      if PipelineTerminal(row.status)
      then Note(End(s, k), k.1, Returned(row.status))
      else At(s, k, Finishing(Interrupted))
    case PreSubmit(hasPayload) =>
      (match ReadState(s, k)
       case None => At(s, k, Raising(AuthorityFault))
       case Some(Uncertain) => At(s, k, Finishing(Interrupted))
       case Some(NotStarted) => At(s, k, if hasPayload then Persisting else Raising(OrderingBug))
       case Some(_) => At(s, k, Rediscovering))
    case _ => s
  }

  /** The one-shot submission: artifact, permit, authority proof, POST. */
  function AdvanceSubmit(s: Sys, k: Key, ans: Answer): Sys
    requires k in s.frames && k.1 in s.logs
  {
    var f := s.frames[k];
    match f.pc
    case Persisting =>
      if ans.Artifact?
      then Guarded(s, k, PersistSubmission(s.db, k.0, k.1, f.attempt, ans.json, ans.hash), Marking)
      else s
    case Marking =>
      var (db, p) := MarkPossible(s.db, k.0, k.1, f.attempt);
      (match p
       case MayPost => At(s.(db := db), k, Permitted)
       case PermConflict => At(s, k, Raising(OrderingBug))
       case PermLeaseLost => At(s, k, Raising(AuthorityFault))
       case PermOwnershipLost => At(s, k, Raising(AuthorityFault))
       case _ => At(s, k, Rediscovering))
    case Permitted =>
      var (db, retained) := RefreshLease(s.db, k.0);
      At(s.(db := db), k, if retained then Refreshed else Raising(AuthorityFault))
    case Refreshed =>
      var (db, r) := VerifyAuthority(s.db, k.0, k.1);
      At(s.(db := db), k, if r.Ok? then Cleared else Raising(AuthorityFault))
    case Cleared => Post(s, k, ans)
    case _ => s
  }

  /** POST /prompt.  The executor queues at most one prompt, under an id it has
      not used before and with the marker of this attempt. */
  function Post(s: Sys, k: Key, ans: Answer): Sys
    requires k in s.frames && k.1 in s.logs
  {
    var marker := (k.1, s.frames[k].attempt);
    var sent := Note(s, k.1, Posted);
    match ans
    case PostAccepted(p) =>
      if p in s.remote then s
      else At(sent.(remote := s.remote[p := marker]), k, Confirming(p))
    case PostRejected => At(sent, k, Raising(PromptRejected))
    case PostAmbiguous(None) => At(sent, k, Rediscovering)
    case PostAmbiguous(Some(p)) =>
      if p in s.remote then s
      else At(sent.(remote := s.remote[p := marker]), k, Rediscovering)
    case _ => s
  }

  /** Bounded rediscovery, uncertainty, and the atomic confirmation. */
  function AdvanceResolve(s: Sys, k: Key, ans: Answer): Sys
    requires k in s.frames && k.1 in s.db.gens && k.1 in s.logs
  {
    var f := s.frames[k];
    match f.pc
    case Rediscovering =>
      (match ans
       case Unreachable(expired) => if expired then At(s, k, GivingUp) else s
       case Evidence(_, verdict, expired) =>
         (match verdict
          case Adopt(p) => At(s, k, Confirming(p))
          case Absent => if expired then At(s, k, GivingUp) else s
          case DuplicateAttempt => At(s, k, Raising(DuplicateAttemptFault))
          case ConflictingEvidence => At(s, k, Raising(EvidenceFault)))
       case _ => s)
    case GivingUp =>
      Guarded(s, k, MarkUncertain(s.db, k.0, k.1, f.attempt), Finishing(Interrupted))
    case Confirming(p) =>
      var (db, r) := ConfirmSubmission(s.db, k.0, k.1, f.attempt, p, p);
      At(s.(db := db), k, if r.Ok? then CheckPreparing(p)
                          else if r.StateConflict? then ConflictRead(p)
                          else Raising(AuthorityFault))
    case ConflictRead(p) =>
      At(s, k, if s.db.gens[k.1].jobId == Some(p) then CheckPreparing(p) else Raising(HandleConflict))
    case CheckPreparing(p) =>
      At(s, k, if s.db.gens[k.1].status == Preparing then MarkSubmitted(p) else CheckIntent(p))
    case MarkSubmitted(p) => Guarded(s, k, Transition(s.db, k.0, k.1, Submitted), CheckIntent(p))
    case _ => s
  }

  /** Observation, with the persisted cancel intent checked before each pass. */
  function AdvanceObserve(s: Sys, k: Key, ans: Answer): Sys
    requires k in s.frames && k.1 in s.db.gens && k.1 in s.logs
  {
    match s.frames[k].pc
    case CheckIntent(p) =>
      At(s, k, if s.db.gens[k.1].cancelRequestedAt.Some? then Reconciling(p) else Observing(p))
    case Observing(p) =>
      (match ans
       case Unreachable(expired) => At(s, k, if expired then Finishing(Interrupted) else CheckIntent(p))
       case Observed(ObsEnd(e), _) => At(s, k, Resolved(p, e))
       case Observed(ObsLost, _) => At(s, k, Finishing(Interrupted))
       case Observed(_, progress) => At(s, k, if progress then ProgressStep(p) else CheckIntent(p))
       case _ => s)
    case ProgressStep(p) =>
      var (db, r) := ProgressWrite(s.db, k.0, k.1);
      At(s.(db := db), k, if r.LeaseLost? || r.OwnershipLost? then Raising(AuthorityFault) else RunningStep(p))
    case RunningStep(p) =>
      var (db, r) := Transition(s.db, k.0, k.1, Running);
      At(s.(db := db), k, if r.LeaseLost? || r.OwnershipLost? then Raising(AuthorityFault) else CheckIntent(p))
    case _ => s
  }

  /** reconcile_cancellation and _after_remote_cancel. */
  function AdvanceCancel(s: Sys, k: Key, ans: Answer): Sys
    requires k in s.frames && k.1 in s.db.gens && k.1 in s.logs
  {
    var f := s.frames[k];
    var row := s.db.gens[k.1];
    match f.pc
    case Reconciling(p) =>
      (match ans
       case Unreachable(_) => At(s, k, Raising(RemoteUnavailable))
       case Observed(ObsEnd(e), _) => At(s, k, SoftCheck(p, e))
       case Observed(ObsLost, _) => At(s, k, Finishing(Interrupted))
       case Observed(o, _) =>
         (match DecideCancellation(o, f.cap)
          case SoftCancel => At(s, k, SelectingSoft(p))
          case Destroy(kind) => At(s, k, ProvingAuthority(p, kind)))
       case _ => s)
    case SoftCheck(p, e) =>
      if row.workerId != Some(k.0) then At(s, k, Raising(AuthorityFault))
      else if row.softCancelSelectedAt.Some? then At(s, k, Finishing(Cancelled))
      else if e.RemoteCancelled? then Note(End(s, k), k.1, ReturnedUnrecorded)
      else At(s, k, Resolved(p, e))
    case SelectingSoft(p) =>
      var (db, c) := SelectSoftCancel(s.db, k.0, k.1);
      (match c
       case Selected =>
         var s' := At(s.(db := db), k, CheckIntent(p));
         if row.softCancelSelectedAt.None? then Note(s', k.1, SoftSelected) else s'
       case AuthorityGone => At(s, k, Raising(AuthorityFault))
       case IntentMissing => At(s, k, Raising(IntentBug)))
    case ProvingAuthority(p, kind) =>
      var (db, r) := VerifyAuthority(s.db, k.0, k.1);
      At(s.(db := db), k, if r.Ok? then Destroying(p, kind) else Raising(AuthorityFault))
    case Destroying(p, kind) =>
      (match ans
       case CancelAnswer(c) =>
         At(Note(s, k.1, Destroyed(kind, p)), k,
            match c
            case Accepted => Finishing(Cancelled)
            case TooLate => LateObserve(p)
            case Ambiguous => CheckIntent(p))
       case _ => s)
    case LateObserve(p) =>
      (match ans
       case Unreachable(_) => At(s, k, Raising(RemoteUnavailable))
       case Observed(ObsEnd(e), _) => At(s, k, SoftCheck(p, e))
       case Observed(_, _) => At(s, k, Finishing(Cancelled))
       case _ => s)
    case _ => s
  }

  /** From the decided outcome to the terminal status. */
  function AdvanceFinish(s: Sys, k: Key, ans: Answer): Sys
    requires k in s.frames && k.1 in s.db.gens && k.1 in s.logs
  {
    var f := s.frames[k];
    match f.pc
    case Resolved(p, e) =>
      At(s, k, if e.RemoteSucceeded? then FetchingHistory(p) else Finishing(EndStatus(e)))
    case FetchingHistory(p) =>
      (match ans
       case HistoryVanished => At(s, k, Finishing(Interrupted))
       case Unreachable(_) => At(s, k, Raising(RemoteUnavailable))
       case _ => At(s, k, EnterImporting(p)))
    case EnterImporting(p) => Guarded(s, k, Transition(s.db, k.0, k.1, Importing), Staging(p))
    case Staging(p) =>
      // the staged set must be exactly the declared one before anything is published
      if !ans.Staged? then s
      else if multiset(ans.keys) != multiset(s.db.gens[k.1].outputs) then At(s, k, Raising(OutputFault))
      else At(s, k, Publishing(p, ans.keys))
    case Publishing(p, todo) => PublishNext(s, k, p, todo)
    case Finishing(st) => Terminalize(s, k, st, At(s, k, Raising(AuthorityFault)))
    case Raising(fault) =>
      Terminalize(s, k, if fault.RemoteUnavailable? then Interrupted else Failed, End(s, k))
    case _ => s
  }

  /** One publication unit per step, in the order of the staged list. */
  function PublishNext(s: Sys, k: Key, p: PromptId, todo: seq<string>): Sys
    requires k in s.frames && k.1 in s.logs
  {
    if todo == [] then At(s, k, Finishing(Succeeded))
    else
      var (db, r) := PublishOutput(s.db, k.0, k.1, s.frames[k].attempt, todo[0]);
      match r
      case NotFenced => At(s, k, Raising(AuthorityFault))
      case Converged => At(s, k, Publishing(p, todo[1..]))
      case Minted => Note(At(s.(db := db), k, Publishing(p, todo[1..])), k.1, Published(todo[0]))
  }

  /** A rediscovery answer is only what a truthful executor can show. */
  ghost predicate Credible(s: Sys, k: Key, ans: Answer)
    requires k in s.frames
  {
    ans.Evidence? ==>
      && Truthful(ans.seen, s.remote)
      && Answers(ans.seen, (k.1, s.frames[k].attempt), ans.verdict)
  }

  ghost function AdvanceFrame(s: Sys, k: Key, ans: Answer): Sys
    requires k in s.frames && k.1 in s.db.gens && k.1 in s.logs
  {
    if !Credible(s, k, ans) then s
    else match s.frames[k].pc
      case Start => AdvanceLoad(s, k)
      case Loaded(_) => AdvanceLoad(s, k)
      case UncertainFound => AdvanceLoad(s, k)
      case PreSubmit(_) => AdvanceLoad(s, k)
      case Persisting => AdvanceSubmit(s, k, ans)
      case Marking => AdvanceSubmit(s, k, ans)
      case Permitted => AdvanceSubmit(s, k, ans)
      case Refreshed => AdvanceSubmit(s, k, ans)
      case Cleared => AdvanceSubmit(s, k, ans)
      case Rediscovering => AdvanceResolve(s, k, ans)
      case GivingUp => AdvanceResolve(s, k, ans)
      case Confirming(_) => AdvanceResolve(s, k, ans)
      case ConflictRead(_) => AdvanceResolve(s, k, ans)
      case CheckPreparing(_) => AdvanceResolve(s, k, ans)
      case MarkSubmitted(_) => AdvanceResolve(s, k, ans)
      case CheckIntent(_) => AdvanceObserve(s, k, ans)
      case Observing(_) => AdvanceObserve(s, k, ans)
      case ProgressStep(_) => AdvanceObserve(s, k, ans)
      case RunningStep(_) => AdvanceObserve(s, k, ans)
      case Reconciling(_) => AdvanceCancel(s, k, ans)
      case SoftCheck(_, _) => AdvanceCancel(s, k, ans)
      case SelectingSoft(_) => AdvanceCancel(s, k, ans)
      case ProvingAuthority(_, _) => AdvanceCancel(s, k, ans)
      case Destroying(_, _) => AdvanceCancel(s, k, ans)
      case LateObserve(_) => AdvanceCancel(s, k, ans)
      case _ => AdvanceFinish(s, k, ans)
  }

  // ------------------------------------------------------------- whole actions

  function Spawn(s: Sys, k: Key, a: AttemptId, cap: Capability): Sys {
    s.(frames := s.frames[k := Frame(a, cap, Start)])
  }

  ghost function Step(s: Sys, a: Action): Sys {
    match a
    case Tick(n) => s.(db := s.db.(now := s.db.now + n))
    case NewGeneration(g, outputs) =>
      if g in s.db.gens || g in s.logs then s
      else s.(db := PutRow(s.db, g, FreshRow(s.db.now, outputs)), logs := s.logs[g := []])
    case AcquireStep(w, ttl) =>
      // run_worker asks for the lease only until it first has it
      if w in s.everHeld && !Held(s, w) then s
      else
        var (db, r) := AcquireLease(s.db, w, ttl);
        if r.HeldByOther? then s else s.(db := db, everHeld := s.everHeld + {w})
    case RefreshStep(w) => s.(db := RefreshLease(s.db, w).0)
    case ClaimStep(w, g, attempt, cap) =>
      if Held(s, w) && OldestClaimable(s.db, g)
      then Spawn(s.(db := Claim(s.db, w, g, attempt)), (w, g), attempt, cap) else s
    case AdoptStep(w, g, cap) =>
      // recovery skips rows this worker already owns
      var (db, r) := Ownership.Adopt(s.db, w, g);
      if r.Ok? && s.db.gens[g].workerId != Some(w) && s.db.gens[g].status != Queued
         && s.db.gens[g].attemptId.Some?
      then Spawn(s.(db := db), (w, g), s.db.gens[g].attemptId.value, cap) else s
    case RequeueStep(w, g) => s.(db := Requeue(s.db, w, g).0)
    case CancelStep(g) => s.(db := UserCancel(s.db, g).0)
    case Advance(w, g, ans) =>
      if (w, g) in s.frames && g in s.db.gens && g in s.logs then AdvanceFrame(s, (w, g), ans) else s
    case Throw(w, g, fault) =>
      if (w, g) in s.frames && (fault.RemoteUnavailable? || fault.Unexpected?)
      then At(s, (w, g), Raising(fault)) else s
    case Crash(w) => s.(frames := map k | k in s.frames && k.0 != w :: s.frames[k])
  }

  /** The state after a whole run. */
  ghost function Run(s: Sys, actions: seq<Action>): Sys
    decreases |actions|
  {
    if actions == [] then s
    else Step(Run(s, actions[..|actions| - 1]), actions[|actions| - 1])
  }
}
