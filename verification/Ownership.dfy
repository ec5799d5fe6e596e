/**
 The durable store behind the worker: one lease row, the generation rows, and
 every fenced transaction on them.  A transaction runs under BEGIN IMMEDIATE, so
 it is one atomic step; each is specified here as a function from the store to
 the new store and the answer.  OwnershipLaws says what these answers are worth to
 a caller, and OwnershipStore changes the rows in place.
 */
module Ownership {
  import opened Wrappers

  type WorkerId = string
  type GenId = string
  type AttemptId = string
  type PromptId = string
  type Time = int

  datatype Status =
    | Queued | Preparing | Submitted | Running | Importing
    | Succeeded | Failed | Interrupted | Cancelled

  predicate Terminal(s: Status) {
    s == Succeeded || s == Failed || s == Interrupted || s == Cancelled
  }

  datatype SubmissionState = NotStarted | SubmissionPossible | Confirmed | Uncertain

  datatype Lease = Lease(workerId: WorkerId, acquiredAt: Time, heartbeatAt: Time)

  datatype Row = Row(
    status: Status,
    queuedAt: Time,
    workerId: Option<WorkerId>,
    heartbeatAt: Option<Time>,
    attemptId: Option<AttemptId>,
    submission: SubmissionState,
    submissionPossibleAt: Option<Time>,
    submissionJson: Option<string>,
    submissionHash: Option<string>,
    jobId: Option<PromptId>,
    handleJson: Option<string>,
    cancelRequestedAt: Option<Time>,
    softCancelSelectedAt: Option<Time>,
    outputs: seq<string>,   // the output keys the captured contract declares
    takes: set<string>)     // the output keys a Take exists for

  datatype Db = Db(now: Time, lease: Option<Lease>, gens: map<GenId, Row>)

  datatype LeaseAcquisition = AcquiredNew | RefreshedSelf | TakenOver | HeldByOther

  datatype Mutation =
    | Ok | LeaseLost | OwnershipLost | NotActive | NotFound | StateConflict

  datatype Permission =
    | MayPost | RediscoverOnly | PermLeaseLost | PermOwnershipLost | PermNotActive | PermConflict

  datatype SoftChoice = Selected | AuthorityGone | IntentMissing

  datatype CancelReply = CancelledNow | IntentPersisted | NotCancellable | NoSuchGeneration

  function Holder(db: Db): Option<WorkerId> {
    if db.lease.None? then None else Some(db.lease.value.workerId)
  }

  function FreshRow(queuedAt: Time, outputs: seq<string>): Row {
    Row(Queued, queuedAt, None, None, None, NotStarted, None, None, None, None, None, None, None, outputs, {})
  }

  /** The three CHECK constraints of migrations 0004 and 0005. */
  predicate ChecksHold(r: Row) {
    && (r.submission != SubmissionPossible || r.attemptId.Some?)
    && (r.submission != Confirmed || r.jobId.Some?)
    && (r.softCancelSelectedAt.None? || r.cancelRequestedAt.Some?)
  }

  // ---------------------------------------------------------------- the lease

  function AcquireLease(db: Db, w: WorkerId, ttl: int): (Db, LeaseAcquisition) {
    match db.lease
    case None => (db.(lease := Some(Lease(w, db.now, db.now))), AcquiredNew)
    case Some(l) =>
      if l.workerId == w then
        (db.(lease := Some(l.(heartbeatAt := db.now))), RefreshedSelf)
      else if l.heartbeatAt < db.now - ttl then
        (db.(lease := Some(Lease(w, db.now, db.now))), TakenOver)
      else (db, HeldByOther)
  }

  /** refresh_worker_lease: true is RETAINED, false is LOST. */
  function RefreshLease(db: Db, w: WorkerId): (Db, bool) {
    if Holder(db) == Some(w)
    then (db.(lease := Some(db.lease.value.(heartbeatAt := db.now))), true)
    else (db, false)
  }

  // ---------------------------------------------------------------- the fence

  /** Lease first, then existence, owner and activity: the order every fenced
      transaction checks in. */
  function Fence(db: Db, w: WorkerId, g: GenId): Mutation {
    if Holder(db) != Some(w) then LeaseLost
    else if g !in db.gens then NotFound
    else if db.gens[g].workerId != Some(w) then OwnershipLost
    else if Terminal(db.gens[g].status) then NotActive
    else Ok
  }

  /** The fence of the submission primitives, which also pins attempt and state. */
  function SubmissionFence(db: Db, w: WorkerId, g: GenId, a: AttemptId, need: SubmissionState): Mutation {
    var f := Fence(db, w, g);
    if f != Ok then f
    else if db.gens[g].attemptId != Some(a) || db.gens[g].submission != need then StateConflict
    else Ok
  }

  /** Retaining authority proof before an external effect: the lease heartbeat is
      refreshed even when the generation check then fails. */
  function VerifyAuthority(db: Db, w: WorkerId, g: GenId): (Db, Mutation) {
    if Holder(db) != Some(w) then (db, LeaseLost)
    else (RefreshLease(db, w).0, Fence(db, w, g))
  }

  function PutRow(db: Db, g: GenId, r: Row): Db {
    db.(gens := db.gens[g := r])
  }

  function Transition(db: Db, w: WorkerId, g: GenId, to: Status): (Db, Mutation) {
    var f := Fence(db, w, g);
    if f == Ok then (PutRow(db, g, db.gens[g].(status := to)), Ok) else (db, f)
  }

  function ProgressWrite(db: Db, w: WorkerId, g: GenId): (Db, Mutation) {
    var f := Fence(db, w, g);
    if f == Ok then (PutRow(db, g, db.gens[g].(heartbeatAt := Some(db.now))), Ok) else (db, f)
  }

  // ------------------------------------------------------- claim and recovery

  predicate Claimable(db: Db, g: GenId) {
    g in db.gens && db.gens[g].status == Queued && db.gens[g].submission == NotStarted
  }

  /** Oldest claimable row.  A queued row with any other submission state is
      skipped, never reset. */
  predicate OldestClaimable(db: Db, g: GenId) {
    Claimable(db, g)
    && forall h | h in db.gens && Claimable(db, h) :: db.gens[g].queuedAt <= db.gens[h].queuedAt
  }

  function Claim(db: Db, w: WorkerId, g: GenId, a: AttemptId): Db
    requires g in db.gens
  {
    PutRow(db, g, db.gens[g].(
      status := Preparing, workerId := Some(w), attemptId := Some(a), submission := NotStarted,
      submissionPossibleAt := None, heartbeatAt := Some(db.now)))
  }

  function Requeue(db: Db, w: WorkerId, g: GenId): (Db, Mutation) {
    if Holder(db) != Some(w) then (db, LeaseLost)
    else if g !in db.gens then (db, NotFound)
    else
      var r := db.gens[g];
      if r.status != Preparing then (db, NotActive)
      else if r.attemptId.Some? then (db, StateConflict)
      else if r.jobId.Some? || r.handleJson.Some? then (db, NotActive)
      else (PutRow(db, g, r.(status := Queued, workerId := None, heartbeatAt := None,
                             submission := NotStarted, submissionPossibleAt := None)), Ok)
  }

  function Adopt(db: Db, w: WorkerId, g: GenId): (Db, Mutation) {
    if Holder(db) != Some(w) then (db, LeaseLost)
    else if g !in db.gens then (db, NotFound)
    else
      var r := db.gens[g];
      if Terminal(r.status) then (db, NotActive)
      else if r.workerId == Some(w) then (db, Ok)
      else (PutRow(db, g, r.(workerId := Some(w), heartbeatAt := Some(db.now))), Ok)
  }

  // ------------------------------------------------ one-shot submission states

  function PersistSubmission(db: Db, w: WorkerId, g: GenId, a: AttemptId, json: string, hash: string)
    : (Db, Mutation)
  {
    var f := SubmissionFence(db, w, g, a, NotStarted);
    if f != Ok then (db, f)
    else if db.gens[g].jobId.Some? then (db, StateConflict)
    else (PutRow(db, g, db.gens[g].(submissionJson := Some(json), submissionHash := Some(hash),
                                    heartbeatAt := Some(db.now))), Ok)
  }

  function MarkPossible(db: Db, w: WorkerId, g: GenId, a: AttemptId): (Db, Permission) {
    match Fence(db, w, g)
    case LeaseLost => (db, PermLeaseLost)
    case NotFound => (db, PermNotActive)
    case OwnershipLost => (db, PermOwnershipLost)
    case NotActive => (db, PermNotActive)
    case _ =>
      var r := db.gens[g];
      if r.attemptId != Some(a) then (db, PermConflict)
      else if r.submission != NotStarted then (db, RediscoverOnly)
      else if r.submissionJson.None? then (db, PermConflict)
      else (PutRow(db, g, r.(submission := SubmissionPossible, submissionPossibleAt := Some(db.now),
                             heartbeatAt := Some(db.now))), MayPost)
  }

  function ConfirmSubmission(db: Db, w: WorkerId, g: GenId, a: AttemptId, job: PromptId, handle: string)
    : (Db, Mutation)
  {
    var f := SubmissionFence(db, w, g, a, SubmissionPossible);
    if f != Ok then (db, f)
    else (PutRow(db, g, db.gens[g].(submission := Confirmed, jobId := Some(job),
                                    handleJson := Some(handle), heartbeatAt := Some(db.now))), Ok)
  }

  function MarkUncertain(db: Db, w: WorkerId, g: GenId, a: AttemptId): (Db, Mutation) {
    var f := SubmissionFence(db, w, g, a, SubmissionPossible);
    if f != Ok then (db, f)
    else (PutRow(db, g, db.gens[g].(submission := Uncertain, heartbeatAt := Some(db.now))), Ok)
  }

  // ------------------------------------------------------------- cancellation

  function SelectSoftCancel(db: Db, w: WorkerId, g: GenId): (Db, SoftChoice) {
    if Fence(db, w, g) != Ok then (db, AuthorityGone)
    else
      var r := db.gens[g];
      if r.softCancelSelectedAt.Some? then (db, Selected)
      else if r.cancelRequestedAt.None? then (db, IntentMissing)
      else (PutRow(db, g, r.(softCancelSelectedAt := Some(db.now))), Selected)
  }

  /** POST /generations/{id}/cancel: the one writer that is not a worker. */
  function UserCancel(db: Db, g: GenId): (Db, CancelReply) {
    if g !in db.gens then (db, NoSuchGeneration)
    else
      var r := db.gens[g];
      if r.status == Importing || Terminal(r.status) then (db, NotCancellable)
      else if r.status == Queued
           || (r.status == Preparing && r.jobId.None? && r.submission == NotStarted)
      then (PutRow(db, g, r.(status := Cancelled)), CancelledNow)
      else (PutRow(db, g, r.(cancelRequestedAt := Some(db.now))), IntentPersisted)
  }

  /** The fence inside the importer's publication transaction. */
  predicate PublicationFence(db: Db, w: WorkerId, g: GenId, a: AttemptId) {
    Fence(db, w, g) == Ok && db.gens[g].attemptId == Some(a) && db.gens[g].status == Importing
  }

  datatype Publication = Minted | Converged | NotFenced

  /** One convergent publication unit: INSERT ... ON CONFLICT (generation, output key)
      DO NOTHING under the fence. */
  function PublishOutput(db: Db, w: WorkerId, g: GenId, a: AttemptId, key: string): (Db, Publication) {
    if !PublicationFence(db, w, g, a) then (db, NotFenced)
    else if key in db.gens[g].takes then (db, Converged)
    else (PutRow(db, g, db.gens[g].(takes := db.gens[g].takes + {key})), Minted)
  }

  // -------------------------------------------------------- whole-store facts

  /** One call of any worker transaction that writes generation rows. */
  datatype WorkerWrite =
    | WTransition(g: GenId, to: Status)
    | WProgress(g: GenId)
    | WRequeue(g: GenId)
    | WAdopt(g: GenId)
    | WPersist(g: GenId, a: AttemptId, json: string, hash: string)
    | WMark(g: GenId, a: AttemptId)
    | WConfirm(g: GenId, a: AttemptId, job: PromptId, handle: string)
    | WUncertain(g: GenId, a: AttemptId)
    | WSoft(g: GenId)
    | WPublish(g: GenId, a: AttemptId, key: string)

  function Commit(db: Db, w: WorkerId, op: WorkerWrite): Db {
    match op
    case WTransition(g, to) => Transition(db, w, g, to).0
    case WProgress(g) => ProgressWrite(db, w, g).0
    case WRequeue(g) => Requeue(db, w, g).0
    case WAdopt(g) => Adopt(db, w, g).0
    case WPersist(g, a, json, hash) => PersistSubmission(db, w, g, a, json, hash).0
    case WMark(g, a) => MarkPossible(db, w, g, a).0
    case WConfirm(g, a, job, handle) => ConfirmSubmission(db, w, g, a, job, handle).0
    case WUncertain(g, a) => MarkUncertain(db, w, g, a).0
    case WSoft(g) => SelectSoftCancel(db, w, g).0
    case WPublish(g, a, key) => PublishOutput(db, w, g, a, key).0
  }

  /** Every committed owned write is by the lease holder at commit time, touches
      one row only, never a terminal one, and keeps the CHECKs.  Requeue and
      adoption are the two writes that do not demand prior ownership of the row. */
  lemma OwnedWritesAreFenced(db: Db, w: WorkerId, op: WorkerWrite)
    requires Commit(db, w, op) != db
    ensures Holder(db) == Some(w) && op.g in db.gens
    ensures !Terminal(db.gens[op.g].status)
    ensures !op.WRequeue? && !op.WAdopt? ==> db.gens[op.g].workerId == Some(w)
    ensures Commit(db, w, op) == PutRow(db, op.g, Commit(db, w, op).gens[op.g])
    ensures ChecksHold(db.gens[op.g]) ==> ChecksHold(Commit(db, w, op).gens[op.g])
  {}
}
