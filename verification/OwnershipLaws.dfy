/**
 What the answers of the store are worth: how long a lease lasts, what a permit, a
 resolution, a terminal status, a cancellation or a Take guarantees against every
 transaction that any worker or user may issue afterwards, in any order.
 */
module OwnershipLaws {
  import opened Wrappers
  import opened Ownership

  // ------------------------------------------------------------ anybody's history

  /** One transaction of anybody, and the passing of time. */
  datatype Transaction =
    | Pass(seconds: nat)
    | Acquires(w: WorkerId, ttl: int)
    | Refreshes(w: WorkerId)
    | Claims(w: WorkerId, g: GenId, a: AttemptId)
    | Writes(w: WorkerId, op: WorkerWrite)
    | Cancels(g: GenId)

  function Perform(db: Db, t: Transaction): Db {
    match t
    case Pass(n) => db.(now := db.now + n)
    case Acquires(w, ttl) => AcquireLease(db, w, ttl).0
    case Refreshes(w) => RefreshLease(db, w).0
    case Claims(w, g, a) => if Holder(db) == Some(w) && OldestClaimable(db, g) then Claim(db, w, g, a) else db
    case Writes(w, op) => Commit(db, w, op)
    case Cancels(g) => UserCancel(db, g).0
  }

  function PerformAll(db: Db, ts: seq<Transaction>): Db
    decreases |ts|
  {
    if ts == [] then db else PerformAll(Perform(db, ts[0]), ts[1..])
  }

  /** No worker will ever be permitted to POST this generation. */
  ghost predicate NeverPermits(db: Db, g: GenId) {
    forall ts, w, a :: MarkPossible(PerformAll(db, ts), w, g, a).1 != MayPost
  }

  /** Attempt, submission, artifact, job and handle are as they will always be. */
  ghost predicate SubmissionFinal(db: Db, g: GenId) {
    g in db.gens && forall ts :: g in PerformAll(db, ts).gens && SameSubmission(db.gens[g], PerformAll(db, ts).gens[g])
  }

  /** The whole row is. */
  ghost predicate RowFinal(db: Db, g: GenId) {
    g in db.gens && forall ts :: g in PerformAll(db, ts).gens && PerformAll(db, ts).gens[g] == db.gens[g]
  }

  /** The soft-cancel mark is there and stays, with its time and an intent. */
  ghost predicate MarkFinal(db: Db, g: GenId) {
    g in db.gens && forall ts :: Marked(PerformAll(db, ts), g, db.gens[g].softCancelSelectedAt)
  }

  /** A cancel request is there and stays. */
  ghost predicate IntentFinal(db: Db, g: GenId) { forall ts :: Asked(PerformAll(db, ts), g) }

  /** A Take for this output exists and stays. */
  ghost predicate TakeFinal(db: Db, g: GenId, key: string) { forall ts :: HasTake(PerformAll(db, ts), g, key) }

  // ------------------------------------------------------- when each answer is given

  predicate Leased(db: Db, w: WorkerId) { db.lease.Some? && db.lease.value.workerId == w }

  predicate Active(s: Status) { s == Queued || s == Preparing || s == Submitted || s == Running || s == Importing }

  /** The lease and an active row both name w. */
  predicate Authority(db: Db, w: WorkerId, g: GenId) {
    Leased(db, w) && g in db.gens && db.gens[g].workerId == Some(w) && Active(db.gens[g].status)
  }

  /** Each refusal names the first thing that is missing: lease, row, owner, activity. */
  predicate Judged(db: Db, w: WorkerId, g: GenId, r: Mutation) {
    && (r == LeaseLost <==> !Leased(db, w))
    && (r == NotFound <==> Leased(db, w) && g !in db.gens)
    && (r == OwnershipLost <==> Leased(db, w) && g in db.gens && db.gens[g].workerId != Some(w))
    && (r == NotActive <==> Leased(db, w) && g in db.gens && db.gens[g].workerId == Some(w) && !Active(db.gens[g].status))
  }

  /** One row is replaced and nothing else. */
  predicate OnlyRow(db: Db, db': Db, g: GenId, row: Row) { db' == db.(gens := db.gens[g := row]) }

  /** The conditions under which each permission is given. */
  predicate Permits(db: Db, w: WorkerId, g: GenId, a: AttemptId, p: Permission) {
    && (p == PermLeaseLost <==> !Leased(db, w))
    && (p == PermOwnershipLost <==> Leased(db, w) && g in db.gens && db.gens[g].workerId != Some(w))
    && (p == PermNotActive <==>
          Leased(db, w) && (g !in db.gens || (db.gens[g].workerId == Some(w) && !Active(db.gens[g].status))))
    && (p == RediscoverOnly <==>
          Authority(db, w, g) && db.gens[g].attemptId == Some(a) && db.gens[g].submission != NotStarted)
    && (p == MayPost <==>
          && Authority(db, w, g) && db.gens[g].attemptId == Some(a)
          && db.gens[g].submission == NotStarted && db.gens[g].submissionJson.Some?)
  }

  // ------------------------------------------------------------------- the lease

  /** w has just renewed the lease: a contender gets it exactly after its own TTL. */
  ghost predicate HoldsFor(db: Db, w: WorkerId) {
    && Holder(db) == Some(w)
    && forall v, ttl: int, d: nat | v != w :: TakenAfter(db, v, ttl, d) <==> d > ttl
  }

  /** v would take the lease over if the next thing were its attempt, d seconds on. */
  predicate TakenAfter(db: Db, v: WorkerId, ttl: int, d: nat) {
    AcquireLease(db.(now := db.now + d), v, ttl).1 == TakenOver
  }

  /** No write of w changes anything. */
  ghost predicate Powerless(db: Db, w: WorkerId) { forall op :: Commit(db, w, op) == db }

  /** Who takes the lease keeps every contender off for that contender's whole TTL, and
      no longer; who is refused changed nothing and faces a heartbeat within its TTL. */
  lemma LeaseExcludes(db: Db, w: WorkerId, ttl: int)
    ensures var (db', r) := AcquireLease(db, w, ttl);
            && (r.HeldByOther? ==>
                  db' == db && db.lease.Some? && db.lease.value.workerId != w && db.now - db.lease.value.heartbeatAt <= ttl)
            && (!r.HeldByOther? ==> HoldsFor(db', w) && db'.gens == db.gens)
            && (r == AcquiredNew <==> db.lease.None?) && (r == RefreshedSelf <==> Leased(db, w))
            && (r == TakenOver <==> db.lease.Some? && !Leased(db, w) && db.now - db.lease.value.heartbeatAt > ttl)
            && (r == AcquiredNew || r == TakenOver ==> db' == db.(lease := Some(Lease(w, db.now, db.now))))
            && (r == RefreshedSelf ==> db' == db.(lease := Some(Lease(w, db.lease.value.acquiredAt, db.now))))
  {}

  /** A retained lease starts a new window; a lost one means that no write of this
      worker changes anything, until it acquires the lease again. */
  lemma RefreshDecides(db: Db, w: WorkerId)
    ensures var (db', retained) := RefreshLease(db, w);
            && db'.gens == db.gens && Holder(db') == Holder(db)
            && (if retained then HoldsFor(db', w) else db' == db && Powerless(db', w))
            && (retained <==> Leased(db, w))
            && (retained ==> db' == db.(lease := Some(Lease(w, db.lease.value.acquiredAt, db.now))))
  {}

  /** The authority proof answers OK exactly when a fenced write would commit right
      after it, and renews the lease of its holder whatever it answers. */
  lemma AuthorityIsEffective(db: Db, w: WorkerId, g: GenId)
    ensures var (db', r) := VerifyAuthority(db, w, g);
            && (r == Ok <==> CanWrite(db', w, g))
            && Judged(db, w, g, r) && (r == Ok <==> Authority(db, w, g))
            && (!Leased(db, w) ==> db' == db)
            && db'.gens == db.gens && Holder(db') == Holder(db)
            && (Holder(db) == Some(w) ==> HoldsFor(db', w))
  {
    var (db', r) := VerifyAuthority(db, w, g);
    assert Transition(db', w, g, Failed).1 == Ok <==> Fence(db', w, g) == Ok;
  }

  /** Every status write of w on g would commit. */
  ghost predicate CanWrite(db: Db, w: WorkerId, g: GenId) { forall to :: Transition(db, w, g, to).1 == Ok }

  // --------------------------------------------------------- claims and ownership

  /** Requeueing gives back exactly a claimable row: whoever holds the lease can claim
      it, no attempt was ever made with it, and a second requeue is refused. */
  lemma RequeueRestoresClaim(db: Db, w: WorkerId, g: GenId)
    ensures var (db', r) := Requeue(db, w, g);
            && (r != Ok ==> db' == db)
            && (r == LeaseLost <==> !Leased(db, w)) && (r == NotFound <==> Leased(db, w) && g !in db.gens)
            && (r == StateConflict <==>
                  Leased(db, w) && g in db.gens && db.gens[g].status == Preparing && db.gens[g].attemptId.Some?)
            && (r == Ok <==>
                  && Leased(db, w) && g in db.gens && db.gens[g].status == Preparing && db.gens[g].attemptId.None?
                  && db.gens[g].jobId.None? && db.gens[g].handleJson.None?)
            && r != OwnershipLost
            && (r == Ok ==>
                  && Claimable(db', g) && g in db.gens && db.gens[g].attemptId.None?
                  && Requeue(db', w, g).1 == NotActive
                  && db'.gens[g] == db.gens[g].(status := Queued, workerId := None, heartbeatAt := None,
                                                submission := NotStarted, submissionPossibleAt := None)
                  && forall h | h in db.gens && h != g :: h in db'.gens && db'.gens[h] == db.gens[h])
  {}

  /** Nobody but w can write g, whoever holds the lease. */
  ghost predicate OnlyOwner(db: Db, w: WorkerId, g: GenId) {
    forall v, since | v != w :: Fence(db.(lease := Some(Lease(v, since, since))), v, g) == OwnershipLost
  }

  /** Adoption hands over the authority and nothing else: the adopter can write, any
      other worker cannot even if it regained the lease, every other column and row is
      unchanged, and adopting again changes nothing. */
  lemma AdoptionHandsOver(db: Db, w: WorkerId, g: GenId)
    ensures var (db', r) := Adopt(db, w, g);
            && (r != Ok ==> db' == db)
            && (r == LeaseLost <==> !Leased(db, w)) && (r == NotFound <==> Leased(db, w) && g !in db.gens)
            && (r == NotActive <==> Leased(db, w) && g in db.gens && !Active(db.gens[g].status))
            && (r == Ok <==> Leased(db, w) && g in db.gens && Active(db.gens[g].status))
            && (r == Ok && db.gens[g].workerId == Some(w) ==> db' == db)
            && (r == Ok && db.gens[g].workerId != Some(w) ==> db'.gens[g].heartbeatAt == Some(db.now))
            && (r == Ok ==>
                  && g in db.gens && CanWrite(db', w, g) && OnlyOwner(db', w, g) && Adopt(db', w, g) == (db', Ok)
                  && db'.gens[g] == db.gens[g].(workerId := Some(w), heartbeatAt := db'.gens[g].heartbeatAt)
                  && forall h | h in db.gens && h != g :: h in db'.gens && db'.gens[h] == db.gens[h])
  {}

  // ------------------------------------------------------------- the submission

  /** A persisted artifact is what the permit will be for: the permit is available at
      once, keeps these bytes, and ends the time in which they can be replaced. */
  lemma ArtifactPrecedesPermit(db: Db, w: WorkerId, g: GenId, a: AttemptId, json: string, hash: string,
                               v: WorkerId, a': AttemptId, json': string, hash': string)
    ensures var (db', r) := PersistSubmission(db, w, g, a, json, hash);
            && (r != Ok ==> db' == db) && Judged(db, w, g, r)
            && (r == Ok <==>
                  && Authority(db, w, g) && db.gens[g].attemptId == Some(a)
                  && db.gens[g].submission == NotStarted && db.gens[g].jobId.None?)
            && (r == Ok ==>
                  OnlyRow(db, db', g, db.gens[g].(submissionJson := Some(json), submissionHash := Some(hash),
                                                  heartbeatAt := Some(db.now))))
            && (r == Ok ==>
                  && g in db'.gens
                  && var (after, p) := MarkPossible(db', w, g, a);
                     && p == MayPost && g in after.gens
                     && after.gens[g].submissionJson == Some(json) && after.gens[g].submissionHash == Some(hash)
                     && PersistSubmission(after, v, g, a', json', hash').0 == after)
  {}

  /** A spent permit: an attempt exists and its submission has started. */
  predicate Started(db: Db, g: GenId) {
    g in db.gens && db.gens[g].attemptId.Some? && db.gens[g].submission != NotStarted
  }

  lemma StartedStays(db: Db, t: Transaction, g: GenId)
    requires Started(db, g)
    ensures Started(Perform(db, t), g)
  {}

  lemma {:induction false} StartedForEver(db: Db, ts: seq<Transaction>, g: GenId)
    requires Started(db, g)
    ensures Started(PerformAll(db, ts), g)
    decreases |ts|
  {
    hide Perform;
    if ts != [] {
      StartedStays(db, ts[0], g);
      StartedForEver(Perform(db, ts[0]), ts[1..], g);
    }
  }

  lemma StartedNeverPermits(db: Db, g: GenId)
    requires Started(db, g)
    ensures NeverPermits(db, g)
  {
    forall ts, w, a
      ensures MarkPossible(PerformAll(db, ts), w, g, a).1 != MayPost
    {
      StartedForEver(db, ts, g);
    }
  }

  /** The permit to POST is handed out once: only to the owner's current attempt, on a
      row with an artifact, and after it no transactions whatever let any worker obtain
      it again.  A refusal changes nothing. */
  lemma PermitIsHandedOutOnce(db: Db, w: WorkerId, g: GenId, a: AttemptId)
    ensures var (db', p) := MarkPossible(db, w, g, a);
            && (p != MayPost ==> db' == db) && Permits(db, w, g, a, p)
            && (p == MayPost ==>
                  OnlyRow(db, db', g, db.gens[g].(submission := SubmissionPossible, submissionPossibleAt := Some(db.now),
                                                  heartbeatAt := Some(db.now))))
            && (p == MayPost ==>
                  && Fence(db, w, g) == Ok && db.gens[g].attemptId == Some(a) && db.gens[g].submissionJson.Some?
                  && db.gens[g].submission == NotStarted && NeverPermits(db', g))
  {
    if MarkPossible(db, w, g, a).1 == MayPost {
      StartedNeverPermits(MarkPossible(db, w, g, a).0, g);
    }
  }

  /** The columns a resolved submission pins. */
  predicate SameSubmission(r: Row, r': Row) {
    && r'.attemptId == r.attemptId && r'.submission == r.submission && r'.jobId == r.jobId
    && r'.handleJson == r.handleJson && r'.submissionJson == r.submissionJson && r'.submissionHash == r.submissionHash
  }

  predicate IsResolved(db: Db, g: GenId) {
    && g in db.gens && db.gens[g].attemptId.Some?
    && (db.gens[g].submission == Confirmed || db.gens[g].submission == Uncertain)
  }

  lemma ResolvedStays(db: Db, t: Transaction, g: GenId)
    requires IsResolved(db, g)
    ensures IsResolved(Perform(db, t), g) && SameSubmission(db.gens[g], Perform(db, t).gens[g])
  {
    hide Commit;
    if t.Writes? {
      ResolvedWrite(db, t.w, t.op, g);
    }
  }

  lemma ResolvedWrite(db: Db, w: WorkerId, op: WorkerWrite, g: GenId)
    requires IsResolved(db, g)
    ensures IsResolved(Commit(db, w, op), g) && SameSubmission(db.gens[g], Commit(db, w, op).gens[g])
  {
    if Commit(db, w, op) != db {
      OwnedWritesAreFenced(db, w, op);
      if op.g != g {
        hide Commit;
      }
    }
  }

  lemma {:induction false} ResolvedForEver(db: Db, ts: seq<Transaction>, g: GenId)
    requires IsResolved(db, g)
    ensures IsResolved(PerformAll(db, ts), g) && SameSubmission(db.gens[g], PerformAll(db, ts).gens[g])
    decreases |ts|
  {
    hide Perform;
    if ts != [] {
      ResolvedStays(db, ts[0], g);
      ResolvedForEver(Perform(db, ts[0]), ts[1..], g);
    }
  }

  lemma ResolvedIsFinal(db: Db, g: GenId)
    requires IsResolved(db, g)
    ensures SubmissionFinal(db, g)
  {
    forall ts
      ensures g in PerformAll(db, ts).gens && SameSubmission(db.gens[g], PerformAll(db, ts).gens[g])
    {
      ResolvedForEver(db, ts, g);
    }
  }

  /** A submission is resolved once: confirmation writes state, job and handle together,
      a refusal writes nothing, and no transactions change the resolution, in particular
      none turns it into uncertain or names another job. */
  lemma ConfirmationIsFinal(db: Db, w: WorkerId, g: GenId, a: AttemptId, job: PromptId, handle: string)
    ensures var (db', r) := ConfirmSubmission(db, w, g, a, job, handle);
            && (r != Ok ==> db' == db) && Judged(db, w, g, r)
            && (r == Ok <==>
                  Authority(db, w, g) && db.gens[g].attemptId == Some(a) && db.gens[g].submission == SubmissionPossible)
            && (r == Ok ==>
                  OnlyRow(db, db', g, db.gens[g].(submission := Confirmed, jobId := Some(job), handleJson := Some(handle),
                                                  heartbeatAt := Some(db.now))))
            && (r == Ok ==>
                  && SubmissionFinal(db', g)
                  && var row := db'.gens[g];
                     row.submission == Confirmed && row.jobId == Some(job) && row.handleJson == Some(handle))
  {
    var (db', r) := ConfirmSubmission(db, w, g, a, job, handle);
    if r == Ok {
      ResolvedIsFinal(db', g);
    }
  }

  /** Likewise for giving up: uncertain is reached from submission_possible only, and no
      transactions ever confirm the attempt afterwards. */
  lemma UncertaintyIsFinal(db: Db, w: WorkerId, g: GenId, a: AttemptId)
    ensures var (db', r) := MarkUncertain(db, w, g, a);
            && (r != Ok ==> db' == db) && Judged(db, w, g, r)
            && (r == Ok <==>
                  Authority(db, w, g) && db.gens[g].attemptId == Some(a) && db.gens[g].submission == SubmissionPossible)
            && (r == Ok ==> OnlyRow(db, db', g, db.gens[g].(submission := Uncertain, heartbeatAt := Some(db.now))))
            && (r == Ok ==>
                  && g in db.gens && db.gens[g].submission == SubmissionPossible
                  && SubmissionFinal(db', g) && db'.gens[g].submission == Uncertain)
  {
    var (db', r) := MarkUncertain(db, w, g, a);
    if r == Ok {
      ResolvedIsFinal(db', g);
    }
  }

  // -------------------------------------------------------- terminal rows, cancels

  lemma TerminalStays(db: Db, t: Transaction, g: GenId)
    requires g in db.gens && Terminal(db.gens[g].status)
    ensures g in Perform(db, t).gens && Perform(db, t).gens[g] == db.gens[g]
  {
    hide Commit;
    if t.Writes? && Commit(db, t.w, t.op) != db {
      OwnedWritesAreFenced(db, t.w, t.op);
    }
  }

  lemma {:induction false} TerminalForEver(db: Db, ts: seq<Transaction>, g: GenId)
    requires g in db.gens && Terminal(db.gens[g].status)
    ensures g in PerformAll(db, ts).gens && PerformAll(db, ts).gens[g] == db.gens[g]
    decreases |ts|
  {
    hide Perform;
    if ts != [] {
      TerminalStays(db, ts[0], g);
      TerminalForEver(Perform(db, ts[0]), ts[1..], g);
    }
  }

  lemma TerminalIsFinal(db: Db, g: GenId)
    requires g in db.gens && Terminal(db.gens[g].status)
    ensures RowFinal(db, g)
  {
    forall ts
      ensures g in PerformAll(db, ts).gens && PerformAll(db, ts).gens[g] == db.gens[g]
    {
      TerminalForEver(db, ts, g);
    }
  }

  /** A status write is all or nothing, and a terminal status is the last thing that
      ever happens to the row, whoever writes afterwards. */
  lemma TransitionIsFenced(db: Db, w: WorkerId, g: GenId, to: Status)
    ensures var (db', r) := Transition(db, w, g, to);
            && (r != Ok ==> db' == db) && Judged(db, w, g, r) && (r == Ok <==> Authority(db, w, g))
            && (r == Ok ==>
                  && Holder(db) == Some(w) && g in db.gens && db.gens[g].workerId == Some(w)
                  && !Terminal(db.gens[g].status)
                  && db' == db.(gens := db.gens[g := db.gens[g].(status := to)])
                  && (Terminal(to) ==> RowFinal(db', g)))
  {
    var (db', r) := Transition(db, w, g, to);
    if r == Ok && Terminal(to) {
      TerminalIsFinal(db', g);
    }
  }

  predicate Marked(db: Db, g: GenId, since: Option<Time>) {
    g in db.gens && db.gens[g].softCancelSelectedAt == since && since.Some? && db.gens[g].cancelRequestedAt.Some?
  }

  lemma MarkStays(db: Db, t: Transaction, g: GenId, since: Option<Time>)
    requires Marked(db, g, since)
    ensures Marked(Perform(db, t), g, since)
  {}

  lemma {:induction false} MarkForEver(db: Db, ts: seq<Transaction>, g: GenId, since: Option<Time>)
    requires Marked(db, g, since)
    ensures Marked(PerformAll(db, ts), g, since)
    decreases |ts|
  {
    hide Perform;
    if ts != [] {
      MarkStays(db, ts[0], g, since);
      MarkForEver(Perform(db, ts[0]), ts[1..], g, since);
    }
  }

  /** The soft-cancel mark is one-way: once selected no transactions remove it, change
      its time or lose the intent behind it; selecting again changes nothing, and
      without an intent it cannot be selected. */
  lemma SelectionIsOneWay(db: Db, w: WorkerId, g: GenId)
    requires g in db.gens ==> ChecksHold(db.gens[g])
    ensures var (db', c) := SelectSoftCancel(db, w, g);
            && (c != Selected ==> db' == db)
            && (c == AuthorityGone <==> !Authority(db, w, g))
            && (c == Selected <==>
                  Authority(db, w, g) && (db.gens[g].softCancelSelectedAt.Some? || db.gens[g].cancelRequestedAt.Some?))
            && (c == Selected ==>
                  if db.gens[g].softCancelSelectedAt.Some? then db' == db
                  else OnlyRow(db, db', g, db.gens[g].(softCancelSelectedAt := Some(db.now))))
            && (c == Selected ==> MarkFinal(db', g) && SelectSoftCancel(db', w, g) == (db', Selected))
            && (c == IntentMissing ==> g in db.gens && db.gens[g].cancelRequestedAt.None?)
  {
    var (db', c) := SelectSoftCancel(db, w, g);
    if c == Selected {
      forall ts
        ensures Marked(PerformAll(db', ts), g, db'.gens[g].softCancelSelectedAt)
      {
        MarkForEver(db', ts, g, db'.gens[g].softCancelSelectedAt);
      }
    }
  }

  predicate Asked(db: Db, g: GenId) { g in db.gens && db.gens[g].cancelRequestedAt.Some? }

  lemma AskedStays(db: Db, t: Transaction, g: GenId)
    requires Asked(db, g)
    ensures Asked(Perform(db, t), g)
  {}

  lemma {:induction false} AskedForEver(db: Db, ts: seq<Transaction>, g: GenId)
    requires Asked(db, g)
    ensures Asked(PerformAll(db, ts), g)
    decreases |ts|
  {
    hide Perform;
    if ts != [] {
      AskedStays(db, ts[0], g);
      AskedForEver(Perform(db, ts[0]), ts[1..], g);
    }
  }

  lemma TerminalNeverPermits(db: Db, g: GenId)
    requires g in db.gens && Terminal(db.gens[g].status)
    ensures NeverPermits(db, g)
  {
    forall ts, w, a
      ensures MarkPossible(PerformAll(db, ts), w, g, a).1 != MayPost
    {
      TerminalForEver(db, ts, g);
    }
  }

  /** Queued, or claimed and provably not submitted. */
  predicate Unsubmitted(db: Db, g: GenId) {
    g in db.gens
    && (|| db.gens[g].status == Queued
        || (db.gens[g].status == Preparing && db.gens[g].jobId.None? && db.gens[g].submission == NotStarted))
  }

  /** What the user is told holds: "cancelled" means that nobody will ever be permitted
      to POST the generation; "requested" changes no status and is never forgotten; a
      refusal changes nothing, and importing or terminal rows are always refused. */
  lemma CancelReplyHolds(db: Db, g: GenId)
    ensures var (db', c) := UserCancel(db, g);
            && (c == NoSuchGeneration <==> g !in db.gens)
            && (c == CancelledNow <==> Unsubmitted(db, g))
            && (c == CancelledNow ==> OnlyRow(db, db', g, db.gens[g].(status := Cancelled)))
            && (c == IntentPersisted ==> OnlyRow(db, db', g, db.gens[g].(cancelRequestedAt := Some(db.now))))
            && (c == CancelledNow ==> g in db'.gens && db'.gens[g].status == Cancelled && NeverPermits(db', g))
            && (c == IntentPersisted ==>
                  g in db.gens && g in db'.gens && db'.gens[g].status == db.gens[g].status && IntentFinal(db', g))
            && (c == NotCancellable || c == NoSuchGeneration ==> db' == db)
            && (g in db.gens && (db.gens[g].status == Importing || Terminal(db.gens[g].status)) <==> c == NotCancellable)
  {
    var (db', c) := UserCancel(db, g);
    if c == CancelledNow {
      TerminalNeverPermits(db', g);
    } else if c == IntentPersisted {
      forall ts
        ensures Asked(PerformAll(db', ts), g)
      {
        AskedForEver(db', ts, g);
      }
    }
  }

  /** A claim takes exactly a queued, never-submitted row that no such row is older
      than, and writes owner, attempt and heartbeat. */
  lemma ClaimWrites(db: Db, w: WorkerId, g: GenId, a: AttemptId)
    ensures OldestClaimable(db, g) <==>
              && g in db.gens && db.gens[g].status == Queued && db.gens[g].submission == NotStarted
              && forall h | h in db.gens && db.gens[h].status == Queued && db.gens[h].submission == NotStarted ::
                   db.gens[g].queuedAt <= db.gens[h].queuedAt
    ensures g in db.gens ==>
              OnlyRow(db, Claim(db, w, g, a), g,
                      db.gens[g].(status := Preparing, workerId := Some(w), attemptId := Some(a), submission := NotStarted,
                                  submissionPossibleAt := None, heartbeatAt := Some(db.now)))
  {}

  /** A progress write is a heartbeat of the row under the fence. */
  lemma ProgressBeats(db: Db, w: WorkerId, g: GenId)
    ensures var (db', r) := ProgressWrite(db, w, g);
            && Judged(db, w, g, r) && (r == Ok <==> Authority(db, w, g)) && (r != Ok ==> db' == db)
            && (r == Ok ==> OnlyRow(db, db', g, db.gens[g].(heartbeatAt := Some(db.now))))
  {}

  // ----------------------------------------------------------------- publication

  predicate HasTake(db: Db, g: GenId, key: string) { g in db.gens && key in db.gens[g].takes }

  lemma TakeStays(db: Db, t: Transaction, g: GenId, key: string)
    requires HasTake(db, g, key)
    ensures HasTake(Perform(db, t), g, key)
  {}

  lemma {:induction false} TakeForEver(db: Db, ts: seq<Transaction>, g: GenId, key: string)
    requires HasTake(db, g, key)
    ensures HasTake(PerformAll(db, ts), g, key)
    decreases |ts|
  {
    hide Perform;
    if ts != [] {
      TakeStays(db, ts[0], g, key);
      TakeForEver(Perform(db, ts[0]), ts[1..], g, key);
    }
  }

  /** Publication converges: it never mints a second Take for an output, whoever replays
      it and whatever happened in between; a refusal by the fence changes nothing. */
  lemma PublicationConverges(db: Db, w: WorkerId, g: GenId, a: AttemptId, key: string)
    ensures var (db', r) := PublishOutput(db, w, g, a, key);
            && (r == NotFenced ==> db' == db)
            && (r == NotFenced <==>
                  !(Authority(db, w, g) && db.gens[g].attemptId == Some(a) && db.gens[g].status == Importing))
            && (r == Converged ==> db' == db && key in db.gens[g].takes)
            && (r == Minted ==> OnlyRow(db, db', g, db.gens[g].(takes := db.gens[g].takes + {key})))
            && (r == Minted <==> PublicationFence(db, w, g, a) && !HasTake(db, g, key))
            && (r != NotFenced ==> TakeFinal(db', g, key) && forall k | k != key :: HasTake(db', g, k) <==> HasTake(db, g, k))
  {
    var (db', r) := PublishOutput(db, w, g, a, key);
    if r != NotFenced {
      forall ts
        ensures HasTake(PerformAll(db', ts), g, key)
      {
        TakeForEver(db', ts, g, key);
      }
    }
  }

  /** A Take that stays is never minted again. */
  lemma FinalTakeIsUnique(db: Db, g: GenId, key: string, ts: seq<Transaction>, w: WorkerId, a: AttemptId)
    requires TakeFinal(db, g, key)
    ensures PublishOutput(PerformAll(db, ts), w, g, a, key).1 != Minted
  {
    assert HasTake(PerformAll(db, ts), g, key);
  }
}
