/**
 The store in place: each method is one transaction that changes the lease or the
 rows, proved equal to its specification and to be worth what OwnershipLaws says.
 */
module OwnershipStore {
  import opened Wrappers
  import opened Ownership
  import opened OwnershipLaws

  class Store {
    var now: Time
    var lease: Option<Lease>
    var gens: map<GenId, Row>

    function Value(): Db
      reads this
    {
      Db(now, lease, gens)
    }

    constructor (start: Time)
      ensures Value() == Db(start, None, map[])
    {
      now, lease, gens := start, None, map[];
    }

    /** The caller holds the lease, and keeps every contender off for that contender's
        whole TTL; or nothing changed, and the holder was seen within the TTL. */
    method AcquireWorkerLease(w: WorkerId, ttl: int) returns (r: LeaseAcquisition)
      modifies this`lease
      ensures !r.HeldByOther? ==> HoldsFor(Value(), w)
      ensures r.HeldByOther? ==>
                Value() == old(Value()) && lease.Some? && lease.value.workerId != w && now - lease.value.heartbeatAt <= ttl
      ensures (Value(), r) == AcquireLease(old(Value()), w, ttl)
    {
      LeaseExcludes(Value(), w, ttl);
      if lease.None? {
        lease := Some(Lease(w, now, now));
        return AcquiredNew;
      }
      if lease.value.workerId == w {
        lease := Some(lease.value.(heartbeatAt := now));
        return RefreshedSelf;
      }
      if lease.value.heartbeatAt < now - ttl {
        lease := Some(Lease(w, now, now));
        return TakenOver;
      }
      return HeldByOther;
    }

    /** A new window, or the news that no write of this worker can change anything. */
    method RefreshWorkerLease(w: WorkerId) returns (retained: bool)
      modifies this`lease
      ensures Holder(Value()) == Holder(old(Value()))
      ensures if retained then HoldsFor(Value(), w) else Value() == old(Value()) && Powerless(Value(), w)
      ensures (Value(), retained) == RefreshLease(old(Value()), w)
    {
      RefreshDecides(Value(), w);
      retained := lease.Some? && lease.value.workerId == w;
      if retained {
        lease := Some(lease.value.(heartbeatAt := now));
      }
    }

    /** OK exactly when every fenced write would commit now; the holder's lease is renewed
        whatever the answer. */
    method VerifyExecutionAuthority(w: WorkerId, g: GenId) returns (r: Mutation)
      modifies this`lease
      ensures r == Ok <==> CanWrite(Value(), w, g)
      ensures Holder(Value()) == Holder(old(Value())) && (Holder(Value()) == Some(w) ==> HoldsFor(Value(), w))
      ensures (Value(), r) == VerifyAuthority(old(Value()), w, g)
    {
      AuthorityIsEffective(Value(), w, g);
      var retained := RefreshWorkerLease(w);
      if !retained {
        return LeaseLost;
      }
      if g !in gens {
        return NotFound;
      }
      if gens[g].workerId != Some(w) {
        return OwnershipLost;
      }
      return if Terminal(gens[g].status) then NotActive else Ok;
    }

    /** rows is what the queue query returns: the queued rows, oldest first. */
    ghost predicate QueueListing(rows: seq<GenId>)
      reads this
    {
      && (forall g :: g in rows <==> g in gens && gens[g].status == Queued)
      && (forall i, j | 0 <= i < j < |rows| :: gens[rows[i]].queuedAt <= gens[rows[j]].queuedAt)
    }

    /** The claim takes the oldest claimable row, and fails only without the lease
        or without any such row. */
    method ClaimNextGeneration(w: WorkerId, a: AttemptId, rows: seq<GenId>) returns (claimed: Option<GenId>)
      requires QueueListing(rows)
      modifies this`gens
      ensures claimed.Some? ==>
                && Holder(old(Value())) == Some(w) && OldestClaimable(old(Value()), claimed.value)
                && Value() == Claim(old(Value()), w, claimed.value, a)
      ensures claimed.None? ==>
                && Value() == old(Value())
                && (Holder(old(Value())) != Some(w) || forall g :: !Claimable(old(Value()), g))
    {
      if lease.None? || lease.value.workerId != w {
        return None;
      }
      var i := 0;
      while i < |rows| && gens[rows[i]].submission != NotStarted
        invariant 0 <= i <= |rows|
        invariant forall j | 0 <= j < i :: gens[rows[j]].submission != NotStarted
      {
        i := i + 1;
      }
      if i == |rows| {
        return None;
      }
      var g := rows[i];
      forall h | h in gens && Claimable(Value(), h)
        ensures gens[g].queuedAt <= gens[h].queuedAt
      {
        assert h in rows;
        var j :| 0 <= j < |rows| && rows[j] == h;
        assert i <= j;
      }
      gens := gens[g := gens[g].(status := Preparing, workerId := Some(w), attemptId := Some(a),
                                 submission := NotStarted, submissionPossibleAt := None,
                                 heartbeatAt := Some(now))];
      return Some(g);
    }

    method FencedCheck(w: WorkerId, g: GenId) returns (r: Mutation)
      ensures r == Fence(Value(), w, g)
    {
      if lease.None? || lease.value.workerId != w {
        return LeaseLost;
      }
      if g !in gens {
        return NotFound;
      }
      if gens[g].workerId != Some(w) {
        return OwnershipLost;
      }
      return if Terminal(gens[g].status) then NotActive else Ok;
    }

    /** One column of one owned, active row changes or nothing does, and a terminal
        status is final against everybody. */
    method TransitionOwnedGeneration(w: WorkerId, g: GenId, to: Status) returns (r: Mutation)
      modifies this`gens
      ensures r != Ok ==> Value() == old(Value())
      ensures r == Ok ==>
                && Holder(old(Value())) == Some(w) && g in old(gens) && old(gens)[g].workerId == Some(w)
                && !Terminal(old(gens)[g].status) && gens == old(gens)[g := old(gens)[g].(status := to)]
      ensures r == Ok && Terminal(to) ==> RowFinal(Value(), g)
      ensures (Value(), r) == Transition(old(Value()), w, g, to)
    {
      TransitionIsFenced(Value(), w, g, to);
      r := FencedCheck(w, g);
      if r == Ok {
        gens := gens[g := gens[g].(status := to)];
      }
    }

    /** Only a row no attempt was made with goes back, and then anybody may claim it. */
    method RequeueStalePreparing(w: WorkerId, g: GenId) returns (r: Mutation)
      modifies this`gens
      ensures r != Ok ==> Value() == old(Value())
      ensures r == Ok ==>
                && g in old(gens) && old(gens)[g].attemptId.None? && Claimable(Value(), g)
                && Requeue(Value(), w, g).1 == NotActive
                && forall h | h in old(gens) && h != g :: h in gens && gens[h] == old(gens)[h]
      ensures (Value(), r) == Requeue(old(Value()), w, g)
    {
      RequeueRestoresClaim(Value(), w, g);
      if lease.None? || lease.value.workerId != w {
        return LeaseLost;
      }
      if g !in gens {
        return NotFound;
      }
      var row := gens[g];
      if row.status != Preparing {
        return NotActive;
      }
      if row.attemptId.Some? {
        return StateConflict;
      }
      if row.jobId.Some? || row.handleJson.Some? {
        return NotActive;
      }
      gens := gens[g := row.(status := Queued, workerId := None, heartbeatAt := None,
                             submission := NotStarted, submissionPossibleAt := None)];
      return Ok;
    }

    /** The caller can write the row and nobody else can, whoever holds the lease; no
        column but the owner and its heartbeat changed. */
    method AdoptStaleGeneration(w: WorkerId, g: GenId) returns (r: Mutation)
      modifies this`gens
      ensures r != Ok ==> Value() == old(Value())
      ensures r == Ok ==> CanWrite(Value(), w, g) && OnlyOwner(Value(), w, g)
      ensures r == Ok ==>
                && g in old(gens) && g in gens
                && gens == old(gens)[g := old(gens)[g].(workerId := Some(w), heartbeatAt := gens[g].heartbeatAt)]
      ensures (Value(), r) == Adopt(old(Value()), w, g)
    {
      AdoptionHandsOver(Value(), w, g);
      if lease.None? || lease.value.workerId != w {
        return LeaseLost;
      }
      if g !in gens {
        return NotFound;
      }
      if Terminal(gens[g].status) {
        return NotActive;
      }
      if gens[g].workerId != Some(w) {
        gens := gens[g := gens[g].(workerId := Some(w), heartbeatAt := Some(now))];
      }
      return Ok;
    }

    /** The permit is now available, and it will be for these bytes. */
    method PersistOwnedSubmission(w: WorkerId, g: GenId, a: AttemptId, json: string, hash: string)
      returns (r: Mutation)
      modifies this`gens
      ensures r != Ok ==> Value() == old(Value())
      ensures r == Ok ==>
                && MarkPossible(Value(), w, g, a).1 == MayPost && g in gens
                && gens[g].submissionJson == Some(json) && gens[g].submissionHash == Some(hash)
      ensures (Value(), r) == PersistSubmission(old(Value()), w, g, a, json, hash)
    {
      ArtifactPrecedesPermit(Value(), w, g, a, json, hash, w, a, json, hash);
      r := FencedCheck(w, g);
      if r != Ok {
        return;
      }
      if gens[g].attemptId != Some(a) || gens[g].submission != NotStarted || gens[g].jobId.Some? {
        return StateConflict;
      }
      gens := gens[g := gens[g].(submissionJson := Some(json), submissionHash := Some(hash),
                                 heartbeatAt := Some(now))];
    }

    /** The permit goes to the owner's current attempt on a row with an artifact, and
        never again to anybody, whatever happens to the store afterwards. */
    method MarkSubmissionPossible(w: WorkerId, g: GenId, a: AttemptId) returns (p: Permission)
      modifies this`gens
      ensures p != MayPost ==> Value() == old(Value())
      ensures p == MayPost ==>
                && Fence(old(Value()), w, g) == Ok && old(gens)[g].attemptId == Some(a)
                && old(gens)[g].submission == NotStarted && old(gens)[g].submissionJson.Some?
                && NeverPermits(Value(), g)
      ensures (Value(), p) == MarkPossible(old(Value()), w, g, a)
    {
      PermitIsHandedOutOnce(Value(), w, g, a);
      var r := FencedCheck(w, g);
      match r {
        case LeaseLost => return PermLeaseLost;
        case OwnershipLost => return PermOwnershipLost;
        case NotFound => return PermNotActive;
        case NotActive => return PermNotActive;
        case _ =>
      }
      if gens[g].attemptId != Some(a) {
        return PermConflict;
      }
      if gens[g].submission != NotStarted {
        return RediscoverOnly;
      }
      if gens[g].submissionJson.None? {
        return PermConflict;
      }
      gens := gens[g := gens[g].(submission := SubmissionPossible, submissionPossibleAt := Some(now),
                                 heartbeatAt := Some(now))];
      return MayPost;
    }

    /** The job is recorded for good, or nothing is. */
    method ConfirmOwnedSubmission(w: WorkerId, g: GenId, a: AttemptId, job: PromptId, handle: string)
      returns (r: Mutation)
      modifies this`gens
      ensures r != Ok ==> Value() == old(Value())
      ensures r == Ok ==> SubmissionFinal(Value(), g) && gens[g].jobId == Some(job) && gens[g].handleJson == Some(handle)
      ensures (Value(), r) == ConfirmSubmission(old(Value()), w, g, a, job, handle)
    {
      ConfirmationIsFinal(Value(), w, g, a, job, handle);
      r := FencedCheck(w, g);
      if r != Ok {
        return;
      }
      if gens[g].attemptId != Some(a) || gens[g].submission != SubmissionPossible {
        return StateConflict;
      }
      gens := gens[g := gens[g].(submission := Confirmed, jobId := Some(job), handleJson := Some(handle),
                                 heartbeatAt := Some(now))];
    }

    /** The attempt is given up for good, or nothing changed. */
    method MarkSubmissionUncertain(w: WorkerId, g: GenId, a: AttemptId) returns (r: Mutation)
      modifies this`gens
      ensures r != Ok ==> Value() == old(Value())
      ensures r == Ok ==> SubmissionFinal(Value(), g) && gens[g].submission == Uncertain
      ensures (Value(), r) == MarkUncertain(old(Value()), w, g, a)
    {
      UncertaintyIsFinal(Value(), w, g, a);
      r := FencedCheck(w, g);
      if r != Ok {
        return;
      }
      if gens[g].attemptId != Some(a) || gens[g].submission != SubmissionPossible {
        return StateConflict;
      }
      gens := gens[g := gens[g].(submission := Uncertain, heartbeatAt := Some(now))];
    }

    /** The mark is there, with an intent, and stays with its time for good. */
    method SelectOwnedSoftCancel(w: WorkerId, g: GenId) returns (c: SoftChoice)
      modifies this`gens
      ensures c != Selected ==> Value() == old(Value())
      ensures c == Selected ==>
                && g in old(gens) && g in gens
                && gens == old(gens)[g := old(gens)[g].(softCancelSelectedAt := gens[g].softCancelSelectedAt)]
                && (ChecksHold(old(gens)[g]) ==> MarkFinal(Value(), g))
      ensures (Value(), c) == SelectSoftCancel(old(Value()), w, g)
    {
      if g in gens && ChecksHold(gens[g]) {
        SelectionIsOneWay(Value(), w, g);
      }
      var r := FencedCheck(w, g);
      if r != Ok {
        return AuthorityGone;
      }
      if gens[g].softCancelSelectedAt.Some? {
        return Selected;
      }
      if gens[g].cancelRequestedAt.None? {
        return IntentMissing;
      }
      gens := gens[g := gens[g].(softCancelSelectedAt := Some(now))];
      return Selected;
    }

    /** What the user is told stays true: cancelled means never submitted, requested
        means never forgotten, refused means untouched. */
    method CancelGeneration(g: GenId) returns (c: CancelReply)
      modifies this`gens
      ensures c == NotCancellable || c == NoSuchGeneration ==> Value() == old(Value())
      ensures c == CancelledNow <==> Unsubmitted(old(Value()), g)
      ensures c == CancelledNow ==> gens == old(gens)[g := old(gens)[g].(status := Cancelled)] && NeverPermits(Value(), g)
      ensures c == IntentPersisted ==>
                && g in old(gens) && g in gens && gens[g].status == old(gens)[g].status && IntentFinal(Value(), g)
      ensures (Value(), c) == UserCancel(old(Value()), g)
    {
      CancelReplyHolds(Value(), g);
      if g !in gens {
        return NoSuchGeneration;
      }
      var row := gens[g];
      if row.status == Importing || Terminal(row.status) {
        return NotCancellable;
      }
      if row.status == Queued {
        gens := gens[g := row.(status := Cancelled)];
        return CancelledNow;
      }
      if row.status == Preparing && row.jobId.None? && row.submission == NotStarted {
        gens := gens[g := row.(status := Cancelled)];
        return CancelledNow;
      }
      gens := gens[g := row.(cancelRequestedAt := Some(now))];
      return IntentPersisted;
    }

    /** One publication unit: the Take exists for good, and was minted here exactly if
        it did not exist; a refusal by the fence changes nothing. */
    method PublishOutputOnce(w: WorkerId, g: GenId, a: AttemptId, key: string) returns (p: Publication)
      modifies this`gens
      ensures p == NotFenced ==> Value() == old(Value())
      ensures p != NotFenced ==> TakeFinal(Value(), g, key)
      ensures p == Minted <==> PublicationFence(old(Value()), w, g, a) && !HasTake(old(Value()), g, key)
      ensures (Value(), p) == PublishOutput(old(Value()), w, g, a, key)
    {
      PublicationConverges(Value(), w, g, a, key);
      var r := FencedCheck(w, g);
      if r != Ok || gens[g].attemptId != Some(a) || gens[g].status != Importing {
        return NotFenced;
      }
      if key in gens[g].takes {
        return Converged;
      }
      gens := gens[g := gens[g].(takes := gens[g].takes + {key})];
      return Minted;
    }
  }
}
