/** The inductive invariant of the worker protocol, and its preservation. */
module ProtocolInvariant {
  import opened Wrappers
  import opened Ownership
  import opened Rediscovery
  import opened Protocol

  /** The frame still owns its row: no other worker has adopted it. */
  predicate Owns(s: Sys, k: Key) {
    k.1 in s.db.gens && s.db.gens[k.1].workerId == Some(k.0)
  }

  /** The unspent one-shot right to POST. */
  predicate HoldsPermit(pc: Pc) { pc.Permitted? || pc.Refreshed? || pc.Cleared? }

  /** The prompt a frame works on once the submission is confirmed. */
  function KnownPrompt(pc: Pc): Option<PromptId> {
    match pc
    case Loaded(job) => job
    case CheckPreparing(p) => Some(p)
    case MarkSubmitted(p) => Some(p)
    case CheckIntent(p) => Some(p)
    case Observing(p) => Some(p)
    case ProgressStep(p) => Some(p)
    case RunningStep(p) => Some(p)
    case Reconciling(p) => Some(p)
    case SoftCheck(p, _) => Some(p)
    case SelectingSoft(p) => Some(p)
    case ProvingAuthority(p, _) => Some(p)
    case Destroying(p, _) => Some(p)
    case LateObserve(p) => Some(p)
    case Resolved(p, _) => Some(p)
    case FetchingHistory(p) => Some(p)
    case EnterImporting(p) => Some(p)
    case Staging(p) => Some(p)
    case Publishing(p, _) => Some(p)
    case _ => None
  }

  function Candidate(pc: Pc): Option<PromptId> {
    match pc
    case Confirming(p) => Some(p)
    case ConflictRead(p) => Some(p)
    case _ => None
  }

  /** Points reached only after seeing that no soft cancel was selected. */
  predicate PastSoftCheck(pc: Pc) {
    pc.Observing? || pc.Resolved? || pc.FetchingHistory? || pc.EnterImporting? || pc.Staging? || pc.Publishing?
  }

  ghost predicate FrameOk(s: Sys, k: Key, f: Frame) {
    && k.1 in s.db.gens && k.1 in s.logs && k.0 in s.everHeld
    && var row := s.db.gens[k.1];
    && row.attemptId == Some(f.attempt)
    && (Held(s, k.0) ==> Owns(s, k))
    && (Owns(s, k) && row.jobId.Some? ==> !Terminal(row.status))
    && (HoldsPermit(f.pc) ==> row.submission != NotStarted && Count(s, k.1, Posted) == 0)
    && (HoldsPermit(f.pc) && !f.pc.Cleared? && row.submission != SubmissionPossible ==> !Owns(s, k))
    && (f.pc == Loaded(None) && row.submission == Confirmed ==> !Owns(s, k))
    && (f.pc == PreSubmit(false) ==> row.submission != NotStarted)
    && (f.pc.Marking? ==> row.submissionJson.Some?)
    && (KnownPrompt(f.pc).Some? ==> row.jobId == KnownPrompt(f.pc))
    && (Candidate(f.pc).Some? ==>
          Candidate(f.pc).value in s.remote && s.remote[Candidate(f.pc).value] == (k.1, f.attempt))
    && (f.pc.ConflictRead? ==> row.submission == Confirmed || row.submission == Uncertain)
    && (PastSoftCheck(f.pc) && Owns(s, k) ==> row.softCancelSelectedAt.None?)
    && (f.pc.Finishing? ==> Terminal(f.pc.status))
    && (f.pc.SelectingSoft? || f.pc.Reconciling? ==> row.cancelRequestedAt.Some?)
    && (f.pc.Raising? ==>
          && f.pc.fault != OrderingBug && f.pc.fault != MissingJob && f.pc.fault != IntentBug
          && f.pc.fault != DuplicateAttemptFault && f.pc.fault != EvidenceFault
          && (f.pc.fault == HandleConflict ==> row.submission == Uncertain))
  }

  ghost predicate RowShape(r: Row) {
    && ChecksHold(r)
    && (r.submission == Confirmed <==> r.jobId.Some?)
    && (r.jobId.Some? <==> r.handleJson.Some?)
    && (r.softCancelSelectedAt.Some? ==> r.jobId.Some?)
    && (r.status == Queued ==> r.attemptId.None?)
    && (r.attemptId.None? ==>
          (r.status == Queued || r.status == Cancelled)
          && r.submission == NotStarted && r.workerId.None?
          && r.softCancelSelectedAt.None? && r.cancelRequestedAt.None?)
    && (r.attemptId.Some? ==> r.workerId.Some?)
  }

  ghost predicate PostsOk(s: Sys, g: GenId)
    requires g in s.db.gens && g in s.logs
  {
    var r := s.db.gens[g];
    && Count(s, g, Posted) <= 1
    && (r.submission == NotStarted ==> Count(s, g, Posted) == 0)
    && (r.submission == Confirmed ==> r.jobId.Some? && r.jobId.value in s.remote && s.remote[r.jobId.value].0 == g)
    && (forall p | p in s.remote && s.remote[p].0 == g ::
          Count(s, g, Posted) == 1 && Some(s.remote[p].1) == r.attemptId)
    && (forall p, q | p in s.remote && q in s.remote && s.remote[p].0 == g && s.remote[q].0 == g :: p == q)
  }

  ghost predicate LogOk(l: seq<Event>, r: Row) {
    && (SoftSelected in l <==> r.softCancelSelectedAt.Some?)
    && (forall i | 0 <= i < |l| && l[i].Returned? :: l[i].status == r.status && Terminal(r.status))
    && (forall i, j | 0 <= i < j < |l| && l[i] == SoftSelected :: !l[j].Published?)
    && (forall i | 0 <= i < |l| && l[i].Destroyed? :: r.jobId == Some(l[i].prompt))
    && (forall key :: Published(key) in l <==> key in r.takes)
    && (forall i, j | 0 <= i < j < |l| && l[i].Published? :: l[i] != l[j])
  }

  ghost predicate RowOk(s: Sys, g: GenId)
    requires g in s.db.gens && g in s.logs
  {
    RowShape(s.db.gens[g]) && PostsOk(s, g) && LogOk(s.logs[g], s.db.gens[g])
  }

  ghost predicate OnePermit(s: Sys) {
    forall k, k' | k in s.frames && k' in s.frames && k.1 == k'.1
                   && HoldsPermit(s.frames[k].pc) && HoldsPermit(s.frames[k'].pc) :: k == k'
  }

  ghost predicate Inv(s: Sys) {
    && s.logs.Keys == s.db.gens.Keys
    && (s.db.lease.Some? ==> s.db.lease.value.workerId in s.everHeld)
    && (forall p | p in s.remote :: s.remote[p].0 in s.db.gens)
    && (forall g | g in s.db.gens :: RowOk(s, g))
    && (forall k | k in s.frames :: FrameOk(s, k, s.frames[k]))
    && OnePermit(s)
  }

  // ---------------------------------------------------- one frame moves at a time

  /** What one step may do to the row it works on, seen from the other frames:
      the attempt is fixed, and submission, job, artifact and intent only grow. */
  predicate Grows(r: Row, r': Row) {
    && r'.attemptId == r.attemptId && r'.outputs == r.outputs && r.takes <= r'.takes
    && (r.submission != NotStarted ==> r'.submission != NotStarted)
    && (r.submission == Confirmed || r.submission == Uncertain ==> r'.submission == r.submission)
    && (r.submissionJson.Some? ==> r'.submissionJson.Some?)
    && (r.jobId.Some? ==> r'.jobId == r.jobId)
    && (r.cancelRequestedAt.Some? ==> r'.cancelRequestedAt.Some?)
  }

  /** The same row as far as frames that own it look. */
  predicate SameView(r: Row, r': Row) {
    && r'.workerId == r.workerId && r'.submission == r.submission
    && r'.softCancelSelectedAt == r.softCancelSelectedAt && r'.jobId == r.jobId
    && (Terminal(r'.status) ==> Terminal(r.status) || r'.jobId.None?)
  }

  /** s' differs from s in one generation, as Grows says, and in no other way that
      a frame of another generation could see. */
  ghost predicate OneRow(s: Sys, s': Sys, g: GenId) {
    && g in s.db.gens && g in s.logs
    && s'.everHeld == s.everHeld && Holder(s'.db) == Holder(s.db)
    && s'.db.gens.Keys == s.db.gens.Keys && s'.logs.Keys == s.logs.Keys
    && (forall h | h in s.db.gens && h != g :: s'.db.gens[h] == s.db.gens[h])
    && (forall h | h in s.logs && h != g :: s'.logs[h] == s.logs[h])
    && (forall p | p in s.remote :: p in s'.remote && s'.remote[p] == s.remote[p])
    && (forall p | p in s'.remote && p !in s.remote :: s'.remote[p].0 == g)
    && Grows(s.db.gens[g], s'.db.gens[g])
  }

  /** A frame other than the mover stays good. */
  lemma OtherFrame(s: Sys, s': Sys, g: GenId, k: Key)
    requires Inv(s) && k in s.frames && OneRow(s, s', g)
    requires k.1 == g ==>
               || SameView(s.db.gens[g], s'.db.gens[g])
               || (!Owns(s, k) && !Owns(s', k))
    requires k.1 == g && HoldsPermit(s.frames[k].pc) ==> Count(s', g, Posted) == Count(s, g, Posted)
    ensures FrameOk(s', k, s.frames[k])
  {
    hide Inv, RowOk;
    FrameHasRow(s, k);
  }

  lemma OtherRow(s: Sys, s': Sys, g: GenId, h: GenId)
    requires Inv(s) && OneRow(s, s', g) && h in s.db.gens && h != g
    ensures RowOk(s', h)
  {}

  /** A step of frame k: its row and its new frame are good, and either the row
      looks the same to the other frames or the mover owned it (so none of them did). */
  ghost predicate FrameStep(s: Sys, s': Sys, k: Key) {
    && k in s.frames && OneRow(s, s', k.1)
    && s'.frames.Keys <= s.frames.Keys
    && (forall j | j in s'.frames && j != k :: s'.frames[j] == s.frames[j])
    && (k in s'.frames ==> FrameOk(s', k, s'.frames[k]))
    && (k in s'.frames && HoldsPermit(s'.frames[k].pc) ==>
          HoldsPermit(s.frames[k].pc) || s.db.gens[k.1].submission == NotStarted)
    && (SameView(s.db.gens[k.1], s'.db.gens[k.1]) || (Owns(s, k) && Owns(s', k)))
    && (Count(s', k.1, Posted) != Count(s, k.1, Posted) ==> HoldsPermit(s.frames[k].pc))
    && RowOk(s', k.1)
  }

  lemma FrameHasRow(s: Sys, k: Key)
    requires Inv(s) && k in s.frames
    ensures k.1 in s.db.gens && k.1 in s.logs && RowOk(s, k.1) && FrameOk(s, k, s.frames[k])
  {
    assert FrameOk(s, k, s.frames[k]);
  }

  lemma PermitMeansStarted(s: Sys, k: Key)
    requires Inv(s) && k in s.frames && HoldsPermit(s.frames[k].pc)
    ensures k.1 in s.db.gens && s.db.gens[k.1].submission != NotStarted
  {
    assert FrameOk(s, k, s.frames[k]);
  }

  lemma StepKeepsFrame(s: Sys, s': Sys, k: Key, j: Key)
    requires Inv(s) && FrameStep(s, s', k) && j in s'.frames
    ensures FrameOk(s', j, s'.frames[j])
  {
    if j != k {
      OtherFrame(s, s', k.1, j);
    }
  }

  lemma StepKeepsPermit(s: Sys, s': Sys, k: Key)
    requires Inv(s) && FrameStep(s, s', k)
    ensures OnePermit(s')
  {
    hide FrameOk, RowOk, Grows, SameView;
    forall i | i in s.frames && HoldsPermit(s.frames[i].pc)
      ensures i.1 in s.db.gens && s.db.gens[i.1].submission != NotStarted
    {
      PermitMeansStarted(s, i);
    }
  }

  /** The frame rule of the whole proof. */
  lemma StepOfFrame(s: Sys, s': Sys, k: Key)
    requires Inv(s) && FrameStep(s, s', k)
    ensures Inv(s')
  {
    hide FrameOk, RowOk;
    forall j | j in s'.frames
      ensures FrameOk(s', j, s'.frames[j])
    {
      StepKeepsFrame(s, s', k, j);
    }
    forall h | h in s'.db.gens
      ensures RowOk(s', h)
    {
      if h != k.1 {
        OtherRow(s, s', k.1, h);
      }
    }
    StepKeepsPermit(s, s', k);
  }

  /** RowOk and FrameOk read only the rows, the holder, the logs and the prompts. */
  ghost predicate SameStore(s: Sys, s': Sys) {
    && s'.db.gens == s.db.gens && Holder(s'.db) == Holder(s.db)
    && s'.everHeld == s.everHeld && s'.remote == s.remote && s'.logs == s.logs
  }

  lemma SameRowOk(s: Sys, s': Sys, g: GenId)
    requires SameStore(s, s') && g in s.db.gens && g in s.logs && RowOk(s, g)
    ensures RowOk(s', g)
  {}

  lemma SameFrameOk(s: Sys, s': Sys, k: Key, f: Frame)
    requires SameStore(s, s') && FrameOk(s, k, f)
    ensures FrameOk(s', k, f)
  {}

  /** A step that only moves the program counter (and perhaps the lease clock). */
  lemma MoveIsStep(s: Sys, s': Sys, k: Key, f: Frame)
    requires Inv(s) && k in s.frames && SameStore(s, s') && s'.frames == s.frames[k := f]
    requires FrameOk(s, k, f)
    requires HoldsPermit(f.pc) ==> HoldsPermit(s.frames[k].pc)
    ensures FrameStep(s, s', k)
  {
    hide FrameOk, RowOk;
    FrameHasRow(s, k);
    SameRowOk(s, s', k.1);
    SameFrameOk(s, s', k, f);
  }

  lemma Move(s: Sys, s': Sys, k: Key, f: Frame)
    requires Inv(s) && k in s.frames && SameStore(s, s') && s'.frames == s.frames[k := f]
    requires FrameOk(s, k, f)
    requires HoldsPermit(f.pc) ==> HoldsPermit(s.frames[k].pc)
    ensures Inv(s')
  {
    hide *;
    MoveIsStep(s, s', k, f);
    StepOfFrame(s, s', k);
  }

  /** A committed fenced write of the owner that leaves the log alone. */
  lemma WriteIsStep(s: Sys, s': Sys, k: Key, r: Row, f: Frame)
    requires Inv(s) && k in s.frames && Fence(s.db, k.0, k.1) == Ok
    requires s' == s.(db := PutRow(s.db, k.1, r), frames := s.frames[k := f])
    requires Grows(s.db.gens[k.1], r) && r.workerId == s.db.gens[k.1].workerId
    requires r.softCancelSelectedAt == s.db.gens[k.1].softCancelSelectedAt && r.takes == s.db.gens[k.1].takes
    requires k.1 in s.logs && RowShape(r) && PostsOk(s', k.1) && FrameOk(s', k, f)
    requires HoldsPermit(f.pc) ==> HoldsPermit(s.frames[k].pc) || s.db.gens[k.1].submission == NotStarted
    ensures FrameStep(s, s', k)
  {
    hide FrameOk, RowOk, RowShape, PostsOk, Grows;
    RowWritten(s, s', k.1, r);
  }

  lemma Write(s: Sys, s': Sys, k: Key, r: Row, f: Frame)
    requires Inv(s) && k in s.frames && Fence(s.db, k.0, k.1) == Ok
    requires s' == s.(db := PutRow(s.db, k.1, r), frames := s.frames[k := f])
    requires Grows(s.db.gens[k.1], r) && r.workerId == s.db.gens[k.1].workerId
    requires r.softCancelSelectedAt == s.db.gens[k.1].softCancelSelectedAt && r.takes == s.db.gens[k.1].takes
    requires k.1 in s.logs && RowShape(r) && PostsOk(s', k.1) && FrameOk(s', k, f)
    requires HoldsPermit(f.pc) ==> HoldsPermit(s.frames[k].pc) || s.db.gens[k.1].submission == NotStarted
    ensures Inv(s')
  {
    hide *;
    WriteIsStep(s, s', k, r, f);
    StepOfFrame(s, s', k);
  }

  lemma RowHere(s: Sys, g: GenId)
    requires Inv(s) && g in s.db.gens
    ensures g in s.logs && RowOk(s, g)
  {}

  /** An active row's log says nothing that a later row could contradict. */
  lemma LogWritten(l: seq<Event>, before: Row, r: Row)
    requires LogOk(l, before) && !Terminal(before.status) && Grows(before, r)
    requires r.softCancelSelectedAt == before.softCancelSelectedAt && r.takes == before.takes
    ensures LogOk(l, r)
  {}

  lemma RowWritten(s: Sys, s': Sys, g: GenId, r: Row)
    requires Inv(s) && OneRow(s, s', g) && s'.db.gens[g] == r && s'.logs == s.logs
    requires !Terminal(s.db.gens[g].status) && RowShape(r) && PostsOk(s', g)
    requires r.softCancelSelectedAt == s.db.gens[g].softCancelSelectedAt && r.takes == s.db.gens[g].takes
    ensures RowOk(s', g)
  {
    hide Inv, RowShape, PostsOk, LogOk, Grows;
    RowHere(s, g);
    LogWritten(s.logs[g], s.db.gens[g], r);
  }
}
