/** What holds in every behaviour of the worker protocol. */
module ProtocolTheorems {
  import opened Wrappers
  import opened Ownership
  import opened Rediscovery
  import opened Protocol
  import opened ProtocolInvariant
  import opened ProtocolSteps
  import opened ProtocolHistory

  /** Some action of a worker, a user or the executor takes s to t. */
  ghost predicate Moves(s: Sys, t: Sys) { exists a :: t == Step(s, a) }

  /** The states of a run from the empty store on, each one action after the last. */
  ghost predicate Behaviour(b: seq<Sys>) {
    && b != [] && b[0] == Init
    && forall i, j {:trigger Moves(b[i], b[j])} | 0 <= i && j == i + 1 && j < |b| :: Moves(b[i], b[j])
  }

  lemma {:induction false} StatesAreOk(b: seq<Sys>, i: nat)
    requires Behaviour(b) && i < |b|
    ensures Inv(b[i])
    decreases i
  {
    hide Inv, Step;
    if i == 0 {
      InitOk();
    } else {
      StatesAreOk(b, i - 1);
      assert Moves(b[i - 1], b[i]);
      var a :| b[i] == Step(b[i - 1], a);
      StepKeeps(b[i - 1], a);
    }
  }

  /** A later state only adds to an earlier one. */
  lemma {:induction false} StatesFollow(b: seq<Sys>, i: nat, j: nat)
    requires Behaviour(b) && i <= j < |b|
    ensures Follows(b[i], b[j])
    decreases j
  {
    hide Inv, Step;
    if i < j {
      StatesFollow(b, i, j - 1);
      StatesAreOk(b, j - 1);
      assert Moves(b[j - 1], b[j]);
      var a :| b[j] == Step(b[j - 1], a);
      StepFollows(b[j - 1], a);
    }
  }

  /** Behaviours and runs are the same thing: the last state of a behaviour is what
      some run leads to, and every run is such a behaviour. */
  lemma {:induction false} BehaviourIsRun(b: seq<Sys>, i: nat) returns (run: seq<Action>)
    requires Behaviour(b) && i < |b|
    ensures Run(Init, run) == b[i]
    decreases i
  {
    hide Step;
    if i == 0 {
      run := [];
    } else {
      run := BehaviourIsRun(b, i - 1);
      assert Moves(b[i - 1], b[i]);
      var a :| b[i] == Step(b[i - 1], a);
      assert (run + [a])[..|run|] == run;
      run := run + [a];
    }
  }

  lemma {:induction false} RunIsBehaviour(run: seq<Action>) returns (b: seq<Sys>)
    ensures Behaviour(b) && |b| == |run| + 1 && b[|run|] == Run(Init, run)
    ensures run != [] ==> b[|run| - 1] == Run(Init, run[..|run| - 1])
    decreases |run|
  {
    hide Step;
    if run == [] {
      b := [Init];
    } else {
      var before := RunIsBehaviour(run[..|run| - 1]);
      b := before + [Run(Init, run)];
      assert Moves(before[|before| - 1], Run(Init, run));
      forall i, j | 0 <= i && j == i + 1 && j < |b|
        ensures Moves(b[i], b[j])
      {
        if j < |before| {
          assert Moves(before[i], before[j]);
        }
      }
    }
  }

  /** The row of a generation, its log and its prompts in a state of a behaviour. */
  lemma StateRow(b: seq<Sys>, i: nat, g: GenId)
    requires Behaviour(b) && i < |b|
    ensures g in b[i].db.gens <==> g in b[i].logs
    ensures g in b[i].db.gens ==> RowOk(b[i], g)
  {
    hide Behaviour, RowOk, FrameOk;
    StatesAreOk(b, i);
  }

  /** One-shot submission, in every behaviour of any number of workers with crashes,
      takeovers and adoption: at most one POST is ever made for a generation, none
      before the permit was committed, exactly one once it is confirmed; and the
      CHECK constraints always hold. */
  lemma OneShotSubmission(b: seq<Sys>, i: nat, g: GenId)
    requires Behaviour(b) && i < |b| && g in b[i].db.gens
    ensures var s := b[i];
            && g in s.logs
            && (s.db.gens[g].submission == SubmissionPossible ==> s.db.gens[g].attemptId.Some?)
            && (s.db.gens[g].submission == Confirmed ==> s.db.gens[g].jobId.Some?)
            && (s.db.gens[g].softCancelSelectedAt.Some? ==> s.db.gens[g].cancelRequestedAt.Some?)
            && Count(s, g, Posted) <= 1
            && (s.db.gens[g].submission == NotStarted ==> Count(s, g, Posted) == 0)
            && (s.db.gens[g].submission == Confirmed ==> Count(s, g, Posted) == 1)
  {
    hide Behaviour;
    StateRow(b, i, g);
  }

  /** A confirmed generation names a prompt the executor accepted for this very
      generation and attempt, and no other prompt exists for it. */
  lemma ConfirmedNamesTheOnePrompt(b: seq<Sys>, i: nat, g: GenId)
    requires Behaviour(b) && i < |b| && g in b[i].db.gens && b[i].db.gens[g].submission == Confirmed
    ensures var s := b[i];
            && s.db.gens[g].jobId.Some? && s.db.gens[g].attemptId.Some?
            && var p := s.db.gens[g].jobId.value;
            && p in s.remote && s.remote[p] == (g, s.db.gens[g].attemptId.value)
            && forall q | q in s.remote && s.remote[q].0 == g :: q == p
  {
    hide Behaviour;
    StateRow(b, i, g);
  }

  /** A destructive remote call only ever names the generation's own persisted
      prompt: another generation's prompt is never deleted or interrupted. */
  lemma CancellationIsTargeted(b: seq<Sys>, i: nat, g: GenId, kind: CancelKind, p: PromptId)
    requires Behaviour(b) && i < |b| && g in b[i].logs && Destroyed(kind, p) in b[i].logs[g]
    ensures var s := b[i];
            g in s.db.gens && s.db.gens[g].jobId == Some(p) && p in s.remote && s.remote[p].0 == g
  {
    hide Behaviour;
    StateRow(b, i, g);
  }

  /** What a drive reports is what the row says, for ever after; the one exception
      is the report that reconcile_cancellation leaves unrecorded. */
  lemma ReportedStatusIsRecorded(b: seq<Sys>, i: nat, j: nat, g: GenId, st: Status)
    requires Behaviour(b) && i <= j < |b| && g in b[i].logs && Returned(st) in b[i].logs[g]
    ensures g in b[j].db.gens && b[j].db.gens[g].status == st && Terminal(st)
  {
    hide Behaviour;
    StateRow(b, i, g);
    StatesFollow(b, i, j);
  }

  lemma {:induction false} AtMostOnce(l: seq<Event>, e: Event)
    requires forall i, j | 0 <= i < j < |l| && l[i] == e :: l[i] != l[j]
    ensures multiset(l)[e] <= 1
  {
    if l != [] {
      var n := |l| - 1;
      AtMostOnce(l[..n], e);
      assert l == l[..n] + [l[n]];
      if l[n] == e {
        assert e !in l[..n];
      }
    }
  }

  /** The invariant failures the pipeline guards against cannot arise: a drive
      never loses the payload of a fresh attempt, never finds a confirmed row
      without its job, never selects soft cancel without an intent, and truthful
      evidence never shows two prompts.  A refused handle can only mean that a
      successor already declared the attempt uncertain. */
  lemma InternalFaultsAreUnreachable(b: seq<Sys>, i: nat, k: Key)
    requires Behaviour(b) && i < |b| && k in b[i].frames && b[i].frames[k].pc.Raising?
    ensures var s, fault := b[i], b[i].frames[k].pc.fault;
            && fault != OrderingBug && fault != MissingJob && fault != IntentBug
            && fault != DuplicateAttemptFault && fault != EvidenceFault
            && (fault == HandleConflict ==> k.1 in s.db.gens && s.db.gens[k.1].submission == Uncertain)
  {
    hide Behaviour, Inv, RowOk;
    StatesAreOk(b, i);
    FrameHasRow(b[i], k);
  }

  /** Adoption changes only the owner: once confirmed, no later state has another
      attempt, other submission bytes or hash, another job or another handle. */
  lemma ConfirmedIsFrozen(b: seq<Sys>, i: nat, j: nat, g: GenId)
    requires Behaviour(b) && i <= j < |b| && g in b[i].db.gens && b[i].db.gens[g].submission == Confirmed
    ensures g in b[j].db.gens
            && var r, r' := b[i].db.gens[g], b[j].db.gens[g];
            && r'.submission == Confirmed && r'.attemptId == r.attemptId
            && r'.submissionJson == r.submissionJson && r'.submissionHash == r.submissionHash
            && r'.jobId == r.jobId && r'.handleJson == r.handleJson
  {
    hide Behaviour;
    StateRow(b, i, g);
    StatesFollow(b, i, j);
  }

  /** A terminal row never changes again, not even its owner. */
  lemma TerminalIsFinal(b: seq<Sys>, i: nat, j: nat, g: GenId)
    requires Behaviour(b) && i <= j < |b| && g in b[i].db.gens && Terminal(b[i].db.gens[g].status)
    ensures g in b[j].db.gens && b[j].db.gens[g] == b[i].db.gens[g]
  {
    hide Behaviour;
    StatesFollow(b, i, j);
  }

  /** Soft cancel implies the intent, is never undone, and from its selection on no
      later state has published anything more, whoever adopts the generation. */
  lemma SoftCancelIsFinal(b: seq<Sys>, i: nat, j: nat, g: GenId)
    requires Behaviour(b) && i <= j < |b| && g in b[i].db.gens && b[i].db.gens[g].softCancelSelectedAt.Some?
    ensures var s, s' := b[i], b[j];
            && g in s.logs && g in s'.db.gens && g in s'.logs && s.logs[g] <= s'.logs[g]
            && s'.db.gens[g].softCancelSelectedAt == s.db.gens[g].softCancelSelectedAt
            && s'.db.gens[g].cancelRequestedAt.Some?
            && forall n | |s.logs[g]| <= n < |s'.logs[g]| :: !s'.logs[g][n].Published?
  {
    hide Behaviour;
    StatesFollow(b, i, j);
    StateRow(b, i, g);
    StateRow(b, j, g);
    SelectedEarlier(b[i].logs[g], b[j].logs[g], b[i].db.gens[g], b[j].db.gens[g]);
  }

  lemma SelectedEarlier(l: seq<Event>, l': seq<Event>, r: Row, r': Row)
    requires LogOk(l, r) && LogOk(l', r') && l <= l' && r.softCancelSelectedAt.Some?
    ensures forall i | |l| <= i < |l'| :: !l'[i].Published?
  {}
}
