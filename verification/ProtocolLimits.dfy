/**
 Where the protocol falls short of what its documentation says: for each claim,
 a run that breaks it and the exact condition under which it holds.
 */
module ProtocolLimits {
  import opened Wrappers
  import opened Ownership
  import opened Rediscovery
  import opened Protocol
  import opened ProtocolInvariant
  import opened ProtocolSteps
  import opened ProtocolHistory
  import opened ProtocolEffects

  lemma RunSnoc(s: Sys, run: seq<Action>, a: Action)
    ensures Run(s, run + [a]) == Step(Run(s, run), a)
  {}

  lemma {:induction false} RunConcat(s: Sys, run: seq<Action>, more: seq<Action>)
    ensures Run(s, run + more) == Run(Run(s, run), more)
    decreases |more|
  {
    hide Step;
    if more == [] {
      assert run + more == run;
    } else {
      var n := |more| - 1;
      RunConcat(s, run, more[..n]);
      assert run + more == (run + more[..n]) + [more[n]];
      RunSnoc(s, run + more[..n], more[n]);
    }
  }

  // --------------------------------------------- "uncertain: POST forbidden"

  /** No drive stands between its last authority proof and its POST. */
  predicate NoneCleared(s: Sys, g: GenId) {
    forall k | k in s.frames && k.1 == g :: !s.frames[k].pc.Cleared?
  }

  ghost predicate NoPostFollows(s: Sys, g: GenId)
    requires g in s.logs
  {
    forall more: seq<Action> :: g in Run(s, more).logs && Count(Run(s, more), g, Posted) == Count(s, g, Posted)
  }

  /** An uncertain generation with no drive at its POST. */
  ghost predicate Settled(s: Sys, g: GenId) {
    g in s.db.gens && g in s.logs && s.db.gens[g].submission == Uncertain && NoneCleared(s, g)
  }

  lemma AdvanceSettled(s: Sys, k: Key, ans: Answer, g: GenId)
    requires Inv(s) && k in s.frames && k.1 in s.db.gens && k.1 in s.logs && Settled(s, g)
    ensures NoneCleared(AdvanceFrame(s, k, ans), g)
    ensures g in AdvanceFrame(s, k, ans).logs && Count(AdvanceFrame(s, k, ans), g, Posted) == Count(s, g, Posted)
  {
    hide Inv, AdvanceFrame;
    FrameHasRow(s, k);
    AdvanceIsLocal(s, k, ans);
    hide FrameOk, RowOk, RowsFenced;
    AdvancePostsNothing(s, k, ans, g);
  }

  lemma AdvancePostsNothing(s: Sys, k: Key, ans: Answer, g: GenId)
    requires k in s.frames && k.1 in s.db.gens && k.1 in s.logs && g in s.logs
    requires k.1 == g ==> !s.frames[k].pc.Cleared?
    ensures g in AdvanceFrame(s, k, ans).logs && Count(AdvanceFrame(s, k, ans), g, Posted) == Count(s, g, Posted)
  {
    hide AdvanceFrame;
    AdvanceIsLocal(s, k, ans);
    hide RowsFenced, Earned;
    var l, l' := s.logs[k.1], AdvanceFrame(s, k, ans).logs[k.1];
    if l' != l {
      assert l' == l + [l'[|l|]];
    }
  }

  lemma StaysUncertain(s: Sys, s': Sys, g: GenId)
    requires Follows(s, s') && g in s.db.gens && s.db.gens[g].submission == Uncertain
    ensures g in s'.db.gens && s'.db.gens[g].submission == Uncertain
  {}

  lemma StepSettled(s: Sys, a: Action, g: GenId)
    requires Inv(s) && Settled(s, g)
    ensures Settled(Step(s, a), g) && Count(Step(s, a), g, Posted) == Count(s, g, Posted)
  {
    hide Inv, AdvanceFrame, Follows, Credible, RefreshLease, AcquireLease, UserCancel, Ownership.Adopt, Requeue, Claim;
    StepFollows(s, a);
    StaysUncertain(s, Step(s, a), g);
    match a {
      case Advance(w, h, ans) =>
        if (w, h) in s.frames && h in s.db.gens && h in s.logs {
          AdvanceSettled(s, (w, h), ans, g);
        }
      case _ =>
    }
  }

  lemma {:induction false} RunSettled(s: Sys, more: seq<Action>, g: GenId)
    requires Inv(s) && Settled(s, g)
    ensures Settled(Run(s, more), g) && Count(Run(s, more), g, Posted) == Count(s, g, Posted)
    decreases |more|
  {
    hide Inv, Step, Settled;
    if more != [] {
      var before := more[..|more| - 1];
      RunSettled(s, before, g);
      RunKeeps(s, before);
      StepSettled(Run(s, before), more[|more| - 1], g);
    }
  }

  lemma ClearedCanPost(s: Sys, k: Key)
    requires k in s.frames && k.1 in s.db.gens && k.1 in s.logs && s.frames[k].pc.Cleared?
    ensures var s' := Step(s, Advance(k.0, k.1, PostAmbiguous(None)));
            k.1 in s'.logs && Count(s', k.1, Posted) == Count(s, k.1, Posted) + 1
  {
    hide AdvanceLoad, AdvanceResolve, AdvanceObserve, AdvanceCancel, AdvanceFinish;
  }

  /** After "uncertain" no POST can follow exactly when no drive stands between its
      last authority proof and its POST.  The durable state alone does not forbid
      it: see PostAfterUncertain. */
  lemma UncertainForbidsPosts(run: seq<Action>, g: GenId)
    ensures var s := Run(Init, run);
            g in s.db.gens && s.db.gens[g].submission == Uncertain ==>
              g in s.logs && (NoPostFollows(s, g) <==> NoneCleared(s, g))
  {
    hide Inv, Step;
    Reachable(run);
    var s := Run(Init, run);
    if g in s.db.gens && s.db.gens[g].submission == Uncertain {
      RowOfInv(s, g);
      if NoneCleared(s, g) {
        forall more: seq<Action>
          ensures g in Run(s, more).logs && Count(Run(s, more), g, Posted) == Count(s, g, Posted)
        {
          RunSettled(s, more, g);
        }
      } else {
        var k :| k in s.frames && k.1 == g && s.frames[k].pc.Cleared?;
        ClearedCanPost(s, k);
        var post := Advance(k.0, g, PostAmbiguous(None));
        assert Run(s, []) == s;
        RunSnoc(s, [], post);
        assert [] + [post] == [post];
        assert Count(Run(s, [post]), g, Posted) != Count(s, g, Posted);
      }
    }
  }
}
