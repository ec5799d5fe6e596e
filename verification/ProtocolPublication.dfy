/**
 Publication is complete and unique: a generation is recorded as succeeded only with
 one Take for each output its captured contract declares, and no other.
 */
module ProtocolPublication {
  import opened Wrappers
  import opened Ownership
  import opened Rediscovery
  import opened Protocol
  import opened ProtocolInvariant
  import opened ProtocolSteps
  import opened ProtocolHistory
  import opened ProtocolEffects
  import opened ProtocolTheorems

  /** Every declared output has its Take, or is among those still to be done. */
  predicate Covered(r: Row, todo: seq<string>) {
    forall key | key in r.outputs :: key in r.takes || key in todo
  }

  /** Where a drive stands with the outputs of its row. */
  ghost predicate FrameCovers(r: Row, f: Frame) {
    && (f.pc.Publishing? ==> Covered(r, f.pc.todo) && forall key | key in f.pc.todo :: key in r.outputs)
    && (f.pc == Finishing(Succeeded) ==> Covered(r, []))
  }

  /** Takes are declared ones, and a succeeded row has them all. */
  predicate RowCovers(r: Row) {
    && (forall key | key in r.takes :: key in r.outputs)
    && (r.status == Succeeded ==> Covered(r, []))
  }

  ghost predicate Complete(s: Sys) {
    && (forall g | g in s.db.gens :: RowCovers(s.db.gens[g]))
    && (forall k | k in s.frames && k.1 in s.db.gens :: FrameCovers(s.db.gens[k.1], s.frames[k]))
  }

  // --------------------------------------------------------- one drive at a time

  /** A step of drive k that neither publishes nor ends in success. */
  ghost predicate Mute(s: Sys, s': Sys, k: Key) {
    && k.1 in s.db.gens && k.1 in s'.db.gens
    && (k in s'.frames ==> !s'.frames[k].pc.Publishing? && s'.frames[k].pc != Finishing(Succeeded))
    && var r, r' := s.db.gens[k.1], s'.db.gens[k.1];
    && r'.takes == r.takes && r'.outputs == r.outputs
    && (r'.status == Succeeded ==> r.status == Succeeded)
  }

  lemma MuteCovers(s: Sys, s': Sys, k: Key)
    requires Mute(s, s', k) && RowCovers(s.db.gens[k.1])
    ensures RowCovers(s'.db.gens[k.1])
    ensures k in s'.frames ==> FrameCovers(s'.db.gens[k.1], s'.frames[k])
  {}

  lemma LoadIsMute(s: Sys, k: Key)
    requires k in s.frames && k.1 in s.db.gens && k.1 in s.logs && !s.frames[k].pc.Publishing? && s.frames[k].pc != Finishing(Succeeded)
    ensures Mute(s, AdvanceLoad(s, k), k)
  {}

  lemma SubmitIsMute(s: Sys, k: Key, ans: Answer)
    requires k in s.frames && k.1 in s.db.gens && k.1 in s.logs && !s.frames[k].pc.Publishing? && s.frames[k].pc != Finishing(Succeeded)
    ensures Mute(s, AdvanceSubmit(s, k, ans), k)
  {}

  lemma ResolveIsMute(s: Sys, k: Key, ans: Answer)
    requires k in s.frames && k.1 in s.db.gens && k.1 in s.logs && !s.frames[k].pc.Publishing? && s.frames[k].pc != Finishing(Succeeded)
    ensures Mute(s, AdvanceResolve(s, k, ans), k)
  {}

  lemma ObserveIsMute(s: Sys, k: Key, ans: Answer)
    requires k in s.frames && k.1 in s.db.gens && k.1 in s.logs && !s.frames[k].pc.Publishing? && s.frames[k].pc != Finishing(Succeeded)
    ensures Mute(s, AdvanceObserve(s, k, ans), k)
  {}

  lemma CancelIsMute(s: Sys, k: Key, ans: Answer)
    requires k in s.frames && k.1 in s.db.gens && k.1 in s.logs && !s.frames[k].pc.Publishing? && s.frames[k].pc != Finishing(Succeeded)
    ensures Mute(s, AdvanceCancel(s, k, ans), k)
  {}

  /** The steps from the decided outcome on. */
  lemma FinishCovers(s: Sys, k: Key, ans: Answer)
    requires k in s.frames && k.1 in s.db.gens && k.1 in s.logs
    requires RowCovers(s.db.gens[k.1]) && FrameCovers(s.db.gens[k.1], s.frames[k])
    ensures var s' := AdvanceFinish(s, k, ans);
            && k.1 in s'.db.gens && RowCovers(s'.db.gens[k.1])
            && (k in s'.frames ==> FrameCovers(s'.db.gens[k.1], s'.frames[k]))
  {
    match s.frames[k].pc {
      case Staging(p) => StagedCovers(s, k, ans);
      case Publishing(p, todo) => PublishCovers(s, k, p, todo);
      case _ => OtherFinishCovers(s, k, ans);
    }
  }

  lemma StagedCovers(s: Sys, k: Key, ans: Answer)
    requires k in s.frames && k.1 in s.db.gens && k.1 in s.logs && s.frames[k].pc.Staging?
    requires RowCovers(s.db.gens[k.1])
    ensures var s' := AdvanceFinish(s, k, ans);
            && k.1 in s'.db.gens && RowCovers(s'.db.gens[k.1])
            && (k in s'.frames ==> FrameCovers(s'.db.gens[k.1], s'.frames[k]))
  {
    if ans.Staged? && multiset(ans.keys) == multiset(s.db.gens[k.1].outputs) {
      SameKeys(ans.keys, s.db.gens[k.1].outputs);
    }
  }

  lemma SameKeys(a: seq<string>, b: seq<string>)
    requires multiset(a) == multiset(b)
    ensures forall key :: key in a <==> key in b
  {
    assert forall key :: key in a <==> key in multiset(a);
    assert forall key :: key in b <==> key in multiset(b);
  }

  lemma PublishCovers(s: Sys, k: Key, p: PromptId, todo: seq<string>)
    requires k in s.frames && k.1 in s.db.gens && k.1 in s.logs && s.frames[k].pc == Publishing(p, todo)
    requires RowCovers(s.db.gens[k.1]) && FrameCovers(s.db.gens[k.1], s.frames[k])
    ensures var s' := PublishNext(s, k, p, todo);
            && k.1 in s'.db.gens && RowCovers(s'.db.gens[k.1])
            && (k in s'.frames ==> FrameCovers(s'.db.gens[k.1], s'.frames[k]))
  {
    if todo != [] {
      assert todo == [todo[0]] + todo[1..];
      var r, s' := s.db.gens[k.1], PublishNext(s, k, p, todo);
      assert k in s'.frames && s'.db.gens[k.1].outputs == r.outputs;
      assert r.takes <= s'.db.gens[k.1].takes <= r.takes + {todo[0]};
    }
  }

  lemma OtherFinishCovers(s: Sys, k: Key, ans: Answer)
    requires k in s.frames && k.1 in s.db.gens && k.1 in s.logs
    requires !s.frames[k].pc.Staging? && !s.frames[k].pc.Publishing?
    requires RowCovers(s.db.gens[k.1]) && FrameCovers(s.db.gens[k.1], s.frames[k])
    ensures var s' := AdvanceFinish(s, k, ans);
            && k.1 in s'.db.gens && RowCovers(s'.db.gens[k.1])
            && (k in s'.frames ==> FrameCovers(s'.db.gens[k.1], s'.frames[k]))
  {
    hide PublishNext;
    if s.frames[k].pc.Finishing? || s.frames[k].pc.Raising? {
      hide Guarded;
    } else {
      hide Terminalize;
    }
  }

  lemma AdvanceCovers(s: Sys, k: Key, ans: Answer)
    requires k in s.frames && k.1 in s.db.gens && k.1 in s.logs
    requires RowCovers(s.db.gens[k.1]) && FrameCovers(s.db.gens[k.1], s.frames[k])
    ensures var s' := AdvanceFrame(s, k, ans);
            && k.1 in s'.db.gens && RowCovers(s'.db.gens[k.1])
            && (k in s'.frames ==> FrameCovers(s'.db.gens[k.1], s'.frames[k]))
  {
    hide Credible, RowCovers, FrameCovers, Mute;
    hide AdvanceLoad, AdvanceSubmit, AdvanceResolve, AdvanceObserve, AdvanceCancel, AdvanceFinish;
    FinishCovers(s, k, ans);
    if !s.frames[k].pc.Publishing? && s.frames[k].pc != Finishing(Succeeded) {
      LoadIsMute(s, k);
      SubmitIsMute(s, k, ans);
      ResolveIsMute(s, k, ans);
      ObserveIsMute(s, k, ans);
      CancelIsMute(s, k, ans);
      MuteCovers(s, AdvanceLoad(s, k), k);
      MuteCovers(s, AdvanceSubmit(s, k, ans), k);
      MuteCovers(s, AdvanceResolve(s, k, ans), k);
      MuteCovers(s, AdvanceObserve(s, k, ans), k);
      MuteCovers(s, AdvanceCancel(s, k, ans), k);
    }
  }

  // --------------------------------------------------------------- every action

  /** Another drive of a row whose Takes only grew still covers it. */
  lemma OtherCovers(r: Row, r': Row, f: Frame)
    requires FrameCovers(r, f) && r'.outputs == r.outputs && r.takes <= r'.takes
    ensures FrameCovers(r', f)
  {}

  lemma AgesGrows(r: Row, r': Row)
    requires Ages(r, r')
    ensures r'.outputs == r.outputs && r.takes <= r'.takes
  {}

  lemma AdvanceComplete(s: Sys, k: Key, ans: Answer)
    requires Inv(s) && Complete(s) && k in s.frames && k.1 in s.db.gens && k.1 in s.logs
    ensures Complete(AdvanceFrame(s, k, ans))
  {
    hide Inv, AdvanceFrame, RowCovers, FrameCovers, Ages, LogsOne, Earned, RowShape;
    ShapeOf(s, k.1);
    var s' := AdvanceFrame(s, k, ans);
    AdvanceIsLocal(s, k, ans);
    AdvanceFollows(s, k, ans);
    AdvanceCovers(s, k, ans);
    forall j | j in s'.frames && j.1 in s'.db.gens
      ensures FrameCovers(s'.db.gens[j.1], s'.frames[j])
    {
      if j != k {
        FrameHasRow(s, j);
        AgesGrows(s.db.gens[j.1], s'.db.gens[j.1]);
        OtherCovers(s.db.gens[j.1], s'.db.gens[j.1], s.frames[j]);
      }
    }
  }

  /** What an action outside the drives does to a row they could see. */
  predicate Untouched(r: Row, r': Row) {
    && r'.outputs == r.outputs && r'.takes == r.takes && r'.softCancelSelectedAt == r.softCancelSelectedAt
    && (r'.status == Succeeded ==> r.status == Succeeded)
  }

  lemma UntouchedCovers(r: Row, r': Row)
    requires Untouched(r, r') && RowCovers(r)
    ensures RowCovers(r')
    ensures forall f | FrameCovers(r, f) :: FrameCovers(r', f)
  {}

  lemma NewRowCovers(r: Row)
    requires r.takes == {} && r.status != Succeeded
    ensures RowCovers(r)
  {}

  /** Claims, adoptions, cancel requests and the rest leave outputs and Takes alone. */
  lemma OtherRows(s: Sys, a: Action, g: GenId)
    requires Inv(s) && !a.Advance? && g in Step(s, a).db.gens
    ensures g in s.db.gens ==> Untouched(s.db.gens[g], Step(s, a).db.gens[g])
    ensures g !in s.db.gens ==> Step(s, a).db.gens[g].takes == {} && Step(s, a).db.gens[g].status != Succeeded
  {
    hide Inv;
    if a.RequeueStep? {
      RequeueNeverFires(s, a.w, a.g);
    }
  }

  lemma OtherFrames(s: Sys, a: Action, k: Key)
    requires !a.Advance? && k in Step(s, a).frames
    ensures (k in s.frames && Step(s, a).frames[k] == s.frames[k])
            || (!Step(s, a).frames[k].pc.Publishing? && Step(s, a).frames[k].pc != Finishing(Succeeded))
  {}

  lemma OtherComplete(s: Sys, a: Action)
    requires Inv(s) && Complete(s) && !a.Advance?
    ensures Complete(Step(s, a))
  {
    hide Inv, Step, RowCovers, Untouched, FrameCovers;
    var s' := Step(s, a);
    forall g | g in s'.db.gens
      ensures RowCovers(s'.db.gens[g])
    {
      OtherRows(s, a, g);
      if g in s.db.gens {
        UntouchedCovers(s.db.gens[g], s'.db.gens[g]);
      } else {
        NewRowCovers(s'.db.gens[g]);
      }
    }
    forall k | k in s'.frames && k.1 in s'.db.gens
      ensures FrameCovers(s'.db.gens[k.1], s'.frames[k])
    {
      OtherFrames(s, a, k);
      if k in s.frames && s'.frames[k] == s.frames[k] {
        FrameHasRow(s, k);
        OtherRows(s, a, k.1);
        UntouchedCovers(s.db.gens[k.1], s'.db.gens[k.1]);
      } else {
        IdleCovers(s'.db.gens[k.1], s'.frames[k]);
      }
    }
  }

  lemma IdleCovers(r: Row, f: Frame)
    requires !f.pc.Publishing? && f.pc != Finishing(Succeeded)
    ensures FrameCovers(r, f)
  {}

  lemma StepComplete(s: Sys, a: Action)
    requires Inv(s) && Complete(s)
    ensures Complete(Step(s, a))
  {
    hide Inv, AdvanceFrame, Complete;
    if a.Advance? {
      if (a.w, a.g) in s.frames && a.g in s.db.gens && a.g in s.logs {
        AdvanceComplete(s, (a.w, a.g), a.answer);
      }
    } else {
      OtherComplete(s, a);
    }
  }

  lemma {:induction false} StatesAreComplete(b: seq<Sys>, i: nat)
    requires Behaviour(b) && i < |b|
    ensures Complete(b[i])
    decreases i
  {
    hide Inv, Step;
    if i > 0 {
      StatesAreComplete(b, i - 1);
      StatesAreOk(b, i - 1);
      assert Moves(b[i - 1], b[i]);
      var a :| b[i] == Step(b[i - 1], a);
      hide Complete;
      StepComplete(b[i - 1], a);
    }
  }

  /** Whatever crashes, is adopted or replayed, in every state an output is published
      once if a Take for it exists and never otherwise; Takes are only of declared
      outputs; and a drive that has reported success, in this state or before, left one
      publication for each declared output. */
  lemma PublishedExactly(b: seq<Sys>, i: nat, g: GenId, key: string)
    requires Behaviour(b) && i < |b| && g in b[i].logs
    ensures g in b[i].db.gens
    ensures var r := b[i].db.gens[g];
            && Count(b[i], g, Published(key)) == (if key in r.takes then 1 else 0)
            && (key in r.takes ==> key in r.outputs)
            && (Returned(Succeeded) in b[i].logs[g] || r.status == Succeeded ==> (key in r.takes <==> key in r.outputs))
  {
    hide Behaviour;
    StateRow(b, i, g);
    StatesAreComplete(b, i);
    AtMostOnce(b[i].logs[g], Published(key));
  }

  /** Once soft cancel is selected the Takes of a generation are those it had then, so a
      generation recorded as cancelled by it holds a Take exactly if one had been minted
      when the mark was written. */
  lemma SoftCancelKeepsTakes(b: seq<Sys>, i: nat, j: nat, g: GenId)
    requires Behaviour(b) && i <= j < |b| && g in b[i].db.gens && b[i].db.gens[g].softCancelSelectedAt.Some?
    ensures g in b[j].db.gens && b[j].db.gens[g].takes == b[i].db.gens[g].takes
  {
    hide Behaviour;
    SoftCancelIsFinal(b, i, j, g);
    StateRow(b, i, g);
    StateRow(b, j, g);
    SameTakes(b[i].logs[g], b[j].logs[g], b[i].db.gens[g], b[j].db.gens[g]);
  }

  lemma SameTakes(l: seq<Event>, l': seq<Event>, r: Row, r': Row)
    requires LogOk(l, r) && LogOk(l', r') && l <= l' && forall n | |l| <= n < |l'| :: !l'[n].Published?
    ensures r'.takes == r.takes
  {
    forall key
      ensures Published(key) in l <==> Published(key) in l'
    {
      if Published(key) in l' {
        var n :| 0 <= n < |l'| && l'[n] == Published(key);
        assert l[n] == Published(key);
      }
    }
    assert forall key :: key in r.takes <==> key in r'.takes;
  }

  /** The mark is written on a row that already holds a Take exactly if its state at the
      moment of selection shows one; from the selection on that answer is final. */
  lemma SoftCancelledTakesExactly(b: seq<Sys>, i: nat, j: nat, g: GenId)
    requires Behaviour(b) && i + 1 <= j < |b| && g in b[i].db.gens && g in b[i + 1].db.gens
    requires b[i].db.gens[g].softCancelSelectedAt.None? && b[i + 1].db.gens[g].softCancelSelectedAt.Some?
    ensures g in b[j].db.gens
    ensures b[j].db.gens[g].takes == {} <==> b[i].db.gens[g].takes == {}
  {
    SoftCancelKeepsTakes(b, i + 1, j, g);
    assert Moves(b[i], b[i + 1]);
    StatesAreOk(b, i);
    StatesFollow(b, i, i + 1);
    hide Behaviour, Inv, Step;
    var a :| b[i + 1] == Step(b[i], a);
    SelectionMintsNothing(b[i], a, g);
  }

  /** The step that writes the mark mints no Take. */
  lemma SelectionMintsNothing(s: Sys, a: Action, g: GenId)
    requires Inv(s) && g in s.db.gens && s.db.gens[g].softCancelSelectedAt.None?
    requires g in Step(s, a).db.gens && Step(s, a).db.gens[g].softCancelSelectedAt.Some?
    ensures Step(s, a).db.gens[g].takes == s.db.gens[g].takes
  {
    hide Inv, RowOk, AdvanceFrame, Local;
    StepKeeps(s, a);
    RowOfInv(s, g);
    RowOfInv(Step(s, a), g);
    if !a.Advance? {
      hide Step;
      OtherRows(s, a, g);
    } else if (a.w, a.g) in s.frames && a.g in s.db.gens && a.g in s.logs {
      AdvanceIsLocal(s, (a.w, a.g), a.answer);
      NewEventIsSelection(s, Step(s, a), (a.w, a.g), g);
    }
  }

  lemma NewEventIsSelection(s: Sys, s': Sys, k: Key, g: GenId)
    requires Local(s, s', k) && g in s.db.gens && g in s'.db.gens && g in s.logs && g in s'.logs
    requires RowOk(s, g) && RowOk(s', g)
    requires s.db.gens[g].softCancelSelectedAt.None? && s'.db.gens[g].softCancelSelectedAt.Some?
    ensures s'.db.gens[g].takes == s.db.gens[g].takes
  {
    assert SoftSelected in s'.logs[g] && SoftSelected !in s.logs[g];
    assert s'.logs[g] == s.logs[g] + [SoftSelected];
    SameTakes(s.logs[g], s'.logs[g], s.db.gens[g], s'.db.gens[g]);
  }
}
