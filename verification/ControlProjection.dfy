/**
 Projecting a template to the active control stages: inactive stages are taken out of
 the model chain downstream first, and every link to one is rewired to its predecessor.
 */
module ControlProjection {
  import opened Wrappers
  import opened FrameChain

  /** Which input of which node a spatial key binds. */
  datatype Binding = Binding(key: string, node: NodeId, field: string)

  /** A control stage: its captured model predecessor and its loader. */
  datatype Stage = Stage(key: string, field: string, model: Input, loader: NodeId)

  datatype ProjectionError =
    | UnknownKey | SharedNode | NotControlnet | NoModel | NoLoader | Cyclic | LoaderShared
    | Placeholder | RemovedLink | UnknownLink | ActiveRemoved | InactiveSurvived

  /** A graph link: a node and one slot. */
  predicate IsPair(v: Input) { v.Link? && |v.rest| == 1 }

  predicate LinksTo(v: Input, id: NodeId) { IsPair(v) && v.to == id }

  predicate HasPair(g: Graph, id: NodeId, field: string) { HasInput(g, id, field) && IsPair(g[id].inputs[field]) }

  // ---------------------------------------------------------------- the stages

  predicate IsStage(g: Graph, id: NodeId) {
    id in g && g[id].classType == "WanVideoControlnet" && HasPair(g, id, "model") && HasPair(g, id, "controlnet")
  }

  function StageOf(g: Graph, b: Binding): Stage
    requires IsStage(g, b.node)
  {
    Stage(b.key, b.field, g[b.node].inputs["model"], g[b.node].inputs["controlnet"].to)
  }

  predicate DistinctNodes(bindings: seq<Binding>) {
    forall i, j | 0 <= i < j < |bindings| :: bindings[i].node != bindings[j].node
  }

  /** The stages are those of the bindings, as the template has them. */
  predicate StagesOf(g: Graph, bindings: seq<Binding>, stages: map<NodeId, Stage>) {
    && stages.Keys == (set b | b in bindings :: b.node)
    && forall b | b in bindings :: IsStage(g, b.node) && b.node in stages && stages[b.node] == StageOf(g, b)
  }

  method ReadStages(g: Graph, bindings: seq<Binding>) returns (r: Result<map<NodeId, Stage>, ProjectionError>)
    ensures r.Success? <==> DistinctNodes(bindings) && forall b | b in bindings :: IsStage(g, b.node)
    ensures r.Success? ==> StagesOf(g, bindings, r.value)
    ensures r.Failure? ==>
              match r.error
              case SharedNode => !DistinctNodes(bindings)
              case NotControlnet => exists b :: b in bindings && (b.node !in g || g[b.node].classType != "WanVideoControlnet")
              case NoModel => exists b :: b in bindings && !HasPair(g, b.node, "model")
              case NoLoader => exists b :: b in bindings && !HasPair(g, b.node, "controlnet")
              case _ => false
  {
    var stages: map<NodeId, Stage> := map[];
    var k := 0;
    while k < |bindings|
      invariant 0 <= k <= |bindings|
      invariant DistinctNodes(bindings[..k]) && StagesOf(g, bindings[..k], stages)
    {
      var b := bindings[k];
      assert b in bindings && bindings[..k + 1] == bindings[..k] + [b];
      if b.node in stages {
        var c :| c in bindings[..k] && c.node == b.node;
        return Failure(SharedNode);
      }
      if b.node !in g || g[b.node].classType != "WanVideoControlnet" {
        return Failure(NotControlnet);
      }
      if !HasPair(g, b.node, "model") {
        return Failure(NoModel);
      }
      if !HasPair(g, b.node, "controlnet") {
        return Failure(NoLoader);
      }
      stages := stages[b.node := StageOf(g, b)];
      k := k + 1;
    }
    assert bindings[..k] == bindings;
    return Success(stages);
  }

  // ----------------------------------------------------------------- their order

  predicate AllPairs(stages: map<NodeId, Stage>) { forall t | t in stages :: IsPair(stages[t].model) }

  function Before(stages: map<NodeId, Stage>, t: NodeId): NodeId
    requires AllPairs(stages) && t in stages
  {
    stages[t].model.to
  }

  /** A rank that grows along the model chain. */
  ghost predicate RanksStages(stages: map<NodeId, Stage>, rank: map<NodeId, nat>)
    requires AllPairs(stages)
  {
    forall t | t in stages :: t in rank && (Before(stages, t) in stages ==>
      Before(stages, t) in rank && rank[Before(stages, t)] < rank[t])
  }

  predicate NoneTwice(s: seq<NodeId>) { forall i, j | 0 <= i < j < |s| :: s[i] != s[j] }

  /** Every stage stands behind its predecessor. */
  predicate UpstreamFirst(stages: map<NodeId, Stage>, order: seq<NodeId>)
    requires AllPairs(stages)
  {
    forall i | 0 <= i < |order| :: order[i] in stages && (Before(stages, order[i]) in stages ==> Before(stages, order[i]) in order[..i])
  }

  /** The elements in some order; sorted() is one. */
  method Listing(s: set<NodeId>) returns (l: seq<NodeId>)
    ensures NoneTwice(l) && forall x :: x in l <==> x in s
  {
    l := [];
    var rest := s;
    while rest != {}
      invariant rest <= s && NoneTwice(l) && forall x :: x in l <==> x in s - rest
    {
      var x :| x in rest;
      assert forall i | 0 <= i < |l| :: l[i] in l;
      l, rest := l + [x], rest - {x};
    }
  }

  /** The stages that are placed so far. */
  ghost predicate Placed(stages: map<NodeId, Stage>, order: seq<NodeId>, remaining: set<NodeId>)
    requires AllPairs(stages)
  {
    && remaining <= stages.Keys && (forall t :: t in order <==> t in stages && t !in remaining)
    && NoneTwice(order) && UpstreamFirst(stages, order)
  }

  /** One pass over the stages that remain; without progress all of them follow one another. */
  method Pass(stages: map<NodeId, Stage>, remaining: set<NodeId>, order: seq<NodeId>)
    returns (left: set<NodeId>, longer: seq<NodeId>, progressed: bool)
    requires AllPairs(stages) && Placed(stages, order, remaining)
    ensures left <= remaining && Placed(stages, longer, left)
    ensures progressed <==> left != remaining
    ensures !progressed ==> forall t | t in remaining :: Before(stages, t) in remaining
  {
    left, longer, progressed := remaining, order, false;
    var pass := Listing(remaining);
    var k := 0;
    while k < |pass|
      invariant 0 <= k <= |pass| && left <= remaining && Placed(stages, longer, left)
      invariant forall x | x in pass[k..] :: x in left
      invariant progressed <==> left != remaining
      invariant !progressed ==> forall x | x in pass[..k] :: Before(stages, x) in remaining
    {
      hide Placed, NoneTwice, Before;
      var t := pass[k];
      NextOfPass(pass, k);
      if Before(stages, t) !in left {
        PlaceOne(stages, longer, left, t);
        longer, left, progressed := longer + [t], left - {t}, true;
      }
      k := k + 1;
    }
    assert pass[..k] == pass;
  }

  lemma NextOfPass(pass: seq<NodeId>, k: nat)
    requires k < |pass| && NoneTwice(pass)
    ensures pass[k..] == [pass[k]] + pass[k + 1..] && pass[..k + 1] == pass[..k] + [pass[k]]
    ensures pass[k] !in pass[k + 1..]
  {}

  lemma PlaceOne(stages: map<NodeId, Stage>, order: seq<NodeId>, remaining: set<NodeId>, t: NodeId)
    requires AllPairs(stages) && Placed(stages, order, remaining) && t in remaining && Before(stages, t) !in remaining
    ensures Placed(stages, order + [t], remaining - {t})
  {
    OrderGrows(stages, order, t);
  }

  /** Repeated passes, each taking the stages whose predecessor is already placed; the
      chain is refused exactly if no rank exists. */
  method OrderStages(stages: map<NodeId, Stage>) returns (r: Result<seq<NodeId>, ProjectionError>)
    requires AllPairs(stages)
    ensures r.Success? <==> exists rank :: RanksStages(stages, rank)
    ensures r.Success? ==> Placed(stages, r.value, {})
    ensures r.Failure? ==> r.error == Cyclic
  {
    var remaining := stages.Keys;
    var order: seq<NodeId> := [];
    while remaining != {}
      invariant Placed(stages, order, remaining)
      decreases |remaining|
    {
      var left, longer, progressed := Pass(stages, remaining, order);
      if !progressed {
        NoRank(stages, remaining);
        return Failure(Cyclic);
      }
      Shrinks(left, remaining);
      remaining, order := left, longer;
    }
    OrderRanks(stages, order);
    return Success(order);
  }

  lemma OrderGrows(stages: map<NodeId, Stage>, order: seq<NodeId>, t: NodeId)
    requires AllPairs(stages) && NoneTwice(order) && UpstreamFirst(stages, order) && t in stages && t !in order
    requires Before(stages, t) in stages ==> Before(stages, t) in order
    ensures NoneTwice(order + [t]) && UpstreamFirst(stages, order + [t])
  {
    var more := order + [t];
    assert forall i | 0 <= i <= |order| :: more[..i] == order[..i];
  }

  lemma Shrinks(a: set<NodeId>, b: set<NodeId>)
    requires a <= b && a != b
    ensures |a| < |b|
  {
    var x :| x in b && x !in a;
    assert b == a + (b - a) && a !! (b - a) && x in b - a;
    assert |b| == |a| + |b - a|;
  }

  /** Stages that all follow one another have no rank: a lowest one would follow a lower. */
  lemma {:induction false} NoRank(stages: map<NodeId, Stage>, remaining: set<NodeId>)
    requires AllPairs(stages) && remaining <= stages.Keys && remaining != {}
    requires forall t | t in remaining :: Before(stages, t) in remaining
    ensures forall rank :: !RanksStages(stages, rank)
  {
    forall rank
      ensures !RanksStages(stages, rank)
    {
      if RanksStages(stages, rank) {
        var t :| t in remaining;
        Descends(stages, remaining, rank, t);
      }
    }
  }

  lemma {:induction false} Descends(stages: map<NodeId, Stage>, remaining: set<NodeId>, rank: map<NodeId, nat>, t: NodeId)
    requires AllPairs(stages) && remaining <= stages.Keys && RanksStages(stages, rank) && t in remaining
    requires forall u | u in remaining :: Before(stages, u) in remaining
    ensures false
    decreases rank[t]
  {
    Descends(stages, remaining, rank, Before(stages, t));
  }

  lemma {:induction false} OrderRanks(stages: map<NodeId, Stage>, order: seq<NodeId>)
    requires AllPairs(stages) && NoneTwice(order) && UpstreamFirst(stages, order) && forall t :: t in order <==> t in stages
    ensures exists rank :: RanksStages(stages, rank)
  {
    var rank := Positions(order);
    forall t | t in stages
      ensures Before(stages, t) in stages ==> rank[Before(stages, t)] < rank[t]
    {
      var i :| 0 <= i < |order| && order[i] == t;
      if Before(stages, t) in stages {
        var j :| 0 <= j < i && order[..i][j] == Before(stages, t);
        assert order[j] == Before(stages, t);
      }
    }
    assert RanksStages(stages, rank);
  }

  lemma {:induction false} Positions(order: seq<NodeId>) returns (rank: map<NodeId, nat>)
    requires NoneTwice(order)
    ensures rank.Keys == (set t | t in order) && forall i | 0 <= i < |order| :: order[i] in rank && rank[order[i]] == i
    decreases |order|
  {
    if order == [] {
      rank := map[];
    } else {
      var n := |order| - 1;
      rank := Positions(order[..n]);
      assert order == order[..n] + [order[n]];
      assert forall i | 0 <= i < n :: order[..n][i] == order[i];
      rank := rank[order[n] := n];
    }
  }

  // -------------------------------------------------------------------- rewiring

  /** From v to w, over the predecessors of the stages of the path, all of them off; and
      w itself is no link to such a stage. */
  ghost predicate Leads(stages: map<NodeId, Stage>, off: set<NodeId>, v: Input, w: Input, path: seq<NodeId>)
    decreases |path|
  {
    if path == [] then v == w && !(IsPair(w) && w.to in off)
    else LinksTo(v, path[0]) && path[0] in off && path[0] in stages && Leads(stages, off, stages[path[0]].model, w, path[1..])
  }

  ghost predicate LeadsTo(stages: map<NodeId, Stage>, off: set<NodeId>, v: Input, w: Input) {
    exists path :: Leads(stages, off, v, w, path)
  }

  /** Where a link leads is determined by the template alone. */
  lemma {:induction false} LeadsToOne(stages: map<NodeId, Stage>, off: set<NodeId>, v: Input, w: Input, p: seq<NodeId>, x: Input, q: seq<NodeId>)
    requires Leads(stages, off, v, w, p) && Leads(stages, off, v, x, q)
    ensures w == x && p == q
    decreases |p|
  {
    if p != [] && q != [] {
      LeadsToOne(stages, off, stages[p[0]].model, w, p[1..], x, q[1..]);
      assert p == [p[0]] + p[1..] && q == [q[0]] + q[1..];
    }
  }

  function Rewire(v: Input, t: NodeId, model: Input): Input { if LinksTo(v, t) then model else v }

  function RewireNode(n: Node, t: NodeId, model: Input): Node {
    n.(inputs := map f | f in n.inputs :: Rewire(n.inputs[f], t, model))
  }

  function RewireAll(g: Graph, t: NodeId, model: Input): Graph { map id | id in g :: RewireNode(g[id], t, model) }

  lemma {:induction false} LeadsFurther(stages: map<NodeId, Stage>, off: set<NodeId>, v: Input, w: Input, path: seq<NodeId>, t: NodeId)
    requires Leads(stages, off, v, w, path) && t in stages && !(IsPair(stages[t].model) && stages[t].model.to in off + {t})
    ensures LeadsTo(stages, off + {t}, v, Rewire(w, t, stages[t].model))
    decreases |path|
  {
    var model, wider := stages[t].model, off + {t};
    if path == [] {
      assert Leads(stages, wider, model, model, []);
      if LinksTo(w, t) {
        assert [t][1..] == [];
        assert Leads(stages, wider, v, model, [t]);
      } else {
        assert Leads(stages, wider, v, w, []);
      }
    } else {
      LeadsFurther(stages, off, stages[path[0]].model, w, path[1..], t);
      var p :| Leads(stages, wider, stages[path[0]].model, Rewire(w, t, model), p);
      assert ([path[0]] + p)[1..] == p;
      assert Leads(stages, wider, v, Rewire(w, t, model), [path[0]] + p);
    }
  }

  /** Every node that is left keeps class and fields, and its values lead where the
      template's lead. */
  ghost predicate Rewired(g: Graph, view: Graph, stages: map<NodeId, Stage>, off: set<NodeId>) {
    forall id | id in view :: id in g && NodeRewired(g[id], view[id], stages, off)
  }

  ghost predicate NodeRewired(n: Node, m: Node, stages: map<NodeId, Stage>, off: set<NodeId>) {
    && m.classType == n.classType && m.inputs.Keys == n.inputs.Keys
    && forall f | f in n.inputs :: LeadsTo(stages, off, n.inputs[f], m.inputs[f])
  }

  lemma RewiredOnce(g: Graph, view: Graph, stages: map<NodeId, Stage>, off: set<NodeId>, t: NodeId)
    requires Rewired(g, view, stages, off) && t in stages
    requires !(IsPair(stages[t].model) && stages[t].model.to in off + {t})
    ensures Rewired(g, RewireAll(view, t, stages[t].model), stages, off + {t})
  {
    hide Rewire;
    var next := RewireAll(view, t, stages[t].model);
    forall id, f | id in view && f in g[id].inputs
      ensures LeadsTo(stages, off + {t}, g[id].inputs[f], next[id].inputs[f])
    {
      var path :| Leads(stages, off, g[id].inputs[f], view[id].inputs[f], path);
      LeadsFurther(stages, off, g[id].inputs[f], view[id].inputs[f], path, t);
    }
  }

  /** The rewriting of the view in place, node by node. */
  method RewireLinks(view: Graph, t: NodeId, model: Input) returns (next: Graph)
    ensures next == RewireAll(view, t, model)
  {
    next := view;
    var ids := Listing(view.Keys);
    var k := 0;
    while k < |ids|
      invariant 0 <= k <= |ids| && next.Keys == view.Keys
      invariant forall id | id in view :: next[id] == if id in ids[..k] then RewireNode(view[id], t, model) else view[id]
    {
      hide RewireNode;
      NextOfPass(ids, k);
      assert ids[k] !in ids[..k] by { assert forall j | 0 <= j < k :: ids[j] != ids[k]; }
      next := next[ids[k] := RewireNode(next[ids[k]], t, model)];
      k := k + 1;
    }
    assert ids[..k] == ids;
  }

  // -------------------------------------------------------------------- removal

  function Off(stages: map<NodeId, Stage>, active: set<string>, ids: seq<NodeId>): set<NodeId> {
    set t | t in ids && t in stages && stages[t].key !in active
  }

  function Loaders(stages: map<NodeId, Stage>, off: set<NodeId>): set<NodeId> {
    set t | t in off && t in stages :: stages[t].loader
  }

  /** Who still links to id. */
  function Referrers(g: Graph, id: NodeId): set<NodeId> {
    set r | r in g && r != id && (exists f | f in g[r].inputs :: LinksTo(g[r].inputs[f], id))
  }

  ghost predicate NoLinkInto(view: Graph, removed: set<NodeId>) {
    forall id, f | id in view && f in view[id].inputs && IsPair(view[id].inputs[f]) :: view[id].inputs[f].to !in removed
  }

  /** The view when the stages from position k on have been looked at. */
  ghost predicate Reached(g: Graph, stages: map<NodeId, Stage>, order: seq<NodeId>, active: set<string>, k: nat, view: Graph, removed: set<NodeId>)
    requires AllPairs(stages) && k <= |order|
  {
    var off := Off(stages, active, order[k..]);
    && Rewired(g, view, stages, off) && view.Keys == g.Keys - removed
    && off <= removed <= off + Loaders(stages, off)
    && NoLinkInto(view, removed)
    && forall u | u in order[..k] && u in view && u in stages :: Before(stages, u) !in removed
  }

  /** The stages of the template, in an order that has predecessors first. */
  ghost predicate Ordered(g: Graph, stages: map<NodeId, Stage>, order: seq<NodeId>) {
    && AllPairs(stages) && Placed(stages, order, {})
    && forall t | t in stages ::
         IsStage(g, t) && g[t].inputs["model"] == stages[t].model && g[t].inputs["controlnet"].to == stages[t].loader
  }

  /** Nothing at or behind its own position is the predecessor of a stage. */
  lemma PredecessorIsEarlier(stages: map<NodeId, Stage>, order: seq<NodeId>, i: nat, k: nat)
    requires AllPairs(stages) && Placed(stages, order, {}) && i <= k < |order|
    ensures Before(stages, order[i]) !in order[k..]
  {
    assert order[i] in order;
    assert order == order[..k] + order[k..];
  }

  lemma OffGrows(stages: map<NodeId, Stage>, active: set<string>, order: seq<NodeId>, k: nat)
    requires k < |order| && order[k] in stages
    ensures Off(stages, active, order[k..]) ==
            if stages[order[k]].key in active then Off(stages, active, order[k + 1..])
            else Off(stages, active, order[k + 1..]) + {order[k]}
  {
    assert order[k..] == [order[k]] + order[k + 1..];
  }

  lemma StartsReached(g: Graph, stages: map<NodeId, Stage>, order: seq<NodeId>, active: set<string>)
    requires Ordered(g, stages, order)
    ensures Reached(g, stages, order, active, |order|, g, {})
  {
    assert order[|order|..] == [] && Off(stages, active, []) == {};
    forall id, f | id in g && f in g[id].inputs
      ensures LeadsTo(stages, {}, g[id].inputs[f], g[id].inputs[f])
    {
      assert Leads(stages, {}, g[id].inputs[f], g[id].inputs[f], []);
    }
  }

  /** An active stage stays as it is. */
  lemma ActiveStage(g: Graph, stages: map<NodeId, Stage>, order: seq<NodeId>, active: set<string>, k: nat, view: Graph, removed: set<NodeId>)
    requires Ordered(g, stages, order) && k < |order| && Reached(g, stages, order, active, k + 1, view, removed)
    requires order[k] in stages && stages[order[k]].key in active
    ensures Reached(g, stages, order, active, k, view, removed)
  {
    assert AllPairs(stages);
    hide Rewired, NoLinkInto, Off, Placed, IsStage, Loaders, Ordered;
    OffGrows(stages, active, order, k);
    assert forall u | u in order[..k] :: u in order[..k + 1];
  }

  /** An inactive one goes: links to it now lead to its predecessor. */
  lemma StageGone(g: Graph, stages: map<NodeId, Stage>, order: seq<NodeId>, active: set<string>, k: nat, view: Graph, removed: set<NodeId>)
    requires Ordered(g, stages, order) && k < |order| && Reached(g, stages, order, active, k + 1, view, removed)
    requires order[k] in stages && stages[order[k]].key !in active
    ensures var t := order[k];
            Reached(g, stages, order, active, k, RewireAll(view, t, stages[t].model) - {t}, removed + {t})
  {
    hide Rewired, NoLinkInto, RewireAll, Placed, IsStage, Off;
    var t := order[k];
    var model, off := stages[t].model, Off(stages, active, order[k + 1..]);
    OffGrows(stages, active, order, k);
    PredecessorIsEarlier(stages, order, k, k);
    assert order[..k + 1] == order[..k] + [t] && order[k..] == [t] + order[k + 1..];
    NotOff(stages, active, order[k + 1..], model.to);
    RewiredOnce(g, view, stages, off, t);
    RewiredLess(g, RewireAll(view, t, model), stages, off + {t}, {t});
    StageHasModel(g, t);
    assert t in order[..k + 1] && (t in view <==> t !in removed);
    StageUnlinked(stages, view, g.Keys, removed, t);
    NotBehind(stages, order, k);
  }

  lemma NotOff(stages: map<NodeId, Stage>, active: set<string>, ids: seq<NodeId>, id: NodeId)
    requires id !in ids
    ensures id !in Off(stages, active, ids)
  {}

  lemma NotBehind(stages: map<NodeId, Stage>, order: seq<NodeId>, k: nat)
    requires AllPairs(stages) && Placed(stages, order, {}) && k < |order|
    ensures forall u | u in order[..k] && u in stages :: Before(stages, u) != order[k]
  {
    hide Placed;
    forall u | u in order[..k] && u in stages
      ensures Before(stages, u) != order[k]
    {
      var i :| 0 <= i < k && order[i] == u;
      PredecessorIsEarlier(stages, order, i, k);
      assert order[k] == order[k..][0];
    }
  }

  lemma RewiredLess(g: Graph, view: Graph, stages: map<NodeId, Stage>, off: set<NodeId>, ids: set<NodeId>)
    requires Rewired(g, view, stages, off)
    ensures Rewired(g, view - ids, stages, off)
  {}

  lemma StageUnlinked(stages: map<NodeId, Stage>, view: Graph, ids: set<NodeId>, removed: set<NodeId>, t: NodeId)
    requires AllPairs(stages) && NoLinkInto(view, removed) && t in stages && Before(stages, t) != t
    requires t !in removed ==> Before(stages, t) !in removed
    requires view.Keys == ids - removed
    ensures var next := RewireAll(view, t, stages[t].model) - {t};
            NoLinkInto(next, removed + {t}) && next.Keys == ids - (removed + {t})
  {}

  /** An unreferenced loader goes too; no stage still to come has it as predecessor. */
  lemma LoaderGone(g: Graph, stages: map<NodeId, Stage>, order: seq<NodeId>, active: set<string>, k: nat, view: Graph, removed: set<NodeId>, loader: NodeId)
    requires Ordered(g, stages, order) && k <= |order| && Reached(g, stages, order, active, k, view, removed)
    requires loader in Loaders(stages, Off(stages, active, order[k..])) && Referrers(view, loader) == {}
    ensures Reached(g, stages, order, active, k, view - {loader}, removed + {loader})
  {
    hide Rewired, NoLinkInto, Referrers, Placed, IsStage, Off, Loaders;
    RewiredLess(g, view, stages, Off(stages, active, order[k..]), {loader});
    LoaderUnlinked(view, removed, loader);
    forall u | u in order[..k] && u in view && u in stages && u != loader
      ensures Before(stages, u) != loader
    {
      ModelKept(g, stages, order, active, k, view, removed, u);
      Unreferred(view, loader, u, "model");
    }
  }

  lemma Unreferred(view: Graph, id: NodeId, r: NodeId, field: string)
    requires Referrers(view, id) == {} && r != id && HasInput(view, r, field)
    ensures !LinksTo(view[r].inputs[field], id)
  {
    assert r !in Referrers(view, id);
  }

  lemma LoaderUnlinked(view: Graph, removed: set<NodeId>, loader: NodeId)
    requires NoLinkInto(view, removed) && Referrers(view, loader) == {}
    ensures NoLinkInto(view - {loader}, removed + {loader})
  {
    forall id, f | id in view && id != loader && f in view[id].inputs
      ensures !LinksTo(view[id].inputs[f], loader)
    {
      Unreferred(view, loader, id, f);
    }
  }

  /** The model link of a stage still to come is as in the template. */
  lemma ModelKept(g: Graph, stages: map<NodeId, Stage>, order: seq<NodeId>, active: set<string>, k: nat, view: Graph, removed: set<NodeId>, u: NodeId)
    requires Ordered(g, stages, order) && k <= |order| && Reached(g, stages, order, active, k, view, removed)
    requires u in order[..k] && u in view && u in stages
    ensures HasInput(view, u, "model") && view[u].inputs["model"] == stages[u].model
  {
    hide IsStage;
    var off := Off(stages, active, order[k..]);
    var i :| 0 <= i < k && order[i] == u;
    if k < |order| {
      PredecessorIsEarlier(stages, order, i, k);
    }
    assert Before(stages, u) !in off;
    StageHasModel(g, u);
    var path :| Leads(stages, off, g[u].inputs["model"], view[u].inputs["model"], path);
  }

  lemma StageHasModel(g: Graph, u: NodeId)
    requires IsStage(g, u)
    ensures u in g && "model" in g[u].inputs
  {}

  /** Links to a loader come from the controlnet inputs of stages only. */
  predicate LoadersPrivate(g: Graph, stages: map<NodeId, Stage>) {
    forall id, f | id in g && f in g[id].inputs && IsPair(g[id].inputs[f]) && g[id].inputs[f].to in Loaders(stages, stages.Keys) ::
      id in stages && f == "controlnet"
  }

  lemma {:induction false} LeadsEnds(stages: map<NodeId, Stage>, off: set<NodeId>, v: Input, w: Input, path: seq<NodeId>)
    requires Leads(stages, off, v, w, path)
    ensures w == v || exists t :: t in off && t in stages && w == stages[t].model
    decreases |path|
  {
    if path != [] {
      LeadsEnds(stages, off, stages[path[0]].model, w, path[1..]);
    }
  }

  lemma OnlyStagesRefer(g: Graph, stages: map<NodeId, Stage>, order: seq<NodeId>, view: Graph, off: set<NodeId>, loader: NodeId)
    requires Ordered(g, stages, order) && Rewired(g, view, stages, off) && LoadersPrivate(g, stages)
    requires loader in Loaders(stages, stages.Keys)
    ensures Referrers(view, loader) <= stages.Keys
  {
    forall r | r in Referrers(view, loader)
      ensures r in stages
    {
      var f :| f in view[r].inputs && LinksTo(view[r].inputs[f], loader);
      var path :| Leads(stages, off, g[r].inputs[f], view[r].inputs[f], path);
      LeadsEnds(stages, off, g[r].inputs[f], view[r].inputs[f], path);
    }
  }

  /** The loaders are nodes of their own that only their stages refer to. */
  predicate Private(g: Graph, stages: map<NodeId, Stage>) {
    LoadersPrivate(g, stages) && Loaders(stages, stages.Keys) !! stages.Keys
  }

  /** Then a loader is gone exactly when all its stages are. */
  ghost predicate LoadersExact(g: Graph, stages: map<NodeId, Stage>, off: set<NodeId>, removed: set<NodeId>) {
    Private(g, stages) ==> removed == off + (Loaders(stages, off) - Loaders(stages, stages.Keys - off))
  }

  lemma ReferrersExactly(g: Graph, stages: map<NodeId, Stage>, order: seq<NodeId>, view: Graph, off: set<NodeId>, removed: set<NodeId>, loader: NodeId)
    requires Ordered(g, stages, order) && Rewired(g, view, stages, off) && Private(g, stages) && off <= stages.Keys
    requires view.Keys == g.Keys - removed && off <= removed <= off + Loaders(stages, off)
    requires loader in Loaders(stages, stages.Keys)
    ensures Referrers(view, loader) == {} <==> loader !in Loaders(stages, stages.Keys - off)
  {
    hide Placed, UpstreamFirst;
    if u :| u in stages.Keys - off && stages[u].loader == loader {
      assert u in view && u !in Loaders(stages, off);
      var v, w := g[u].inputs["controlnet"], view[u].inputs["controlnet"];
      var path :| Leads(stages, off, v, w, path);
      assert path == [];
      assert u in Referrers(view, loader);
    }
    if r :| r in Referrers(view, loader) {
      OnlyStagesRefer(g, stages, order, view, off, loader);
      var f :| f in view[r].inputs && LinksTo(view[r].inputs[f], loader);
      var path :| Leads(stages, off, g[r].inputs[f], view[r].inputs[f], path);
      LeadsEnds(stages, off, g[r].inputs[f], view[r].inputs[f], path);
      assert f == "controlnet" && stages[r].loader == loader;
    }
  }

  /** One more inactive stage, and its loader with it if no stage is left that has it. */
  lemma LoadersStep(g: Graph, stages: map<NodeId, Stage>, off: set<NodeId>, removed: set<NodeId>, t: NodeId)
    requires LoadersExact(g, stages, off, removed) && t in stages && t !in off && off <= stages.Keys
    ensures var l := stages[t].loader;
            && (l in Loaders(stages, stages.Keys - (off + {t})) ==> LoadersExact(g, stages, off + {t}, removed + {t}))
            && (l !in Loaders(stages, stages.Keys - (off + {t})) ==> LoadersExact(g, stages, off + {t}, removed + {t} + {l}))
  {
    hide Private;
    var l, rest := stages[t].loader, stages.Keys - (off + {t});
    LoadersOfMore(stages, off, t);
    LoadersOfMore(stages, rest, t);
    assert rest + {t} == stages.Keys - off;
  }

  lemma LoadersOfMore(stages: map<NodeId, Stage>, ids: set<NodeId>, t: NodeId)
    requires t in stages
    ensures Loaders(stages, ids + {t}) == Loaders(stages, ids) + {stages[t].loader}
  {}

  lemma NoLoadersYet(g: Graph, stages: map<NodeId, Stage>)
    ensures LoadersExact(g, stages, {}, {})
  {}

  /** What holds once the stages from position k on are dealt with. */
  ghost predicate Cleared(g: Graph, stages: map<NodeId, Stage>, order: seq<NodeId>, active: set<string>, k: nat, view: Graph, removed: set<NodeId>)
    requires AllPairs(stages) && k <= |order|
  {
    Reached(g, stages, order, active, k, view, removed) && LoadersExact(g, stages, Off(stages, active, order[k..]), removed)
  }

  lemma StartsCleared(g: Graph, stages: map<NodeId, Stage>, order: seq<NodeId>, active: set<string>)
    requires Ordered(g, stages, order)
    ensures Cleared(g, stages, order, active, |order|, g, {})
  {
    StartsReached(g, stages, order, active);
    NoLoadersYet(g, stages);
    assert order[|order|..] == [] && Off(stages, active, []) == {};
  }

  lemma ActiveCleared(g: Graph, stages: map<NodeId, Stage>, order: seq<NodeId>, active: set<string>, k: nat, view: Graph, removed: set<NodeId>)
    requires Ordered(g, stages, order) && k < |order| && Cleared(g, stages, order, active, k + 1, view, removed)
    requires order[k] in stages && stages[order[k]].key in active
    ensures Cleared(g, stages, order, active, k, view, removed)
  {
    assert AllPairs(stages);
    hide Reached, LoadersExact, Off, Ordered, AllPairs;
    ActiveStage(g, stages, order, active, k, view, removed);
    OffGrows(stages, active, order, k);
  }

  /** One inactive stage: its links lead past it, and its loader goes with the last node
      that refers to it; a loader that other nodes use as well is refused. */
  method RemoveStage(g: Graph, stages: map<NodeId, Stage>, order: seq<NodeId>, active: set<string>, k: nat, view: Graph, removed: set<NodeId>)
    returns (r: Result<(Graph, set<NodeId>), ProjectionError>)
    requires Ordered(g, stages, order) && k < |order| && Cleared(g, stages, order, active, k + 1, view, removed)
    requires order[k] in stages && stages[order[k]].key !in active
    ensures r.Success? ==> Cleared(g, stages, order, active, k, r.value.0, r.value.1)
    ensures r.Failure? ==> r.error == LoaderShared && !LoadersPrivate(g, stages)
  {
    hide Rewired, NoLinkInto, LoadersPrivate, RewireAll, Referrers, LoadersExact, Loaders, Off, Placed, IsStage;
    var t := order[k];
    var loader := stages[t].loader;
    var rewired := RewireLinks(view, t, stages[t].model);
    StageGone(g, stages, order, active, k, view, removed);
    var left, gone := rewired - {t}, removed + {t};
    NotYetOff(stages, active, order, k);
    LoaderDecides(g, stages, order, active, k, left, gone, t);
    if Referrers(left, loader) - stages.Keys != {} {
      if LoadersPrivate(g, stages) {
        LoaderOfStage(stages, t);
        OnlyStagesRefer(g, stages, order, left, Off(stages, active, order[k..]), loader);
      }
      return Failure(LoaderShared);
    }
    if Referrers(left, loader) == {} {
      LoaderGone(g, stages, order, active, k, left, gone, loader);
      return Success((left - {loader}, gone + {loader}));
    }
    return Success((left, gone));
  }

  lemma NotYetOff(stages: map<NodeId, Stage>, active: set<string>, order: seq<NodeId>, k: nat)
    requires AllPairs(stages) && Placed(stages, order, {}) && k < |order|
    ensures order[k] !in Off(stages, active, order[k + 1..])
  {
    assert order[k] !in order[k + 1..];
    NotOff(stages, active, order[k + 1..], order[k]);
  }

  lemma LoaderOfStage(stages: map<NodeId, Stage>, t: NodeId)
    requires t in stages
    ensures stages[t].loader in Loaders(stages, stages.Keys)
  {}

  /** Downstream first. */
  method RemoveInactive(g: Graph, stages: map<NodeId, Stage>, order: seq<NodeId>, active: set<string>)
    returns (r: Result<(Graph, set<NodeId>), ProjectionError>)
    requires Ordered(g, stages, order)
    ensures r.Success? ==> Reached(g, stages, order, active, 0, r.value.0, r.value.1)
    ensures r.Success? ==> LoadersExact(g, stages, Off(stages, active, order), r.value.1)
    ensures r.Failure? ==> r.error == LoaderShared && !LoadersPrivate(g, stages)
  {
    var view, removed, k := g, {}, |order|;
    StartsCleared(g, stages, order, active);
    while k > 0
      invariant 0 <= k <= |order| && Cleared(g, stages, order, active, k, view, removed)
    {
      hide Cleared, LoadersPrivate;
      k := k - 1;
      assert order[k] in order;
      if stages[order[k]].key in active {
        ActiveCleared(g, stages, order, active, k, view, removed);
      } else {
        var step := RemoveStage(g, stages, order, active, k, view, removed);
        if step.Failure? {
          return step;
        }
        view, removed := step.value.0, step.value.1;
      }
    }
    assert order[0..] == order;
    return Success((view, removed));
  }

  /** After stage t is gone: whether its loader is still referred to is whether a stage
      that is left has it. */
  lemma LoaderDecides(g: Graph, stages: map<NodeId, Stage>, order: seq<NodeId>, active: set<string>, k: nat, view: Graph, removed: set<NodeId>, t: NodeId)
    requires Ordered(g, stages, order) && k < |order| && Reached(g, stages, order, active, k, view, removed)
    requires order[k] == t && t in stages && stages[t].key !in active && t !in Off(stages, active, order[k + 1..])
    requires exists before :: LoadersExact(g, stages, Off(stages, active, order[k + 1..]), before) && removed == before + {t}
    ensures stages[t].loader in Loaders(stages, Off(stages, active, order[k..]))
    ensures LoadersExact(g, stages, Off(stages, active, order[k..]),
                         if Referrers(view, stages[t].loader) == {} then removed + {stages[t].loader} else removed)
  {
    hide Rewired, NoLinkInto, LoadersPrivate, Referrers, LoadersExact, Placed, IsStage, Private;
    var before :| LoadersExact(g, stages, Off(stages, active, order[k + 1..]), before) && removed == before + {t};
    OffGrows(stages, active, order, k);
    LoadersStep(g, stages, Off(stages, active, order[k + 1..]), before, t);
    if Private(g, stages) {
      ReferrersExactly(g, stages, order, view, Off(stages, active, order[k..]), removed, stages[t].loader);
    } else {
      NotPrivate(g, stages, Off(stages, active, order[k..]), removed);
      NotPrivate(g, stages, Off(stages, active, order[k..]), removed + {stages[t].loader});
    }
  }

  lemma NotPrivate(g: Graph, stages: map<NodeId, Stage>, off: set<NodeId>, removed: set<NodeId>)
    requires !Private(g, stages)
    ensures LoadersExact(g, stages, off, removed)
  {}

  // ------------------------------------------------------------- the final checks

  const INPUT_PLACEHOLDER: Input := Link("__INPUT__", ["0"])

  function TargetsOf(bindings: seq<Binding>, active: set<string>): set<(NodeId, string)> {
    set b | b in bindings && b.key in active :: (b.node, b.field)
  }

  /** A placeholder only where a stream will be bound; every other link into the graph. */
  predicate InputOk(g: Graph, targets: set<(NodeId, string)>, id: NodeId, f: string)
    requires HasInput(g, id, f)
  {
    var v := g[id].inputs[f];
    if v == INPUT_PLACEHOLDER then (id, f) in targets else IsPair(v) ==> v.to in g
  }

  ghost predicate InputsOk(g: Graph, targets: set<(NodeId, string)>) {
    forall id, f | id in g && f in g[id].inputs :: InputOk(g, targets, id, f)
  }

  predicate StrayPlaceholder(g: Graph, targets: set<(NodeId, string)>, id: NodeId, f: string) {
    HasInput(g, id, f) && g[id].inputs[f] == Link("__INPUT__", ["0"]) && (id, f) !in targets
  }

  predicate Dangling(g: Graph, id: NodeId, f: string) {
    HasInput(g, id, f) && IsPair(g[id].inputs[f]) && g[id].inputs[f].to !in g
  }

  method CheckNode(g: Graph, id: NodeId, targets: set<(NodeId, string)>, removed: set<NodeId>) returns (r: Result<(), ProjectionError>)
    requires id in g
    ensures r.Success? <==> forall f | f in g[id].inputs :: InputOk(g, targets, id, f) && (g[id].inputs[f] == INPUT_PLACEHOLDER || !(IsPair(g[id].inputs[f]) && g[id].inputs[f].to in removed))
    ensures r == Failure(RemovedLink) ==> exists f | f in g[id].inputs :: IsPair(g[id].inputs[f]) && g[id].inputs[f].to in removed
    ensures r == Failure(Placeholder) ==> exists f | f in g[id].inputs :: StrayPlaceholder(g, targets, id, f)
    ensures r == Failure(UnknownLink) ==> exists f | f in g[id].inputs :: Dangling(g, id, f)
    ensures r.Failure? ==> r.error in {Placeholder, RemovedLink, UnknownLink}
  {
    var fields := Listing(g[id].inputs.Keys);
    var k := 0;
    while k < |fields|
      invariant 0 <= k <= |fields|
      invariant forall j | 0 <= j < k :: fields[j] in g[id].inputs && InputOk(g, targets, id, fields[j]) && (g[id].inputs[fields[j]] == INPUT_PLACEHOLDER || !(IsPair(g[id].inputs[fields[j]]) && g[id].inputs[fields[j]].to in removed))
    {
      var f := fields[k];
      assert f in fields;
      var v := g[id].inputs[f];
      if v == INPUT_PLACEHOLDER {
        if (id, f) !in targets {
          return Failure(Placeholder);
        }
      } else if IsPair(v) {
        if v.to in removed {
          return Failure(RemovedLink);
        }
        if v.to !in g {
          return Failure(UnknownLink);
        }
      }
      k := k + 1;
    }
    return Success(());
  }

  /** The checks after the removal.  That nothing links a removed node never fails. */
  method CheckInputs(g: Graph, targets: set<(NodeId, string)>, removed: set<NodeId>) returns (r: Result<(), ProjectionError>)
    requires NoLinkInto(g, removed)
    ensures r.Success? <==> InputsOk(g, targets)
    ensures r.Failure? ==> r.error in {Placeholder, UnknownLink}
    ensures r == Failure(Placeholder) ==> exists id, f :: StrayPlaceholder(g, targets, id, f)
    ensures r == Failure(UnknownLink) ==> exists id, f :: Dangling(g, id, f)
  {
    var ids := Listing(g.Keys);
    var k := 0;
    while k < |ids|
      invariant 0 <= k <= |ids|
      invariant forall j, f | 0 <= j < k && f in g[ids[j]].inputs :: InputOk(g, targets, ids[j], f)
    {
      assert ids[k] in ids;
      var c := CheckNode(g, ids[k], targets, removed);
      if c.Failure? {
        return c;
      }
      k := k + 1;
    }
    return Success(());
  }

  method CheckStages(g: Graph, bindings: seq<Binding>, active: set<string>) returns (r: Result<(), ProjectionError>)
    ensures r.Success? <==> forall b | b in bindings :: b.key in active <==> b.node in g
    ensures r == Failure(ActiveRemoved) ==> exists b | b in bindings :: b.key in active && b.node !in g
    ensures r.Failure? ==> r.error == ActiveRemoved || (r.error == InactiveSurvived && exists b | b in bindings :: b.key !in active && b.node in g)
  {
    var k := 0;
    while k < |bindings|
      invariant 0 <= k <= |bindings| && forall j | 0 <= j < k :: bindings[j].key in active <==> bindings[j].node in g
    {
      var b := bindings[k];
      assert b in bindings;
      if b.key in active && b.node !in g {
        return Failure(ActiveRemoved);
      }
      if b.key !in active && b.node in g {
        return Failure(InactiveSurvived);
      }
      k := k + 1;
    }
    return Success(());
  }

  // ------------------------------------------------------------------- projection

  function OffNodes(bindings: seq<Binding>, active: set<string>): set<NodeId> {
    set b | b in bindings && b.key !in active :: b.node
  }

  /** What the projected view is, said of the template alone: every node but inactive
      stages and loaders of theirs, class and fields as before, every value led over the
      inactive stages to their nearest predecessor that is left, and no link dangling. */
  ghost predicate Projected(g: Graph, view: Graph, bindings: seq<Binding>, active: set<string>) {
    exists stages :: StagesOf(g, bindings, stages) && ProjectedBy(g, view, bindings, active, stages)
  }

  ghost predicate ProjectedBy(g: Graph, view: Graph, bindings: seq<Binding>, active: set<string>, stages: map<NodeId, Stage>) {
    var off := OffNodes(bindings, active);
    && view.Keys !! off && g.Keys - off - Loaders(stages, off) <= view.Keys <= g.Keys
    && Rewired(g, view, stages, off)
    && InputsOk(view, TargetsOf(bindings, active))
    && (forall b | b in bindings && b.key in active :: b.node in view)
    && (Private(g, stages) ==>
          view.Keys == g.Keys - off - (Loaders(stages, off) - Loaders(stages, stages.Keys - off)))
  }

  /** The model chain of the stages has no cycle. */
  ghost predicate Acyclic(g: Graph, bindings: seq<Binding>) {
    exists stages, rank :: StagesOf(g, bindings, stages) && AllPairs(stages) && RanksStages(stages, rank)
  }

  /** A template as certified: links resolve but for the placeholders of the bound
      inputs, and the loaders are nodes of their own that only their stages refer to. */
  ghost predicate Certified(g: Graph, bindings: seq<Binding>) {
    && DistinctNodes(bindings) && (forall b | b in bindings :: IsStage(g, b.node)) && Acyclic(g, bindings)
    && "__INPUT__" !in g
    && InputsOk(g, set b | b in bindings :: (b.node, b.field))
    && (forall b | b in bindings :: g[b.node].inputs["model"].to in g)
    && forall stages | StagesOf(g, bindings, stages) :: Private(g, stages)
  }

  /** A certified template has one projection. */
  lemma ProjectedOnce(g: Graph, a: Graph, b: Graph, bindings: seq<Binding>, active: set<string>)
    requires Certified(g, bindings) && Projected(g, a, bindings, active) && Projected(g, b, bindings, active)
    ensures a == b
  {
    hide Certified, InputsOk, Loaders, OffNodes;
    var stages :| StagesOf(g, bindings, stages) && ProjectedBy(g, a, bindings, active, stages);
    var other :| StagesOf(g, bindings, other) && ProjectedBy(g, b, bindings, active, other);
    StagesArePairs(g, bindings, stages);
    CertifiedStarts(g, bindings);
    hide StagesOf, Private;
    assert a.Keys == b.Keys;
    forall id | id in a
      ensures a[id] == b[id]
    {
      SameNode(g[id], a[id], b[id], stages, OffNodes(bindings, active));
    }
  }

  lemma SameNode(n: Node, x: Node, y: Node, stages: map<NodeId, Stage>, off: set<NodeId>)
    requires NodeRewired(n, x, stages, off) && NodeRewired(n, y, stages, off)
    ensures x == y
  {
    forall f | f in n.inputs
      ensures x.inputs[f] == y.inputs[f]
    {
      var p :| Leads(stages, off, n.inputs[f], x.inputs[f], p);
      var q :| Leads(stages, off, n.inputs[f], y.inputs[f], q);
      LeadsToOne(stages, off, n.inputs[f], x.inputs[f], p, y.inputs[f], q);
    }
  }

  function KeysOf(bindings: seq<Binding>): set<string> { set b | b in bindings :: b.key }

  /** What is wrong with a template that is refused, error by error. */
  ghost predicate Refuses(g: Graph, bindings: seq<Binding>, active: set<string>, e: ProjectionError) {
    match e
    case UnknownKey => !(active <= KeysOf(bindings))
    case SharedNode => !DistinctNodes(bindings)
    case NotControlnet => exists b :: b in bindings && (b.node !in g || g[b.node].classType != "WanVideoControlnet")
    case NoModel => exists b :: b in bindings && !HasPair(g, b.node, "model")
    case NoLoader => exists b :: b in bindings && !HasPair(g, b.node, "controlnet")
    case Cyclic => !Acyclic(g, bindings)
    case LoaderShared => exists stages :: StagesOf(g, bindings, stages) && !LoadersPrivate(g, stages)
    case Placeholder => exists id, f :: StrayPlaceholder(g, TargetsOf(bindings, active), id, f)
    case UnknownLink => exists id, f :: Dangling(g, id, f)
    case ActiveRemoved =>
      exists stages, b :: StagesOf(g, bindings, stages) && b in bindings && b.key in active && b.node in Loaders(stages, OffNodes(bindings, active))
    case RemovedLink => false
    case InactiveSurvived => false
  }

  /** A stray placeholder or a dangling link of the view stands in the template. */
  lemma StrayInTemplate(g: Graph, view: Graph, bindings: seq<Binding>, active: set<string>, stages: map<NodeId, Stage>, id: NodeId, f: string)
    requires StagesOf(g, bindings, stages) && Rewired(g, view, stages, OffNodes(bindings, active)) && DistinctNodes(bindings)
    requires StrayPlaceholder(view, TargetsOf(bindings, active), id, f)
    ensures Refuses(g, bindings, active, Placeholder)
  {
    hide IsStage;
    var off := OffNodes(bindings, active);
    StagesArePairs(g, bindings, stages);
    var path :| Leads(stages, off, g[id].inputs[f], view[id].inputs[f], path);
    LeadsEnds(stages, off, g[id].inputs[f], view[id].inputs[f], path);
    if g[id].inputs[f] == INPUT_PLACEHOLDER {
      assert StrayPlaceholder(g, TargetsOf(bindings, active), id, f);
    } else {
      var t :| t in off && t in stages && stages[t].model == INPUT_PLACEHOLDER;
      StageHasModel(g, t);
      assert forall b | b in bindings && b.node == t :: b.key !in active;
      assert StrayPlaceholder(g, TargetsOf(bindings, active), t, "model");
    }
  }

  lemma DanglingInTemplate(g: Graph, view: Graph, bindings: seq<Binding>, active: set<string>, stages: map<NodeId, Stage>, removed: set<NodeId>, id: NodeId, f: string)
    requires StagesOf(g, bindings, stages) && Rewired(g, view, stages, OffNodes(bindings, active))
    requires view.Keys == g.Keys - removed && NoLinkInto(view, removed) && Dangling(view, id, f)
    ensures Refuses(g, bindings, active, UnknownLink)
  {
    hide IsStage;
    var off := OffNodes(bindings, active);
    StagesArePairs(g, bindings, stages);
    var path :| Leads(stages, off, g[id].inputs[f], view[id].inputs[f], path);
    LeadsEnds(stages, off, g[id].inputs[f], view[id].inputs[f], path);
    if g[id].inputs[f] == view[id].inputs[f] {
      assert Dangling(g, id, f);
    } else {
      var t :| t in off && t in stages && stages[t].model == view[id].inputs[f];
      StageHasModel(g, t);
      assert Dangling(g, t, "model");
    }
  }

  lemma StagesArePairs(g: Graph, bindings: seq<Binding>, stages: map<NodeId, Stage>)
    requires StagesOf(g, bindings, stages)
    ensures AllPairs(stages)
    ensures forall t | t in stages ::
              IsStage(g, t) && g[t].inputs["model"] == stages[t].model && g[t].inputs["controlnet"].to == stages[t].loader
    ensures forall other | StagesOf(g, bindings, other) :: other == stages
  {}

  lemma OffIsOffNodes(g: Graph, bindings: seq<Binding>, stages: map<NodeId, Stage>, order: seq<NodeId>, active: set<string>)
    requires DistinctNodes(bindings) && StagesOf(g, bindings, stages) && AllPairs(stages) && Placed(stages, order, {})
    ensures Off(stages, active, order) == OffNodes(bindings, active)
  {
    hide IsStage, UpstreamFirst;
    forall b | b in bindings
      ensures b.node in order && stages[b.node].key == b.key
    {
      assert b.node in stages;
    }
  }

  /** Every input of the view of a certified template passes the last checks. */
  lemma CertifiedInputs(g: Graph, bindings: seq<Binding>, active: set<string>, stages: map<NodeId, Stage>, view: Graph, removed: set<NodeId>)
    requires Certified(g, bindings) && StagesOf(g, bindings, stages) && Rewired(g, view, stages, OffNodes(bindings, active))
    requires view.Keys == g.Keys - removed && NoLinkInto(view, removed) && OffNodes(bindings, active) <= removed
    ensures InputsOk(view, TargetsOf(bindings, active))
  {
    hide LoadersPrivate, Acyclic;
    var off := OffNodes(bindings, active);
    forall id, f | id in view && f in view[id].inputs
      ensures InputOk(view, TargetsOf(bindings, active), id, f)
    {
      var v, w := g[id].inputs[f], view[id].inputs[f];
      var path :| Leads(stages, off, v, w, path);
      LeadsEnds(stages, off, v, w, path);
      assert InputOk(g, set b | b in bindings :: (b.node, b.field), id, f);
    }
  }

  /** In a certified template no active stage is taken for a loader. */
  lemma CertifiedStages(g: Graph, bindings: seq<Binding>, active: set<string>, stages: map<NodeId, Stage>, view: Graph, removed: set<NodeId>, b: Binding)
    requires Certified(g, bindings) && StagesOf(g, bindings, stages) && view.Keys == g.Keys - removed
    requires removed <= OffNodes(bindings, active) + Loaders(stages, OffNodes(bindings, active))
    requires b in bindings && b.key in active
    ensures b.node in view
  {
    assert forall c | c in bindings && c.node == b.node :: c == b;
    assert forall l | l in Loaders(stages, OffNodes(bindings, active)) :: l in Loaders(stages, stages.Keys);
  }

  lemma CertifiedView(g: Graph, bindings: seq<Binding>, active: set<string>, stages: map<NodeId, Stage>, view: Graph, removed: set<NodeId>)
    requires Certified(g, bindings) && StagesOf(g, bindings, stages) && Rewired(g, view, stages, OffNodes(bindings, active))
    requires view.Keys == g.Keys - removed && NoLinkInto(view, removed)
    requires OffNodes(bindings, active) <= removed <= OffNodes(bindings, active) + Loaders(stages, OffNodes(bindings, active))
    ensures InputsOk(view, TargetsOf(bindings, active))
    ensures forall b | b in bindings :: b.key in active <==> b.node in view
  {
    CertifiedInputs(g, bindings, active, stages, view, removed);
    hide Certified, StagesOf, Rewired, NoLinkInto, InputsOk;
    forall b | b in bindings && b.key in active
      ensures b.node in view
    {
      CertifiedStages(g, bindings, active, stages, view, removed, b);
    }
  }

  lemma CertifiedStarts(g: Graph, bindings: seq<Binding>)
    requires Certified(g, bindings)
    ensures DistinctNodes(bindings) && Acyclic(g, bindings) && forall b | b in bindings :: IsStage(g, b.node)
    ensures forall stages | StagesOf(g, bindings, stages) :: Private(g, stages)
  {}

  lemma UnrankedIsCyclic(g: Graph, bindings: seq<Binding>, stages: map<NodeId, Stage>)
    requires StagesOf(g, bindings, stages) && AllPairs(stages) && forall rank :: !RanksStages(stages, rank)
    ensures !Acyclic(g, bindings)
  {
    StagesArePairs(g, bindings, stages);
  }

  /** project_schema3_spatial_control_subset: the view depends on the template alone, not
      on the order of removal; a refusal names what is wrong with the template, and two
      of the closing checks cannot fail; a certified template is always projected. */
  method Project(g: Graph, bindings: seq<Binding>, active: set<string>) returns (r: Result<Graph, ProjectionError>)
    ensures r.Success? ==> Projected(g, r.value, bindings, active) && active <= KeysOf(bindings)
    ensures r.Failure? ==> Refuses(g, bindings, active, r.error)
    ensures r == Failure(UnknownKey) <==> !(active <= KeysOf(bindings))
    ensures Certified(g, bindings) ==> (r.Success? <==> active <= KeysOf(bindings))
  {
    hide Certified, Acyclic, Rewired, Leads, LoadersPrivate, InputsOk, NoLinkInto, IsStage;
    if Certified(g, bindings) {
      CertifiedStarts(g, bindings);
    }
    if !(active <= KeysOf(bindings)) {
      return Failure(UnknownKey);
    }
    var read := ReadStages(g, bindings);
    if read.Failure? {
      return Failure(read.error);
    }
    var stages := read.value;
    StagesArePairs(g, bindings, stages);
    var placed := OrderStages(stages);
    if placed.Failure? {
      UnrankedIsCyclic(g, bindings, stages);
      return Failure(Cyclic);
    }
    var rest := RemoveInactive(g, stages, placed.value, active);
    if rest.Failure? {
      return Failure(LoaderShared);
    }
    var (view, removed) := rest.value;
    assert placed.value[0..] == placed.value;
    OffIsOffNodes(g, bindings, stages, placed.value, active);
    if Certified(g, bindings) {
      CertifiedView(g, bindings, active, stages, view, removed);
    }
    r := CloseView(g, bindings, active, stages, view, removed);
  }

  /** No inactive stage is left, and an active one that is gone was taken for a loader. */
  lemma ActiveTaken(g: Graph, bindings: seq<Binding>, active: set<string>, stages: map<NodeId, Stage>, view: Graph, removed: set<NodeId>)
    requires StagesOf(g, bindings, stages) && DistinctNodes(bindings) && view.Keys == g.Keys - removed
    requires OffNodes(bindings, active) <= removed <= OffNodes(bindings, active) + Loaders(stages, OffNodes(bindings, active))
    ensures forall b | b in bindings && b.key !in active :: b.node !in view
    ensures forall b | b in bindings && b.key in active && b.node !in view :: Refuses(g, bindings, active, ActiveRemoved)
  {
    hide IsStage, Loaders;
    forall b | b in bindings && b.key in active && b.node !in view
      ensures Refuses(g, bindings, active, ActiveRemoved)
    {
      StageHasModel(g, b.node);
      assert forall c | c in bindings && c.node == b.node :: c == b;
      assert b.node in Loaders(stages, OffNodes(bindings, active));
    }
  }

  /** The closing checks over what the removal left. */
  method CloseView(g: Graph, bindings: seq<Binding>, active: set<string>, ghost stages: map<NodeId, Stage>, view: Graph, removed: set<NodeId>)
    returns (r: Result<Graph, ProjectionError>)
    requires StagesOf(g, bindings, stages) && DistinctNodes(bindings) && Rewired(g, view, stages, OffNodes(bindings, active))
    requires view.Keys == g.Keys - removed && NoLinkInto(view, removed)
    requires OffNodes(bindings, active) <= removed <= OffNodes(bindings, active) + Loaders(stages, OffNodes(bindings, active))
    requires LoadersExact(g, stages, OffNodes(bindings, active), removed)
    ensures r.Success? <==>
              && InputsOk(view, TargetsOf(bindings, active))
              && forall b | b in bindings :: b.key in active <==> b.node in view
    ensures r.Success? ==> r.value == view && Projected(g, view, bindings, active)
    ensures r.Failure? ==> r.error != UnknownKey && Refuses(g, bindings, active, r.error)
  {
    hide Rewired, Leads, LoadersPrivate, InputsOk, NoLinkInto, IsStage;
    var inputs := CheckInputs(view, TargetsOf(bindings, active), removed);
    if inputs.Failure? {
      ghost var id, f;
      if inputs.error == Placeholder {
        id, f :| StrayPlaceholder(view, TargetsOf(bindings, active), id, f);
        StrayInTemplate(g, view, bindings, active, stages, id, f);
      } else {
        id, f :| Dangling(view, id, f);
        DanglingInTemplate(g, view, bindings, active, stages, removed, id, f);
      }
      return Failure(inputs.error);
    }
    var left := CheckStages(view, bindings, active);
    if left.Failure? {
      ActiveTaken(g, bindings, active, stages, view, removed);
      return Failure(left.error);
    }
    assert ProjectedBy(g, view, bindings, active, stages);
    return Success(view);
  }
}
