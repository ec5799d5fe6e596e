/**
 Binding the control streams of one prompt, stream after stream into the same graph,
 among the other values that own inputs of it.
 */
module ControlStreams {
  import opened Wrappers
  import opened Decimals
  import opened FrameChain

  /** One verified stream: its input key, its uploaded frames, and its target. */
  datatype Stream = Stream(key: string, refs: seq<string>, node: NodeId, field: string)

  type Target = (NodeId, string)

  function TargetOf(s: Stream): Target { (s.node, s.field) }

  function GeneratedBy(s: Stream): set<NodeId> { Generated(s.key, |s.refs|) }

  function TargetsOf(streams: seq<Stream>): set<Target> { set s | s in streams :: TargetOf(s) }

  predicate DistinctKeys(streams: seq<Stream>) {
    forall i, j | 0 <= i < j < |streams| :: streams[i].key != streams[j].key
  }

  /** Every target is an input of the graph before anything is expanded. */
  predicate Present(g: Graph, streams: seq<Stream>) {
    forall s | s in streams :: HasInput(g, s.node, s.field)
  }

  /** No two streams, and no stream and an earlier owner, share a target. */
  predicate Owned(streams: seq<Stream>, bound: set<Target>) {
    && (forall i, j | 0 <= i < j < |streams| :: TargetOf(streams[i]) != TargetOf(streams[j]))
    && (forall s | s in streams :: TargetOf(s) !in bound)
  }

  /** Frames were uploaded and none of the ids they need is taken. */
  predicate Expandable(g: Graph, s: Stream) { s.refs != [] && GeneratedBy(s) !! g.Keys }

  // ------------------------------------------------------- ids of different keys

  /** Where the last colon stands tells the key: a decimal has none. */
  lemma IdsOfKeys(a: string, i: nat, b: string, j: nat)
    ensures LoadId(a, i) == LoadId(b, j) ==> a == b
    ensures BatchId(a, i) == BatchId(b, j) ==> a == b
    ensures LoadId(a, i) != BatchId(b, j)
  {
    SameStem(a, "::load::", i, b, "::load::", j);
    SameStem(a, "::batch::", i, b, "::batch::", j);
    SameStem(a, "::load::", i, b, "::batch::", j);
    StemsDiffer(a, b);
  }

  lemma StemsDiffer(a: string, b: string)
    ensures a + "::load::" != b + "::batch::"
  {
    var p, q := a + "::load::", b + "::batch::";
    if |p| == |q| {
      assert p[|p| - 3] == 'd' && q[|q| - 3] == 'h';
    }
  }

  lemma SameStem(a: string, u: string, i: nat, b: string, v: string, j: nat)
    requires u != "" && v != "" && u[|u| - 1] == ':' && v[|v| - 1] == ':'
    ensures a + u + Decimal(i) == b + v + Decimal(j) ==> a + u == b + v
    ensures a + u == b + v && |u| == |v| ==> a == b
  {
    if a + u + Decimal(i) == b + v + Decimal(j) {
      DecimalDigits(i);
      DecimalDigits(j);
      LastColon(a + u, Decimal(i), b + v, Decimal(j));
    }
    if a + u == b + v && |u| == |v| {
      assert (a + u)[..|a|] == a && (b + v)[..|b|] == b;
    }
  }

  lemma LastColon(p: string, d: string, q: string, e: string)
    requires p != "" && q != "" && p[|p| - 1] == ':' && q[|q| - 1] == ':' && p + d == q + e
    requires ':' !in d && ':' !in e
    ensures p == q
  {
    var s := p + d;
    assert s[..|p|] == p && s[|p|..] == d && s == q + e && s[..|q|] == q && s[|q|..] == e;
  }

  lemma GeneratedApart(s: Stream, t: Stream)
    requires s.key != t.key
    ensures GeneratedBy(s) !! GeneratedBy(t)
  {
    hide LoadId, BatchId;
    forall i: nat, j: nat
      ensures LoadId(s.key, i) != LoadId(t.key, j) && BatchId(s.key, i) != BatchId(t.key, j)
      ensures LoadId(s.key, i) != BatchId(t.key, j) && BatchId(s.key, i) != LoadId(t.key, j)
    {
      IdsOfKeys(s.key, i, t.key, j);
      IdsOfKeys(t.key, j, s.key, i);
    }
  }

  // ------------------------------------------------------------- what one stream left

  /** The stream's chain is in the graph and its target links the head. */
  ghost predicate Built(g: Graph, s: Stream) {
    && s.refs != []
    && LoadsUpTo(g, s.key, s.refs, |s.refs|) && BatchesUpTo(g, s.key, |s.refs|)
    && HasInput(g, s.node, s.field) && g[s.node].inputs[s.field] == FirstOutput(HeadId(s.key, |s.refs|))
  }

  /** Nothing of this stream is touched: not its generated nodes, not its target. */
  ghost predicate Spared(g: Graph, g': Graph, s: Stream) {
    && (forall id | id in GeneratedBy(s) && id in g :: id in g' && g'[id] == g[id])
    && (HasInput(g, s.node, s.field) ==> HasInput(g', s.node, s.field) && g'[s.node].inputs[s.field] == g[s.node].inputs[s.field])
  }

  lemma SparedStaysBuilt(g: Graph, g': Graph, s: Stream)
    requires Built(g, s) && Spared(g, g', s)
    ensures Built(g', s)
  {
    hide LoadId, BatchId, HeadId;
    assert forall i | 0 <= i < |s.refs| :: LoadId(s.key, i) in LoadIds(s.key, |s.refs|);
    assert forall i | 1 <= i < |s.refs| :: BatchId(s.key, i) in BatchIds(s.key, |s.refs|);
  }

  /** Old nodes keep class and fields, and all values outside these targets. */
  ghost predicate KeptOutside(g: Graph, g': Graph, targets: set<Target>) {
    forall id | id in g ::
      && id in g' && g'[id].classType == g[id].classType && g'[id].inputs.Keys == g[id].inputs.Keys
      && forall f | f in g[id].inputs && (id, f) !in targets :: g'[id].inputs[f] == g[id].inputs[f]
  }

  function AllGenerated(streams: seq<Stream>): set<NodeId> {
    set s, id | s in streams && id in GeneratedBy(s) :: id
  }

  /** What binding these streams makes of g. */
  ghost predicate BoundAll(g: Graph, g': Graph, streams: seq<Stream>) {
    && g'.Keys == g.Keys + AllGenerated(streams)
    && KeptOutside(g, g', TargetsOf(streams))
    && forall s | s in streams :: Built(g', s)
  }

  /** One expansion at a target of g builds its stream and spares the others. */
  lemma ExpandedBuilds(g: Graph, g': Graph, s: Stream)
    requires s.refs != [] && Expanded(g, g', s.key, s.refs, s.node, s.field) && s.node in g
    ensures Built(g', s) && KeptOutside(g, g', {TargetOf(s)}) && g'.Keys == g.Keys + GeneratedBy(s)
    ensures forall id | id in g && id != s.node :: g'[id] == g[id]
  {
    hide LoadsUpTo, BatchesUpTo, HeadId, LoadIds, BatchIds;
    var base :| ChainAdded(g, base, s.key, s.refs) && HasInput(base, s.node, s.field)
                && g' == Rebound(base, s.node, s.field, HeadId(s.key, |s.refs|));
    GeneratedKept(g, base, s.key, s.refs, s.node, s.field);
  }

  lemma ExpandedSpares(g0: Graph, g: Graph, g': Graph, s: Stream, t: Stream)
    requires s.refs != [] && Expanded(g, g', s.key, s.refs, s.node, s.field)
    requires s.node in g0 && g0.Keys <= g.Keys && GeneratedBy(t) !! g0.Keys && TargetOf(s) != TargetOf(t)
    ensures Spared(g, g', t)
  {
    hide Generated, ChainAdded, Built;
    ExpandedBuilds(g, g', s);
  }

  // ------------------------------------------------------------------- the loop

  datatype StreamError = TargetOwned | NotBound(error: BindError)

  /** What is wrong with the streams, error by error. */
  ghost predicate StreamFails(g: Graph, streams: seq<Stream>, reserved: set<Target>, e: StreamError) {
    match e
    case TargetOwned => !Owned(streams, reserved)
    case NotBound(NoReference) => exists s :: s in streams && s.refs == []
    case NotBound(IdClash) => exists s :: s in streams && s.refs != [] && !(GeneratedBy(s) !! g.Keys)
    case NotBound(_) => false
  }

  lemma OwnedSnoc(streams: seq<Stream>, i: nat, bound: set<Target>)
    requires i < |streams|
    ensures Owned(streams[..i + 1], bound) <==>
              Owned(streams[..i], bound) && TargetOf(streams[i]) !in bound + TargetsOf(streams[..i])
    ensures TargetsOf(streams[..i + 1]) == TargetsOf(streams[..i]) + {TargetOf(streams[i])}
    ensures Owned(streams, bound) ==> Owned(streams[..i + 1], bound)
  {
    hide TargetOf;
    assert streams[..i + 1] == streams[..i] + [streams[i]];
  }

  /** What earlier streams generated does not stand in the way of this one. */
  lemma StillExpandable(g: Graph, graph: Graph, streams: seq<Stream>, i: nat)
    requires i < |streams| && DistinctKeys(streams) && BoundAll(g, graph, streams[..i])
    ensures Expandable(graph, streams[i]) <==> Expandable(g, streams[i])
  {
    hide Generated, Built, KeptOutside;
    forall s | s in streams[..i]
      ensures GeneratedBy(s) !! GeneratedBy(streams[i])
    {
      GeneratedApart(s, streams[i]);
    }
    hide GeneratedBy;
    assert AllGenerated(streams[..i]) !! GeneratedBy(streams[i]);
  }

  lemma StillPresent(g: Graph, graph: Graph, streams: seq<Stream>, s: Stream)
    requires KeptOutside(g, graph, TargetsOf(streams)) && HasInput(g, s.node, s.field)
    ensures HasInput(graph, s.node, s.field)
  {}

  lemma KeptTwice(g: Graph, g1: Graph, g2: Graph, a: set<Target>, b: set<Target>)
    requires KeptOutside(g, g1, a) && KeptOutside(g1, g2, b)
    ensures KeptOutside(g, g2, a + b)
  {}

  lemma BoundSnoc(g: Graph, graph: Graph, graph': Graph, streams: seq<Stream>, i: nat)
    requires i < |streams| && BoundAll(g, graph, streams[..i]) && HasInput(g, streams[i].node, streams[i].field)
    requires Owned(streams[..i + 1], {}) && forall s | s in streams[..i] :: Expandable(g, s)
    requires var s := streams[i]; s.refs != [] && Expanded(graph, graph', s.key, s.refs, s.node, s.field)
    ensures BoundAll(g, graph', streams[..i + 1])
  {
    hide Expanded, Built, Spared, GeneratedBy, KeptOutside, TargetsOf, TargetOf, Owned, Expandable;
    var s := streams[i];
    assert streams[..i + 1] == streams[..i] + [s];
    ExpandedBuilds(graph, graph', s);
    forall t | t in streams[..i]
      ensures Built(graph', t)
    {
      OtherStaysBuilt(g, graph, graph', streams, i, t);
    }
    KeptTwice(g, graph, graph', TargetsOf(streams[..i]), {TargetOf(s)});
    OwnedSnoc(streams, i, {});
    assert AllGenerated(streams[..i + 1]) == AllGenerated(streams[..i]) + GeneratedBy(s);
  }

  lemma OtherStaysBuilt(g: Graph, graph: Graph, graph': Graph, streams: seq<Stream>, i: nat, t: Stream)
    requires i < |streams| && g.Keys <= graph.Keys && HasInput(g, streams[i].node, streams[i].field)
    requires Owned(streams[..i + 1], {}) && t in streams[..i] && Expandable(g, t) && Built(graph, t)
    requires var s := streams[i]; s.refs != [] && Expanded(graph, graph', s.key, s.refs, s.node, s.field)
    ensures Built(graph', t)
  {
    hide Expanded, Built, Spared, Generated;
    var j :| 0 <= j < i && streams[j] == t;
    assert streams[..i + 1][j] == t && streams[..i + 1][i] == streams[i];
    ExpandedSpares(g, graph, graph', streams[i], t);
    SparedStaysBuilt(graph, graph', t);
  }

  /** _bind_schema3_derived over the sorted keys.  The targets are inputs of the graph:
      the manifest was validated against the template and active stages survive the
      projection. */
  method BindStreams(g: Graph, streams: seq<Stream>, reserved: set<Target>) returns (r: Result<Graph, StreamError>)
    requires DistinctKeys(streams) && Present(g, streams)
    ensures r.Success? <==> Owned(streams, reserved) && forall s | s in streams :: Expandable(g, s)
    ensures r.Success? ==> BoundAll(g, r.value, streams)
    ensures r.Failure? ==> StreamFails(g, streams, reserved, r.error)
  {
    hide Expanded, Built, Owned, BoundAll, TargetsOf, Expandable;
    var graph, bound, i := g, reserved, 0;
    NothingBound(g, streams, reserved);
    while i < |streams|
      invariant 0 <= i <= |streams| && bound == reserved + TargetsOf(streams[..i])
      invariant BoundAll(g, graph, streams[..i]) && Owned(streams[..i], reserved)
      invariant forall s | s in streams[..i] :: Expandable(g, s)
    {
      var s := streams[i];
      assert s in streams && streams[..i + 1] == streams[..i] + [s];
      OwnedSnoc(streams, i, reserved);
      if TargetOf(s) in bound {
        return Failure(TargetOwned);
      }
      bound := bound + {TargetOf(s)};
      CanExpand(g, graph, streams, i);
      var b := BindControlStream(graph, s.key, s.refs, s.node, s.field);
      if b.Failure? {
        CannotExpand(g, streams, reserved, s, b.error);
        return Failure(NotBound(b.error));
      }
      OwnedByFewer(streams[..i + 1], reserved);
      BoundSnoc(g, graph, b.value, streams, i);
      graph := b.value;
      i := i + 1;
    }
    assert streams[..i] == streams;
    return Success(graph);
  }

  lemma CannotExpand(g: Graph, streams: seq<Stream>, reserved: set<Target>, s: Stream, e: BindError)
    requires s in streams && !Expandable(g, s) && e == if s.refs == [] then NoReference else IdClash
    ensures StreamFails(g, streams, reserved, NotBound(e))
  {}

  lemma NothingBound(g: Graph, streams: seq<Stream>, reserved: set<Target>)
    ensures BoundAll(g, g, streams[..0]) && Owned(streams[..0], reserved) && TargetsOf(streams[..0]) == {}
  {}

  lemma OwnedByFewer(streams: seq<Stream>, bound: set<Target>)
    requires Owned(streams, bound)
    ensures Owned(streams, {})
  {}

  lemma CanExpand(g: Graph, graph: Graph, streams: seq<Stream>, i: nat)
    requires i < |streams| && DistinctKeys(streams) && BoundAll(g, graph, streams[..i]) && Present(g, streams)
    ensures HasInput(graph, streams[i].node, streams[i].field)
    ensures Expandable(g, streams[i]) <==>
              streams[i].refs != [] && Generated(streams[i].key, |streams[i].refs|) !! graph.Keys
  {
    hide Generated, Built, KeptOutside;
    StillExpandable(g, graph, streams, i);
    StillPresent(g, graph, streams[..i], streams[i]);
  }
}
