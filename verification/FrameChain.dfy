/**
 The control-frame chain: uploaded frames become LoadImage nodes joined by a
 left-deep chain of two-input batch nodes, and a live gate later walks the chain of
 a prompt graph backward to recover them.
 */
module FrameChain {
  import opened Wrappers
  import opened Decimals

  type NodeId = string

  /** A JSON value as an input: text, a list that starts with a node id (the link
      [node, slot] when one item follows), or anything else, kept as its text. */
  datatype Input = Text(s: string) | Link(to: NodeId, rest: seq<string>) | Other(json: string)

  function FirstOutput(id: NodeId): Input { Link(id, ["0"]) }

  datatype Node = Node(classType: string, inputs: map<string, Input>)

  type Graph = map<NodeId, Node>

  predicate IsLoad(n: Node) { n.classType == "LoadImage" }

  function LoadId(key: string, i: nat): NodeId { key + "::load::" + Decimal(i) }

  function BatchId(key: string, i: nat): NodeId { key + "::batch::" + Decimal(i) }

  /** The head of the chain over the first n frames. */
  function HeadId(key: string, n: nat): NodeId
    requires n > 0
  {
    if n == 1 then LoadId(key, 0) else BatchId(key, n - 1)
  }

  function LoadNode(ref: string): Node { Node("LoadImage", map["image" := Text(ref)]) }

  function BatchNode(key: string, i: nat): Node
    requires i > 0
  {
    Node("ImageBatch", map["image1" := FirstOutput(HeadId(key, i)), "image2" := FirstOutput(LoadId(key, i))])
  }

  // ------------------------------------------------------------------ the chain

  predicate HasInput(g: Graph, id: NodeId, field: string) { id in g && field in g[id].inputs }

  predicate HasLink(g: Graph, id: NodeId, field: string) { HasInput(g, id, field) && g[id].inputs[field].Link? }

  /** The walk subscripts with 0 and uses what it gets as a node id: the first item of a
      list, or the first character of a text. */
  predicate Names(v: Input) { v.Link? || (v.Text? && v.s != "") }

  function Ref(v: Input): NodeId
    requires Names(v)
  {
    if v.Link? then v.to else v.s[..1]
  }

  predicate HasRef(g: Graph, id: NodeId, field: string) { HasInput(g, id, field) && Names(g[id].inputs[field]) }

  /** From id the graph is a chain whose frames, oldest first, are these. */
  predicate Chain(g: Graph, id: NodeId, frames: seq<Input>)
    decreases |frames|
  {
    && frames != [] && id in g
    && var last := frames[|frames| - 1];
    && if IsLoad(g[id]) then |frames| == 1 && HasInput(g, id, "image") && last == g[id].inputs["image"]
       else
         && |frames| > 1 && HasRef(g, id, "image1") && HasRef(g, id, "image2")
         && HasInput(g, Ref(g[id].inputs["image2"]), "image")
         && last == g[Ref(g[id].inputs["image2"])].inputs["image"]
         && Chain(g, Ref(g[id].inputs["image1"]), frames[..|frames| - 1])
  }

  /** A graph holds at most one chain from a node. */
  lemma {:induction false} ChainIsUnique(g: Graph, id: NodeId, a: seq<Input>, b: seq<Input>)
    requires Chain(g, id, a) && Chain(g, id, b)
    ensures a == b
    decreases |a|
  {
    assert a == a[..|a| - 1] + [a[|a| - 1]];
    assert b == b[..|b| - 1] + [b[|b| - 1]];
    if !IsLoad(g[id]) {
      ChainIsUnique(g, Ref(g[id].inputs["image1"]), a[..|a| - 1], b[..|b| - 1]);
    }
  }

  // ----------------------------------------------------------------- the builder

  datatype BindError = NoReference | IdClash | NoTargetNode | NoTargetField

  function LoadIds(key: string, n: nat): set<NodeId> { set i | 0 <= i < n :: LoadId(key, i) }

  function BatchIds(key: string, n: nat): set<NodeId> { set i | 1 <= i < n :: BatchId(key, i) }

  /** load::0..n-1 and batch::1..n-1; batch::0 is never generated. */
  function Generated(key: string, n: nat): set<NodeId> { LoadIds(key, n) + BatchIds(key, n) }

  predicate LoadsUpTo(g: Graph, key: string, refs: seq<string>, n: nat)
    requires n <= |refs|
  {
    forall i | 0 <= i < n :: LoadId(key, i) in g && g[LoadId(key, i)] == LoadNode(refs[i])
  }

  predicate BatchesUpTo(g: Graph, key: string, n: nat) {
    forall i | 1 <= i < n :: BatchId(key, i) in g && g[BatchId(key, i)] == BatchNode(key, i)
  }

  /** base is g with the generated nodes, none of which it had. */
  ghost predicate ChainAdded(g: Graph, base: Graph, key: string, refs: seq<string>) {
    && Generated(key, |refs|) !! g.Keys && base.Keys == g.Keys + Generated(key, |refs|)
    && (forall id | id in g :: base[id] == g[id])
    && LoadsUpTo(base, key, refs, |refs|) && BatchesUpTo(base, key, |refs|)
  }

  function Rebound(g: Graph, node: NodeId, field: string, head: NodeId): Graph
    requires node in g
  {
    g[node := g[node].(inputs := g[node].inputs[field := FirstOutput(head)])]
  }

  /** g' is g with the chain added, then one existing input rebound to its head: the
      target may be one of the nodes just added. */
  ghost predicate Expanded(g: Graph, g': Graph, key: string, refs: seq<string>, node: NodeId, field: string)
    requires refs != []
  {
    exists base :: ChainAdded(g, base, key, refs) && HasInput(base, node, field)
                   && g' == Rebound(base, node, field, HeadId(key, |refs|))
  }

  /** The inputs of the generated nodes. */
  predicate GeneratedTarget(key: string, n: nat, node: NodeId, field: string) {
    (node in LoadIds(key, n) && field == "image") || (node in BatchIds(key, n) && field in ["image1", "image2"])
  }

  lemma IdsDiffer(key: string, i: nat, j: nat)
    ensures LoadId(key, i) == LoadId(key, j) <==> i == j
    ensures BatchId(key, i) == BatchId(key, j) <==> i == j
    ensures LoadId(key, i) != BatchId(key, j)
  {
    DecimalsDiffer(i, j);
    var n := |key|;
    assert LoadId(key, i)[n + 8..] == Decimal(i) && LoadId(key, j)[n + 8..] == Decimal(j);
    assert BatchId(key, i)[n + 9..] == Decimal(i) && BatchId(key, j)[n + 9..] == Decimal(j);
    assert LoadId(key, i)[n + 2] == 'l' && BatchId(key, j)[n + 2] == 'b';
  }

  /** _bind_schema3_control_stream: nothing is touched before the whole set of ids to
      be generated is known to be free; the target is looked up after the expansion. */
  method BindControlStream(g: Graph, key: string, refs: seq<string>, node: NodeId, field: string)
    returns (r: Result<Graph, BindError>)
    ensures r.Success? ==> refs != [] && Expanded(g, r.value, key, refs, node, field)
    ensures r == Failure(NoReference) <==> refs == []
    ensures r == Failure(IdClash) <==> refs != [] && !(Generated(key, |refs|) !! g.Keys)
    ensures refs != [] && Generated(key, |refs|) !! g.Keys ==>
              && (r.Success? <==> HasInput(g, node, field) || GeneratedTarget(key, |refs|, node, field))
              && (r == Failure(NoTargetNode) <==> node !in g && node !in Generated(key, |refs|))
  {
    if refs == [] {
      return Failure(NoReference);
    }
    if !(Generated(key, |refs|) !! g.Keys) {
      return Failure(IdClash);
    }
    var graph := AddChain(g, key, refs);
    Targets(g, graph, key, refs, node, field);
    hide Generated, LoadsUpTo, BatchesUpTo, GeneratedTarget;
    if node !in graph {
      return Failure(NoTargetNode);
    }
    if field !in graph[node].inputs {
      return Failure(NoTargetField);
    }
    return Success(Rebound(graph, node, field, HeadId(key, |refs|)));
  }

  lemma FirstNumerals()
    ensures Decimal(0) == "0" && Decimal(1) == "1"
  {}

  /** A generated node as it is written. */
  lemma LoadInText(g: Graph, base: Graph, key: string, refs: seq<string>, i: nat)
    requires ChainAdded(g, base, key, refs) && i < |refs|
    ensures var id := key + "::load::" + Decimal(i); id in base && base[id] == Node("LoadImage", map["image" := Text(refs[i])])
  {
    hide Decimal;
    assert base[LoadId(key, i)] == LoadNode(refs[i]);
  }

  lemma FirstIdInText(key: string)
    ensures LoadId(key, 0) == key + "::load::0"
  {
    FirstNumerals();
    assert key + "::load::" + "0" == key + "::load::0";
  }

  lemma BatchInText(g: Graph, base: Graph, key: string, refs: seq<string>, i: nat)
    requires ChainAdded(g, base, key, refs) && 1 <= i < |refs|
    ensures var id := key + "::batch::" + Decimal(i);
            var before := if i == 1 then key + "::load::0" else key + "::batch::" + Decimal(i - 1);
            id in base
            && base[id] == Node("ImageBatch", map["image1" := Link(before, ["0"]), "image2" := Link(key + "::load::" + Decimal(i), ["0"])])
  {
    FirstIdInText(key);
    hide Decimal, Generated, LoadsUpTo;
    assert base[BatchId(key, i)] == BatchNode(key, i);
  }

  /** The link that the target gets. */
  lemma HeadInText(base: Graph, key: string, n: nat, node: NodeId, field: string)
    requires n > 0 && node in base
    ensures Rebound(base, node, field, HeadId(key, n))[node].inputs[field] ==
            Link(if n == 1 then key + "::load::0" else key + "::batch::" + Decimal(n - 1), ["0"])
  {
    FirstIdInText(key);
    hide Decimal;
  }

  lemma Targets(g: Graph, base: Graph, key: string, refs: seq<string>, node: NodeId, field: string)
    requires ChainAdded(g, base, key, refs)
    ensures HasInput(base, node, field) <==> HasInput(g, node, field) || GeneratedTarget(key, |refs|, node, field)
  {
    hide LoadId, BatchId;
    BatchesAreNotLoads(key, |refs|, |refs|);
  }

  lemma LoadIdIsNew(key: string, i: nat)
    ensures LoadId(key, i) !in LoadIds(key, i)
    ensures LoadIds(key, i + 1) == LoadIds(key, i) + {LoadId(key, i)}
  {
    hide LoadId, BatchId;
    forall j | 0 <= j < i
      ensures LoadId(key, j) != LoadId(key, i)
    {
      IdsDiffer(key, j, i);
    }
  }

  lemma BatchIdIsNew(key: string, n: nat, i: nat)
    requires i > 0
    ensures BatchId(key, i) !in LoadIds(key, n) && BatchId(key, i) !in BatchIds(key, i)
    ensures BatchIds(key, i + 1) == BatchIds(key, i) + {BatchId(key, i)}
  {
    hide LoadId, BatchId;
    forall j: nat
      ensures LoadId(key, j) != BatchId(key, i) && (j != i ==> BatchId(key, j) != BatchId(key, i))
    {
      IdsDiffer(key, j, i);
    }
  }

  method AddLoads(g: Graph, key: string, refs: seq<string>) returns (graph: Graph)
    requires LoadIds(key, |refs|) !! g.Keys
    ensures graph.Keys == g.Keys + LoadIds(key, |refs|)
    ensures forall id | id in g :: graph[id] == g[id]
    ensures LoadsUpTo(graph, key, refs, |refs|)
  {
    hide LoadId;
    graph := g;
    var i := 0;
    while i < |refs|
      invariant 0 <= i <= |refs|
      invariant graph.Keys == g.Keys + LoadIds(key, i)
      invariant forall id | id in g :: graph[id] == g[id]
      invariant LoadsUpTo(graph, key, refs, i)
    {
      LoadIdIsNew(key, i);
      assert LoadId(key, i) in LoadIds(key, |refs|);
      assert forall j | 0 <= j < i :: LoadId(key, j) in LoadIds(key, i);
      graph := graph[LoadId(key, i) := LoadNode(refs[i])];
      i := i + 1;
    }
  }

  /** One more batch node touches nothing that is there. */
  lemma BatchAdded(graph: Graph, key: string, i: nat, nid: NodeId)
    requires i > 0 && nid == BatchId(key, i) && nid !in graph && BatchesUpTo(graph, key, i)
    ensures BatchesUpTo(graph[nid := BatchNode(key, i)], key, i + 1)
  {}

  method AddBatches(g: Graph, key: string, n: nat) returns (graph: Graph)
    requires n > 0 && BatchIds(key, n) !! g.Keys
    ensures graph.Keys == g.Keys + BatchIds(key, n)
    ensures forall id | id in g :: graph[id] == g[id]
    ensures BatchesUpTo(graph, key, n)
  {
    hide LoadId, BatchId, BatchesUpTo;
    graph := g;
    NoBatchYet(graph, key);
    var head := LoadId(key, 0);
    var i := 1;
    while i < n
      invariant 1 <= i <= n && head == HeadId(key, i)
      invariant graph.Keys == g.Keys + BatchIds(key, i)
      invariant forall id | id in g :: graph[id] == g[id]
      invariant BatchesUpTo(graph, key, i)
    {
      var nid := BatchId(key, i);
      BatchIdIsNew(key, n, i);
      assert nid in BatchIds(key, n);
      BatchAdded(graph, key, i, nid);
      graph := graph[nid := Node("ImageBatch", map["image1" := FirstOutput(head), "image2" := FirstOutput(LoadId(key, i))])];
      head := nid;
      i := i + 1;
    }
  }

  lemma NoBatchYet(g: Graph, key: string)
    ensures BatchesUpTo(g, key, 1) && BatchIds(key, 1) == {}
  {}

  lemma BatchesAreNotLoads(key: string, n: nat, m: nat)
    ensures LoadIds(key, n) !! BatchIds(key, m)
  {
    hide LoadId, BatchId;
    forall i: nat, j: nat
      ensures LoadId(key, i) != BatchId(key, j)
    {
      IdsDiffer(key, i, j);
    }
  }

  lemma LoadsKept(g: Graph, g': Graph, key: string, refs: seq<string>)
    requires LoadsUpTo(g, key, refs, |refs|) && forall id | id in g :: id in g' && g'[id] == g[id]
    ensures LoadsUpTo(g', key, refs, |refs|)
  {}

  method AddChain(g: Graph, key: string, refs: seq<string>) returns (graph: Graph)
    requires refs != [] && Generated(key, |refs|) !! g.Keys
    ensures graph.Keys == g.Keys + Generated(key, |refs|)
    ensures forall id | id in g :: graph[id] == g[id]
    ensures LoadsUpTo(graph, key, refs, |refs|) && BatchesUpTo(graph, key, |refs|)
  {
    hide LoadIds, BatchIds, LoadsUpTo, BatchesUpTo;
    BatchesAreNotLoads(key, |refs|, |refs|);
    var loaded := AddLoads(g, key, refs);
    graph := AddBatches(loaded, key, |refs|);
    LoadsKept(loaded, graph, key, refs);
  }

  // ------------------------------------------------------------------ the walker

  /** Each non-load node of the region is ranked above the node its image1 links to. */
  ghost predicate Ranked(g: Graph, rank: map<NodeId, nat>) {
    forall id | id in rank && id in g && !IsLoad(g[id]) && HasRef(g, id, "image1") ::
      Ref(g[id].inputs["image1"]) in rank && rank[Ref(g[id].inputs["image1"])] < rank[id]
  }

  function Reversed(s: seq<Input>): seq<Input>
    decreases |s|
  {
    if s == [] then [] else Reversed(s[1..]) + [s[0]]
  }

  lemma {:induction false} ReversedSnoc(s: seq<Input>, x: Input)
    ensures Reversed(s + [x]) == [x] + Reversed(s)
    decreases |s|
  {
    if s == [] {
      assert s + [x] == [x] && [x][1..] == s;
    } else {
      ReversedSnoc(s[1..], x);
      assert (s + [x])[1..] == s[1..] + [x];
    }
  }

  datatype WalkError = KeyError

  /** The backward walk ends in any region that a rank shows to be acyclic, and it
      recovers the chain if and only if there is one. */
  method WalkFrames(g: Graph, head: NodeId, ghost rank: map<NodeId, nat>) returns (r: Result<seq<Input>, WalkError>)
    requires Ranked(g, rank) && head in rank
    ensures r.Success? ==> Chain(g, head, r.value)
    ensures r.Failure? ==> forall frames :: !Chain(g, head, frames)
  {
    var frames: seq<Input> := [];
    var cursor := head;
    assert forall before: seq<Input> :: before + Reversed(frames) == before;
    while true
      invariant cursor in rank
      invariant forall before :: Chain(g, cursor, before) ==> Chain(g, head, before + Reversed(frames))
      invariant forall all :: Chain(g, head, all) ==> exists before :: Chain(g, cursor, before)
      decreases rank[cursor]
    {
      if cursor !in g {
        return Failure(KeyError);
      }
      var nd := g[cursor];
      if IsLoad(nd) {
        if "image" !in nd.inputs {
          return Failure(KeyError);
        }
        assert Chain(g, cursor, [nd.inputs["image"]]);
        ReversedSnoc(frames, nd.inputs["image"]);
        frames := frames + [nd.inputs["image"]];
        break;
      }
      if !HasRef(g, cursor, "image2") || !HasInput(g, Ref(nd.inputs["image2"]), "image") || !HasRef(g, cursor, "image1") {
        return Failure(KeyError);
      }
      var frame := g[Ref(nd.inputs["image2"])].inputs["image"];
      OneLink(g, head, cursor, frames, frame);
      frames := frames + [frame];
      cursor := Ref(nd.inputs["image1"]);
    }
    return Success(Reversed(frames));
  }

  lemma OneLink(g: Graph, head: NodeId, cursor: NodeId, frames: seq<Input>, frame: Input)
    requires HasRef(g, cursor, "image1") && HasRef(g, cursor, "image2") && !IsLoad(g[cursor])
    requires HasInput(g, Ref(g[cursor].inputs["image2"]), "image")
    requires frame == g[Ref(g[cursor].inputs["image2"])].inputs["image"]
    requires forall before :: Chain(g, cursor, before) ==> Chain(g, head, before + Reversed(frames))
    ensures forall before :: Chain(g, Ref(g[cursor].inputs["image1"]), before) ==>
              Chain(g, head, before + Reversed(frames + [frame]))
    ensures (exists before :: Chain(g, cursor, before)) ==>
              exists before :: Chain(g, Ref(g[cursor].inputs["image1"]), before)
  {
    forall before | Chain(g, Ref(g[cursor].inputs["image1"]), before)
      ensures Chain(g, head, before + Reversed(frames + [frame]))
    {
      var longer := before + [frame];
      assert longer[..|longer| - 1] == before;
      assert Chain(g, cursor, longer);
      ReversedSnoc(frames, frame);
      assert longer + Reversed(frames) == before + Reversed(frames + [frame]);
    }
    if before :| Chain(g, cursor, before) {
      assert Chain(g, Ref(g[cursor].inputs["image1"]), before[..|before| - 1]);
    }
  }

  // ------------------------------------------------------------------ round trip

  function AsInputs(refs: seq<string>): seq<Input> {
    seq(|refs|, i requires 0 <= i < |refs| => Text(refs[i]))
  }

  lemma {:induction false} BuiltChain(g: Graph, key: string, refs: seq<string>, n: nat)
    requires 0 < n <= |refs| && LoadsUpTo(g, key, refs, |refs|) && BatchesUpTo(g, key, |refs|)
    ensures Chain(g, HeadId(key, n), AsInputs(refs[..n]))
    decreases n
  {
    hide LoadId, BatchId, HeadId, LoadNode, BatchNode, LoadsUpTo, BatchesUpTo, Chain, AsInputs;
    LoadAt(g, key, refs, n - 1);
    InputsSnoc(refs, n);
    if n == 1 {
      OneFrame(g, key, refs[0]);
    } else {
      BatchAt(g, key, |refs|, n - 1);
      BuiltChain(g, key, refs, n - 1);
      BatchExtends(g, key, n - 1, AsInputs(refs[..n - 1]), refs[n - 1]);
      HeadOfMore(key, n);
    }
  }

  lemma LoadAt(g: Graph, key: string, refs: seq<string>, i: nat)
    requires i < |refs| && LoadsUpTo(g, key, refs, |refs|)
    ensures LoadId(key, i) in g && g[LoadId(key, i)] == LoadNode(refs[i])
  {}

  lemma BatchAt(g: Graph, key: string, n: nat, j: nat)
    requires 1 <= j < n && BatchesUpTo(g, key, n)
    ensures BatchId(key, j) in g && g[BatchId(key, j)] == BatchNode(key, j)
  {}

  lemma InputsSnoc(refs: seq<string>, n: nat)
    requires 0 < n <= |refs|
    ensures AsInputs(refs[..n]) == AsInputs(refs[..n - 1]) + [Text(refs[n - 1])]
    ensures n == 1 ==> AsInputs(refs[..n]) == [Text(refs[0])]
  {}

  lemma OneFrame(g: Graph, key: string, ref: string)
    requires LoadId(key, 0) in g && g[LoadId(key, 0)] == LoadNode(ref)
    ensures Chain(g, HeadId(key, 1), [Text(ref)])
  {
    hide LoadId;
  }

  lemma HeadOfMore(key: string, n: nat)
    requires n > 1
    ensures HeadId(key, n) == BatchId(key, n - 1)
  {}

  /** A batch node adds the frame of its load to the chain before it. */
  lemma BatchExtends(g: Graph, key: string, j: nat, before: seq<Input>, ref: string)
    requires j > 0 && BatchId(key, j) in g && g[BatchId(key, j)] == BatchNode(key, j)
    requires LoadId(key, j) in g && g[LoadId(key, j)] == LoadNode(ref) && Chain(g, HeadId(key, j), before)
    ensures Chain(g, BatchId(key, j), before + [Text(ref)])
  {
    hide LoadId, BatchId, HeadId;
    var frames := before + [Text(ref)];
    assert frames[..|frames| - 1] == before;
  }

  /** From the link left in the target the walk recovers exactly these frames. */
  ghost predicate RoundTrips(g: Graph, node: NodeId, field: string, refs: seq<string>) {
    HasLink(g, node, field) && forall frames :: Chain(g, g[node].inputs[field].to, frames) <==> frames == AsInputs(refs)
  }

  /** One expansion on its own: walking the link left in the target gives back exactly
      these frames, in order, if and only if the target was there before.  The builder
      itself would take a target that it has just generated; PromptGraph shows that the
      translator, which validates its bindings first, never passes one. */
  lemma ChainRoundTrip(g: Graph, g': Graph, key: string, refs: seq<string>, node: NodeId, field: string)
    requires refs != [] && Expanded(g, g', key, refs, node, field)
    ensures RoundTrips(g', node, field, refs) <==> node in g
    ensures node in g ==> exists rank :: Ranked(g', rank) && g'[node].inputs[field].to in rank
  {
    var base :| ChainAdded(g, base, key, refs) && HasInput(base, node, field)
                && g' == Rebound(base, node, field, HeadId(key, |refs|));
    if node in g {
      TemplateTargetKeepsChain(g, base, key, refs, node, field);
    } else {
      Targets(g, base, key, refs, node, field);
      GeneratedTargetBreaksChain(base, key, refs, node, field);
    }
  }

  lemma GeneratedKept(g: Graph, base: Graph, key: string, refs: seq<string>, node: NodeId, field: string)
    requires refs != [] && ChainAdded(g, base, key, refs) && node in g
    ensures var g' := Rebound(base, node, field, HeadId(key, |refs|));
            LoadsUpTo(g', key, refs, |refs|) && BatchesUpTo(g', key, |refs|)
  {
    hide LoadId, BatchId, HeadId;
    assert forall i | 0 <= i < |refs| :: LoadId(key, i) in LoadIds(key, |refs|);
    assert forall i | 1 <= i < |refs| :: BatchId(key, i) in BatchIds(key, |refs|);
  }

  lemma TemplateTargetKeepsChain(g: Graph, base: Graph, key: string, refs: seq<string>, node: NodeId, field: string)
    requires refs != [] && ChainAdded(g, base, key, refs) && node in g
    ensures var g' := Rebound(base, node, field, HeadId(key, |refs|));
            RoundTrips(g', node, field, refs) && exists rank :: Ranked(g', rank) && g'[node].inputs[field].to in rank
  {
    GeneratedKept(g, base, key, refs, node, field);
    LinkedChain(Rebound(base, node, field, HeadId(key, |refs|)), key, refs, node, field);
  }

  lemma LinkedChain(g: Graph, key: string, refs: seq<string>, node: NodeId, field: string)
    requires refs != [] && LoadsUpTo(g, key, refs, |refs|) && BatchesUpTo(g, key, |refs|)
    requires HasLink(g, node, field) && g[node].inputs[field].to == HeadId(key, |refs|)
    ensures RoundTrips(g, node, field, refs)
    ensures exists rank :: Ranked(g, rank) && g[node].inputs[field].to in rank
  {
    BuiltChain(g, key, refs, |refs|);
    assert refs[..|refs|] == refs;
    var rank := BuiltRank(g, key, refs);
    var head := HeadId(key, |refs|);
    hide HeadId, LoadsUpTo, BatchesUpTo, Ranked, AsInputs;
    forall frames | Chain(g, head, frames)
      ensures frames == AsInputs(refs)
    {
      ChainIsUnique(g, head, frames, AsInputs(refs));
    }
  }

  /** The generated region ranks itself. */
  lemma BuiltRank(g: Graph, key: string, refs: seq<string>) returns (rank: map<NodeId, nat>)
    requires refs != [] && LoadsUpTo(g, key, refs, |refs|) && BatchesUpTo(g, key, |refs|)
    ensures Ranked(g, rank) && HeadId(key, |refs|) in rank
  {
    rank := RankIds(key, |refs|);
    forall id | id in rank && id in g && !IsLoad(g[id]) && HasRef(g, id, "image1")
      ensures Ref(g[id].inputs["image1"]) in rank && rank[Ref(g[id].inputs["image1"])] < rank[id]
    {
      RankedLink(g, key, refs, rank, id);
    }
    HeadIsGenerated(key, |refs|);
  }

  lemma HeadIsGenerated(key: string, n: nat)
    requires n > 0
    ensures HeadId(key, n) in Generated(key, n)
  {}

  /** Loads at the bottom, each batch at its index. */
  ghost predicate RanksIds(rank: map<NodeId, nat>, key: string, n: nat) {
    && rank.Keys == Generated(key, n)
    && (forall i | 0 <= i < n :: LoadId(key, i) in rank && rank[LoadId(key, i)] == 0)
    && (forall j | 1 <= j < n :: BatchId(key, j) in rank && rank[BatchId(key, j)] == j)
  }

  lemma RankIds(key: string, n: nat) returns (rank: map<NodeId, nat>)
    requires n > 0
    ensures RanksIds(rank, key, n)
  {
    hide LoadId, BatchId;
    rank := ZeroRank(LoadIds(key, 1));
    assert BatchIds(key, 1) == {};
    var i := 1;
    while i < n
      invariant 1 <= i <= n && RanksIds(rank, key, i)
    {
      LoadIdIsNew(key, i);
      BatchIdIsNew(key, i + 1, i);
      assert LoadId(key, i) !in BatchIds(key, i) by { BatchesAreNotLoads(key, i + 1, i); }
      rank := rank[LoadId(key, i) := 0][BatchId(key, i) := i];
      i := i + 1;
    }
  }

  lemma RankedLink(g: Graph, key: string, refs: seq<string>, rank: map<NodeId, nat>, id: NodeId)
    requires refs != [] && LoadsUpTo(g, key, refs, |refs|) && BatchesUpTo(g, key, |refs|)
    requires RanksIds(rank, key, |refs|) && id in rank && id in g && !IsLoad(g[id]) && HasRef(g, id, "image1")
    ensures Ref(g[id].inputs["image1"]) in rank && rank[Ref(g[id].inputs["image1"])] < rank[id]
  {
    hide LoadId, BatchId;
    forall i | 0 <= i < |refs|
      ensures IsLoad(g[LoadId(key, i)])
    {
      assert g[LoadId(key, i)] == LoadNode(refs[i]);
    }
    var j :| 1 <= j < |refs| && id == BatchId(key, j);
    assert g[id] == BatchNode(key, j);
  }

  function ZeroRank(ids: set<NodeId>): map<NodeId, nat> { map id | id in ids :: 0 }

  /** No generated node would do as target: rebinding a load replaces its frame by the
      link, an image1 closes a cycle, an image2 asks a batch node for a frame. */
  lemma GeneratedTargetBreaksChain(base: Graph, key: string, refs: seq<string>, node: NodeId, field: string)
    requires refs != [] && LoadsUpTo(base, key, refs, |refs|) && BatchesUpTo(base, key, |refs|)
    requires GeneratedTarget(key, |refs|, node, field) && node in base
    ensures !RoundTrips(Rebound(base, node, field, HeadId(key, |refs|)), node, field, refs)
  {
    var n := |refs|;
    var g' := Rebound(base, node, field, HeadId(key, n));
    assert refs[..n] == refs;
    if field == "image" {
      var i :| 0 <= i < n && node == LoadId(key, i);
      LoadTargetSpoils(base, g', key, refs, i, n);
    } else {
      var i :| 1 <= i < n && node == BatchId(key, i);
      BatchTargetSpoils(base, g', key, refs, i, field, n, AsInputs(refs));
    }
  }

  /** What a chain through an untouched batch node says. */
  lemma ThroughBatch(g: Graph, key: string, j: nat, frames: seq<Input>)
    requires j > 0 && BatchId(key, j) in g && g[BatchId(key, j)] == BatchNode(key, j) && Chain(g, BatchId(key, j), frames)
    ensures |frames| > 1 && Chain(g, HeadId(key, j), frames[..|frames| - 1])
    ensures HasInput(g, LoadId(key, j), "image") && frames[|frames| - 1] == g[LoadId(key, j)].inputs["image"]
  {
    hide LoadId, BatchId, HeadId;
  }

  lemma OtherBatchKept(base: Graph, key: string, n: nat, node: NodeId, field: string, head: NodeId, j: nat)
    requires 1 <= j < n && BatchesUpTo(base, key, n) && node in base && node != BatchId(key, j)
    ensures BatchId(key, j) in base && Rebound(base, node, field, head)[BatchId(key, j)] == BatchNode(key, j)
  {}

  lemma {:induction false} LoadTargetSpoils(base: Graph, g': Graph, key: string, refs: seq<string>, i: nat, m: nat)
    requires i < m <= |refs| && LoadsUpTo(base, key, refs, |refs|) && BatchesUpTo(base, key, |refs|)
    requires LoadId(key, i) in base && g' == Rebound(base, LoadId(key, i), "image", HeadId(key, |refs|))
    ensures !Chain(g', HeadId(key, m), AsInputs(refs[..m]))
    decreases m
  {
    var frames := AsInputs(refs[..m]);
    ReboundLoad(base, g', key, refs, i);
    hide LoadsUpTo, Rebound, LoadId, BatchId;
    if m > 1 && Chain(g', HeadId(key, m), frames) {
      HeadOfMore(key, m);
      hide HeadId;
      IdsDiffer(key, i, m - 1);
      OtherBatchKept(base, key, |refs|, LoadId(key, i), "image", HeadId(key, |refs|), m - 1);
      ThroughBatch(g', key, m - 1, frames);
      hide Chain;
      if m - 1 > i {
        assert frames[..m - 1] == AsInputs(refs[..m - 1]);
        LoadTargetSpoils(base, g', key, refs, i, m - 1);
      }
    }
  }

  /** The rebound load shows a link where its frame was. */
  lemma ReboundLoad(base: Graph, g': Graph, key: string, refs: seq<string>, i: nat)
    requires i < |refs| && LoadsUpTo(base, key, refs, |refs|)
    requires LoadId(key, i) in base && g' == Rebound(base, LoadId(key, i), "image", HeadId(key, |refs|))
    ensures LoadId(key, i) in g' && IsLoad(g'[LoadId(key, i)])
    ensures "image" in g'[LoadId(key, i)].inputs && g'[LoadId(key, i)].inputs["image"].Link?
  {
    hide LoadId, HeadId;
  }

  lemma {:induction false} BatchTargetSpoils(base: Graph, g': Graph, key: string, refs: seq<string>, i: nat, field: string, m: nat, frames: seq<Input>)
    requires 1 <= i < m <= |refs| && field in ["image1", "image2"]
    requires LoadsUpTo(base, key, refs, |refs|) && BatchesUpTo(base, key, |refs|)
    requires BatchId(key, i) in base && g' == Rebound(base, BatchId(key, i), field, HeadId(key, |refs|))
    ensures !Chain(g', HeadId(key, m), frames)
    decreases |frames|
  {
    var head := HeadId(key, |refs|);
    assert HeadId(key, m) == BatchId(key, m - 1);
    if Chain(g', HeadId(key, m), frames) {
      if m - 1 > i {
        IdsDiffer(key, i, m - 1);
        OtherBatchKept(base, key, |refs|, BatchId(key, i), field, head, m - 1);
        ThroughBatch(g', key, m - 1, frames);
        BatchTargetSpoils(base, g', key, refs, i, field, m - 1, frames[..|frames| - 1]);
      } else {
        ReboundBatch(base, g', key, refs, i, field, frames);
        BatchTargetSpoils(base, g', key, refs, i, field, |refs|, frames[..|frames| - 1]);
      }
    }
  }

  /** The head is a batch node, rebound or not, and shows no frame itself. */
  lemma HeadHasNoImage(base: Graph, key: string, n: nat, node: NodeId, field: string)
    requires n > 1 && BatchesUpTo(base, key, n) && node in base && field in ["image1", "image2"]
    ensures !HasInput(Rebound(base, node, field, HeadId(key, n)), HeadId(key, n), "image")
  {
    hide LoadId, BatchId;
    HeadOfMore(key, n);
    assert BatchId(key, n - 1) in base && base[BatchId(key, n - 1)] == BatchNode(key, n - 1);
    hide HeadId;
  }

  /** A chain can only pass the rebound batch node by going back to the head. */
  lemma ReboundBatch(base: Graph, g': Graph, key: string, refs: seq<string>, i: nat, field: string, frames: seq<Input>)
    requires 1 <= i < |refs| && field in ["image1", "image2"] && BatchesUpTo(base, key, |refs|)
    requires BatchId(key, i) in base && g' == Rebound(base, BatchId(key, i), field, HeadId(key, |refs|))
    requires Chain(g', BatchId(key, i), frames)
    ensures |frames| > 1 && Chain(g', HeadId(key, |refs|), frames[..|frames| - 1])
  {
    hide LoadId, BatchId, HeadId;
    var head := HeadId(key, |refs|);
    assert base[BatchId(key, i)] == BatchNode(key, i);
    HeadHasNoImage(base, key, |refs|, BatchId(key, i), field);
    hide BatchesUpTo;
    assert g'[BatchId(key, i)].inputs[field] == FirstOutput(head) && !IsLoad(g'[BatchId(key, i)]);
  }
}
