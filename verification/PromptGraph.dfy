/**
 The prompt graph of one submission, from the captured template to the last value: what
 is projected, bound and written, and that the control chains come out whole.
 */
module PromptGraph {
  import opened Wrappers
  import opened FrameChain
  import opened ControlStreams
  import Projection = ControlProjection

  type Binding = Projection.Binding

  /** A value for one input: an ordinary input, the prompt, a parameter or the seed. */
  datatype Value = Value(node: NodeId, field: string, v: Input)

  /** A verified control stream before its binding is looked up. */
  datatype Upload = Upload(key: string, refs: seq<string>)

  datatype BuildError =
    | DuplicateKey | MissingTarget | NotProjected(error: Projection.ProjectionError) | NoSuchInput | AlreadyOwned
    | StreamFailed(reason: StreamError)

  function ActiveKeys(uploads: seq<Upload>): set<string> { set u | u in uploads :: u.key }

  predicate DistinctUploads(uploads: seq<Upload>) {
    forall i, j | 0 <= i < j < |uploads| :: uploads[i].key != uploads[j].key
  }

  /** Every binding is an input of the template: the frozen validation. */
  predicate Resolves(g: Graph, bindings: seq<Binding>) {
    forall b | b in bindings :: HasInput(g, b.node, b.field)
  }

  method ValidateBindings(g: Graph, bindings: seq<Binding>) returns (ok: bool)
    ensures ok <==> Resolves(g, bindings)
  {
    var k := 0;
    while k < |bindings|
      invariant 0 <= k <= |bindings| && forall j | 0 <= j < k :: HasInput(g, bindings[j].node, bindings[j].field)
    {
      var b := bindings[k];
      assert b in bindings;
      if b.node !in g || b.field !in g[b.node].inputs {
        return false;
      }
      k := k + 1;
    }
    return true;
  }

  // --------------------------------------------------------------- the streams

  /** The binding of a key: in a dictionary there is one. */
  function BindingOf(bindings: seq<Binding>, key: string): Binding
    requires key in Projection.KeysOf(bindings)
    ensures BindingOf(bindings, key) in bindings && BindingOf(bindings, key).key == key
    decreases |bindings|
  {
    if bindings[0].key == key then bindings[0]
    else
      assert bindings == [bindings[0]] + bindings[1..];
      BindingOf(bindings[1..], key)
  }

  function StreamOf(u: Upload, bindings: seq<Binding>): Stream
    requires u.key in Projection.KeysOf(bindings)
  {
    var b := BindingOf(bindings, u.key);
    Stream(u.key, u.refs, b.node, b.field)
  }

  /** Each upload with the target its key is bound to. */
  function StreamsOf(uploads: seq<Upload>, bindings: seq<Binding>): seq<Stream>
    requires ActiveKeys(uploads) <= Projection.KeysOf(bindings)
  {
    seq(|uploads|, i requires 0 <= i < |uploads| =>
      assert uploads[i].key in ActiveKeys(uploads) by { assert uploads[i] in uploads; }
      StreamOf(uploads[i], bindings))
  }

  method LookUp(uploads: seq<Upload>, bindings: seq<Binding>) returns (streams: seq<Stream>)
    requires ActiveKeys(uploads) <= Projection.KeysOf(bindings)
    ensures streams == StreamsOf(uploads, bindings)
  {
    streams := [];
    var k := 0;
    while k < |uploads|
      invariant 0 <= k <= |uploads| && streams == StreamsOf(uploads, bindings)[..k]
    {
      assert uploads[k] in uploads && uploads[k].key in ActiveKeys(uploads);
      streams := streams + [StreamOf(uploads[k], bindings)];
      k := k + 1;
    }
  }

  /** Validation and projection leave every stream's target in the graph. */
  lemma TargetsSurvive(g: Graph, view: Graph, bindings: seq<Binding>, uploads: seq<Upload>)
    requires Resolves(g, bindings) && ActiveKeys(uploads) <= Projection.KeysOf(bindings)
    requires Projection.Projected(g, view, bindings, ActiveKeys(uploads))
    ensures Present(view, StreamsOf(uploads, bindings))
  {
    hide Resolves, Projection.Projected;
    var streams := StreamsOf(uploads, bindings);
    forall s | s in streams
      ensures HasInput(view, s.node, s.field)
    {
      var i :| 0 <= i < |streams| && streams[i] == s;
      var b := BindingOf(bindings, uploads[i].key);
      assert uploads[i] in uploads && b in bindings && b.key in ActiveKeys(uploads);
      TargetSurvives(g, view, bindings, ActiveKeys(uploads), b);
    }
  }

  lemma TargetSurvives(g: Graph, view: Graph, bindings: seq<Binding>, active: set<string>, b: Binding)
    requires Resolves(g, bindings) && Projection.Projected(g, view, bindings, active) && b in bindings && b.key in active
    ensures HasInput(view, b.node, b.field)
  {}

  // ---------------------------------------------------------------- the values

  function Site(v: Value): Target { (v.node, v.field) }

  function SitesOf(values: seq<Value>): set<Target> { set v | v in values :: Site(v) }

  predicate Settable(g: Graph, values: seq<Value>) { forall v | v in values :: HasInput(g, v.node, v.field) }

  predicate Apart(values: seq<Value>, bound: set<Target>) {
    && (forall i, j | 0 <= i < j < |values| :: Site(values[i]) != Site(values[j]))
    && (forall v | v in values :: Site(v) !in bound)
  }

  /** _reserve_target for one value after another. */
  method Reserve(g: Graph, values: seq<Value>, bound: set<Target>) returns (r: Result<set<Target>, BuildError>)
    ensures r.Success? <==> Settable(g, values) && Apart(values, bound)
    ensures r.Success? ==> r.value == bound + SitesOf(values)
    ensures r.Failure? ==> (r.error == NoSuchInput && !Settable(g, values)) || (r.error == AlreadyOwned && !Apart(values, bound))
  {
    var owned, k := bound, 0;
    while k < |values|
      invariant 0 <= k <= |values| && owned == bound + SitesOf(values[..k])
      invariant Settable(g, values[..k]) && Apart(values[..k], bound)
    {
      var v := values[k];
      ApartSnoc(values, k, bound);
      assert v in values && values[..k + 1] == values[..k] + [v];
      if v.node !in g || v.field !in g[v.node].inputs {
        return Failure(NoSuchInput);
      }
      if Site(v) in owned {
        return Failure(AlreadyOwned);
      }
      owned := owned + {Site(v)};
      k := k + 1;
    }
    assert values[..k] == values;
    return Success(owned);
  }

  lemma ApartSnoc(values: seq<Value>, k: nat, bound: set<Target>)
    requires k < |values|
    ensures Apart(values[..k + 1], bound) <==> Apart(values[..k], bound) && Site(values[k]) !in bound + SitesOf(values[..k])
    ensures Apart(values, bound) ==> Apart(values[..k + 1], bound)
    ensures SitesOf(values[..k + 1]) == SitesOf(values[..k]) + {Site(values[k])}
  {
    hide Site;
    assert values[..k + 1] == values[..k] + [values[k]];
  }

  function SetInput(g: Graph, v: Value): Graph
    requires v.node in g
  {
    g[v.node := g[v.node].(inputs := g[v.node].inputs[v.field := v.v])]
  }

  ghost predicate AllSet(g: Graph, values: seq<Value>) {
    forall v | v in values :: HasInput(g, v.node, v.field) && g[v.node].inputs[v.field] == v.v
  }

  method SetAll(g: Graph, values: seq<Value>) returns (set_: Graph)
    requires Settable(g, values) && Apart(values, {})
    ensures set_.Keys == g.Keys && KeptOutside(g, set_, SitesOf(values)) && AllSet(set_, values)
    ensures forall id | id in g && (forall v | v in values :: v.node != id) :: set_[id] == g[id]
  {
    set_ := g;
    var k := 0;
    while k < |values|
      invariant 0 <= k <= |values| && set_.Keys == g.Keys
      invariant KeptOutside(g, set_, SitesOf(values[..k])) && AllSet(set_, values[..k])
      invariant forall id | id in g && (forall v | v in values[..k] :: v.node != id) :: set_[id] == g[id]
    {
      hide SetInput, AllSet, KeptOutside, Settable, Apart, SitesOf;
      SetOne(g, set_, values, k);
      set_ := SetInput(set_, values[k]);
      k := k + 1;
    }
    assert values[..k] == values;
  }

  lemma SetOne(g: Graph, now: Graph, values: seq<Value>, k: nat)
    requires k < |values| && Settable(g, values) && Apart(values, {})
    requires now.Keys == g.Keys && KeptOutside(g, now, SitesOf(values[..k])) && AllSet(now, values[..k])
    ensures HasInput(now, values[k].node, values[k].field)
    ensures var next := SetInput(now, values[k]);
            next.Keys == g.Keys && KeptOutside(g, next, SitesOf(values[..k + 1])) && AllSet(next, values[..k + 1])
    ensures values[..k + 1] == values[..k] + [values[k]]
  {
    hide Apart, SitesOf, AllSet, KeptOutside, Settable, SetInput, HasInput, Site;
    var v := values[k];
    ApartSnoc(values, k, {});
    AtPosition(g, values, k);
    OneSite(v);
    StillThere(g, now, values[..k], v);
    SetKeeps(now, v);
    KeptTwice(g, now, SetInput(now, v), SitesOf(values[..k]), {Site(v)});
    ValuesStay(now, SetInput(now, v), values[..k], {Site(v)});
    SetIsSet(now, v);
    BothSet(SetInput(now, v), values[..k], [v]);
  }

  lemma AtPosition(g: Graph, values: seq<Value>, k: nat)
    requires k < |values| && Settable(g, values)
    ensures HasInput(g, values[k].node, values[k].field)
    ensures values[..k + 1] == values[..k] + [values[k]]
  {
    assert values[k] in values;
  }

  lemma OneSite(v: Value)
    ensures SitesOf([v]) == {Site(v)}
  {}

  lemma StillThere(g: Graph, now: Graph, values: seq<Value>, v: Value)
    requires KeptOutside(g, now, SitesOf(values)) && HasInput(g, v.node, v.field)
    ensures HasInput(now, v.node, v.field)
  {}

  lemma SetKeeps(g: Graph, v: Value)
    requires HasInput(g, v.node, v.field)
    ensures KeptOutside(g, SetInput(g, v), {Site(v)}) && SetInput(g, v).Keys == g.Keys
  {}

  lemma SetIsSet(g: Graph, v: Value)
    requires HasInput(g, v.node, v.field)
    ensures AllSet(SetInput(g, v), [v])
  {}

  // ------------------------------------------------------------------ the build

  /** What the translator is promised for: every stream's link walks back to exactly its
      frames, and the walk ends. */
  ghost predicate ChainsWhole(g: Graph, streams: seq<Stream>) {
    forall s | s in streams ::
      RoundTrips(g, s.node, s.field, s.refs) && exists rank :: Ranked(g, rank) && g[s.node].inputs[s.field].to in rank
  }

  /** The finished graph: the projected template and the generated nodes, where every
      value is at its input, every chain is whole, and all else is as projected. */
  ghost predicate Finished(view: Graph, g: Graph, streams: seq<Stream>, values: seq<Value>) {
    && g.Keys == view.Keys + AllGenerated(streams)
    && ChainsWhole(g, streams) && AllSet(g, values)
    && KeptOutside(view, g, TargetsOf(streams) + SitesOf(values))
  }

  /** Values written after the streams leave the chains alone. */
  lemma WrittenAfter(g: Graph, bound: Graph, final: Graph, streams: seq<Stream>, values: seq<Value>, s: Stream)
    requires BoundAll(g, bound, streams) && s in streams && Expandable(g, s) && Settable(g, values)
    requires HasInput(g, s.node, s.field) && TargetOf(s) !in SitesOf(values)
    requires KeptOutside(bound, final, SitesOf(values))
    requires forall id | id in bound && (forall v | v in values :: v.node != id) :: final[id] == bound[id]
    ensures Built(final, s)
  {
    hide Generated, Built, AllSet;
    forall id | id in GeneratedBy(s) && id in bound
      ensures id in final && final[id] == bound[id]
    {
      assert forall v | v in values :: v.node != id;
    }
    assert HasInput(bound, s.node, s.field);
    SparedStaysBuilt(bound, final, s);
  }

  lemma BuiltIsWhole(g: Graph, streams: seq<Stream>)
    requires forall s | s in streams :: Built(g, s)
    ensures ChainsWhole(g, streams)
  {
    hide LoadsUpTo, BatchesUpTo, RoundTrips, Ranked;
    forall s | s in streams
      ensures RoundTrips(g, s.node, s.field, s.refs) && exists rank :: Ranked(g, rank) && g[s.node].inputs[s.field].to in rank
    {
      LinkedChain(g, s.key, s.refs, s.node, s.field);
    }
  }

  /** A value that later writes do not own stays. */
  lemma ValuesStay(g: Graph, g': Graph, values: seq<Value>, targets: set<Target>)
    requires AllSet(g, values) && KeptOutside(g, g', targets) && SitesOf(values) !! targets
    ensures AllSet(g', values)
  {
    forall v | v in values
      ensures HasInput(g', v.node, v.field) && g'[v.node].inputs[v.field] == v.v
    {
      assert Site(v) in SitesOf(values);
    }
  }

  /** What the rest of the build asks of the projected view. */
  ghost predicate Accepts(view: Graph, streams: seq<Stream>, values: seq<Value>) {
    && Settable(view, values) && Apart(values, {}) && Owned(streams, SitesOf(values))
    && forall s | s in streams :: Expandable(view, s)
  }

  /** What is wrong after the projection, error by error. */
  ghost predicate BindingFails(view: Graph, streams: seq<Stream>, values: seq<Value>, e: BuildError) {
    match e
    case NoSuchInput => !Settable(view, values)
    case AlreadyOwned => !Apart(values, {})
    case StreamFailed(reason) =>
      Settable(view, values) && Apart(values, {}) && StreamFails(view, streams, SitesOf(values), reason)
    case _ => false
  }

  /** build_comfy_prompt as far as the graph goes.  uploads are the derived inputs by
      sorted key, inputs the ordinary ones, and later what is written last: the prompt,
      the parameters and the seed.  Nobody's input is overwritten, and in the graph that
      is submitted every control stream walks back to its frames.  A certified template
      is built exactly if keys and targets are in order and its projection, of which
      there is one, accepts the values and the streams. */
  method BuildPrompt(template: Graph, bindings: seq<Binding>, uploads: seq<Upload>, inputs: seq<Value>, later: seq<Value>)
    returns (r: Result<Graph, BuildError>)
    ensures r.Success? ==>
              && Resolves(template, bindings) && ActiveKeys(uploads) <= Projection.KeysOf(bindings)
              && exists view ::
                   && Projection.Projected(template, view, bindings, ActiveKeys(uploads))
                   && Finished(view, r.value, StreamsOf(uploads, bindings), inputs + later)
    ensures Projection.Certified(template, bindings) ==>
              (r.Success? <==>
                 && DistinctUploads(uploads) && Resolves(template, bindings)
                 && ActiveKeys(uploads) <= Projection.KeysOf(bindings)
                 && exists view ::
                      && Projection.Projected(template, view, bindings, ActiveKeys(uploads))
                      && Accepts(view, StreamsOf(uploads, bindings), inputs + later))
    ensures r == Failure(DuplicateKey) <==> !DistinctUploads(uploads)
    ensures r == Failure(MissingTarget) <==> DistinctUploads(uploads) && !Resolves(template, bindings)
    ensures r.Failure? && r.error.NotProjected? ==>
              Projection.Refuses(template, bindings, ActiveKeys(uploads), r.error.error)
    ensures r.Failure? && (r.error.NoSuchInput? || r.error.AlreadyOwned? || r.error.StreamFailed?) ==>
              ActiveKeys(uploads) <= Projection.KeysOf(bindings)
              && exists view ::
                   && Projection.Projected(template, view, bindings, ActiveKeys(uploads))
                   && BindingFails(view, StreamsOf(uploads, bindings), inputs + later, r.error)
  {
    hide Projection.Projected, Projection.Certified, Projection.Refuses, Resolves, Finished, Accepts, BindingFails;
    if !DistinctUploads(uploads) {
      return Failure(DuplicateKey);
    }
    var resolves := ValidateBindings(template, bindings);
    if !resolves {
      return Failure(MissingTarget);
    }
    var projected := Projection.Project(template, bindings, ActiveKeys(uploads));
    if projected.Failure? {
      return Failure(NotProjected(projected.error));
    }
    var view := projected.value;
    var streams := LookUp(uploads, bindings);
    TargetsSurvive(template, view, bindings, uploads);
    r := BindEverything(view, streams, inputs, later);
    if Projection.Certified(template, bindings) {
      OneView(template, view, bindings, ActiveKeys(uploads));
    }
  }

  lemma OneView(g: Graph, view: Graph, bindings: seq<Binding>, active: set<string>)
    requires Projection.Certified(g, bindings) && Projection.Projected(g, view, bindings, active)
    ensures forall other | Projection.Projected(g, other, bindings, active) :: other == view
  {
    forall other | Projection.Projected(g, other, bindings, active)
      ensures other == view
    {
      Projection.ProjectedOnce(g, view, other, bindings, active);
    }
  }

  lemma OneListing(inputs: seq<Value>, later: seq<Value>, g: Graph)
    ensures Apart(inputs + later, {}) <==> Apart(inputs, {}) && Apart(later, SitesOf(inputs))
    ensures Settable(g, inputs + later) <==> Settable(g, inputs) && Settable(g, later)
    ensures SitesOf(inputs + later) == SitesOf(inputs) + SitesOf(later)
  {
    ApartConcat(inputs, later);
    assert forall v :: v in inputs + later <==> v in inputs || v in later;
  }

  lemma ApartConcat(a: seq<Value>, b: seq<Value>)
    ensures Apart(a + b, {}) <==> Apart(a, {}) && Apart(b, SitesOf(a))
  {
    hide Site;
    var all := a + b;
    assert forall i | 0 <= i < |a| :: all[i] == a[i];
    assert forall j | 0 <= j < |b| :: all[|a| + j] == b[j];
    if Apart(all, {}) {
      forall v | v in b
        ensures Site(v) !in SitesOf(a)
      {
        var j :| 0 <= j < |b| && b[j] == v;
        assert Site(all[|a| + j]) == Site(v);
      }
    }
  }

  /** Nodes and fields are the same, so the same targets can be set and expanded. */
  lemma SameShape(g: Graph, g': Graph, targets: set<Target>, values: seq<Value>, streams: seq<Stream>)
    requires KeptOutside(g, g', targets) && g'.Keys == g.Keys
    ensures Settable(g', values) <==> Settable(g, values)
    ensures Present(g, streams) ==> Present(g', streams)
    ensures forall s :: Expandable(g', s) <==> Expandable(g, s)
  {
    hide Generated;
    forall node, field
      ensures HasInput(g, node, field) <==> HasInput(g', node, field)
    {}
  }

  lemma EndsFinished(view: Graph, g: Graph, bound: Graph, final: Graph, streams: seq<Stream>, inputs: seq<Value>, later: seq<Value>)
    requires g.Keys == view.Keys && KeptOutside(view, g, SitesOf(inputs)) && AllSet(g, inputs)
    requires Present(g, streams) && (forall s | s in streams :: Expandable(g, s)) && BoundAll(g, bound, streams)
    requires Settable(g, later) && Apart(later, SitesOf(inputs)) && Owned(streams, SitesOf(inputs) + SitesOf(later))
    requires final.Keys == bound.Keys && KeptOutside(bound, final, SitesOf(later)) && AllSet(final, later)
    requires forall id | id in bound && (forall v | v in later :: v.node != id) :: final[id] == bound[id]
    ensures Finished(view, final, streams, inputs + later)
  {
    hide Expandable, AllSet, KeptOutside, Settable, Built;
    forall s | s in streams
      ensures Built(final, s)
    {
      WrittenAfter(g, bound, final, streams, later, s);
    }
    BuiltIsWhole(final, streams);
    KeptTwice(g, bound, final, TargetsOf(streams), SitesOf(later));
    KeptTwice(view, g, final, SitesOf(inputs), TargetsOf(streams) + SitesOf(later));
    SitesApart(streams, inputs, later);
    ValuesStay(g, final, inputs, TargetsOf(streams) + SitesOf(later));
    BothSet(final, inputs, later);
    OneListing(inputs, later, g);
    assert SitesOf(inputs) + (TargetsOf(streams) + SitesOf(later)) == TargetsOf(streams) + SitesOf(inputs + later);
  }

  lemma SitesApart(streams: seq<Stream>, inputs: seq<Value>, later: seq<Value>)
    requires Apart(later, SitesOf(inputs)) && Owned(streams, SitesOf(inputs) + SitesOf(later))
    ensures SitesOf(inputs) !! TargetsOf(streams) + SitesOf(later)
  {}

  lemma SettableStill(g: Graph, bound: Graph, streams: seq<Stream>, values: seq<Value>)
    requires BoundAll(g, bound, streams) && Settable(g, values)
    ensures Settable(bound, values)
  {
    hide Built;
  }

  lemma ApartFromFewer(values: seq<Value>, bound: set<Target>)
    requires Apart(values, bound)
    ensures Apart(values, {})
  {}

  lemma BothSet(g: Graph, a: seq<Value>, b: seq<Value>)
    requires AllSet(g, a) && AllSet(g, b)
    ensures AllSet(g, a + b)
  {}

  /** Everything after the projection. */
  method BindEverything(view: Graph, streams: seq<Stream>, inputs: seq<Value>, later: seq<Value>)
    returns (r: Result<Graph, BuildError>)
    requires DistinctKeys(streams) && Present(view, streams)
    ensures r.Success? <==> Accepts(view, streams, inputs + later)
    ensures r.Failure? ==> BindingFails(view, streams, inputs + later, r.error)
    ensures r.Failure? ==> r.error.NoSuchInput? || r.error.AlreadyOwned? || r.error.StreamFailed?
    ensures r.Success? ==> Finished(view, r.value, streams, inputs + later)
  {
    hide Settable, Apart, Owned, AllSet, KeptOutside, SitesOf, BoundAll, Present, Expandable, Finished;
    OneListing(inputs, later, view);
    assert {} + SitesOf(inputs) == SitesOf(inputs);
    var own := Reserve(view, inputs, {});
    if own.Failure? {
      return Failure(own.error);
    }
    var g := SetAll(view, inputs);
    SameShape(view, g, SitesOf(inputs), later, streams);
    var all := Reserve(g, later, own.value);
    if all.Failure? {
      return Failure(all.error);
    }
    var bound := BindStreams(g, streams, all.value);
    if bound.Failure? {
      return Failure(StreamFailed(bound.error));
    }
    SettableStill(g, bound.value, streams, later);
    ApartFromFewer(later, SitesOf(inputs));
    var final := SetAll(bound.value, later);
    EndsFinished(view, g, bound.value, final, streams, inputs, later);
    return Success(final);
  }
}
