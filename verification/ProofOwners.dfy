/** How the proof-map validators decide that a pytest owner names a collected test. */
module ProofOwners {
  import opened Wrappers
  import opened Strings

  // ------------------------------------------------------- the closed m10f rule

  /** resolve_owner: an exact node, or a node that adds a parameter to the function. */
  function ResolveOwner(owner: string, nodes: seq<string>): seq<string>
    decreases |nodes|
  {
    if nodes == [] then []
    else
      (if Resolves(owner, nodes[0]) then [nodes[0]] else []) + ResolveOwner(owner, nodes[1..])
  }

  predicate Resolves(owner: string, node: string) {
    node == owner || ('[' !in owner && StartsWith(node, owner + "["))
  }

  lemma {:induction false} ResolvedNodes(owner: string, nodes: seq<string>)
    ensures forall n :: n in ResolveOwner(owner, nodes) <==> n in nodes && Resolves(owner, n)
    decreases |nodes|
  {
    if nodes != [] {
      ResolvedNodes(owner, nodes[1..]);
      assert nodes == [nodes[0]] + nodes[1..];
    }
  }

  /** A bracket-free owner owns exactly the nodes whose text before the first '['
      equals it; an owner with a parameter owns at most that one node. */
  lemma OwnersAreClosed(owner: string, nodes: seq<string>, n: string)
    ensures n in ResolveOwner(owner, nodes) <==>
              n in nodes && (if '[' in owner then n == owner else Base(n) == owner)
  {
    ResolvedNodes(owner, nodes);
    if '[' !in owner {
      BaseOfPrefix(owner, n);
    }
  }

  predicate ClosedAccepts(owner: string, nodes: seq<string>) { ResolveOwner(owner, nodes) != [] }

  lemma ClosedMeans(owner: string, nodes: seq<string>)
    ensures ClosedAccepts(owner, nodes) <==> exists n | n in nodes :: Resolves(owner, n)
  {
    ResolvedNodes(owner, nodes);
    if ClosedAccepts(owner, nodes) {
      var n := ResolveOwner(owner, nodes)[0];
      assert n in ResolveOwner(owner, nodes);
    }
  }

  // ------------------------------------------------------- the looser later rules

  /** owner.split("::", 1), when the separator is there. */
  function SplitOwner(owner: string): Option<(string, string)> {
    match Find(owner, "::")
    case None => None
    case Some(k) => FindBound(owner); Some((owner[..k], owner[k + 2..]))
  }

  lemma FindBound(owner: string)
    ensures Find(owner, "::").Some? ==> Find(owner, "::").value + 2 <= |owner|
  {
    FindOccurs(owner, "::");
  }

  lemma SplitOwnerRejoins(owner: string)
    requires SplitOwner(owner).Some?
    ensures owner == SplitOwner(owner).value.0 + "::" + SplitOwner(owner).value.1
  {
    FindOccurs(owner, "::");
    var k := Find(owner, "::").value;
    assert owner == owner[..k] + owner[k..k + 2] + owner[k + 2..];
  }

  predicate IsWordChar(c: char) { 'A' <= c <= 'Z' || 'a' <= c <= 'z' || '0' <= c <= '9' || c == '_' }

  /** test_[A-Za-z0-9_]+(\[.+\])?, where the dot matches anything but a newline. */
  predicate IsTestName(name: string) {
    exists k | 5 < k <= |name| ::
      && name[..5] == "test_" && (forall j | 5 <= j < k :: IsWordChar(name[j]))
      && (k == |name| || IsParameter(name[k..]))
  }

  predicate IsParameter(s: string) { |s| >= 3 && s[0] == '[' && s[|s| - 1] == ']' && '\n' !in s[1..|s| - 1] }

  /** What the M15 rule demands of an owner before it looks at any node. */
  predicate M15Guards(owner: string, files: set<string>) {
    SplitOwner(owner).Some?
    && var (path, name) := SplitOwner(owner).value;
       StartsWith(path, "tests/") && EndsWith(path, ".py") && path in files && IsTestName(name)
  }

  /** The M16 rule asks for the file only, and fails without a separator. */
  predicate M16Guards(owner: string, files: set<string>) {
    SplitOwner(owner).Some? && SplitOwner(owner).value.0 in files
  }

  /** The node test that both share. */
  predicate NodeMatches(owner: string, path: string, name: string, node: string) {
    node == owner || StartsWith(node, path + "::" + Base(name) + "[")
  }

  predicate Collected(owner: string, nodes: set<string>) {
    SplitOwner(owner).Some? && exists n | n in nodes :: NodeMatches(owner, SplitOwner(owner).value.0, SplitOwner(owner).value.1, n)
  }

  method AnyNodeMatches(owner: string, path: string, name: string, nodes: set<string>) returns (found: bool)
    ensures found <==> exists n | n in nodes :: NodeMatches(owner, path, name, n)
  {
    var todo := nodes;
    while todo != {}
      invariant todo <= nodes
      invariant forall n | n in nodes - todo :: !NodeMatches(owner, path, name, n)
    {
      var n :| n in todo;
      if NodeMatches(owner, path, name, n) {
        return true;
      }
      todo := todo - {n};
    }
    return false;
  }

  method M15PythonOwnerResolves(owner: string, files: set<string>, nodes: set<string>) returns (ok: bool)
    ensures ok <==> M15Guards(owner, files) && Collected(owner, nodes)
  {
    var split := SplitOwner(owner);
    if split.None? {
      return false;
    }
    var (path, name) := split.value;
    if !(StartsWith(path, "tests/") && EndsWith(path, ".py")) {
      return false;
    }
    if path !in files {
      return false;
    }
    if !IsTestName(name) {
      return false;
    }
    ok := AnyNodeMatches(owner, path, name, nodes);
  }

  /** None where the code fails to unpack an owner without a separator. */
  method M16PythonOwnerResolves(owner: string, files: set<string>, nodes: set<string>) returns (ok: Option<bool>)
    ensures ok.None? <==> SplitOwner(owner).None?
    ensures ok == Some(true) <==> M16Guards(owner, files) && Collected(owner, nodes)
  {
    var split := SplitOwner(owner);
    if split.None? {
      return None;
    }
    var (path, name) := split.value;
    if path !in files {
      return Some(false);
    }
    var any := AnyNodeMatches(owner, path, name, nodes);
    return Some(any);
  }

  // ------------------------------------------------------- how the rules compare

  /** The function that an owner names, with its path and without its parameter. */
  function FunctionOf(owner: string): string
    requires SplitOwner(owner).Some?
  {
    SplitOwner(owner).value.0 + "::" + Base(SplitOwner(owner).value.1)
  }

  /** The owner has a bracket, is not collected itself, and some parameterization of its
      function is. */
  predicate Stale(owner: string, nodes: seq<string>) {
    && SplitOwner(owner).Some? && '[' in owner && owner !in nodes
    && exists n | n in nodes :: StartsWith(n, FunctionOf(owner) + "[")
  }

  lemma BracketFreeOwner(owner: string)
    requires SplitOwner(owner).Some? && '[' !in owner
    ensures FunctionOf(owner) == owner
  {
    SplitOwnerRejoins(owner);
    assert forall c | c in SplitOwner(owner).value.1 :: c in owner;
  }

  /** The later node test accepts what the closed rule accepts, and besides it exactly
      the stale owners. */
  lemma CollectedExactly(owner: string, nodes: seq<string>)
    requires SplitOwner(owner).Some?
    ensures Collected(owner, set n | n in nodes) <==> ClosedAccepts(owner, nodes) || Stale(owner, nodes)
    ensures !(ClosedAccepts(owner, nodes) && Stale(owner, nodes))
  {
    ClosedMeans(owner, nodes);
    var (path, name) := SplitOwner(owner).value;
    if '[' !in owner {
      BracketFreeOwner(owner);
      assert forall n :: Resolves(owner, n) <==> NodeMatches(owner, path, name, n);
    } else {
      assert forall n :: Resolves(owner, n) <==> n == owner;
      assert forall n :: NodeMatches(owner, path, name, n) <==> n == owner || StartsWith(n, FunctionOf(owner) + "[");
    }
    var all := set n | n in nodes;
    assert Collected(owner, all) <==> exists n | n in nodes :: NodeMatches(owner, path, name, n);
  }

  /** What the closed rule accepts, a later rule accepts exactly when its guards let the
      owner through. */
  lemma ClosedRuleImpliesLooser(owner: string, files: set<string>, nodes: seq<string>)
    requires ClosedAccepts(owner, nodes)
    ensures var all := set n | n in nodes;
            && (M15Guards(owner, files) && Collected(owner, all) <==> M15Guards(owner, files))
            && (M16Guards(owner, files) && Collected(owner, all) <==> M16Guards(owner, files))
  {
    if SplitOwner(owner).Some? {
      CollectedExactly(owner, nodes);
    }
  }

  /** The guards matter: a collected node outside tests/, or one whose second part is no
      test function, is accepted by the closed rule and refused by M15 whatever files
      exist; M16 accepts it exactly if the file exists. */
  lemma GuardsRefuseCollected(path: string, name: string, files: set<string>)
    requires ':' !in path && (!StartsWith(path, "tests/") || !StartsWith(name, "test_"))
    ensures var owner := path + ("::" + name);
            && ClosedAccepts(owner, [owner]) && !M15Guards(owner, files)
            && Collected(owner, {owner}) && (M16Guards(owner, files) <==> path in files)
  {
    var owner := path + ("::" + name);
    FindAfter(path, name);
    assert owner[..|path|] == path && owner[|path| + 2..] == name;
    assert Resolves(owner, owner) && NodeMatches(owner, path, name, owner);
    if IsTestName(name) {
      assert name[..5] == "test_";
    }
  }

  /** Such nodes are ordinary: a test method of a class, a test of another directory. */
  lemma ClassTestIsRefused(files: set<string>)
    ensures var owner := "tests/test_a.py" + ("::" + "TestA::test_a");
            ClosedAccepts(owner, [owner]) && !M15Guards(owner, files)
    ensures var owner := "server/tests/test_a.py" + ("::" + "test_a");
            ClosedAccepts(owner, [owner]) && !M15Guards(owner, files)
  {
    assert "TestA::test_a"[0] == 'T' && "test_"[0] == 't';
    assert "server/tests/test_a.py"[0] == 's' && "tests/"[0] == 't';
    GuardsRefuseCollected("tests/test_a.py", "TestA::test_a", files);
    GuardsRefuseCollected("server/tests/test_a.py", "test_a", files);
  }

  /** On owners without a parameter the rules agree, up to the guards. */
  lemma RulesAgreeWithoutParameter(owner: string, files: set<string>, nodes: seq<string>)
    requires '[' !in owner
    ensures var all := set n | n in nodes;
            && (M15Guards(owner, files) && Collected(owner, all) <==> M15Guards(owner, files) && ClosedAccepts(owner, nodes))
            && (M16Guards(owner, files) && Collected(owner, all) <==> M16Guards(owner, files) && ClosedAccepts(owner, nodes))
  {
    if SplitOwner(owner).Some? {
      CollectedExactly(owner, nodes);
    }
  }

  /** A later rule accepts an owner that the closed rule does not, exactly when the guards
      hold, its parameter is not collected, and another one of its function is. */
  lemma StaleParameterPasses(owner: string, files: set<string>, nodes: seq<string>)
    ensures var all := set n | n in nodes;
            && ((M15Guards(owner, files) && Collected(owner, all) && !ClosedAccepts(owner, nodes))
                  <==> (M15Guards(owner, files) && Stale(owner, nodes)))
            && ((M16Guards(owner, files) && Collected(owner, all) && !ClosedAccepts(owner, nodes))
                  <==> (M16Guards(owner, files) && Stale(owner, nodes)))
  {
    if SplitOwner(owner).Some? {
      CollectedExactly(owner, nodes);
    }
  }

  /** While no path has a bracket, stale means: not collected, but its function is, with
      some other parameter. */
  lemma StaleMeans(owner: string, nodes: seq<string>)
    requires SplitOwner(owner).Some? && '[' !in SplitOwner(owner).value.0
    ensures Stale(owner, nodes) <==>
              '[' in owner && owner !in nodes && exists n | n in nodes :: '[' in n && Base(n) == Base(owner)
  {
    hide Base, SplitOwner, StartsWith, FunctionOf;
    BaseIsFunction(owner);
    forall n
      ensures StartsWith(n, FunctionOf(owner) + "[") <==> '[' in n && Base(n) == FunctionOf(owner)
    {
      BaseOfPrefix(FunctionOf(owner), n);
    }
  }

  lemma BaseIsFunction(owner: string)
    requires SplitOwner(owner).Some? && '[' !in SplitOwner(owner).value.0
    ensures Base(owner) == FunctionOf(owner) && '[' !in FunctionOf(owner)
  {
    hide Base, SplitOwner;
    SplitOwnerRejoins(owner);
    BaseOfJoin(SplitOwner(owner).value.0 + "::", SplitOwner(owner).value.1);
  }

  lemma {:induction false} BaseOfJoin(a: string, b: string)
    requires '[' !in a
    ensures Base(a + b) == a + Base(b)
    decreases |a|
  {
    if a == "" {
      assert a + b == b && a + Base(b) == Base(b);
    } else {
      BaseOfJoin(a[1..], b);
      assert (a + b)[1..] == a[1..] + b && a == [a[0]] + a[1..];
    }
  }

  /** So every guarded owner with a bracket goes stale: take its function with any other
      parameter as the only collected node. */
  lemma AnyParameterGoesStale(owner: string, files: set<string>, parameter: string)
    requires M15Guards(owner, files) && '[' in owner && FunctionOf(owner) + "[" + parameter != owner
    ensures var kept := FunctionOf(owner) + "[" + parameter;
            !ClosedAccepts(owner, [kept]) && Collected(owner, {kept})
  {
    var kept := FunctionOf(owner) + "[" + parameter;
    assert StartsWith(kept, FunctionOf(owner) + "[");
    CollectedExactly(owner, [kept]);
    assert kept in [kept];
    assert (set n | n in [kept]) == {kept};
  }
}
