/** Searching in text, as the validators do it. */
module Strings {
  import opened Wrappers

  predicate StartsWith(s: string, p: string) { p <= s }

  predicate EndsWith(s: string, p: string) { |p| <= |s| && s[|s| - |p|..] == p }

  /** Where t first occurs in s, if it does. */
  function Find(s: string, t: string): Option<nat>
    decreases |s|
  {
    if t <= s then Some(0)
    else if s == "" then None
    else
      match Find(s[1..], t)
      case None => None
      case Some(k) => Some(k + 1)
  }

  lemma {:induction false} FindOccurs(s: string, t: string)
    ensures Find(s, t).Some? ==>
              && Find(s, t).value + |t| <= |s|
              && s[Find(s, t).value..Find(s, t).value + |t|] == t
    decreases |s|
  {
    if t <= s {
      assert s[..|t|] == t;
    } else if s != "" {
      FindOccurs(s[1..], t);
      if Find(s, t).Some? {
        var k := Find(s, t).value;
        assert s[k..k + |t|] == s[1..][k - 1..k - 1 + |t|];
      }
    }
  }

  /** The first occurrence, and none. */
  lemma {:induction false} FindExactly(s: string, t: string, k: nat)
    ensures Find(s, t) == Some(k) <==> k <= |s| && t <= s[k..] && forall j | 0 <= j < k :: !(t <= s[j..])
    decreases |s|
  {
    assert s[0..] == s;
    if !(t <= s) && s != "" && k > 0 {
      FindExactly(s[1..], t, k - 1);
      assert forall j | 0 <= j < |s| :: s[1..][j..] == s[j + 1..];
      if k <= |s| && forall j | 0 <= j < k - 1 :: !(t <= s[1..][j..]) {
        forall j | 0 <= j < k
          ensures !(t <= s[j..])
        {
          assert j > 0 ==> s[1..][j - 1..] == s[j..];
        }
      }
    }
  }

  /** s is a, t and b, and t does not start earlier in it. */
  predicate Cuts(s: string, t: string, a: string, b: string) {
    s == a + t + b && forall j | 0 <= j < |a| :: !(t <= s[j..])
  }

  lemma FindCuts(s: string, t: string, a: string, b: string)
    ensures Cuts(s, t, a, b) <==> Find(s, t) == Some(|a|) && s == a + t + b
  {
    FindExactly(s, t, |a|);
    FindOccurs(s, t);
    if Cuts(s, t, a, b) {
      assert s[|a|..] == t + b;
    }
  }

  lemma Occurs(s: string, t: string)
    ensures Find(s, t).Some? <==> exists a, b :: s == a + t + b
  {
    FindOccurs(s, t);
    if Find(s, t).Some? {
      var k := Find(s, t).value;
      assert s == s[..k] + t + s[k + |t|..];
    }
    if a, b :| s == a + t + b {
      FindSomewhere(s, t, |a|);
    }
  }

  lemma {:induction false} FindSomewhere(s: string, t: string, k: nat)
    requires k <= |s| && t <= s[k..]
    ensures Find(s, t).Some?
    decreases |s|
  {
    if !(t <= s) && s != "" {
      assert k > 0 by { assert s[0..] == s; }
      assert s[1..][k - 1..] == s[k..];
      FindSomewhere(s[1..], t, k - 1);
    }
  }

  lemma Ends(s: string, p: string)
    ensures StartsWith(s, p) <==> exists rest :: s == p + rest
    ensures EndsWith(s, p) <==> exists rest :: s == rest + p
  {
    if StartsWith(s, p) {
      assert s == p + s[|p|..];
    }
    if EndsWith(s, p) {
      assert s == s[..|s| - |p|] + p;
    }
  }

  /** A separator after text without its first character is found right there. */
  lemma {:induction false} FindAfter(a: string, rest: string)
    requires ':' !in a
    ensures Find(a + ("::" + rest), "::") == Some(|a|)
    decreases |a|
  {
    var s := a + ("::" + rest);
    if a == "" {
      assert s == "::" + rest;
    } else {
      FindAfter(a[1..], rest);
      assert s[1..] == a[1..] + ("::" + rest);
      assert s[0] == a[0] && a[0] in a && "::"[0] == ':';
    }
  }

  /** The text before the first '['. */
  function Base(s: string): (b: string)
    ensures b <= s && '[' !in b
    ensures b == s <==> '[' !in s
    decreases |s|
  {
    if s == "" || s[0] == '[' then "" else [s[0]] + Base(s[1..])
  }

  /** A bracket-free text and '[' start exactly the texts whose base it is and which
      have a bracket. */
  lemma {:induction false} BaseOfPrefix(owner: string, node: string)
    requires '[' !in owner
    ensures StartsWith(node, owner + "[") <==> Base(node) == owner && node != owner
    decreases |owner|
  {
    if owner == "" {
      assert owner + "[" == "[";
      assert "[" <= node <==> node != "" && node[0] == '[';
    } else if node != "" {
      BaseOfPrefix(owner[1..], node[1..]);
      assert owner == [owner[0]] + owner[1..] && node == [node[0]] + node[1..];
      assert (owner + "[")[1..] == owner[1..] + "[";
      if node[0] == owner[0] {
        PrefixTail(owner + "[", node);
      }
    }
  }

  lemma PrefixTail(p: string, s: string)
    requires p != "" && s != "" && p[0] == s[0]
    ensures p <= s <==> p[1..] <= s[1..]
  {}
}
