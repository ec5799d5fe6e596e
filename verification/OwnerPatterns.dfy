/**
 What the three validators accept as an owner, said by what the owner is put together
 from and by the text of the file that it names.
 */
module OwnerPatterns {
  import opened Wrappers
  import opened Strings
  import opened ProofOwners
  import opened RowPatterns
  import ProofMap
  import ProofTable
  import ProofUniverse

  // ------------------------------------------------------------------- test nodes

  lemma CharacterCodes(c: char)
    ensures IsWordChar(c) <==> 65 <= c as int <= 90 || 97 <= c as int <= 122 || 48 <= c as int <= 57 || c as int == 95
    ensures ProofTable.LowerWord([c]) <==> 97 <= c as int <= 122 || 48 <= c as int <= 57 || c as int == 95
    ensures ProofTable.LowerDashed([c]) <==> 97 <= c as int <= 122 || 48 <= c as int <= 57 || c as int == 45
  {
    assert forall x | x in [c] :: x == c;
    assert c in [c];
  }

  lemma SplitsExactly(owner: string, path: string, name: string)
    ensures SplitOwner(owner).Some? && SplitOwner(owner).value == (path, name) <==> Cuts(owner, "::", path, name)
  {
    FindCuts(owner, "::", path, name);
    if SplitOwner(owner).Some? && SplitOwner(owner).value == (path, name) {
      FindBound(owner);
      SplitOwnerRejoins(owner);
    }
    if Cuts(owner, "::", path, name) {
      var (a, b) := SplitOwner(owner).value;
      assert a == owner[..|path|] == path && b == owner[|path| + 2..] == name;
    }
  }

  /** test_[A-Za-z0-9_]+(\[.+\])? */
  ghost predicate TestName(name: string) {
    exists word, parameter ::
      && name == "test_" + word + parameter && word != "" && AllIn(word, IsWordChar)
      && (parameter == "" || exists p :: parameter == "[" + p + "]" && p != "" && '\n' !in p)
  }

  lemma ParametersExactly(s: string)
    ensures IsParameter(s) <==> exists p :: s == "[" + p + "]" && p != "" && '\n' !in p
  {
    if IsParameter(s) {
      assert s == "[" + s[1..|s| - 1] + "]";
    }
    if p :| s == "[" + p + "]" && p != "" && '\n' !in p {
      assert s[1..|s| - 1] == p;
    }
  }

  lemma WordAt(name: string, k: nat)
    requires 5 <= k <= |name|
    ensures AllIn(name[5..k], IsWordChar) <==> forall j | 5 <= j < k :: IsWordChar(name[j])
  {
    hide IsWordChar;
    if AllIn(name[5..k], IsWordChar) {
      forall j | 5 <= j < k
        ensures IsWordChar(name[j])
      {
        assert name[5..k][j - 5] in name[5..k];
      }
    }
  }

  lemma TestNamesExactly(name: string)
    ensures IsTestName(name) <==> TestName(name)
  {
    hide IsParameter, IsWordChar;
    if IsTestName(name) {
      var k :| 5 < k <= |name| && name[..5] == "test_" && (forall j | 5 <= j < k :: IsWordChar(name[j]))
               && (k == |name| || IsParameter(name[k..]));
      WordAt(name, k);
      ParametersExactly(name[k..]);
      assert name == "test_" + name[5..k] + name[k..];
    }
    if TestName(name) {
      var word, parameter :| name == "test_" + word + parameter && word != "" && AllIn(word, IsWordChar)
        && (parameter == "" || exists p :: parameter == "[" + p + "]" && p != "" && '\n' !in p);
      var k := 5 + |word|;
      assert |"test_"| == 5;
      assert name[..5] == "test_" && name[5..k] == word && name[k..] == parameter;
      WordAt(name, k);
      ParametersExactly(parameter);
      assert k == |name| || IsParameter(name[k..]);
    }
  }

  lemma InTail(path: string, back: string, i: int)
    requires EndsWith(path, back) && |path| - |back| <= i < |path|
    ensures path[i] in back
  {
    assert path[i] == path[|path| - |back|..][i - (|path| - |back|)];
  }

  /** tests/ at the front and .py at the end. */
  lemma PathEnds(path: string, front: string, back: string)
    requires front != "" && back != "" && front[|front| - 1] == '/' && '/' !in back
    ensures StartsWith(path, front) && EndsWith(path, back) <==> exists x :: path == front + x + back
  {
    if StartsWith(path, front) && EndsWith(path, back) {
      if |path| < |front| + |back| {
        InTail(path, back, |front| - 1);
      }
      assert path == front + path[|front|..|path| - |back|] + back;
    }
    if x :| path == front + x + back {
      assert path == front + (x + back);
    }
  }

  /** The text before the first bracket. */
  lemma {:induction false} BasesExactly(s: string, b: string)
    ensures Base(s) == b <==> '[' !in b && (s == b || b + "[" <= s)
    decreases |s|
  {
    if s != "" && s[0] != '[' {
      if b != "" {
        BasesExactly(s[1..], b[1..]);
        assert b == [b[0]] + b[1..] && s == [s[0]] + s[1..];
        assert (b + "[")[1..] == b[1..] + "[";
        if b[0] == s[0] {
          PrefixTail(b + "[", s);
        }
      }
    }
  }

  /** A node is the owner, or the function of the owner with a parameter. */
  ghost predicate Names(owner: string, path: string, name: string, node: string) {
    node == owner
    || exists base, rest :: '[' !in base && (name == base || base + "[" <= name) && node == path + "::" + base + "[" + rest
  }

  lemma NodesExactly(owner: string, path: string, name: string, node: string)
    ensures NodeMatches(owner, path, name, node) <==> Names(owner, path, name, node)
  {
    BasesExactly(name, Base(name));
    var head := path + "::" + Base(name) + "[";
    if StartsWith(node, head) {
      assert node == head + node[|head|..];
    }
    if base, rest :| '[' !in base && (name == base || base + "[" <= name) && node == path + "::" + base + "[" + rest {
      BasesExactly(name, base);
    }
  }

  /** The M15 rule for a pytest owner. */
  ghost predicate M15Owner(owner: string, files: set<string>, nodes: set<string>) {
    exists path, name ::
      && Cuts(owner, "::", path, name) && (exists x :: path == "tests/" + x + ".py") && path in files && TestName(name)
      && exists n :: n in nodes && Names(owner, path, name, n)
  }

  /** M15PythonOwnerResolves, without the functions it calls. */
  lemma M15OwnersExactly(owner: string, files: set<string>, nodes: set<string>)
    ensures M15Guards(owner, files) && Collected(owner, nodes) <==> M15Owner(owner, files, nodes)
  {
    hide Cuts, IsTestName, TestName, NodeMatches, Names, StartsWith, EndsWith;
    if SplitOwner(owner).Some? {
      var (path, name) := SplitOwner(owner).value;
      PathEnds(path, "tests/", ".py");
      TestNamesExactly(name);
      NamesAll(owner, path, name);
      SplitsExactly(owner, path, name);
    }
    if M15Owner(owner, files, nodes) {
      var path, name :| Cuts(owner, "::", path, name) && (exists x :: path == "tests/" + x + ".py") && path in files && TestName(name)
        && exists n :: n in nodes && Names(owner, path, name, n);
      SplitsExactly(owner, path, name);
      PathEnds(path, "tests/", ".py");
      TestNamesExactly(name);
      NamesAll(owner, path, name);
    }
  }

  lemma NamesAll(owner: string, path: string, name: string)
    ensures forall n :: NodeMatches(owner, path, name, n) <==> Names(owner, path, name, n)
  {
    forall n
      ensures NodeMatches(owner, path, name, n) <==> Names(owner, path, name, n)
    {
      NodesExactly(owner, path, name, n);
    }
  }

  /** The M16 rule. */
  ghost predicate M16Owner(owner: string, files: set<string>, nodes: set<string>) {
    exists path, name :: Cuts(owner, "::", path, name) && path in files && exists n :: n in nodes && Names(owner, path, name, n)
  }

  lemma M16OwnersExactly(owner: string, files: set<string>, nodes: set<string>)
    ensures M16Guards(owner, files) && Collected(owner, nodes) <==> M16Owner(owner, files, nodes)
    ensures SplitOwner(owner).Some? <==> exists a, b :: owner == a + "::" + b
  {
    hide Cuts, NodeMatches, Names;
    Occurs(owner, "::");
    if SplitOwner(owner).Some? {
      var (path, name) := SplitOwner(owner).value;
      NamesAll(owner, path, name);
      SplitsExactly(owner, path, name);
    }
    if M16Owner(owner, files, nodes) {
      var path, name :| Cuts(owner, "::", path, name) && path in files && exists n :: n in nodes && Names(owner, path, name, n);
      SplitsExactly(owner, path, name);
      NamesAll(owner, path, name);
    }
  }

  // ------------------------------------------------------------------ the M16 owners

  /** owner.lower(), code by code. */
  lemma LowerCodes(s: string, i: nat)
    requires i < |s|
    ensures |ProofUniverse.Lower(s)| == |s|
    ensures ProofUniverse.Lower(s)[i] as int == if 65 <= s[i] as int <= 90 then s[i] as int + 32 else s[i] as int
  {}

  ghost predicate Contains(text: string, part: string) { exists a, b :: text == a + part + b }

  lemma UnfinishedExactly(owner: string)
    ensures ProofUniverse.Unfinished(owner) <==>
              Contains(ProofUniverse.Lower(owner), "pending") || Contains(ProofUniverse.Lower(owner), "todo")
  {
    hide ProofUniverse.Lower;
    Occurs(ProofUniverse.Lower(owner), "pending");
    Occurs(ProofUniverse.Lower(owner), "todo");
  }

  /** The text before a separator, or all of it. */
  ghost predicate Heads(s: string, separator: string, head: string) {
    (exists rest :: Cuts(s, separator, head, rest)) || (head == s && !Contains(s, separator))
  }

  lemma BeforeExactly(s: string, separator: string)
    ensures Heads(s, separator, ProofUniverse.Before(s, separator))
    ensures forall head :: Heads(s, separator, head) ==> head == ProofUniverse.Before(s, separator)
  {
    Occurs(s, separator);
    FindOccurs(s, separator);
    if Find(s, separator).Some? {
      var k := Find(s, separator).value;
      assert s == s[..k] + separator + s[k + |separator|..];
      FindCuts(s, separator, s[..k], s[k + |separator|..]);
    }
    forall head | Heads(s, separator, head)
      ensures head == ProofUniverse.Before(s, separator)
    {
      if rest :| Cuts(s, separator, head, rest) {
        FindCuts(s, separator, head, rest);
        assert s == head + separator + rest && s[..|head|] == head;
      }
    }
  }

  lemma CutsAround(s: string, separator: string, a: string, b: string)
    ensures Cuts(s, separator, a, b) <==>
              Find(s, separator).Some? && a == ProofUniverse.Before(s, separator) && b == ProofUniverse.After(s, separator)
  {
    FindCuts(s, separator, a, b);
    FindOccurs(s, separator);
    if Cuts(s, separator, a, b) {
      assert s[..|a|] == a && s[|a| + |separator|..] == b;
    } else if Find(s, separator).Some? {
      var k := Find(s, separator).value;
      assert s == s[..k] + separator + s[k + |separator|..];
    }
  }

  /** An owner of a Python test: its file is there before and after trimming, and it is
      collected. */
  ghost predicate PythonGood(owner: string, w: ProofUniverse.World) {
    exists text, spec, raw ::
      && owner == "PY " + text && Padded(text, spec) && ProofMap.Trimmed(spec)
      && Heads(text, "::", raw) && raw in w.files && M16Owner(spec, w.files.Keys, w.nodes)
  }

  /** FE path#marker: the marker stands in the file. */
  ghost predicate FrontendGood(owner: string, w: ProofUniverse.World) {
    exists text, spec, path, marker ::
      && owner == "FE " + text && Padded(text, spec) && ProofMap.Trimmed(spec)
      && Cuts(spec, "#", path, marker) && path in w.files && Contains(w.files[path], marker)
  }

  /** STRUCT path::function: the file defines the function. */
  ghost predicate StructuralGood(owner: string, w: ProofUniverse.World) {
    exists text, spec, path, name ::
      && owner == "STRUCT " + text && Padded(text, spec) && ProofMap.Trimmed(spec)
      && Cuts(spec, "::", path, name) && path in w.files && Contains(w.files[path], "def " + name + "(")
  }

  lemma Prefixed(owner: string, front: string, text: string)
    ensures owner == front + text <==> StartsWith(owner, front) && owner[|front|..] == text
  {
    if StartsWith(owner, front) {
      assert owner == front + owner[|front|..];
    }
  }

  /** The path before the separator is missing: looked up as it is written. */
  ghost predicate PathMissing(owner: string, w: ProofUniverse.World) {
    exists text, raw :: owner == "PY " + text && Heads(text, "::", raw) && raw !in w.files
  }

  lemma PythonExactly(owner: string, w: ProofUniverse.World)
    requires StartsWith(owner, "PY ")
    ensures ProofUniverse.JudgePython(owner, w) == ProofUniverse.Good <==> PythonGood(owner, w)
    ensures ProofUniverse.JudgePython(owner, w) == ProofUniverse.PathAbsent <==> PathMissing(owner, w)
    ensures ProofUniverse.JudgePython(owner, w) == ProofUniverse.Crash <==>
              !PathMissing(owner, w) && !Contains(owner[3..], "::")
  {
    assert |"PY "| == 3 <= |owner|;
    hide Padded, ProofMap.Trim, ProofMap.Trimmed, Heads, M16Owner, Collected, M16Guards, StartsWith;
    var text := owner[3..];
    var spec := ProofMap.Trim(text);
    var raw := ProofUniverse.Before(text, "::");
    Prefixed(owner, "PY ", text);
    TrimExactly(text, spec);
    BeforeExactly(text, "::");
    M16OwnersExactly(spec, w.files.Keys, w.nodes);
    GuardedSplits(spec, w.files.Keys);
    TrimmingKeepsSeparator(text);
    if PathMissing(owner, w) {
      var t, r :| owner == "PY " + t && Heads(t, "::", r) && r !in w.files;
      Prefixed(owner, "PY ", t);
      assert t == text && r == raw;
    }
    if PythonGood(owner, w) {
      var t, s, r :| owner == "PY " + t && Padded(t, s) && ProofMap.Trimmed(s)
        && Heads(t, "::", r) && r in w.files && M16Owner(s, w.files.Keys, w.nodes);
      Prefixed(owner, "PY ", t);
      TrimExactly(t, s);
      assert t == text && s == spec && r == raw;
    }
  }

  /** Blanks hold no separator. */
  lemma TrimmingKeepsSeparator(text: string)
    ensures SplitOwner(ProofMap.Trim(text)).Some? <==> Contains(text, "::")
  {
    hide ProofMap.Trim, Contains, ProofMap.Blank;
    var spec := ProofMap.Trim(text);
    TrimExactly(text, spec);
    var a, b :| ProofMap.Blank(a) && ProofMap.Blank(b) && text == a + spec + b;
    ContainsExactly(spec, "::");
    SeparatorInside(text, a, spec, b);
  }

  lemma SeparatorInside(text: string, a: string, spec: string, b: string)
    requires ProofMap.Blank(a) && ProofMap.Blank(b) && text == a + spec + b
    ensures Contains(spec, "::") <==> Contains(text, "::")
  {
    hide ProofMap.Blank;
    if Contains(spec, "::") {
      var x, y :| spec == x + "::" + y;
      SeparatorOutside(a, x, y, b);
    }
    if Contains(text, "::") {
      var x, y :| text == x + "::" + y;
      var k := |x|;
      assert text[k] == ':' && text[k + 1] == ':';
      ColonsInside(text, a, spec, b, k);
      ColonsInside(text, a, spec, b, k + 1);
      var m := k - |a|;
      assert spec[m] == text[k] && spec[m + 1] == text[k + 1];
      SeparatorAt(spec, m);
    }
  }

  lemma SeparatorOutside(a: string, x: string, y: string, b: string)
    ensures Contains(a + (x + "::" + y) + b, "::")
  {
    assert a + (x + "::" + y) + b == (a + x) + "::" + (y + b);
  }

  lemma SeparatorAt(s: string, m: nat)
    requires m + 1 < |s| && s[m] == ':' && s[m + 1] == ':'
    ensures Contains(s, "::")
  {
    assert s == s[..m] + "::" + s[m + 2..];
  }

  lemma ColonsInside(text: string, a: string, spec: string, b: string, k: nat)
    requires ProofMap.Blank(a) && ProofMap.Blank(b) && text == a + spec + b && k < |text|
    ensures text[k] == ':' ==> |a| <= k < |a| + |spec|
  {
    if k < |a| {
      assert text[k] == a[k] && a[k] in a;
    } else if k >= |a| + |spec| {
      var i := k - |a| - |spec|;
      assert text[k] == b[i] && b[i] in b;
    }
  }

  lemma GuardedSplits(owner: string, files: set<string>)
    ensures M16Guards(owner, files) ==> SplitOwner(owner).Some?
  {}

  lemma FrontendExactly(owner: string, w: ProofUniverse.World)
    requires StartsWith(owner, "FE ")
    ensures ProofUniverse.JudgeFrontend(owner, w) == ProofUniverse.Good <==> FrontendGood(owner, w)
  {
    assert |"FE "| == 3 <= |owner|;
    hide Padded, ProofMap.Trim, ProofMap.Trimmed, Cuts, Contains, StartsWith;
    var text := owner[3..];
    var spec := ProofMap.Trim(text);
    Prefixed(owner, "FE ", text);
    TrimExactly(text, spec);
    var path, marker := ProofUniverse.Before(spec, "#"), ProofUniverse.After(spec, "#");
    CutsAround(spec, "#", path, marker);
    if path in w.files {
      ContainsExactly(w.files[path], marker);
    }
    if FrontendGood(owner, w) {
      var t, s, p, m :| owner == "FE " + t && Padded(t, s) && ProofMap.Trimmed(s)
        && Cuts(s, "#", p, m) && p in w.files && Contains(w.files[p], m);
      Prefixed(owner, "FE ", t);
      TrimExactly(t, s);
      CutsAround(spec, "#", p, m);
    }
  }

  lemma ContainsExactly(text: string, part: string)
    ensures ProofUniverse.Mentions(text, part) <==> Contains(text, part)
  {
    Occurs(text, part);
  }

  lemma StructuralExactly(owner: string, w: ProofUniverse.World)
    requires StartsWith(owner, "STRUCT ")
    ensures ProofUniverse.JudgeStructural(owner, w) == ProofUniverse.Good <==> StructuralGood(owner, w)
  {
    assert |"STRUCT "| == 7 <= |owner|;
    hide Padded, ProofMap.Trim, ProofMap.Trimmed, Cuts, Contains, StartsWith;
    var text := owner[7..];
    var spec := ProofMap.Trim(text);
    Prefixed(owner, "STRUCT ", text);
    TrimExactly(text, spec);
    var path, name := ProofUniverse.Before(spec, "::"), ProofUniverse.After(spec, "::");
    CutsAround(spec, "::", path, name);
    if path in w.files {
      ContainsExactly(w.files[path], "def " + name + "(");
    }
    if StructuralGood(owner, w) {
      var t, s, p, m :| owner == "STRUCT " + t && Padded(t, s) && ProofMap.Trimmed(s)
        && Cuts(s, "::", p, m) && p in w.files && Contains(w.files[p], "def " + m + "(");
      Prefixed(owner, "STRUCT ", t);
      TrimExactly(t, s);
      CutsAround(spec, "::", p, m);
    }
  }

  /** check_owners has nothing to say about an owner exactly when it is of one of the
      three kinds, and good of its kind. */
  lemma UniverseOwnersExactly(owner: string, w: ProofUniverse.World)
    ensures ProofUniverse.Judge(owner, w) == ProofUniverse.Good <==>
              PythonGood(owner, w) || FrontendGood(owner, w) || StructuralGood(owner, w)
    ensures ProofUniverse.Judge(owner, w) == ProofUniverse.UnknownGrammar <==>
              forall text :: owner != "PY " + text && owner != "FE " + text && owner != "STRUCT " + text
    ensures ProofUniverse.Judge(owner, w) == ProofUniverse.MarkerAbsent <==>
              (exists text :: owner == "FE " + text) && !FrontendGood(owner, w)
    ensures ProofUniverse.Judge(owner, w) == ProofUniverse.FunctionAbsent <==>
              (exists text :: owner == "STRUCT " + text) && !StructuralGood(owner, w)
    ensures ProofUniverse.Judge(owner, w) == ProofUniverse.PathAbsent <==> PathMissing(owner, w)
    ensures ProofUniverse.Judge(owner, w) == ProofUniverse.Crash <==>
              exists text :: owner == "PY " + text && !PathMissing(owner, w) && !Contains(text, "::")
  {
    hide PythonGood, FrontendGood, StructuralGood, PathMissing, Contains;
    hide ProofUniverse.JudgePython, ProofUniverse.JudgeFrontend, ProofUniverse.JudgeStructural;
    OneKind(owner, w);
    if StartsWith(owner, "PY ") {
      PythonExactly(owner, w);
      Prefixed(owner, "PY ", owner[3..]);
      forall text | owner == "PY " + text
        ensures text == owner[3..]
      {
        Prefixed(owner, "PY ", text);
      }
    } else if StartsWith(owner, "FE ") {
      FrontendExactly(owner, w);
    } else if StartsWith(owner, "STRUCT ") {
      StructuralExactly(owner, w);
    }
  }

  lemma OneKind(owner: string, w: ProofUniverse.World)
    ensures PythonGood(owner, w) || PathMissing(owner, w) ==> StartsWith(owner, "PY ")
    ensures StartsWith(owner, "FE ") ==> ProofUniverse.JudgeFrontend(owner, w) in {ProofUniverse.Good, ProofUniverse.MarkerAbsent}
    ensures StartsWith(owner, "STRUCT ") ==> ProofUniverse.JudgeStructural(owner, w) in {ProofUniverse.Good, ProofUniverse.FunctionAbsent}
    ensures StartsWith(owner, "PY ") ==>
              ProofUniverse.JudgePython(owner, w) in {ProofUniverse.Good, ProofUniverse.PathAbsent, ProofUniverse.Crash, ProofUniverse.NotCollectable}
    ensures FrontendGood(owner, w) ==> StartsWith(owner, "FE ")
    ensures StructuralGood(owner, w) ==> StartsWith(owner, "STRUCT ")
    ensures !(StartsWith(owner, "PY ") && StartsWith(owner, "FE ")) && !(StartsWith(owner, "PY ") && StartsWith(owner, "STRUCT "))
    ensures !(StartsWith(owner, "FE ") && StartsWith(owner, "STRUCT "))
    ensures StartsWith(owner, "PY ") <==> exists text :: owner == "PY " + text
    ensures StartsWith(owner, "FE ") <==> exists text :: owner == "FE " + text
    ensures StartsWith(owner, "STRUCT ") <==> exists text :: owner == "STRUCT " + text
  {
    Ends(owner, "PY ");
    Ends(owner, "FE ");
    Ends(owner, "STRUCT ");
    assert "PY "[0] == 'P' && "FE "[0] == 'F' && "STRUCT "[0] == 'S';
  }

  // ------------------------------------------------------------------ the M15 owners

  /** tests/test_m15[a-z0-9_]*\.py::test_[a-z0-9_]+ */
  lemma PendingPythonExactly(owner: string)
    ensures ProofTable.IsPendingPython(owner) <==>
              exists file, test :: owner == "tests/test_m15" + file + ".py::test_" + test && ProofTable.LowerWord(file) && ProofTable.LowerWord(test) && test != ""
  {
    hide ProofTable.IsPendingPython, ProofTable.LowerWord;
    if ProofTable.IsPendingPython(owner) {
      var _, _ := PendingPythonParts(owner);
    }
    if file, test :| owner == "tests/test_m15" + file + ".py::test_" + test && ProofTable.LowerWord(file) && ProofTable.LowerWord(test) && test != "" {
      PendingPythonWhole(owner, file, test);
    }
  }

  lemma PendingPythonParts(owner: string) returns (file: string, test: string)
    requires ProofTable.IsPendingPython(owner)
    ensures owner == "tests/test_m15" + file + ".py::test_" + test && ProofTable.LowerWord(file) && ProofTable.LowerWord(test) && test != ""
  {
    hide ProofTable.LowerWord;
    var rest := owner[|"tests/test_m15"|..];
    var i :| 0 <= i <= |rest| && ProofTable.LowerWord(rest[..i]) && StartsWith(rest[i..], ".py::test_")
             && rest[i + |".py::test_"|..] != "" && ProofTable.LowerWord(rest[i + |".py::test_"|..]);
    PiecesJoin(owner, "tests/test_m15", i, ".py::test_");
    file, test := rest[..i], rest[i + |".py::test_"|..];
  }

  lemma PendingPythonWhole(owner: string, file: string, test: string)
    requires owner == "tests/test_m15" + file + ".py::test_" + test && ProofTable.LowerWord(file) && ProofTable.LowerWord(test) && test != ""
    ensures ProofTable.IsPendingPython(owner)
  {
    hide ProofTable.LowerWord;
    PiecesAt(owner, "tests/test_m15", file, ".py::test_", test);
  }

  lemma PiecesJoin(s: string, front: string, i: nat, mid: string)
    requires StartsWith(s, front) && i <= |s| - |front| && StartsWith(s[|front|..][i..], mid)
    ensures var rest := s[|front|..]; s == front + rest[..i] + mid + rest[i + |mid|..]
  {
    var rest := s[|front|..];
    assert rest[i..] == mid + rest[i + |mid|..];
    assert rest == rest[..i] + (mid + rest[i + |mid|..]);
    assert s == front + rest;
  }

  lemma PiecesAt(s: string, front: string, a: string, mid: string, b: string)
    requires s == front + a + mid + b
    ensures StartsWith(s, front)
    ensures var rest := s[|front|..];
            |a| <= |rest| && rest[..|a|] == a && StartsWith(rest[|a|..], mid) && |a| + |mid| <= |rest| && rest[|a| + |mid|..] == b
  {
    assert s == front + (a + mid + b);
    var rest := s[|front|..];
    assert rest == a + mid + b == a + (mid + b);
    assert rest[|a|..] == mid + b;
  }

  /** apps/web/src/__tests__/m15-[a-z0-9-]+\.test\.tsx::.+ */
  lemma PendingFrontendExactly(owner: string)
    ensures ProofTable.IsPendingFrontend(owner) <==>
              exists file, title :: owner == "apps/web/src/__tests__/m15-" + file + ".test.tsx::" + title && ProofTable.LowerDashed(file) && file != "" && title != "" && '\n' !in title
  {
    hide ProofTable.IsPendingFrontend, ProofTable.LowerDashed;
    if ProofTable.IsPendingFrontend(owner) {
      var _, _ := PendingFrontendParts(owner);
    }
    if file, title :| owner == "apps/web/src/__tests__/m15-" + file + ".test.tsx::" + title && ProofTable.LowerDashed(file) && file != "" && title != "" && '\n' !in title {
      PendingFrontendWhole(owner, file, title);
    }
  }

  lemma PendingFrontendParts(owner: string) returns (file: string, title: string)
    requires ProofTable.IsPendingFrontend(owner)
    ensures owner == "apps/web/src/__tests__/m15-" + file + ".test.tsx::" + title && ProofTable.LowerDashed(file) && file != "" && title != "" && '\n' !in title
  {
    hide ProofTable.LowerDashed;
    var rest := owner[|"apps/web/src/__tests__/m15-"|..];
    var i :| 0 < i <= |rest| && ProofTable.LowerDashed(rest[..i]) && StartsWith(rest[i..], ".test.tsx::")
             && rest[i + |".test.tsx::"|..] != "" && '\n' !in rest[i + |".test.tsx::"|..];
    PiecesJoin(owner, "apps/web/src/__tests__/m15-", i, ".test.tsx::");
    file, title := rest[..i], rest[i + |".test.tsx::"|..];
  }

  lemma PendingFrontendWhole(owner: string, file: string, title: string)
    requires owner == "apps/web/src/__tests__/m15-" + file + ".test.tsx::" + title && ProofTable.LowerDashed(file) && file != "" && title != "" && '\n' !in title
    ensures ProofTable.IsPendingFrontend(owner)
  {
    hide ProofTable.LowerDashed;
    PiecesAt(owner, "apps/web/src/__tests__/m15-", file, ".test.tsx::", title);
  }

  ghost predicate QuotedIn(text: string, title: string) {
    exists a, b :: text == a + "\"" + title + "\"" + b || text == a + "'" + title + "'" + b || text == a + "`" + title + "`" + b
  }

  /** path::title: a test file of the front end whose text quotes the title. */
  ghost predicate FrontendTitle(owner: string, files: map<string, string>) {
    exists path, title ::
      && Cuts(owner, "::", path, title) && (exists x :: path == "apps/web/src/__tests__/" + x + ".tsx")
      && path in files && QuotedIn(files[path], title)
  }

  lemma QuotedOnce(text: string, q: string, title: string)
    ensures ProofUniverse.Mentions(text, q + title + q) <==> exists a, b :: text == a + q + title + q + b
  {
    Occurs(text, q + title + q);
    if a, b :| text == a + (q + title + q) + b {
      assert text == a + q + title + q + b;
    }
    if a, b :| text == a + q + title + q + b {
      assert text == a + (q + title + q) + b;
    }
  }

  lemma QuotesExactly(text: string, title: string)
    ensures QuotedIn(text, title) <==> exists q | q in ["\"", "'", "`"] :: ProofUniverse.Mentions(text, q + title + q)
  {
    hide ProofUniverse.Mentions;
    QuotedOnce(text, "\"", title);
    QuotedOnce(text, "'", title);
    QuotedOnce(text, "`", title);
    var quotes := ["\"", "'", "`"];
    assert quotes[0] == "\"" && quotes[1] == "'" && quotes[2] == "`";
    assert forall q :: q in quotes <==> q == "\"" || q == "'" || q == "`";
  }

  lemma FrontendTitlesExactly(owner: string, files: map<string, string>)
    ensures ProofTable.FrontendResolves(owner, files) <==> FrontendTitle(owner, files)
  {
    hide Cuts, StartsWith, EndsWith, QuotedIn, ProofUniverse.Mentions;
    if SplitOwner(owner).Some? {
      var (path, title) := SplitOwner(owner).value;
      SplitsExactly(owner, path, title);
      PathEnds(path, "apps/web/src/__tests__/", ".tsx");
      if path in files {
        QuotesExactly(files[path], title);
      }
    }
    if FrontendTitle(owner, files) {
      var path, title :| Cuts(owner, "::", path, title) && (exists x :: path == "apps/web/src/__tests__/" + x + ".tsx")
        && path in files && QuotedIn(files[path], title);
      SplitsExactly(owner, path, title);
      PathEnds(path, "apps/web/src/__tests__/", ".tsx");
      QuotesExactly(files[path], title);
    }
  }
}
