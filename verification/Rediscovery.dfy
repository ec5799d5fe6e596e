/**
 Marker rediscovery: merging the executor's queue and history evidence for one
 attempt identity into "absent", "adopt this prompt", or an invariant failure.
 */
module Rediscovery {
  import opened Wrappers
  import opened Ownership

  /** The (generation, attempt) pair a submitted prompt carries. */
  type Marker = (GenId, AttemptId)

  datatype Sighting = Sighting(prompt: PromptId, marker: Option<Marker>)

  datatype Verdict = Absent | Adopt(prompt: PromptId) | ConflictingEvidence | DuplicateAttempt

  /** No prompt is seen with two different markers. */
  ghost predicate Coherent(seen: seq<Sighting>) {
    forall i, j | 0 <= i < |seen| && 0 <= j < |seen| && seen[i].prompt == seen[j].prompt ::
      seen[i].marker == seen[j].marker
  }

  function Ours(seen: seq<Sighting>, us: Marker): set<PromptId> {
    set i | 0 <= i < |seen| && seen[i].marker == Some(us) :: seen[i].prompt
  }

  /** What the merge must answer, said without the order in which records come. */
  ghost predicate Answers(seen: seq<Sighting>, us: Marker, v: Verdict) {
    match v
    case ConflictingEvidence => !Coherent(seen)
    case Absent => Coherent(seen) && Ours(seen, us) == {}
    case Adopt(p) => Coherent(seen) && Ours(seen, us) == {p}
    case DuplicateAttempt => Coherent(seen) && |Ours(seen, us)| > 1
  }

  lemma AnswerIsUnique(seen: seq<Sighting>, us: Marker, v: Verdict, v': Verdict)
    requires Answers(seen, us, v) && Answers(seen, us, v')
    ensures v == v'
  {}

  lemma OneOrMore(s: set<PromptId>)
    requires |s| == 1
    ensures exists p :: s == {p}
  {
    var p :| p in s;
    assert |s - {p}| == 0;
    assert s == {p};
  }

  lemma AtMostOne(s: set<PromptId>)
    requires forall p, q | p in s && q in s :: p == q
    ensures |s| <= 1
  {
    if p :| p in s {
      assert s == {p};
    }
  }

  /** What the merge has learnt from a prefix of the evidence. */
  ghost predicate Learnt(seen: seq<Sighting>, us: Marker, markers: map<PromptId, Option<Marker>>, ours: set<PromptId>) {
    && (forall j | 0 <= j < |seen| :: seen[j].prompt in markers && markers[seen[j].prompt] == seen[j].marker)
    && (forall p | p in markers :: exists j :: 0 <= j < |seen| && seen[j].prompt == p)
    && ours == Ours(seen, us)
  }

  lemma LearntIsCoherent(seen: seq<Sighting>, us: Marker, markers: map<PromptId, Option<Marker>>, ours: set<PromptId>)
    requires Learnt(seen, us, markers, ours)
    ensures Coherent(seen)
  {}

  lemma LearnOne(seen: seq<Sighting>, s: Sighting, us: Marker, markers: map<PromptId, Option<Marker>>, ours: set<PromptId>)
    requires Learnt(seen, us, markers, ours)
    requires s.prompt in markers ==> markers[s.prompt] == s.marker
    ensures Learnt(seen + [s], us, markers[s.prompt := s.marker],
                   if s.marker == Some(us) then ours + {s.prompt} else ours)
  {
    var more := seen + [s];
    assert more[|seen|] == s;
    assert forall j | 0 <= j < |seen| :: more[j] == seen[j];
    assert forall p | p in ours :: exists j :: 0 <= j < |more| && more[j].marker == Some(us) && more[j].prompt == p by {
      forall p | p in ours
        ensures exists j :: 0 <= j < |more| && more[j].marker == Some(us) && more[j].prompt == p
      {
        var j :| 0 <= j < |seen| && seen[j].marker == Some(us) && seen[j].prompt == p;
        assert more[j].prompt == p;
      }
    }
  }

  lemma LearnNext(all: seq<Sighting>, i: nat, us: Marker, markers: map<PromptId, Option<Marker>>, ours: set<PromptId>)
    requires i < |all| && Learnt(all[..i], us, markers, ours)
    requires all[i].prompt in markers ==> markers[all[i].prompt] == all[i].marker
    ensures Learnt(all[..i + 1], us, markers[all[i].prompt := all[i].marker],
                   if all[i].marker == Some(us) then ours + {all[i].prompt} else ours)
  {
    hide Learnt;
    assert all[..i + 1] == all[..i] + [all[i]];
    LearnOne(all[..i], all[i], us, markers, ours);
  }

  /** Everything learnt and no conflict: the number of our prompts decides. */
  lemma LearntDecides(all: seq<Sighting>, us: Marker, markers: map<PromptId, Option<Marker>>, ours: set<PromptId>, v: Verdict)
    requires Learnt(all, us, markers, ours)
    requires match v case Absent => |ours| == 0 case Adopt(p) => |ours| == 1 && p in ours
                     case DuplicateAttempt => |ours| > 1 case ConflictingEvidence => false
    ensures Answers(all, us, v)
  {
    LearntIsCoherent(all, us, markers, ours);
    if v.Adopt? {
      OneOrMore(ours);
    }
  }

  /** A second marker for a known prompt is a conflict wherever the rest leads. */
  lemma SecondMarkerConflicts(all: seq<Sighting>, i: nat, us: Marker, markers: map<PromptId, Option<Marker>>, ours: set<PromptId>)
    requires i < |all| && Learnt(all[..i], us, markers, ours)
    requires all[i].prompt in markers && markers[all[i].prompt] != all[i].marker
    ensures !Coherent(all)
  {}

  /** The two surfaces are walked in order; the first prompt met with a second
      marker stops the merge, whether or not either marker is ours. */
  method MergeEvidence(queue: seq<Sighting>, history: seq<Sighting>, us: Marker) returns (v: Verdict)
    ensures Answers(queue + history, us, v)
  {
    ghost var all := queue + history;
    var markers: map<PromptId, Option<Marker>> := map[];
    var ours: set<PromptId> := {};
    var i := 0;
    while i < |queue| + |history|
      invariant 0 <= i <= |all|
      invariant Learnt(all[..i], us, markers, ours)
    {
      hide Learnt, Coherent, Ours;
      var s := if i < |queue| then queue[i] else history[i - |queue|];
      assert s == all[i];
      if s.prompt in markers && markers[s.prompt] != s.marker {
        SecondMarkerConflicts(all, i, us, markers, ours);
        return ConflictingEvidence;
      }
      LearnNext(all, i, us, markers, ours);
      markers := markers[s.prompt := s.marker];
      if s.marker == Some(us) {
        ours := ours + {s.prompt};
      }
      i := i + 1;
    }
    hide Learnt, Coherent, Ours;
    assert all[..i] == all;
    if |ours| == 0 {
      v := Absent;
    } else if |ours| == 1 {
      var p :| p in ours;
      v := Adopt(p);
    } else {
      v := DuplicateAttempt;
    }
    LearntDecides(all, us, markers, ours, v);
  }

  /** Evidence from an executor that returns every prompt's marker as submitted:
      a prompt in accepted shows its own marker, any other prompt shows none. */
  ghost predicate Truthful(seen: seq<Sighting>, accepted: map<PromptId, Marker>) {
    forall s | s in seen ::
      s.marker == if s.prompt in accepted then Some(accepted[s.prompt]) else None
  }

  /** With truthful evidence and at most one accepted prompt for the attempt, the
      merge never fails: it answers "absent", or adopts exactly that prompt. */
  lemma TruthfulEvidenceNeverConflicts(
    seen: seq<Sighting>, us: Marker, accepted: map<PromptId, Marker>, v: Verdict)
    requires Truthful(seen, accepted) && Answers(seen, us, v)
    requires forall p, q | p in accepted && q in accepted && accepted[p] == us && accepted[q] == us :: p == q
    ensures v.Absent? || v.Adopt?
    ensures v.Adopt? ==> v.prompt in accepted && accepted[v.prompt] == us
  {
    var ours := Ours(seen, us);
    assert forall i | 0 <= i < |seen| :: seen[i] in seen;
    assert forall p | p in ours :: p in accepted && accepted[p] == us;
    AtMostOne(ours);
    assert Coherent(seen);
    if v.Adopt? {
      assert v.prompt in ours;
    }
  }

  /** A surface that drops or changes the marker of a prompt of ours turns any evidence
      into an invariant failure, whatever else was seen and wherever the two stand. */
  lemma OmittedMarkerConflicts(seen: seq<Sighting>, us: Marker, i: nat, j: nat)
    requires i < |seen| && j < |seen| && seen[i].prompt == seen[j].prompt
    requires seen[i].marker == Some(us) && seen[j].marker != Some(us)
    ensures forall v :: Answers(seen, us, v) <==> v == ConflictingEvidence
  {
    assert !Coherent(seen);
  }
}
