// The generated training target (teacher/build_sft.py) and the verifier that
// must accept it.

module WarmStart {
  import opened Numbers
  import opened Finite
  import opened Filters
  import opened Results
  import opened Reward
  import opened Ndcg

  /** The parts of an instance that the target and its check use. */
  datatype Instance = Instance(candidates: seq<string>, positives: seq<string>, evidence: seq<string>)

  // ---------- lists of identifiers ----------

  /** The elements whose membership of `members` is as wanted. */
  function Keep(s: seq<string>, members: set<string>, wanted: bool): seq<string> {
    if s == [] then []
    else Keep(s[..|s| - 1], members, wanted) + if (s[|s| - 1] in members) == wanted then [s[|s| - 1]] else []
  }

  ghost predicate Distinct(s: seq<string>) {
    forall i, j :: 0 <= i < j < |s| ==> s[i] != s[j]
  }

  lemma {:induction false} KeepMembers(s: seq<string>, members: set<string>, wanted: bool)
    ensures forall x :: x in Keep(s, members, wanted) <==> x in s && (x in members) == wanted
  {
    if s != [] {
      KeepMembers(s[..|s| - 1], members, wanted);
      assert s == s[..|s| - 1] + [s[|s| - 1]];
    }
  }

  /** Keeping changes neither the order nor the number of what is kept. */
  lemma {:induction false} KeepInOrder(s: seq<string>, members: set<string>, wanted: bool) returns (at: seq<nat>)
    ensures HeldAt(s, at, Keep(s, members, wanted))
    ensures forall k :: 0 <= k < |s| ==> (k in at <==> (s[k] in members) == wanted)
  {
    if s == [] {
      at := [];
    } else {
      var front, x := s[..|s| - 1], s[|s| - 1];
      at := KeepInOrder(front, members, wanted);
      assert s == front + [x];
      HeldAtMore(front, at, Keep(front, members, wanted), x);
      if (x in members) == wanted {
        at := at + [|front|];
      } else {
        assert |front| !in at;
      }
      hide HeldAt;
    }
  }

  lemma {:induction false} KeepTwice(s: seq<string>, members: set<string>, out: set<string>) returns (at: seq<nat>)
    ensures HeldAt(s, at, Keep(Keep(s, members, true), out, false))
    ensures forall k :: 0 <= k < |s| ==> (k in at <==> s[k] in members && s[k] !in out)
  {
    var once := Keep(s, members, true);
    var first := KeepInOrder(s, members, true);
    var second := KeepInOrder(once, out, false);
    at := HeldAtTwice(s, first, once, second, Keep(once, out, false));
    hide Keep;
    forall k | 0 <= k < |s| ensures k in at <==> s[k] in members && s[k] !in out {
      if k in first {
        var j :| 0 <= j < |first| && first[j] == k;
        assert once[j] == s[k];
        assert forall i :: 0 <= i < |first| && first[i] == k ==> i == j;
      }
    }
  }

  lemma {:induction false} KeepDistinct(s: seq<string>, members: set<string>, wanted: bool)
    requires Distinct(s)
    ensures Distinct(Keep(s, members, wanted))
  {
    if s != [] {
      KeepDistinct(s[..|s| - 1], members, wanted);
      KeepMembers(s[..|s| - 1], members, wanted);
    }
  }

  lemma {:induction false} DistinctSize(s: seq<string>)
    ensures |ToSet(s)| <= |s|
    ensures |ToSet(s)| == |s| <==> Distinct(s)
  {
    if s != [] {
      var front, x := s[..|s| - 1], s[|s| - 1];
      DistinctSize(front);
      assert s == front + [x];
      assert ToSet(s) == ToSet(front) + {x};
      if x in front {
        assert ToSet(s) == ToSet(front);
        assert !Distinct(s);
      }
    }
  }

  lemma {:induction false} DistinctOccurrences(s: seq<string>, x: string)
    requires Distinct(s)
    ensures multiset(s)[x] == if x in s then 1 else 0
  {
    if s != [] {
      DistinctOccurrences(s[..|s| - 1], x);
      assert s == s[..|s| - 1] + [s[|s| - 1]];
    }
  }

  lemma {:induction false} SameMembersPermute(s: seq<string>, t: seq<string>)
    requires Distinct(s) && Distinct(t) && ToSet(s) == ToSet(t)
    ensures multiset(s) == multiset(t)
  {
    forall x ensures multiset(s)[x] == multiset(t)[x] {
      DistinctOccurrences(s, x);
      DistinctOccurrences(t, x);
      assert x in ToSet(s) <==> x in ToSet(t);
    }
  }

  // ---------- the generated answer ----------

  /** Positives that are candidates, in label order. */
  function PoolPositives(inst: Instance): seq<string> {
    Keep(inst.positives, ToSet(inst.candidates), true)
  }

  /** Evidence ids that are not empty. */
  function NamedEvidence(inst: Instance): seq<string> {
    Keep(inst.evidence, {""}, false)
  }

  function FirstFour(s: seq<string>): seq<string> {
    if |s| <= 4 then s else s[..4]
  }

  function FirstFive(s: seq<string>): seq<string> {
    if |s| <= 5 then s else s[..5]
  }

  function Target(inst: Instance): Answer
    requires PoolPositives(inst) != []
  {
    var positives, named := PoolPositives(inst), NamedEvidence(inst);
    var ranking := positives + Keep(inst.candidates, ToSet(positives), false);
    var refs := named + Keep(positives, ToSet(named), false);
    var support := FirstFour(refs) + if ranking[0] in FirstFour(refs) then [] else [ranking[0]];
    Answer(ranking, ranking[0], refs, [Step(Some(ranking[0]), Some("matches_query"), Some(FirstFive(support)))])
  }

  method FormatWarmStartResponse(inst: Instance) returns (r: Result<Answer>)
    ensures r.Ok? <==> inst.candidates != [] && PoolPositives(inst) != []
    ensures r.Ok? ==> r.value == Target(inst)
  {
    var positives := Keep(inst.positives, ToSet(inst.candidates), true);
    assert positives == PoolPositives(inst);
    if inst.candidates == [] {
      return Err("instance has no candidates");
    }
    if positives == [] {
      return Err("instance has no positive candidate ids");
    }
    var ranking := positives + Keep(inst.candidates, ToSet(positives), false);
    var evidenceRefs := Keep(inst.evidence, {""}, false);
    var named := evidenceRefs;
    evidenceRefs := evidenceRefs + Keep(positives, ToSet(named), false);
    var rationaleSupport := FirstFour(evidenceRefs);
    if ranking[0] !in rationaleSupport {
      rationaleSupport := rationaleSupport + [ranking[0]];
    } else {
      assert rationaleSupport + [] == rationaleSupport;
    }
    r := Ok(Answer(ranking, ranking[0], evidenceRefs,
                   [Step(Some(ranking[0]), Some("matches_query"), Some(FirstFive(rationaleSupport)))]));
  }

  // ---------- the verifier's view ----------

  /** The row handed to the verifier lists the candidates among the evidence and names no source evidence. */
  function TaskOf(inst: Instance): Task {
    Task(inst.positives, inst.candidates, inst.evidence + inst.candidates, [])
  }

  function Sources(inst: Instance): set<string> {
    ToSet(inst.evidence) - ToSet(inst.candidates)
  }

  /** What the target needs of its instance: no repeated ids, and, if there is evidence that is not a candidate,
      some of it among the first four named evidence ids. */
  ghost predicate Teachable(inst: Instance) {
    && Distinct(inst.candidates) && Distinct(PoolPositives(inst))
    && (Sources(inst) == {} || exists x :: x in FirstFour(NamedEvidence(inst)) && x in Sources(inst))
  }

  lemma {:induction false} TaskSets(inst: Instance)
    ensures EvidenceSet(TaskOf(inst)) == ToSet(inst.evidence) + ToSet(inst.candidates)
    ensures SourceSet(TaskOf(inst)) == Sources(inst)
  {
  }

  lemma {:induction false} RankingMembers(inst: Instance)
    requires PoolPositives(inst) != []
    ensures ToSet(Target(inst).ranking) == ToSet(inst.candidates)
  {
    var positives := PoolPositives(inst);
    KeepMembers(inst.positives, ToSet(inst.candidates), true);
    KeepMembers(inst.candidates, ToSet(positives), false);
  }

  lemma {:induction false} DistinctConcat(a: seq<string>, b: seq<string>)
    ensures Distinct(a + b) ==> Distinct(a)
    ensures Distinct(a) && Distinct(b) && ToSet(a) !! ToSet(b) ==> Distinct(a + b)
  {
    var s := a + b;
    if Distinct(s) {
      forall i, j | 0 <= i < j < |a| ensures a[i] != a[j] {
        assert s[i] == a[i] && s[j] == a[j];
      }
    }
    if Distinct(a) && Distinct(b) && ToSet(a) !! ToSet(b) {
      forall i, j | 0 <= i < j < |s| ensures s[i] != s[j] {
        if i < |a| <= j {
          assert a[i] in ToSet(a) && b[j - |a|] in ToSet(b);
        }
      }
    }
  }

  lemma {:induction false} RankingDistinct(inst: Instance)
    requires PoolPositives(inst) != []
    ensures Distinct(Target(inst).ranking) && |Target(inst).ranking| == |inst.candidates| <==>
            Distinct(inst.candidates) && Distinct(PoolPositives(inst))
  {
    var positives := PoolPositives(inst);
    var rest := Keep(inst.candidates, ToSet(positives), false);
    assert Target(inst).ranking == positives + rest;
    RankingMembers(inst);
    KeepMembers(inst.candidates, ToSet(positives), false);
    assert ToSet(positives) !! ToSet(rest);
    hide Target, PoolPositives, Keep, Distinct, ToSet;
    DistinctSize(positives + rest);
    DistinctSize(inst.candidates);
    DistinctConcat(positives, rest);
    if Distinct(inst.candidates) {
      KeepDistinct(inst.candidates, ToSet(positives), false);
    }
  }

  /** The ranking is the positives that are candidates, in label order, and then the other candidates in theirs. */
  lemma {:induction false} TargetOrder(inst: Instance) returns (ps: seq<nat>, cs: seq<nat>)
    requires PoolPositives(inst) != []
    ensures Increasing(ps) && forall k :: 0 <= k < |inst.positives| ==> (k in ps <==> inst.positives[k] in inst.candidates)
    ensures Increasing(cs) && forall k :: 0 <= k < |inst.candidates| ==> (k in cs <==> inst.candidates[k] !in inst.positives)
    ensures |Target(inst).ranking| == |ps| + |cs|
    ensures forall i :: 0 <= i < |ps| ==> ps[i] < |inst.positives| && Target(inst).ranking[i] == inst.positives[ps[i]]
    ensures forall i :: 0 <= i < |cs| ==>
                          cs[i] < |inst.candidates| && Target(inst).ranking[|ps| + i] == inst.candidates[cs[i]]
  {
    var positives := PoolPositives(inst);
    ps := KeepInOrder(inst.positives, ToSet(inst.candidates), true);
    cs := KeepInOrder(inst.candidates, ToSet(positives), false);
    KeepMembers(inst.positives, ToSet(inst.candidates), true);
    hide Keep;
  }

  /** The references are the named evidence ids in order, and then the candidate positives not among them. */
  lemma {:induction false} RefsOrder(inst: Instance) returns (es: seq<nat>, ps: seq<nat>)
    requires PoolPositives(inst) != []
    ensures Increasing(es) && forall k :: 0 <= k < |inst.evidence| ==> (k in es <==> inst.evidence[k] != "")
    ensures Increasing(ps) && forall k :: 0 <= k < |inst.positives| ==>
              (k in ps <==>
                 inst.positives[k] in inst.candidates && !(inst.positives[k] in inst.evidence && inst.positives[k] != ""))
    ensures |Target(inst).evidenceRefs| == |es| + |ps|
    ensures forall i :: 0 <= i < |es| ==> es[i] < |inst.evidence| && Target(inst).evidenceRefs[i] == inst.evidence[es[i]]
    ensures forall i :: 0 <= i < |ps| ==>
                          ps[i] < |inst.positives| && Target(inst).evidenceRefs[|es| + i] == inst.positives[ps[i]]
  {
    var named := NamedEvidence(inst);
    es := KeepInOrder(inst.evidence, {""}, false);
    ps := KeepTwice(inst.positives, ToSet(inst.candidates), ToSet(named));
    KeepMembers(inst.evidence, {""}, false);
    hide Keep;
    assert Target(inst).evidenceRefs == named + Keep(PoolPositives(inst), ToSet(named), false);
    assert forall x :: x in ToSet(named) <==> x in inst.evidence && x != "";
    hide Target, NamedEvidence, ToSet;
  }

  lemma {:induction false} TargetRefs(inst: Instance)
    requires PoolPositives(inst) != []
    ensures Target(inst).selected in inst.candidates && Target(inst).selected in inst.positives
    ensures Target(inst).selected in Target(inst).evidenceRefs
    ensures forall x :: x in Target(inst).evidenceRefs ==> x in inst.evidence || x in inst.candidates
  {
    var positives, named := PoolPositives(inst), NamedEvidence(inst);
    KeepMembers(inst.positives, ToSet(inst.candidates), true);
    KeepMembers(inst.evidence, {""}, false);
    KeepMembers(positives, ToSet(named), false);
    assert positives[0] in positives;
  }

  function SupportOf(inst: Instance): seq<string>
    requires PoolPositives(inst) != []
  {
    Target(inst).rationale[0].support.value
  }

  lemma {:induction false} TargetSupport(inst: Instance)
    requires PoolPositives(inst) != []
    ensures 1 <= |SupportOf(inst)| <= 5 && Target(inst).selected in SupportOf(inst)
    ensures forall x :: x in SupportOf(inst) <==> x == Target(inst).selected || x in FirstFour(Target(inst).evidenceRefs)
    ensures forall x :: x in SupportOf(inst) ==> x in Target(inst).evidenceRefs
    ensures FirstFour(Target(inst).evidenceRefs) <= SupportOf(inst)
    ensures |SupportOf(inst)| <= |FirstFour(Target(inst).evidenceRefs)| + 1
  {
    TargetRefs(inst);
  }

  /** A source id is supported exactly when it is among the first four named evidence ids. */
  lemma {:induction false} SourceInSupport(inst: Instance, x: string)
    requires PoolPositives(inst) != [] && x in Sources(inst)
    ensures x in SupportOf(inst) <==> x in FirstFour(NamedEvidence(inst))
  {
    var positives, named := PoolPositives(inst), NamedEvidence(inst);
    TargetSupport(inst);
    TargetRefs(inst);
    KeepMembers(inst.positives, ToSet(inst.candidates), true);
    KeepMembers(positives, ToSet(named), false);
    var refs := Target(inst).evidenceRefs;
    assert refs == named + Keep(positives, ToSet(named), false);
    var four := FirstFour(refs);
    if x in four {
      var i :| 0 <= i < |four| && four[i] == x;
      assert refs[i] == x;
    }
    if x in FirstFour(named) {
      var i :| 0 <= i < |FirstFour(named)| && FirstFour(named)[i] == x;
      assert four[i] == x;
    }
  }

  lemma {:induction false} TargetFormat(inst: Instance, e: Error)
    requires PoolPositives(inst) != []
    ensures HasFormatError(Target(inst), inst.candidates, EvidenceSet(TaskOf(inst)), e) <==>
            || (e == LengthMismatch && |Target(inst).ranking| != |inst.candidates|)
            || (e == Duplicates && !Distinct(Target(inst).ranking))
  {
    TaskSets(inst);
    TargetRefs(inst);
    RankingMembers(inst);
    var a := Target(inst);
    DistinctSize(a.ranking);
    assert a.ranking[0] == a.selected;
    forall x | x in a.ranking ensures x in inst.candidates {
      assert x in ToSet(a.ranking);
    }
    hide Target, EvidenceSet, TaskOf;
  }

  lemma {:induction false} OneStep(a: Answer, step: Step, candidates: seq<string>, evidence: set<string>,
                                   sources: set<string>, e: Error)
    requires a.rationale == [step]
    ensures HasRationaleError(a, candidates, evidence, sources, e) <==>
            || HasStepError(a, candidates, evidence, step, e)
            || (e == SelectedMissingRationale && !Explains(a, candidates, step))
            || (e == SelectedMissingSource && sources != {} && !CitesSource(a, sources, step))
  {
  }

  lemma {:induction false} TargetStep(inst: Instance, e: Error)
    requires PoolPositives(inst) != []
    ensures !HasStepError(Target(inst), inst.candidates, EvidenceSet(TaskOf(inst)), Target(inst).rationale[0], e)
    ensures Explains(Target(inst), inst.candidates, Target(inst).rationale[0])
  {
    TaskSets(inst);
    TargetRefs(inst);
    TargetSupport(inst);
    var a := Target(inst);
    var step := a.rationale[0];
    assert step == Step(Some(a.selected), Some("matches_query"), Some(SupportOf(inst)));
    assert InPool(inst.candidates, step);
    hide Target, SupportOf, EvidenceSet, TaskOf, FirstFour;
  }

  lemma {:induction false} TargetCites(inst: Instance)
    requires PoolPositives(inst) != []
    ensures CitesSource(Target(inst), Sources(inst), Target(inst).rationale[0]) <==>
            exists x :: x in FirstFour(NamedEvidence(inst)) && x in Sources(inst)
  {
    var a := Target(inst);
    var step := a.rationale[0];
    assert step == Step(Some(a.selected), Some("matches_query"), Some(SupportOf(inst)));
    forall x | x in Sources(inst) ensures x in SupportOf(inst) <==> x in FirstFour(NamedEvidence(inst)) {
      SourceInSupport(inst, x);
    }
    hide Target, SupportOf, Sources, NamedEvidence, FirstFour;
  }

  lemma {:induction false} TargetRationale(inst: Instance, e: Error)
    requires PoolPositives(inst) != []
    ensures HasRationaleError(Target(inst), inst.candidates, EvidenceSet(TaskOf(inst)), SourceSet(TaskOf(inst)), e) <==>
            e == SelectedMissingSource && Sources(inst) != {} &&
            !exists x :: x in FirstFour(NamedEvidence(inst)) && x in Sources(inst)
  {
    TaskSets(inst);
    TargetStep(inst, e);
    TargetCites(inst);
    var a := Target(inst);
    assert a.rationale == [a.rationale[0]];
    OneStep(a, a.rationale[0], inst.candidates, EvidenceSet(TaskOf(inst)), Sources(inst), e);
    hide Target, Sources, NamedEvidence, EvidenceSet, TaskOf, SourceSet, CitesSource, FirstFour,
         HasRationaleError, HasStepError, Explains;
  }

  predicate Accepted(s: Score) {
    s.format >= 1.0 && s.ndcg1 >= 1.0 && s.evidence >= 1.0 && s.rationale >= 1.0 && s.errors == {}
  }

  const DEFAULTS := Options("weighted", 0.5, 0.5, 0.1)

  method Validate(a: Answer, inst: Instance, d: nat -> real) returns (accepted: bool, s: Score)
    requires IsDiscount(d)
    ensures ScoreOf(s, a, TaskOf(inst), 1, DEFAULTS, d) && accepted == Accepted(s)
  {
    var r := ComputeScore(a, TaskOf(inst), 1, DEFAULTS, d);
    s := r.value;
    accepted := Accepted(s);
  }

  /** Without errors and with a positive on top, the verifier gives full marks. */
  lemma {:induction false} AcceptedExactly(s: Score, a: Answer, inst: Instance, d: nat -> real)
    requires ScoreOf(s, a, TaskOf(inst), 1, DEFAULTS, d)
    ensures Accepted(s) <==> s.errors == {} && TopIsPositive(a, TaskOf(inst))
    ensures Accepted(s) ==> s.format == s.evidence == s.rationale == s.ndcg1 == 1.0
  {
    var t := TaskOf(inst);
    if s.errors == {} {
      assert FormatOk(a, t) && RationaleOk(a, t) by {
        hide EvidenceSet, SourceSet, TaskOf, HasFormatError, HasRationaleError;
      }
      FormatOkIsValid(a, t);
    }
    hide EvidenceSet, SourceSet, TaskOf, HasFormatError, HasRationaleError, FormatOk, RationaleOk,
         RankingValid, EvidenceValidity;
  }

  ghost predicate TargetError(inst: Instance, e: Error)
    requires PoolPositives(inst) != []
  {
    || (e == LengthMismatch && |Target(inst).ranking| != |inst.candidates|)
    || (e == Duplicates && !Distinct(Target(inst).ranking))
    || (e == SelectedMissingSource && Sources(inst) != {} &&
        !exists x :: x in FirstFour(NamedEvidence(inst)) && x in Sources(inst))
  }

  lemma {:induction false} TargetErrors(inst: Instance, s: Score, d: nat -> real)
    requires PoolPositives(inst) != [] && ScoreOf(s, Target(inst), TaskOf(inst), 1, DEFAULTS, d)
    ensures forall e :: e in s.errors <==> TargetError(inst, e)
  {
    assert TaskOf(inst).candidates == inst.candidates;
    forall e ensures e in s.errors <==> TargetError(inst, e) {
      TargetFormat(inst, e);
      TargetRationale(inst, e);
      hide Target, TaskOf, HasFormatError, HasRationaleError, EvidenceSet, SourceSet, FormatOk, RationaleOk,
           RankingValid, TopIsPositive;
    }
  }

  lemma {:induction false} TeachableExactly(inst: Instance)
    requires PoolPositives(inst) != []
    ensures Teachable(inst) <==> forall e :: !TargetError(inst, e)
    ensures Teachable(inst) ==> multiset(Target(inst).ranking) == multiset(inst.candidates)
  {
    RankingDistinct(inst);
    RankingMembers(inst);
    if Teachable(inst) {
      SameMembersPermute(Target(inst).ranking, inst.candidates);
    }
    hide Target, Sources, NamedEvidence, FirstFour, Distinct;
    if !Teachable(inst) {
      assert TargetError(inst, LengthMismatch) || TargetError(inst, Duplicates) || TargetError(inst, SelectedMissingSource);
    }
  }

  /** The generated target is accepted exactly when its instance is teachable, and then gets full marks and
      ranks a permutation of the candidates. */
  lemma {:induction false} TargetAccepted(inst: Instance, s: Score, d: nat -> real)
    requires PoolPositives(inst) != [] && ScoreOf(s, Target(inst), TaskOf(inst), 1, DEFAULTS, d)
    ensures Accepted(s) <==> Teachable(inst)
    ensures Accepted(s) ==> s.format == s.evidence == s.rationale == s.ndcg1 == 1.0
    ensures Accepted(s) ==> multiset(Target(inst).ranking) == multiset(inst.candidates)
  {
    AcceptedExactly(s, Target(inst), inst, d);
    TargetRefs(inst);
    assert TopIsPositive(Target(inst), TaskOf(inst));
    TargetErrors(inst, s, d);
    TeachableExactly(inst);
    hide Target, TaskOf, ScoreOf, Accepted, Teachable, TargetError, TopIsPositive;
  }

  // ---------- how good the target is ----------

  /** As far as it goes, the target's ranking starts with different positives. */
  lemma {:induction false} TargetStarts(inst: Instance, m: nat)
    requires PoolPositives(inst) != [] && Distinct(PoolPositives(inst)) && m <= |PoolPositives(inst)|
    ensures PerfectStart(Target(inst).ranking, ToSet(PoolPositives(inst)), m)
    ensures PerfectStart(Target(inst).ranking, ToSet(inst.positives), m)
    ensures |ToSet(PoolPositives(inst))| == |PoolPositives(inst)|
  {
    var positives := PoolPositives(inst);
    KeepMembers(inst.positives, ToSet(inst.candidates), true);
    DistinctSize(positives);
    assert positives <= Target(inst).ranking;
    assert forall i :: 0 <= i < m ==> Target(inst).ranking[i] == positives[i] && positives[i] in positives;
    hide Keep;
  }

  /** Every positive in the pool stands before every other candidate: NDCG is 1 for every cut-off and discount. */
  lemma {:induction false} TargetNdcg(inst: Instance, k: nat, d: nat -> real)
    requires PoolPositives(inst) != [] && Teachable(inst) && IsDiscount(d) && 1 <= k
    ensures NdcgAt(Target(inst).ranking, ToSet(PoolPositives(inst)), k, d) == 1.0
  {
    var positives := PoolPositives(inst);
    TargetStarts(inst, Min(|positives|, k));
    assert positives[0] in ToSet(positives);
    NdcgRange(Target(inst).ranking, ToSet(positives), k, d);
    hide Target, ToSet, PerfectStart;
  }

  lemma {:induction false} DcgAtLeast(hits: seq<bool>, m: nat, d: nat -> real)
    requires IsDiscount(d) && m <= |hits| && forall i :: 0 <= i < m ==> hits[i]
    ensures Dcg(Ones(m), d) <= Dcg(hits, d)
  {
    if m < |hits| {
      DcgAtLeast(hits[..|hits| - 1], m, d);
    } else {
      assert hits == Ones(m);
    }
  }

  lemma {:induction false} DcgAtMost(ranking: seq<string>, positives: set<string>, pool: set<string>, k: nat,
                                     d: nat -> real)
    requires IsDiscount(d) && forall x :: x in ranking && x in positives ==> x in pool
    ensures Dcg(Hits(Top(ranking, k), positives), d) <= Dcg(Ones(Min(|pool|, k)), d)
  {
    var hits := Hits(Top(ranking, k), positives);
    HitsAreDistinctPositives(Top(ranking, k), positives);
    SubsetSize(SeenPositives(Top(ranking, k), positives), pool);
    CountBound(hits);
    HitsFirstIsBest(hits, d);
    OnesIncrease(Count(hits), Min(|pool|, k), d);
    hide Dcg, Count, Ones, HitsFirst, IsHit;
  }

  lemma {:induction false} DivideAtMost(x: real, y: real, z: real)
    requires x <= y && 0.0 < z
    ensures x / z <= y / z
  {
  }

  lemma {:induction false} PoolInPositives(inst: Instance)
    requires PoolPositives(inst) != []
    ensures ToSet(inst.positives) != {}
    ensures forall x :: x in ToSet(PoolPositives(inst)) <==> x in inst.positives && x in inst.candidates
  {
    KeepMembers(inst.positives, ToSet(inst.candidates), true);
    assert PoolPositives(inst)[0] in PoolPositives(inst);
    hide Keep;
    assert PoolPositives(inst)[0] in ToSet(inst.positives);
  }

  /** No ranking of the candidates scores higher than the target's, whether or not every positive is a candidate. */
  lemma {:induction false} TargetIsBest(inst: Instance, ranking: seq<string>, k: nat, d: nat -> real)
    requires PoolPositives(inst) != [] && Distinct(PoolPositives(inst)) && IsDiscount(d) && 1 <= k
    requires forall x :: x in ranking ==> x in inst.candidates
    ensures NdcgAt(ranking, ToSet(inst.positives), k, d) <= NdcgAt(Target(inst).ranking, ToSet(inst.positives), k, d)
  {
    var positives, best := ToSet(inst.positives), Target(inst).ranking;
    var pool := ToSet(PoolPositives(inst));
    PoolInPositives(inst);
    TargetStarts(inst, 0);
    var m := Min(|pool|, k);
    TargetStarts(inst, m);
    DcgAtMost(ranking, positives, pool, k, d);
    StartOfHits(best, positives, k, m);
    DcgAtLeast(Hits(Top(best, k), positives), m, d);
    IdealIsPositive(positives, k, d);
    hide Target, ToSet, PerfectStart, Dcg, Hits, Ones, Top, PoolPositives, IsDiscount;
    DivideAtMost(Dcg(Hits(Top(ranking, k), positives), d), Dcg(Hits(Top(best, k), positives), d),
                 Dcg(Ones(Min(|positives|, k)), d));
  }

  /** Distinct candidates, distinct positives with one in the pool, and evidence ids that are neither empty nor
      candidates make an instance teachable. */
  lemma {:induction false} OrdinaryInstances(inst: Instance)
    requires Distinct(inst.candidates) && Distinct(inst.positives)
    requires forall x :: x in inst.evidence ==> x != "" && x !in inst.candidates
    ensures Teachable(inst)
  {
    KeepDistinct(inst.positives, ToSet(inst.candidates), true);
    KeepMembers(inst.evidence, {""}, false);
    var named := NamedEvidence(inst);
    if Sources(inst) != {} {
      var y :| y in Sources(inst);
      assert y in named;
      assert FirstFour(named)[0] in named && FirstFour(named)[0] in Sources(inst);
    }
  }

  /** Evidence whose only id is the empty string is dropped from the target but still demanded by the verifier. */
  lemma {:induction false} EmptyIdIsRejected()
    ensures var inst := Instance(["A", "B"], ["A"], [""]);
            PoolPositives(inst) == ["A"] && !Teachable(inst)
  {
    var inst := Instance(["A", "B"], ["A"], [""]);
    assert [""][..0] == [] && ["A"][..0] == [];
    assert Keep([""], {""}, false) == [];
    assert "" in Sources(inst);
  }
}
