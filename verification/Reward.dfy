// Scoring a parsed answer (src/faithrec/reward.py) and the generated training
// target that must pass it (teacher/build_sft.py).

module Reward {
  import opened Numbers
  import opened Results
  import opened Ndcg
  import opened Finite

  /** A rationale object; None stands for a value of another type. */
  datatype Step = Step(candidate: Option<string>, claim: Option<string>, support: Option<seq<string>>)

  datatype Answer = Answer(ranking: seq<string>, selected: string, evidenceRefs: seq<string>, rationale: seq<Step>)

  datatype Error =
    | SelectedNotInPool | EmptyRanking | SelectedNotFirst | UnknownCandidate | LengthMismatch
    | Duplicates | SetMismatch | InventedEvidence | EmptyEvidence
    | EmptyRationale | RationaleTooLong | RationaleUnknownCandidate | UnknownClaim | SupportNotStrings
    | EmptySupport | SupportTooLong | InventedSupport | SupportNotInRefs | MissingCandidateSupport
    | SelectedMissingRationale | SelectedMissingSource

  const RANKING_FORMAT_ERRORS: set<Error> :=
    {SelectedNotInPool, EmptyRanking, SelectedNotFirst, UnknownCandidate, LengthMismatch, Duplicates, SetMismatch}

  const ALLOWED_CLAIMS: set<string> :=
    {"matches_query", "partially_matches_query", "contrasts_with_query", "supports_ranking"}

  function ToSet(s: seq<string>): set<string> {
    set x | x in s
  }

  /** `if cond: errors.append(e)` */
  function With(errors: set<Error>, cond: bool, e: Error): (r: set<Error>)
    ensures forall x :: x in r <==> x in errors || (cond && x == e)
  {
    if cond then errors + {e} else errors
  }

  // ---------- format ----------

  ghost predicate HasFormatError(a: Answer, candidates: seq<string>, evidence: set<string>, e: Error) {
    || (e == SelectedNotInPool && a.selected !in candidates)
    || (e == EmptyRanking && a.ranking == [])
    || (e == SelectedNotFirst && a.ranking != [] && a.ranking[0] != a.selected)
    || (e == UnknownCandidate && exists x :: x in a.ranking && x !in candidates)
    || (e == LengthMismatch && |a.ranking| != |candidates|)
    || (e == Duplicates && |ToSet(a.ranking)| != |a.ranking|)
    || (e == SetMismatch && ToSet(a.ranking) != ToSet(candidates))
    || (e == InventedEvidence && exists x :: x in a.evidenceRefs && x !in evidence)
    || (e == EmptyEvidence && a.evidenceRefs == [])
  }

  method FormatErrors(a: Answer, candidates: seq<string>, evidence: set<string>) returns (errors: set<Error>)
    ensures forall e :: e in errors <==> HasFormatError(a, candidates, evidence, e)
  {
    hide With;
    var candidateSet := ToSet(candidates);
    var selectedUnknown := a.selected !in candidateSet;
    assert selectedUnknown <==> a.selected !in candidates;
    var unknown := exists x :: x in a.ranking && x !in candidateSet;
    assert unknown <==> exists x :: x in a.ranking && x !in candidates;
    hide ToSet;
    errors := With({}, selectedUnknown, SelectedNotInPool);
    errors := With(errors, a.ranking == [], EmptyRanking);
    errors := With(errors, a.ranking != [] && a.ranking[0] != a.selected, SelectedNotFirst);
    errors := With(errors, unknown, UnknownCandidate);
    errors := With(errors, |a.ranking| != |candidates|, LengthMismatch);
    errors := With(errors, |ToSet(a.ranking)| != |a.ranking|, Duplicates);
    errors := With(errors, ToSet(a.ranking) != candidateSet, SetMismatch);
    errors := With(errors, exists x :: x in a.evidenceRefs && x !in evidence, InventedEvidence);
    errors := With(errors, a.evidenceRefs == [], EmptyEvidence);
  }

  // ---------- rationale ----------

  predicate Explains(a: Answer, candidates: seq<string>, s: Step) {
    s.candidate == Some(a.selected) && a.selected in candidates
  }

  predicate CitesSource(a: Answer, sources: set<string>, s: Step) {
    s.candidate == Some(a.selected) && s.support.Some? && exists x :: x in s.support.value && x in sources
  }

  predicate InPool(candidates: seq<string>, s: Step) {
    s.candidate.Some? && s.candidate.value in candidates
  }

  ghost predicate HasStepError(a: Answer, candidates: seq<string>, evidence: set<string>, s: Step, e: Error) {
    || (e == RationaleUnknownCandidate && !InPool(candidates, s))
    || (e == UnknownClaim && !(s.claim.Some? && s.claim.value in ALLOWED_CLAIMS))
    || (e == SupportNotStrings && s.support.None?)
    || (e == EmptySupport && s.support == Some([]))
    || (e == SupportTooLong && s.support.Some? && |s.support.value| > 5)
    || (e == InventedSupport && s.support.Some? && exists x :: x in s.support.value && x !in evidence)
    || (e == SupportNotInRefs && s.support.Some? && exists x :: x in s.support.value && x !in a.evidenceRefs)
    || (e == MissingCandidateSupport && s.support.Some? && InPool(candidates, s) && s.candidate.value !in s.support.value)
  }

  ghost predicate HasRationaleError(a: Answer, candidates: seq<string>, evidence: set<string>, sources: set<string>,
                                    e: Error) {
    || (exists s :: s in a.rationale && HasStepError(a, candidates, evidence, s, e))
    || (e == EmptyRationale && a.rationale == [])
    || (e == RationaleTooLong && |a.rationale| > 5)
    || (e == SelectedMissingRationale && a.rationale != [] && !exists s :: s in a.rationale && Explains(a, candidates, s))
    || (e == SelectedMissingSource && a.rationale != [] && sources != {} &&
        !exists s :: s in a.rationale && CitesSource(a, sources, s))
  }

  /** The checks of one rationale object. */
  method StepErrors(a: Answer, candidates: seq<string>, evidence: set<string>, s: Step) returns (errors: set<Error>)
    ensures forall e :: e in errors <==> HasStepError(a, candidates, evidence, s, e)
  {
    hide With;
    var inPool := s.candidate.Some? && s.candidate.value in candidates;
    errors := With({}, !inPool, RationaleUnknownCandidate);
    errors := With(errors, !(s.claim.Some? && s.claim.value in ALLOWED_CLAIMS), UnknownClaim);
    if s.support.None? {
      errors := errors + {SupportNotStrings};
      return;
    }
    var support := s.support.value;
    errors := With(errors, support == [], EmptySupport);
    errors := With(errors, |support| > 5, SupportTooLong);
    errors := With(errors, exists x :: x in support && x !in evidence, InventedSupport);
    errors := With(errors, exists x :: x in support && x !in a.evidenceRefs, SupportNotInRefs);
    errors := With(errors, inPool && s.candidate.value !in support, MissingCandidateSupport);
  }

  method RationaleErrors(a: Answer, candidates: seq<string>, evidence: set<string>, sources: set<string>)
    returns (errors: set<Error>)
    ensures forall e :: e in errors <==> HasRationaleError(a, candidates, evidence, sources, e)
  {
    hide With;
    var found: set<Error> := {};
    var selectedHasRationale, selectedHasSource := false, false;
    for i := 0 to |a.rationale|
      invariant forall e :: e in found <==> exists s :: s in a.rationale[..i] && HasStepError(a, candidates, evidence, s, e)
      invariant selectedHasRationale <==> exists s :: s in a.rationale[..i] && Explains(a, candidates, s)
      invariant selectedHasSource <==> exists s :: s in a.rationale[..i] && CitesSource(a, sources, s)
    {
      var step := a.rationale[i];
      assert a.rationale[..i + 1] == a.rationale[..i] + [step];
      var more := StepErrors(a, candidates, evidence, step);
      hide HasStepError;
      found := found + more;
      selectedHasRationale := selectedHasRationale || Explains(a, candidates, step);
      selectedHasSource := selectedHasSource || CitesSource(a, sources, step);
    }
    assert a.rationale[..|a.rationale|] == a.rationale;
    errors := With(found, a.rationale == [], EmptyRationale);
    errors := With(errors, |a.rationale| > 5, RationaleTooLong);
    errors := With(errors, a.rationale != [] && !selectedHasRationale, SelectedMissingRationale);
    errors := With(errors, a.rationale != [] && sources != {} && !selectedHasSource, SelectedMissingSource);
  }

  // ---------- the score ----------

  function Penalized(errors: nat): real {
    var x := 1.0 - 0.2 * errors as real;
    if x < 0.0 then 0.0 else x
  }

  function CountIn(refs: seq<string>, evidence: set<string>): nat {
    if refs == [] then 0 else CountIn(refs[..|refs| - 1], evidence) + if refs[|refs| - 1] in evidence then 1 else 0
  }

  function EvidenceValidity(refs: seq<string>, evidence: set<string>): real {
    if refs == [] then 0.0 else CountIn(refs, evidence) as real / |refs| as real
  }

  lemma {:induction false} CountInAll(refs: seq<string>, evidence: set<string>)
    ensures CountIn(refs, evidence) <= |refs|
    ensures CountIn(refs, evidence) == |refs| <==> forall x :: x in refs ==> x in evidence
  {
    if refs != [] {
      var front := refs[..|refs| - 1];
      CountInAll(front, evidence);
      assert refs == front + [refs[|refs| - 1]];
    }
  }

  datatype Outcome = CorrectFaithful | WrongFaithful | Unfaithful

  datatype Score = Score(score: real, format: real, evidence: real, rationale: real, ndcg1: real, recommendation: real,
                         weighted: real, geometric: real, outcome: Outcome, errors: set<Error>)

  /** Reward mode and baselines; rates are clamped to [0, 1] and the hybrid weight to at least 0. */
  datatype Options = Options(mode: string, correctRate: real, unfaithfulRate: real, hybridWeight: real)

  const MODES: set<string> := {"weighted", "faithrl", "faithrl_hybrid"}

  function AtLeast0(x: real): real {
    if x < 0.0 then 0.0 else x
  }

  function Clamp01(x: real): real {
    AtLeast0(if x > 1.0 then 1.0 else x)
  }

  /** What the verifier knows of an instance. `sources` is the optional list of non-candidate evidence. */
  datatype Task = Task(positives: seq<string>, candidates: seq<string>, evidence: seq<string>, sources: seq<string>)

  function EvidenceSet(t: Task): set<string> {
    ToSet(t.evidence) + ToSet(t.candidates)
  }

  function SourceSet(t: Task): set<string> {
    if t.sources != [] then ToSet(t.sources) else ToSet(t.evidence) - ToSet(t.candidates)
  }

  ghost predicate RankingValid(a: Answer, t: Task) {
    forall e :: e in RANKING_FORMAT_ERRORS ==> !HasFormatError(a, t.candidates, EvidenceSet(t), e)
  }

  ghost predicate FormatOk(a: Answer, t: Task) {
    forall e :: !HasFormatError(a, t.candidates, EvidenceSet(t), e)
  }

  ghost predicate RationaleOk(a: Answer, t: Task) {
    forall e :: !HasRationaleError(a, t.candidates, EvidenceSet(t), SourceSet(t), e)
  }

  /** Correct and faithful, faithful only, or neither. */
  function GeometricScore(top1: real, faithful: bool, options: Options): (real, Outcome) {
    if !faithful then (-Clamp01(options.correctRate), Unfaithful)
    else if top1 > 0.0 then (Clamp01(options.unfaithfulRate), CorrectFaithful)
    else (0.0, WrongFaithful)
  }

  function SelectScore(weighted: real, geometric: real, options: Options): Result<real> {
    if options.mode == "weighted" then Ok(weighted)
    else if options.mode == "faithrl" then Ok(geometric)
    else if options.mode == "faithrl_hybrid" then Ok(geometric + AtLeast0(options.hybridWeight) * weighted)
    else Err("Unknown reward_mode")
  }

  ghost function FormatErrorSet(a: Answer, t: Task): set<Error> {
    set e: Error | HasFormatError(a, t.candidates, EvidenceSet(t), e)
  }

  ghost function RationaleErrorSet(a: Answer, t: Task): set<Error> {
    set e: Error | HasRationaleError(a, t.candidates, EvidenceSet(t), SourceSet(t), e)
  }

  /** A fifth off for every error, down to 0. */
  ghost predicate LessAFifthEach(x: real, errors: nat) {
    5.0 * x == if errors >= 5 then 0.0 else (5 - errors) as real
  }

  /** The score is the one the mode asks for. */
  ghost predicate ByMode(s: Score, options: Options) {
    || (options.mode == "weighted" && s.score == s.weighted)
    || (options.mode == "faithrl" && s.score == s.geometric)
    || (options.mode == "faithrl_hybrid" &&
        s.score == s.geometric + (if options.hybridWeight < 0.0 then 0.0 else options.hybridWeight * s.weighted))
  }

  /** Everything ComputeScore promises of its result. */
  ghost predicate ScoreOf(s: Score, a: Answer, t: Task, k: nat, options: Options, d: nat -> real) {
    && (forall e :: e in s.errors <==>
                      || HasFormatError(a, t.candidates, EvidenceSet(t), e)
                      || HasRationaleError(a, t.candidates, EvidenceSet(t), SourceSet(t), e))
    && (s.format == 1.0 <==> FormatOk(a, t))
    && (s.rationale == 1.0 <==> RationaleOk(a, t))
    && LessAFifthEach(s.format, |FormatErrorSet(a, t)|)
    && (if a.rationale == [] then s.rationale == 0.0 else LessAFifthEach(s.rationale, |RationaleErrorSet(a, t)|))
    && s.evidence == EvidenceValidity(a.evidenceRefs, EvidenceSet(t))
    && s.ndcg1 == (if RankingValid(a, t) && TopIsPositive(a, t) then 1.0 else 0.0)
    && s.recommendation == (if RankingValid(a, t) then NdcgAt(a.ranking, ToSet(t.positives), k, d) else 0.0)
    && s.weighted == s.recommendation + 0.2 * s.format + 0.2 * s.evidence + 0.2 * s.rationale
    && 0.0 <= s.format <= 1.0 && 0.0 <= s.evidence <= 1.0 && 0.0 <= s.rationale <= 1.0
    && (s.outcome == CorrectFaithful <==> s.errors == {} && TopIsPositive(a, t))
    && (s.outcome == WrongFaithful <==> s.errors == {} && !TopIsPositive(a, t))
    && s.geometric == (match s.outcome
                       case CorrectFaithful => Clamp01(options.unfaithfulRate)
                       case WrongFaithful => 0.0
                       case Unfaithful => -Clamp01(options.correctRate))
    && ByMode(s, options)
  }

  ghost predicate TopIsPositive(a: Answer, t: Task) {
    a.ranking != [] && a.ranking[0] in t.positives
  }

  lemma {:induction false} TopOne(ranking: seq<string>, positives: set<string>, d: nat -> real)
    requires IsDiscount(d)
    ensures NdcgAt(ranking, positives, 1, d) == if ranking != [] && ranking[0] in positives then 1.0 else 0.0
  {
    if positives == {} {
      assert Ones(0) == [];
    } else {
      NdcgRange(ranking, positives, 1, d);
      SubsetSize({}, positives);
      assert Min(|positives|, 1) == 1;
      if ranking == [] || ranking[0] !in positives {
        var hits := Hits(Top(ranking, 1), positives);
        NoHits(hits, d);
      }
    }
  }

  lemma {:induction false} FormatOkIsValid(a: Answer, t: Task)
    requires FormatOk(a, t)
    ensures RankingValid(a, t) && EvidenceValidity(a.evidenceRefs, EvidenceSet(t)) == 1.0
  {
    assert !HasFormatError(a, t.candidates, EvidenceSet(t), InventedEvidence);
    assert !HasFormatError(a, t.candidates, EvidenceSet(t), EmptyEvidence);
    ValidityRange(a.evidenceRefs, EvidenceSet(t));
  }

  lemma {:induction false} RationaleOkIsNonEmpty(a: Answer, t: Task)
    requires RationaleOk(a, t)
    ensures a.rationale != []
  {
    assert !HasRationaleError(a, t.candidates, EvidenceSet(t), SourceSet(t), EmptyRationale);
  }

  method ComputeScore(a: Answer, t: Task, k0: int, options: Options, d: nat -> real) returns (r: Result<Score>)
    requires IsDiscount(d)
    ensures r.Ok? <==> options.mode in MODES
    ensures r.Ok? ==> ScoreOf(r.value, a, t, Max(1, k0), options, d)
  {
    hide HasFormatError, HasRationaleError, NdcgAt, RecallAt, EvidenceSet, SourceSet;
    var k: nat := Max(1, k0);
    var evidenceSet, sourceSet := EvidenceSet(t), SourceSet(t);
    var errors := FormatErrors(a, t.candidates, evidenceSet);
    var rationaleErrs := RationaleErrors(a, t.candidates, evidenceSet, sourceSet);
    var ks := [1, 3, 5, 10, k];
    assert ks[0] == 1 && ks[4] == k;
    var mrr, metrics := RankingMetrics(a.ranking, ToSet(t.positives), ks, d);
    var rankingIsValid := errors * RANKING_FORMAT_ERRORS == {};
    Disjoint(errors, RANKING_FORMAT_ERRORS);
    assert rankingIsValid == RankingValid(a, t);
    TopOne(a.ranking, ToSet(t.positives), d);
    var ndcg1 := if rankingIsValid then metrics[1].ndcg else 0.0;
    var recommendation := if rankingIsValid then metrics[k].ndcg else 0.0;
    var fmt := if errors == {} then 1.0 else Penalized(|errors|);
    var evidence := EvidenceValidity(a.evidenceRefs, evidenceSet);
    var rationale := if a.rationale == [] then 0.0 else Penalized(|rationaleErrs|);
    assert errors == FormatErrorSet(a, t) && rationaleErrs == RationaleErrorSet(a, t);
    PenalizedFull(errors);
    PenalizedFull(rationaleErrs);
    ValidityRange(a.evidenceRefs, evidenceSet);
    hide Penalized, EvidenceValidity, LessAFifthEach, FormatErrorSet, RationaleErrorSet;
    assert errors == {} <==> FormatOk(a, t);
    assert rationaleErrs == {} <==> RationaleOk(a, t);
    if FormatOk(a, t) { FormatOkIsValid(a, t); }
    if RationaleOk(a, t) { RationaleOkIsNonEmpty(a, t); }
    assert rationale == 1.0 <==> RationaleOk(a, t);
    hide FormatOk, RationaleOk, RankingValid;
    var faithful := fmt >= 1.0 && evidence >= 1.0 && rationale >= 1.0;
    assert faithful <==> errors + rationaleErrs == {};
    var weighted := recommendation + 0.2 * fmt + 0.2 * evidence + 0.2 * rationale;
    var geometric := GeometricScore(ndcg1, faithful, options);
    var score := SelectScore(weighted, geometric.0, options);
    ModesKnown(weighted, geometric.0, options);
    hide SelectScore, GeometricScore, MODES;
    if score.Err? {
      return Err(score.error);
    }
    r := Ok(Score(score.value, fmt, evidence, rationale, ndcg1, recommendation, weighted,
                  geometric.0, geometric.1, errors + rationaleErrs));
    MakesScore(r.value, errors, rationaleErrs, a, t, k, options, d);
    hide ScoreOf;
  }

  lemma {:induction false} ModesKnown(weighted: real, geometric: real, options: Options)
    ensures SelectScore(weighted, geometric, options).Ok? <==> options.mode in MODES
  {
  }

  /** Errors, scores and outcome fit together. */
  lemma {:induction false} MakesScore(s: Score, errors: set<Error>, rationaleErrs: set<Error>,
                                      a: Answer, t: Task, k: nat, options: Options, d: nat -> real)
    requires s.errors == errors + rationaleErrs
    requires forall e :: e in errors <==> HasFormatError(a, t.candidates, EvidenceSet(t), e)
    requires forall e :: e in rationaleErrs <==> HasRationaleError(a, t.candidates, EvidenceSet(t), SourceSet(t), e)
    requires (s.format == 1.0 <==> FormatOk(a, t)) && (s.rationale == 1.0 <==> RationaleOk(a, t))
    requires LessAFifthEach(s.format, |FormatErrorSet(a, t)|)
    requires if a.rationale == [] then s.rationale == 0.0 else LessAFifthEach(s.rationale, |RationaleErrorSet(a, t)|)
    requires s.evidence == EvidenceValidity(a.evidenceRefs, EvidenceSet(t))
    requires 0.0 <= s.format <= 1.0 && 0.0 <= s.evidence <= 1.0 && 0.0 <= s.rationale <= 1.0
    requires s.ndcg1 == (if RankingValid(a, t) && TopIsPositive(a, t) then 1.0 else 0.0)
    requires s.recommendation == (if RankingValid(a, t) then NdcgAt(a.ranking, ToSet(t.positives), k, d) else 0.0)
    requires s.weighted == s.recommendation + 0.2 * s.format + 0.2 * s.evidence + 0.2 * s.rationale
    requires (s.geometric, s.outcome) == GeometricScore(s.ndcg1, s.errors == {}, options)
    requires SelectScore(s.weighted, s.geometric, options) == Ok(s.score)
    requires errors == {} ==> RankingValid(a, t)
    ensures ScoreOf(s, a, t, k, options, d)
  {
    ScoreByMode(s, options);
    hide HasFormatError, HasRationaleError, EvidenceSet, SourceSet, FormatOk, RationaleOk, RankingValid,
         TopIsPositive, NdcgAt, ToSet, SelectScore, EvidenceValidity, FormatErrorSet, RationaleErrorSet,
         LessAFifthEach, ByMode;
  }

  lemma {:induction false} ScoreByMode(s: Score, options: Options)
    requires SelectScore(s.weighted, s.geometric, options) == Ok(s.score)
    ensures ByMode(s, options)
  {
  }

  lemma {:induction false} Disjoint(a: set<Error>, b: set<Error>)
    ensures a * b == {} <==> forall e :: e in b ==> e !in a
  {
    assert forall e :: e in a * b <==> e in a && e in b;
  }

  lemma {:induction false} PenalizedFull(errors: set<Error>)
    ensures 0.0 <= Penalized(|errors|) <= 1.0 && (Penalized(|errors|) == 1.0 <==> errors == {})
    ensures LessAFifthEach(Penalized(|errors|), |errors|)
    ensures errors == {} ==> LessAFifthEach(1.0, |errors|)
  {
  }

  lemma {:induction false} ValidityRange(refs: seq<string>, evidence: set<string>)
    ensures 0.0 <= EvidenceValidity(refs, evidence) <= 1.0
    ensures EvidenceValidity(refs, evidence) == 1.0 <==> refs != [] && forall x :: x in refs ==> x in evidence
  {
    CountInAll(refs, evidence);
    if refs != [] {
      DivideBy(CountIn(refs, evidence) as real, |refs| as real);
    }
  }

  /** Each reference counts the same: one more known one adds 1 to the number known. */
  lemma {:induction false} ValidityStep(refs: seq<string>, x: string, evidence: set<string>)
    ensures var more := refs + [x];
            EvidenceValidity(more, evidence) * |more| as real ==
            EvidenceValidity(refs, evidence) * |refs| as real + (if x in evidence then 1.0 else 0.0)
  {
    var more := refs + [x];
    assert more[..|more| - 1] == refs && more[|more| - 1] == x;
    Share(CountIn(more, evidence), |more|);
    if refs != [] {
      Share(CountIn(refs, evidence), |refs|);
    }
  }

  lemma {:induction false} Share(n: nat, of: nat)
    requires of > 0
    ensures (n as real / of as real) * of as real == n as real
  {
  }

  // ---------- what the checks amount to ----------

  /** The ranking counts exactly when it lists every candidate once, with the selected one first. */
  lemma {:induction false} RankingValidExactly(a: Answer, t: Task)
    ensures RankingValid(a, t) <==>
            && ToSet(a.ranking) == ToSet(t.candidates) && |a.ranking| == |ToSet(a.ranking)| == |t.candidates|
            && a.ranking != [] && a.ranking[0] == a.selected
  {
    if RankingValid(a, t) {
      assert !HasFormatError(a, t.candidates, EvidenceSet(t), EmptyRanking);
      assert !HasFormatError(a, t.candidates, EvidenceSet(t), SelectedNotFirst);
      assert !HasFormatError(a, t.candidates, EvidenceSet(t), LengthMismatch);
      assert !HasFormatError(a, t.candidates, EvidenceSet(t), Duplicates);
      assert !HasFormatError(a, t.candidates, EvidenceSet(t), SetMismatch);
    } else if ToSet(a.ranking) == ToSet(t.candidates) && a.ranking != [] {
      forall x ensures x in a.ranking <==> x in t.candidates {
        assert x in ToSet(a.ranking) <==> x in ToSet(t.candidates);
      }
    }
    hide ToSet, EvidenceSet;
  }

  /** An answer has no format error exactly when, besides, it cites evidence and only known evidence. */
  lemma {:induction false} FormatOkExactly(a: Answer, t: Task)
    ensures FormatOk(a, t) <==>
            RankingValid(a, t) && a.evidenceRefs != [] && forall x :: x in a.evidenceRefs ==> x in EvidenceSet(t)
  {
    if FormatOk(a, t) {
      assert !HasFormatError(a, t.candidates, EvidenceSet(t), InventedEvidence);
      assert !HasFormatError(a, t.candidates, EvidenceSet(t), EmptyEvidence);
    } else {
      var e :| HasFormatError(a, t.candidates, EvidenceSet(t), e);
      assert e in RANKING_FORMAT_ERRORS || e == InventedEvidence || e == EmptyEvidence;
    }
    hide ToSet, EvidenceSet;
  }

  /** A rationale object that explains a candidate: an allowed claim about a candidate, with 1 to 5 references, the
      candidate among them, all of them known and all of them cited by the answer. */
  ghost predicate WellArgued(a: Answer, candidates: seq<string>, evidence: set<string>, s: Step) {
    && s.candidate.Some? && s.candidate.value in candidates
    && s.claim.Some? && s.claim.value in ALLOWED_CLAIMS
    && s.support.Some? && 1 <= |s.support.value| <= 5 && s.candidate.value in s.support.value
    && forall x :: x in s.support.value ==> x in evidence && x in a.evidenceRefs
  }

  lemma {:induction false} WellArguedExactly(a: Answer, candidates: seq<string>, evidence: set<string>, s: Step)
    ensures WellArgued(a, candidates, evidence, s) <==> forall e :: !HasStepError(a, candidates, evidence, s, e)
  {
    if forall e :: !HasStepError(a, candidates, evidence, s, e) {
      assert !HasStepError(a, candidates, evidence, s, RationaleUnknownCandidate);
      assert !HasStepError(a, candidates, evidence, s, UnknownClaim);
      assert !HasStepError(a, candidates, evidence, s, SupportNotStrings);
      assert !HasStepError(a, candidates, evidence, s, EmptySupport);
      assert !HasStepError(a, candidates, evidence, s, SupportTooLong);
      assert !HasStepError(a, candidates, evidence, s, InventedSupport);
      assert !HasStepError(a, candidates, evidence, s, SupportNotInRefs);
      assert !HasStepError(a, candidates, evidence, s, MissingCandidateSupport);
    }
  }

  /** A rationale has no error exactly when it has 1 to 5 well argued objects, one of them about the selected
      candidate, and, if there is source evidence, one of those cites it. */
  lemma {:induction false} RationaleOkExactly(a: Answer, t: Task)
    ensures RationaleOk(a, t) <==>
            && 1 <= |a.rationale| <= 5
            && (forall s :: s in a.rationale ==> WellArgued(a, t.candidates, EvidenceSet(t), s))
            && (exists s :: s in a.rationale && s.candidate == Some(a.selected))
            && (SourceSet(t) != {} ==> exists s :: s in a.rationale && CitesSource(a, SourceSet(t), s))
  {
    forall s ensures WellArgued(a, t.candidates, EvidenceSet(t), s) <==>
                     forall e :: !HasStepError(a, t.candidates, EvidenceSet(t), s, e) {
      WellArguedExactly(a, t.candidates, EvidenceSet(t), s);
    }
    hide EvidenceSet, SourceSet, HasStepError, CitesSource;
    if RationaleOk(a, t) {
      assert !HasRationaleError(a, t.candidates, EvidenceSet(t), SourceSet(t), EmptyRationale);
      assert !HasRationaleError(a, t.candidates, EvidenceSet(t), SourceSet(t), RationaleTooLong);
      assert !HasRationaleError(a, t.candidates, EvidenceSet(t), SourceSet(t), SelectedMissingRationale);
      assert !HasRationaleError(a, t.candidates, EvidenceSet(t), SourceSet(t), SelectedMissingSource);
      forall s, e | s in a.rationale ensures !HasStepError(a, t.candidates, EvidenceSet(t), s, e) {
        assert !HasRationaleError(a, t.candidates, EvidenceSet(t), SourceSet(t), e);
      }
    }
  }

  /** In the faithful modes a correct and faithful answer never scores below a faithful one, nor that below any
      other; strictly so when the two rates are positive. */
  lemma {:induction false} FaithfulnessPays(s: Score, a: Answer, s': Score, a': Answer, t: Task, k: nat, options: Options,
                                            d: nat -> real)
    requires ScoreOf(s, a, t, k, options, d) && ScoreOf(s', a', t, k, options, d) && options.mode == "faithrl"
    ensures s.outcome == CorrectFaithful && s'.outcome == WrongFaithful ==>
              s'.score == 0.0 <= s.score <= 1.0 && (options.unfaithfulRate > 0.0 ==> s'.score < s.score)
    ensures s.outcome == WrongFaithful && s'.outcome == Unfaithful ==>
              -1.0 <= s'.score <= s.score == 0.0 && (options.correctRate > 0.0 ==> s'.score < s.score)
    ensures s.outcome == CorrectFaithful && 0.0 <= options.unfaithfulRate <= 1.0 ==> s.score == options.unfaithfulRate
    ensures s.outcome == Unfaithful && 0.0 <= options.correctRate <= 1.0 ==> s.score == -options.correctRate
  {
    hide HasFormatError, HasRationaleError, EvidenceSet, SourceSet, FormatOk, RationaleOk, RankingValid,
         TopIsPositive, NdcgAt, ToSet, EvidenceValidity, FormatErrorSet, RationaleErrorSet, LessAFifthEach;
  }
}
