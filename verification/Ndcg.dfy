// Ranking metrics of the reward (src/faithrec/reward.py) over exact reals: the
// discount is any strictly decreasing positive function of the place.

module Ndcg {
  import opened Numbers
  import opened Finite

  ghost predicate IsDiscount(d: nat -> real) {
    && (forall i: nat :: d(i) > 0.0)
    && (forall i: nat, j: nat :: i < j ==> d(i) > d(j))
  }

  // ---------- gains ----------

  /** One place's share: its discount if it hits. */
  function Gain(hit: bool, discount: real): real {
    if hit then discount else 0.0
  }

  /** Discounted gain of a row of hits and misses. */
  function Dcg(hits: seq<bool>, d: nat -> real): real {
    if hits == [] then 0.0
    else Dcg(hits[..|hits| - 1], d) + Gain(hits[|hits| - 1], d(|hits| - 1))
  }

  function Ones(n: nat): seq<bool> {
    seq(n, _ => true)
  }

  function Count(hits: seq<bool>): nat {
    if hits == [] then 0 else Count(hits[..|hits| - 1]) + if hits[|hits| - 1] then 1 else 0
  }

  lemma {:induction false} OnesStep(n: nat, d: nat -> real)
    ensures Dcg(Ones(n + 1), d) == Dcg(Ones(n), d) + d(n)
  {
    assert Ones(n + 1)[..n] == Ones(n);
  }

  lemma {:induction false} OnesIncrease(m: nat, n: nat, d: nat -> real)
    requires IsDiscount(d) && m <= n
    ensures Dcg(Ones(m), d) <= Dcg(Ones(n), d)
    ensures m < n ==> Dcg(Ones(m), d) < Dcg(Ones(n), d)
  {
    if m < n {
      OnesStep(n - 1, d);
      OnesIncrease(m, n - 1, d);
    }
  }

  lemma {:induction false} AllOnes(hits: seq<bool>, n: nat)
    requires n <= |hits| && forall i :: 0 <= i < n ==> hits[i]
    ensures n <= Count(hits)
  {
    if |hits| > n {
      AllOnes(hits[..|hits| - 1], n);
    } else if n > 0 {
      AllOnes(hits[..n - 1], n - 1);
    }
  }

  lemma {:induction false} CountBound(hits: seq<bool>)
    ensures Count(hits) <= |hits|
    ensures Count(hits) == |hits| ==> forall i :: 0 <= i < |hits| ==> hits[i]
  {
    if hits != [] {
      CountBound(hits[..|hits| - 1]);
    }
  }

  /** All hits come before all misses. */
  ghost predicate HitsFirst(hits: seq<bool>) {
    Count(hits) <= |hits| && forall i :: 0 <= i < Count(hits) ==> hits[i]
  }

  lemma {:induction false} HitsFirstStep(front: seq<bool>, x: bool)
    ensures Count(front + [x]) == Count(front) + (if x then 1 else 0) && Count(front) <= |front|
    ensures HitsFirst(front + [x]) <==> HitsFirst(front) && (!x || Count(front) == |front|)
  {
    var hits := front + [x];
    assert hits[..|front|] == front;
    CountBound(front);
    if HitsFirst(hits) && x && Count(front) < |front| {
      AllOnes(front, Count(front) + 1);
    }
  }

  lemma {:induction false} DcgStep(front: seq<bool>, x: bool, d: nat -> real)
    ensures Dcg(front + [x], d) == Dcg(front, d) + Gain(x, d(|front|))
  {
  }

  /** Rearrangement: hits gain most when they come first, and only then. */
  lemma {:induction false} HitsFirstIsBest(hits: seq<bool>, d: nat -> real)
    requires IsDiscount(d)
    ensures 0.0 <= Dcg(hits, d) <= Dcg(Ones(Count(hits)), d)
    ensures Dcg(hits, d) == Dcg(Ones(Count(hits)), d) <==> HitsFirst(hits)
  {
    if hits != [] {
      var front, x := hits[..|hits| - 1], hits[|hits| - 1];
      assert hits == front + [x];
      HitsFirstIsBest(front, d);
      HitsFirstStep(front, x);
      DcgStep(front, x, d);
      OnesStep(Count(front), d);
      assert Count(front) < |front| ==> d(|front|) < d(Count(front));
      hide Dcg, Count, HitsFirst, Ones;
    }
  }

  // ---------- hits of a ranking ----------

  /** Place i hits when it holds a positive not seen in an earlier place. */
  predicate IsHit(top: seq<string>, positives: set<string>, i: nat)
    requires i < |top|
  {
    top[i] in positives && top[i] !in top[..i]
  }

  function Hits(top: seq<string>, positives: set<string>): seq<bool> {
    seq(|top|, i requires 0 <= i < |top| => IsHit(top, positives, i))
  }

  function SeenPositives(top: seq<string>, positives: set<string>): set<string> {
    set x | x in top && x in positives
  }

  lemma {:induction false} HitsAppend(front: seq<string>, x: string, positives: set<string>)
    ensures Hits(front + [x], positives) ==
            Hits(front, positives) + [x in positives && x !in SeenPositives(front, positives)]
  {
    var top := front + [x];
    forall i | 0 <= i < |top| ensures top[..i] == front[..i] {
    }
  }

  lemma {:induction false} HitsAreDistinctPositives(top: seq<string>, positives: set<string>)
    ensures Count(Hits(top, positives)) == |SeenPositives(top, positives)|
  {
    if top == [] {
      assert SeenPositives(top, positives) == {};
    } else {
      var front, x := top[..|top| - 1], top[|top| - 1];
      assert top == front + [x];
      HitsAreDistinctPositives(front, positives);
      HitsAppend(front, x, positives);
      var s, hits := SeenPositives(front, positives), Hits(top, positives);
      assert hits != [] && hits[..|hits| - 1] == Hits(front, positives);
      assert hits[|hits| - 1] == (x in positives && x !in s);
      assert SeenPositives(top, positives) == if hits[|hits| - 1] then s + {x} else s;
    }
  }

  function Top(ranking: seq<string>, k: nat): seq<string> {
    ranking[..Min(k, |ranking|)]
  }

  function NdcgAt(ranking: seq<string>, positives: set<string>, k: nat, d: nat -> real): real {
    var ideal := Dcg(Ones(Min(|positives|, k)), d);
    if ideal == 0.0 then 0.0 else Dcg(Hits(Top(ranking, k), positives), d) / ideal
  }

  /** The first m places hold distinct positives. */
  ghost predicate PerfectStart(ranking: seq<string>, positives: set<string>, m: nat) {
    && m <= |ranking|
    && (forall i :: 0 <= i < m ==> ranking[i] in positives)
    && forall i, j :: 0 <= i < j < m ==> ranking[i] != ranking[j]
  }

  lemma {:induction false} StartOfHits(ranking: seq<string>, positives: set<string>, k: nat, m: nat)
    requires m <= k
    ensures PerfectStart(ranking, positives, m) <==>
            m <= |Top(ranking, k)| && forall i :: 0 <= i < m ==> Hits(Top(ranking, k), positives)[i]
  {
    var top := Top(ranking, k);
    if m <= |top| {
      if PerfectStart(ranking, positives, m) {
        forall i | 0 <= i < m ensures Hits(top, positives)[i] {
          assert IsHit(top, positives, i);
        }
      }
      if forall i :: 0 <= i < m ==> Hits(top, positives)[i] {
        forall i, j | 0 <= i < j < m ensures ranking[i] != ranking[j] {
          assert Hits(top, positives)[j];
          assert IsHit(top, positives, j) && top[..j][i] == ranking[i];
        }
        forall i | 0 <= i < m ensures ranking[i] in positives {
          assert Hits(top, positives)[i];
          assert IsHit(top, positives, i);
        }
      }
    }
  }

  lemma {:induction false} DivideBy(x: real, y: real)
    requires 0.0 <= x <= y && 0.0 < y
    ensures 0.0 <= x / y <= 1.0 && (x / y == 1.0 <==> x == y)
  {
  }

  /** NDCG@k lies between 0 and 1 for every ranking, duplicates included, and is 1 exactly when the first
      min(|positives|, k) places hold distinct positives. */
  lemma {:induction false} NdcgRange(ranking: seq<string>, positives: set<string>, k: nat, d: nat -> real)
    requires IsDiscount(d) && positives != {} && 1 <= k
    ensures 0.0 <= NdcgAt(ranking, positives, k, d) <= 1.0
    ensures NdcgAt(ranking, positives, k, d) == 1.0 <==> PerfectStart(ranking, positives, Min(|positives|, k))
  {
    var m, top := Min(|positives|, k), Top(ranking, k);
    var hits := Hits(top, positives);
    OnesIncrease(0, m, d);
    HitsAreDistinctPositives(top, positives);
    HitsFirstIsBest(hits, d);
    CountBound(hits);
    SubsetSize(SeenPositives(top, positives), positives);
    OnesIncrease(Count(hits), m, d);
    DivideBy(Dcg(hits, d), Dcg(Ones(m), d));
    StartOfHits(ranking, positives, k, m);
    if PerfectStart(ranking, positives, m) {
      AllOnes(hits, m);
    }
    hide Hits;
  }

  // ---------- what one more place adds ----------

  /** d(0) + ... + d(n - 1) */
  function TotalDiscount(n: nat, d: nat -> real): real {
    if n == 0 then 0.0 else TotalDiscount(n - 1, d) + d(n - 1)
  }

  lemma {:induction false} OnesGain(n: nat, d: nat -> real)
    ensures Dcg(Ones(n), d) == TotalDiscount(n, d)
  {
    if n > 0 {
      OnesStep(n - 1, d);
      OnesGain(n - 1, d);
    }
  }

  lemma {:induction false} IdealIsPositive(positives: set<string>, k: nat, d: nat -> real)
    requires IsDiscount(d) && positives != {} && 1 <= k
    ensures Dcg(Ones(Min(|positives|, k)), d) == TotalDiscount(Min(|positives|, k), d) > 0.0
  {
    OnesGain(Min(|positives|, k), d);
    OnesIncrease(0, Min(|positives|, k), d);
  }

  lemma {:induction false} DivideSum(x: real, y: real, z: real)
    requires z != 0.0
    ensures (x + y) / z == x / z + y / z
  {
  }

  lemma {:induction false} NewHit(ranking: seq<string>, x: string, positives: set<string>, k: nat, d: nat -> real)
    requires |ranking| < k
    ensures Dcg(Hits(Top(ranking + [x], k), positives), d) ==
            Dcg(Hits(Top(ranking, k), positives), d) + Gain(x in positives && x !in ranking, d(|ranking|))
  {
    assert Top(ranking, k) == ranking && Top(ranking + [x], k) == ranking + [x];
    HitsAppend(ranking, x, positives);
    DcgStep(Hits(ranking, positives), x in positives && x !in ranking, d);
  }

  lemma {:induction false} NothingRanked(ranking: seq<string>, positives: set<string>, k: nat, d: nat -> real)
    ensures NdcgAt([], positives, k, d) == 0.0 && NdcgAt(ranking, {}, k, d) == 0.0
  {
    assert Top([], k) == [] && Hits([], positives) == [] && Ones(0) == [];
  }

  /** A ranking scores 0 while it is empty, or without positives. Each further place among the first k adds its
      discount, relative to those of the best possible hits, if it holds a positive not named before, and nothing
      otherwise; places beyond k add nothing. */
  lemma {:induction false} OneMorePlace(ranking: seq<string>, x: string, positives: set<string>, k: nat,
                                        d: nat -> real)
    requires IsDiscount(d) && 1 <= k
    ensures NdcgAt([], positives, k, d) == 0.0 && NdcgAt(ranking, {}, k, d) == 0.0
    ensures positives != {} ==>
              && TotalDiscount(Min(|positives|, k), d) > 0.0
              && NdcgAt(ranking + [x], positives, k, d) - NdcgAt(ranking, positives, k, d) ==
                 if |ranking| < k && x in positives && x !in ranking
                 then d(|ranking|) / TotalDiscount(Min(|positives|, k), d) else 0.0
  {
    NothingRanked(ranking, positives, k, d);
    if positives != {} {
      IdealIsPositive(positives, k, d);
      if |ranking| < k {
        NewHit(ranking, x, positives, k, d);
        hide Ones, TotalDiscount, Top, Hits, Dcg, IsDiscount;
        DivideSum(Dcg(Hits(Top(ranking, k), positives), d), Gain(x in positives && x !in ranking, d(|ranking|)),
                  TotalDiscount(Min(|positives|, k), d));
      } else {
        assert Top(ranking + [x], k) == Top(ranking, k);
      }
    }
  }

  // ---------- one positive ----------

  lemma {:induction false} NoHits(hits: seq<bool>, d: nat -> real)
    requires forall i :: 0 <= i < |hits| ==> !hits[i]
    ensures Dcg(hits, d) == 0.0
  {
    if hits != [] {
      NoHits(hits[..|hits| - 1], d);
    }
  }

  lemma {:induction false} SingleHit(hits: seq<bool>, r: nat, d: nat -> real)
    requires r < |hits| && forall i :: 0 <= i < |hits| ==> hits[i] == (i == r)
    ensures Dcg(hits, d) == d(r)
  {
    if r == |hits| - 1 {
      NoHits(hits[..r], d);
    } else {
      SingleHit(hits[..|hits| - 1], r, d);
    }
  }

  /** With one positive, NDCG@k is the discount of the place it first appears at, relative to the first place. */
  lemma {:induction false} OnePositive(ranking: seq<string>, p: string, r: nat, k: nat, d: nat -> real)
    requires IsDiscount(d) && 1 <= k && r < |ranking| && ranking[r] == p && p !in ranking[..r]
    ensures NdcgAt(ranking, {p}, k, d) == if r < k then d(r) / d(0) else 0.0
  {
    var top := Top(ranking, k);
    var hits := Hits(top, {p});
    OnesStep(0, d);
    assert Dcg(Ones(0), d) == 0.0;
    forall i | 0 <= i < |top| ensures hits[i] == (i == r) {
      assert top[..i] == ranking[..i];
      if i > r {
        assert top[..i][r] == p;
      } else if i < r {
        assert ranking[..r][i] == top[i];
      }
    }
    if r < k {
      SingleHit(hits, r, d);
    } else {
      NoHits(hits, d);
    }
  }

  /** ... so the metric strictly falls with the place inside the top k, and is 0 beyond. */
  lemma {:induction false} OnePositiveFalls(a: seq<string>, b: seq<string>, p: string, r: nat, r': nat, k: nat,
                                            d: nat -> real)
    requires IsDiscount(d) && r < k && r < r'
    requires r < |a| && a[r] == p && p !in a[..r] && r' < |b| && b[r'] == p && p !in b[..r']
    ensures NdcgAt(a, {p}, k, d) > NdcgAt(b, {p}, k, d) >= 0.0
  {
    OnePositive(a, p, r, k, d);
    OnePositive(b, p, r', k, d);
    assert d(0) > 0.0 && d(r) > d(r') > 0.0;
    DivideMonotone(d(r'), d(r), d(0));
  }

  lemma {:induction false} DivideMonotone(x: real, y: real, z: real)
    requires 0.0 < x < y && 0.0 < z
    ensures 0.0 < x / z < y / z
  {
  }

  // ---------- the metrics loop ----------

  datatype Metric = Metric(hit: real, recall: real, ndcg: real)

  function RecallAt(ranking: seq<string>, positives: set<string>, k: nat): real {
    if positives == {} then 0.0 else Count(Hits(Top(ranking, k), positives)) as real / |positives| as real
  }

  /** The positives named among the first k places. */
  function Found(ranking: seq<string>, positives: set<string>, k: nat): set<string> {
    set x | x in positives && x in ranking[..Min(k, |ranking|)]
  }

  lemma {:induction false} HitsFound(ranking: seq<string>, positives: set<string>, k: nat)
    ensures Count(Hits(Top(ranking, k), positives)) == |Found(ranking, positives, k)|
  {
    HitsAreDistinctPositives(Top(ranking, k), positives);
    assert Found(ranking, positives, k) == SeenPositives(Top(ranking, k), positives);
  }

  lemma {:induction false} WholeSubset(a: set<string>, b: set<string>)
    requires a <= b
    ensures |a| <= |b| && (|a| == |b| <==> b <= a)
  {
    assert b == a + (b - a);
  }

  /** Recall@k is the share of the positives that are among the first k, and 1 exactly when all are. */
  lemma {:induction false} RecallIsShare(ranking: seq<string>, positives: set<string>, k: nat)
    ensures RecallAt(ranking, {}, k) == 0.0
    ensures positives != {} ==>
              RecallAt(ranking, positives, k) == |Found(ranking, positives, k)| as real / |positives| as real
    ensures 0.0 <= RecallAt(ranking, positives, k) <= 1.0
    ensures RecallAt(ranking, positives, k) == 1.0 <==> positives != {} && positives <= Found(ranking, positives, k)
  {
    HitsFound(ranking, positives, k);
    WholeSubset(Found(ranking, positives, k), positives);
    hide Hits, Top, Found, Count;
    if positives != {} {
      DivideBy(|Found(ranking, positives, k)| as real, |positives| as real);
    }
  }

  /** The inner loop over the first k places. */
  method CollectHits(top: seq<string>, positives: set<string>) returns (hits: seq<bool>)
    ensures hits == Hits(top, positives)
  {
    hits := [];
    var seenPositives: set<string> := {};
    for i := 0 to |top|
      invariant seenPositives == SeenPositives(top[..i], positives)
      invariant hits == Hits(top[..i], positives)
    {
      var item := top[i];
      assert top[..i + 1] == top[..i] + [item];
      HitsAppend(top[..i], item, positives);
      if item in positives && item !in seenPositives {
        hits := hits + [true];
        seenPositives := seenPositives + {item};
      } else {
        hits := hits + [false];
      }
    }
    assert top[..|top|] == top;
  }

  method RankingMetrics(ranking: seq<string>, positives: set<string>, ks: seq<nat>, d: nat -> real)
    returns (mrr: real, at: map<nat, Metric>)
    ensures (forall i :: 0 <= i < |ranking| ==> ranking[i] !in positives) ==> mrr == 0.0
    ensures forall r :: 0 <= r < |ranking| && ranking[r] in positives &&
                        (forall i :: 0 <= i < r ==> ranking[i] !in positives) ==>
                          mrr == 1.0 / (r + 1) as real
    ensures forall k :: k in at <==> k in ks
    ensures forall k :: k in ks ==>
                          && at[k].ndcg == NdcgAt(ranking, positives, k, d)
                          && at[k].recall == RecallAt(ranking, positives, k)
                          && at[k].hit == (if Found(ranking, positives, k) != {} then 1.0 else 0.0)
  {
    var firstRank := 0;
    while firstRank < |ranking| && ranking[firstRank] !in positives
      invariant firstRank <= |ranking|
      invariant forall i :: 0 <= i < firstRank ==> ranking[i] !in positives
    {
      firstRank := firstRank + 1;
    }
    mrr := if firstRank < |ranking| then 1.0 / (firstRank + 1) as real else 0.0;
    at := map[];
    for j := 0 to |ks|
      invariant forall k :: k in at <==> k in ks[..j]
      invariant forall k :: k in at ==>
                              && at[k].ndcg == NdcgAt(ranking, positives, k, d)
                              && at[k].recall == RecallAt(ranking, positives, k)
                              && at[k].hit == (if Found(ranking, positives, k) != {} then 1.0 else 0.0)
    {
      var k := ks[j];
      var hits := CollectHits(Top(ranking, k), positives);
      HitsFound(ranking, positives, k);
      var ideal := Dcg(Ones(Min(|positives|, k)), d);
      at := at[k := Metric(
                 if Count(hits) > 0 then 1.0 else 0.0,
                 if positives == {} then 0.0 else Count(hits) as real / |positives| as real,
                 if ideal == 0.0 then 0.0 else Dcg(hits, d) / ideal)];
      assert ks[..j + 1] == ks[..j] + [k];
    }
    assert ks[..|ks|] == ks;
  }
}
