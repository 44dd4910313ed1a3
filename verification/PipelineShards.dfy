// Layers per pipeline rank: the search over middle-rank sizes and its closed
// form (verl/verl/model_merger/megatron_model_merger.py).

module PipelineShards {
  import opened Results

  function Sum(s: seq<int>): int {
    if s == [] then 0 else s[0] + Sum(s[1..])
  }

  function Abs(x: int): int {
    if x < 0 then -x else x
  }

  /** ceil(layers / stages) */
  function Ceil(layers: int, stages: int): int
    requires 0 < stages
  {
    (layers + stages - 1) / stages
  }

  /** Layers of the first rank when every middle rank gets `middle`. */
  function First(layers: int, stages: int, middle: int): int {
    (layers - middle * (stages - 2)) / 2
  }

  function Last(layers: int, stages: int, middle: int): int {
    layers - middle * (stages - 2) - First(layers, stages, middle)
  }

  predicate IsCandidate(layers: int, stages: int, middle: int) {
    0 < First(layers, stages, middle) <= middle && 0 < Last(layers, stages, middle) <= middle
  }

  function Shards(layers: int, stages: int, middle: int): seq<int>
    requires 3 <= stages
  {
    [First(layers, stages, middle)] + seq(stages - 2, _ => middle) + [Last(layers, stages, middle)]
  }

  function SortKey(layers: int, stages: int, middle: int): int {
    Abs(First(layers, stages, middle) - middle)
  }

  // ---------- the closed form ----------

  lemma {:induction false} CeilBounds(layers: int, stages: int)
    requires 0 < stages
    ensures Ceil(layers, stages) * stages >= layers && (Ceil(layers, stages) - 1) * stages < layers
  {
    var x := layers + stages - 1;
    assert x == stages * (x / stages) + x % stages;
  }

  lemma {:induction false} ScaleMonotone(a: int, b: int, c: nat)
    ensures a <= b ==> a * c <= b * c
  {
  }

  /** The candidates are exactly the sizes from ceil(layers / stages) that leave two layers for the ends. */
  lemma {:induction false} CandidateRange(layers: int, stages: int, middle: int)
    requires 3 <= stages <= layers
    ensures IsCandidate(layers, stages, middle) <==>
            Ceil(layers, stages) <= middle && middle * (stages - 2) + 2 <= layers
  {
    CeilBounds(layers, stages);
    var c := Ceil(layers, stages);
    ScaleMonotone(c, middle, stages);
    ScaleMonotone(middle, c - 1, stages);
    assert middle * stages == middle * (stages - 2) + 2 * middle;
  }

  /** Larger middle ranks are strictly worse in the sort key. */
  lemma {:induction false} KeyIncreasing(layers: int, stages: int, m: int, m': int)
    requires 3 <= stages && m < m' && IsCandidate(layers, stages, m) && IsCandidate(layers, stages, m')
    ensures SortKey(layers, stages, m) < SortKey(layers, stages, m')
  {
    ScaleMonotone(m, m', stages - 2);
  }

  lemma {:induction false} CandidateBelowLayers(layers: int, stages: int, m: int)
    requires 3 <= stages <= layers && IsCandidate(layers, stages, m)
    ensures 0 < m < layers
  {
    ScaleMonotone(1, stages - 2, m);
  }

  lemma {:induction false} SumConstant(n: nat, x: int)
    ensures Sum(seq(n, _ => x)) == n * x
  {
    if n > 0 {
      assert seq(n, _ => x)[1..] == seq(n - 1, _ => x);
      SumConstant(n - 1, x);
    }
  }

  lemma {:induction false} SumAppend(s: seq<int>, x: int)
    ensures Sum(s + [x]) == Sum(s) + x
  {
    if s == [] {
      assert [x][1..] == [];
    } else {
      assert (s + [x])[1..] == s[1..] + [x];
      SumAppend(s[1..], x);
    }
  }

  lemma {:induction false} ShardsSum(layers: int, stages: int, middle: int)
    requires 3 <= stages
    ensures Sum(Shards(layers, stages, middle)) == layers && |Shards(layers, stages, middle)| == stages
  {
    var mids := seq(stages - 2, _ => middle);
    var f, l := First(layers, stages, middle), Last(layers, stages, middle);
    SumConstant(stages - 2, middle);
    SumAppend(mids, l);
    assert Shards(layers, stages, middle) == [f] + (mids + [l]);
    assert ([f] + (mids + [l]))[1..] == mids + [l];
  }

  // ---------- the search ----------

  datatype Candidate = Candidate(shards: seq<int>, key: int)

  /** The first element with the least key: what a stable sort puts first. */
  method FirstOfSorted(cs: seq<Candidate>) returns (i: nat)
    requires cs != []
    ensures i < |cs|
    ensures forall j :: 0 <= j < |cs| ==> cs[i].key <= cs[j].key
    ensures forall j :: 0 <= j < i ==> cs[i].key < cs[j].key
  {
    i := 0;
    for k := 1 to |cs|
      invariant i < k
      invariant forall j :: 0 <= j < k ==> cs[i].key <= cs[j].key
      invariant forall j :: 0 <= j < i ==> cs[i].key < cs[j].key
    {
      if cs[k].key < cs[i].key {
        i := k;
      }
    }
  }

  /** A split of the layers over the ranks, none of them without layers. */
  ghost predicate Divides(shards: seq<int>, layers: int, stages: int) {
    |shards| == stages && Sum(shards) == layers && forall i :: 0 <= i < |shards| ==> 0 < shards[i]
  }

  function Strategy(layers: int, stages: int, middle: int): Candidate
    requires 3 <= stages
  {
    Candidate(Shards(layers, stages, middle), SortKey(layers, stages, middle))
  }

  /** The loop over middle-rank sizes. */
  method CollectStrategies(layers: int, stages: int) returns (strategies: seq<Candidate>)
    requires 3 <= stages <= layers
    ensures forall c :: c in strategies ==> exists m :: IsCandidate(layers, stages, m) && c == Strategy(layers, stages, m)
    ensures forall m :: 0 <= m < layers && IsCandidate(layers, stages, m) ==> Strategy(layers, stages, m) in strategies
  {
    strategies := [];
    var middleSize := stages - 2;
    for middle := 0 to layers
      invariant forall c :: c in strategies ==> exists m :: IsCandidate(layers, stages, m) && c == Strategy(layers, stages, m)
      invariant forall m :: 0 <= m < middle && IsCandidate(layers, stages, m) ==> Strategy(layers, stages, m) in strategies
    {
      var firstLast := layers - middle * middleSize;
      var first := firstLast / 2;
      var last := firstLast - firstLast / 2;
      assert first == First(layers, stages, middle) && last == Last(layers, stages, middle);
      var wanted := 0 < first <= middle && 0 < last <= middle;
      assert wanted <==> IsCandidate(layers, stages, middle);
      var candidate := Candidate([first] + seq(middleSize, _ => middle) + [last], Abs(first - middle));
      assert candidate == Strategy(layers, stages, middle);
      hide First, Last, IsCandidate, Strategy;
      if wanted {
        strategies := strategies + [candidate];
      }
    }
  }

  /** Three ranks or more: collect, sort, take the first. */
  method BestStrategy(layers: int, stages: int) returns (r: Result<seq<int>>)
    requires 3 <= stages <= layers
    ensures r.Ok? <==> Ceil(layers, stages) * (stages - 2) + 2 <= layers
    ensures r.Ok? ==> Divides(r.value, layers, stages) && r.value == Shards(layers, stages, Ceil(layers, stages))
    ensures r.Ok? ==> forall m :: IsCandidate(layers, stages, m) ==>
                        SortKey(layers, stages, Ceil(layers, stages)) <= SortKey(layers, stages, m)
  {
    ghost var c := Ceil(layers, stages);
    CandidateRange(layers, stages, c);
    hide Ceil, First, Last, Shards, SortKey;
    var strategies := CollectStrategies(layers, stages);
    if IsCandidate(layers, stages, c) {
      CandidateBelowLayers(layers, stages, c);
    }
    if strategies == [] {
      return Err("list index out of range");
    }
    var i := FirstOfSorted(strategies);
    assert strategies[i] in strategies;
    ghost var middle :| IsCandidate(layers, stages, middle) && strategies[i] == Strategy(layers, stages, middle);
    CandidateRange(layers, stages, middle);
    CeilIsCandidate(layers, stages, middle);
    assert Strategy(layers, stages, c) in strategies;
    LeastKey(layers, stages, middle);
    ShardsSum(layers, stages, c);
    ShardsPositive(layers, stages, c);
    var res := strategies[i].shards;
    if Sum(res) != layers {
      return Err("sum(res)");
    }
    return Ok(res);
  }

  lemma {:induction false} CeilIsCandidate(layers: int, stages: int, m: int)
    requires 3 <= stages <= layers && IsCandidate(layers, stages, m)
    ensures IsCandidate(layers, stages, Ceil(layers, stages)) && 0 < Ceil(layers, stages) < layers
  {
    var c := Ceil(layers, stages);
    CandidateRange(layers, stages, m);
    CandidateRange(layers, stages, c);
    ScaleMonotone(c, m, stages - 2);
    CandidateBelowLayers(layers, stages, c);
  }

  /** Among all candidates the least key is that of ceil(layers / stages), and of no other. */
  lemma {:induction false} LeastKey(layers: int, stages: int, m: int)
    requires 3 <= stages <= layers && IsCandidate(layers, stages, m)
    ensures var c := Ceil(layers, stages);
            && (SortKey(layers, stages, m) <= SortKey(layers, stages, c) ==> m == c)
            && forall k :: IsCandidate(layers, stages, k) ==> SortKey(layers, stages, c) <= SortKey(layers, stages, k)
  {
    var c := Ceil(layers, stages);
    CeilIsCandidate(layers, stages, m);
    forall k | IsCandidate(layers, stages, k)
      ensures c <= k && (c < k ==> SortKey(layers, stages, c) < SortKey(layers, stages, k)) {
      CandidateRange(layers, stages, k);
      if c < k {
        KeyIncreasing(layers, stages, c, k);
      }
    }
  }

  lemma {:induction false} ShardsPositive(layers: int, stages: int, middle: int)
    requires 3 <= stages && IsCandidate(layers, stages, middle)
    ensures forall i :: 0 <= i < stages ==> |Shards(layers, stages, middle)| == stages && 0 < Shards(layers, stages, middle)[i]
  {
  }

  /** The middle ranks get the same, and the ends share the rest evenly, an odd layer going to the last rank. */
  lemma {:induction false} EndsBalanced(layers: int, stages: int, middle: int)
    requires 3 <= stages
    ensures var s := Shards(layers, stages, middle);
            && |s| == stages && s[0] <= s[stages - 1] <= s[0] + 1
            && forall i :: 1 <= i < stages - 1 ==> s[i] == middle
  {
  }

  method GetDynamicPipelineShards(layers: int, stages: int) returns (r: Result<seq<int>>)
    ensures layers < stages || stages < 1 ==> r.Err?
    ensures r.Ok? ==> Divides(r.value, layers, stages)
    ensures r.Ok? && 2 <= stages ==> r.value[0] <= r.value[stages - 1] <= r.value[0] + 1
    ensures r.Ok? ==> forall i :: 1 <= i < stages - 1 ==> r.value[i] == Ceil(layers, stages)
    ensures 1 <= stages <= 2 && stages <= layers ==>
              r.Ok? && forall i :: 0 <= i < stages ==> layers / stages <= r.value[i] <= Ceil(layers, stages)
    ensures 3 <= stages <= layers ==> (r.Ok? <==> Ceil(layers, stages) * (stages - 2) + 2 <= layers)
    ensures 3 <= stages <= layers && r.Ok? ==>
              && r.value == Shards(layers, stages, Ceil(layers, stages))
              && forall m :: IsCandidate(layers, stages, m) ==>
                   SortKey(layers, stages, Ceil(layers, stages)) <= SortKey(layers, stages, m)
  {
    if layers < stages {
      return Err("layer_num must be greater than pp_size");
    }
    if stages < 1 {
      return Err("pp_size must be at least 1");
    }
    if stages == 1 {
      SumAppend([], layers);
      assert [] + [layers] == [layers];
      return Ok([layers]);
    }
    if stages == 2 {
      SumAppend([layers / 2], layers - layers / 2);
      assert [layers / 2] + [layers - layers / 2] == [layers / 2, layers - layers / 2];
      assert [layers / 2][1..] == [];
      return Ok([layers / 2, layers - layers / 2]);
    }
    EndsBalanced(layers, stages, Ceil(layers, stages));
    hide Ceil, IsCandidate, Shards, SortKey;
    r := BestStrategy(layers, stages);
  }

  /** Six layers on five ranks: no candidate at all, although there are more layers than ranks. */
  lemma {:induction false} SixLayersFiveRanks(m: int)
    ensures !IsCandidate(6, 5, m)
  {
    CandidateRange(6, 5, m);
  }
}
