// Row layouts of fused attention weights: packing q, k and v per key/value
// head, splitting them again, and splitting tensor-parallel row shards.

module QkvLayout {
  import opened Results

  // ---------- rows in equal blocks ----------

  function Concat<T>(ss: seq<seq<T>>): seq<T> {
    if ss == [] then [] else ss[0] + Concat(ss[1..])
  }

  lemma {:induction false} MulLe(a: nat, b: nat, c: nat)
    ensures a <= b ==> a * c <= b * c
  {
  }

  lemma {:induction false} BlockEnds(i: nat, n: nat, c: nat)
    requires i < n
    ensures i * c + c == (i + 1) * c <= n * c
  {
    MulLe(i + 1, n, c);
  }

  /** Block i of blocks of c rows. */
  function Block<T>(t: seq<T>, i: nat, n: nat, c: nat): seq<T>
    requires i < n && |t| == n * c
  {
    BlockEnds(i, n, c);
    t[i * c..i * c + c]
  }

  function Blocks<T>(t: seq<T>, n: nat, c: nat): seq<seq<T>>
    requires |t| == n * c
  {
    seq(n, i requires 0 <= i < n => Block(t, i, n, c))
  }

  ghost predicate AllOf<T>(ss: seq<seq<T>>, c: nat) {
    forall i :: 0 <= i < |ss| ==> |ss[i]| == c
  }

  lemma {:induction false} ConcatLength<T>(ss: seq<seq<T>>, c: nat)
    requires AllOf(ss, c)
    ensures |Concat(ss)| == |ss| * c
  {
    if ss != [] {
      ConcatLength(ss[1..], c);
      assert |ss| * c == (|ss| - 1) * c + c;
    }
  }

  lemma {:induction false} BlockAfterFirst<T>(t: seq<T>, n: nat, c: nat, i: nat)
    requires 0 < i < n && |t| == n * c
    ensures c <= |t| && |t[c..]| == (n - 1) * c
    ensures Block(t, i, n, c) == Block(t[c..], i - 1, n - 1, c)
  {
    BlockEnds(i, n, c);
    BlockEnds(i - 1, n - 1, c);
    Distribute(1, n - 1, c);
    Distribute(1, i - 1, c);
    SliceOfTail(t, c, (i - 1) * c, (i - 1) * c + c);
  }

  lemma {:induction false} Distribute(m: nat, n: nat, c: nat)
    ensures (m + n) * c == m * c + n * c
  {
  }

  lemma {:induction false} SliceOfTail<T>(t: seq<T>, off: nat, lo: nat, hi: nat)
    requires lo <= hi && off + hi <= |t|
    ensures t[off..][lo..hi] == t[off + lo..off + hi]
  {
  }

  lemma {:induction false} FirstBlock<T>(t: seq<T>, n: nat, c: nat)
    requires 0 < n && |t| == n * c
    ensures c <= |t| && Block(t, 0, n, c) == t[..c]
  {
    BlockEnds(0, n, c);
  }

  /** Cutting a concatenation of equal blocks gives the blocks back. */
  lemma {:induction false} BlockOfConcat<T>(ss: seq<seq<T>>, c: nat, i: nat)
    requires AllOf(ss, c) && i < |ss|
    ensures |Concat(ss)| == |ss| * c && Block(Concat(ss), i, |ss|, c) == ss[i]
  {
    ConcatLength(ss, c);
    assert Concat(ss)[..c] == ss[0] && Concat(ss)[c..] == Concat(ss[1..]);
    hide Concat, Block;
    if i == 0 {
      FirstBlock(Concat(ss), |ss|, c);
    } else {
      BlockOfConcat(ss[1..], c, i - 1);
      BlockAfterFirst(Concat(ss), |ss|, c, i);
    }
  }

  lemma {:induction false} BlocksOfConcat<T>(ss: seq<seq<T>>, c: nat)
    requires AllOf(ss, c)
    ensures |Concat(ss)| == |ss| * c && Blocks(Concat(ss), |ss|, c) == ss
  {
    ConcatLength(ss, c);
    forall i | 0 <= i < |ss| ensures Block(Concat(ss), i, |ss|, c) == ss[i] {
      BlockOfConcat(ss, c, i);
    }
    hide Concat, Block;
  }

  lemma {:induction false} BlocksFirst<T>(t: seq<T>, n: nat, c: nat)
    requires 0 < n && |t| == n * c
    ensures c <= |t| && |t[c..]| == (n - 1) * c && Blocks(t, n, c) == [t[..c]] + Blocks(t[c..], n - 1, c)
  {
    Distribute(1, n - 1, c);
    FirstBlock(t, n, c);
    forall i | 0 < i < n ensures Blocks(t, n, c)[i] == Blocks(t[c..], n - 1, c)[i - 1] {
      BlockAfterFirst(t, n, c, i);
    }
    hide Block;
  }

  /** Concatenating the blocks of a matrix gives the matrix back. */
  lemma {:induction false} ConcatBlocks<T>(t: seq<T>, n: nat, c: nat)
    requires |t| == n * c
    ensures Concat(Blocks(t, n, c)) == t
  {
    if n > 0 {
      BlocksFirst(t, n, c);
      ConcatBlocks(t[c..], n - 1, c);
      hide Blocks;
      assert ([t[..c]] + Blocks(t[c..], n - 1, c))[1..] == Blocks(t[c..], n - 1, c);
    }
  }

  // ---------- packing (checkpoint conversion) ----------

  function Fused<T>(q: seq<T>, k: seq<T>, v: seq<T>, groups: nat, a: nat, b: nat): seq<seq<T>>
    requires |q| == groups * a && |k| == groups * b && |v| == groups * b
  {
    seq(groups, i requires 0 <= i < groups => Block(q, i, groups, a) + Block(k, i, groups, b) + Block(v, i, groups, b))
  }

  /** `view` per key/value head, `cat` along the rows of a head, `view` back to rows. */
  function PackQkv<T>(q: seq<T>, k: seq<T>, v: seq<T>, heads: nat, groups: nat, headDim: nat): Result<seq<T>> {
    if groups == 0 then Err("num_key_value_heads")
    else
      var a := headDim * heads / groups;
      if |q| != groups * a || |k| != groups * headDim || |v| != groups * headDim then Err("view")
      else Ok(Concat(Fused(q, k, v, groups, a, headDim)))
  }

  // ---------- splitting ----------

  function Times(a: nat, b: nat): nat {
    a * b
  }

  function Quotient(a: nat, b: nat): nat
    requires 0 < b
  {
    a / b
  }

  function CeilDiv(n: nat, d: nat): nat
    requires 0 < d
  {
    (n + d - 1) / d
  }

  /** `torch.chunk`: pieces of ceil(rows / n), the last one shorter, and never more pieces than needed. */
  function Chunk<T>(t: seq<T>, n: nat): seq<seq<T>>
    requires 0 < n
  {
    ChunkBy(t, CeilDiv(|t|, n))
  }

  function ChunkBy<T>(t: seq<T>, c: nat): seq<seq<T>>
    decreases |t|
  {
    if |t| <= c || c == 0 then [t] else [t[..c]] + ChunkBy(t[c..], c)
  }

  lemma {:induction false} ChunkByBlocks<T>(t: seq<T>, n: nat, c: nat)
    requires 0 < n && 0 < c && |t| == n * c
    ensures ChunkBy(t, c) == Blocks(t, n, c)
    decreases n
  {
    BlocksFirst(t, n, c);
    if n == 1 {
      assert t[..c] == t;
    } else {
      MulLe(2, n, c);
      ChunkByBlocks(t[c..], n - 1, c);
      hide Blocks;
    }
  }

  lemma {:induction false} CeilExact(n: nat, c: nat)
    requires 0 < n
    ensures CeilDiv(n * c, n) == c
  {
    DivUnique(n * c + n - 1, n, c, n - 1);
  }

  lemma {:induction false} DivUnique(x: nat, d: nat, q: nat, r: nat)
    requires 0 < d && r < d && x == q * d + r
    ensures x / d == q && x % d == r
  {
    assert x == d * (x / d) + x % d;
    MulLe(x / d + 1, q, d);
    MulLe(q + 1, x / d, d);
  }

  lemma {:induction false} ChunkEven<T>(t: seq<T>, n: nat, c: nat)
    requires 0 < n && 0 < c && |t| == n * c
    ensures Chunk(t, n) == Blocks(t, n, c)
  {
    CeilExact(n, c);
    ChunkByBlocks(t, n, c);
  }

  /** Three consecutive pieces of a chunk. */
  function Part<T>(s: seq<T>, lo: nat, n: nat): seq<T>
    requires lo + n <= |s|
  {
    s[lo..lo + n]
  }

  function Parts<T>(chunks: seq<seq<T>>, lo: nat, n: nat): seq<T>
    requires forall i :: 0 <= i < |chunks| ==> lo + n <= |chunks[i]|
  {
    Concat(seq(|chunks|, i requires 0 <= i < |chunks| => Part(chunks[i], lo, n)))
  }

  datatype Qkv<T> = Qkv(q: seq<T>, k: seq<T>, v: seq<T>)

  ghost function SplitChunks<T>(chunks: seq<seq<T>>, a: nat, b: nat): Result<Qkv<T>> {
    if !AllOf(chunks, a + b + b) then Err("split_with_sizes")
    else Ok(Qkv(Parts(chunks, 0, a), Parts(chunks, a, b), Parts(chunks, a + b, b)))
  }

  /** `_split_tensors` on a fused weight. */
  ghost function SplitQkv<T>(t: seq<T>, heads: nat, groups: nat): Result<Qkv<T>> {
    if groups == 0 || heads % groups != 0 then Err("num_attention_heads % num_key_value_heads")
    else
      var r := Quotient(heads, groups);
      if |t| % (r + 2) != 0 then Err("not divisible")
      else
        var kv := Quotient(|t|, r + 2);
        SplitChunks(Chunk(t, groups), Quotient(Times(kv, r), groups), Quotient(kv, groups))
  }

  /** The chunks `_merge_across_tp` visits, shard by shard. */
  function ShardChunks<T>(shards: seq<seq<T>>, n: nat): seq<seq<T>>
    requires 0 < n
  {
    if shards == [] then [] else Chunk(shards[0], n) + ShardChunks(shards[1..], n)
  }

  /** `_merge_across_tp` on the shards of a fused weight. */
  ghost function MergeQkv<T>(shards: seq<seq<T>>, heads: nat, groups: nat): Result<Qkv<T>> {
    if shards == [] || groups == 0 || heads % groups != 0 then Err("num_attention_heads % num_key_value_heads")
    else
      var r, n := Quotient(heads, groups), Quotient(groups, |shards|);
      if |shards[0]| % (r + 2) != 0 then Err("not divisible")
      else if n == 0 then Err("chunk")
      else
        var kv := Quotient(|shards[0]|, r + 2);
        SplitChunks(ShardChunks(shards, n), Quotient(Times(kv, r), n), Quotient(kv, n))
  }

  // ---------- the loops that append to the three lists ----------

  ghost function PartList<T>(chunks: seq<seq<T>>, lo: nat, n: nat): seq<seq<T>>
    requires AllOf(chunks, lo + n) || forall i :: 0 <= i < |chunks| ==> lo + n <= |chunks[i]|
  {
    seq(|chunks|, i requires 0 <= i < |chunks| => Part(chunks[i], lo, n))
  }

  /** One pass of the chunk loop: each chunk is split in three and appended. */
  method AppendParts<T>(chunks: seq<seq<T>>, a: nat, b: nat, ghost done: seq<seq<T>>,
                        qs: seq<seq<T>>, ks: seq<seq<T>>, vs: seq<seq<T>>)
    returns (ok: bool, qs': seq<seq<T>>, ks': seq<seq<T>>, vs': seq<seq<T>>)
    requires AllOf(done, a + b + b)
    requires qs == PartList(done, 0, a) && ks == PartList(done, a, b) && vs == PartList(done, a + b, b)
    ensures ok <==> AllOf(done + chunks, a + b + b)
    ensures ok ==> qs' == PartList(done + chunks, 0, a) && ks' == PartList(done + chunks, a, b) &&
                   vs' == PartList(done + chunks, a + b, b)
  {
    qs', ks', vs' := qs, ks, vs;
    for i := 0 to |chunks|
      invariant AllOf(done + chunks[..i], a + b + b)
      invariant qs' == PartList(done + chunks[..i], 0, a)
      invariant ks' == PartList(done + chunks[..i], a, b)
      invariant vs' == PartList(done + chunks[..i], a + b, b)
    {
      var chunk := chunks[i];
      assert done + chunks[..i + 1] == (done + chunks[..i]) + [chunk];
      if |chunk| != a + b + b {
        assert (done + chunks)[|done| + i] == chunk;
        ok := false;
        return;
      }
      assert chunk[..a] == Part(chunk, 0, a) && chunk[a + b..] == Part(chunk, a + b, b);
      qs' := qs' + [chunk[..a]];
      ks' := ks' + [chunk[a..a + b]];
      vs' := vs' + [chunk[a + b..]];
    }
    assert done + chunks[..|chunks|] == done + chunks;
    ok := true;
  }

  method SplitTensors<T>(t: seq<T>, heads: nat, groups: nat) returns (r: Result<Qkv<T>>)
    ensures r.Ok? <==> SplitQkv(t, heads, groups).Ok?
    ensures r.Ok? ==> r == SplitQkv(t, heads, groups)
  {
    if groups == 0 || heads % groups != 0 {
      return Err("num_attention_heads % num_key_value_heads");
    }
    var ratio := Quotient(heads, groups);
    if |t| % (ratio + 2) != 0 {
      return Err("not divisible");
    }
    var kv := Quotient(|t|, ratio + 2);
    var chunks := Chunk(t, groups);
    var ok, qs, ks, vs := AppendParts(chunks, Quotient(Times(kv, ratio), groups), Quotient(kv, groups), [], [], [], []);
    assert [] + chunks == chunks;
    if !ok {
      return Err("split_with_sizes");
    }
    return Ok(Qkv(Concat(qs), Concat(ks), Concat(vs)));
  }

  /** The nested loops over shards and their chunks. */
  method AppendShards<T>(shards: seq<seq<T>>, n: nat, a: nat, b: nat)
    returns (ok: bool, qs: seq<seq<T>>, ks: seq<seq<T>>, vs: seq<seq<T>>)
    requires 0 < n
    ensures var all := ShardChunks(shards, n);
            && (ok <==> AllOf(all, a + b + b))
            && (ok ==> qs == PartList(all, 0, a) && ks == PartList(all, a, b) && vs == PartList(all, a + b, b))
  {
    qs, ks, vs := [], [], [];
    ghost var done: seq<seq<T>>, all := [], ShardChunks(shards, n);
    assert shards[0..] == shards && [] + all == all;
    hide Chunk, Part;
    for i := 0 to |shards|
      invariant all == done + ShardChunks(shards[i..], n)
      invariant AllOf(done, a + b + b)
      invariant qs == PartList(done, 0, a) && ks == PartList(done, a, b) && vs == PartList(done, a + b, b)
    {
      assert shards[i..][1..] == shards[i + 1..];
      ghost var rest := ShardChunks(shards[i + 1..], n);
      var chunks := Chunk(shards[i], n);
      ok, qs, ks, vs := AppendParts(chunks, a, b, done, qs, ks, vs);
      assert all == (done + chunks) + rest;
      if !ok {
        if AllOf(all, a + b + b) {
          PrefixAllOf(done + chunks, rest, a + b + b);
        }
        return;
      }
      done := done + chunks;
    }
    assert all == done;
    ok := true;
  }

  lemma {:induction false} PrefixAllOf<T>(front: seq<seq<T>>, rest: seq<seq<T>>, c: nat)
    requires AllOf(front + rest, c)
    ensures AllOf(front, c)
  {
    assert forall i :: 0 <= i < |front| ==> (front + rest)[i] == front[i];
  }

  method MergeAcrossTp<T>(shards: seq<seq<T>>, heads: nat, groups: nat) returns (r: Result<Qkv<T>>)
    ensures r.Ok? <==> MergeQkv(shards, heads, groups).Ok?
    ensures r.Ok? ==> r == MergeQkv(shards, heads, groups)
  {
    if shards == [] || groups == 0 || heads % groups != 0 {
      return Err("num_attention_heads % num_key_value_heads");
    }
    var ratio, n := Quotient(heads, groups), Quotient(groups, |shards|);
    if |shards[0]| % (ratio + 2) != 0 {
      return Err("not divisible");
    }
    if n == 0 {
      return Err("chunk");
    }
    var kv := Quotient(|shards[0]|, ratio + 2);
    var ok, qs, ks, vs := AppendShards(shards, n, Quotient(Times(kv, ratio), n), Quotient(kv, n));
    if !ok {
      return Err("split_with_sizes");
    }
    return Ok(Qkv(Concat(qs), Concat(ks), Concat(vs)));
  }

  // ---------- the layouts are inverse ----------

  /** Row counts of a checkpoint: every head has headDim rows, heads share groups evenly. */
  ghost predicate GoodHeads(heads: nat, groups: nat, headDim: nat) {
    0 < headDim && 0 < groups && 0 < heads && heads % groups == 0
  }

  /** Query rows of one fused head. */
  function QueryRows(heads: nat, groups: nat, headDim: nat): nat
    requires 0 < groups
  {
    headDim * Quotient(heads, groups)
  }

  /** All rows of one fused head. */
  function HeadRows(heads: nat, groups: nat, headDim: nat): nat
    requires 0 < groups
  {
    QueryRows(heads, groups, headDim) + headDim + headDim
  }

  lemma {:induction false} HeadSizes(heads: nat, groups: nat, headDim: nat)
    requires GoodHeads(heads, groups, headDim)
    ensures var a := QueryRows(heads, groups, headDim);
            && headDim <= a
            && headDim * heads / groups == a
            && heads * headDim == groups * a
  {
    var r := Quotient(heads, groups);
    assert heads == groups * r;
    assert headDim * heads == (headDim * r) * groups;
    DivUnique(headDim * heads, groups, headDim * r, 0);
    assert heads * headDim == groups * (headDim * r);
    MulLe(1, r, headDim);
  }

  /** The sizes both splitters compute from n fused heads of one shard. */
  lemma {:induction false} SplitSizes(n: nat, heads: nat, groups: nat, headDim: nat)
    requires 0 < n && GoodHeads(heads, groups, headDim)
    ensures var r := Quotient(heads, groups);
            var rows := n * HeadRows(heads, groups, headDim);
            && rows % (r + 2) == 0
            && Quotient(Times(Quotient(rows, r + 2), r), n) == QueryRows(heads, groups, headDim)
            && Quotient(Quotient(rows, r + 2), n) == headDim
  {
    var r := Quotient(heads, groups);
    var rows := n * HeadRows(heads, groups, headDim);
    assert headDim * r + headDim + headDim == headDim * (r + 2);
    assert rows == (n * headDim) * (r + 2);
    DivUnique(rows, r + 2, n * headDim, 0);
    assert (n * headDim) * r == (headDim * r) * n;
    DivUnique((n * headDim) * r, n, headDim * r, 0);
    DivUnique(n * headDim, n, headDim, 0);
  }

  lemma {:induction false} BlocksLength<T>(t: seq<T>, n: nat, c: nat)
    requires |t| == n * c
    ensures AllOf(Blocks(t, n, c), c) && |Blocks(t, n, c)| == n
  {
    forall i | 0 <= i < n ensures |Blocks(t, n, c)[i]| == c {
      BlockLength(t, i, n, c);
    }
  }

  /** The splitter cuts a fused matrix into its heads, and each head into its three parts. */
  lemma {:induction false} SplitsIntoBlocks<T>(t: seq<T>, heads: nat, groups: nat, headDim: nat)
    requires GoodHeads(heads, groups, headDim) && |t| == groups * HeadRows(heads, groups, headDim)
    ensures var chunks := Blocks(t, groups, HeadRows(heads, groups, headDim));
            && |chunks| == groups && AllOf(chunks, HeadRows(heads, groups, headDim))
            && SplitQkv(t, heads, groups) == SplitChunks(chunks, QueryRows(heads, groups, headDim), headDim)
  {
    var c := HeadRows(heads, groups, headDim);
    SplitSizes(groups, heads, groups, headDim);
    ChunkEven(t, groups, c);
    BlocksLength(t, groups, c);
    hide Chunk, Blocks, SplitChunks, AllOf, Times, Quotient, QueryRows, HeadRows;
  }

  lemma {:induction false} SplitChunksOk<T>(chunks: seq<seq<T>>, a: nat, b: nat)
    requires AllOf(chunks, a + b + b)
    ensures SplitChunks(chunks, a, b) ==
            Ok(Qkv(Concat(PartList(chunks, 0, a)), Concat(PartList(chunks, a, b)), Concat(PartList(chunks, a + b, b))))
  {
    PartsAreConcats(chunks, 0, a);
    PartsAreConcats(chunks, a, b);
    PartsAreConcats(chunks, a + b, b);
    hide Concat, PartList, Parts;
  }

  lemma {:induction false} PartsAreConcats<T>(chunks: seq<seq<T>>, lo: nat, n: nat)
    requires forall i :: 0 <= i < |chunks| ==> lo + n <= |chunks[i]|
    ensures Parts(chunks, lo, n) == Concat(PartList(chunks, lo, n))
  {
    hide Concat;
    assert seq(|chunks|, i requires 0 <= i < |chunks| => Part(chunks[i], lo, n)) == PartList(chunks, lo, n);
  }

  lemma {:induction false} PartsOfFused<T>(q: seq<T>, k: seq<T>, v: seq<T>, groups: nat, a: nat, b: nat)
    requires |q| == groups * a && |k| == groups * b && |v| == groups * b
    ensures var chunks := Fused(q, k, v, groups, a, b);
            && |chunks| == groups && AllOf(chunks, a + b + b)
            && PartList(chunks, 0, a) == Blocks(q, groups, a)
            && PartList(chunks, a, b) == Blocks(k, groups, b)
            && PartList(chunks, a + b, b) == Blocks(v, groups, b)
  {
    var chunks := Fused(q, k, v, groups, a, b);
    forall i | 0 <= i < groups
      ensures |chunks[i]| == a + b + b && Part(chunks[i], 0, a) == Block(q, i, groups, a)
      ensures Part(chunks[i], a, b) == Block(k, i, groups, b) && Part(chunks[i], a + b, b) == Block(v, i, groups, b)
    {
      BlockLength(q, i, groups, a);
      BlockLength(k, i, groups, b);
      BlockLength(v, i, groups, b);
      hide Block;
      ThreeParts(Block(q, i, groups, a), Block(k, i, groups, b), Block(v, i, groups, b));
    }
    hide Block, Part;
  }

  lemma {:induction false} BlockLength<T>(t: seq<T>, i: nat, n: nat, c: nat)
    requires i < n && |t| == n * c
    ensures |Block(t, i, n, c)| == c
  {
    BlockEnds(i, n, c);
  }

  lemma {:induction false} ThreeParts<T>(x: seq<T>, y: seq<T>, z: seq<T>)
    ensures var s := x + y + z;
            Part(s, 0, |x|) == x && Part(s, |x|, |y|) == y && Part(s, |x| + |y|, |z|) == z
  {
  }

  lemma {:induction false} PacksFused<T>(q: seq<T>, k: seq<T>, v: seq<T>, heads: nat, groups: nat, headDim: nat)
    requires GoodHeads(heads, groups, headDim)
    requires |q| == heads * headDim && |k| == |v| == groups * headDim
    ensures |q| == groups * QueryRows(heads, groups, headDim)
    ensures PackQkv(q, k, v, heads, groups, headDim) ==
            Ok(Concat(Fused(q, k, v, groups, QueryRows(heads, groups, headDim), headDim)))
  {
    HeadSizes(heads, groups, headDim);
    hide Concat, Fused, QueryRows;
  }

  /** Splitting a packed matrix returns the original q, k and v rows. */
  lemma {:induction false} QkvRoundTrip<T>(q: seq<T>, k: seq<T>, v: seq<T>, heads: nat, groups: nat, headDim: nat)
    requires GoodHeads(heads, groups, headDim)
    requires |q| == heads * headDim && |k| == |v| == groups * headDim
    ensures var packed := PackQkv(q, k, v, heads, groups, headDim);
            packed.Ok? && SplitQkv(packed.value, heads, groups) == Ok(Qkv(q, k, v))
  {
    hide Concat, Blocks, Fused, SplitQkv, SplitChunks, PackQkv, Quotient, QueryRows, AllOf, PartList;
    var a, b := QueryRows(heads, groups, headDim), headDim;
    PacksFused(q, k, v, heads, groups, headDim);
    var chunks := Fused(q, k, v, groups, a, b);
    PartsOfFused(q, k, v, groups, a, b);
    BlocksOfConcat(chunks, a + b + b);
    SplitsIntoBlocks(Concat(chunks), heads, groups, headDim);
    SplitChunksOk(chunks, a, b);
    ConcatBlocks(q, groups, a);
    ConcatBlocks(k, groups, b);
    ConcatBlocks(v, groups, b);
  }

  // ---------- the other way round ----------

  lemma {:induction false} BlockOfParts<T>(chunks: seq<seq<T>>, lo: nat, n: nat, i: nat)
    requires i < |chunks| && forall j :: 0 <= j < |chunks| ==> lo + n <= |chunks[j]|
    ensures |Parts(chunks, lo, n)| == |chunks| * n && Block(Parts(chunks, lo, n), i, |chunks|, n) == Part(chunks[i], lo, n)
  {
    PartsAreConcats(chunks, lo, n);
    BlockOfConcat(PartList(chunks, lo, n), n, i);
    hide Concat, Block, Parts;
  }

  lemma {:induction false} FusedOfParts<T>(chunks: seq<seq<T>>, a: nat, b: nat, i: nat)
    requires AllOf(chunks, a + b + b) && i < |chunks|
    ensures var q, k, v := Parts(chunks, 0, a), Parts(chunks, a, b), Parts(chunks, a + b, b);
            && |q| == |chunks| * a && |k| == |v| == |chunks| * b
            && Block(q, i, |chunks|, a) + Block(k, i, |chunks|, b) + Block(v, i, |chunks|, b) == chunks[i]
  {
    hide Block, Concat, Parts;
    BlockOfParts(chunks, 0, a, i);
    BlockOfParts(chunks, a, b, i);
    BlockOfParts(chunks, a + b, b, i);
    assert Part(chunks[i], 0, a) + Part(chunks[i], a, b) + Part(chunks[i], a + b, b) == chunks[i];
  }

  lemma {:induction false} FusedIsChunks<T>(chunks: seq<seq<T>>, a: nat, b: nat)
    requires AllOf(chunks, a + b + b) && chunks != []
    ensures var q, k, v := Parts(chunks, 0, a), Parts(chunks, a, b), Parts(chunks, a + b, b);
            && |q| == |chunks| * a && |k| == |v| == |chunks| * b
            && Fused(q, k, v, |chunks|, a, b) == chunks
  {
    var q, k, v := Parts(chunks, 0, a), Parts(chunks, a, b), Parts(chunks, a + b, b);
    FusedOfParts(chunks, a, b, 0);
    forall i | 0 <= i < |chunks| ensures Fused(q, k, v, |chunks|, a, b)[i] == chunks[i] {
      FusedOfParts(chunks, a, b, i);
    }
    hide Block, Parts;
  }

  /** Packing what was split gives the fused matrix back. */
  lemma {:induction false} QkvSplitThenPack<T>(t: seq<T>, heads: nat, groups: nat, headDim: nat)
    requires GoodHeads(heads, groups, headDim) && |t| == groups * HeadRows(heads, groups, headDim)
    ensures var s := SplitQkv(t, heads, groups);
            s.Ok? && PackQkv(s.value.q, s.value.k, s.value.v, heads, groups, headDim) == Ok(t)
  {
    hide Concat, Blocks, Fused, SplitQkv, PackQkv, Quotient, QueryRows, AllOf, Parts;
    var a, b := QueryRows(heads, groups, headDim), headDim;
    SplitsIntoBlocks(t, heads, groups, headDim);
    var chunks := Blocks(t, groups, a + b + b);
    ConcatBlocks(t, groups, a + b + b);
    FusedIsChunks(chunks, a, b);
    HeadSizes(heads, groups, headDim);
    var s := SplitQkv(t, heads, groups).value;
    PacksFused(s.q, s.k, s.v, heads, groups, headDim);
  }

  // ---------- tensor-parallel shards ----------

  lemma {:induction false} BlockInFront<T>(t: seq<T>, m: nat, n: nat, c: nat, i: nat)
    requires |t| == (m + n) * c && i < m
    ensures m * c <= |t| && Block(t[..m * c], i, m, c) == Block(t, i, m + n, c)
  {
    Distribute(m, n, c);
    BlockEnds(i, m, c);
    BlockEnds(i, m + n, c);
    assert t[..m * c][i * c..i * c + c] == t[i * c..i * c + c];
  }

  lemma {:induction false} BlockInBack<T>(t: seq<T>, m: nat, n: nat, c: nat, i: nat)
    requires |t| == (m + n) * c && i < n
    ensures m * c <= |t| && |t[m * c..]| == n * c && Block(t[m * c..], i, n, c) == Block(t, m + i, m + n, c)
  {
    Distribute(m, n, c);
    Distribute(m, i, c);
    BlockEnds(i, n, c);
    BlockEnds(m + i, m + n, c);
    SliceOfTail(t, m * c, i * c, i * c + c);
  }

  lemma {:induction false} BlocksSplit<T>(t: seq<T>, m: nat, n: nat, c: nat)
    requires |t| == (m + n) * c
    ensures m * c <= |t| && |t[m * c..]| == n * c
    ensures Blocks(t, m + n, c) == Blocks(t[..m * c], m, c) + Blocks(t[m * c..], n, c)
  {
    Distribute(m, n, c);
    var whole, front, back := Blocks(t, m + n, c), Blocks(t[..m * c], m, c), Blocks(t[m * c..], n, c);
    forall i | 0 <= i < m + n ensures whole[i] == (front + back)[i] {
      if i < m {
        BlockInFront(t, m, n, c, i);
      } else {
        BlockInBack(t, m, n, c, i - m);
      }
    }
  }

  /** The first shard is one block of rows, and n blocks of chunk size. */
  lemma {:induction false} FirstShard<T>(t: seq<T>, tp: nat, n: nat, c: nat, rows: nat, groups: nat)
    requires 0 < tp && rows == n * c && groups == tp * n && |t| == tp * rows
    ensures |t| == groups * c && rows <= |t| && n <= groups
    ensures |t[rows..]| == (tp - 1) * rows == (groups - n) * c && groups - n == (tp - 1) * n
    ensures Blocks(t, tp, rows) == [t[..rows]] + Blocks(t[rows..], tp - 1, rows)
    ensures Blocks(t, groups, c) == Blocks(t[..rows], n, c) + Blocks(t[rows..], groups - n, c)
  {
    hide Blocks;
    assert tp * (n * c) == (tp * n) * c;
    Distribute(1, tp - 1, n);
    BlocksFirst(t, tp, rows);
    BlocksSplit(t, n, groups - n, c);
  }

  lemma {:induction false} ShardChunksAreChunks<T>(t: seq<T>, tp: nat, n: nat, c: nat, rows: nat, groups: nat)
    requires 0 < n && 0 < c && rows == n * c && groups == tp * n && |t| == tp * rows == groups * c
    ensures ShardChunks(Blocks(t, tp, rows), n) == Blocks(t, groups, c)
    decreases tp
  {
    if tp > 0 {
      FirstShard(t, tp, n, c, rows, groups);
      ShardChunksAreChunks(t[rows..], tp - 1, n, c, rows, groups - n);
      ChunkEven(t[..rows], n, c);
      hide Blocks, Chunk;
    }
  }

  /** Merging the row shards of a fused matrix gives the same q, k and v as splitting the whole matrix,
      whenever the shard count divides the key/value heads. */
  lemma {:induction false} ShardedMergeIsSplit<T>(t: seq<T>, heads: nat, groups: nat, headDim: nat, tp: nat, rows: nat)
    requires GoodHeads(heads, groups, headDim) && 0 < tp && groups % tp == 0
    requires |t| == groups * HeadRows(heads, groups, headDim) == tp * rows
    ensures var shards := Blocks(t, tp, rows);
            MergeQkv(shards, heads, groups).Ok? && MergeQkv(shards, heads, groups) == SplitQkv(t, heads, groups)
  {
    var n, c := Quotient(groups, tp), HeadRows(heads, groups, headDim);
    assert groups == tp * n;
    assert (tp * n) * c == tp * (n * c);
    SameFactor(rows, n * c, tp);
    hide HeadRows, QueryRows;
    SplitSizes(n, heads, groups, headDim);
    ShardChunksAreChunks(t, tp, n, c, rows, groups);
    BlocksLength(t, tp, rows);
    SplitsIntoBlocks(t, heads, groups, headDim);
    hide Blocks, ShardChunks, SplitQkv, SplitChunks, Chunk, Times;
  }

  // ---------- uneven shards ----------

  ghost predicate DistinctRows<T>(t: seq<T>) {
    forall i, j :: 0 <= i < j < |t| ==> t[i] != t[j]
  }

  lemma {:induction false} CeilBounds(x: nat, n: nat)
    requires 0 < n
    ensures x <= n * CeilDiv(x, n) && n * (x / n) <= x
  {
    var y := x + n - 1;
    assert y == n * (y / n) + y % n;
    assert x == n * (x / n) + x % n;
  }

  /** The first of n pieces is ceil(rows / n) rows long. */
  lemma {:induction false} FirstPiece<T>(t: seq<T>, n: nat)
    requires 0 < n && t != []
    ensures Chunk(t, n) != [] && |Chunk(t, n)[0]| == CeilDiv(|t|, n) <= |t| && Chunk(t, n)[0] <= t
  {
    CeilLe(|t|, n);
    CeilBounds(|t|, n);
    assert CeilDiv(|t|, n) > 0;
  }

  lemma {:induction false} CeilLe(x: nat, n: nat)
    requires 0 < n && 0 < x
    ensures CeilDiv(x, n) <= x
  {
    var y, q := x + n - 1, CeilDiv(x, n);
    MulLe(1, x, n - 1);
    assert x * n == x * (n - 1) + x;
    assert y == n * q + y % n;
    MulLe(x + 1, q, n);
    assert (x + 1) * n == x * n + n;
  }

  lemma {:induction false} CeilAndFloor(x: nat, n: nat)
    requires 0 < n
    ensures x <= n * CeilDiv(x, n) && n * Quotient(x, n) <= x
  {
    CeilBounds(x, n);
  }

  lemma {:induction false} TightParts(n: nat, a: nat, b: nat, x: nat, y: nat)
    requires n * a <= x && n * b <= y && x + 2 * y <= n * (a + 2 * b)
    ensures n * a == x && n * b == y
  {
    assert n * (a + 2 * b) == n * a + 2 * (n * b);
  }

  lemma {:induction false} SwapFactors(n: nat, r: nat, b: nat)
    ensures n * (r * b) == (n * b) * r
  {
  }

  /** Rounded-down parts fill a rounded-up piece only if nothing was rounded. */
  lemma {:induction false} NothingRounded(kv: nat, r: nat, n: nat)
    requires 0 < n
    requires Quotient(Times(kv, r), n) + 2 * Quotient(kv, n) == CeilDiv(Times(kv, r + 2), n)
    ensures n * Quotient(kv, n) == kv && Quotient(Times(kv, r), n) == r * Quotient(kv, n)
  {
    assert Times(kv, r + 2) == Times(kv, r) + 2 * kv;
    assert Times(kv, r) == kv * r;
    hide Quotient, CeilDiv, Times;
    var a, b := Quotient(Times(kv, r), n), Quotient(kv, n);
    CeilAndFloor(Times(kv, r + 2), n);
    CeilAndFloor(Times(kv, r), n);
    CeilAndFloor(kv, n);
    TightParts(n, a, b, Times(kv, r), kv);
    SwapFactors(n, r, b);
    SameFactor(a, r * b, n);
  }

  lemma {:induction false} SameFactor(x: nat, y: nat, n: nat)
    requires 0 < n && n * x == n * y
    ensures x == y
  {
    MulLe(x + 1, y, n);
    MulLe(y + 1, x, n);
  }

  lemma {:induction false} SplitPieces<T>(t: seq<T>, heads: nat, groups: nat)
    requires t != [] && SplitQkv(t, heads, groups).Ok?
    ensures 0 < groups && heads % groups == 0
    ensures var r := Quotient(heads, groups);
            && |t| % (r + 2) == 0
            && var kv := Quotient(|t|, r + 2);
               Quotient(Times(kv, r), groups) + 2 * Quotient(kv, groups) == CeilDiv(|t|, groups)
  {
    FirstPiece(t, groups);
    hide Chunk, CeilDiv, Times, Quotient;
  }

  lemma {:induction false} FactorsDivide(groups: nat, r: nat, b: nat)
    requires 0 < groups
    ensures (groups * b) * (r + 2) % (groups * (r + 2)) == 0
  {
    assert (groups * b) * (r + 2) == b * (groups * (r + 2));
    DivUnique(b * (groups * (r + 2)), groups * (r + 2), b, 0);
  }

  lemma {:induction false} EmptySplits<T>(heads: nat, groups: nat)
    requires 0 < groups && heads % groups == 0
    ensures SplitQkv<T>([], heads, groups).Ok?
  {
    var r := Quotient(heads, groups);
    DivUnique(0, r + 2, 0, 0);
    DivUnique(0, groups, 0, 0);
    DivUnique(groups - 1, groups, 0, groups - 1);
    assert Times(0, r) == 0;
    assert Chunk<T>([], groups) == [[]];
  }

  lemma {:induction false} DividesIfSplit<T>(t: seq<T>, heads: nat, groups: nat)
    requires t != [] && 0 < groups && heads % groups == 0
    ensures SplitQkv(t, heads, groups).Ok? ==> |t| % (groups * (heads / groups + 2)) == 0
  {
    if SplitQkv(t, heads, groups).Ok? {
      var r := Quotient(heads, groups);
      SplitPieces(t, heads, groups);
      hide SplitQkv;
      var kv := Quotient(|t|, r + 2);
      assert |t| == kv * (r + 2) == Times(kv, r + 2);
      NothingRounded(kv, r, groups);
      FactorsDivide(groups, r, Quotient(kv, groups));
    }
  }

  /** The splitter goes through exactly when the heads share the groups evenly and the rows divide into that many
      fused heads. */
  lemma {:induction false} SplitsExactly<T>(t: seq<T>, heads: nat, groups: nat)
    requires 0 < heads
    ensures SplitQkv(t, heads, groups).Ok? <==>
            0 < groups && heads % groups == 0 && |t| % (groups * (heads / groups + 2)) == 0
  {
    if 0 < groups && heads % groups == 0 {
      var r := Quotient(heads, groups);
      if t == [] {
        EmptySplits<T>(heads, groups);
        DivUnique(0, groups * (r + 2), 0, 0);
      } else {
        DividesIfSplit(t, heads, groups);
        if |t| % (groups * (r + 2)) == 0 {
          var headDim := |t| / (groups * (r + 2));
          WholeHeads(heads, groups, headDim, |t|);
          SplitsIntoBlocks(t, heads, groups, headDim);
          HeadRowsSum(heads, groups, headDim);
          SplitChunksOk(Blocks(t, groups, HeadRows(heads, groups, headDim)), QueryRows(heads, groups, headDim), headDim);
        }
      }
      hide SplitQkv;
    }
  }

  lemma {:induction false} HeadRowsSum(heads: nat, groups: nat, headDim: nat)
    requires 0 < groups
    ensures HeadRows(heads, groups, headDim) == QueryRows(heads, groups, headDim) + headDim + headDim
  {
  }

  lemma {:induction false} WholeHeads(heads: nat, groups: nat, headDim: nat, rows: nat)
    requires 0 < heads && 0 < groups && heads % groups == 0 && 0 < rows
    requires rows % (groups * (heads / groups + 2)) == 0 && headDim == rows / (groups * (heads / groups + 2))
    ensures GoodHeads(heads, groups, headDim) && rows == groups * HeadRows(heads, groups, headDim)
  {
    var r := heads / groups;
    var c := groups * (r + 2);
    assert rows == c * (rows / c) + rows % c;
    assert headDim * r + headDim + headDim == headDim * (r + 2);
    assert (groups * (r + 2)) * headDim == groups * (headDim * (r + 2));
  }

  /** When the shard count does not divide the heads, the merge counts too few heads a shard, so it takes them to be
      longer than they are. */
  lemma {:induction false} HeadsTooLong(groups: nat, tp: nat, n: nat, b: nat, headDim: nat, r: nat)
    requires 0 < tp && 0 < headDim && n == groups / tp && groups % tp != 0
    requires tp * (n * b * (r + 2)) == groups * (headDim * (r + 2))
    ensures headDim < b
  {
    assert groups == tp * n + groups % tp;
    assert tp * (n * b * (r + 2)) == (tp * n * b) * (r + 2);
    assert groups * (headDim * (r + 2)) == (groups * headDim) * (r + 2);
    assert (r + 2) * (tp * n * b) == (r + 2) * (groups * headDim);
    SameFactor(tp * n * b, groups * headDim, r + 2);
    MulLe(b, headDim, tp * n);
    MulLe(tp * n + 1, groups, headDim);
    assert (tp * n) * b == b * (tp * n) && (tp * n) * headDim == headDim * (tp * n);
    assert (tp * n + 1) * headDim == (tp * n) * headDim + headDim;
  }

  /** The query rows the merge takes from a first piece reach past those of the first head. */
  lemma {:induction false} UnevenReach(heads: nat, groups: nat, headDim: nat, tp: nat, rows: nat)
    requires GoodHeads(heads, groups, headDim) && 0 < tp && groups % tp != 0 && 0 < Quotient(groups, tp)
    requires groups * HeadRows(heads, groups, headDim) == tp * rows
    requires var r, n := Quotient(heads, groups), Quotient(groups, tp);
             && rows % (r + 2) == 0
             && Quotient(Times(Quotient(rows, r + 2), r), n) + 2 * Quotient(Quotient(rows, r + 2), n) == CeilDiv(rows, n)
    ensures QueryRows(heads, groups, headDim) <
            Quotient(Times(Quotient(rows, Quotient(heads, groups) + 2), Quotient(heads, groups)), Quotient(groups, tp))
  {
    var r, n := Quotient(heads, groups), Quotient(groups, tp);
    var kv := Quotient(rows, r + 2);
    assert rows == kv * (r + 2) == Times(kv, r + 2);
    assert HeadRows(heads, groups, headDim) == headDim * (r + 2);
    hide CeilDiv;
    NothingRounded(kv, r, n);
    var b := Quotient(kv, n);
    LongerQueries(groups, tp, n, b, headDim, r, rows);
  }

  lemma {:induction false} LongerQueries(groups: nat, tp: nat, n: nat, b: nat, headDim: nat, r: nat, rows: nat)
    requires 0 < tp && 0 < headDim && 0 < r && n == groups / tp && groups % tp != 0
    requires rows == (n * b) * (r + 2) && tp * rows == groups * (headDim * (r + 2))
    ensures headDim * r < r * b
  {
    assert n * b * (r + 2) == rows;
    HeadsTooLong(groups, tp, n, b, headDim, r);
    MulLe(headDim + 1, b, r);
    assert (headDim + 1) * r == headDim * r + r;
  }

  /** The first query row of the second head. */
  lemma {:induction false} SplitSecondHead<T>(t: seq<T>, heads: nat, groups: nat, headDim: nat, a: nat, c: nat)
    requires GoodHeads(heads, groups, headDim) && 2 <= groups
    requires a == QueryRows(heads, groups, headDim) && c == HeadRows(heads, groups, headDim) && |t| == groups * c
    ensures SplitQkv(t, heads, groups).Ok?
    ensures a < c < |t| && a < |SplitQkv(t, heads, groups).value.q| && SplitQkv(t, heads, groups).value.q[a] == t[c]
  {
    HeadSizes(heads, groups, headDim);
    MulLe(2, groups, c);
    SplitsIntoBlocks(t, heads, groups, headDim);
    hide QueryRows, HeadRows, SplitQkv, Concat;
    var chunks := Blocks(t, groups, c);
    SplitChunksOk(chunks, a, headDim);
    BlockEnds(1, groups, c);
    assert chunks[1][0] == t[c];
    var qs := PartList(chunks, 0, a);
    BlockOfConcat(qs, a, 1);
    BlockEnds(1, groups, a);
    assert Block(Concat(qs), 1, groups, a)[0] == Concat(qs)[a];
    assert qs[1][0] == chunks[1][0];
  }

  /** The merge's q starts with the first rows of the first shard. */
  lemma {:induction false} MergeFirstRows<T>(shards: seq<seq<T>>, heads: nat, groups: nat)
    requires MergeQkv(shards, heads, groups).Ok? && shards[0] != []
    ensures 0 < Quotient(groups, |shards|) && |shards[0]| % (Quotient(heads, groups) + 2) == 0
    ensures var r, n := Quotient(heads, groups), Quotient(groups, |shards|);
            var kv := Quotient(|shards[0]|, r + 2);
            var a := Quotient(Times(kv, r), n);
            && a + 2 * Quotient(kv, n) == CeilDiv(|shards[0]|, n)
            && a <= |MergeQkv(shards, heads, groups).value.q| && a <= |shards[0]|
            && MergeQkv(shards, heads, groups).value.q[..a] == shards[0][..a]
  {
    var r, n := Quotient(heads, groups), Quotient(groups, |shards|);
    var kv := Quotient(|shards[0]|, r + 2);
    var a := Quotient(Times(kv, r), n);
    FirstPiece(shards[0], n);
    hide Chunk, CeilDiv, Quotient, Times;
    var chunks := ShardChunks(shards, n);
    assert chunks[0] == Chunk(shards[0], n)[0];
    var qs := PartList(chunks, 0, a);
    assert MergeQkv(shards, heads, groups).value.q == qs[0] + Concat(qs[1..]);
    assert qs[0] == shards[0][..a];
  }

  /** The first key row of a fused matrix follows the query rows of its first head. */
  lemma {:induction false} SplitFirstKey<T>(t: seq<T>, heads: nat, groups: nat, headDim: nat, a: nat)
    requires GoodHeads(heads, groups, headDim) && a == QueryRows(heads, groups, headDim)
    requires |t| == groups * HeadRows(heads, groups, headDim)
    ensures SplitQkv(t, heads, groups).Ok? && a < |t|
    ensures SplitQkv(t, heads, groups).value.k != [] && SplitQkv(t, heads, groups).value.k[0] == t[a]
  {
    var c := HeadRows(heads, groups, headDim);
    SplitsIntoBlocks(t, heads, groups, headDim);
    FirstBlock(t, groups, c);
    hide QueryRows, SplitQkv, Block;
    var chunks := Blocks(t, groups, c);
    SplitChunksOk(chunks, a, headDim);
    assert chunks[0] == t[..c];
    var ks := PartList(chunks, a, headDim);
    assert Concat(ks) == ks[0] + Concat(ks[1..]);
    assert ks[0][0] == t[a];
  }

  /** The merge failed, or has the first key row of the split as query row a. */
  ghost predicate WrongFrom<T>(merged: Result<Qkv<T>>, split: Result<Qkv<T>>, a: nat) {
    && split.Ok?
    && (merged.Ok? ==> split.value.k != [] && a < |merged.value.q| && merged.value.q[a] == split.value.k[0])
  }

  lemma {:induction false} TooManyShards<T>(shards: seq<seq<T>>, heads: nat, groups: nat)
    requires groups < |shards|
    ensures MergeQkv(shards, heads, groups).Err?
  {
    assert Quotient(groups, |shards|) == 0;
    hide SplitChunks, Quotient, ShardChunks;
  }

  /** Equal row shards whose number does not divide the key/value heads: the merge fails, or its q has the first
      key row where a query row of the second head belongs. */
  lemma {:induction false} UnevenShardsGoWrong<T>(t: seq<T>, heads: nat, groups: nat, headDim: nat, tp: nat, rows: nat)
    requires GoodHeads(heads, groups, headDim) && 0 < tp && groups % tp != 0
    requires |t| == groups * HeadRows(heads, groups, headDim) == tp * rows
    ensures var merged, split := MergeQkv(Blocks(t, tp, rows), heads, groups), SplitQkv(t, heads, groups);
            WrongFrom(merged, split, QueryRows(heads, groups, headDim)) && (groups < tp ==> merged.Err?)
  {
    hide QueryRows, HeadRows, SplitQkv, Block, Chunk, SplitChunks, MergeQkv, CeilDiv, Quotient, Times;
    var a := QueryRows(heads, groups, headDim);
    var shards := Blocks(t, tp, rows);
    SplitFirstKey(t, heads, groups, headDim, a);
    FirstBlock(t, tp, rows);
    assert shards[0] == t[..rows];
    if groups < tp {
      TooManyShards(shards, heads, groups);
    }
    if MergeQkv(shards, heads, groups).Ok? {
      assert rows > 0;
      MergeFirstRows(shards, heads, groups);
      UnevenReach(heads, groups, headDim, tp, rows);
      assert MergeQkv(shards, heads, groups).value.q[a] == MergeQkv(shards, heads, groups).value.q[..a + 1][a];
    }
  }

  /** For distinct rows in equal shards the merge agrees with the split exactly when the shard count divides the
      key/value heads. */
  lemma {:induction false} ShardedMergeExact<T>(t: seq<T>, heads: nat, groups: nat, headDim: nat, tp: nat, rows: nat)
    requires GoodHeads(heads, groups, headDim) && 0 < tp && DistinctRows(t)
    requires |t| == groups * HeadRows(heads, groups, headDim) == tp * rows
    ensures MergeQkv(Blocks(t, tp, rows), heads, groups) == SplitQkv(t, heads, groups) <==> groups % tp == 0
  {
    hide QueryRows, HeadRows, SplitQkv, Blocks, MergeQkv;
    if groups % tp == 0 {
      ShardedMergeIsSplit(t, heads, groups, headDim, tp, rows);
    } else {
      UnevenDiffers(t, heads, groups, headDim, tp, rows);
    }
  }

  lemma {:induction false} UnevenDiffers<T>(t: seq<T>, heads: nat, groups: nat, headDim: nat, tp: nat, rows: nat)
    requires GoodHeads(heads, groups, headDim) && 0 < tp && groups % tp != 0 && DistinctRows(t)
    requires |t| == groups * HeadRows(heads, groups, headDim) == tp * rows
    ensures MergeQkv(Blocks(t, tp, rows), heads, groups) != SplitQkv(t, heads, groups)
  {
    hide QueryRows, HeadRows, SplitQkv, Blocks, MergeQkv;
    var a := QueryRows(heads, groups, headDim);
    UnevenShardsGoWrong(t, heads, groups, headDim, tp, rows);
    SplitFirstKey(t, heads, groups, headDim, a);
    if groups >= 2 {
      SplitSecondHead(t, heads, groups, headDim, a, HeadRows(heads, groups, headDim));
    }
  }

  /** Three key/value heads of two rows each on two shards: the merge goes through and what it returns as query
      rows has key and value rows among them. */
  lemma {:induction false} UnevenShardsMixRows(q: seq<int>, k: seq<int>, v: seq<int>)
    requires |q| == |k| == |v| == 6
    ensures var packed := PackQkv(q, k, v, 3, 3, 2);
            && packed.Ok? && |packed.value| == 18
            && var merged := MergeQkv([packed.value[..9], packed.value[9..]], 3, 3);
               merged.Ok? && merged.value.q == [q[0], q[1], k[0], k[3], v[2], v[3]]
  {
    UnevenPack(q, k, v);
    var t := PackQkv(q, k, v, 3, 3, 2).value;
    UnevenMerge(t[..9], t[9..]);
    hide PackQkv, MergeQkv;
  }

  lemma {:induction false} ThreeBlocks(s: seq<int>)
    requires |s| == 6
    ensures Block(s, 0, 3, 2) == s[..2] && Block(s, 1, 3, 2) == s[2..4] && Block(s, 2, 3, 2) == s[4..]
  {
  }

  lemma {:induction false} ConcatThree(x: seq<int>, y: seq<int>, z: seq<int>)
    ensures Concat([x, y, z]) == x + y + z
  {
    assert [x, y, z][1..] == [y, z] && [y, z][1..] == [z];
    assert Concat([z]) == z + Concat([z][1..]);
  }

  lemma {:induction false} UnevenPack(q: seq<int>, k: seq<int>, v: seq<int>)
    requires |q| == |k| == |v| == 6
    ensures var packed := PackQkv(q, k, v, 3, 3, 2);
            && packed.Ok? && |packed.value| == 18
            && packed.value[0] == q[0] && packed.value[1] == q[1] && packed.value[2] == k[0]
            && packed.value[9] == k[3] && packed.value[10] == v[2] && packed.value[11] == v[3]
  {
    ThreeBlocks(q);
    ThreeBlocks(k);
    ThreeBlocks(v);
    var x, y, z := q[..2] + k[..2] + v[..2], q[2..4] + k[2..4] + v[2..4], q[4..] + k[4..] + v[4..];
    ConcatThree(x, y, z);
    assert Fused(q, k, v, 3, 2, 2) == [x, y, z];
    hide Block, Fused, Concat;
    assert y[3] == k[3] && y[4] == v[2] && y[5] == v[3];
  }

  lemma {:induction false} UnevenMerge(x: seq<int>, y: seq<int>)
    requires |x| == |y| == 9
    ensures MergeQkv([x, y], 3, 3).Ok? && MergeQkv([x, y], 3, 3).value.q == [x[0], x[1], x[2], y[0], y[1], y[2]]
  {
    var shards: seq<seq<int>> := [x, y];
    assert Chunk(x, 1) == [x] && Chunk(y, 1) == [y];
    assert shards[1..] == [y];
    assert ShardChunks(shards[1..][1..], 1) == [];
    assert ShardChunks(shards, 1) == shards;
    var qs: seq<seq<int>> := PartList(shards, 0, 3);
    assert qs == [x[..3], y[..3]];
    assert Concat(qs[1..]) == y[..3] + Concat(qs[1..][1..]);
    assert |qs[1..][1..]| == 0;
    assert x[..3] + y[..3] == [x[0], x[1], x[2], y[0], y[1], y[2]];
  }
}
