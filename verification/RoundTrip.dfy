// What packing and merging promise together: the asserts hold, buckets are
// well filled, and the receiver ends up with the sender's weights.

module RoundTrip {
  import opened Numbers
  import opened Results
  import opened Weights
  import opened Packing

  // ---------- what the splitter guarantees about its chunks ----------

  ghost predicate Fits(cs: seq<Chunk>, bucketSize: nat) {
    forall i :: 0 <= i < |cs| ==> 0 < cs[i].meta.chunkSize <= bucketSize && |cs[i].data| == cs[i].meta.chunkSize
  }

  /** Every chunk that is not the last of its weight fills a bucket. */
  ghost predicate FullUnlessLast(cs: seq<Chunk>, bucketSize: nat) {
    forall i, j :: 0 <= i < j < |cs| && cs[i].meta.name == cs[j].meta.name ==> cs[i].meta.chunkSize == bucketSize
  }

  ghost predicate DistinctNames(ws: seq<Weight>) {
    forall i, j :: 0 <= i < j < |ws| ==> ws[i].name != ws[j].name
  }

  lemma {:induction false} ChunksOfOne(w: Weight, bucketSize: nat, off: nat)
    requires 0 < bucketSize && off <= |w.data|
    ensures var cs := ChunksFrom(w, bucketSize, off);
            Fits(cs, bucketSize) && FullUnlessLast(cs, bucketSize) && forall i :: 0 <= i < |cs| ==> cs[i].meta.name == w.name
    decreases |w.data| - off
  {
    if off < |w.data| {
      var next := off + Min(bucketSize, |w.data| - off);
      ChunksOfOne(w, bucketSize, next);
    }
  }

  lemma {:induction false} SplitChunks(ws: seq<Weight>, bucketSize: nat)
    requires 0 < bucketSize
    ensures var cs := Split(ws, bucketSize);
            Fits(cs, bucketSize) && forall i :: 0 <= i < |cs| ==> exists k :: 0 <= k < |ws| && ws[k].name == cs[i].meta.name
    ensures DistinctNames(ws) ==> FullUnlessLast(Split(ws, bucketSize), bucketSize)
  {
    if ws != [] {
      ChunksOfOne(ws[0], bucketSize, 0);
      SplitChunks(ws[1..], bucketSize);
      var cs, a, b := Split(ws, bucketSize), ChunksFrom(ws[0], bucketSize, 0), Split(ws[1..], bucketSize);
      forall i | 0 <= i < |cs| ensures exists k :: 0 <= k < |ws| && ws[k].name == cs[i].meta.name {
        if i < |a| {
          assert ws[0].name == cs[i].meta.name;
        } else {
          var k :| 0 <= k < |ws[1..]| && ws[1..][k].name == b[i - |a|].meta.name;
          assert ws[k + 1].name == cs[i].meta.name;
        }
      }
    }
  }

  // ---------- the packer's asserts never fail ----------

  ghost predicate Fresh(cur: Bucket, cs: seq<Chunk>, bucketSize: nat) {
    forall i, j :: 0 <= i < |cur.metas| && 0 <= j < |cs| && cur.metas[i].name == cs[j].meta.name ==>
      cur.metas[i].chunkSize == bucketSize
  }

  /** A chunk whose name is in the bucket already finds the bucket full. */
  lemma {:induction false} NoNameTwice(cur: Bucket, cs: seq<Chunk>, bucketSize: nat)
    requires cs != [] && Fits(cs, bucketSize) && Tiled(cur) && Fresh(cur, cs, bucketSize)
    requires !Overflows(cur, cs[0], bucketSize)
    ensures !HasName(cur.metas, cs[0].meta.name)
  {
    forall i | 0 <= i < |cur.metas| ensures cur.metas[i].name != cs[0].meta.name {
      SizeOfMonotone(cur.metas, i);
    }
    hide SizeOf;
  }

  /** Names of the chunks to come stay those of the chunks they continue. */
  lemma {:induction false} FreshAfter(cur: Bucket, cs: seq<Chunk>, bucketSize: nat)
    requires cs != [] && FullUnlessLast(cs, bucketSize) && Fresh(cur, cs, bucketSize)
    ensures Fresh(Place(cur, cs[0]), cs[1..], bucketSize) && FullUnlessLast(cs[1..], bucketSize)
  {
  }

  lemma {:induction false} PackFromOk(cur: Bucket, cs: seq<Chunk>, bucketSize: nat)
    requires Fits(cs, bucketSize) && FullUnlessLast(cs, bucketSize)
    requires Tiled(cur) && Fresh(cur, cs, bucketSize)
    ensures PackFrom(cur, cs, bucketSize).Ok?
    decreases |cs|
  {
    if cs != [] {
      var over := Overflows(cur, cs[0], bucketSize);
      var base := if over then EMPTY else cur;
      assert Tiled(EMPTY) && Fresh(EMPTY, cs, bucketSize);
      assert Fits(cs[1..], bucketSize) && !Overflows(base, cs[0], bucketSize);
      NoNameTwice(base, cs, bucketSize);
      FreshAfter(base, cs, bucketSize);
      PlaceTiled(base, cs[0]);
      hide Tiled, Fresh, FullUnlessLast, HasName, Place;
      PackFromOk(Place(base, cs[0]), cs[1..], bucketSize);
    }
  }

  lemma {:induction false} PackSplitOk(ws: seq<Weight>, bucketSize: nat)
    requires 0 < bucketSize && DistinctNames(ws)
    ensures Pack(Split(ws, bucketSize), bucketSize).Ok?
  {
    SplitChunks(ws, bucketSize);
    PackFromOk(EMPTY, Split(ws, bucketSize), bucketSize);
  }

  // ---------- shape of the buckets ----------

  ghost predicate GoodBucket(b: Bucket, bucketSize: nat) {
    && Tiled(b)
    && |b.data| <= bucketSize
    && forall i, j :: 0 <= i < j < |b.metas| ==> b.metas[i].name != b.metas[j].name
  }

  ghost predicate WellFilled(bs: seq<Bucket>, bucketSize: nat) {
    && (forall i :: 0 <= i < |bs| ==> GoodBucket(bs[i], bucketSize))
    && (forall i :: 0 <= i < |bs| - 1 ==> 0 < |bs[i].data|)
    && (forall i :: 0 <= i < |bs| - 1 ==> |bs[i].data| + |bs[i + 1].data| > bucketSize)
  }

  function Total(bs: seq<Bucket>): nat {
    if bs == [] then 0 else |bs[0].data| + Total(bs[1..])
  }

  lemma {:induction false} PlaceGood(b: Bucket, c: Chunk, bucketSize: nat)
    requires GoodBucket(b, bucketSize) && TryPlace(b, c, bucketSize).Ok?
    ensures GoodBucket(Place(b, c), bucketSize)
  {
    PlaceTiled(b, c);
  }

  lemma {:induction false} WellFilledCons(cur: Bucket, bs: seq<Bucket>, bucketSize: nat)
    requires GoodBucket(cur, bucketSize) && bs != [] && WellFilled(bs, bucketSize)
    requires 0 < |cur.data| && |cur.data| + |bs[0].data| > bucketSize
    ensures WellFilled([cur] + bs, bucketSize)
  {
    hide GoodBucket;
    var all := [cur] + bs;
    forall i | 0 <= i < |all| - 1 ensures 0 < |all[i].data| && |all[i].data| + |all[i + 1].data| > bucketSize {
      assert i > 0 ==> all[i] == bs[i - 1] && all[i + 1] == bs[(i - 1) + 1];
    }
  }

  /** One round of the packing loop that succeeds. */
  lemma {:induction false} PackOne(cur: Bucket, cs: seq<Chunk>, bucketSize: nat)
    requires cs != [] && PackFrom(cur, cs, bucketSize).Ok?
    ensures var over := Overflows(cur, cs[0], bucketSize);
            var base := if over then EMPTY else cur;
            var rest := PackFrom(Place(base, cs[0]), cs[1..], bucketSize);
            && TryPlace(base, cs[0], bucketSize).Ok? && rest.Ok?
            && PackFrom(cur, cs, bucketSize).value == if over then [cur] + rest.value else rest.value
  {
    hide HasName;
  }

  lemma {:induction false} PackFromShape(cur: Bucket, cs: seq<Chunk>, bucketSize: nat)
    requires Fits(cs, bucketSize) && GoodBucket(cur, bucketSize) && PackFrom(cur, cs, bucketSize).Ok?
    ensures var bs := PackFrom(cur, cs, bucketSize).value;
            bs != [] && cur.data <= bs[0].data && WellFilled(bs, bucketSize)
    decreases |cs|
  {
    if cs != [] {
      var over := Overflows(cur, cs[0], bucketSize);
      var base := if over then EMPTY else cur;
      PackOne(cur, cs, bucketSize);
      assert GoodBucket(EMPTY, bucketSize) && Fits(cs[1..], bucketSize);
      assert Place(base, cs[0]).data == base.data + cs[0].data;
      PlaceGood(base, cs[0], bucketSize);
      hide GoodBucket, WellFilled, PackFrom, TryPlace, Place;
      PackFromShape(Place(base, cs[0]), cs[1..], bucketSize);
      if over {
        WellFilledCons(cur, PackFrom(Place(base, cs[0]), cs[1..], bucketSize).value, bucketSize);
      }
    }
  }

  /** Each bucket but the last, with its successor, exceeds one bucket size. */
  lemma {:induction false} CountBound(bs: seq<Bucket>, bucketSize: nat)
    requires bs != []
    requires forall i :: 0 <= i < |bs| - 1 ==> |bs[i].data| + |bs[i + 1].data| > bucketSize
    ensures (|bs| - 1) * bucketSize + |bs[0].data| <= 2 * Total(bs)
  {
    if |bs| >= 2 {
      var rest := bs[1..];
      assert |bs[0].data| + |bs[0 + 1].data| > bucketSize;
      forall i | 0 <= i < |rest| - 1 ensures |rest[i].data| + |rest[i + 1].data| > bucketSize {
        assert rest[i] == bs[i + 1] && rest[i + 1] == bs[(i + 1) + 1];
      }
      CountBound(rest, bucketSize);
      assert (|bs| - 1) * bucketSize == (|rest| - 1) * bucketSize + bucketSize;
    }
  }

  // ---------- contents survive packing ----------

  lemma {:induction false} UnplacedConcat(a: seq<Chunk>, b: seq<Chunk>)
    ensures UnplacedAll(a + b) == UnplacedAll(a) + UnplacedAll(b)
  {
  }

  lemma {:induction false} UnplacedCons(cs: seq<Chunk>)
    requires cs != []
    ensures UnplacedAll(cs) == [Unplaced(cs[0])] + UnplacedAll(cs[1..])
  {
  }

  lemma {:induction false} PlaceContents(b: Bucket, c: Chunk)
    requires Tiled(b) && |c.data| == c.meta.chunkSize
    ensures UnplacedAll(Unpack(Place(b, c).metas, Place(b, c).data)) == UnplacedAll(Unpack(b.metas, b.data)) + [Unplaced(c)]
  {
    PlaceUnpack(b, c);
    var stamped := c.(meta := c.meta.(offset := Some(|b.data|)));
    UnplacedConcat(Unpack(b.metas, b.data), [stamped]);
    assert UnplacedAll([stamped]) == [Unplaced(c)];
  }

  lemma {:induction false} PackFromContents(cur: Bucket, cs: seq<Chunk>, bucketSize: nat)
    requires Fits(cs, bucketSize) && Tiled(cur) && PackFrom(cur, cs, bucketSize).Ok?
    ensures UnplacedAll(UnpackAll(PackFrom(cur, cs, bucketSize).value)) ==
            UnplacedAll(Unpack(cur.metas, cur.data)) + UnplacedAll(cs)
    decreases |cs|, 0
  {
    var bs := PackFrom(cur, cs, bucketSize).value;
    var have := Unpack(cur.metas, cur.data);
    if cs == [] {
      assert UnpackAll(bs) == have + UnpackAll(bs[1..]) == have + [] == have;
      assert UnplacedAll(cs) == [];
      assert UnplacedAll(have) + [] == UnplacedAll(have);
    } else {
      var c := cs[0];
      UnplacedCons(cs);
      if Overflows(cur, c, bucketSize) {
        StepContents(EMPTY, c, cs[1..], bucketSize);
        assert UnplacedAll(Unpack([], [])) + UnplacedAll(cs) == UnplacedAll(cs);
        assert bs[1..] == PackFrom(Place(EMPTY, c), cs[1..], bucketSize).value;
        UnplacedConcat(have, UnpackAll(bs[1..]));
      } else {
        StepContents(cur, c, cs[1..], bucketSize);
      }
    }
  }

  lemma {:induction false} StepContents(base: Bucket, c: Chunk, cs: seq<Chunk>, bucketSize: nat)
    requires Fits(cs, bucketSize) && Tiled(base) && |c.data| == c.meta.chunkSize
    requires PackFrom(Place(base, c), cs, bucketSize).Ok?
    ensures UnplacedAll(UnpackAll(PackFrom(Place(base, c), cs, bucketSize).value)) ==
            UnplacedAll(Unpack(base.metas, base.data)) + ([Unplaced(c)] + UnplacedAll(cs))
    decreases |cs|, 1
  {
    PlaceTiled(base, c);
    PlaceContents(base, c);
    PackFromContents(Place(base, c), cs, bucketSize);
    AppendAssoc(UnplacedAll(Unpack(base.metas, base.data)), [Unplaced(c)], UnplacedAll(cs));
  }

  function ChunkBytes(cs: seq<Chunk>): nat {
    if cs == [] then 0 else |cs[0].data| + ChunkBytes(cs[1..])
  }

  function TotalBytes(ws: seq<Weight>): nat {
    if ws == [] then 0 else |ws[0].data| + TotalBytes(ws[1..])
  }

  lemma {:induction false} ChunkBytesConcat(a: seq<Chunk>, b: seq<Chunk>)
    ensures ChunkBytes(a + b) == ChunkBytes(a) + ChunkBytes(b)
  {
    if a == [] {
      assert a + b == b;
    } else {
      assert (a + b)[1..] == a[1..] + b;
      ChunkBytesConcat(a[1..], b);
    }
  }

  lemma {:induction false} ChunksFromBytes(w: Weight, bucketSize: nat, off: nat)
    requires 0 < bucketSize && off <= |w.data|
    ensures ChunkBytes(ChunksFrom(w, bucketSize, off)) == |w.data| - off
    decreases |w.data| - off
  {
    if off < |w.data| {
      ChunksFromBytes(w, bucketSize, off + Min(bucketSize, |w.data| - off));
    }
  }

  lemma {:induction false} SplitBytes(ws: seq<Weight>, bucketSize: nat)
    requires 0 < bucketSize
    ensures ChunkBytes(Split(ws, bucketSize)) == TotalBytes(ws)
  {
    if ws != [] {
      ChunksFromBytes(ws[0], bucketSize, 0);
      SplitBytes(ws[1..], bucketSize);
      ChunkBytesConcat(ChunksFrom(ws[0], bucketSize, 0), Split(ws[1..], bucketSize));
    }
  }

  lemma {:induction false} PackFromBytes(cur: Bucket, cs: seq<Chunk>, bucketSize: nat)
    requires PackFrom(cur, cs, bucketSize).Ok?
    ensures Total(PackFrom(cur, cs, bucketSize).value) == |cur.data| + ChunkBytes(cs)
    decreases |cs|
  {
    if cs != [] {
      var over := Overflows(cur, cs[0], bucketSize);
      PackFromBytes(Place(if over then EMPTY else cur, cs[0]), cs[1..], bucketSize);
    }
  }

  /** Packing the chunks of distinctly named weights: no assert fails, the buckets are tiled and well
      filled, nothing is lost, and there are at most 2 * total / bucketSize + 1 of them. */
  lemma {:induction false} PackingBound(ws: seq<Weight>, bucketSize: nat)
    requires 0 < bucketSize && DistinctNames(ws)
    ensures var packed := Pack(Split(ws, bucketSize), bucketSize);
            && packed.Ok?
            && WellFilled(packed.value, bucketSize)
            && Total(packed.value) == TotalBytes(ws)
            && 1 <= |packed.value| <= 2 * TotalBytes(ws) / bucketSize + 1
  {
    var cs := Split(ws, bucketSize);
    SplitChunks(ws, bucketSize);
    PackSplitOk(ws, bucketSize);
    PackFromShape(EMPTY, cs, bucketSize);
    PackFromBytes(EMPTY, cs, bucketSize);
    SplitBytes(ws, bucketSize);
    var bs := Pack(cs, bucketSize).value;
    CountBound(bs, bucketSize);
    DivBound(|bs| - 1, bucketSize, 2 * TotalBytes(ws));
  }

  lemma {:induction false} MulMonotone(a: int, b: int, d: nat)
    ensures a <= b ==> a * d <= b * d
  {
  }

  lemma {:induction false} DivBound(q: nat, d: nat, n: nat)
    requires 0 < d && q * d <= n
    ensures q <= n / d
  {
    assert n == d * (n / d) + n % d;
    MulMonotone(n / d + 1, q, d);
  }

  // ---------- merging undoes splitting ----------

  lemma {:induction false} MergeIgnoresOffsets(p: Partial, cs: seq<Chunk>, bucketSize: nat, junk: byte)
    ensures MergeFrom(p, UnplacedAll(cs), bucketSize, junk) == MergeFrom(p, cs, bucketSize, junk)
    decreases |cs|
  {
    if cs != [] {
      assert UnplacedAll(cs)[1..] == UnplacedAll(cs[1..]);
      var step := MergeStep(p, cs[0], bucketSize, junk);
      assert step == MergeStep(p, UnplacedAll(cs)[0], bucketSize, junk);
      if step.Ok? {
        MergeIgnoresOffsets(step.value.0, cs[1..], bucketSize, junk);
      }
    }
  }

  /** A weight larger than a bucket: `off` bytes are in the merge buffer, its remaining chunks follow. */
  lemma {:induction false} MergeLarge(w: Weight, buffer: seq<byte>, off: nat, rest: seq<Chunk>, bucketSize: nat,
                                      junk: byte)
    requires w.Valid() && 0 < bucketSize < |w.data|
    requires off < |w.data| == |buffer| && buffer[..off] == w.data[..off]
    ensures MergeFrom(Partial(w.name, w.shape, w.itemSize, buffer, off), ChunksFrom(w, bucketSize, off) + rest,
                      bucketSize, junk)
            == Owed([w], Nothing, rest, bucketSize, junk)
    decreases |w.data| - off
  {
    var p := Partial(w.name, w.shape, w.itemSize, buffer, off);
    var c := ChunkAt(w, bucketSize, off);
    var end := off + c.meta.chunkSize;
    var cs := ChunksFrom(w, bucketSize, off) + rest;
    assert cs[0] == c && cs[1..] == ChunksFrom(w, bucketSize, end) + rest;
    var buffer' := buffer[..off] + c.data + buffer[end..];
    assert buffer'[..end] == w.data[..end];
    if end == |w.data| {
      assert buffer' == w.data;
      assert MergeStep(p, c, bucketSize, junk) == Ok((Nothing, [w]));
      assert cs[1..] == rest;
    } else {
      MergeLarge(w, buffer', end, rest, bucketSize, junk);
      assert MergeStep(p, c, bucketSize, junk) == Ok((p.(buffer := buffer', offset := end), []));
      var tail := MergeFrom(p.(buffer := buffer', offset := end), cs[1..], bucketSize, junk);
      assert tail.Ok? ==> [] + tail.value == tail.value;
    }
  }

  lemma {:induction false} MergeOne(w: Weight, rest: seq<Chunk>, bucketSize: nat, junk: byte)
    requires w.Valid() && 0 < bucketSize && w.data != []
    ensures MergeFrom(Nothing, ChunksFrom(w, bucketSize, 0) + rest, bucketSize, junk)
            == Owed([w], Nothing, rest, bucketSize, junk)
  {
    var c := ChunkAt(w, bucketSize, 0);
    var cs := ChunksFrom(w, bucketSize, 0) + rest;
    var blank := seq(|w.data|, _ => junk);
    if |w.data| <= bucketSize {
      assert c.data == w.data;
      assert ChunksFrom(w, bucketSize, 0) == [c];
      assert cs[0] == c && cs[1..] == rest;
    } else {
      MergeLarge(w, blank, 0, rest, bucketSize, junk);
      assert cs[0] == c;
      var p := Partial(w.name, w.shape, w.itemSize, blank, 0);
      assert MergeStep(p, c, bucketSize, junk) == MergeStep(Nothing, c, bucketSize, junk);
    }
  }

  /** The weights that have at least one byte. */
  function NonEmpty(ws: seq<Weight>): seq<Weight> {
    if ws == [] then [] else (if ws[0].data == [] then [] else [ws[0]]) + NonEmpty(ws[1..])
  }

  lemma {:induction false} NonEmptyIsAll(ws: seq<Weight>)
    ensures |NonEmpty(ws)| <= |ws|
    ensures NonEmpty(ws) == ws <==> forall i :: 0 <= i < |ws| ==> ws[i].data != []
  {
    if ws != [] {
      NonEmptyIsAll(ws[1..]);
      assert ws == [ws[0]] + ws[1..];
      if ws[0].data != [] && (forall i :: 0 <= i < |ws[1..]| ==> ws[1..][i].data != []) {
        forall i | 0 <= i < |ws| ensures ws[i].data != [] {
          assert i > 0 ==> ws[i] == ws[1..][i - 1];
        }
      }
      if NonEmpty(ws) == ws {
        assert ws[0].data != [];
        assert NonEmpty(ws)[1..] == NonEmpty(ws[1..]);
      }
      assert forall i :: 0 <= i < |ws[1..]| ==> ws[1..][i] == ws[i + 1];
    }
  }

  lemma {:induction false} MergeSplit(ws: seq<Weight>, bucketSize: nat, junk: byte)
    requires 0 < bucketSize && forall i :: 0 <= i < |ws| ==> ws[i].Valid()
    ensures Merge(Split(ws, bucketSize), bucketSize, junk) == Ok(NonEmpty(ws))
  {
    if ws != [] {
      MergeSplit(ws[1..], bucketSize, junk);
      if ws[0].data == [] {
        assert [] + Split(ws[1..], bucketSize) == Split(ws[1..], bucketSize);
        assert [] + NonEmpty(ws[1..]) == NonEmpty(ws[1..]);
      } else {
        MergeOne(ws[0], Split(ws[1..], bucketSize), bucketSize, junk);
      }
    }
  }

  /** The receiver's merge over everything unpacked from the buckets: the sender's weights, in order,
      whatever the bucket size. Weights without bytes produce no chunk and are not delivered, and
      they are the only ones: the round trip is exact if and only if there are none. */
  lemma {:induction false} WeightRoundTrip(ws: seq<Weight>, bucketSize: nat, junk: byte)
    requires 0 < bucketSize && DistinctNames(ws) && forall i :: 0 <= i < |ws| ==> ws[i].Valid()
    ensures var packed := Pack(Split(ws, bucketSize), bucketSize);
            && packed.Ok?
            && Merge(UnpackAll(packed.value), bucketSize, junk) == Ok(NonEmpty(ws))
            && (Merge(UnpackAll(packed.value), bucketSize, junk) == Ok(ws) <==>
                forall i :: 0 <= i < |ws| ==> ws[i].data != [])
  {
    var cs := Split(ws, bucketSize);
    SplitChunks(ws, bucketSize);
    PackSplitOk(ws, bucketSize);
    var got := UnpackAll(Pack(cs, bucketSize).value);
    PackFromContents(EMPTY, cs, bucketSize);
    assert UnplacedAll(Unpack(EMPTY.metas, EMPTY.data)) + UnplacedAll(cs) == UnplacedAll(cs);
    MergeIgnoresOffsets(Nothing, got, bucketSize, junk);
    MergeIgnoresOffsets(Nothing, cs, bucketSize, junk);
    MergeSplit(ws, bucketSize, junk);
    NonEmptyIsAll(ws);
  }

  // ---------- from the buffers that were really shipped ----------

  function ReceiveAll(ships: seq<Shipment>): seq<Chunk> {
    if ships == [] then [] else Unpack(ships[0].metas, ships[0].buffer) + ReceiveAll(ships[1..])
  }

  /** Stale bytes left in a reused buffer never reach the receiver's stream. */
  lemma {:induction false} ReceiveShipped(ships: seq<Shipment>, bs: seq<Bucket>, bucketSize: nat)
    requires AllCarry(ships, bs, bucketSize) && forall i :: 0 <= i < |bs| ==> Tiled(bs[i])
    ensures ReceiveAll(ships) == UnpackAll(bs)
  {
    if bs != [] {
      assert Carries(ships[0], bs[0], bucketSize);
      UnpackPrefix(bs[0], ships[0].buffer);
      ReceiveShipped(ships[1..], bs[1..], bucketSize);
    }
  }

  /** Sender and receiver put together: split, pack through two reused buffers, unpack, merge. */
  method Transfer(ws: seq<Weight>, bufA: array<byte>, bufB: array<byte>, bucketSize: nat, junk: byte)
    returns (r: Result<seq<Weight>>)
    requires 0 < bucketSize && DistinctNames(ws) && forall i :: 0 <= i < |ws| ==> ws[i].Valid()
    requires bufA != bufB && bufA.Length == bufB.Length == bucketSize
    modifies bufA, bufB
    ensures r == Ok(NonEmpty(ws))
  {
    var chunks := SplitWeightChunks(ws, bucketSize);
    PackingBound(ws, bucketSize);
    var shipped := ShipChunks(chunks, bufA, bufB, bucketSize);
    ReceiveShipped(shipped.value, Pack(chunks, bucketSize).value, bucketSize);
    WeightRoundTrip(ws, bucketSize, junk);
    r := MergeWeightChunks(ReceiveAll(shipped.value), bucketSize, junk);
  }
}
