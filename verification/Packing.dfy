// Greedy packing of chunks into fixed-size buckets, as both `send_weights`
// methods do it, and what the receivers read back out of a bucket.

module Packing {
  import opened Numbers
  import opened Results
  import opened Weights

  /** The filled part of a buffer and the metadata dictionary in insertion order. */
  datatype Bucket = Bucket(metas: seq<TensorMeta>, data: seq<byte>)

  /** What is announced for one bucket: `buffer` is the whole buffer, stale tail included. */
  datatype Shipment = Shipment(metas: seq<TensorMeta>, buffer: seq<byte>, isLast: bool)

  const EMPTY := Bucket([], [])

  predicate HasName(metas: seq<TensorMeta>, name: string) {
    exists i :: 0 <= i < |metas| && metas[i].name == name
  }

  function Place(b: Bucket, c: Chunk): Bucket {
    Bucket(b.metas + [c.meta.(offset := Some(|b.data|))], b.data + c.data)
  }

  /** The body of the packing loop after a possible flush; the errors are the failed asserts
      and the copy into a slice of another size. */
  function TryPlace(b: Bucket, c: Chunk, bucketSize: nat): Result<Bucket> {
    if |b.data| + c.meta.chunkSize > bucketSize then Err("capacity")
    else if HasName(b.metas, c.meta.name) then Err("name in bucket")
    else if |c.data| != c.meta.chunkSize then Err("slice size")
    else Ok(Place(b, c))
  }

  function Overflows(b: Bucket, c: Chunk, bucketSize: nat): bool {
    |b.data| + c.meta.chunkSize > bucketSize
  }

  /** The buckets still to be shipped when `cur` is being filled and `cs` remain. */
  function PackFrom(cur: Bucket, cs: seq<Chunk>, bucketSize: nat): Result<seq<Bucket>>
    decreases |cs|
  {
    if cs == [] then Ok([cur])
    else if Overflows(cur, cs[0], bucketSize) then
      var next :- TryPlace(EMPTY, cs[0], bucketSize);
      var rest :- PackFrom(next, cs[1..], bucketSize);
      Ok([cur] + rest)
    else
      var next :- TryPlace(cur, cs[0], bucketSize);
      PackFrom(next, cs[1..], bucketSize)
  }

  function Pack(cs: seq<Chunk>, bucketSize: nat): Result<seq<Bucket>> {
    PackFrom(EMPTY, cs, bucketSize)
  }

  // ---------- the sender's loop over two alternating buffers ----------

  ghost predicate Carries(s: Shipment, b: Bucket, bucketSize: nat) {
    s.metas == b.metas && |s.buffer| == bucketSize && b.data <= s.buffer
  }

  ghost predicate AllCarry(ships: seq<Shipment>, bs: seq<Bucket>, bucketSize: nat) {
    |ships| == |bs| && forall i :: 0 <= i < |bs| ==> Carries(ships[i], bs[i], bucketSize)
  }

  /** The shipments made so far carry `done`, and `done` followed by the rest is the whole packing. */
  ghost predicate OnTrack(goal: Result<seq<Bucket>>, done: seq<Bucket>, cur: Bucket, cs: seq<Chunk>, bucketSize: nat) {
    match PackFrom(cur, cs, bucketSize)
    case Ok(rest) => goal == Ok(done + rest)
    case Err(e) => goal == Err(e)
  }

  lemma {:induction false} OnTrackStep(goal: Result<seq<Bucket>>, done: seq<Bucket>, cur: Bucket, cs: seq<Chunk>,
                                       bucketSize: nat)
    requires cs != [] && OnTrack(goal, done, cur, cs, bucketSize)
    ensures var over := Overflows(cur, cs[0], bucketSize);
            var step := TryPlace(if over then EMPTY else cur, cs[0], bucketSize);
            if step.Err? then goal == Err(step.error)
            else OnTrack(goal, if over then done + [cur] else done, step.value, cs[1..], bucketSize)
  {
    var over := Overflows(cur, cs[0], bucketSize);
    var step := TryPlace(if over then EMPTY else cur, cs[0], bucketSize);
    if over && step.Ok? {
      var tail := PackFrom(step.value, cs[1..], bucketSize);
      if tail.Ok? {
        AppendAssoc(done, [cur], tail.value);
      }
    }
  }

  /** `send_weights` with every wait returning: what is shipped, bucket by bucket. */
  method ShipChunks(cs: seq<Chunk>, bufA: array<byte>, bufB: array<byte>, bucketSize: nat)
    returns (r: Result<seq<Shipment>>)
    requires bufA != bufB && bufA.Length == bufB.Length == bucketSize
    modifies bufA, bufB
    ensures r.Err? ==> Pack(cs, bucketSize) == Err(r.error)
    ensures r.Ok? ==> Pack(cs, bucketSize).Ok? && AllCarry(r.value, Pack(cs, bucketSize).value, bucketSize)
    ensures r.Ok? ==> forall i :: 0 <= i < |r.value| ==> (r.value[i].isLast <==> i == |r.value| - 1)
  {
    var sendBuf, recvBuf := bufA, bufB;
    var metas: seq<TensorMeta> := [];
    var offset: nat := 0;
    var ships: seq<Shipment> := [];
    ghost var done: seq<Bucket>, cur := [], EMPTY;
    ghost var goal := Pack(cs, bucketSize);
    assert cs[0..] == cs;
    assert forall rest: seq<Bucket> :: done + rest == rest;
    for i := 0 to |cs|
      invariant sendBuf != recvBuf && {sendBuf, recvBuf} == {bufA, bufB}
      invariant metas == cur.metas && offset == |cur.data| <= bucketSize
      invariant sendBuf[..offset] == cur.data
      invariant AllCarry(ships, done, bucketSize)
      invariant forall j :: 0 <= j < |ships| ==> !ships[j].isLast
      invariant OnTrack(goal, done, cur, cs[i..], bucketSize)
    {
      OnTrackStep(goal, done, cur, cs[i..], bucketSize);
      assert cs[i..][1..] == cs[i + 1..];
      var m, data := cs[i].meta, cs[i].data;
      if offset + m.chunkSize > bucketSize {
        ships := ships + [Shipment(metas, sendBuf[..], false)];
        done, cur := done + [cur], EMPTY;
        sendBuf, recvBuf := recvBuf, sendBuf;
        metas := [];
        offset := 0;
      }
      if offset + m.chunkSize > bucketSize {
        return Err("capacity");
      }
      if HasName(metas, m.name) {
        return Err("name in bucket");
      }
      if |data| != m.chunkSize {
        return Err("slice size");
      }
      metas := metas + [m.(offset := Some(offset))];
      WriteSlice(sendBuf, offset, data);
      assert sendBuf[..offset + m.chunkSize] == cur.data + data;
      offset := offset + m.chunkSize;
      cur := Place(cur, cs[i]);
    }
    ships := ships + [Shipment(metas, sendBuf[..], true)];
    assert goal == Ok(done + [cur]);
    return Ok(ships);
  }

  // ---------- what a receiver reads out of a bucket ----------

  /** Python's slice, which clips at the end. */
  function Slice(s: seq<byte>, lo: nat, hi: nat): seq<byte> {
    var h := Min(hi, |s|);
    if lo <= h then s[lo..h] else []
  }

  function Start(m: TensorMeta): nat {
    if m.offset.Some? then m.offset.value else 0
  }

  function View(m: TensorMeta, buffer: seq<byte>): Chunk {
    Chunk(m, Slice(buffer, Start(m), Start(m) + m.chunkSize))
  }

  /** The receive loop over one bucket's metadata. */
  function Unpack(metas: seq<TensorMeta>, buffer: seq<byte>): seq<Chunk> {
    seq(|metas|, i requires 0 <= i < |metas| => View(metas[i], buffer))
  }

  function UnpackAll(bs: seq<Bucket>): seq<Chunk> {
    if bs == [] then [] else Unpack(bs[0].metas, bs[0].data) + UnpackAll(bs[1..])
  }

  function Unplaced(c: Chunk): Chunk {
    c.(meta := c.meta.(offset := None))
  }

  function UnplacedAll(cs: seq<Chunk>): seq<Chunk> {
    seq(|cs|, i requires 0 <= i < |cs| => Unplaced(cs[i]))
  }

  function SizeOf(metas: seq<TensorMeta>): nat {
    if metas == [] then 0 else SizeOf(metas[..|metas| - 1]) + metas[|metas| - 1].chunkSize
  }

  /** The chunks of a bucket lie end to end from 0 and fill it exactly. */
  ghost predicate Tiled(b: Bucket) {
    && |b.data| == SizeOf(b.metas)
    && forall i :: 0 <= i < |b.metas| ==> b.metas[i].offset == Some(SizeOf(b.metas[..i]))
  }

  lemma {:induction false} SizeOfMonotone(metas: seq<TensorMeta>, i: nat)
    requires i < |metas|
    ensures SizeOf(metas[..i]) + metas[i].chunkSize <= SizeOf(metas)
  {
    var front := metas[..|metas| - 1];
    if i < |front| {
      SizeOfMonotone(front, i);
      assert front[..i] == metas[..i];
    }
  }

  lemma {:induction false} ViewPrefix(m: TensorMeta, d: seq<byte>, e: seq<byte>)
    requires Start(m) + m.chunkSize <= |d| && d <= e
    ensures View(m, d) == View(m, e)
  {
  }

  /** A receiver reads the same chunks whatever stale bytes follow the filled part. */
  lemma {:induction false} UnpackPrefix(b: Bucket, buffer: seq<byte>)
    requires Tiled(b) && b.data <= buffer
    ensures Unpack(b.metas, buffer) == Unpack(b.metas, b.data)
  {
    forall i | 0 <= i < |b.metas| ensures View(b.metas[i], buffer) == View(b.metas[i], b.data) {
      SizeOfMonotone(b.metas, i);
      ViewPrefix(b.metas[i], b.data, buffer);
    }
  }

  lemma {:induction false} PlaceTiled(b: Bucket, c: Chunk)
    requires Tiled(b) && |c.data| == c.meta.chunkSize
    ensures Tiled(Place(b, c))
  {
    var p := Place(b, c);
    assert p.metas[..|b.metas|] == b.metas;
    forall i | 0 <= i < |b.metas| ensures p.metas[i].offset == Some(SizeOf(p.metas[..i])) {
      assert p.metas[..i] == b.metas[..i];
    }
  }

  lemma {:induction false} PlaceUnpack(b: Bucket, c: Chunk)
    requires Tiled(b) && |c.data| == c.meta.chunkSize
    ensures Unpack(Place(b, c).metas, Place(b, c).data) ==
            Unpack(b.metas, b.data) + [c.(meta := c.meta.(offset := Some(|b.data|)))]
  {
    var p := Place(b, c);
    UnpackPrefix(b, p.data);
    assert p.data[|b.data|..|b.data| + c.meta.chunkSize] == c.data;
  }
}
