// Splitting named weights into byte chunks of at most one bucket, and merging
// such chunks back (verl/verl/checkpoint_engine/base.py).

module Results {
  datatype Option<+T> = None | Some(value: T)

  datatype Result<+T> = Ok(value: T) | Err(error: string) {
    predicate IsFailure() {
      Err?
    }

    function PropagateFailure<U>(): Result<U>
      requires Err?
    {
      Err(error)
    }

    function Extract(): T
      requires Ok?
    {
      value
    }
  }
}

module Weights {
  import opened Numbers
  import opened Results

  newtype byte = b: int | 0 <= b < 256

  /** A named tensor in row order: `data` is its flat storage. */
  datatype Weight = Weight(name: string, shape: seq<nat>, itemSize: nat, data: seq<byte>) {
    ghost predicate Valid() {
      |data| == NBytes(shape, itemSize)
    }
  }

  /** `offset` is unset until the chunk is given its place in a bucket. */
  datatype TensorMeta = TensorMeta(
    name: string, shape: seq<nat>, itemSize: nat,
    chunkOffset: nat, chunkSize: nat, offset: Option<nat>)

  datatype Chunk = Chunk(meta: TensorMeta, data: seq<byte>)

  function Numel(shape: seq<nat>): nat {
    if shape == [] then 1 else shape[0] * Numel(shape[1..])
  }

  /** The number of elements is the product of the dimensions, whatever their order. */
  lemma {:induction false} NumelOfParts(a: seq<nat>, n: nat, b: seq<nat>)
    ensures Numel(a + b) == Numel(a) * Numel(b) && Numel([n]) == n && Numel([]) == 1
    ensures Numel(a + [n] + b) == n * Numel(a + b)
  {
    assert [n][1..] == [];
    NumelConcat(a, b);
    NumelConcat(a, [n]);
    NumelConcat(a + [n], b);
    Rotate(Numel(a), n, Numel(b));
  }

  lemma {:induction false} NumelConcat(a: seq<nat>, b: seq<nat>)
    ensures Numel(a + b) == Numel(a) * Numel(b)
  {
    if a == [] {
      assert a + b == b;
    } else {
      NumelConcat(a[1..], b);
      assert (a + b)[1..] == a[1..] + b;
      Rotate(1, a[0], Numel(a[1..]));
      assert a[0] * (Numel(a[1..]) * Numel(b)) == (a[0] * Numel(a[1..])) * Numel(b);
    }
  }

  lemma {:induction false} Rotate(x: nat, y: nat, z: nat)
    ensures (x * y) * z == y * (x * z)
  {
  }

  function NBytes(shape: seq<nat>, itemSize: nat): nat {
    Numel(shape) * itemSize
  }

  // ---------- splitting ----------

  function ChunkAt(w: Weight, bucketSize: nat, off: nat): Chunk
    requires off <= |w.data|
  {
    var size := Min(bucketSize, |w.data| - off);
    Chunk(TensorMeta(w.name, w.shape, w.itemSize, off, size, None), w.data[off..off + size])
  }

  function ChunksFrom(w: Weight, bucketSize: nat, off: nat): seq<Chunk>
    requires 0 < bucketSize
    requires off <= |w.data|
    decreases |w.data| - off
  {
    if off == |w.data| then []
    else [ChunkAt(w, bucketSize, off)] + ChunksFrom(w, bucketSize, off + Min(bucketSize, |w.data| - off))
  }

  /** The chunk stream of a list of weights. */
  function Split(ws: seq<Weight>, bucketSize: nat): seq<Chunk>
    requires 0 < bucketSize
  {
    if ws == [] then [] else ChunksFrom(ws[0], bucketSize, 0) + Split(ws[1..], bucketSize)
  }

  lemma {:induction false} ChunksStep(w: Weight, bucketSize: nat, off: nat)
    requires 0 < bucketSize && off < |w.data|
    ensures ChunksFrom(w, bucketSize, off) ==
            [ChunkAt(w, bucketSize, off)] + ChunksFrom(w, bucketSize, off + Min(bucketSize, |w.data| - off))
  {
  }

  /** The inner loop: the chunks of one weight. */
  method SplitWeight(w: Weight, bucketSize: nat) returns (chunks: seq<Chunk>)
    requires 0 < bucketSize
    ensures chunks == ChunksFrom(w, bucketSize, 0)
  {
    chunks := [];
    var chunkOffset := 0;
    while chunkOffset < |w.data|
      invariant chunkOffset <= |w.data|
      invariant chunks + ChunksFrom(w, bucketSize, chunkOffset) == ChunksFrom(w, bucketSize, 0)
    {
      ChunksStep(w, bucketSize, chunkOffset);
      hide ChunksFrom;
      var chunkSize := Min(bucketSize, |w.data| - chunkOffset);
      var chunk := Chunk(
        TensorMeta(w.name, w.shape, w.itemSize, chunkOffset, chunkSize, None),
        w.data[chunkOffset..chunkOffset + chunkSize]);
      assert chunk == ChunkAt(w, bucketSize, chunkOffset);
      hide ChunkAt;
      AppendAssoc(chunks, [chunk], ChunksFrom(w, bucketSize, chunkOffset + chunkSize));
      chunks := chunks + [chunk];
      chunkOffset := chunkOffset + chunkSize;
    }
  }

  /** The whole generator, run to the end. */
  method SplitWeightChunks(ws: seq<Weight>, bucketSize: nat) returns (chunks: seq<Chunk>)
    requires 0 < bucketSize
    ensures chunks == Split(ws, bucketSize)
  {
    chunks := [];
    for i := 0 to |ws|
      invariant chunks + Split(ws[i..], bucketSize) == Split(ws, bucketSize)
    {
      var part := SplitWeight(ws[i], bucketSize);
      assert ws[i..][1..] == ws[i + 1..];
      AppendAssoc(chunks, part, Split(ws[i + 1..], bucketSize));
      chunks := chunks + part;
    }
  }

  lemma {:induction false} AppendAssoc<T>(a: seq<T>, b: seq<T>, c: seq<T>)
    ensures a + (b + c) == (a + b) + c
  {
  }

  // ---------- merging ----------

  /** A weight larger than one bucket that has been received in part. */
  datatype Partial = Nothing | Partial(name: string, shape: seq<nat>, itemSize: nat, buffer: seq<byte>, offset: nat)

  /** One round of the merge loop: the new partial weight and what is yielded.
      `junk` stands for the contents of freshly allocated memory. */
  function MergeStep(p: Partial, c: Chunk, bucketSize: nat, junk: byte): Result<(Partial, seq<Weight>)> {
    var m := c.meta;
    var nbytes := NBytes(m.shape, m.itemSize);
    if nbytes <= bucketSize then
      if p.Partial? then Err("Weight must be None")
      else if |c.data| != nbytes then Err("view size")
      else Ok((Nothing, [Weight(m.name, m.shape, m.itemSize, c.data)]))
    else if p.Nothing? && m.chunkOffset != 0 then Err("Chunk offset must be 0")
    else
      var q := if p.Nothing? then Partial(m.name, m.shape, m.itemSize, seq(nbytes, _ => junk), 0) else p;
      if m.name != q.name then Err("name")
      else if q.offset != m.chunkOffset then Err("offset")
      else if |c.data| != m.chunkSize || |q.buffer| < m.chunkOffset + m.chunkSize then Err("slice size")
      else
        var end := m.chunkOffset + m.chunkSize;
        var buffer := q.buffer[..m.chunkOffset] + c.data + q.buffer[end..];
        if end == nbytes then Ok((Nothing, [Weight(q.name, q.shape, q.itemSize, buffer)]))
        else Ok((q.(buffer := buffer, offset := q.offset + m.chunkSize), []))
  }

  function MergeFrom(p: Partial, cs: seq<Chunk>, bucketSize: nat, junk: byte): Result<seq<Weight>>
    decreases |cs|
  {
    if cs == [] then Ok([])
    else
      var (q, out) :- MergeStep(p, cs[0], bucketSize, junk);
      var rest :- MergeFrom(q, cs[1..], bucketSize, junk);
      Ok(out + rest)
  }

  function Merge(cs: seq<Chunk>, bucketSize: nat, junk: byte): Result<seq<Weight>> {
    MergeFrom(Nothing, cs, bucketSize, junk)
  }

  /** What the loop still owes: the weights yielded so far, then those of the remaining chunks. */
  ghost function Owed(out: seq<Weight>, p: Partial, cs: seq<Chunk>, bucketSize: nat, junk: byte): Result<seq<Weight>> {
    match MergeFrom(p, cs, bucketSize, junk)
    case Ok(rest) => Ok(out + rest)
    case Err(e) => Err(e)
  }

  lemma {:induction false} OwedStep(out: seq<Weight>, p: Partial, cs: seq<Chunk>, bucketSize: nat, junk: byte)
    requires cs != []
    ensures var step := MergeStep(p, cs[0], bucketSize, junk);
            Owed(out, p, cs, bucketSize, junk) ==
            if step.Err? then Err(step.error) else Owed(out + step.value.1, step.value.0, cs[1..], bucketSize, junk)
  {
    var step := MergeStep(p, cs[0], bucketSize, junk);
    if step.Ok? {
      var tail := MergeFrom(step.value.0, cs[1..], bucketSize, junk);
      if tail.Ok? {
        AppendAssoc(out, step.value.1, tail.value);
      }
    }
  }

  lemma {:induction false} OwedEnds(out: seq<Weight>, p: Partial, cs: seq<Chunk>, bucketSize: nat, junk: byte)
    ensures Owed([], Nothing, cs, bucketSize, junk) == Merge(cs, bucketSize, junk)
    ensures Owed(out, p, [], bucketSize, junk) == Ok(out)
  {
    assert out + [] == out;
    var all := Merge(cs, bucketSize, junk);
    assert all.Ok? ==> [] + all.value == all.value;
  }

  /** `buffer[off : off + len(data)] = data` */
  method WriteSlice(buffer: array<byte>, off: nat, data: seq<byte>)
    requires off + |data| <= buffer.Length
    modifies buffer
    ensures buffer[..] == old(buffer[..off]) + data + old(buffer[off + |data|..])
  {
    forall k | 0 <= k < |data| {
      buffer[off + k] := data[k];
    }
  }

  /** `torch.empty`: freshly allocated memory. */
  method Empty(nbytes: nat, junk: byte) returns (buffer: array<byte>)
    ensures fresh(buffer) && buffer[..] == seq(nbytes, _ => junk)
  {
    buffer := new byte[nbytes](_ => junk);
  }

  /** The merge generator, its partly filled buffer updated in place. */
  method MergeWeightChunks(cs: seq<Chunk>, bucketSize: nat, junk: byte) returns (r: Result<seq<Weight>>)
    ensures r == Merge(cs, bucketSize, junk)
  {
    var out: seq<Weight> := [];
    var active, mergeName, mergeShape, mergeItem := false, "", [], 0;
    var mergeOffset: nat := 0;
    var mergeBuffer := new byte[0];
    ghost var p := Nothing;
    assert cs[0..] == cs;
    OwedEnds(out, p, cs, bucketSize, junk);
    hide Owed, Merge, MergeFrom, NBytes;
    for i := 0 to |cs|
      invariant fresh(mergeBuffer)
      invariant p == if active then Partial(mergeName, mergeShape, mergeItem, mergeBuffer[..], mergeOffset) else Nothing
      invariant Merge(cs, bucketSize, junk) == Owed(out, p, cs[i..], bucketSize, junk)
    {
      OwedStep(out, p, cs[i..], bucketSize, junk);
      assert cs[i..][1..] == cs[i + 1..];
      var m, data := cs[i].meta, cs[i].data;
      var nbytes := NBytes(m.shape, m.itemSize);
      if nbytes <= bucketSize {
        if active {
          return Err("Weight must be None");
        }
        if |data| != nbytes {
          return Err("view size");
        }
        out := out + [Weight(m.name, m.shape, m.itemSize, data)];
        continue;
      }
      if !active {
        if m.chunkOffset != 0 {
          return Err("Chunk offset must be 0");
        }
        active, mergeName, mergeShape, mergeItem := true, m.name, m.shape, m.itemSize;
        mergeBuffer := Empty(nbytes, junk);
        mergeOffset := 0;
      }
      if m.name != mergeName {
        return Err("name");
      }
      if mergeOffset != m.chunkOffset {
        return Err("offset");
      }
      if |data| != m.chunkSize || mergeBuffer.Length < m.chunkOffset + m.chunkSize {
        return Err("slice size");
      }
      WriteSlice(mergeBuffer, m.chunkOffset, data);
      mergeOffset := mergeOffset + m.chunkSize;
      if m.chunkOffset + m.chunkSize == nbytes {
        out := out + [Weight(mergeName, mergeShape, mergeItem, mergeBuffer[..])];
        active := false;
        p := Nothing;
      } else {
        assert out + [] == out;
        p := Partial(mergeName, mergeShape, mergeItem, mergeBuffer[..], mergeOffset);
      }
    }
    OwedEnds(out, p, cs, bucketSize, junk);
    return Ok(out);
  }
}
