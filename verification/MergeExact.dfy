// Which chunk streams merge, and into what (verl/verl/checkpoint_engine/base.py):
// the asserts of the merge loop let through exactly the streams that are put
// together from whole weights.

module MergeExact {
  import opened Results
  import opened Weights

  function Size(c: Chunk): nat {
    NBytes(c.meta.shape, c.meta.itemSize)
  }

  /** The chunk's last byte is the last one of its weight. */
  predicate Ends(c: Chunk) {
    c.meta.chunkOffset + c.meta.chunkSize == Size(c)
  }

  function Data(run: seq<Chunk>): seq<byte> {
    if run == [] then [] else Data(run[..|run| - 1]) + run[|run| - 1].data
  }

  /** Chunks of one name that do not fit a bucket as a whole, each starting where the one before ended, within the
      size announced first. */
  ghost predicate Consecutive(run: seq<Chunk>, bucketSize: nat) {
    run == [] ||
    (var front, c := run[..|run| - 1], run[|run| - 1];
     && Consecutive(front, bucketSize) && Size(c) > bucketSize && c.meta.name == run[0].meta.name
     && c.meta.chunkOffset == |Data(front)| && |c.data| == c.meta.chunkSize && |Data(run)| <= Size(run[0]))
  }

  ghost predicate Open(run: seq<Chunk>, bucketSize: nat) {
    Consecutive(run, bucketSize) && forall c :: c in run ==> !Ends(c)
  }

  /** The weight put together from a run of chunks; memory they did not reach holds what it held. */
  function Assembled(run: seq<Chunk>, junk: byte): Weight
    requires run != [] && |Data(run)| <= Size(run[0])
  {
    var m := run[0].meta;
    Weight(m.name, m.shape, m.itemSize, Data(run) + seq(Size(run[0]) - |Data(run)|, _ => junk))
  }

  /** The chunks make up one weight that does not fit a bucket. */
  ghost predicate Whole(run: seq<Chunk>, w: Weight, bucketSize: nat, junk: byte) {
    && run != [] && Consecutive(run, bucketSize)
    && Open(run[..|run| - 1], bucketSize) && Ends(run[|run| - 1]) && w == Assembled(run, junk)
  }

  /** The chunks are one, a weight that fits a bucket. */
  predicate Single(run: seq<Chunk>, w: Weight, bucketSize: nat) {
    && |run| == 1 && Size(run[0]) <= bucketSize && |run[0].data| == Size(run[0])
    && w == Weight(run[0].meta.name, run[0].meta.shape, run[0].meta.itemSize, run[0].data)
  }

  /** The stream is the chunks of these weights, one weight after the other, and then part of one more at most. */
  ghost predicate PutTogether(cs: seq<Chunk>, ws: seq<Weight>, bucketSize: nat, junk: byte)
    decreases |ws|
  {
    if ws == [] then Open(cs, bucketSize)
    else
      exists n: nat ::
        && n <= |cs| && (Single(cs[..n], ws[0], bucketSize) || Whole(cs[..n], ws[0], bucketSize, junk))
        && PutTogether(cs[n..], ws[1..], bucketSize, junk)
  }

  // ---------- the loop's state after an unfinished run ----------

  function Pending(run: seq<Chunk>, junk: byte): Partial
    requires run != [] ==> |Data(run)| <= Size(run[0])
  {
    if run == [] then Nothing
    else
      var w := Assembled(run, junk);
      Partial(w.name, w.shape, w.itemSize, w.data, |Data(run)|)
  }

  lemma {:induction false} DataAppend(run: seq<Chunk>, c: Chunk)
    ensures Data(run + [c]) == Data(run) + c.data
  {
    assert (run + [c])[..|run|] == run;
  }

  lemma {:induction false} RunFits(run: seq<Chunk>, bucketSize: nat)
    requires Consecutive(run, bucketSize)
    ensures run != [] ==> |Data(run)| <= Size(run[0])
  {
  }

  lemma {:induction false} ConsecutiveAppend(run: seq<Chunk>, c: Chunk, bucketSize: nat)
    requires Consecutive(run, bucketSize)
    ensures Consecutive(run + [c], bucketSize) <==>
            && Size(c) > bucketSize && c.meta.name == (run + [c])[0].meta.name
            && c.meta.chunkOffset == |Data(run)| && |c.data| == c.meta.chunkSize
            && |Data(run)| + |c.data| <= Size((run + [c])[0])
  {
    DataAppend(run, c);
    assert (run + [c])[..|run|] == run;
  }

  lemma {:induction false} OpenAppend(run: seq<Chunk>, c: Chunk, bucketSize: nat)
    requires Open(run, bucketSize) && Consecutive(run + [c], bucketSize) && !Ends(c)
    ensures Open(run + [c], bucketSize)
  {
    hide Consecutive, Ends;
  }

  /** Writing the next chunk behind the part that has been filled. */
  lemma {:induction false} FillMore(run: seq<Chunk>, c: Chunk, size: nat, junk: byte)
    requires |Data(run)| + |c.data| <= size
    ensures var buffer := Data(run) + seq(size - |Data(run)|, _ => junk);
            var end := |Data(run)| + |c.data|;
            && |buffer| == size && |Data(run + [c])| == end
            && buffer[..|Data(run)|] + c.data + buffer[end..] == Data(run + [c]) + seq(size - end, _ => junk)
  {
    DataAppend(run, c);
  }

  /** What one round makes of a run: a weight, or one that is pending. */
  function Outcome(run: seq<Chunk>, junk: byte): (Partial, seq<Weight>)
    requires run != [] && |Data(run)| <= Size(run[0])
  {
    if Ends(run[|run| - 1]) then (Nothing, [Assembled(run, junk)]) else (Pending(run, junk), [])
  }

  /** One round with a chunk of a large weight goes through exactly if the chunk continues the run; then it completes
      the weight or leaves it pending. */
  lemma {:induction false} LargeStep(run: seq<Chunk>, c: Chunk, bucketSize: nat, junk: byte)
    requires Open(run, bucketSize) && (run != [] ==> |Data(run)| <= Size(run[0])) && Size(c) > bucketSize
    ensures MergeStep(Pending(run, junk), c, bucketSize, junk).Ok? <==> Consecutive(run + [c], bucketSize)
    ensures Consecutive(run + [c], bucketSize) ==>
              && |Data(run + [c])| <= Size((run + [c])[0])
              && MergeStep(Pending(run, junk), c, bucketSize, junk) == Ok(Outcome(run + [c], junk))
  {
    ConsecutiveAppend(run, c, bucketSize);
    DataAppend(run, c);
    var size := Size((run + [c])[0]);
    if |Data(run)| + |c.data| <= size {
      FillMore(run, c, size, junk);
    }
    if run == [] {
      assert Data(run) == [];
      assert [] + seq(size, _ => junk) == seq(size, _ => junk);
    }
    hide Data, Consecutive, Open;
  }

  lemma {:induction false} MergeFromStep(p: Partial, c: Chunk, rest: seq<Chunk>, bucketSize: nat, junk: byte)
    ensures var step := MergeStep(p, c, bucketSize, junk);
            MergeFrom(p, [c] + rest, bucketSize, junk) ==
            if step.Err? then Err(step.error) else Owed(step.value.1, step.value.0, rest, bucketSize, junk)
  {
    assert ([c] + rest)[1..] == rest;
    hide MergeStep;
  }

  /** An unfinished run leaves its weight pending. */
  lemma {:induction false} OpenMerges(run: seq<Chunk>, rest: seq<Chunk>, bucketSize: nat, junk: byte)
    requires Open(run, bucketSize)
    ensures run != [] ==> |Data(run)| <= Size(run[0])
    ensures MergeFrom(Nothing, run + rest, bucketSize, junk) == MergeFrom(Pending(run, junk), rest, bucketSize, junk)
  {
    RunFits(run, bucketSize);
    if run == [] {
      assert run + rest == rest;
    } else {
      var front, c := run[..|run| - 1], run[|run| - 1];
      assert run == front + [c] && c in run;
      assert Open(front, bucketSize) && Size(c) > bucketSize;
      OpenMerges(front, [c] + rest, bucketSize, junk);
      assert run + rest == front + ([c] + rest);
      LargeStep(front, c, bucketSize, junk);
      MergeFromStep(Pending(front, junk), c, rest, bucketSize, junk);
      hide MergeFrom, MergeStep, Pending, Assembled, Open, Consecutive;
      NothingYielded(Pending(run, junk), rest, bucketSize, junk);
    }
  }

  lemma {:induction false} NothingYielded(p: Partial, rest: seq<Chunk>, bucketSize: nat, junk: byte)
    ensures Owed([], p, rest, bucketSize, junk) == MergeFrom(p, rest, bucketSize, junk)
  {
    var all := MergeFrom(p, rest, bucketSize, junk);
    assert all.Ok? ==> [] + all.value == all.value;
  }

  lemma {:induction false} WholeMerges(run: seq<Chunk>, w: Weight, rest: seq<Chunk>, bucketSize: nat, junk: byte)
    requires Whole(run, w, bucketSize, junk)
    ensures MergeFrom(Nothing, run + rest, bucketSize, junk) == Owed([w], Nothing, rest, bucketSize, junk)
  {
    var front, c := run[..|run| - 1], run[|run| - 1];
    assert run == front + [c] && run + rest == front + ([c] + rest);
    OpenMerges(front, [c] + rest, bucketSize, junk);
    assert Size(c) > bucketSize;
    LargeStep(front, c, bucketSize, junk);
    MergeFromStep(Pending(front, junk), c, rest, bucketSize, junk);
    hide MergeFrom, MergeStep, Pending, Assembled, Open, Consecutive, Owed;
  }

  lemma {:induction false} SingleMerges(run: seq<Chunk>, w: Weight, rest: seq<Chunk>, bucketSize: nat, junk: byte)
    requires Single(run, w, bucketSize)
    ensures MergeFrom(Nothing, run + rest, bucketSize, junk) == Owed([w], Nothing, rest, bucketSize, junk)
  {
    assert run == [run[0]];
    MergeFromStep(Nothing, run[0], rest, bucketSize, junk);
    hide MergeFrom, Owed;
  }

  lemma {:induction false} PutTogetherMerges(cs: seq<Chunk>, ws: seq<Weight>, bucketSize: nat, junk: byte)
    requires PutTogether(cs, ws, bucketSize, junk)
    ensures MergeFrom(Nothing, cs, bucketSize, junk) == Ok(ws)
    decreases |ws|
  {
    hide Whole, Single, Open;
    if ws == [] {
      OpenMerges(cs, [], bucketSize, junk);
      assert cs + [] == cs;
    } else {
      var n: nat :| && n <= |cs| && (Single(cs[..n], ws[0], bucketSize) || Whole(cs[..n], ws[0], bucketSize, junk))
                    && PutTogether(cs[n..], ws[1..], bucketSize, junk);
      hide MergeFrom, PutTogether;
      assert cs == cs[..n] + cs[n..] && ws == [ws[0]] + ws[1..];
      PutTogetherMerges(cs[n..], ws[1..], bucketSize, junk);
      if Single(cs[..n], ws[0], bucketSize) {
        SingleMerges(cs[..n], ws[0], cs[n..], bucketSize, junk);
      } else {
        WholeMerges(cs[..n], ws[0], cs[n..], bucketSize, junk);
      }
    }
  }

  lemma {:induction false} OneMore(run: seq<Chunk>, rest: seq<Chunk>, w: Weight, ws: seq<Weight>, bucketSize: nat,
                                   junk: byte)
    requires Single(run, w, bucketSize) || Whole(run, w, bucketSize, junk)
    requires PutTogether(rest, ws, bucketSize, junk)
    ensures PutTogether(run + rest, [w] + ws, bucketSize, junk)
  {
    var cs, all, n := run + rest, [w] + ws, |run|;
    assert cs[..n] == run && cs[n..] == rest && all[1..] == ws;
    hide Whole, Single;
  }

  lemma {:induction false} LastOfWhole(run: seq<Chunk>, c: Chunk, bucketSize: nat, junk: byte)
    requires Open(run, bucketSize) && Consecutive(run + [c], bucketSize) && Ends(c)
    requires |Data(run + [c])| <= Size((run + [c])[0])
    ensures Whole(run + [c], Assembled(run + [c], junk), bucketSize, junk)
  {
    assert (run + [c])[..|run|] == run;
    hide Consecutive, Open;
  }

  lemma {:induction false} FromNothing()
    ensures forall junk :: Pending([], junk) == Nothing
    ensures forall bucketSize :: Open([], bucketSize)
  {
  }

  lemma {:induction false} FirstYielded(w: Weight, p: Partial, rest: seq<Chunk>, ws: seq<Weight>, bucketSize: nat,
                                        junk: byte)
    requires Owed([w], p, rest, bucketSize, junk) == Ok(ws)
    ensures ws != [] && ws[0] == w && MergeFrom(p, rest, bucketSize, junk) == Ok(ws[1..])
  {
    hide MergeFrom;
  }

  /** The chunk completes a weight, which is the next one yielded. */
  ghost predicate Completes(run: seq<Chunk>, rest: seq<Chunk>, ws: seq<Weight>, bucketSize: nat, junk: byte) {
    && ws != [] && (Single(run, ws[0], bucketSize) || Whole(run, ws[0], bucketSize, junk))
    && MergeFrom(Nothing, rest, bucketSize, junk) == Ok(ws[1..])
  }

  /** The chunk leaves the run open, and what is yielded comes from the rest. */
  ghost predicate Continues(run: seq<Chunk>, rest: seq<Chunk>, ws: seq<Weight>, bucketSize: nat, junk: byte) {
    && Open(run, bucketSize) && (run != [] ==> |Data(run)| <= Size(run[0]))
    && MergeFrom(Pending(run, junk), rest, bucketSize, junk) == Ok(ws)
  }

  lemma {:induction false} SmallRound(run: seq<Chunk>, c: Chunk, rest: seq<Chunk>, ws: seq<Weight>, bucketSize: nat,
                                      junk: byte)
    requires Continues(run, [c] + rest, ws, bucketSize, junk) && Size(c) <= bucketSize
    ensures Completes(run + [c], rest, ws, bucketSize, junk)
  {
    MergeFromStep(Pending(run, junk), c, rest, bucketSize, junk);
    hide MergeFrom, Owed, Open;
    assert run == [];
    assert run + [c] == [c];
    FirstYielded(Weight(c.meta.name, c.meta.shape, c.meta.itemSize, c.data), Nothing, rest, ws, bucketSize, junk);
  }

  lemma {:induction false} LargeRound(run: seq<Chunk>, c: Chunk, rest: seq<Chunk>, ws: seq<Weight>, bucketSize: nat,
                                      junk: byte)
    requires Continues(run, [c] + rest, ws, bucketSize, junk) && Size(c) > bucketSize
    ensures Completes(run + [c], rest, ws, bucketSize, junk) || Continues(run + [c], rest, ws, bucketSize, junk)
  {
    MergeFromStep(Pending(run, junk), c, rest, bucketSize, junk);
    LargeStep(run, c, bucketSize, junk);
    hide MergeFrom, MergeStep, Owed, Open, Whole, Consecutive, Pending, Assembled, Data;
    if Ends(c) {
      LastOfWhole(run, c, bucketSize, junk);
      FirstYielded(Assembled(run + [c], junk), Nothing, rest, ws, bucketSize, junk);
    } else {
      OpenAppend(run, c, bucketSize);
      NothingYielded(Pending(run + [c], junk), rest, bucketSize, junk);
    }
  }

  lemma {:induction false} NothingLeft(run: seq<Chunk>, ws: seq<Weight>, bucketSize: nat, junk: byte)
    requires Continues(run, [], ws, bucketSize, junk)
    ensures PutTogether(run, ws, bucketSize, junk)
  {
    hide Open, Pending;
  }

  lemma {:induction false} NextWeight(run: seq<Chunk>, rest: seq<Chunk>, ws: seq<Weight>, bucketSize: nat, junk: byte)
    requires Completes(run, rest, ws, bucketSize, junk)
    ensures ws != [] && Continues([], rest, ws[1..], bucketSize, junk)
    ensures PutTogether(rest, ws[1..], bucketSize, junk) ==> PutTogether(run + rest, ws, bucketSize, junk)
  {
    FromNothing();
    hide MergeFrom, PutTogether, Pending, Open, Single, Whole;
    if PutTogether(rest, ws[1..], bucketSize, junk) {
      assert ws == [ws[0]] + ws[1..];
      OneMore(run, rest, ws[0], ws[1..], bucketSize, junk);
    }
  }

  lemma {:induction false} MergedIsPutTogether(run: seq<Chunk>, cs: seq<Chunk>, ws: seq<Weight>, bucketSize: nat,
                                               junk: byte)
    requires Continues(run, cs, ws, bucketSize, junk)
    ensures PutTogether(run + cs, ws, bucketSize, junk)
    decreases |cs|
  {
    hide Continues, Completes, PutTogether;
    if cs == [] {
      assert run + cs == run;
      NothingLeft(run, ws, bucketSize, junk);
    } else {
      var c, rest := cs[0], cs[1..];
      assert cs == [c] + rest && run + cs == (run + [c]) + rest;
      if Size(c) <= bucketSize {
        SmallRound(run, c, rest, ws, bucketSize, junk);
      } else {
        LargeRound(run, c, rest, ws, bucketSize, junk);
      }
      if Completes(run + [c], rest, ws, bucketSize, junk) {
        NextWeight(run + [c], rest, ws, bucketSize, junk);
        MergedIsPutTogether([], rest, ws[1..], bucketSize, junk);
        assert [] + rest == rest;
      } else {
        MergedIsPutTogether(run + [c], rest, ws, bucketSize, junk);
      }
    }
  }

  /** A stream merges into these weights if and only if it is put together from them: no stream that is not passes the
      asserts, none that is fails one, and nothing is yielded that was not sent. */
  lemma {:induction false} MergesExactly(cs: seq<Chunk>, ws: seq<Weight>, bucketSize: nat, junk: byte)
    ensures Merge(cs, bucketSize, junk) == Ok(ws) <==> PutTogether(cs, ws, bucketSize, junk)
  {
    hide PutTogether, MergeFrom, Open;
    if PutTogether(cs, ws, bucketSize, junk) {
      PutTogetherMerges(cs, ws, bucketSize, junk);
    }
    if Merge(cs, bucketSize, junk) == Ok(ws) {
      FromNothing();
      assert [] + cs == cs;
      MergedIsPutTogether([], cs, ws, bucketSize, junk);
    }
  }

  /** A stream that breaks off inside a weight yields nothing for it, and no error. */
  lemma {:induction false} UnfinishedIsDropped(c: Chunk, bucketSize: nat, junk: byte)
    requires Size(c) > bucketSize && c.meta.chunkOffset == 0 && |c.data| == c.meta.chunkSize < Size(c)
    ensures Merge([c], bucketSize, junk) == Ok([])
  {
    OneChunkRun(c, bucketSize);
    MergesExactly([c], [], bucketSize, junk);
    hide Merge, Consecutive;
  }

  lemma {:induction false} OneChunkRun(c: Chunk, bucketSize: nat)
    requires Size(c) > bucketSize && c.meta.chunkOffset == 0 && |c.data| == c.meta.chunkSize < Size(c)
    ensures Open([c], bucketSize) && Data([c]) == c.data
  {
    assert [c][..0] == [];
    DataAppend([], c);
    assert [] + [c] == [c];
  }

  /** A later chunk that announces a smaller shape ends the weight there: the rest of it is whatever memory held. */
  lemma {:induction false} SmallerShapeEndsEarly(c: Chunk, e: Chunk, bucketSize: nat, junk: byte)
    requires Size(c) > bucketSize && c.meta.chunkOffset == 0 && |c.data| == c.meta.chunkSize < Size(c)
    requires Size(e) > bucketSize && e.meta.name == c.meta.name && e.meta.chunkOffset == |c.data|
    requires |e.data| == e.meta.chunkSize && |c.data| + |e.data| == Size(e) < Size(c)
    ensures var w := Weight(c.meta.name, c.meta.shape, c.meta.itemSize,
                            c.data + e.data + seq(Size(c) - Size(e), _ => junk));
            Merge([c, e], bucketSize, junk) == Ok([w])
  {
    OneChunkRun(c, bucketSize);
    var run := [c] + [e];
    assert run == [c, e] && run[..1] == [c] && run[..2] == run && run[2..] == [];
    ConsecutiveAppend([c], e, bucketSize);
    DataAppend([c], e);
    var w := Assembled(run, junk);
    assert Whole(run, w, bucketSize, junk);
    assert PutTogether([], [], bucketSize, junk);
    OneMore(run, [], w, [], bucketSize, junk);
    assert run + [] == run && [w] + [] == [w];
    MergesExactly([c, e], [w], bucketSize, junk);
    hide Merge, PutTogether, Consecutive, Data;
  }
}
