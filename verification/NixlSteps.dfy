// Every step of every rank keeps the invariant of the chain.

module NixlSteps {
  import opened Results
  import opened Weights
  import opened Packing
  import opened NixlChain
  import opened NixlInvariant

  /** Only rank r and its two links changed. */
  ghost predicate LocalChange(c: Config, s: State, t: State, r: nat)
    requires Shaped(c, s) && r < c.ranks
  {
    && |t.ranks| == |s.ranks| && |t.msgs| == |s.msgs| && |t.notes| == |s.notes|
    && (forall q :: 0 <= q < c.ranks && q != r ==> t.ranks[q] == s.ranks[q])
    && (forall q :: 0 <= q < c.ranks - 1 && q != r && q + 1 != r ==> t.msgs[q] == s.msgs[q] && t.notes[q] == s.notes[q])
  }

  lemma {:induction false} Reassemble(c: Config, s: State, t: State, r: nat)
    requires ValidConfig(c) && Inv(c, s) && r < c.ranks && LocalChange(c, s, t, r)
    requires ShapedRank(c, t.ranks[r]) && RankInv(c, t.ranks[r], r)
    requires r > 0 ==> LinkInv(c, s.ranks[r - 1], t.ranks[r], t.msgs[r - 1], t.notes[r - 1])
    requires r + 1 < c.ranks ==> LinkInv(c, t.ranks[r], s.ranks[r + 1], t.msgs[r], t.notes[r])
    ensures Inv(c, t)
  {
    hide LinkInv, RankInv, ShapedRank;
    forall q | 0 <= q < c.ranks - 1 ensures LinkInv(c, t.ranks[q], t.ranks[q + 1], t.msgs[q], t.notes[q]) {
      if q != r && q + 1 != r {
        assert LinkInv(c, s.ranks[q], s.ranks[q + 1], s.msgs[q], s.notes[q]);
      }
    }
  }

  lemma {:induction false} UpFrame(c: Config, up: Rank, up': Rank, down: Rank, msgs: seq<Msg>, notes: seq<nat>)
    requires ValidConfig(c) && ShapedRank(c, up) && ShapedRank(c, up') && ShapedRank(c, down)
    requires LinkInv(c, up, down, msgs, notes)
    requires up'.ann == up.ann && up'.fin == up.fin && up'.out == up.out
    requires up.fin < up.ann ==> up'.bufs[up.out] == up.bufs[up.out]
    ensures LinkInv(c, up', down, msgs, notes)
  {
  }

  lemma {:induction false} DownFrame(c: Config, up: Rank, down: Rank, down': Rank, msgs: seq<Msg>, notes: seq<nat>)
    requires ValidConfig(c) && ShapedRank(c, up) && ShapedRank(c, down) && ShapedRank(c, down')
    requires LinkInv(c, up, down, msgs, notes)
    requires down'.rd == down.rd && down'.cp == down.cp && down'.xfer == down.xfer
    requires down.xfer.InFlight? ==> down'.bufs[down.xfer.dst] == down.bufs[down.xfer.dst]
    ensures LinkInv(c, up, down', msgs, notes)
  {
  }

  // ---------- the sender ----------

  lemma {:induction false} SuffixStep(bs: seq<Bucket>, k: nat, head: Bucket, tail: seq<Bucket>)
    requires k <= |bs| && bs[k..] == [head] + tail
    ensures k < |bs| && bs[k] == head && bs[k + 1..] == tail
  {
  }

  lemma {:induction false} PutKeeps(c: Config, x: Rank)
    requires ValidConfig(c) && ShapedRank(c, x) && SenderInv(c, x)
    requires x.pc.Placing? || (x.pc.Fill? && !FlushDue(c, x))
    ensures var y := Put(c, x);
            && ShapedRank(c, y) && SenderInv(c, y)
            && y.ann == x.ann && y.fin == x.fin && y.out == x.out
            && (x.fin < x.ann ==> y.bufs[x.out] == x.bufs[x.out])
  {
    var b, ch := Filling(x), x.rest[0];
    var y := Put(c, x);
    assert TryPlace(b, ch, c.bucketSize).Ok?;
    assert |b.data| == x.offset && |ch.data| == ch.meta.chunkSize;
    assert y.pc.Fill?;
    assert y.bufs[y.sendIx][..y.offset] == b.data + ch.data;
    assert Filling(y) == Place(b, ch);
  }

  lemma {:induction false} ShipKeeps(c: Config, x: Rank, y: Rank)
    requires ValidConfig(c) && ShapedRank(c, x) && SenderInv(c, x) && FlushDue(c, x) && x.pending.None?
    requires y == if x.rest == [] then Announced(x).(pc := Drain)
                  else Announced(x).(pc := Placing, sendIx := 1 - x.sendIx, metas := [], offset := 0)
    ensures ShapedRank(c, y) && SenderInv(c, y)
    ensures x.ann < |Plan(c)| && IsMeta(c, x.ann, x.metas, x.rest == [])
  {
    var b := Filling(x);
    if x.rest == [] {
      SuffixStep(Plan(c), x.ann, b, []);
      assert Plan(c)[x.ann + 1..] == [];
    } else {
      assert Filling(y) == EMPTY;
      var step := TryPlace(EMPTY, x.rest[0], c.bucketSize);
      var tail := PackFrom(step.value, x.rest[1..], c.bucketSize);
      PackTail(step.value, x.rest[1..], c.bucketSize);
      SuffixStep(Plan(c), x.ann, b, tail.value);
    }
  }

  lemma {:induction false} PackTail(cur: Bucket, cs: seq<Chunk>, bucketSize: nat)
    requires PackFrom(cur, cs, bucketSize).Ok?
    ensures PackFrom(cur, cs, bucketSize).value != []
    decreases |cs|
  {
    if cs != [] && !Overflows(cur, cs[0], bucketSize) {
      PackTail(TryPlace(cur, cs[0], bucketSize).value, cs[1..], bucketSize);
    }
  }

  lemma {:induction false} ShipLink(c: Config, x: Rank, y: Rank, down: Rank, msgs: seq<Msg>, notes: seq<nat>)
    requires ValidConfig(c) && ShapedRank(c, x) && ShapedRank(c, y) && ShapedRank(c, down)
    requires OutInv(c, x) && x.pending.None? && LinkInv(c, x, down, msgs, notes)
    requires y.ann == x.ann + 1 && y.fin == x.fin && y.out == x.sendIx
    requires IsMeta(c, x.ann, x.metas, x.rest == [])
    ensures LinkInv(c, y, down, msgs + [Msg(x.sendIx, x.metas, x.rest == [], x.ann)], notes)
  {
  }

  /** A completion notice carries the key of the one pending operation: the key assert holds. */
  lemma {:induction false} ConfirmLink(c: Config, x: Rank, down: Rank, msgs: seq<Msg>, notes: seq<nat>, next: Pc)
    requires ValidConfig(c) && ShapedRank(c, x) && ShapedRank(c, down)
    requires OutInv(c, x) && LinkInv(c, x, down, msgs, notes) && notes != [] && !next.Placing?
    ensures var y := Confirmed(x, notes[0], next);
            && x.fin + 1 == x.ann && y == x.(pc := next, pending := None, fin := x.ann)
            && ShapedRank(c, y) && OutInv(c, y) && LinkInv(c, y, down, msgs, notes[1..])
  {
  }

  lemma {:induction false} Unfold(c: Config, s: State, r: nat)
    requires ValidConfig(c) && Inv(c, s) && r < c.ranks
    ensures ShapedRank(c, s.ranks[r]) && RankInv(c, s.ranks[r], r)
    ensures r > 0 ==> ShapedRank(c, s.ranks[r - 1]) && LinkInv(c, s.ranks[r - 1], s.ranks[r], s.msgs[r - 1], s.notes[r - 1])
    ensures r + 1 < c.ranks ==> ShapedRank(c, s.ranks[r + 1]) && LinkInv(c, s.ranks[r], s.ranks[r + 1], s.msgs[r], s.notes[r])
  {
  }

  lemma {:induction false} PutStep(c: Config, s: State)
    requires ValidConfig(c) && Inv(c, s) && Enabled(c, s, 0, PutChunk)
    ensures Inv(c, Apply(c, s, 0, PutChunk))
  {
    hide LinkInv;
    var t := Apply(c, s, 0, PutChunk);
    Unfold(c, s, 0);
    PutKeeps(c, s.ranks[0]);
    UpFrame(c, s.ranks[0], t.ranks[0], s.ranks[1], s.msgs[0], s.notes[0]);
    Reassemble(c, s, t, 0);
  }

  lemma {:induction false} ShipStep(c: Config, s: State)
    requires ValidConfig(c) && Inv(c, s) && Enabled(c, s, 0, Ship)
    ensures Inv(c, Apply(c, s, 0, Ship))
  {
    hide LinkInv;
    var t := Apply(c, s, 0, Ship);
    Unfold(c, s, 0);
    ShipKeeps(c, s.ranks[0], t.ranks[0]);
    ShipLink(c, s.ranks[0], t.ranks[0], s.ranks[1], s.msgs[0], s.notes[0]);
    Reassemble(c, s, t, 0);
  }

  lemma {:induction false} ConfirmStep(c: Config, s: State)
    requires ValidConfig(c) && Inv(c, s) && Enabled(c, s, 0, Confirm)
    ensures Inv(c, Apply(c, s, 0, Confirm))
  {
    hide LinkInv;
    var t := Apply(c, s, 0, Confirm);
    var x := s.ranks[0];
    Unfold(c, s, 0);
    ConfirmLink(c, x, s.ranks[1], s.msgs[0], s.notes[0], if x.pc.Drain? then Done else x.pc);
    Reassemble(c, s, t, 0);
  }

  // ---------- the receivers ----------

  lemma {:induction false} RankOut(c: Config, x: Rank, r: nat)
    requires ValidConfig(c) && ShapedRank(c, x) && RankInv(c, x, r)
    ensures OutInv(c, x)
  {
  }

  lemma {:induction false} AsReceiver(c: Config, x: Rank, r: nat)
    requires ValidConfig(c) && ShapedRank(c, x) && 0 < r
    ensures RankInv(c, x, r) <==> ReceiverInv(c, x, HasNext(c, r))
  {
  }

  lemma {:induction false} UnpackIndex(c: Config, k: nat, j: nat, buf: seq<byte>)
    requires ValidConfig(c) && k < |Plan(c)| && j < |Plan(c)[k].metas| && Holds(buf, Plan(c)[k])
    ensures View(Plan(c)[k].metas[j], buf) == Unpack(Plan(c)[k].metas, Plan(c)[k].data)[j]
  {
    PlanShape(c);
    UnpackPrefix(Plan(c)[k], buf);
    assert View(Plan(c)[k].metas[j], buf) == Unpack(Plan(c)[k].metas, buf)[j];
  }

  lemma {:induction false} ReadKeeps(c: Config, x: Rank, y: Rank, up: Rank, msgs: seq<Msg>, notes: seq<nat>,
                                     hasNext: bool)
    requires ValidConfig(c) && ShapedRank(c, x) && ShapedRank(c, up) && ReceiverInv(c, x, hasNext)
    requires LinkInv(c, up, x, msgs, notes) && msgs != [] && (x.pc.First? || x.pc.Fetch?)
    requires y == x.(pc := if x.pc.First? then AwaitRead else Yielding(0),
                     nextMetas := msgs[0].metas, nextLast := msgs[0].isLast,
                     xfer := InFlight(msgs[0].buf, 1 - x.sendIx, msgs[0].key, {}), rd := x.rd + 1)
    ensures ShapedRank(c, y) && ReceiverInv(c, y, hasNext) && LinkInv(c, up, y, msgs[1..], notes)
  {
    if x.pc.Fetch? {
      YieldedNone(c, x.got, x.metas, x.isLast, x.bufs[x.sendIx]);
    }
  }

  lemma {:induction false} ReadStep(c: Config, s: State, r: nat)
    requires ValidConfig(c) && Inv(c, s) && Enabled(c, s, r, Read)
    ensures Inv(c, Apply(c, s, r, Read))
  {
    hide LinkInv, RankInv, ReceiverInv, ShapedRank, OutInv;
    var t := Apply(c, s, r, Read);
    var x, y := s.ranks[r], t.ranks[r];
    Unfold(c, s, r);
    AsReceiver(c, x, r);
    ReadKeeps(c, x, y, s.ranks[r - 1], s.msgs[r - 1], s.notes[r - 1], HasNext(c, r));
    if r + 1 < c.ranks {
      UpFrame(c, x, y, s.ranks[r + 1], s.msgs[r], s.notes[r]);
    }
    AsReceiver(c, y, r);
    Reassemble(c, s, t, r);
  }

  lemma {:induction false} YieldedNone(c: Config, got: nat, metas: seq<TensorMeta>, isLast: bool, buf: seq<byte>)
    requires ValidConfig(c) && HasCurrent(c, got, metas, isLast, buf)
    ensures YieldedUpTo(c, got, metas, Delivered(c, got - 1), 0)
  {
    var all := Unpack(Plan(c)[got - 1].metas, Plan(c)[got - 1].data);
    assert Delivered(c, got - 1) + all[..0] == Delivered(c, got - 1);
  }

  lemma {:induction false} AnnounceKeeps(c: Config, x: Rank, hasNext: bool)
    requires ValidConfig(c) && ShapedRank(c, x) && ReceiverInv(c, x, hasNext) && x.pc.Top?
    ensures var z := x.(pc := if x.isLast then LastYield(0) else Fetch);
            var y := if hasNext then Announced(z) else z;
            ShapedRank(c, y) && ReceiverInv(c, y, hasNext)
  {
    YieldedNone(c, x.got, x.metas, x.isLast, x.bufs[x.sendIx]);
  }

  lemma {:induction false} AnnounceLink(c: Config, x: Rank, y: Rank, down: Rank, msgs: seq<Msg>, notes: seq<nat>)
    requires ValidConfig(c) && ShapedRank(c, x) && ShapedRank(c, y) && ShapedRank(c, down)
    requires ReceiverInv(c, x, true) && x.pc.Top? && LinkInv(c, x, down, msgs, notes)
    requires y.ann == x.ann + 1 && y.fin == x.fin && y.out == x.sendIx
    ensures LinkInv(c, y, down, msgs + [Msg(x.sendIx, x.metas, x.isLast, x.ann)], notes)
  {
  }

  lemma {:induction false} AnnounceStep(c: Config, s: State, r: nat)
    requires ValidConfig(c) && Inv(c, s) && Enabled(c, s, r, Announce)
    ensures Inv(c, Apply(c, s, r, Announce))
  {
    hide LinkInv, RankInv, ReceiverInv, ShapedRank, OutInv;
    var t := Apply(c, s, r, Announce);
    var x, y := s.ranks[r], t.ranks[r];
    Unfold(c, s, r);
    AsReceiver(c, x, r);
    AnnounceKeeps(c, x, HasNext(c, r));
    DownFrame(c, s.ranks[r - 1], x, y, s.msgs[r - 1], s.notes[r - 1]);
    if r + 1 < c.ranks {
      AnnounceLink(c, x, y, s.ranks[r + 1], s.msgs[r], s.notes[r]);
    }
    AsReceiver(c, y, r);
    Reassemble(c, s, t, r);
  }

  /** The next chunk yielded is the next chunk of the sender's stream. */
  lemma {:induction false} YieldedOneMore(c: Config, got: nat, metas: seq<TensorMeta>, isLast: bool, buf: seq<byte>,
                                          yielded: seq<Chunk>, j: nat)
    requires ValidConfig(c) && HasCurrent(c, got, metas, isLast, buf)
    requires YieldedUpTo(c, got, metas, yielded, j) && j < |metas|
    ensures YieldedUpTo(c, got, metas, yielded + [View(metas[j], buf)], j + 1)
  {
    var k := got - 1;
    UnpackIndex(c, k, j, buf);
    var all := Unpack(Plan(c)[k].metas, Plan(c)[k].data);
    assert all[..j + 1] == all[..j] + [all[j]];
    AppendAssoc(Delivered(c, k), all[..j], [all[j]]);
  }

  lemma {:induction false} YieldedAll(c: Config, got: nat, metas: seq<TensorMeta>, yielded: seq<Chunk>)
    requires ValidConfig(c) && YieldedUpTo(c, got, metas, yielded, |metas|)
    ensures yielded == Delivered(c, got)
  {
    var all := Unpack(Plan(c)[got - 1].metas, Plan(c)[got - 1].data);
    assert all[..|all|] == all;
  }

  lemma {:induction false} YieldKeeps(c: Config, x: Rank, hasNext: bool)
    requires ValidConfig(c) && ShapedRank(c, x) && ReceiverInv(c, x, hasNext)
    requires (x.pc.Yielding? || x.pc.LastYield?) && x.pc.j < |x.metas|
    ensures var pc := if x.pc.Yielding? then Yielding(x.pc.j + 1) else LastYield(x.pc.j + 1);
            var y := x.(pc := pc, yielded := x.yielded + [View(x.metas[x.pc.j], x.bufs[x.sendIx])]);
            ShapedRank(c, y) && ReceiverInv(c, y, hasNext)
  {
    hide View, YieldedUpTo, Holds, IsMeta;
    YieldedOneMore(c, x.got, x.metas, x.isLast, x.bufs[x.sendIx], x.yielded, x.pc.j);
  }

  lemma {:induction false} YieldStep(c: Config, s: State, r: nat)
    requires ValidConfig(c) && Inv(c, s) && Enabled(c, s, r, YieldOne)
    ensures Inv(c, Apply(c, s, r, YieldOne))
  {
    hide LinkInv, RankInv, ReceiverInv, ShapedRank, OutInv;
    var t := Apply(c, s, r, YieldOne);
    var x, y := s.ranks[r], t.ranks[r];
    Unfold(c, s, r);
    AsReceiver(c, x, r);
    YieldKeeps(c, x, HasNext(c, r));
    DownFrame(c, s.ranks[r - 1], x, y, s.msgs[r - 1], s.notes[r - 1]);
    if r + 1 < c.ranks {
      UpFrame(c, x, y, s.ranks[r + 1], s.msgs[r], s.notes[r]);
    }
    AsReceiver(c, y, r);
    Reassemble(c, s, t, r);
  }

  lemma {:induction false} EndYieldKeeps(c: Config, x: Rank, hasNext: bool)
    requires ValidConfig(c) && ShapedRank(c, x) && ReceiverInv(c, x, hasNext)
    requires (x.pc.Yielding? || x.pc.LastYield?) && x.pc.j == |x.metas|
    ensures hasNext <==> x.pending.Some?
    ensures var y := x.(pc := if x.pc.Yielding? then AwaitRead else Done, pending := None, fin := x.ann);
            ShapedRank(c, y) && ReceiverInv(c, y, hasNext)
  {
    YieldedAll(c, x.got, x.metas, x.yielded);
  }

  lemma {:induction false} EndYieldStep(c: Config, s: State, r: nat)
    requires ValidConfig(c) && Inv(c, s) && Enabled(c, s, r, EndYield)
    ensures Inv(c, Apply(c, s, r, EndYield))
  {
    hide LinkInv, RankInv, ReceiverInv, ShapedRank, OutInv;
    var t := Apply(c, s, r, EndYield);
    var x, y := s.ranks[r], t.ranks[r];
    Unfold(c, s, r);
    AsReceiver(c, x, r);
    EndYieldKeeps(c, x, HasNext(c, r));
    RankOut(c, x, r);
    if r + 1 < c.ranks {
      ConfirmLink(c, x, s.ranks[r + 1], s.msgs[r], s.notes[r], if x.pc.Yielding? then AwaitRead else Done);
    }
    DownFrame(c, s.ranks[r - 1], x, y, s.msgs[r - 1], s.notes[r - 1]);
    AsReceiver(c, y, r);
    Reassemble(c, s, t, r);
  }

  lemma {:induction false} EndReadKeeps(c: Config, x: Rank, hasNext: bool)
    requires ValidConfig(c) && ShapedRank(c, x) && ReceiverInv(c, x, hasNext)
    requires x.pc.AwaitRead? && x.xfer.Idle?
    ensures var y := x.(pc := Top, metas := x.nextMetas, isLast := x.nextLast, sendIx := 1 - x.sendIx, got := x.got + 1);
            ShapedRank(c, y) && ReceiverInv(c, y, hasNext)
  {
  }

  lemma {:induction false} EndReadStep(c: Config, s: State, r: nat)
    requires ValidConfig(c) && Inv(c, s) && Enabled(c, s, r, EndRead)
    ensures Inv(c, Apply(c, s, r, EndRead))
  {
    hide LinkInv, RankInv, ReceiverInv, ShapedRank, OutInv;
    var t := Apply(c, s, r, EndRead);
    var x, y := s.ranks[r], t.ranks[r];
    Unfold(c, s, r);
    AsReceiver(c, x, r);
    EndReadKeeps(c, x, HasNext(c, r));
    DownFrame(c, s.ranks[r - 1], x, y, s.msgs[r - 1], s.notes[r - 1]);
    if r + 1 < c.ranks {
      UpFrame(c, x, y, s.ranks[r + 1], s.msgs[r], s.notes[r]);
    }
    AsReceiver(c, y, r);
    Reassemble(c, s, t, r);
  }

  // ---------- the transfer ----------

  /** A read writes the other buffer than the one its rank announces and yields from. */
  lemma {:induction false} CopyKeeps(c: Config, x: Rank, i: nat, b: byte, hasNext: bool)
    requires ValidConfig(c) && ShapedRank(c, x) && ReceiverInv(c, x, hasNext)
    requires x.xfer.InFlight? && i < c.bucketSize
    ensures var y := x.(bufs := x.bufs[x.xfer.dst := x.bufs[x.xfer.dst][i := b]],
                        xfer := x.xfer.(copied := x.xfer.copied + {i}));
            ShapedRank(c, y) && ReceiverInv(c, y, hasNext) && (x.fin < x.ann ==> y.bufs[x.out] == x.bufs[x.out])
  {
  }

  lemma {:induction false} CopyLink(c: Config, up: Rank, x: Rank, i: nat, msgs: seq<Msg>, notes: seq<nat>)
    requires ValidConfig(c) && ShapedRank(c, up) && ShapedRank(c, x)
    requires LinkInv(c, up, x, msgs, notes) && x.xfer.InFlight? && i < c.bucketSize
    ensures var y := x.(bufs := x.bufs[x.xfer.dst := x.bufs[x.xfer.dst][i := up.bufs[x.xfer.src][i]]],
                        xfer := x.xfer.(copied := x.xfer.copied + {i}));
            ShapedRank(c, y) && LinkInv(c, up, y, msgs, notes)
  {
  }

  lemma {:induction false} CopyStep(c: Config, s: State, r: nat, i: nat)
    requires ValidConfig(c) && Inv(c, s) && Enabled(c, s, r, CopyByte(i))
    ensures Inv(c, Apply(c, s, r, CopyByte(i)))
  {
    hide LinkInv, RankInv, ReceiverInv, OutInv;
    var t := Apply(c, s, r, CopyByte(i));
    var x, y, up := s.ranks[r], t.ranks[r], s.ranks[r - 1];
    var b := up.bufs[x.xfer.src][i];
    hide ShapedRank;
    Unfold(c, s, r);
    AsReceiver(c, x, r);
    CopyKeeps(c, x, i, b, HasNext(c, r));
    CopyLink(c, up, x, i, s.msgs[r - 1], s.notes[r - 1]);
    if r + 1 < c.ranks {
      UpFrame(c, x, y, s.ranks[r + 1], s.msgs[r], s.notes[r]);
    }
    AsReceiver(c, y, r);
    Reassemble(c, s, t, r);
  }

  /** When every byte is copied the reader holds the announced bucket. */
  lemma {:induction false} CompleteKeeps(c: Config, up: Rank, x: Rank, msgs: seq<Msg>, notes: seq<nat>, hasNext: bool)
    requires ValidConfig(c) && ShapedRank(c, up) && ShapedRank(c, x) && OutInv(c, up)
    requires ReceiverInv(c, x, hasNext) && LinkInv(c, up, x, msgs, notes)
    requires x.xfer.InFlight? && forall i :: 0 <= i < c.bucketSize ==> i in x.xfer.copied
    ensures var y := x.(xfer := Idle, cp := x.cp + 1);
            ShapedRank(c, y) && ReceiverInv(c, y, hasNext) && LinkInv(c, up, y, msgs, notes + [x.xfer.key])
  {
    assert x.bufs[x.xfer.dst] == up.bufs[up.out];
  }

  lemma {:induction false} CompleteStep(c: Config, s: State, r: nat)
    requires ValidConfig(c) && Inv(c, s) && Enabled(c, s, r, Complete)
    ensures Inv(c, Apply(c, s, r, Complete))
  {
    hide LinkInv, RankInv, ReceiverInv, ShapedRank, OutInv;
    var t := Apply(c, s, r, Complete);
    var x, y := s.ranks[r], t.ranks[r];
    Unfold(c, s, r);
    AsReceiver(c, x, r);
    Unfold(c, s, r - 1);
    RankOut(c, s.ranks[r - 1], r - 1);
    CompleteKeeps(c, s.ranks[r - 1], x, s.msgs[r - 1], s.notes[r - 1], HasNext(c, r));
    if r + 1 < c.ranks {
      UpFrame(c, x, y, s.ranks[r + 1], s.msgs[r], s.notes[r]);
    }
    AsReceiver(c, y, r);
    Reassemble(c, s, t, r);
  }

  lemma {:induction false} StepKeepsInv(c: Config, s: State, r: nat, a: Action)
    requires ValidConfig(c) && Inv(c, s) && Enabled(c, s, r, a)
    ensures Inv(c, Apply(c, s, r, a))
  {
    hide Inv, Apply;
    match a
    case PutChunk => PutStep(c, s);
    case Ship => ShipStep(c, s);
    case Confirm => ConfirmStep(c, s);
    case Read => ReadStep(c, s, r);
    case Announce => AnnounceStep(c, s, r);
    case YieldOne => YieldStep(c, s, r);
    case EndYield => EndYieldStep(c, s, r);
    case EndRead => EndReadStep(c, s, r);
    case CopyByte(i) => CopyStep(c, s, r, i);
    case Complete => CompleteStep(c, s, r);
  }

  lemma {:induction false} NextKeepsInv(c: Config, s: State, t: State)
    requires ValidConfig(c) && Inv(c, s) && Next(c, s, t)
    ensures Inv(c, t)
  {
    hide Inv, Apply, Enabled;
    var r: nat, a: Action :| Enabled(c, s, r, a) && t == Apply(c, s, r, a);
    StepKeepsInv(c, s, r, a);
  }
}
