// What the chain guarantees over every run: buffers that are being read are
// never written, every rank's stream is a prefix of the sender's, and every
// run ends with every rank past the last bucket.

module NixlProofs {
  import opened Results
  import opened Weights
  import opened Packing
  import opened NixlChain
  import opened NixlInvariant
  import opened NixlSteps
  import RoundTrip

  lemma {:induction false} RunKeepsInv(c: Config, run: seq<State>, i: nat)
    requires ValidConfig(c) && IsRun(c, run) && i < |run|
    ensures Inv(c, run[i])
  {
    hide Inv;
    if i == 0 {
      InitInv(c, run[0]);
    } else {
      RunKeepsInv(c, run, i - 1);
      assert Next(c, run[i - 1], run[(i - 1) + 1]);
      NextKeepsInv(c, run[i - 1], run[i]);
    }
  }

  // ---------- buffer safety ----------

  /** Contents of one of the two buffers of a rank. */
  function Buffer(s: State, q: nat, b: BufIx): seq<byte> {
    if q < |s.ranks| && b < |s.ranks[q].bufs| then s.ranks[q].bufs[b] else []
  }

  /** The next rank has been told to read buffer b of rank q and has not finished reading it. */
  ghost predicate Exposed(c: Config, s: State, q: nat, b: BufIx)
    requires Shaped(c, s)
  {
    && q + 1 < c.ranks
    && ((exists i :: 0 <= i < |s.msgs[q]| && s.msgs[q][i].buf == b) ||
        (s.ranks[q + 1].xfer.InFlight? && s.ranks[q + 1].xfer.src == b))
  }

  lemma {:induction false} ExposedIsOut(c: Config, s: State, q: nat, b: BufIx)
    requires ValidConfig(c) && Inv(c, s) && Exposed(c, s, q, b)
    ensures var x := s.ranks[q]; x.fin < x.ann && x.out == b
  {
    hide RankInv;
    Unfold(c, s, q);
  }

  lemma {:induction false} CopiesElsewhere(c: Config, s: State, r: nat, i: nat)
    requires ValidConfig(c) && Inv(c, s) && Enabled(c, s, r, CopyByte(i))
    ensures 0 < r < |s.ranks| && s.ranks[r].xfer.InFlight? && s.ranks[r].xfer.dst != s.ranks[r].sendIx
  {
    hide LinkInv;
    Unfold(c, s, r);
    AsReceiver(c, s.ranks[r], r);
  }

  /** A step writes a buffer only by placing a chunk or copying a byte. */
  lemma {:induction false} OtherBuffersStay(c: Config, s: State, r: nat, a: Action, q: nat, b: BufIx)
    requires Shaped(c, s) && Enabled(c, s, r, a)
    requires q == r ==> !a.PutChunk? && (a.CopyByte? ==> b != s.ranks[r].xfer.dst)
    ensures Buffer(Apply(c, s, r, a), q, b) == Buffer(s, q, b)
  {
    hide Put, View, FlushDue;
  }

  /** The announced buffer is neither filled nor read into by its own rank. */
  lemma {:induction false} WritesElsewhere(c: Config, s: State, r: nat, a: Action)
    requires ValidConfig(c) && Inv(c, s) && Enabled(c, s, r, a) && s.ranks[r].fin < s.ranks[r].ann
    requires a.PutChunk? || a.CopyByte?
    ensures Buffer(Apply(c, s, r, a), r, s.ranks[r].out) == Buffer(s, r, s.ranks[r].out)
  {
    hide LinkInv, ReceiverInv, SenderInv, RankInv;
    var x := s.ranks[r];
    Unfold(c, s, r);
    if a.PutChunk? {
      AsSender(c, x);
      PutKeeps(c, x);
      hide Put, Inv;
    } else {
      AsReceiver(c, x, r);
      CopyKeeps(c, x, a.i, s.ranks[r - 1].bufs[x.xfer.src][a.i], HasNext(c, r));
      hide Inv;
    }
  }

  lemma {:induction false} NoExposedWrite(c: Config, s: State, r: nat, a: Action, q: nat, b: BufIx)
    requires ValidConfig(c) && Inv(c, s) && Enabled(c, s, r, a) && Exposed(c, s, q, b)
    ensures Buffer(Apply(c, s, r, a), q, b) == Buffer(s, q, b)
  {
    InvShaped(c, s);
    ExposedIsOut(c, s, q, b);
    hide Inv, Apply, Buffer, Exposed;
    if q == r && (a.PutChunk? || a.CopyByte?) {
      WritesElsewhere(c, s, r, a);
    } else {
      OtherBuffersStay(c, s, r, a, q, b);
    }
  }

  lemma {:induction false} AsSender(c: Config, x: Rank)
    requires ValidConfig(c) && ShapedRank(c, x)
    ensures RankInv(c, x, 0) <==> SenderInv(c, x)
  {
  }

  lemma {:induction false} ReadTarget(c: Config, s: State, r: nat)
    requires ValidConfig(c) && Inv(c, s) && Enabled(c, s, r, Read)
    ensures !Exposed(c, s, r, 1 - s.ranks[r].sendIx)
  {
    Unfold(c, s, r);
    AsReceiver(c, s.ranks[r], r);
    if Exposed(c, s, r, 1 - s.ranks[r].sendIx) {
      ExposedIsOut(c, s, r, 1 - s.ranks[r].sendIx);
      assert false;
    }
  }

  /** What a receiver is yielding from is not written. */
  lemma {:induction false} CurrentKept(c: Config, s: State, r: nat, a: Action, q: nat)
    requires ValidConfig(c) && Inv(c, s) && Enabled(c, s, r, a) && 0 < q < |s.ranks|
    ensures Buffer(Apply(c, s, r, a), q, s.ranks[q].sendIx) == Buffer(s, q, s.ranks[q].sendIx)
  {
    InvShaped(c, s);
    if q == r && a.CopyByte? {
      CopiesElsewhere(c, s, r, a.i);
    }
    hide Inv, Apply, Buffer;
    OtherBuffersStay(c, s, r, a, q, s.ranks[q].sendIx);
  }

  /** In every reachable state, whatever step comes next: an announced buffer that has not been read to the end
      is not written; no read is started into one; and the buffer a receiver yields from is not written either, so
      that a chunk handed out stays as it was until the receiver moves on. */
  lemma {:induction false} BufferSafety(c: Config, run: seq<State>, i: nat, r: nat, a: Action)
    requires ValidConfig(c) && IsRun(c, run) && i < |run|
    requires Shaped(c, run[i]) && Enabled(c, run[i], r, a)
    ensures var s, t := run[i], Apply(c, run[i], r, a);
            && (forall q: nat, b: BufIx :: Exposed(c, s, q, b) ==> Buffer(t, q, b) == Buffer(s, q, b))
            && (a.Read? ==> r < |t.ranks| && t.ranks[r].xfer.InFlight? && !Exposed(c, s, r, t.ranks[r].xfer.dst))
            && (forall q :: 0 < q < c.ranks ==> Buffer(t, q, s.ranks[q].sendIx) == Buffer(s, q, s.ranks[q].sendIx))
  {
    hide Inv;
    var s, t := run[i], Apply(c, run[i], r, a);
    RunKeepsInv(c, run, i);
    forall q: nat, b: BufIx | Exposed(c, s, q, b) ensures Buffer(t, q, b) == Buffer(s, q, b) {
      NoExposedWrite(c, s, r, a, q, b);
    }
    if a.Read? {
      ReadTarget(c, s, r);
    }
    forall q | 0 < q < c.ranks ensures Buffer(t, q, s.ranks[q].sendIx) == Buffer(s, q, s.ranks[q].sendIx) {
      CurrentKept(c, s, r, a, q);
    }
  }

  /** No assert of any rank ever fails: capacity, name and notify-key checks included. */
  lemma {:induction false} NoAssertFails(c: Config, run: seq<State>, i: nat, r: nat)
    requires ValidConfig(c) && IsRun(c, run) && i < |run| && r < c.ranks
    ensures r < |run[i].ranks| && !run[i].ranks[r].pc.Crashed?
  {
    RunKeepsInv(c, run, i);
    assert RankInv(c, run[i].ranks[r], r);
  }

  // ---------- stream refinement ----------

  lemma {:induction false} DeliveredAll(c: Config, k: nat)
    requires ValidConfig(c) && k <= |Plan(c)|
    ensures Delivered(c, k) == UnpackAll(Plan(c)[..k])
  {
    if k > 0 {
      DeliveredAll(c, k - 1);
      var front, b := Plan(c)[..k - 1], Plan(c)[k - 1];
      UnpackAllAppend(front, b);
      assert Plan(c)[..k] == front + [b];
    }
  }

  lemma {:induction false} UnpackAllAppend(bs: seq<Bucket>, b: Bucket)
    ensures UnpackAll(bs + [b]) == UnpackAll(bs) + Unpack(b.metas, b.data)
  {
    if bs == [] {
      assert UnpackAll([b]) == Unpack(b.metas, b.data) + [];
    } else {
      UnpackAllAppend(bs[1..], b);
      assert (bs + [b])[1..] == bs[1..] + [b];
    }
  }

  lemma {:induction false} DeliveredPrefix(c: Config, j: nat, k: nat)
    requires ValidConfig(c) && j <= k <= |Plan(c)|
    ensures Delivered(c, j) <= Delivered(c, k)
    decreases k - j
  {
    if j < k {
      DeliveredPrefix(c, j + 1, k);
    }
  }

  /** The (metadata, bytes) stream the sender packed. */
  ghost function SentStream(c: Config): seq<Chunk>
    requires ValidConfig(c)
  {
    UnpackAll(Plan(c))
  }

  lemma {:induction false} PartOfCurrent(c: Config, got: nat, metas: seq<TensorMeta>, yielded: seq<Chunk>, j: nat)
    requires ValidConfig(c) && YieldedUpTo(c, got, metas, yielded, j)
    ensures yielded <= Delivered(c, got)
  {
    var all := Unpack(Plan(c)[got - 1].metas, Plan(c)[got - 1].data);
    assert all == all[..j] + all[j..];
    AppendAssoc(Delivered(c, got - 1), all[..j], all[j..]);
  }

  lemma {:induction false} YieldedPrefix(c: Config, x: Rank, hasNext: bool)
    requires ValidConfig(c) && ShapedRank(c, x) && ReceiverInv(c, x, hasNext)
    ensures x.yielded <= SentStream(c)
    ensures x.pc.Done? ==> x.yielded == SentStream(c)
  {
    var n := |Plan(c)|;
    DeliveredAll(c, n);
    assert Plan(c)[..n] == Plan(c);
    DeliveredPrefix(c, x.got, n);
    if x.pc.Yielding? || x.pc.LastYield? {
      PartOfCurrent(c, x.got, x.metas, x.yielded, x.pc.j);
    } else if x.got > 0 {
      DeliveredPrefix(c, x.got - 1, n);
    }
  }

  /** At every moment of every run each receiver has yielded a prefix of the sender's stream, and all of it once it is done. */
  lemma {:induction false} StreamRefinement(c: Config, run: seq<State>, i: nat, r: nat)
    requires ValidConfig(c) && IsRun(c, run) && i < |run| && 0 < r < c.ranks
    ensures r < |run[i].ranks|
    ensures run[i].ranks[r].yielded <= SentStream(c)
    ensures run[i].ranks[r].pc.Done? ==> run[i].ranks[r].yielded == SentStream(c)
  {
    RunKeepsInv(c, run, i);
    Unfold(c, run[i], r);
    YieldedPrefix(c, run[i].ranks[r], HasNext(c, r));
  }

  /** End to end: every receiver that has finished merges exactly the weights that were sent. */
  lemma {:induction false} ChainDelivers(ws: seq<Weight>, bucketSize: nat, ranks: nat, run: seq<State>, i: nat,
                                         r: nat, junk: byte)
    requires 0 < bucketSize && 2 <= ranks
    requires RoundTrip.DistinctNames(ws) && forall k :: 0 <= k < |ws| ==> ws[k].Valid()
    requires IsRun(Config(Split(ws, bucketSize), bucketSize, ranks), run) && i < |run|
    requires 0 < r < |run[i].ranks| && run[i].ranks[r].pc.Done?
    ensures Merge(run[i].ranks[r].yielded, bucketSize, junk) == Ok(RoundTrip.NonEmpty(ws))
  {
    var c := Config(Split(ws, bucketSize), bucketSize, ranks);
    RoundTrip.SplitChunks(ws, bucketSize);
    RoundTrip.PackSplitOk(ws, bucketSize);
    RunKeepsInv(c, run, i);
    StreamRefinement(c, run, i, r);
    RoundTrip.WeightRoundTrip(ws, bucketSize, junk);
  }

  // ---------- progress ----------

  ghost predicate CanMove(c: Config, s: State, r: nat)
    requires Shaped(c, s)
  {
    exists a: Action :: Enabled(c, s, r, a)
  }

  ghost predicate WaitsForMessage(c: Config, s: State, r: nat)
    requires Shaped(c, s)
  {
    0 < r < c.ranks && (s.ranks[r].pc.First? || s.ranks[r].pc.Fetch?) && s.msgs[r - 1] == []
  }

  ghost predicate WaitsForNotice(c: Config, s: State, r: nat)
    requires Shaped(c, s)
  {
    r + 1 < c.ranks && s.ranks[r].pending.Some? && s.notes[r] == []
  }

  lemma {:induction false} SenderBusyOrWaiting(c: Config, s: State)
    requires ValidConfig(c) && Shaped(c, s) && SenderInv(c, s.ranks[0])
    ensures s.ranks[0].pc.Done? || CanMove(c, s, 0) || WaitsForNotice(c, s, 0)
  {
    var x := s.ranks[0];
    var a := if x.pc.Fill? && FlushDue(c, x) then (if x.pending.None? then Ship else Confirm)
             else if x.pc.Drain? then Confirm
             else PutChunk;
    assert x.pc.Done? || Enabled(c, s, 0, a) || WaitsForNotice(c, s, 0);
    hide Enabled;
  }

  lemma {:induction false} TransferCanMove(c: Config, s: State, r: nat)
    requires Shaped(c, s) && 0 < r < c.ranks && s.ranks[r].xfer.InFlight?
    ensures CanMove(c, s, r)
  {
    var x := s.ranks[r];
    if i :| 0 <= i < c.bucketSize && i !in x.xfer.copied {
      assert Enabled(c, s, r, CopyByte(i));
    } else {
      assert Enabled(c, s, r, Complete);
    }
  }

  lemma {:induction false} ReceiverBusyOrWaiting(c: Config, s: State, r: nat)
    requires ValidConfig(c) && Shaped(c, s) && 0 < r < c.ranks && ReceiverInv(c, s.ranks[r], HasNext(c, r))
    ensures s.ranks[r].pc.Done? || CanMove(c, s, r) || WaitsForMessage(c, s, r) || WaitsForNotice(c, s, r)
  {
    var x := s.ranks[r];
    if x.xfer.InFlight? {
      TransferCanMove(c, s, r);
    } else {
      var a := match x.pc
        case Top => Announce
        case AwaitRead => EndRead
        case Yielding(j) => if j < |x.metas| then YieldOne else EndYield
        case LastYield(j) => if j < |x.metas| then YieldOne else EndYield
        case _ => Read;
      assert x.pc.Done? || Enabled(c, s, r, a) || WaitsForMessage(c, s, r) || WaitsForNotice(c, s, r);
      hide Enabled;
    }
  }

  lemma {:induction false} BusyOrWaiting(c: Config, s: State, r: nat)
    requires ValidConfig(c) && Inv(c, s) && r < c.ranks
    ensures s.ranks[r].pc.Done? || CanMove(c, s, r) || WaitsForMessage(c, s, r) || WaitsForNotice(c, s, r)
  {
    Unfold(c, s, r);
    hide ReceiverInv, SenderInv, LinkInv;
    if r == 0 {
      SenderBusyOrWaiting(c, s);
    } else {
      AsReceiver(c, s.ranks[r], r);
      ReceiverBusyOrWaiting(c, s, r);
    }
  }

  /** While its notice is missing, the next rank is neither done nor without a message to read. */
  lemma {:induction false} NoticeMissing(c: Config, up: Rank, down: Rank, msgs: seq<Msg>, hasNext: bool)
    requires ValidConfig(c) && ShapedRank(c, up) && ShapedRank(c, down) && OutInv(c, up) && up.pending.Some?
    requires ReceiverInv(c, down, hasNext) && LinkInv(c, up, down, msgs, [])
    ensures !down.pc.Done? && (down.pc.First? || down.pc.Fetch? ==> msgs != [])
  {
  }

  /** A rank waiting for a notice waits, directly or through later ranks, for one that can move. */
  lemma {:induction false} NoticeWillCome(c: Config, s: State, r: nat)
    requires ValidConfig(c) && Inv(c, s) && WaitsForNotice(c, s, r)
    ensures exists q: nat :: CanMove(c, s, q)
    decreases c.ranks - r
  {
    hide LinkInv, RankInv, ReceiverInv, OutInv, CanMove;
    Unfold(c, s, r);
    Unfold(c, s, r + 1);
    RankOut(c, s.ranks[r], r);
    AsReceiver(c, s.ranks[r + 1], r + 1);
    NoticeMissing(c, s.ranks[r], s.ranks[r + 1], s.msgs[r], HasNext(c, r + 1));
    BusyOrWaiting(c, s, r + 1);
    if WaitsForNotice(c, s, r + 1) {
      NoticeWillCome(c, s, r + 1);
    }
  }

  /** A rank that waits for an announcement has buckets left to read. */
  lemma {:induction false} BucketsLeft(c: Config, x: Rank, hasNext: bool)
    requires ValidConfig(c) && ShapedRank(c, x) && ReceiverInv(c, x, hasNext) && (x.pc.First? || x.pc.Fetch?)
    ensures x.rd < |Plan(c)|
  {
    PlanShape(c);
  }

  /** A rank that is done has announced every bucket. */
  lemma {:induction false} DoneAnnouncedAll(c: Config, x: Rank, r: nat)
    requires ValidConfig(c) && ShapedRank(c, x) && RankInv(c, x, r) && HasNext(c, r) && x.pc.Done?
    ensures x.ann == |Plan(c)|
  {
  }

  /** A rank waiting for an announcement waits, directly or through earlier ranks, for one that can move. */
  lemma {:induction false} MessageWillCome(c: Config, s: State, r: nat)
    requires ValidConfig(c) && Inv(c, s) && WaitsForMessage(c, s, r)
    ensures exists q: nat :: CanMove(c, s, q)
  {
    hide RankInv, ReceiverInv, CanMove;
    Unfold(c, s, r - 1);
    Unfold(c, s, r);
    AsReceiver(c, s.ranks[r], r);
    BucketsLeft(c, s.ranks[r], HasNext(c, r));
    if s.ranks[r - 1].pc.Done? {
      DoneAnnouncedAll(c, s.ranks[r - 1], r - 1);
    }
    hide LinkInv;
    BusyOrWaiting(c, s, r - 1);
    if WaitsForMessage(c, s, r - 1) {
      MessageWillCome(c, s, r - 1);
    } else if WaitsForNotice(c, s, r - 1) {
      NoticeWillCome(c, s, r - 1);
    }
  }

  /** No reachable state is stuck before every rank is done. */
  lemma {:induction false} NoDeadlock(c: Config, run: seq<State>, i: nat, r: nat)
    requires ValidConfig(c) && IsRun(c, run) && i < |run| && r < c.ranks
    ensures r < |run[i].ranks| && Shaped(c, run[i])
    ensures run[i].ranks[r].pc.Done? || exists q: nat :: CanMove(c, run[i], q)
  {
    hide Inv;
    RunKeepsInv(c, run, i);
    InvShaped(c, run[i]);
    BusyOrWaiting(c, run[i], r);
    if WaitsForMessage(c, run[i], r) {
      MessageWillCome(c, run[i], r);
    } else if WaitsForNotice(c, run[i], r) {
      NoticeWillCome(c, run[i], r);
    }
  }

  lemma {:induction false} InvShaped(c: Config, s: State)
    requires ValidConfig(c) && Inv(c, s)
    ensures Shaped(c, s)
  {
  }

  // ---------- termination ----------

  /** Work for the buckets from k on. */
  ghost function Work(c: Config, k: nat): nat
    requires ValidConfig(c)
    decreases |Plan(c)| - k
  {
    if k >= |Plan(c)| then 0 else |Plan(c)[k].metas| + c.bucketSize + 8 + Work(c, k + 1)
  }

  ghost function Monus(a: nat, b: nat): nat {
    if a <= b then 0 else a - b
  }

  ghost function Transfer(c: Config, x: Rank): nat {
    if x.xfer.InFlight? then Monus(c.bucketSize, |x.xfer.copied|) + 1 else 0
  }

  ghost function Cost(c: Config, x: Rank): nat
    requires ValidConfig(c)
  {
    match x.pc
    case Fill => 4 * |x.rest| + 6 + (if x.pending.Some? then 1 else 0)
    case Placing => 4 * |x.rest| + 3 + (if x.pending.Some? then 1 else 0)
    case Drain => 2
    case First => Work(c, 0)
    case Top => Work(c, x.got) + |x.metas| + 3
    case Fetch => Work(c, x.got) + |x.metas| + 2
    case Yielding(j) => Work(c, x.got + 1) + |x.nextMetas| + 5 + Monus(|x.metas|, j) + Transfer(c, x)
    case AwaitRead => Work(c, x.got + 1) + |x.nextMetas| + 4 + Transfer(c, x)
    case LastYield(j) => Monus(|x.metas|, j) + 1
    case _ => 0
  }

  ghost function CostFrom(c: Config, ranks: seq<Rank>): nat
    requires ValidConfig(c)
  {
    if ranks == [] then 0 else Cost(c, ranks[0]) + CostFrom(c, ranks[1..])
  }

  lemma {:induction false} CostUpdate(c: Config, ranks: seq<Rank>, r: nat, y: Rank)
    requires ValidConfig(c) && r < |ranks|
    ensures CostFrom(c, ranks[r := y]) + Cost(c, ranks[r]) == CostFrom(c, ranks) + Cost(c, y)
  {
    hide Cost;
    if r == 0 {
      assert ranks[r := y][1..] == ranks[1..];
    } else {
      assert ranks[r := y][1..] == ranks[1..][r - 1 := y];
      CostUpdate(c, ranks[1..], r - 1, y);
    }
  }

  lemma {:induction false} BoundedCard(n: nat, a: set<nat>)
    requires forall i :: i in a ==> i < n
    ensures |a| <= n
  {
    if n > 0 {
      var b := a - {n - 1};
      BoundedCard(n - 1, b);
      assert |a| <= |b| + 1 by {
        if n - 1 in a {
          assert a == b + {n - 1};
        } else {
          assert a == b;
        }
      }
    }
  }

  lemma {:induction false} WorkStep(c: Config, k: nat)
    requires ValidConfig(c) && k < |Plan(c)|
    ensures Work(c, k) == |Plan(c)[k].metas| + c.bucketSize + 8 + Work(c, k + 1)
  {
  }

  lemma {:induction false} CopyCost(c: Config, x: Rank, i: nat, bufs: seq<seq<byte>>, hasNext: bool)
    requires ValidConfig(c) && ShapedRank(c, x) && ReceiverInv(c, x, hasNext)
    requires x.xfer.InFlight? && i < c.bucketSize && i !in x.xfer.copied
    ensures Cost(c, x.(bufs := bufs, xfer := x.xfer.(copied := x.xfer.copied + {i}))) < Cost(c, x)
  {
    BoundedCard(c.bucketSize, x.xfer.copied + {i});
  }

  lemma {:induction false} CompleteCost(c: Config, x: Rank, hasNext: bool)
    requires ValidConfig(c) && ShapedRank(c, x) && ReceiverInv(c, x, hasNext) && x.xfer.InFlight?
    ensures Cost(c, x.(xfer := Idle, cp := x.cp + 1)) < Cost(c, x)
  {
  }

  lemma {:induction false} ReadCost(c: Config, x: Rank, y: Rank, hasNext: bool)
    requires ValidConfig(c) && ShapedRank(c, x) && ReceiverInv(c, x, hasNext) && (x.pc.First? || x.pc.Fetch?)
    requires IsMeta(c, x.got, y.nextMetas, y.nextLast) && y.got == x.got && y.metas == x.metas
    requires y.pc == (if x.pc.First? then AwaitRead else Yielding(0)) && y.xfer.InFlight? && y.xfer.copied == {}
    ensures Cost(c, y) < Cost(c, x)
  {
  }

  lemma {:induction false} ReceiverMessage(c: Config, up: Rank, x: Rank, msgs: seq<Msg>, notes: seq<nat>, hasNext: bool)
    requires ValidConfig(c) && ShapedRank(c, up) && ShapedRank(c, x) && ReceiverInv(c, x, hasNext)
    requires LinkInv(c, up, x, msgs, notes) && (x.pc.First? || x.pc.Fetch?) && msgs != []
    ensures IsMeta(c, x.got, msgs[0].metas, msgs[0].isLast)
  {
  }

  lemma {:induction false} SenderCost(c: Config, s: State, r: nat, a: Action)
    requires ValidConfig(c) && Shaped(c, s) && Enabled(c, s, r, a) && (a.PutChunk? || a.Ship? || a.Confirm?)
    ensures Cost(c, Apply(c, s, r, a).ranks[r]) < Cost(c, s.ranks[r])
  {
    hide TryPlace, Work;
  }

  lemma {:induction false} ReceiverCost(c: Config, s: State, r: nat, a: Action)
    requires ValidConfig(c) && Shaped(c, s) && Enabled(c, s, r, a)
    requires a.Announce? || a.YieldOne? || a.EndRead?
    ensures Cost(c, Apply(c, s, r, a).ranks[r]) < Cost(c, s.ranks[r])
  {
    hide View, Work;
  }

  lemma {:induction false} EndYieldCost(c: Config, s: State, r: nat)
    requires ValidConfig(c) && Shaped(c, s) && Enabled(c, s, r, EndYield)
    ensures Cost(c, Apply(c, s, r, EndYield).ranks[r]) < Cost(c, s.ranks[r])
  {
    hide View, Work;
  }

  /** Every step lowers the cost of the rank that takes it. */
  lemma {:induction false} StepCost(c: Config, s: State, r: nat, a: Action)
    requires ValidConfig(c) && Inv(c, s) && Enabled(c, s, r, a)
    ensures Cost(c, Apply(c, s, r, a).ranks[r]) < Cost(c, s.ranks[r])
  {
    hide LinkInv, RankInv, ReceiverInv, SenderInv, Cost, IsMeta;
    Unfold(c, s, r);
    var x, y := s.ranks[r], Apply(c, s, r, a).ranks[r];
    if r > 0 {
      AsReceiver(c, x, r);
    }
    match a
    case Read =>
      ReceiverMessage(c, s.ranks[r - 1], x, s.msgs[r - 1], s.notes[r - 1], HasNext(c, r));
      ReadCost(c, x, y, HasNext(c, r));
    case CopyByte(i) => CopyCost(c, x, i, y.bufs, HasNext(c, r));
    case Complete => CompleteCost(c, x, HasNext(c, r));
    case EndYield => EndYieldCost(c, s, r);
    case _ => if r == 0 { SenderCost(c, s, r, a); } else { ReceiverCost(c, s, r, a); }
  }

  lemma {:induction false} NextLowersCost(c: Config, s: State, t: State)
    requires ValidConfig(c) && Inv(c, s) && Next(c, s, t)
    ensures CostFrom(c, t.ranks) < CostFrom(c, s.ranks)
  {
    hide Inv, Enabled, Cost;
    var r: nat, a: Action :| Enabled(c, s, r, a) && t == Apply(c, s, r, a);
    StepCost(c, s, r, a);
    OnlyOneRankMoves(c, s, r, a);
    CostUpdate(c, s.ranks, r, t.ranks[r]);
  }

  lemma {:induction false} OnlyOneRankMoves(c: Config, s: State, r: nat, a: Action)
    requires Shaped(c, s) && Enabled(c, s, r, a)
    ensures r < |s.ranks| == |Apply(c, s, r, a).ranks|
    ensures Apply(c, s, r, a).ranks == s.ranks[r := Apply(c, s, r, a).ranks[r]]
  {
  }

  /** No run is longer than the sender's initial work allows, whatever the schedule. */
  lemma {:induction false} RunsAreBounded(c: Config, run: seq<State>, i: nat)
    requires ValidConfig(c) && IsRun(c, run) && i < |run|
    ensures i + CostFrom(c, run[i].ranks) <= CostFrom(c, run[0].ranks)
  {
    hide Inv;
    if i > 0 {
      RunsAreBounded(c, run, i - 1);
      RunKeepsInv(c, run, i - 1);
      assert Next(c, run[i - 1], run[(i - 1) + 1]);
      NextLowersCost(c, run[i - 1], run[i]);
    }
  }

  ghost predicate Stuck(c: Config, s: State) {
    forall t :: !Next(c, s, t)
  }

  /** Runs are bounded, so every run can be continued until no step is left; and then every rank is done and
      every receiver has yielded the whole stream. */
  lemma {:induction false} EveryRunEnds(c: Config, run: seq<State>, i: nat)
    requires ValidConfig(c) && IsRun(c, run) && i < |run|
    ensures i <= CostFrom(c, run[0].ranks)
    ensures |run[i].ranks| == c.ranks
    ensures Stuck(c, run[i]) <==> forall r :: 0 <= r < c.ranks ==> run[i].ranks[r].pc.Done?
    ensures Stuck(c, run[i]) ==> forall r :: 0 < r < c.ranks ==> run[i].ranks[r].yielded == SentStream(c)
  {
    hide Inv, Enabled, Apply;
    var s := run[i];
    RunsAreBounded(c, run, i);
    RunKeepsInv(c, run, i);
    InvShaped(c, s);
    if Stuck(c, s) {
      forall r | 0 <= r < c.ranks ensures s.ranks[r].pc.Done? {
        NoDeadlock(c, run, i, r);
        if exists q: nat :: CanMove(c, s, q) {
          var q: nat :| CanMove(c, s, q);
          var a: Action :| Enabled(c, s, q, a);
          assert Next(c, s, Apply(c, s, q, a));
        }
      }
      forall r | 0 < r < c.ranks ensures s.ranks[r].yielded == SentStream(c) {
        StreamRefinement(c, run, i, r);
      }
    }
    if (forall r :: 0 <= r < c.ranks ==> s.ranks[r].pc.Done?) && !Stuck(c, s) {
      var t :| Next(c, s, t);
      var r: nat, a: Action :| Enabled(c, s, r, a) && t == Apply(c, s, r, a);
      DoneIsFinal(c, s, r, a);
    }
  }

  lemma {:induction false} DoneIsFinal(c: Config, s: State, r: nat, a: Action)
    requires ValidConfig(c) && Inv(c, s) && (r < c.ranks ==> s.ranks[r].pc.Done?)
    ensures !Enabled(c, s, r, a)
  {
  }

  /** Every run, however far it has got, can be completed. */
  lemma {:induction false} RunCompletes(c: Config, run: seq<State>) returns (full: seq<State>)
    requires ValidConfig(c) && IsRun(c, run)
    ensures run <= full && IsRun(c, full) && Stuck(c, full[|full| - 1])
    decreases CostFrom(c, run[0].ranks) + 1 - |run|
  {
    hide Inv, Enabled, Apply, Next, CostFrom;
    var last := run[|run| - 1];
    EveryRunEnds(c, run, |run| - 1);
    if Stuck(c, last) {
      full := run;
    } else {
      var t :| Next(c, last, t);
      var longer := run + [t];
      forall i | 0 <= i < |longer| - 1 ensures Next(c, longer[i], longer[i + 1]) {
        if i < |run| - 1 {
          assert Next(c, run[i], run[i + 1]);
        }
      }
      EveryRunEnds(c, longer, |longer| - 1);
      full := RunCompletes(c, longer);
    }
  }

  function NewRank(c: Config, first: bool): Rank {
    var buffer: seq<byte> := seq(c.bucketSize, _ => 0);
    Rank(if first then Fill else First, [buffer, buffer], 0, [], false, [], false, if first then c.chunks else [],
         0, None, 0, Idle, [], 0, 0, 0, 0, 0)
  }

  function NewChain(c: Config): State
    requires 2 <= c.ranks
  {
    State(seq(c.ranks, r => NewRank(c, r == 0)), seq(c.ranks - 1, _ => []), seq(c.ranks - 1, _ => []))
  }

  ghost predicate AllDelivered(c: Config, s: State)
    requires ValidConfig(c)
  {
    && |s.ranks| == c.ranks
    && forall r :: 0 <= r < c.ranks ==> s.ranks[r].pc.Done? && (0 < r ==> s.ranks[r].yielded == SentStream(c))
  }

  /** Every chain has a run that ends with all ranks done and the whole stream delivered to each. */
  lemma {:induction false} SomeRunCompletes(c: Config) returns (run: seq<State>)
    requires ValidConfig(c)
    ensures IsRun(c, run) && AllDelivered(c, run[|run| - 1])
  {
    var s := NewChain(c);
    forall r | 0 <= r < c.ranks ensures ShapedRank(c, s.ranks[r]) && InitialRank(c, s.ranks[r], r) {
      assert s.ranks[r] == NewRank(c, r == 0);
    }
    hide ShapedRank, InitialRank, Next, Stuck;
    assert Shaped(c, s) && Init(c, s);
    assert IsRun(c, [s]);
    run := RunCompletes(c, [s]);
    EveryRunEnds(c, run, |run| - 1);
  }
}
