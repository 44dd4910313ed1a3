// The double-buffered broadcast of the NCCL engine as a step system: rank 0
// broadcasts one bucket while it packs the next into its other buffer, every
// receiver yields one bucket while the next arrives in its other buffer.

module Broadcast {
  import opened Weights
  import opened Packing
  import opened NixlChain
  import opened NixlInvariant
  import NixlSteps
  import NixlProofs

  /** The sender is a packing rank whose announcements are broadcasts; `ann` of them are started and `fin` finished.
      The broadcast thread has published the metadata of, and entered, the first `published`. */
  datatype Receiver = Receiver(
    pc: Pc, bufs: seq<seq<byte>>, sendIx: BufIx,
    metas: seq<TensorMeta>, isLast: bool,
    started: nat, entered: nat, done: nat, copied: set<nat>, opMetas: seq<TensorMeta>, opLast: bool,
    got: nat, yielded: seq<Chunk>)

  datatype Meta = Meta(metas: seq<TensorMeta>, isLast: bool)

  /** `topics[i]` is what receiver i has not yet taken from the subscription. */
  datatype Cluster = Cluster(root: Rank, published: nat, opMeta: Meta, receivers: seq<Receiver>, topics: seq<seq<Meta>>)

  datatype Move =
    | RootPut | RootStart | RootPublish | RootWait
    | Start(i: nat) | Enter(i: nat) | Copy(i: nat, k: nat) | Finish(i: nat)
    | Yield(i: nat) | EndYields(i: nat) | Wait(i: nat)

  ghost predicate ShapedReceiver(c: Config, x: Receiver) {
    && |x.bufs| == 2 && |x.bufs[0]| == |x.bufs[1]| == c.bucketSize
  }

  ghost predicate ShapedCluster(c: Config, s: Cluster) {
    && ShapedRank(c, s.root) && 0 < |s.receivers| == |s.topics|
    && forall i :: 0 <= i < |s.receivers| ==> ShapedReceiver(c, s.receivers[i])
  }

  ghost predicate CanMake(c: Config, s: Cluster, m: Move)
    requires ShapedCluster(c, s)
  {
    var root := s.root;
    match m
    case RootPut => root.pc.Placing? || (root.pc.Fill? && !FlushDue(c, root))
    case RootStart => FlushDue(c, root) && root.pending.None?
    case RootPublish => s.published < root.ann
    // the root's part of a collective ends when every receiver has its data
    case RootWait => (FlushDue(c, root) || root.pc.Drain?) && root.pending.Some? && s.published == root.ann &&
                     forall i :: 0 <= i < |s.receivers| ==> s.receivers[i].done >= root.ann
    case Start(i) => i < |s.receivers| && var x := s.receivers[i]; x.pc.First? || x.pc.Top?
    case Enter(i) => i < |s.receivers| && var x := s.receivers[i]; x.entered < x.started && s.topics[i] != []
    // the n-th collective of a receiver is the n-th of the root
    case Copy(i, k) => i < |s.receivers| && k < c.bucketSize &&
                       var x := s.receivers[i]; x.done < x.entered == s.published && k !in x.copied
    case Finish(i) => i < |s.receivers| && var x := s.receivers[i];
                      x.done < x.entered == s.published && forall k :: 0 <= k < c.bucketSize ==> k in x.copied
    case Yield(i) => i < |s.receivers| && var x := s.receivers[i]; (x.pc.Yielding? || x.pc.LastYield?) && x.pc.j < |x.metas|
    case EndYields(i) => i < |s.receivers| && var x := s.receivers[i];
                         (x.pc.Yielding? || x.pc.LastYield?) && x.pc.j == |x.metas|
    case Wait(i) => i < |s.receivers| && var x := s.receivers[i]; x.pc.AwaitRead? && x.done == x.started
  }

  /** The effect of a receiver's move on the receiver. */
  ghost function Moved(c: Config, s: Cluster, x: Receiver, m: Move): Receiver
    requires ShapedCluster(c, s) && ShapedReceiver(c, x) && CanMake(c, s, m)
    requires !m.RootPut? && !m.RootStart? && !m.RootPublish? && !m.RootWait? && x == s.receivers[m.i]
  {
    match m
    case Start(i) =>
      if x.pc.Top? && x.isLast then x.(pc := LastYield(0))
      else x.(pc := if x.pc.First? then AwaitRead else Yielding(0), started := x.started + 1, copied := {})
    case Enter(i) => x.(entered := x.entered + 1, opMetas := s.topics[i][0].metas, opLast := s.topics[i][0].isLast)
    case Copy(i, k) =>
      x.(bufs := x.bufs[1 - x.sendIx := x.bufs[1 - x.sendIx][k := s.root.bufs[s.root.out][k]]], copied := x.copied + {k})
    case Finish(i) => x.(done := x.done + 1)
    case Yield(i) =>
      x.(pc := if x.pc.Yielding? then Yielding(x.pc.j + 1) else LastYield(x.pc.j + 1),
         yielded := x.yielded + [View(x.metas[x.pc.j], x.bufs[x.sendIx])])
    case EndYields(i) => x.(pc := if x.pc.Yielding? then AwaitRead else Done)
    case Wait(i) => x.(pc := Top, metas := x.opMetas, isLast := x.opLast, sendIx := 1 - x.sendIx, got := x.got + 1)
  }

  ghost function Make(c: Config, s: Cluster, m: Move): Cluster
    requires ShapedCluster(c, s) && CanMake(c, s, m)
  {
    var root := s.root;
    match m
    case RootPut => s.(root := Put(c, root))
    case RootStart =>
      var y := Announced(root);
      s.(opMeta := Meta(root.metas, root.rest == []),
         root := if root.rest == [] then y.(pc := Drain)
                 else y.(pc := Placing, sendIx := 1 - root.sendIx, metas := [], offset := 0))
    case RootPublish =>
      s.(published := s.published + 1,
         topics := seq(|s.topics|, i requires 0 <= i < |s.topics| => s.topics[i] + [s.opMeta]))
    case RootWait => s.(root := Confirmed(root, root.pending.value, if root.pc.Drain? then Done else root.pc))
    case Enter(i) =>
      s.(receivers := s.receivers[i := Moved(c, s, s.receivers[i], m)], topics := s.topics[i := s.topics[i][1..]])
    case _ => s.(receivers := s.receivers[m.i := Moved(c, s, s.receivers[m.i], m)])
  }

  ghost predicate InitialCluster(c: Config, s: Cluster) {
    && ShapedCluster(c, s) && InitialRank(c, s.root, 0) && s.published == 0
    && forall i :: 0 <= i < |s.receivers| ==>
         var x := s.receivers[i];
         && x.pc == First && x.sendIx == 0 && x.started == x.entered == x.done == x.got == 0 && x.yielded == []
         && s.topics[i] == []
  }

  ghost predicate ClusterNext(c: Config, s: Cluster, t: Cluster) {
    ShapedCluster(c, s) && exists m: Move :: CanMake(c, s, m) && t == Make(c, s, m)
  }

  ghost predicate IsClusterRun(c: Config, run: seq<Cluster>) {
    && run != [] && InitialCluster(c, run[0])
    && forall i :: 0 <= i < |run| - 1 ==> ClusterNext(c, run[i], run[i + 1])
  }

  // ---------- the invariant ----------

  ghost predicate ReceiverOk(c: Config, x: Receiver)
    requires ValidConfig(c) && ShapedReceiver(c, x)
  {
    && x.got <= x.done <= x.entered <= x.started <= x.got + 1
    && x.got <= |Plan(c)|
    && (x.got < x.entered ==> IsMeta(c, x.got, x.opMetas, x.opLast))
    && (x.got < x.done ==> Holds(x.bufs[1 - x.sendIx], Plan(c)[x.got]))
    && (x.got < x.started ==> forall k :: k in x.copied ==> k < c.bucketSize)
    && match x.pc
       case First => x.started == 0 && x.yielded == []
       case Top =>
         && x.started == x.got && HasCurrent(c, x.got, x.metas, x.isLast, x.bufs[x.sendIx])
         && x.yielded == Delivered(c, x.got - 1)
       case Yielding(j) =>
         && x.started == x.got + 1 && HasCurrent(c, x.got, x.metas, x.isLast, x.bufs[x.sendIx])
         && !x.isLast && YieldedUpTo(c, x.got, x.metas, x.yielded, j)
       case AwaitRead => x.started == x.got + 1 <= |Plan(c)| && x.yielded == Delivered(c, x.got)
       case LastYield(j) =>
         && x.started == x.got && HasCurrent(c, x.got, x.metas, x.isLast, x.bufs[x.sendIx])
         && x.isLast && YieldedUpTo(c, x.got, x.metas, x.yielded, j)
       case Done => x.started == x.got == |Plan(c)| && x.yielded == Delivered(c, x.got)
       case _ => false
  }

  ghost predicate RootOk(c: Config, root: Rank, published: nat, opMeta: Meta)
    requires ValidConfig(c) && ShapedRank(c, root)
  {
    && SenderInv(c, root)
    && root.fin <= published <= root.ann
    && (root.fin < root.ann ==> IsMeta(c, root.fin, opMeta.metas, opMeta.isLast))
  }

  /** Root and receiver: nobody is more than one broadcast away, and a receiver copies what the root broadcasts. */
  ghost predicate PairOk(c: Config, root: Rank, published: nat, x: Receiver, topic: seq<Meta>)
    requires ValidConfig(c) && ShapedRank(c, root) && ShapedReceiver(c, x)
  {
    && root.fin <= x.done <= x.entered <= published <= root.ann <= root.fin + 1
    && (if x.entered < published then |topic| == 1 && IsMeta(c, x.entered, topic[0].metas, topic[0].isLast) else topic == [])
    && (x.done < x.entered ==>
          forall k :: 0 <= k < c.bucketSize && k in x.copied ==> x.bufs[1 - x.sendIx][k] == root.bufs[root.out][k])
    && (x.entered < x.started ==> x.copied == {})
  }

  ghost predicate ClusterInv(c: Config, s: Cluster)
    requires ValidConfig(c)
  {
    && ShapedCluster(c, s)
    && RootOk(c, s.root, s.published, s.opMeta)
    && forall i :: 0 <= i < |s.receivers| ==>
         ReceiverOk(c, s.receivers[i]) && PairOk(c, s.root, s.published, s.receivers[i], s.topics[i])
  }

  lemma {:induction false} ClusterInit(c: Config, s: Cluster)
    requires ValidConfig(c) && InitialCluster(c, s)
    ensures ClusterInv(c, s)
  {
  }

  // ---------- the root's moves ----------

  lemma {:induction false} RootPutKeeps(c: Config, s: Cluster)
    requires ValidConfig(c) && ClusterInv(c, s) && CanMake(c, s, RootPut)
    ensures ClusterInv(c, Make(c, s, RootPut))
    ensures s.root.fin < s.root.ann ==> Make(c, s, RootPut).root.bufs[s.root.out] == s.root.bufs[s.root.out]
  {
    hide SenderInv, ReceiverOk;
    NixlSteps.PutKeeps(c, s.root);
    hide Put;
    var t := Make(c, s, RootPut);
    forall i | 0 <= i < |s.receivers| ensures PairOk(c, t.root, t.published, t.receivers[i], t.topics[i]) {
      assert PairOk(c, s.root, s.published, s.receivers[i], s.topics[i]);
      assert s.receivers[i].done < s.receivers[i].entered ==> s.root.fin < s.root.ann;
    }
  }

  lemma {:induction false} RootStartKeeps(c: Config, s: Cluster)
    requires ValidConfig(c) && ClusterInv(c, s) && CanMake(c, s, RootStart)
    ensures ClusterInv(c, Make(c, s, RootStart))
  {
    hide ReceiverOk;
    assert OutInv(c, s.root);
    hide SenderInv;
    var t := Make(c, s, RootStart);
    NixlSteps.ShipKeeps(c, s.root, t.root);
    forall i | 0 <= i < |s.receivers| ensures PairOk(c, t.root, t.published, t.receivers[i], t.topics[i]) {
      assert PairOk(c, s.root, s.published, s.receivers[i], s.topics[i]);
    }
  }

  lemma {:induction false} RootPublishKeeps(c: Config, s: Cluster)
    requires ValidConfig(c) && ClusterInv(c, s) && CanMake(c, s, RootPublish)
    ensures ClusterInv(c, Make(c, s, RootPublish))
  {
    hide ReceiverOk, SenderInv;
    var t := Make(c, s, RootPublish);
    forall i | 0 <= i < |s.receivers| ensures PairOk(c, t.root, t.published, t.receivers[i], t.topics[i]) {
      assert PairOk(c, s.root, s.published, s.receivers[i], s.topics[i]);
    }
  }

  lemma {:induction false} RootWaitKeeps(c: Config, s: Cluster)
    requires ValidConfig(c) && ClusterInv(c, s) && CanMake(c, s, RootWait)
    ensures ClusterInv(c, Make(c, s, RootWait))
  {
    hide ReceiverOk;
    var t := Make(c, s, RootWait);
    assert OutInv(c, s.root) && SenderInv(c, t.root);
    hide SenderInv;
    forall i | 0 <= i < |s.receivers| ensures PairOk(c, t.root, t.published, t.receivers[i], t.topics[i]) {
      assert PairOk(c, s.root, s.published, s.receivers[i], s.topics[i]);
    }
  }

  // ---------- the receivers' moves ----------

  ghost predicate ReceiverMove(m: Move) {
    !m.RootPut? && !m.RootStart? && !m.RootPublish? && !m.RootWait?
  }

  ghost function TopicAfter(s: Cluster, m: Move): seq<Meta>
    requires ReceiverMove(m) && m.i < |s.topics|
    requires m.Enter? ==> s.topics[m.i] != []
  {
    if m.Enter? then s.topics[m.i][1..] else s.topics[m.i]
  }

  lemma {:induction false} ReceiverReassemble(c: Config, s: Cluster, m: Move)
    requires ValidConfig(c) && ClusterInv(c, s) && CanMake(c, s, m) && ReceiverMove(m)
    requires var y := Moved(c, s, s.receivers[m.i], m);
             ShapedReceiver(c, y) && ReceiverOk(c, y) && PairOk(c, s.root, s.published, y, TopicAfter(s, m))
    ensures ClusterInv(c, Make(c, s, m))
  {
    hide Moved, ReceiverOk, PairOk, RootOk, ShapedReceiver, ShapedRank;
    var t := Make(c, s, m);
    forall i | 0 <= i < |t.receivers|
      ensures ShapedReceiver(c, t.receivers[i]) && ReceiverOk(c, t.receivers[i]) &&
              PairOk(c, t.root, t.published, t.receivers[i], t.topics[i])
    {
      if i != m.i {
        assert ReceiverOk(c, s.receivers[i]);
      }
    }
  }

  lemma {:induction false} StartOk(c: Config, s: Cluster, i: nat, x: Receiver)
    requires ValidConfig(c) && ShapedCluster(c, s) && CanMake(c, s, Start(i)) && x == s.receivers[i]
    requires ReceiverOk(c, x) && PairOk(c, s.root, s.published, x, s.topics[i])
    ensures var y := Moved(c, s, x, Start(i));
            ShapedReceiver(c, y) && ReceiverOk(c, y) && PairOk(c, s.root, s.published, y, s.topics[i])
  {
    assert Delivered(c, 0) == [];
    assert |Plan(c)| > 0 by {
      PlanShape(c);
    }
    if x.pc.Top? {
      NixlSteps.YieldedNone(c, x.got, x.metas, x.isLast, x.bufs[x.sendIx]);
    }
    hide View, Unpack, Delivered, Holds;
  }

  lemma {:induction false} WaitOk(c: Config, s: Cluster, i: nat, x: Receiver)
    requires ValidConfig(c) && ShapedCluster(c, s) && CanMake(c, s, Wait(i)) && x == s.receivers[i]
    requires ReceiverOk(c, x) && PairOk(c, s.root, s.published, x, s.topics[i])
    ensures var y := Moved(c, s, x, Wait(i));
            ShapedReceiver(c, y) && ReceiverOk(c, y) && PairOk(c, s.root, s.published, y, s.topics[i])
  {
    hide View, Unpack, Delivered, Holds;
  }

  lemma {:induction false} YieldOk(c: Config, s: Cluster, i: nat, x: Receiver)
    requires ValidConfig(c) && ShapedCluster(c, s) && CanMake(c, s, Yield(i)) && x == s.receivers[i]
    requires ReceiverOk(c, x) && PairOk(c, s.root, s.published, x, s.topics[i])
    ensures var y := Moved(c, s, x, Yield(i));
            ShapedReceiver(c, y) && ReceiverOk(c, y) && PairOk(c, s.root, s.published, y, s.topics[i])
  {
    NixlSteps.YieldedOneMore(c, x.got, x.metas, x.isLast, x.bufs[x.sendIx], x.yielded, x.pc.j);
    hide YieldedUpTo, View, Unpack, Delivered, Holds;
  }

  lemma {:induction false} EndYieldsOk(c: Config, s: Cluster, i: nat, x: Receiver)
    requires ValidConfig(c) && ShapedCluster(c, s) && CanMake(c, s, EndYields(i)) && x == s.receivers[i]
    requires ReceiverOk(c, x) && PairOk(c, s.root, s.published, x, s.topics[i])
    ensures var y := Moved(c, s, x, EndYields(i));
            ShapedReceiver(c, y) && ReceiverOk(c, y) && PairOk(c, s.root, s.published, y, s.topics[i])
  {
    NixlSteps.YieldedAll(c, x.got, x.metas, x.yielded);
    hide View, Unpack, Delivered, Holds;
  }

  /** A receiver's part of the collective: what it copies is the bucket its metadata describes. */
  lemma {:induction false} CollectiveOk(c: Config, s: Cluster, m: Move, x: Receiver)
    requires ValidConfig(c) && ShapedCluster(c, s) && CanMake(c, s, m) && ReceiverMove(m) && x == s.receivers[m.i]
    requires m.Copy? || m.Finish? || m.Enter?
    requires OutInv(c, s.root)
    requires ReceiverOk(c, x) && PairOk(c, s.root, s.published, x, s.topics[m.i])
    ensures var y := Moved(c, s, x, m);
            ShapedReceiver(c, y) && ReceiverOk(c, y) && PairOk(c, s.root, s.published, y, TopicAfter(s, m))
  {
    if m.Finish? {
      assert x.bufs[1 - x.sendIx] == s.root.bufs[s.root.out];
    }
    hide View, Unpack, Delivered;
  }

  lemma {:induction false} MoveKeeps(c: Config, s: Cluster, m: Move)
    requires ValidConfig(c) && ClusterInv(c, s) && CanMake(c, s, m)
    ensures ClusterInv(c, Make(c, s, m))
  {
    if m.RootPut? {
      RootPutKeeps(c, s);
    } else if m.RootStart? {
      RootStartKeeps(c, s);
    } else if m.RootPublish? {
      RootPublishKeeps(c, s);
    } else if m.RootWait? {
      RootWaitKeeps(c, s);
    } else {
      assert OutInv(c, s.root);
      hide ReceiverOk, PairOk, SenderInv, OutInv, Moved;
      if m.Copy? || m.Finish? || m.Enter? {
        CollectiveOk(c, s, m, s.receivers[m.i]);
      } else if m.Start? {
        StartOk(c, s, m.i, s.receivers[m.i]);
      } else if m.Wait? {
        WaitOk(c, s, m.i, s.receivers[m.i]);
      } else if m.Yield? {
        YieldOk(c, s, m.i, s.receivers[m.i]);
      } else {
        EndYieldsOk(c, s, m.i, s.receivers[m.i]);
      }
      ReceiverReassemble(c, s, m);
    }
  }

  lemma {:induction false} ClusterRunInv(c: Config, run: seq<Cluster>, i: nat)
    requires ValidConfig(c) && IsClusterRun(c, run) && i < |run|
    ensures ClusterInv(c, run[i])
  {
    hide ClusterInv, CanMake, Make;
    if i == 0 {
      ClusterInit(c, run[0]);
    } else {
      ClusterRunInv(c, run, i - 1);
      assert ClusterNext(c, run[i - 1], run[(i - 1) + 1]);
      var m: Move :| CanMake(c, run[i - 1], m) && run[i] == Make(c, run[i - 1], m);
      MoveKeeps(c, run[i - 1], m);
    }
  }

  // ---------- what follows ----------

  /** A broadcast of the root's buffer b is not finished at every receiver, or not confirmed to the sender. */
  ghost predicate InBroadcast(s: Cluster, b: BufIx) {
    s.root.pending.Some? && s.root.out == b
  }

  /** From s to t, the buffer being broadcast is not written, and no receiver's arriving bucket is written into the
      buffer it is yielding from. */
  ghost predicate BuffersRespected(s: Cluster, t: Cluster) {
    && |s.root.bufs| == |t.root.bufs| == 2
    && (forall b: BufIx :: InBroadcast(s, b) ==> t.root.bufs[b] == s.root.bufs[b])
    && |t.receivers| == |s.receivers|
    && forall i :: 0 <= i < |s.receivers| ==>
         var x, y := s.receivers[i], t.receivers[i];
         |x.bufs| == |y.bufs| == 2 && x.bufs[x.sendIx] == y.bufs[x.sendIx]
  }

  lemma {:induction false} PutSafety(c: Config, s: Cluster)
    requires ValidConfig(c) && ClusterInv(c, s) && CanMake(c, s, RootPut)
    ensures BuffersRespected(s, Make(c, s, RootPut))
  {
    hide SenderInv, ReceiverOk, PairOk, View;
    NixlSteps.PutKeeps(c, s.root);
    NixlSteps.RankOut(c, s.root, 0);
    hide Put;
  }

  lemma {:induction false} OtherMovesSafe(c: Config, s: Cluster, m: Move)
    requires ValidConfig(c) && ShapedCluster(c, s) && CanMake(c, s, m) && !m.RootPut?
    ensures BuffersRespected(s, Make(c, s, m))
  {
    hide View, FlushDue;
  }

  lemma {:induction false} StepSafety(c: Config, s: Cluster, m: Move)
    requires ValidConfig(c) && ClusterInv(c, s) && CanMake(c, s, m)
    ensures BuffersRespected(s, Make(c, s, m))
  {
    if m.RootPut? {
      PutSafety(c, s);
    } else {
      hide RootOk, ReceiverOk, PairOk;
      OtherMovesSafe(c, s, m);
    }
    hide BuffersRespected, Make;
  }

  /** In every reachable state, whatever move comes next. */
  lemma {:induction false} BroadcastSafety(c: Config, run: seq<Cluster>, n: nat, m: Move)
    requires ValidConfig(c) && IsClusterRun(c, run) && n < |run|
    requires ShapedCluster(c, run[n]) && CanMake(c, run[n], m)
    ensures BuffersRespected(run[n], Make(c, run[n], m))
  {
    hide ClusterInv, CanMake, Make;
    ClusterRunInv(c, run, n);
    StepSafety(c, run[n], m);
  }

  /** Sender and receivers make the same broadcasts: nobody is ahead of the root, nobody falls behind by more than the
      one in progress, and all have made exactly one a bucket when they are done. */
  lemma {:induction false} SameNumberOfBroadcasts(c: Config, run: seq<Cluster>, n: nat, i: nat)
    requires ValidConfig(c) && IsClusterRun(c, run) && n < |run| && i < |run[n].receivers|
    ensures var x, root := run[n].receivers[i], run[n].root;
            && x.done <= root.ann <= x.done + 1
            && (root.pc.Done? ==> root.ann == |Plan(c)| == x.done)
            && (x.pc.Done? ==> x.started == x.done == root.ann == |Plan(c)|)
  {
    ClusterRunInv(c, run, n);
    assert ReceiverOk(c, run[n].receivers[i]);
    assert PairOk(c, run[n].root, run[n].published, run[n].receivers[i], run[n].topics[i]);
    assert SenderInv(c, run[n].root);
  }

  lemma {:induction false} ReceivedPrefix(c: Config, x: Receiver)
    requires ValidConfig(c) && ShapedReceiver(c, x) && ReceiverOk(c, x)
    ensures x.yielded <= NixlProofs.SentStream(c)
    ensures x.pc.Done? ==> x.yielded == NixlProofs.SentStream(c)
  {
    NixlProofs.DeliveredAll(c, |Plan(c)|);
    assert Plan(c)[..|Plan(c)|] == Plan(c);
    NixlProofs.DeliveredPrefix(c, x.got, |Plan(c)|);
    hide View, Holds, IsMeta;
    if x.pc.Yielding? || x.pc.LastYield? {
      NixlProofs.PartOfCurrent(c, x.got, x.metas, x.yielded, x.pc.j);
    } else if x.pc.Top? {
      NixlProofs.DeliveredPrefix(c, x.got - 1, |Plan(c)|);
    }
  }

  /** What a receiver has yielded is always a prefix of the sender's stream, and all of it when it is done. */
  lemma {:induction false} BroadcastRefinement(c: Config, run: seq<Cluster>, n: nat, i: nat)
    requires ValidConfig(c) && IsClusterRun(c, run) && n < |run| && i < |run[n].receivers|
    ensures run[n].receivers[i].yielded <= NixlProofs.SentStream(c)
    ensures run[n].receivers[i].pc.Done? ==> run[n].receivers[i].yielded == NixlProofs.SentStream(c)
  {
    ClusterRunInv(c, run, n);
    hide ReceiverOk, PairOk, RootOk;
    ReceivedPrefix(c, run[n].receivers[i]);
  }
}
