// Every run of the double-buffered broadcast comes to an end, and then every
// receiver has yielded the whole stream.

module BroadcastProgress {
  import opened Results
  import opened Weights
  import opened Packing
  import opened NixlChain
  import opened NixlInvariant
  import opened NixlProofs
  import opened Broadcast
  import RoundTrip

  // ---------- no deadlock ----------

  ghost predicate CanStep(c: Config, s: Cluster)
    requires ShapedCluster(c, s)
  {
    exists m: Move :: CanMake(c, s, m)
  }

  ghost predicate AllDone(s: Cluster) {
    s.root.pc.Done? && forall i :: 0 <= i < |s.receivers| ==> s.receivers[i].pc.Done?
  }

  /** Receiver i has not finished the broadcast the root is waiting for. */
  ghost predicate Lags(s: Cluster, i: nat) {
    i < |s.receivers| && s.receivers[i].done < s.root.ann
  }

  lemma {:induction false} RootMoves(c: Config, s: Cluster)
    requires ValidConfig(c) && ClusterInv(c, s) && !s.root.pc.Done?
    ensures CanStep(c, s) || (s.published == s.root.ann && exists i: nat :: Lags(s, i))
  {
    hide ReceiverOk, PairOk;
    var root := s.root;
    if s.published < root.ann {
      assert CanMake(c, s, RootPublish);
    } else if root.pc.Placing? || (root.pc.Fill? && !FlushDue(c, root)) {
      assert CanMake(c, s, RootPut);
    } else if root.pending.None? {
      assert CanMake(c, s, RootStart);
    } else if forall i: nat :: !Lags(s, i) {
      forall i | 0 <= i < |s.receivers| ensures s.receivers[i].done >= root.ann {
        assert !Lags(s, i);
      }
      assert CanMake(c, s, RootWait);
    }
  }

  /** A receiver that lags behind the root can always do something about it. */
  lemma {:induction false} LaggardMoves(c: Config, s: Cluster, i: nat)
    requires ValidConfig(c) && ClusterInv(c, s) && Lags(s, i) && s.published == s.root.ann
    ensures CanStep(c, s)
  {
    var x := s.receivers[i];
    assert ReceiverOk(c, x) && PairOk(c, s.root, s.published, x, s.topics[i]);
    assert s.root.ann <= |Plan(c)| by {
      assert OutInv(c, s.root);
    }
    hide SenderInv, OutInv;
    if x.done < x.entered {
      if k :| 0 <= k < c.bucketSize && k !in x.copied {
        assert CanMake(c, s, Copy(i, k));
      } else {
        assert CanMake(c, s, Finish(i));
      }
    } else if x.entered < x.started {
      assert CanMake(c, s, Enter(i));
    } else {
      Unhurried(c, s, i);
    }
  }

  /** A receiver with no broadcast begun and not finished is never blocked. */
  lemma {:induction false} Unhurried(c: Config, s: Cluster, i: nat)
    requires ValidConfig(c) && ShapedCluster(c, s) && i < |s.receivers|
    requires ReceiverOk(c, s.receivers[i]) && !s.receivers[i].pc.Done? && s.receivers[i].done == s.receivers[i].started
    ensures CanStep(c, s)
  {
    var x := s.receivers[i];
    var m := if x.pc.First? || x.pc.Top? then Start(i)
             else if x.pc.AwaitRead? then Wait(i)
             else if x.pc.j < |x.metas| then Yield(i)
             else EndYields(i);
    assert CanMake(c, s, m);
  }

  lemma {:induction false} Yields(c: Config, s: Cluster, i: nat)
    requires ValidConfig(c) && ShapedCluster(c, s) && i < |s.receivers|
    requires ReceiverOk(c, s.receivers[i]) && !s.receivers[i].pc.Done? && !s.receivers[i].pc.AwaitRead?
    ensures CanStep(c, s)
  {
    var x := s.receivers[i];
    var m := if x.pc.First? || x.pc.Top? then Start(i)
             else if x.pc.j < |x.metas| then Yield(i)
             else EndYields(i);
    assert CanMake(c, s, m);
  }

  lemma {:induction false} NoStall(c: Config, s: Cluster)
    requires ValidConfig(c) && ClusterInv(c, s) && !AllDone(s)
    ensures CanStep(c, s)
  {
    hide CanStep;
    if !s.root.pc.Done? {
      hide ReceiverOk, PairOk, RootOk;
      RootMoves(c, s);
      if !CanStep(c, s) {
        var i: nat :| Lags(s, i);
        LaggardMoves(c, s, i);
      }
    } else {
      var i :| 0 <= i < |s.receivers| && !s.receivers[i].pc.Done?;
      var x := s.receivers[i];
      assert ReceiverOk(c, x) && PairOk(c, s.root, s.published, x, s.topics[i]);
      if !x.pc.AwaitRead? {
        Yields(c, s, i);
      } else {
        Unhurried(c, s, i);
      }
    }
  }

  // ---------- termination ----------

  /** What is left of a receiver's current broadcast. */
  ghost function OpCost(c: Config, x: Receiver): nat {
    (if x.entered < x.started then 1 else 0) +
    (if x.done < x.started then Monus(c.bucketSize, |x.copied|) + 1 else 0)
  }

  /** Number of chunks of bucket k. */
  ghost function Chunks(c: Config, k: nat): nat
    requires ValidConfig(c)
  {
    if k < |Plan(c)| then |Plan(c)[k].metas| else 0
  }

  ghost function ReceiverCost(c: Config, x: Receiver): nat
    requires ValidConfig(c)
  {
    match x.pc
    case First => Work(c, 0)
    case Top => Work(c, x.got) + |x.metas| + 3
    case Yielding(j) => Work(c, x.got + 1) + Chunks(c, x.got) + 5 + Monus(|x.metas|, j) + OpCost(c, x)
    case AwaitRead => Work(c, x.got + 1) + Chunks(c, x.got) + 4 + OpCost(c, x)
    case LastYield(j) => Monus(|x.metas|, j) + 1
    case _ => 0
  }

  ghost function RootCost(c: Config, root: Rank, published: nat): nat
    requires ValidConfig(c)
  {
    Cost(c, root) + Monus(root.ann, published)
  }

  ghost function ReceiverCosts(c: Config, xs: seq<Receiver>): nat
    requires ValidConfig(c)
  {
    if xs == [] then 0 else ReceiverCost(c, xs[0]) + ReceiverCosts(c, xs[1..])
  }

  ghost function ClusterCost(c: Config, s: Cluster): nat
    requires ValidConfig(c)
  {
    RootCost(c, s.root, s.published) + ReceiverCosts(c, s.receivers)
  }

  lemma {:induction false} ReceiverCostUpdate(c: Config, xs: seq<Receiver>, i: nat, y: Receiver)
    requires ValidConfig(c) && i < |xs|
    ensures ReceiverCosts(c, xs[i := y]) + ReceiverCost(c, xs[i]) == ReceiverCosts(c, xs) + ReceiverCost(c, y)
  {
    hide ReceiverCost;
    if i == 0 {
      assert xs[i := y][1..] == xs[1..];
    } else {
      assert xs[i := y][1..] == xs[1..][i - 1 := y];
      ReceiverCostUpdate(c, xs[1..], i - 1, y);
    }
  }

  lemma {:induction false} PutCost(c: Config, x: Rank)
    requires ValidConfig(c) && ShapedRank(c, x) && SenderInv(c, x) && (x.pc.Placing? || (x.pc.Fill? && !FlushDue(c, x)))
    ensures Cost(c, Put(c, x)) < Cost(c, x) && Put(c, x).ann == x.ann
  {
    hide TryPlace, Work, PackFrom, Plan;
  }

  lemma {:induction false} RootMoveCost(c: Config, s: Cluster, m: Move)
    requires ValidConfig(c) && ShapedCluster(c, s) && RootOk(c, s.root, s.published, s.opMeta)
    requires CanMake(c, s, m) && !ReceiverMove(m)
    ensures var t := Make(c, s, m);
            RootCost(c, t.root, t.published) < RootCost(c, s.root, s.published) && t.receivers == s.receivers
  {
    hide Work, Plan, IsMeta;
    if m.RootPut? {
      PutCost(c, s.root);
      hide SenderInv, Put, Cost;
    } else if m.RootPublish? {
      hide SenderInv, Cost;
    } else {
      assert OutInv(c, s.root);
      hide SenderInv;
    }
  }

  lemma {:induction false} StartCost(c: Config, s: Cluster, i: nat, x: Receiver)
    requires ValidConfig(c) && ShapedCluster(c, s) && CanMake(c, s, Start(i)) && x == s.receivers[i] && ReceiverOk(c, x)
    ensures ReceiverCost(c, Moved(c, s, x, Start(i))) < ReceiverCost(c, x)
  {
    assert |Plan(c)| > 0 by {
      PlanShape(c);
    }
    if x.pc.First? || !x.isLast {
      WorkStep(c, x.got);
    }
    hide Work, View, Unpack, Delivered, Holds;
  }

  lemma {:induction false} CopyCost(c: Config, s: Cluster, i: nat, k: nat, x: Receiver)
    requires ValidConfig(c) && ShapedCluster(c, s) && CanMake(c, s, Copy(i, k)) && x == s.receivers[i] && ReceiverOk(c, x)
    ensures ReceiverCost(c, Moved(c, s, x, Copy(i, k))) < ReceiverCost(c, x)
  {
    BoundedCard(c.bucketSize, x.copied + {k});
    hide Work, View, Unpack, Delivered, Holds;
  }

  lemma {:induction false} OtherReceiverCost(c: Config, s: Cluster, m: Move, x: Receiver)
    requires ValidConfig(c) && ShapedCluster(c, s) && CanMake(c, s, m) && ReceiverMove(m) && x == s.receivers[m.i]
    requires ReceiverOk(c, x) && (m.Enter? || m.Finish? || m.Yield? || m.EndYields? || m.Wait?)
    ensures ReceiverCost(c, Moved(c, s, x, m)) < ReceiverCost(c, x)
  {
    hide Work, View, Unpack, Delivered, Holds;
  }

  /** Every move brings the end closer. */
  lemma {:induction false} MoveLowersCost(c: Config, s: Cluster, m: Move)
    requires ValidConfig(c) && ClusterInv(c, s) && CanMake(c, s, m)
    ensures ClusterCost(c, Make(c, s, m)) < ClusterCost(c, s)
  {
    hide ReceiverOk, PairOk, RootOk, RootCost, ReceiverCost, ReceiverCosts, Moved;
    if !ReceiverMove(m) {
      RootMoveCost(c, s, m);
    } else {
      var x := s.receivers[m.i];
      if m.Start? {
        StartCost(c, s, m.i, x);
      } else if m.Copy? {
        CopyCost(c, s, m.i, m.k, x);
      } else {
        OtherReceiverCost(c, s, m, x);
      }
      ReceiverCostUpdate(c, s.receivers, m.i, Moved(c, s, x, m));
    }
  }

  lemma {:induction false} ClusterRunsAreBounded(c: Config, run: seq<Cluster>, n: nat)
    requires ValidConfig(c) && IsClusterRun(c, run) && n < |run|
    ensures ClusterCost(c, run[n]) + n <= ClusterCost(c, run[0])
  {
    hide ClusterInv, CanMake, Make, ClusterCost;
    if n > 0 {
      ClusterRunsAreBounded(c, run, n - 1);
      ClusterRunInv(c, run, n - 1);
      assert ClusterNext(c, run[n - 1], run[(n - 1) + 1]);
      var m: Move :| CanMake(c, run[n - 1], m) && run[n] == Make(c, run[n - 1], m);
      MoveLowersCost(c, run[n - 1], m);
    }
  }

  ghost predicate AtRest(c: Config, s: Cluster) {
    forall t :: !ClusterNext(c, s, t)
  }

  lemma {:induction false} Continues(c: Config, s: Cluster)
    requires ValidConfig(c) && ClusterInv(c, s) && !AllDone(s)
    ensures exists t :: ClusterNext(c, s, t)
  {
    hide ClusterInv, CanMake, Make;
    InvIsShaped(c, s);
    NoStall(c, s);
    var m: Move :| CanMake(c, s, m);
    assert ClusterNext(c, s, Make(c, s, m));
  }

  lemma {:induction false} DoneStays(c: Config, s: Cluster, m: Move)
    requires ValidConfig(c) && ClusterInv(c, s) && AllDone(s)
    ensures !CanMake(c, s, m)
  {
  }

  ghost predicate AllReceived(c: Config, s: Cluster)
    requires ValidConfig(c)
  {
    forall i :: 0 <= i < |s.receivers| ==> s.receivers[i].yielded == SentStream(c)
  }

  /** The length of a run is bounded; a run can be continued until every rank is done, and not beyond, and then
      every receiver has yielded the whole stream. */
  lemma {:induction false} EveryBroadcastEnds(c: Config, run: seq<Cluster>, n: nat)
    requires ValidConfig(c) && IsClusterRun(c, run) && n < |run|
    ensures n <= ClusterCost(c, run[0])
    ensures AtRest(c, run[n]) <==> AllDone(run[n])
    ensures AllDone(run[n]) ==> AllReceived(c, run[n])
  {
    hide ClusterInv, CanMake, Make, ClusterCost;
    ClusterRunsAreBounded(c, run, n);
    ClusterRunInv(c, run, n);
    var s := run[n];
    InvIsShaped(c, s);
    if AllDone(s) {
      forall m: Move ensures !CanMake(c, s, m) {
        DoneStays(c, s, m);
      }
      forall i | 0 <= i < |s.receivers| ensures s.receivers[i].yielded == SentStream(c) {
        BroadcastRefinement(c, run, n, i);
      }
    } else {
      Continues(c, s);
    }
  }

  /** Every run, however far it has got, can be completed. */
  lemma {:induction false} BroadcastCompletes(c: Config, run: seq<Cluster>) returns (full: seq<Cluster>)
    requires ValidConfig(c) && IsClusterRun(c, run)
    ensures run <= full && IsClusterRun(c, full) && AllDone(full[|full| - 1])
    decreases ClusterCost(c, run[0]) + 1 - |run|
  {
    hide ClusterInv, ClusterNext, ClusterCost, InitialCluster;
    var last := run[|run| - 1];
    EveryBroadcastEnds(c, run, |run| - 1);
    if AllDone(last) {
      full := run;
    } else {
      var t :| ClusterNext(c, last, t);
      var longer := run + [t];
      forall i | 0 <= i < |longer| - 1 ensures ClusterNext(c, longer[i], longer[i + 1]) {
        if i < |run| - 1 {
          assert ClusterNext(c, run[i], run[i + 1]);
        }
      }
      EveryBroadcastEnds(c, longer, |longer| - 1);
      full := BroadcastCompletes(c, longer);
    }
  }

  function NewReceiver(c: Config): Receiver {
    var buffer: seq<byte> := seq(c.bucketSize, _ => 0);
    Receiver(First, [buffer, buffer], 0, [], false, 0, 0, 0, {}, [], false, 0, [])
  }

  function NewCluster(c: Config, receivers: nat): Cluster {
    Cluster(NewRank(c, true), 0, Meta([], false), seq(receivers, _ => NewReceiver(c)), seq(receivers, _ => []))
  }

  lemma {:induction false} NewClusterIsInitial(c: Config, receivers: nat)
    requires 0 < receivers
    ensures InitialCluster(c, NewCluster(c, receivers))
  {
    var s := NewCluster(c, receivers);
    assert InitialRank(c, s.root, 0);
    forall i | 0 <= i < receivers ensures s.receivers[i] == NewReceiver(c) && s.topics[i] == [] {
    }
    assert ShapedReceiver(c, NewReceiver(c));
    hide ShapedReceiver, NewReceiver, InitialRank;
  }

  lemma {:induction false} NextKeepsReceivers(c: Config, s: Cluster, t: Cluster)
    requires ClusterNext(c, s, t)
    ensures |t.receivers| == |s.receivers|
  {
    var m: Move :| CanMake(c, s, m) && t == Make(c, s, m);
    hide Moved;
  }

  lemma {:induction false} ReceiversStay(c: Config, run: seq<Cluster>, n: nat)
    requires IsClusterRun(c, run) && n < |run|
    ensures |run[n].receivers| == |run[0].receivers|
  {
    hide ClusterNext, InitialCluster;
    if n > 0 {
      ReceiversStay(c, run, n - 1);
      assert ClusterNext(c, run[n - 1], run[(n - 1) + 1]);
      NextKeepsReceivers(c, run[n - 1], run[n]);
    }
  }

  /** For any number of receivers there is a run that ends with everybody done and the whole stream at each. */
  lemma {:induction false} SomeBroadcastCompletes(c: Config, receivers: nat) returns (run: seq<Cluster>)
    requires ValidConfig(c) && 0 < receivers
    ensures IsClusterRun(c, run)
    ensures var last := run[|run| - 1]; |last.receivers| == receivers && AllDone(last) && AllReceived(c, last)
  {
    var s := NewCluster(c, receivers);
    NewClusterIsInitial(c, receivers);
    hide InitialCluster, ClusterNext, NewReceiver, NewRank;
    assert IsClusterRun(c, [s]);
    run := BroadcastCompletes(c, [s]);
    assert run[0] == [s][0];
    ReceiversStay(c, run, |run| - 1);
    EveryBroadcastEnds(c, run, |run| - 1);
  }

  /** End to end: a receiver that has finished merges exactly the weights that were sent. */
  lemma {:induction false} BroadcastDelivers(ws: seq<Weight>, bucketSize: nat, ranks: nat, run: seq<Cluster>, n: nat,
                                             i: nat, junk: byte)
    requires 0 < bucketSize && 2 <= ranks
    requires RoundTrip.DistinctNames(ws) && forall k :: 0 <= k < |ws| ==> ws[k].Valid()
    requires IsClusterRun(Config(Split(ws, bucketSize), bucketSize, ranks), run) && n < |run|
    requires i < |run[n].receivers| && run[n].receivers[i].pc.Done?
    ensures Merge(run[n].receivers[i].yielded, bucketSize, junk) == Ok(RoundTrip.NonEmpty(ws))
  {
    var c := Config(Split(ws, bucketSize), bucketSize, ranks);
    RoundTrip.SplitChunks(ws, bucketSize);
    RoundTrip.PackSplitOk(ws, bucketSize);
    BroadcastRefinement(c, run, n, i);
    RoundTrip.WeightRoundTrip(ws, bucketSize, junk);
  }

  lemma {:induction false} InvIsShaped(c: Config, s: Cluster)
    requires ValidConfig(c) && ClusterInv(c, s)
    ensures ShapedCluster(c, s)
  {
  }
}
