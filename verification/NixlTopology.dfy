// Who is whose neighbour in the NIXL chain.

module NixlTopology {
  import opened Results

  /** Keyword lists for one group of workers, one entry a worker. */
  datatype Kwargs<M> = Kwargs(rank: seq<int>, worldSize: seq<int>, prev: seq<Option<M>>, next: seq<Option<M>>)

  /** A Python slice bound: negative bounds count from the end, and both ends clip. */
  function Bound(i: int, n: nat): nat {
    if i < 0 then (if i + n < 0 then 0 else i + n) else if i > n then n else i
  }

  function PySlice<T>(s: seq<T>, lo: int, hi: int): seq<T> {
    var a, b := Bound(lo, |s|), Bound(hi, |s|);
    if a <= b then s[a..b] else []
  }

  function Repeat<T>(x: T, n: int): seq<T> {
    seq(if n < 0 then 0 else n, _ => x)
  }

  function Present<M>(s: seq<M>): seq<Option<M>> {
    seq(|s|, i requires 0 <= i < |s| => Some(s[i]))
  }

  function BuildTopology<M>(trainers: nat, rollouts: nat, metadata: seq<M>): (Kwargs<M>, Kwargs<M>)
    requires 1 <= trainers && |metadata| == trainers + rollouts
  {
    var trainer := Kwargs(
      [0] + Repeat(-1, trainers - 1),
      Repeat(rollouts + 1, trainers),
      Repeat(None, trainers),
      [Some(metadata[if rollouts == 0 then 0 else |metadata| - rollouts])] + Repeat(None, trainers - 1));
    var rollout := Kwargs(
      seq(rollouts, i => i + 1),
      Repeat(rollouts + 1, rollouts),
      [Some(metadata[0])] + Present(PySlice(metadata, -(rollouts as int), -1)),
      Present(PySlice(metadata, -(rollouts as int) + 1, |metadata|)) + [None]);
    (trainer, rollout)
  }

  /** The caller's check that every keyword list has one entry a worker. */
  predicate LengthsMatch<M>(k: Kwargs<M>, n: nat) {
    |k.rank| == n && |k.worldSize| == n && |k.prev| == n && |k.next| == n
  }

  /** The asserts of `init_process_group`. */
  predicate Accepts<M>(rank: int, worldSize: int, prev: Option<M>, next: Option<M>) {
    if rank < 0 then prev.None? && next.None?
    else if rank == 0 then prev.None? && next.Some?
    else if rank < worldSize - 1 then prev.Some? && next.Some?
    else if rank == worldSize - 1 then prev.Some? && next.None?
    else true
  }

  predicate AllAccept<M>(k: Kwargs<M>, n: nat)
    requires LengthsMatch(k, n)
  {
    forall i :: 0 <= i < n ==> Accepts(k.rank[i], k.worldSize[i], k.prev[i], k.next[i])
  }

  /** Rank 0 is the first trainer, ranks 1 to `rollouts` are the rollout workers in order. */
  function Agent<M>(trainers: nat, metadata: seq<M>, r: nat): M
    requires 1 <= trainers <= |metadata| && r <= |metadata| - trainers
  {
    if r == 0 then metadata[0] else metadata[trainers + r - 1]
  }

  ghost predicate IsChain<M>(trainers: nat, rollouts: nat, metadata: seq<M>, t: Kwargs<M>, k: Kwargs<M>)
    requires 1 <= trainers && |metadata| == trainers + rollouts
    requires LengthsMatch(t, trainers) && LengthsMatch(k, rollouts)
  {
    && 1 <= rollouts
    && (forall i :: 0 <= i < trainers ==> t.worldSize[i] == rollouts + 1)
    && (forall i :: 0 <= i < rollouts ==> k.worldSize[i] == rollouts + 1)
    && t.rank[0] == 0 && t.next[0] == Some(Agent(trainers, metadata, 1))
    && (forall i :: 1 <= i < trainers ==> t.rank[i] == -1)
    && (forall i :: 0 <= i < rollouts ==>
          && k.rank[i] == i + 1
          && k.prev[i] == Some(Agent(trainers, metadata, i))
          && k.next[i] == if i + 1 < rollouts then Some(Agent(trainers, metadata, i + 2)) else None)
  }

  lemma {:induction false} RolloutLinks<M>(trainers: nat, rollouts: nat, metadata: seq<M>)
    requires 1 <= trainers && 2 <= rollouts && |metadata| == trainers + rollouts
    ensures var k := BuildTopology(trainers, rollouts, metadata).1;
            && LengthsMatch(k, rollouts)
            && forall i :: 0 <= i < rollouts ==>
                 && k.prev[i] == Some(Agent(trainers, metadata, i))
                 && k.next[i] == if i + 1 < rollouts then Some(Agent(trainers, metadata, i + 2)) else None
  {
    assert PySlice(metadata, -(rollouts as int), -1) == metadata[trainers..|metadata| - 1];
    assert PySlice(metadata, -(rollouts as int) + 1, |metadata|) == metadata[trainers + 1..];
  }

  lemma {:induction false} TooFewRollouts<M>(trainers: nat, rollouts: nat, metadata: seq<M>)
    requires 1 <= trainers && rollouts < 2 && |metadata| == trainers + rollouts
    ensures !LengthsMatch(BuildTopology(trainers, rollouts, metadata).1, rollouts)
  {
  }

  /** The chain is set up if and only if there are at least two rollout workers: with one, the slice that
      should be empty starts at 0 and is the whole list. */
  lemma {:induction false} TopologyIsChainIffTwoRollouts<M>(trainers: nat, rollouts: nat, metadata: seq<M>)
    requires 1 <= trainers && |metadata| == trainers + rollouts
    ensures var (t, k) := BuildTopology(trainers, rollouts, metadata);
            && ((LengthsMatch(t, trainers) && LengthsMatch(k, rollouts)) <==> 2 <= rollouts)
            && (2 <= rollouts ==>
                  && AllAccept(t, trainers) && AllAccept(k, rollouts)
                  && IsChain(trainers, rollouts, metadata, t, k))
  {
    if rollouts >= 2 {
      RolloutLinks(trainers, rollouts, metadata);
    } else {
      TooFewRollouts(trainers, rollouts, metadata);
    }
    hide PySlice, Present, Bound;
  }

  /** One trainer and one rollout worker: the rollout worker is offered three next neighbours. */
  lemma {:induction false} SingleRolloutIsRejected()
    ensures var (t, k) := BuildTopology(1, 1, ["trainer", "rollout"]); !LengthsMatch(k, 1) && |k.next| == 3
  {
  }
}
