// The inductive invariant of the chain: what each rank knows locally, and what
// each pair of neighbours agrees on.

module NixlInvariant {
  import opened Results
  import opened Weights
  import opened Packing
  import opened NixlChain
  import RoundTrip

  /** The packing succeeds: what the splitter's chunks guarantee. */
  ghost predicate ValidConfig(c: Config) {
    && c.ranks >= 2
    && RoundTrip.Fits(c.chunks, c.bucketSize)
    && Pack(c.chunks, c.bucketSize).Ok?
  }

  /** The buckets the sender packs. */
  ghost function Plan(c: Config): seq<Bucket>
    requires ValidConfig(c)
  {
    Pack(c.chunks, c.bucketSize).value
  }

  lemma {:induction false} PlanShape(c: Config)
    requires ValidConfig(c)
    ensures Plan(c) != [] && RoundTrip.WellFilled(Plan(c), c.bucketSize)
  {
    RoundTrip.PackFromShape(EMPTY, c.chunks, c.bucketSize);
  }

  ghost predicate Holds(buf: seq<byte>, b: Bucket) {
    b.data <= buf
  }

  /** The chunks of the first k buckets, in order. */
  ghost function Delivered(c: Config, k: nat): seq<Chunk>
    requires ValidConfig(c) && k <= |Plan(c)|
  {
    if k == 0 then [] else Delivered(c, k - 1) + Unpack(Plan(c)[k - 1].metas, Plan(c)[k - 1].data)
  }

  /** Announcements: at most one is unconfirmed, and its buffer still holds the announced bucket. */
  ghost predicate OutInv(c: Config, x: Rank)
    requires ValidConfig(c) && ShapedRank(c, x)
  {
    && x.fin <= x.ann <= |Plan(c)| && x.ann <= x.fin + 1
    && x.pending == (if x.fin < x.ann then Some(x.fin) else None)
    && (x.fin < x.ann ==> Holds(x.bufs[x.out], Plan(c)[x.fin]))
  }

  ghost predicate SenderInv(c: Config, x: Rank)
    requires ValidConfig(c) && ShapedRank(c, x)
  {
    && OutInv(c, x)
    && RoundTrip.Fits(x.rest, c.bucketSize)
    && x.xfer.Idle? && x.yielded == [] && x.rd == x.cp == 0
    && match x.pc
       case Fill =>
         && (x.fin < x.ann ==> x.out != x.sendIx)
         && PackFrom(Filling(x), x.rest, c.bucketSize) == Ok(Plan(c)[x.ann..])
       case Placing =>
         && (x.fin < x.ann ==> x.out != x.sendIx)
         && Filling(x) == EMPTY
         && TryPlace(EMPTY, x.rest[0], c.bucketSize).Ok?
         && PackFrom(Place(EMPTY, x.rest[0]), x.rest[1..], c.bucketSize) == Ok(Plan(c)[x.ann..])
       case Drain => x.ann == |Plan(c)| == x.fin + 1
       case Done => x.ann == x.fin == |Plan(c)|
       case _ => false
  }

  /** The metadata of bucket k, with its last-bucket flag. */
  ghost predicate IsMeta(c: Config, k: nat, metas: seq<TensorMeta>, last: bool)
    requires ValidConfig(c)
  {
    k < |Plan(c)| && metas == Plan(c)[k].metas && (last <==> k == |Plan(c)| - 1)
  }

  ghost predicate Counts(hasNext: bool, x: Rank, ann: nat, fin: nat) {
    if hasNext then x.ann == ann && x.fin == fin && (fin < ann ==> x.out == x.sendIx) else x.ann == x.fin == 0
  }

  /** The current bucket, number got - 1, lies whole in the buffer chunks are yielded from. */
  ghost predicate HasCurrent(c: Config, got: nat, metas: seq<TensorMeta>, isLast: bool, buf: seq<byte>)
    requires ValidConfig(c)
  {
    0 < got && IsMeta(c, got - 1, metas, isLast) && Holds(buf, Plan(c)[got - 1])
  }

  /** Bucket number got is being read into, or lies in, the other buffer. */
  ghost predicate HasIncoming(c: Config, x: Rank)
    requires ValidConfig(c) && ShapedRank(c, x)
  {
    && x.rd == x.got + 1 && x.got <= x.cp <= x.rd
    && IsMeta(c, x.got, x.nextMetas, x.nextLast)
    && (x.xfer.InFlight? <==> x.cp < x.rd)
    && (x.xfer.InFlight? ==> x.xfer.dst != x.sendIx && x.xfer.key == x.got)
    && (x.xfer.Idle? ==> Holds(x.bufs[1 - x.sendIx], Plan(c)[x.got]))
  }

  ghost predicate NoIncoming(x: Rank) {
    x.xfer.Idle? && x.rd == x.cp == x.got
  }

  /** Everything before the current bucket and j chunks of it have been yielded. */
  ghost predicate YieldedUpTo(c: Config, got: nat, metas: seq<TensorMeta>, yielded: seq<Chunk>, j: nat)
    requires ValidConfig(c)
  {
    && 0 < got <= |Plan(c)|
    && j <= |metas| == |Plan(c)[got - 1].metas|
    && yielded == Delivered(c, got - 1) + Unpack(Plan(c)[got - 1].metas, Plan(c)[got - 1].data)[..j]
  }

  ghost predicate ReceiverInv(c: Config, x: Rank, hasNext: bool)
    requires ValidConfig(c) && ShapedRank(c, x)
  {
    && OutInv(c, x)
    && x.got <= |Plan(c)|
    && (x.pc.Top? || x.pc.Fetch? || x.pc.Yielding? || x.pc.LastYield? ==>
          HasCurrent(c, x.got, x.metas, x.isLast, x.bufs[x.sendIx]))
    && match x.pc
       case First => x.got == 0 && NoIncoming(x) && Counts(hasNext, x, 0, 0) && x.yielded == []
       case Top => NoIncoming(x) && Counts(hasNext, x, x.got - 1, x.got - 1) && x.yielded == Delivered(c, x.got - 1)
       case Fetch => !x.isLast && NoIncoming(x) && Counts(hasNext, x, x.got, x.got - 1) &&
                     x.yielded == Delivered(c, x.got - 1)
       case Yielding(j) => !x.isLast && HasIncoming(c, x) && Counts(hasNext, x, x.got, x.got - 1) &&
                           YieldedUpTo(c, x.got, x.metas, x.yielded, j)
       case AwaitRead => HasIncoming(c, x) && Counts(hasNext, x, x.got, x.got) && x.yielded == Delivered(c, x.got)
       case LastYield(j) => x.isLast && NoIncoming(x) && Counts(hasNext, x, x.got, x.got - 1) &&
                            YieldedUpTo(c, x.got, x.metas, x.yielded, j)
       case Done => x.got == |Plan(c)| && NoIncoming(x) && Counts(hasNext, x, x.got, x.got) &&
                    x.yielded == Delivered(c, x.got)
       case _ => false
  }

  /** Neighbours: an unconfirmed announcement is a message, a read in progress, or a notice, and only one of these. */
  ghost predicate LinkInv(c: Config, up: Rank, down: Rank, msgs: seq<Msg>, notes: seq<nat>)
    requires ValidConfig(c) && ShapedRank(c, up) && ShapedRank(c, down)
  {
    && up.fin <= down.cp <= down.rd <= up.ann <= up.fin + 1
    && (if down.rd < up.ann then
          |msgs| == 1 && msgs[0].buf == up.out && msgs[0].key == down.rd && IsMeta(c, down.rd, msgs[0].metas, msgs[0].isLast)
        else msgs == [])
    && notes == (if up.fin < down.cp then [up.fin] else [])
    && (down.xfer.InFlight? ==> down.cp < down.rd && CopyInv(c, up, down))
  }

  /** The bytes copied so far are those of the announced buffer. */
  ghost predicate CopyInv(c: Config, up: Rank, down: Rank)
    requires ShapedRank(c, up) && ShapedRank(c, down) && down.xfer.InFlight?
  {
    && down.xfer.src == up.out
    && forall i :: 0 <= i < c.bucketSize && i in down.xfer.copied ==>
         down.bufs[down.xfer.dst][i] == up.bufs[up.out][i]
  }

  ghost predicate RankInv(c: Config, x: Rank, r: nat)
    requires ValidConfig(c) && ShapedRank(c, x)
  {
    if r == 0 then SenderInv(c, x) else ReceiverInv(c, x, HasNext(c, r))
  }

  ghost predicate Inv(c: Config, s: State)
    requires ValidConfig(c)
  {
    && Shaped(c, s)
    && (forall r :: 0 <= r < c.ranks ==> RankInv(c, s.ranks[r], r))
    && (forall r :: 0 <= r < c.ranks - 1 ==> LinkInv(c, s.ranks[r], s.ranks[r + 1], s.msgs[r], s.notes[r]))
  }

  lemma {:induction false} InitInv(c: Config, s: State)
    requires ValidConfig(c) && Init(c, s)
    ensures Inv(c, s)
  {
    forall r | 0 <= r < c.ranks ensures RankInv(c, s.ranks[r], r) {
      assert InitialRank(c, s.ranks[r], r);
      assert Filling(s.ranks[r]) == EMPTY;
      assert Plan(c)[0..] == Plan(c);
    }
    forall r | 0 <= r < c.ranks - 1 ensures LinkInv(c, s.ranks[r], s.ranks[r + 1], s.msgs[r], s.notes[r]) {
      assert InitialRank(c, s.ranks[r], r) && InitialRank(c, s.ranks[r + 1], r + 1);
    }
  }
}
