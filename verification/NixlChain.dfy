// The pipelined weight transfer of the NIXL engine as a step system: rank 0
// packs and sends, every later rank reads a bucket from its predecessor while
// it forwards and yields the bucket before it. Any rank may move at any time.

module NixlChain {
  import opened Results
  import opened Weights
  import opened Packing

  /** `chunks` is the sender's stream; there are `ranks` agents in the chain, rank 0 being the sender. */
  datatype Config = Config(chunks: seq<Chunk>, bucketSize: nat, ranks: nat)

  /** Index of one of a rank's two buffers. */
  type BufIx = i: nat | i < 2

  /** An announcement: which of the sender's two buffers to read, and what it holds. */
  datatype Msg = Msg(buf: BufIx, metas: seq<TensorMeta>, isLast: bool, key: nat)

  /** A read in progress copies single bytes, in any order. */
  datatype Xfer = Idle | InFlight(src: BufIx, dst: BufIx, key: nat, copied: set<nat>)

  datatype Pc =
    | Fill             // sender: the packing loop, before the overflow test
    | Placing          // sender: after a flush, before the chunk is written
    | Drain            // sender: waiting for the last bucket to be read
    | First            // receiver: waiting for the first announcement
    | Top              // receiver: loop head, a whole bucket in the send buffer
    | Fetch            // receiver: waiting for the next announcement
    | Yielding(j: nat) // receiver: chunk j of the current bucket is next, the next bucket is being read
    | AwaitRead        // receiver: waiting for its own read
    | LastYield(j: nat)
    | Done
    | Crashed          // a failed assert

  /** The local variables of one rank. `out` is the buffer of the latest announcement; `ann`, `fin`, `rd`, `cp`
      and `got` count announcements made, confirmed, reads begun, reads completed and buckets made current. */
  datatype Rank = Rank(
    pc: Pc, bufs: seq<seq<byte>>, sendIx: BufIx,
    metas: seq<TensorMeta>, isLast: bool, nextMetas: seq<TensorMeta>, nextLast: bool,
    rest: seq<Chunk>, offset: nat,
    pending: Option<nat>, out: BufIx, xfer: Xfer, yielded: seq<Chunk>,
    ann: nat, fin: nat, rd: nat, cp: nat, got: nat)

  /** `msgs[r]` runs from rank r to rank r + 1, `notes[r]` (completion notices) the other way. */
  datatype State = State(ranks: seq<Rank>, msgs: seq<seq<Msg>>, notes: seq<seq<nat>>)

  datatype Action = PutChunk | Ship | Confirm | Read | Announce | YieldOne | EndYield | EndRead | CopyByte(i: nat) | Complete

  ghost predicate Shaped(c: Config, s: State) {
    && |s.ranks| == c.ranks >= 2
    && |s.msgs| == |s.notes| == c.ranks - 1
    && forall r :: 0 <= r < c.ranks ==> ShapedRank(c, s.ranks[r])
  }

  ghost predicate ShapedRank(c: Config, x: Rank) {
    && |x.bufs| == 2 && |x.bufs[0]| == |x.bufs[1]| == c.bucketSize
    && x.offset <= c.bucketSize
    && (x.pc.Placing? ==> x.rest != [])
    && (x.xfer.InFlight? ==> forall i :: i in x.xfer.copied ==> i < c.bucketSize)
  }

  function HasNext(c: Config, r: nat): bool {
    r + 1 < c.ranks
  }

  /** The bucket the sender is filling. */
  function Filling(x: Rank): Bucket
    requires x.sendIx < |x.bufs| && x.offset <= |x.bufs[x.sendIx]|
  {
    Bucket(x.metas, x.bufs[x.sendIx][..x.offset])
  }

  ghost predicate FlushDue(c: Config, x: Rank)
    requires ShapedRank(c, x)
  {
    x.pc.Fill? && (x.rest == [] || x.offset + x.rest[0].meta.chunkSize > c.bucketSize)
  }

  ghost predicate Enabled(c: Config, s: State, r: nat, a: Action)
    requires Shaped(c, s)
  {
    r < c.ranks &&
    var x := s.ranks[r];
    match a
    case PutChunk => r == 0 && (x.pc.Placing? || (x.pc.Fill? && !FlushDue(c, x)))
    case Ship => r == 0 && FlushDue(c, x) && x.pending.None?
    case Confirm => r == 0 && (FlushDue(c, x) || x.pc.Drain?) && x.pending.Some? && s.notes[0] != []
    case Read => r > 0 && (x.pc.First? || x.pc.Fetch?) && s.msgs[r - 1] != []
    case Announce => r > 0 && x.pc.Top?
    case YieldOne => r > 0 && (x.pc.Yielding? || x.pc.LastYield?) && x.pc.j < |x.metas|
    case EndYield => r > 0 && (x.pc.Yielding? || x.pc.LastYield?) && x.pc.j == |x.metas| &&
                     (x.pending.Some? ==> HasNext(c, r) && s.notes[r] != [])
    case EndRead => r > 0 && x.pc.AwaitRead? && x.xfer.Idle?
    case CopyByte(i) => r > 0 && x.xfer.InFlight? && i < c.bucketSize && i !in x.xfer.copied
    case Complete => r > 0 && x.xfer.InFlight? && forall i :: 0 <= i < c.bucketSize ==> i in x.xfer.copied
  }

  /** Writing one chunk into the send buffer at the current offset. */
  function Put(c: Config, x: Rank): Rank
    requires x.rest != [] && x.sendIx < |x.bufs| && x.offset <= |x.bufs[x.sendIx]|
  {
    var ch := x.rest[0];
    if TryPlace(Filling(x), ch, c.bucketSize).Err? || |x.bufs[x.sendIx]| < x.offset + |ch.data| then x.(pc := Crashed)
    else
      var buf := x.bufs[x.sendIx];
      x.(pc := Fill,
         bufs := x.bufs[x.sendIx := buf[..x.offset] + ch.data + buf[x.offset + |ch.data|..]],
         metas := x.metas + [ch.meta.(offset := Some(x.offset))],
         offset := x.offset + ch.meta.chunkSize,
         rest := x.rest[1..])
  }

  /** Announcing the send buffer: the message and the op object to wait on. */
  function Announced(x: Rank): Rank {
    x.(pending := Some(x.ann), out := x.sendIx, ann := x.ann + 1)
  }

  /** Taking a completion notice; it must carry the key of the pending operation. */
  function Confirmed(x: Rank, note: nat, next: Pc): Rank {
    if x.pending != Some(note) then x.(pc := Crashed)
    else x.(pc := next, pending := None, fin := x.fin + 1)
  }

  ghost function Apply(c: Config, s: State, r: nat, a: Action): State
    requires Shaped(c, s) && Enabled(c, s, r, a)
  {
    var x := s.ranks[r];
    match a
    case PutChunk =>
      s.(ranks := s.ranks[r := Put(c, x)])
    case Ship =>
      var msg := Msg(x.sendIx, x.metas, x.rest == [], x.ann);
      var y := Announced(x);
      s.(ranks := s.ranks[r := if x.rest == [] then y.(pc := Drain)
                               else y.(pc := Placing, sendIx := 1 - x.sendIx, metas := [], offset := 0)],
         msgs := s.msgs[r := s.msgs[r] + [msg]])
    case Confirm =>
      s.(ranks := s.ranks[r := Confirmed(x, s.notes[r][0], if x.pc.Drain? then Done else x.pc)],
         notes := s.notes[r := s.notes[r][1..]])
    case Read =>
      var m := s.msgs[r - 1][0];
      s.(ranks := s.ranks[r := x.(pc := if x.pc.First? then AwaitRead else Yielding(0),
                                  nextMetas := m.metas, nextLast := m.isLast,
                                  xfer := InFlight(m.buf, 1 - x.sendIx, m.key, {}),
                                  rd := x.rd + 1)],
         msgs := s.msgs[r - 1 := s.msgs[r - 1][1..]])
    case Announce =>
      var y := x.(pc := if x.isLast then LastYield(0) else Fetch);
      if HasNext(c, r) then
        s.(ranks := s.ranks[r := Announced(y)],
           msgs := s.msgs[r := s.msgs[r] + [Msg(x.sendIx, x.metas, x.isLast, x.ann)]])
      else s.(ranks := s.ranks[r := y])
    case YieldOne =>
      var pc := if x.pc.Yielding? then Yielding(x.pc.j + 1) else LastYield(x.pc.j + 1);
      s.(ranks := s.ranks[r := x.(pc := pc, yielded := x.yielded + [View(x.metas[x.pc.j], x.bufs[x.sendIx])])])
    case EndYield =>
      var pc := if x.pc.Yielding? then AwaitRead else Done;
      if x.pending.Some? then
        s.(ranks := s.ranks[r := Confirmed(x, s.notes[r][0], pc)], notes := s.notes[r := s.notes[r][1..]])
      else s.(ranks := s.ranks[r := x.(pc := pc)])
    case EndRead =>
      s.(ranks := s.ranks[r := x.(pc := Top, metas := x.nextMetas, isLast := x.nextLast,
                                  sendIx := 1 - x.sendIx, got := x.got + 1)])
    case CopyByte(i) =>
      var b := s.ranks[r - 1].bufs[x.xfer.src][i];
      s.(ranks := s.ranks[r := x.(bufs := x.bufs[x.xfer.dst := x.bufs[x.xfer.dst][i := b]],
                                  xfer := x.xfer.(copied := x.xfer.copied + {i}))])
    case Complete =>
      s.(ranks := s.ranks[r := x.(xfer := Idle, cp := x.cp + 1)],
         notes := s.notes[r - 1 := s.notes[r - 1] + [x.xfer.key]])
  }

  ghost predicate InitialRank(c: Config, x: Rank, r: nat) {
    && ShapedRank(c, x)
    && x.pc == (if r == 0 then Fill else First)
    && x.sendIx == 0 && x.metas == [] && x.offset == 0 && x.rest == (if r == 0 then c.chunks else [])
    && x.pending == None && x.xfer == Idle && x.yielded == []
    && x.ann == x.fin == x.rd == x.cp == x.got == 0
  }

  ghost predicate Init(c: Config, s: State) {
    && Shaped(c, s)
    && (forall r :: 0 <= r < c.ranks ==> InitialRank(c, s.ranks[r], r))
    && (forall r :: 0 <= r < c.ranks - 1 ==> s.msgs[r] == [] && s.notes[r] == [])
  }

  ghost predicate Next(c: Config, s: State, t: State) {
    Shaped(c, s) && exists r: nat, a: Action :: Enabled(c, s, r, a) && t == Apply(c, s, r, a)
  }

  /** A finite run: any interleaving of the ranks' steps. */
  ghost predicate IsRun(c: Config, run: seq<State>) {
    && run != [] && Init(c, run[0])
    && forall i :: 0 <= i < |run| - 1 ==> Next(c, run[i], run[i + 1])
  }
}
