// The trainer's replay buffer: the tables it keeps per partition and the three
// operations on them, each holding the lock for its whole body.

module ReplayTable {
  import opened Results

  /** A prompt's own entry, or one output of one of its sessions. */
  datatype Key = Prompt(uid: nat) | Output(uid: nat, session: nat, index: nat)

  datatype Status = Running | Success | Finished | Failure

  /** The tags the protocol reads; a writer may leave either out. */
  datatype Tag = Tag(steps: Option<nat>, status: Option<Status>)

  type Table = map<Key, Tag>

  /** `dict.update` on tags. */
  function Update(tag: Tag, more: Tag): Tag {
    Tag(if more.steps.Some? then more.steps else tag.steps, if more.status.Some? then more.status else tag.status)
  }

  function Lookup(t: Table, k: Key): Tag {
    if k in t then t[k] else Tag(None, None)
  }

  function Merge(t: Table, items: Table): Table {
    map k | k in t.Keys + items.Keys :: if k in items then Update(Lookup(t, k), items[k]) else t[k]
  }

  /** Of every tag the latest value counts; keys that are not listed keep what they have. */
  lemma {:induction false} LatestTagWins(t: Table, items: Table, k: Key)
    ensures k in Merge(t, items) <==> k in t || k in items
    ensures k in items ==>
              var now := Merge(t, items)[k];
              && (items[k].steps.Some? ==> now.steps == items[k].steps)
              && (items[k].status.Some? ==> now.status == items[k].status)
              && (items[k].steps == None ==> now.steps == if k in t then t[k].steps else None)
              && (items[k].status == None ==> now.status == if k in t then t[k].status else None)
    ensures k in t && k !in items ==> Merge(t, items)[k] == t[k]
  {
  }

  predicate IsRunning(t: Table, g: nat, k: Key) {
    k in t && t[k].steps == Some(g) && t[k].status == Some(Running)
  }

  /** What one pass of `sample` returns for step g, if it does not have to wait. */
  function Sampled(t: Table, g: nat): set<Key> {
    set k | k in t && t[k].steps == Some(g) && t[k].status == Some(Success)
  }

  ghost predicate MustWait(t: Table, g: nat) {
    exists k :: IsRunning(t, g, k)
  }

  /** Every entry can be asked for its step and its status. */
  ghost predicate Complete(t: Table) {
    forall k :: k in t ==> t[k].steps.Some? && t[k].status.Some?
  }

  datatype Sample = Wait | Batch(keys: set<Key>) | KeyError

  class ReplayBuffer {
    var partitions: map<string, Table>

    /** The partition's table; a partition not yet seen is empty. */
    ghost function Partition(id: string): Table
      reads this
    {
      if id in partitions then partitions[id] else map[]
    }

    constructor ()
      ensures forall id :: Partition(id) == map[]
    {
      partitions := map[];
    }

    method Add(id: string, items: Table)
      modifies this
      ensures Partition(id) == Merge(old(Partition(id)), items)
      ensures forall other :: other != id ==> Partition(other) == old(Partition(other))
    {
      var partition: Table := if id in partitions then partitions[id] else map[];
      ghost var before := partition;
      var todo := items.Keys;
      while todo != {}
        invariant todo <= items.Keys
        invariant partition.Keys == before.Keys + (items.Keys - todo)
        invariant forall k :: k in partition ==>
                    partition[k] == if k in items && k !in todo then Update(Lookup(before, k), items[k]) else before[k]
        decreases todo
      {
        var key :| key in todo;
        todo := todo - {key};
        if key !in partition {
          partition := partition[key := Tag(None, None)];
        }
        partition := partition[key := Update(partition[key], items[key])];
      }
      assert partition == Merge(before, items);
      partitions := partitions[id := partition];
    }

    method Remove(id: string, keys: seq<Key>)
      modifies this
      ensures Partition(id) == old(Partition(id)) - (set k | k in keys)
      ensures forall other :: other != id ==> Partition(other) == old(Partition(other))
    {
      var partition: Table := if id in partitions then partitions[id] else map[];
      ghost var before := partition;
      for i := 0 to |keys|
        invariant partition == before - (set k | k in keys[..i])
      {
        assert keys[..i + 1] == keys[..i] + [keys[i]];
        partition := partition - {keys[i]};
      }
      assert keys[..|keys|] == keys;
      partitions := partitions[id := partition];
    }

    /** One pass of the sampling loop over the partition, under the lock. */
    method SampleOnce(id: string, g: nat) returns (r: Sample)
      ensures Complete(Partition(id)) ==> !r.KeyError?
      ensures r.Wait? ==> MustWait(Partition(id), g)
      ensures r.Batch? ==> !MustWait(Partition(id), g) && r.keys == Sampled(Partition(id), g)
    {
      var partition: Table := if id in partitions then partitions[id] else map[];
      var keys: set<Key> := {};
      var todo := partition.Keys;
      while todo != {}
        invariant todo <= partition.Keys
        invariant forall k :: k in partition && k !in todo ==> !IsRunning(partition, g, k)
        invariant keys == set k | k in partition && k !in todo &&
                              partition[k].steps == Some(g) && partition[k].status == Some(Success)
        decreases todo
      {
        var key :| key in todo;
        todo := todo - {key};
        var tag := partition[key];
        if tag.steps.None? {
          return KeyError;
        }
        if tag.steps == Some(g) {
          if tag.status.None? {
            return KeyError;
          }
          if tag.status == Some(Running) {
            assert IsRunning(partition, g, key);
            return Wait;
          } else if tag.status == Some(Success) {
            keys := keys + {key};
          }
        }
      }
      return Batch(keys);
    }
  }
}

module Rollout {
  import opened Results
  import opened ReplayTable

  datatype PromptState = Pending | Active | Completed | Failed

  /** A prompt of one training step, with the output keys its sessions have put so far. */
  datatype PromptInfo = PromptInfo(step: nat, state: PromptState, produced: set<Key>)

  datatype Phase = Idle | Registered | Sampling | Clearing(keys: set<Key>) | Removing(keys: set<Key>)

  /** The train partition of the queue and of the replay buffer, the poll thread's latest listing, the prompts
      the workers know, and the trainer with its current step and the batches it was given. */
  datatype World = World(
    queue: Table, buffer: Table, listing: Option<Table>,
    prompts: map<nat, PromptInfo>,
    step: nat, phase: Phase, batches: seq<set<Key>>)

  datatype Event =
    | Register(uids: set<nat>)        // generate_sequences: prompts entered as running
    | Launch                          // ... and handed to the workers
    | PutOutputs(uid: nat, keys: set<Key>)
    | Finish(uid: nat)
    | Fail(uid: nat)
    | List                            // poll thread: kv_list
    | AddListing                      // poll thread: add
    | TrySample                       // one pass of sample for the current step
    | Clear | Remove

  function PromptKeys(uids: set<nat>): set<Key> {
    set u | u in uids :: Prompt(u)
  }

  function RunningItems(uids: set<nat>, g: nat): Table {
    map k | k in PromptKeys(uids) :: Tag(Some(g), Some(Running))
  }

  function OutputItems(keys: set<Key>, g: nat): Table {
    map k | k in keys :: Tag(Some(g), Some(Success))
  }

  predicate OutputsOf(uid: nat, keys: set<Key>) {
    forall k :: k in keys ==> k.Output? && k.uid == uid
  }

  ghost predicate Enabled(w: World, e: Event) {
    match e
    case Register(uids) => w.phase == Idle && uids !! w.prompts.Keys
    case Launch => w.phase == Registered
    // a failed prompt's other sessions may still deliver; a finished prompt's have all delivered
    case PutOutputs(uid, keys) => uid in w.prompts && OutputsOf(uid, keys) &&
                                  (w.prompts[uid].state.Active? || w.prompts[uid].state.Failed?)
    case Finish(uid) => uid in w.prompts && w.prompts[uid].state.Active?
    case Fail(uid) => uid in w.prompts && w.prompts[uid].state.Active?
    case List => w.listing.None?
    case AddListing => w.listing.Some?
    case TrySample => w.phase == Sampling
    case Clear => w.phase.Clearing?
    case Remove => w.phase.Removing?
  }

  ghost function Apply(w: World, e: Event): World
    requires Enabled(w, e)
  {
    match e
    case Register(uids) =>
      w.(buffer := Merge(w.buffer, RunningItems(uids, w.step)),
         prompts := w.prompts + (map u | u in uids :: PromptInfo(w.step, Pending, {})),
         phase := Registered)
    case Launch =>
      w.(prompts := map u | u in w.prompts ::
             if w.prompts[u].state.Pending? then w.prompts[u].(state := Active) else w.prompts[u],
         phase := Sampling)
    case PutOutputs(uid, keys) =>
      w.(queue := Merge(w.queue, OutputItems(keys, w.prompts[uid].step)),
         prompts := w.prompts[uid := w.prompts[uid].(produced := w.prompts[uid].produced + keys)])
    case Finish(uid) =>
      w.(queue := Merge(w.queue, map[Prompt(uid) := Tag(None, Some(Finished))]),
         prompts := w.prompts[uid := w.prompts[uid].(state := Completed)])
    case Fail(uid) =>
      w.(queue := Merge(w.queue, map[Prompt(uid) := Tag(None, Some(Failure))]),
         prompts := w.prompts[uid := w.prompts[uid].(state := Failed)])
    case List => w.(listing := Some(w.queue))
    case AddListing => w.(buffer := Merge(w.buffer, w.listing.value), listing := None)
    case TrySample =>
      if MustWait(w.buffer, w.step) then w
      else w.(phase := Clearing(Sampled(w.buffer, w.step)), batches := w.batches + [Sampled(w.buffer, w.step)])
    case Clear => w.(queue := w.queue - w.phase.keys, phase := Removing(w.phase.keys))
    case Remove => w.(buffer := w.buffer - w.phase.keys, phase := Idle, step := w.step + 1)
  }

  ghost predicate Initial(w: World) {
    && w.queue == map[] && w.buffer == map[] && w.listing == None
    && w.prompts == map[] && w.phase == Idle && w.batches == []
  }

  ghost predicate Next(w: World, v: World) {
    exists e: Event :: Enabled(w, e) && v == Apply(w, e)
  }

  ghost predicate IsRun(run: seq<World>) {
    run != [] && Initial(run[0]) && forall i :: 0 <= i < |run| - 1 ==> Next(run[i], run[i + 1])
  }

  // ---------- the invariant ----------

  /** An entry of the queue, or of a listing of it. */
  ghost predicate QueueEntry(w: World, k: Key, t: Tag) {
    && k.uid in w.prompts
    && match k
       case Prompt(u) => t.steps == None && (t.status == Some(Finished) || t.status == Some(Failure)) &&
                         (t.status == Some(Finished) ==> w.prompts[u].state.Completed?) &&
                         (t.status == Some(Failure) ==> w.prompts[u].state.Failed?)
       case Output(u, s, i) => t == Tag(Some(w.prompts[u].step), Some(Success)) && k in w.prompts[u].produced
  }

  ghost predicate BufferEntry(w: World, k: Key, t: Tag) {
    && k.uid in w.prompts && t.steps == Some(w.prompts[k.uid].step)
    && match k
       case Prompt(u) => (t.status == Some(Running) || t.status == Some(Finished) || t.status == Some(Failure)) &&
                         (t.status == Some(Finished) ==> w.prompts[u].state.Completed?) &&
                         (t.status == Some(Failure) ==> w.prompts[u].state.Failed?)
       case Output(u, s, i) => t.status == Some(Success) && k in w.prompts[u].produced
  }

  /** The step's batch has not been taken yet. */
  ghost predicate Untaken(w: World, g: nat) {
    g > w.step || (g == w.step && (w.phase.Idle? || w.phase.Registered? || w.phase.Sampling?))
  }

  /** A prompt known to have finished, its step's batch not taken yet. */
  ghost predicate KnownFinished(w: World, t: Table, u: nat) {
    u in w.prompts && Untaken(w, w.prompts[u].step) && Prompt(u) in t && t[Prompt(u)].status == Some(Finished)
  }

  /** Where a prompt is known to have finished, all its outputs are. */
  ghost predicate WholeIn(w: World, t: Table) {
    forall u :: KnownFinished(w, t, u) ==> w.prompts[u].produced <= t.Keys
  }

  ghost predicate QueueTable(w: World, t: Table) {
    forall k :: k in t ==> QueueEntry(w, k, t[k])
  }

  ghost predicate BufferTable(w: World, t: Table) {
    forall k :: k in t ==> BufferEntry(w, k, t[k])
  }

  /** The queue holds every output of a prompt whose batch has not been taken. */
  ghost predicate QueueWhole(w: World) {
    forall u :: u in w.prompts && Untaken(w, w.prompts[u].step) ==> w.prompts[u].produced <= w.queue.Keys
  }

  ghost predicate PromptsOk(w: World) {
    && (forall u :: u in w.prompts ==>
          && Prompt(u) in w.buffer && OutputsOf(u, w.prompts[u].produced) && w.prompts[u].step <= w.step
          && (w.prompts[u].state.Pending? ==> w.phase.Registered?))
    && (w.phase.Idle? ==> forall u :: u in w.prompts ==> w.prompts[u].step < w.step)
  }

  /** k is an output of a prompt of step g. */
  ghost predicate OutputOfStep(w: World, k: Key, g: nat) {
    k.Output? && k.uid in w.prompts && w.prompts[k.uid].step == g && k in w.prompts[k.uid].produced
  }

  ghost predicate BatchInHand(w: World) {
    w.phase.Clearing? || w.phase.Removing? ==> forall k :: k in w.phase.keys ==> OutputOfStep(w, k, w.step)
  }

  ghost predicate ListingOk(w: World) {
    w.listing.Some? ==> QueueTable(w, w.listing.value) && WholeIn(w, w.listing.value)
  }

  ghost predicate Inv(w: World) {
    && QueueTable(w, w.queue) && QueueWhole(w) && ListingOk(w)
    && BufferTable(w, w.buffer) && WholeIn(w, w.buffer)
    && PromptsOk(w) && BatchInHand(w)
  }

  /** Prompts are only added and only move on: a finished one has its outputs for good. */
  ghost predicate Evolves(w: World, v: World) {
    forall u :: u in w.prompts ==>
      && u in v.prompts && v.prompts[u].step == w.prompts[u].step
      && w.prompts[u].produced <= v.prompts[u].produced
      && (w.prompts[u].state.Completed? ==> v.prompts[u] == w.prompts[u])
      && (w.prompts[u].state.Failed? ==> v.prompts[u].state.Failed?)
  }

  /** Batches once taken stay taken. */
  ghost predicate TakenStays(w: World, v: World) {
    forall u :: u in w.prompts && Untaken(v, w.prompts[u].step) ==> Untaken(w, w.prompts[u].step)
  }

  lemma {:induction false} QueuePersists(w: World, v: World, t: Table)
    requires QueueTable(w, t) && Evolves(w, v)
    ensures QueueTable(v, t)
  {
  }

  lemma {:induction false} BufferPersists(w: World, v: World, t: Table)
    requires BufferTable(w, t) && Evolves(w, v)
    ensures BufferTable(v, t)
  {
  }

  lemma {:induction false} WholePersists(w: World, v: World, t: Table)
    requires WholeIn(w, t) && QueueTable(w, t) && Evolves(w, v) && TakenStays(w, v)
    ensures WholeIn(v, t)
  {
  }

  lemma {:induction false} WholeBufferPersists(w: World, v: World)
    requires WholeIn(w, w.buffer) && BufferTable(w, w.buffer) && Evolves(w, v) && TakenStays(w, v)
    ensures WholeIn(v, w.buffer)
  {
  }

  lemma {:induction false} ListingPersists(w: World, v: World)
    requires ListingOk(w) && Evolves(w, v) && TakenStays(w, v) && v.listing == w.listing
    ensures ListingOk(v)
  {
  }

  lemma {:induction false} Persist(w: World, v: World)
    requires Inv(w) && Evolves(w, v) && TakenStays(w, v) && v.listing == w.listing
    ensures QueueTable(v, w.queue) && BufferTable(v, w.buffer) && WholeIn(v, w.buffer) && ListingOk(v)
  {
    hide QueueTable, BufferTable, WholeIn, ListingOk, Evolves, TakenStays;
    QueuePersists(w, v, w.queue);
    BufferPersists(w, v, w.buffer);
    WholeBufferPersists(w, v);
    ListingPersists(w, v);
  }

  // ---------- the trainer enters prompts ----------

  lemma {:induction false} RegisterTables(w: World, v: World, uids: set<nat>)
    requires BufferTable(v, w.buffer) && WholeIn(v, w.buffer) && BufferTable(w, w.buffer)
    requires Enabled(w, Register(uids)) && v == Apply(w, Register(uids))
    ensures BufferTable(v, v.buffer) && WholeIn(v, v.buffer)
  {
    forall k | k in v.buffer ensures BufferEntry(v, k, v.buffer[k]) {
      if k in PromptKeys(uids) {
        assert k !in w.buffer;
      } else {
        assert v.buffer[k] == w.buffer[k];
      }
    }
    forall u | KnownFinished(v, v.buffer, u) ensures v.prompts[u].produced <= v.buffer.Keys {
      assert Prompt(u) !in PromptKeys(uids);
      assert KnownFinished(v, w.buffer, u);
    }
  }

  lemma {:induction false} RegisterPrompts(w: World, v: World, uids: set<nat>)
    requires PromptsOk(w) && Enabled(w, Register(uids)) && v == Apply(w, Register(uids))
    ensures PromptsOk(v) && BatchInHand(v)
  {
    assert forall u :: u in uids ==> Prompt(u) in PromptKeys(uids);
  }

  lemma {:induction false} RegisterEvolves(w: World, v: World, uids: set<nat>)
    requires QueueWhole(w) && Enabled(w, Register(uids)) && v == Apply(w, Register(uids))
    ensures QueueWhole(v) && Evolves(w, v) && TakenStays(w, v)
  {
  }

  lemma {:induction false} RegisterKeeps(w: World, uids: set<nat>)
    requires Inv(w) && Enabled(w, Register(uids))
    ensures Inv(Apply(w, Register(uids)))
  {
    var v := Apply(w, Register(uids));
    hide QueueTable, BufferTable, WholeIn, ListingOk, PromptsOk, QueueWhole, BatchInHand, Evolves, TakenStays;
    RegisterPrompts(w, v, uids);
    RegisterEvolves(w, v, uids);
    Persist(w, v);
    RegisterTables(w, v, uids);
  }

  lemma {:induction false} LaunchKeeps(w: World)
    requires Inv(w) && Enabled(w, Launch)
    ensures Inv(Apply(w, Launch))
  {
    var v := Apply(w, Launch);
    hide QueueTable, BufferTable, WholeIn, ListingOk;
    Persist(w, v);
  }

  // ---------- the workers put outputs and final states ----------

  lemma {:induction false} PutTables(w: World, v: World, uid: nat, keys: set<Key>)
    requires QueueTable(v, w.queue) && QueueWhole(w)
    requires Enabled(w, PutOutputs(uid, keys)) && v == Apply(w, PutOutputs(uid, keys))
    ensures QueueTable(v, v.queue) && QueueWhole(v)
  {
  }

  /** A worker's step: one prompt gets more outputs, or its final state; everything but it and the queue stays. */
  lemma {:induction false} WorkerPrompts(w: World, v: World, e: Event)
    requires Enabled(w, e) && v == Apply(w, e) && (e.PutOutputs? || e.Finish? || e.Fail?)
    ensures e.uid in w.prompts && v == w.(queue := v.queue, prompts := w.prompts[e.uid := v.prompts[e.uid]])
    ensures var p, q := w.prompts[e.uid], v.prompts[e.uid];
            && q.step == p.step && p.produced <= q.produced && OutputsOf(e.uid, q.produced - p.produced)
            && (p.state.Active? || (p.state.Failed? && e.PutOutputs?))
            && q.state == (if e.Finish? then Completed else if e.Fail? then Failed else p.state)
    ensures forall k :: k in w.queue && k.uid != e.uid ==> k in v.queue && v.queue[k] == w.queue[k]
    ensures forall k :: k in v.queue && k.uid != e.uid ==> k in w.queue
  {
    if e.PutOutputs? {
      assert forall k :: k in OutputItems(e.keys, w.prompts[e.uid].step) ==> k.uid == e.uid;
    }
  }

  lemma {:induction false} WorkerKeeps(w: World, v: World, e: Event)
    requires PromptsOk(w) && BatchInHand(w) && Enabled(w, e) && v == Apply(w, e)
    requires e.PutOutputs? || e.Finish? || e.Fail?
    ensures PromptsOk(v) && BatchInHand(v) && Evolves(w, v) && TakenStays(w, v)
  {
    WorkerPrompts(w, v, e);
    hide Enabled, Apply;
  }

  lemma {:induction false} PutKeeps(w: World, uid: nat, keys: set<Key>)
    requires Inv(w) && Enabled(w, PutOutputs(uid, keys))
    ensures Inv(Apply(w, PutOutputs(uid, keys)))
  {
    var v := Apply(w, PutOutputs(uid, keys));
    hide QueueTable, BufferTable, WholeIn, ListingOk, QueueWhole, PromptsOk, BatchInHand, Evolves, TakenStays;
    WorkerKeeps(w, v, PutOutputs(uid, keys));
    Persist(w, v);
    PutTables(w, v, uid, keys);
  }

  lemma {:induction false} SettleTables(w: World, v: World, e: Event)
    requires QueueTable(v, w.queue) && QueueTable(w, w.queue) && QueueWhole(w)
    requires (e.Finish? || e.Fail?) && Enabled(w, e) && v == Apply(w, e)
    ensures QueueTable(v, v.queue) && QueueWhole(v)
  {
    forall k | k in v.queue ensures QueueEntry(v, k, v.queue[k]) {
      if k == Prompt(e.uid) {
        assert k in w.queue ==> QueueEntry(w, k, w.queue[k]);
      } else {
        assert v.queue[k] == w.queue[k];
      }
    }
  }

  lemma {:induction false} SettleKeeps(w: World, e: Event)
    requires Inv(w) && (e.Finish? || e.Fail?) && Enabled(w, e)
    ensures Inv(Apply(w, e))
  {
    var v := Apply(w, e);
    hide QueueTable, BufferTable, WholeIn, ListingOk, QueueWhole, PromptsOk, BatchInHand, Evolves, TakenStays;
    WorkerKeeps(w, v, e);
    Persist(w, v);
    SettleTables(w, v, e);
  }

  // ---------- the poll thread ----------

  lemma {:induction false} ListKeeps(w: World)
    requires Inv(w) && Enabled(w, List)
    ensures Inv(Apply(w, List))
  {
    var v := Apply(w, List);
    forall u | KnownFinished(w, w.queue, u) ensures w.prompts[u].produced <= w.queue.Keys {
    }
    hide QueueEntry, BufferEntry;
    assert QueueTable(v, v.queue) by {
      QueuePersists(w, v, w.queue);
    }
    assert BufferTable(v, v.buffer) by {
      BufferPersists(w, v, w.buffer);
    }
    WholePersists(w, v, w.queue);
    WholeBufferPersists(w, v);
  }

  lemma {:induction false} AddTables(w: World, v: World)
    requires Inv(w) && Enabled(w, AddListing) && v == Apply(w, AddListing)
    ensures BufferTable(v, v.buffer)
  {
    var items := w.listing.value;
    forall k | k in v.buffer ensures BufferEntry(v, k, v.buffer[k]) {
      if k in items {
        assert QueueEntry(w, k, items[k]);
        assert Prompt(k.uid) in w.buffer;
      }
      if k in w.buffer {
        assert BufferEntry(w, k, w.buffer[k]);
      }
    }
  }

  lemma {:induction false} AddWhole(w: World, v: World)
    requires Inv(w) && Enabled(w, AddListing) && v == Apply(w, AddListing)
    ensures WholeIn(v, v.buffer)
  {
    var items := w.listing.value;
    assert v.buffer.Keys == w.buffer.Keys + items.Keys;
    forall u | KnownFinished(v, v.buffer, u) ensures v.prompts[u].produced <= v.buffer.Keys {
      if Prompt(u) in items {
        assert QueueEntry(w, Prompt(u), items[Prompt(u)]);
        assert KnownFinished(w, items, u);
      } else {
        assert KnownFinished(w, w.buffer, u);
      }
    }
  }

  lemma {:induction false} AddKeeps(w: World)
    requires Inv(w) && Enabled(w, AddListing)
    ensures Inv(Apply(w, AddListing))
  {
    var v := Apply(w, AddListing);
    AddTables(w, v);
    AddWhole(w, v);
    QueuePersists(w, v, w.queue);
    hide QueueTable, BufferTable, WholeIn;
  }

  // ---------- the trainer takes its batch ----------

  lemma {:induction false} SampleKeeps(w: World)
    requires Inv(w) && Enabled(w, TrySample)
    ensures Inv(Apply(w, TrySample))
  {
    var v := Apply(w, TrySample);
    if !MustWait(w.buffer, w.step) {
      forall k | k in Sampled(w.buffer, w.step) ensures OutputOfStep(v, k, v.step) {
        assert BufferEntry(w, k, w.buffer[k]);
      }
    }
    hide QueueTable, BufferTable, WholeIn, ListingOk;
    Persist(w, v);
  }

  lemma {:induction false} ClearTables(w: World, v: World)
    requires QueueTable(v, w.queue) && QueueWhole(w) && BatchInHand(w) && PromptsOk(w)
    requires Enabled(w, Clear) && v == Apply(w, Clear)
    ensures QueueTable(v, v.queue) && QueueWhole(v)
  {
  }

  lemma {:induction false} ClearKeeps(w: World)
    requires Inv(w) && Enabled(w, Clear)
    ensures Inv(Apply(w, Clear))
  {
    var v := Apply(w, Clear);
    hide QueueTable, BufferTable, WholeIn, ListingOk, QueueWhole;
    Persist(w, v);
    ClearTables(w, v);
  }

  lemma {:induction false} RemoveTables(w: World, v: World)
    requires BufferTable(v, w.buffer) && PromptsOk(w) && BatchInHand(w) && Enabled(w, Remove) && v == Apply(w, Remove)
    ensures BufferTable(v, v.buffer) && WholeIn(v, v.buffer) && PromptsOk(v) && QueueWhole(v)
  {
    hide BufferEntry;
    assert forall k :: k in w.phase.keys ==> OutputOfStep(w, k, w.step);
    assert forall k :: k in v.buffer ==> k in w.buffer && v.buffer[k] == w.buffer[k];
  }

  lemma {:induction false} RemoveKeeps(w: World)
    requires Inv(w) && Enabled(w, Remove)
    ensures Inv(Apply(w, Remove))
  {
    var v := Apply(w, Remove);
    hide QueueTable, BufferTable, WholeIn, ListingOk;
    Persist(w, v);
    RemoveTables(w, v);
    hide PromptsOk, QueueWhole;
  }

  lemma {:induction false} EventKeepsInv(w: World, e: Event)
    requires Inv(w) && Enabled(w, e)
    ensures Inv(Apply(w, e))
  {
    hide Inv, Apply, Enabled;
    match e
    case Register(uids) => RegisterKeeps(w, uids);
    case Launch => LaunchKeeps(w);
    case PutOutputs(uid, keys) => PutKeeps(w, uid, keys);
    case Finish(uid) => SettleKeeps(w, e);
    case Fail(uid) => SettleKeeps(w, e);
    case List => ListKeeps(w);
    case AddListing => AddKeeps(w);
    case TrySample => SampleKeeps(w);
    case Clear => ClearKeeps(w);
    case Remove => RemoveKeeps(w);
  }

  lemma {:induction false} RunInv(run: seq<World>, i: nat)
    requires IsRun(run) && i < |run|
    ensures Inv(run[i])
  {
    hide Inv, Enabled, Apply;
    if i == 0 {
      InitialInv(run[0]);
    } else {
      RunInv(run, i - 1);
      assert Next(run[i - 1], run[(i - 1) + 1]);
      var e: Event :| Enabled(run[i - 1], e) && run[i] == Apply(run[i - 1], e);
      EventKeepsInv(run[i - 1], e);
    }
  }

  lemma {:induction false} InitialInv(w: World)
    requires Initial(w)
    ensures Inv(w)
  {
  }

  // ---------- what a returned batch is ----------

  /** The batch returned for step g: every prompt of the step is over, every output of every finished one is in,
      so is every output of the step that the buffer knows of, and nothing but outputs of the step is. */
  ghost predicate CompleteBatch(w: World, g: nat, keys: set<Key>) {
    && (forall u :: u in w.prompts && w.prompts[u].step == g ==>
          && (w.prompts[u].state.Completed? || w.prompts[u].state.Failed?)
          && (w.prompts[u].state.Completed? ==> w.prompts[u].produced <= keys))
    && (forall k :: k in w.buffer && OutputOfStep(w, k, g) ==> k in keys)
    && forall k :: k in keys ==> OutputOfStep(w, k, g)
  }

  lemma {:induction false} SettledPrompt(w: World, u: nat)
    requires Inv(w) && w.phase.Sampling? && !MustWait(w.buffer, w.step) && u in w.prompts && w.prompts[u].step == w.step
    ensures w.prompts[u].state.Completed? || w.prompts[u].state.Failed?
    ensures w.prompts[u].state.Completed? ==> w.prompts[u].produced <= Sampled(w.buffer, w.step)
  {
    var k := Prompt(u);
    assert BufferEntry(w, k, w.buffer[k]);
    assert !IsRunning(w.buffer, w.step, k);
    if w.prompts[u].state.Completed? {
      assert KnownFinished(w, w.buffer, u);
      forall o | o in w.prompts[u].produced ensures o in Sampled(w.buffer, w.step) {
        assert BufferEntry(w, o, w.buffer[o]);
      }
    }
  }

  /** Under every interleaving of workers, poll thread and trainer: when `sample` returns for a step, its batch is complete;
      and it never has to fail for a missing tag. */
  lemma {:induction false} SampleCompleteness(run: seq<World>, i: nat)
    requires IsRun(run) && i < |run| && run[i].phase.Sampling?
    ensures Complete(run[i].buffer)
    ensures !MustWait(run[i].buffer, run[i].step) ==> CompleteBatch(run[i], run[i].step, Sampled(run[i].buffer, run[i].step))
  {
    var w := run[i];
    RunInv(run, i);
    forall k | k in w.buffer ensures w.buffer[k].steps.Some? && w.buffer[k].status.Some? {
      assert BufferEntry(w, k, w.buffer[k]);
    }
    if !MustWait(w.buffer, w.step) {
      forall u | u in w.prompts && w.prompts[u].step == w.step
        ensures (w.prompts[u].state.Completed? || w.prompts[u].state.Failed?) &&
                (w.prompts[u].state.Completed? ==> w.prompts[u].produced <= Sampled(w.buffer, w.step))
      {
        SettledPrompt(w, u);
      }
      forall k | k in w.buffer ensures k in Sampled(w.buffer, w.step) <==> OutputOfStep(w, k, w.step) {
        assert BufferEntry(w, k, w.buffer[k]);
      }
    }
  }

  // ---------- no key twice ----------

  /** The j-th batch was taken at the j-th step since the start. */
  ghost predicate BatchesByStep(w: World, first: nat) {
    && w.step == first + |w.batches| - (if w.phase.Clearing? || w.phase.Removing? then 1 else 0)
    && forall j, k :: 0 <= j < |w.batches| && k in w.batches[j] ==> OutputOfStep(w, k, first + j)
  }

  lemma {:induction false} EventEvolves(w: World, v: World, e: Event)
    requires Enabled(w, e) && v == Apply(w, e)
    ensures Evolves(w, v)
  {
    hide Merge, Sampled, MustWait;
  }

  lemma {:induction false} BatchesKept(w: World, v: World, e: Event, first: nat)
    requires Enabled(w, e) && v == Apply(w, e) && !e.TrySample? && BatchesByStep(w, first) && Evolves(w, v)
    ensures BatchesByStep(v, first)
  {
    forall j, k | 0 <= j < |v.batches| && k in v.batches[j] ensures OutputOfStep(v, k, first + j) {
      assert OutputOfStep(w, k, first + j);
    }
    hide Merge, Evolves, OutputOfStep;
  }

  lemma {:induction false} BatchTaken(w: World, v: World, first: nat)
    requires BufferTable(w, w.buffer) && Enabled(w, TrySample) && v == Apply(w, TrySample) && BatchesByStep(w, first)
    ensures BatchesByStep(v, first)
  {
  }

  lemma {:induction false} BatchesStep(w: World, v: World, e: Event, first: nat)
    requires Inv(w) && Enabled(w, e) && v == Apply(w, e) && BatchesByStep(w, first)
    ensures BatchesByStep(v, first)
  {
    hide BatchesByStep, Apply, Enabled, BufferTable;
    if e.TrySample? {
      BatchTaken(w, v, first);
    } else {
      EventEvolves(w, v, e);
      BatchesKept(w, v, e, first);
    }
  }

  lemma {:induction false} RunBatches(run: seq<World>, i: nat)
    requires IsRun(run) && i < |run|
    ensures BatchesByStep(run[i], run[0].step)
  {
    hide Inv, Enabled, Apply, BatchesByStep;
    if i > 0 {
      RunBatches(run, i - 1);
      RunInv(run, i - 1);
      assert Next(run[i - 1], run[(i - 1) + 1]);
      var e: Event :| Enabled(run[i - 1], e) && run[i] == Apply(run[i - 1], e);
      BatchesStep(run[i - 1], run[i], e, run[0].step);
    } else {
      NoBatchesYet(run[0]);
    }
  }

  lemma {:induction false} NoBatchesYet(w: World)
    requires Initial(w)
    ensures BatchesByStep(w, w.step)
  {
  }

  /** No output is handed out in two batches, even when a listing taken before the clean-up is added after it. */
  lemma {:induction false} NoKeyTwice(run: seq<World>, i: nat, j: nat, k: nat)
    requires IsRun(run) && i < |run| && j < k < |run[i].batches|
    ensures run[i].batches[j] !! run[i].batches[k]
  {
    RunBatches(run, i);
    var w, first := run[i], run[0].step;
    assert forall key :: key in w.batches[j] ==> OutputOfStep(w, key, first + j);
    assert forall key :: key in w.batches[k] ==> OutputOfStep(w, key, first + k);
  }
}
