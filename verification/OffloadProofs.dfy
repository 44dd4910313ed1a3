// The offload handler over any number of training cycles: no internal assert
// or lookup fails, every pop returns what was pushed, and a finished cycle
// leaves the handler as it was created.

module OffloadProofs {
  import opened Results
  import opened OffloadWindow
  import opened OffloadModel

  // ---------- how the handler is used ----------

  datatype Event = PushTensor(item: Item, needOffload: bool) | PopTensor(handle: Handle) | LayerForward | LayerBackward

  /** Where training is: `position` layers are committed forward (or still to be committed backward), `count`
      tensors are saved in the current layer, and `log` holds the saved tensors not yet used. */
  datatype Cycle = Cycle(backward: bool, position: nat, count: nat, log: map<Tag, Item>)

  const START := Cycle(false, 0, 0, map[])

  /** Equal keys within a layer mean equal data. */
  ghost predicate SharesData(log: map<Tag, Item>, g: nat, item: Item) {
    forall t :: t in log && t.group == g && log[t].key == item.key ==> log[t].value.data == item.value.data
  }

  /** One cycle commits every layer forward, then every layer backward, and uses each saved tensor
      once after its layer's backward commit. */
  ghost predicate Legal(layers: nat, p: Cycle, e: Event) {
    match e
    case PushTensor(item, need) =>
      need ==> !p.backward && p.position < layers && item.value.Valid() && SharesData(p.log, p.position, item)
    case PopTensor(ByValue(v)) => true
    case PopTensor(ByTag(tag)) => p.backward && tag in p.log && p.position <= tag.group
    case LayerForward => !p.backward && p.position < layers
    case LayerBackward => p.backward && 0 < p.position
  }

  /** A cycle is over when all layers are committed backward and nothing saved is left. */
  function Rewound(p: Cycle): Cycle {
    if p.backward && p.position == 0 && p.log == map[] then START else p
  }

  function After(layers: nat, p: Cycle, e: Event): Cycle {
    match e
    case PushTensor(item, need) =>
      if need then p.(count := p.count + 1, log := p.log[Tag(p.position, p.count) := item]) else p
    case PopTensor(ByValue(v)) => p
    case PopTensor(ByTag(tag)) => Rewound(p.(log := p.log - {tag}))
    case LayerForward => p.(backward := p.position + 1 >= layers, position := p.position + 1, count := 0)
    case LayerBackward => Rewound(p.(position := if p.position == 0 then 0 else p.position - 1))
  }

  /** What the step must hand back: the saved tensor. */
  function Expected(p: Cycle, e: Event): Option<Value> {
    match e
    case PopTensor(ByTag(tag)) => if tag in p.log then Some(p.log[tag].value) else None
    case PopTensor(ByValue(v)) => Some(v)
    case _ => None
  }

  ghost function Exec(h: Handler, e: Event): Result<(Handler, Option<Value>)> {
    match e
    case PushTensor(item, need) =>
      var r :- Push(h, item, need);
      Ok((r.0, None))
    case PopTensor(handle) =>
      var r :- Pop(h, handle);
      Ok((r.0, Some(r.1)))
    case LayerForward =>
      var r :- CommitForward(h);
      Ok((r, None))
    case LayerBackward =>
      var r :- CommitBackward(h);
      Ok((r, None))
  }

  // ---------- the invariant ----------

  ghost predicate Sized(h: Handler) {
    1 <= h.groups <= h.layers
  }

  ghost predicate LogInv(h: Handler, p: Cycle) {
    && (forall t :: t in p.log ==> t.group < h.layers && p.log[t].value.Valid())
    && (forall t :: t in p.log && !p.backward ==> t.group <= p.position && (t.group == p.position ==> t.index < p.count))
    && (forall t, u :: t in p.log && u in p.log && t.group == u.group && p.log[t].key == p.log[u].key ==>
          p.log[t].value.data == p.log[u].value.data)
  }

  /** A table entry stands for the saved tensor: it is the tensor, or its group's host copy is. */
  ghost predicate Stands(copies: map<int, map<int, seq<int>>>, s: State, t: Tag, item: Item) {
    || s == Live(item)
    || (t.group in copies && s == Away(item.key, item.value.shape) &&
        item.key in copies[t.group] && copies[t.group][item.key] == item.value.data)
  }

  ghost predicate TableInv(h: Handler, p: Cycle) {
    && h.states.Keys == p.log.Keys
    && (forall t :: t in h.bufs <==> t in p.log && t.group < h.groups)
    && (forall t :: t in p.log ==> Stands(h.copies, h.states[t], t, p.log[t]))
  }

  /** Which groups are on the host: forward, those up to the next to be released; backward, those
      released before the current layer. */
  ghost predicate OnHost(h: Handler, p: Cycle, k: int)
    requires Sized(h)
  {
    && 0 <= k < h.groups
    && if p.backward then Window(h.groups, h.layers, k) < p.position else 0 < p.position && k <= h.offloaded
  }

  ghost predicate ScheduleInv(h: Handler, p: Cycle)
    requires Sized(h)
  {
    && h.currentGroup == p.position <= h.layers && h.tensorCount == p.count
    && (forall k :: k in h.copies <==> OnHost(h, p, k))
    && (if p.backward then
          p.count == 0 &&
          if p.position == 0 then h.offloaded == 0
          else
            && 1 <= h.offloaded <= h.groups
            && (h.offloaded >= 2 ==> Window(h.groups, h.layers, h.offloaded - 1) < p.position)
            && (h.offloaded < h.groups ==> p.position <= Window(h.groups, h.layers, h.offloaded))
        else
          && p.position < h.layers && 0 <= h.offloaded <= h.groups
          && (h.offloaded > 0 ==> Window(h.groups, h.layers, h.offloaded - 1) < p.position)
          && (h.offloaded < h.groups ==> p.position <= Window(h.groups, h.layers, h.offloaded)))
  }

  /** Released groups are no longer held; with fewer groups than layers an offloaded group is wholly away. */
  ghost predicate MemoryInv(h: Handler, p: Cycle) {
    && (forall t :: t in h.bufs && (p.backward || t.group < h.offloaded) ==> h.bufs[t] == None)
    && (h.groups < h.layers ==> forall t :: t in h.states && t.group in h.copies ==> h.states[t].Away?)
  }

  ghost predicate Inv(h: Handler, p: Cycle) {
    Sized(h) && LogInv(h, p) && TableInv(h, p) && ScheduleInv(h, p) && MemoryInv(h, p)
  }

  lemma {:induction false} StartInv(groups: nat, layers: nat)
    requires 1 <= groups <= layers
    ensures Inv(NewHandler(groups, layers), START)
  {
  }

  /** At the start of every cycle the handler is as it was created. */
  lemma {:induction false} CycleEndsClean(h: Handler)
    requires Inv(h, START)
    ensures h == NewHandler(h.groups, h.layers)
  {
    assert h.states == map[];
    assert h.bufs == map[];
    forall k ensures k !in h.copies {
      assert !OnHost(h, START, k);
    }
    assert h.copies == map[];
    if h.offloaded > 0 {
      WindowLate(h.groups, h.layers, h.offloaded - 1);
    }
  }

  // ---------- pushes and pops ----------

  lemma {:induction false} PushLog(h: Handler, p: Cycle, q: Cycle, item: Item)
    requires LogInv(h, p) && Legal(h.layers, p, PushTensor(item, true)) && q == After(h.layers, p, PushTensor(item, true))
    ensures LogInv(h, q) && Tag(p.position, p.count) !in p.log
  {
  }

  lemma {:induction false} PushTables(h: Handler, p: Cycle, h': Handler, q: Cycle, item: Item)
    requires LogInv(h, p) && TableInv(h, p) && Legal(h.layers, p, PushTensor(item, true))
    requires h.currentGroup == p.position && h.tensorCount == p.count
    requires Tag(p.position, p.count) !in p.log
    requires Push(h, item, true).Ok? && h' == Push(h, item, true).value.0 && q == After(h.layers, p, PushTensor(item, true))
    ensures TableInv(h', q)
  {
    hide LogInv;
    var tag := Tag(p.position, p.count);
    assert h'.states == h.states[tag := Live(item)] && q.log == p.log[tag := item] && h'.copies == h.copies;
    assert forall t :: t in h'.bufs <==> t in q.log && t.group < h'.groups;
    forall t | t in q.log ensures Stands(h'.copies, h'.states[t], t, q.log[t]) {
      if t != tag {
        assert Stands(h.copies, h.states[t], t, p.log[t]);
      }
    }
  }

  lemma {:induction false} PushMemory(h: Handler, p: Cycle, h': Handler, q: Cycle, item: Item)
    requires Inv(h, p) && Legal(h.layers, p, PushTensor(item, true))
    requires Push(h, item, true).Ok? && h' == Push(h, item, true).value.0 && q == After(h.layers, p, PushTensor(item, true))
    ensures MemoryInv(h', q)
  {
    if p.position < h.offloaded {
      WindowBelow(h, p, p.position);
      WindowLate(h.groups, h.layers, p.position);
      assert false;
    }
    if h.groups < h.layers {
      NotYetOnHost(h, p);
    }
    hide LogInv, TableInv, ScheduleInv;
  }

  lemma {:induction false} ScheduleFrame(h: Handler, p: Cycle, h': Handler, q: Cycle)
    requires Sized(h) && ScheduleInv(h, p) && q.backward == p.backward && q.position == p.position
    requires h' == h.(states := h'.states, bufs := h'.bufs, tensorCount := q.count) && (p.backward ==> q.count == p.count)
    ensures ScheduleInv(h', q)
  {
  }

  lemma {:induction false} PushKeeps(h: Handler, p: Cycle, item: Item)
    requires Inv(h, p) && Legal(h.layers, p, PushTensor(item, true))
    ensures var r := Push(h, item, true); r.Ok? && Inv(r.value.0, After(h.layers, p, PushTensor(item, true)))
  {
    var e := PushTensor(item, true);
    var q := After(h.layers, p, e);
    PushLog(h, p, q, item);
    assert Tag(p.position, p.count) !in h.states;
    var h' := Push(h, item, true).value.0;
    PushTables(h, p, h', q, item);
    PushMemory(h, p, h', q, item);
    hide LogInv, TableInv, MemoryInv;
    ScheduleFrame(h, p, h', q);
  }

  /** The windows of released groups lie before the current layer. */
  lemma {:induction false} WindowBelow(h: Handler, p: Cycle, k: nat)
    requires Inv(h, p) && !p.backward && k < h.offloaded
    ensures Window(h.groups, h.layers, k) < p.position
  {
    if k < h.offloaded - 1 {
      WindowIncreasing(h.groups, h.layers, k, h.offloaded - 1);
    }
  }

  lemma {:induction false} NotYetOnHost(h: Handler, p: Cycle)
    requires Inv(h, p) && !p.backward && h.groups < h.layers
    ensures p.position !in h.copies
  {
    if p.position in h.copies && h.offloaded > 0 {
      WindowLate(h.groups, h.layers, h.offloaded - 1);
    }
  }

  lemma {:induction false} RewindKeeps(h: Handler, p: Cycle)
    requires Inv(h, p)
    ensures Inv(h, Rewound(p))
  {
    if p.backward && p.position == 0 && p.log == map[] {
      forall k | 0 <= k < h.groups ensures 0 <= Window(h.groups, h.layers, k) {
        WindowLate(h.groups, h.layers, k);
      }
    }
  }

  lemma {:induction false} PopTables(h: Handler, p: Cycle, tag: Tag, h': Handler, q: Cycle)
    requires LogInv(h, p) && TableInv(h, p) && MemoryInv(h, p) && tag in p.log && p.backward
    requires q == p.(log := p.log - {tag}) && h' == h.(states := h.states - {tag}, bufs := h.bufs - {tag})
    ensures LogInv(h', q) && TableInv(h', q) && MemoryInv(h', q)
  {
  }

  /** A tensor that is used has been brought back. */
  lemma {:induction false} PoppedIsLive(h: Handler, p: Cycle, tag: Tag)
    requires Inv(h, p) && p.backward && tag in p.log && p.position <= tag.group
    ensures tag in h.states && h.states[tag] == Live(p.log[tag])
  {
    WindowLate(h.groups, h.layers, tag.group);
    assert !OnHost(h, p, tag.group);
  }

  lemma {:induction false} PopKeeps(h: Handler, p: Cycle, tag: Tag)
    requires Inv(h, p) && Legal(h.layers, p, PopTensor(ByTag(tag)))
    ensures var r := Pop(h, ByTag(tag));
            r.Ok? && r.value.1 == p.log[tag].value && Inv(r.value.0, After(h.layers, p, PopTensor(ByTag(tag))))
  {
    PoppedIsLive(h, p, tag);
    hide ScheduleInv, LogInv, MemoryInv;
    var h' := Pop(h, ByTag(tag)).value.0;
    var q := p.(log := p.log - {tag});
    PopTables(h, p, tag, h', q);
    hide TableInv;
    ScheduleFrame(h, p, h', q);
    RewindKeeps(h', q);
  }

  // ---------- forward commits ----------

  lemma {:induction false} Mixed(h: Handler, p: Cycle, g: nat)
    requires LogInv(h, p) && TableInv(h, p) && g !in h.copies
    ensures AllLive(h.states, g)
    ensures forall t :: t in h.states && t.group == g ==> h.states[t] == Live(p.log[t])
  {
  }

  /** The host copy of a key is the data of every tensor saved under that key. */
  lemma {:induction false} CopyIsData(h: Handler, p: Cycle, t: Tag)
    requires LogInv(h, p) && TableInv(h, p) && t.group !in h.copies && t in p.log
    ensures AllLive(h.states, t.group) && p.log[t].key in Keys(h.states, t.group)
    ensures CopyOf(h.states, t.group, p.log[t].key) == p.log[t].value.data
  {
  }

  /** Offloading a group that is not on the host: the tables still stand for what was saved. */
  lemma {:induction false} OffloadTables(h: Handler, p: Cycle, g: nat)
    requires LogInv(h, p) && TableInv(h, p) && g !in h.copies
    ensures BulkOffload(h, g).Ok?
    ensures var h' := BulkOffload(h, g).value;
            && LogInv(h', p) && TableInv(h', p)
            && forall t :: t in h'.states && t.group == g ==> h'.states[t].Away?
  {
    Mixed(h, p, g);
    var h' := BulkOffload(h, g).value;
    assert h'.states.Keys == h.states.Keys;
    forall t | t in p.log ensures Stands(h'.copies, h'.states[t], t, p.log[t]) {
      assert Stands(h.copies, h.states[t], t, p.log[t]);
      if t.group == g {
        CopyIsData(h, p, t);
      }
    }
  }

  lemma {:induction false} OffloadMemory(h: Handler, p: Cycle, g: nat)
    requires LogInv(h, p) && TableInv(h, p) && MemoryInv(h, p) && g !in h.copies
    ensures BulkOffload(h, g).Ok? && MemoryInv(BulkOffload(h, g).value, p)
  {
  }

  ghost predicate Tables(h: Handler, p: Cycle) {
    LogInv(h, p) && TableInv(h, p) && MemoryInv(h, p)
  }

  /** After the first layer's group has been sent off: the groups up to the next to be released are on the host. */
  ghost predicate Kicked(h: Handler, p: Cycle) {
    && Sized(h) && Tables(h, p) && !p.backward
    && h.currentGroup == p.position < h.layers && 0 <= h.offloaded < h.groups
    && (h.offloaded > 0 ==> Window(h.groups, h.layers, h.offloaded - 1) < p.position)
    && p.position <= Window(h.groups, h.layers, h.offloaded)
    && forall k :: k in h.copies <==> 0 <= k <= h.offloaded
  }

  lemma {:induction false} KickKeeps(h: Handler, p: Cycle)
    requires Inv(h, p) && !p.backward && p.position < h.layers
    ensures var r := if p.position == 0 then BulkOffload(h, 0) else Ok(h); r.Ok? && Kicked(r.value, p)
  {
    WindowLast(h.groups, h.layers);
    if p.position == 0 {
      if h.offloaded > 0 {
        WindowLate(h.groups, h.layers, h.offloaded - 1);
      }
      assert 0 !in h.copies by {
        assert !OnHost(h, p, 0);
      }
      OffloadTables(h, p, 0);
      OffloadMemory(h, p, 0);
      hide LogInv, TableInv, MemoryInv, OffloadedStates, HostCopies;
      assert forall k :: !OnHost(h, p, k);
    } else {
      hide LogInv, TableInv, MemoryInv;
      assert forall k :: k in h.copies <==> OnHost(h, p, k);
    }
  }

  lemma {:induction false} BufsReleased(h: Handler, p: Cycle)
    requires Tables(h, p) && !p.backward
    ensures var h2 := h.(bufs := ReleasedBufs(h.bufs, h.offloaded));
            Tables(h2, p) && forall t :: t in h2.bufs && t.group <= h.offloaded ==> h2.bufs[t] == None
  {
  }

  lemma {:induction false} OffloadNext(h: Handler, p: Cycle, g: nat)
    requires Tables(h, p) && g !in h.copies
    ensures BulkOffload(h, g).Ok?
    ensures var r := BulkOffload(h, g).value;
            && Tables(r, p) && r == h.(states := r.states, copies := r.copies)
            && forall k :: k in r.copies <==> k in h.copies || k == g
  {
    OffloadTables(h, p, g);
    OffloadMemory(h, p, g);
    hide LogInv, TableInv, MemoryInv;
  }

  lemma {:induction false} ReleaseTables(h: Handler, p: Cycle)
    requires Kicked(h, p)
    ensures Released(h).Ok?
    ensures var h' := Released(h).value;
            && Tables(h', p) && h'.offloaded == h.offloaded + 1
            && h' == h.(bufs := h'.bufs, states := h'.states, copies := h'.copies, offloaded := h'.offloaded)
            && forall k :: k in h'.copies <==> 0 <= k <= h'.offloaded && k < h.groups
  {
    hide Tables, BulkOffload, ReleasedBufs, Window;
    BufsReleased(h, p);
    var h2 := h.(bufs := ReleasedBufs(h.bufs, h.offloaded));
    if h2.offloaded < h2.groups - 1 {
      OffloadNext(h2, p, h2.offloaded + 1);
    }
    var h' := Released(h).value;
    CountOneMore(h'.(offloaded := h.offloaded), h', p);
  }

  lemma {:induction false} CountOneMore(h: Handler, h': Handler, p: Cycle)
    requires Tables(h, p) && h' == h.(offloaded := h.offloaded + 1) && !p.backward
    requires forall t :: t in h.bufs && t.group <= h.offloaded ==> h.bufs[t] == None
    ensures Tables(h', p)
  {
  }

  /** The handler right after the synchronization of a forward commit. */
  ghost predicate Synced(h: Handler, p: Cycle) {
    && Sized(h) && Tables(h, p) && !p.backward && p.position < h.layers && 0 <= h.offloaded <= h.groups
    && h.currentGroup == p.position
    && (forall k :: k in h.copies <==> 0 <= k <= h.offloaded && k < h.groups)
    && (h.offloaded > 0 ==> Window(h.groups, h.layers, h.offloaded - 1) <= p.position)
    && (h.offloaded < h.groups ==> p.position < Window(h.groups, h.layers, h.offloaded))
  }

  lemma {:induction false} SyncKeeps(h: Handler, p: Cycle)
    requires Kicked(h, p)
    ensures Window(h.groups, h.layers, h.offloaded) == p.position ==> Released(h).Ok? && Synced(Released(h).value, p)
    ensures Window(h.groups, h.layers, h.offloaded) != p.position ==> Synced(h, p)
  {
    hide Window;
    if Window(h.groups, h.layers, h.offloaded) == p.position {
      ReleaseTables(h, p);
      hide Released, Tables;
      if h.offloaded + 1 < h.groups {
        WindowIncreasing(h.groups, h.layers, h.offloaded, h.offloaded + 1);
      }
    }
    hide Tables, Released, Window;
  }

  lemma {:induction false} ForwardSchedule(h: Handler, p: Cycle, h': Handler, q: Cycle)
    requires Synced(h, p)
    requires h' == h.(currentGroup := p.position + 1, tensorCount := 0)
    requires q == p.(backward := p.position + 1 >= h.layers, position := p.position + 1, count := 0)
    ensures Inv(h', q)
  {
    WindowLast(h.groups, h.layers);
    if q.backward {
      if h.offloaded < h.groups - 1 {
        WindowIncreasing(h.groups, h.layers, h.offloaded, h.groups - 1);
      }
      forall k | 0 <= k < h.groups ensures Window(h.groups, h.layers, k) < h.layers {
        if k < h.groups - 1 {
          WindowIncreasing(h.groups, h.layers, k, h.groups - 1);
        }
      }
    }
    assert forall k :: k in h'.copies <==> OnHost(h', q, k);
  }

  lemma {:induction false} ForwardKeeps(h: Handler, p: Cycle)
    requires Inv(h, p) && Legal(h.layers, p, LayerForward)
    ensures var r := CommitForward(h); r.Ok? && Inv(r.value, After(h.layers, p, LayerForward))
  {
    hide LogInv, TableInv, MemoryInv, Tables, BulkOffload, Released, Window;
    KickKeeps(h, p);
    assert h.currentGroup == p.position;
    hide Inv, ScheduleInv;
    var h1 := (if p.position == 0 then BulkOffload(h, 0) else Ok(h)).value;
    SyncKeeps(h1, p);
    var h2 := SynchronizeForward(h, p.position).value;
    SameShape(h, h1, h2);
    ForwardSchedule(h2, p, h2.(currentGroup := p.position + 1, tensorCount := 0), After(h.layers, p, LayerForward));
  }

  lemma {:induction false} SameShape(h: Handler, h1: Handler, h2: Handler)
    requires Ok(h1) == (if h.currentGroup == 0 then BulkOffload(h, 0) else Ok(h))
    requires h2 == h1 || Released(h1) == Ok(h2)
    ensures h2.groups == h.groups && h2.layers == h.layers
  {
  }

  // ---------- backward commits ----------

  lemma {:induction false} GroupViewable(h: Handler, p: Cycle, g: nat)
    requires LogInv(h, p) && TableInv(h, p) && g in h.copies
    ensures AllViewable(h.states, h.copies[g], g)
  {
  }

  lemma {:induction false} StandsAfterReload(h: Handler, p: Cycle, g: nat, t: Tag)
    requires g in h.copies && AllViewable(h.states, h.copies[g], g) && t in h.states && t in p.log
    requires Stands(h.copies, h.states[t], t, p.log[t])
    ensures Stands(h.copies - {g}, ReloadedStates(h.states, h.copies[g], g)[t], t, p.log[t])
  {
  }

  /** Reloading a group puts every saved tensor of it back on the device. */
  lemma {:induction false} ReloadTables(h: Handler, p: Cycle, g: nat)
    requires Tables(h, p) && p.backward && g in h.copies && g < h.groups
    ensures BulkReload(h, g).Ok?
    ensures var h' := BulkReload(h, g).value;
            && Tables(h', p)
            && h' == h.(states := h'.states, copies := h.copies - {g})
  {
    GroupViewable(h, p, g);
    var h' := BulkReload(h, g).value;
    assert h'.states.Keys == h.states.Keys;
    LogFrame(h, h', p);
    forall t | t in p.log ensures Stands(h'.copies, h'.states[t], t, p.log[t]) {
      assert Stands(h.copies, h.states[t], t, p.log[t]);
      StandsAfterReload(h, p, g, t);
    }
    ReloadMemory(h, p, g);
    hide LogInv, AllViewable, Viewable, ReloadedStates, MemoryInv, Stands, BulkReload;
  }

  lemma {:induction false} ReloadMemory(h: Handler, p: Cycle, g: nat)
    requires MemoryInv(h, p) && BulkReload(h, g).Ok?
    ensures MemoryInv(BulkReload(h, g).value, p)
  {
    hide Viewable, Restored;
  }

  lemma {:induction false} LogFrame(h: Handler, h': Handler, p: Cycle)
    requires LogInv(h, p) && h'.layers == h.layers
    ensures LogInv(h', p)
  {
  }

  lemma {:induction false} BackwardSchedule(h: Handler, p: Cycle, r: Handler, h': Handler, q: Cycle)
    requires Inv(h, p) && p.backward && 0 < p.position
    requires q == p.(position := p.position - 1) && DueDone(h, q, r) && Tables(h', q)
    requires h' == if q.position == 0 then r.(offloaded := 0) else r
    ensures Inv(h', q)
  {
    hide LogInv, TableInv, MemoryInv;
    var last := h.offloaded - 1;
    forall k: int ensures k in h'.copies <==> OnHost(h', q, k) {
      assert k in h.copies <==> OnHost(h, p, k);
      if 0 <= k < last {
        WindowIncreasing(h.groups, h.layers, k, last);
      } else if last < k < h.groups {
        WindowIncreasing(h.groups, h.layers, last, k);
        if h.offloaded < k {
          WindowIncreasing(h.groups, h.layers, h.offloaded, k);
        }
      }
    }
    if last > 0 {
      WindowIncreasing(h.groups, h.layers, last - 1, last);
    }
  }

  lemma {:induction false} TablesFrame(h: Handler, h': Handler, p: Cycle)
    requires Tables(h, p) && p.backward
    requires h' == h.(offloaded := h'.offloaded)
    ensures Tables(h', p)
  {
  }

  /** What a backward commit has done to handler h before the counter is reset at layer 0. */
  ghost predicate DueDone(h: Handler, q: Cycle, r: Handler)
    requires Sized(h)
  {
    && Tables(r, q)
    && r == h.(currentGroup := q.position, states := r.states, copies := r.copies, offloaded := r.offloaded)
    && var last := h.offloaded - 1;
       0 <= last &&
       if Window(h.groups, h.layers, last) == q.position then
         r.copies == h.copies - {last} && r.offloaded == (if h.offloaded > 1 then last else h.offloaded)
       else r.copies == h.copies && r.offloaded == h.offloaded
  }

  lemma {:induction false} ReloadDueKeeps(h: Handler, p: Cycle, q: Cycle)
    requires Inv(h, p) && p.backward && 0 < p.position && q == p.(position := p.position - 1)
    ensures var r := ReloadDue(h.(currentGroup := q.position)); r.Ok? && DueDone(h, q, r.value)
  {
    hide Window;
    var h0, last := h.(currentGroup := q.position), h.offloaded - 1;
    assert Tables(h0, q);
    assert OnHost(h, p, last) <==> last in h.copies;
    hide LogInv, TableInv, MemoryInv, Tables;
    if Window(h.groups, h.layers, last) == q.position {
      ReloadTables(h0, q, last);
      hide BulkReload;
      TablesFrame(BulkReload(h0, last).value, ReloadDue(h0).value, q);
    }
  }

  lemma {:induction false} BackwardKeeps(h: Handler, p: Cycle)
    requires Inv(h, p) && Legal(h.layers, p, LayerBackward)
    ensures var r := CommitBackward(h); r.Ok? && Inv(r.value, After(h.layers, p, LayerBackward))
  {
    hide LogInv, TableInv, MemoryInv, Tables, ReloadDue, Window;
    var q := p.(position := p.position - 1);
    ReloadDueKeeps(h, p, q);
    var r := ReloadDue(h.(currentGroup := q.position)).value;
    var h' := CommitBackward(h).value;
    TablesFrame(r, h', q);
    BackwardSchedule(h, p, r, h', q);
    RewindKeeps(h', q);
  }

  // ---------- whole runs ----------

  lemma {:induction false} StepCorrect(h: Handler, p: Cycle, e: Event)
    requires Inv(h, p) && Legal(h.layers, p, e)
    ensures Exec(h, e).Ok?
    ensures Exec(h, e).value.1 == Expected(p, e)
    ensures Inv(Exec(h, e).value.0, After(h.layers, p, e)) && Exec(h, e).value.0.layers == h.layers
    ensures Exec(h, e).value.0.groups == h.groups
  {
    hide Inv, Window;
    match e
    case PushTensor(item, need) => if need { PushKeeps(h, p, item); }
    case PopTensor(ByTag(tag)) => PopKeeps(h, p, tag);
    case PopTensor(ByValue(v)) =>
    case LayerForward =>
      ForwardKeeps(h, p);
      FixedSizes(h);
    case LayerBackward => BackwardKeeps(h, p);
  }

  lemma {:induction false} FixedSizes(h: Handler)
    requires CommitForward(h).Ok?
    ensures CommitForward(h).value.groups == h.groups && CommitForward(h).value.layers == h.layers
  {
  }

  ghost function Run(h: Handler, es: seq<Event>): Result<(Handler, seq<Option<Value>>)>
    decreases |es|
  {
    if es == [] then Ok((h, []))
    else
      var r :- Exec(h, es[0]);
      var rest :- Run(r.0, es[1..]);
      Ok((rest.0, [r.1] + rest.1))
  }

  ghost predicate LegalRun(layers: nat, p: Cycle, es: seq<Event>)
    decreases |es|
  {
    es == [] || (Legal(layers, p, es[0]) && LegalRun(layers, After(layers, p, es[0]), es[1..]))
  }

  function AfterRun(layers: nat, p: Cycle, es: seq<Event>): Cycle
    decreases |es|
  {
    if es == [] then p else AfterRun(layers, After(layers, p, es[0]), es[1..])
  }

  function ExpectedRun(layers: nat, p: Cycle, es: seq<Event>): seq<Option<Value>>
    decreases |es|
  {
    if es == [] then [] else [Expected(p, es[0])] + ExpectedRun(layers, After(layers, p, es[0]), es[1..])
  }

  lemma {:induction false} RunFrom(h: Handler, p: Cycle, es: seq<Event>)
    requires Inv(h, p) && LegalRun(h.layers, p, es)
    ensures Run(h, es).Ok?
    ensures Run(h, es).value.1 == ExpectedRun(h.layers, p, es)
    ensures Inv(Run(h, es).value.0, AfterRun(h.layers, p, es)) && Run(h, es).value.0.layers == h.layers
    ensures Run(h, es).value.0.groups == h.groups
    decreases |es|
  {
    hide Inv, Exec, Legal, After, Expected;
    if es != [] {
      StepCorrect(h, p, es[0]);
      RunFrom(Exec(h, es[0]).value.0, After(h.layers, p, es[0]), es[1..]);
    }
  }

  /** Any number of training cycles on a new handler: no assert or lookup fails, every pop returns what was
      pushed under its tag, and whenever a cycle is over the handler is exactly as it was created. */
  lemma {:induction false} OffloadCycles(groups: nat, layers: nat, es: seq<Event>)
    requires 1 <= groups <= layers && LegalRun(layers, START, es)
    ensures var r := Run(NewHandler(groups, layers), es);
            && r.Ok?
            && r.value.1 == ExpectedRun(layers, START, es)
            && (AfterRun(layers, START, es) == START ==> r.value.0 == NewHandler(groups, layers))
  {
    hide Inv, Run, LegalRun, AfterRun, ExpectedRun;
    StartInv(groups, layers);
    RunFrom(NewHandler(groups, layers), START, es);
    if AfterRun(layers, START, es) == START {
      CycleEndsClean(Run(NewHandler(groups, layers), es).value.0);
    }
  }

  // ---------- what stays on the device ----------

  /** The tensor under this tag is referenced by one of the two tag tables. */
  ghost predicate Held(h: Handler, t: Tag) {
    (t in h.states && h.states[t].Live?) || (t in h.bufs && h.bufs[t].Some?)
  }

  lemma {:induction false} HeldGroups(h: Handler, p: Cycle, t: Tag)
    requires Inv(h, p) && h.groups == h.layers - 1 && Held(h, t)
    ensures p.position - 1 <= t.group && (!p.backward ==> t.group <= p.position)
  {
    if t.group < h.groups {
      WindowOneLess(h.layers, t.group);
      assert t.group in h.copies <==> OnHost(h, p, t.group);
    }
    if 0 <= h.offloaded < h.groups {
      WindowOneLess(h.layers, h.offloaded);
    }
  }

  /** With one offload group less than layers, as the handler is set up, the tensors held on the device belong,
      at every point of every run, to the current layer and the one before it; on the way back this is so
      if and only if the saved tensors of the layers already passed have been used. */
  lemma {:induction false} TwoGroupResidency(layers: nat, es: seq<Event>)
    requires 2 <= layers && LegalRun(layers, START, es)
    ensures var p := AfterRun(layers, START, es);
            var r := Run(NewHandler(layers - 1, layers), es);
            && r.Ok?
            && ((forall t :: Held(r.value.0, t) ==> p.position - 1 <= t.group <= p.position) <==>
                (p.backward ==> forall u :: u in p.log ==> u.group <= p.position))
  {
    var h0 := NewHandler(layers - 1, layers);
    StartInv(layers - 1, layers);
    RunFrom(h0, START, es);
    HeldInTwo(Run(h0, es).value.0, AfterRun(layers, START, es));
  }

  lemma {:induction false} HeldInTwo(h: Handler, p: Cycle)
    requires Inv(h, p) && h.groups == h.layers - 1
    ensures (forall t :: Held(h, t) ==> p.position - 1 <= t.group <= p.position) <==>
            (p.backward ==> forall u :: u in p.log ==> u.group <= p.position)
  {
    forall t | Held(h, t) ensures t in p.log && p.position - 1 <= t.group && (!p.backward ==> t.group <= p.position) {
      HeldGroups(h, p, t);
    }
    if p.backward {
      forall u | u in p.log && u.group > p.position ensures Held(h, u) {
        PoppedIsLive(h, p, u);
      }
    }
  }

  lemma {:induction false} RunStep(layers: nat, p: Cycle, e: Event, rest: seq<Event>)
    ensures LegalRun(layers, p, [e] + rest) <==> Legal(layers, p, e) && LegalRun(layers, After(layers, p, e), rest)
    ensures AfterRun(layers, p, [e] + rest) == AfterRun(layers, After(layers, p, e), rest)
  {
    assert ([e] + rest)[0] == e && ([e] + rest)[1..] == rest;
    hide Legal, After;
  }

  /** A saved tensor whose group is not on the host is held on the device. */
  lemma {:induction false} NotOnHostIsHeld(h: Handler, p: Cycle, t: Tag)
    requires Inv(h, p) && t in p.log && !OnHost(h, p, t.group)
    ensures Held(h, t)
  {
    assert Stands(h.copies, h.states[t], t, p.log[t]);
    hide OnHost;
  }

  const SAVED := Item(0, Value([1], [7]))

  /** Three layers that save one tensor each, with two backward commits and nothing used yet. */
  function LazyBackward(): seq<Event> {
    var push := PushTensor(SAVED, true);
    [push] + ([LayerForward] + ([push] + ([LayerForward] + ([push] + ([LayerForward] +
    ([LayerBackward] + ([LayerBackward] + [])))))))
  }

  function AllSaved(): Cycle {
    Cycle(true, 1, 0, map[Tag(0, 0) := SAVED, Tag(1, 0) := SAVED, Tag(2, 0) := SAVED])
  }

  lemma {:induction false} LazyBackwardRun()
    ensures LegalRun(3, START, LazyBackward()) && AfterRun(3, START, LazyBackward()) == AllSaved()
  {
    var push := PushTensor(SAVED, true);
    var log1 := map[Tag(0, 0) := SAVED];
    var log2 := map[Tag(0, 0) := SAVED, Tag(1, 0) := SAVED];
    var log3 := AllSaved().log;
    assert SAVED.value.Valid();
    assert START.log[Tag(0, 0) := SAVED] == log1 && log1[Tag(1, 0) := SAVED] == log2 && log2[Tag(2, 0) := SAVED] == log3;
    var r8: seq<Event> := [];
    var r7 := [LayerBackward] + r8;
    var r6 := [LayerBackward] + r7;
    var r5 := [LayerForward] + r6;
    var r4 := [push] + r5;
    var r3 := [LayerForward] + r4;
    var r2 := [push] + r3;
    var r1 := [LayerForward] + r2;
    hide LegalRun, AfterRun;
    RunStep(3, START, push, r1);
    RunStep(3, Cycle(false, 0, 1, log1), LayerForward, r2);
    RunStep(3, Cycle(false, 1, 0, log1), push, r3);
    RunStep(3, Cycle(false, 1, 1, log2), LayerForward, r4);
    RunStep(3, Cycle(false, 2, 0, log2), push, r5);
    RunStep(3, Cycle(false, 2, 1, log3), LayerForward, r6);
    RunStep(3, Cycle(true, 3, 0, log3), LayerBackward, r7);
    RunStep(3, Cycle(true, 2, 0, log3), LayerBackward, r8);
    EmptyRun(3, AllSaved());
  }

  lemma {:induction false} EmptyRun(layers: nat, p: Cycle)
    ensures LegalRun(layers, p, []) && AfterRun(layers, p, []) == p
  {
  }

  lemma {:induction false} NoneOnHost(h: Handler, k: nat)
    requires h.groups == 2 && h.layers == 3
    ensures !OnHost(h, AllSaved(), k)
  {
    if k < 2 {
      WindowOneLess(h.layers, k);
    }
    hide Window;
  }

  lemma {:induction false} AllSavedHeld(h: Handler)
    requires Inv(h, AllSaved()) && h.groups == 2 && h.layers == 3
    ensures Held(h, Tag(0, 0)) && Held(h, Tag(1, 0)) && Held(h, Tag(2, 0))
  {
    var p := AllSaved();
    assert Tag(0, 0) in p.log && Tag(1, 0) in p.log && Tag(2, 0) in p.log;
    hide AllSaved, OnHost, Inv, Held;
    NoneOnHost(h, 0);
    NoneOnHost(h, 1);
    NoneOnHost(h, 2);
    NotOnHostIsHeld(h, p, Tag(0, 0));
    NotOnHostIsHeld(h, p, Tag(1, 0));
    NotOnHostIsHeld(h, p, Tag(2, 0));
  }

  /** In that run, after the two backward commits, tensors of three layers are held on the device. */
  lemma {:induction false} ThreeGroupsHeld()
    ensures LegalRun(3, START, LazyBackward())
    ensures var r := Run(NewHandler(2, 3), LazyBackward());
            r.Ok? && Held(r.value.0, Tag(0, 0)) && Held(r.value.0, Tag(1, 0)) && Held(r.value.0, Tag(2, 0))
  {
    hide LazyBackward, Run, LegalRun, AfterRun, ExpectedRun, Held, Inv, AllSaved;
    LazyBackwardRun();
    StartInv(2, 3);
    RunFrom(NewHandler(2, 3), START, LazyBackward());
    AllSavedHeld(Run(NewHandler(2, 3), LazyBackward()).value.0);
  }

  // ---------- when equal keys are harmless ----------

  /** Offloading a group and bringing it back restores it if and only if tensors that share a key share their data:
      the host keeps one copy per key. */
  lemma {:induction false} KeySharingExact(states: map<Tag, State>, g: int)
    requires AllLive(states, g)
    requires forall t :: t in states && states[t].Live? ==> states[t].item.value.Valid()
    ensures var away, copies := OffloadedStates(states, g), HostCopies(states, g);
            (AllViewable(away, copies, g) && ReloadedStates(away, copies, g) == states) <==> Consistent(states, g)
  {
  }
}
