// How long the handler keeps a tensor on the device: while it is copied to the
// host, and from its return until it is used.

module OffloadBuffers {
  import opened Results
  import opened OffloadWindow
  import opened OffloadModel
  import opened OffloadProofs

  /** A push hands out a new tag, under which the tensor is saved, or the tensor itself; popping what was handed out
      gives the tensor. */
  lemma {:induction false} HandleOpens(h: Handler, p: Cycle, item: Item, need: bool)
    requires Inv(h, p) && Legal(h.layers, p, PushTensor(item, need))
    ensures var r := Push(h, item, need);
            && r.Ok?
            && var handle := r.value.1;
               && (if need then handle.ByTag? && handle.tag !in p.log &&
                                After(h.layers, p, PushTensor(item, need)).log == p.log[handle.tag := item]
                   else r.value.0 == h)
               && Pop(r.value.0, handle).Ok? && Pop(r.value.0, handle).value.1 == item.value
  {
    if need {
      PushKeeps(h, p, item);
      PushLog(h, p, After(h.layers, p, PushTensor(item, true)), item);
    }
    hide LogInv, TableInv, MemoryInv;
  }

  /** One of the two tag tables refers to this very tensor. */
  ghost predicate HeldAs(h: Handler, t: Tag, item: Item) {
    (t in h.states && h.states[t] == Live(item)) || (t in h.bufs && h.bufs[t] == Some(item))
  }

  /** On the way forward the buffer table refers to every saved tensor whose group is not yet released. */
  ghost predicate Buffered(h: Handler, p: Cycle) {
    !p.backward ==> forall t :: t in p.log && h.offloaded <= t.group < h.groups ==>
                      t in h.bufs && h.bufs[t] == Some(p.log[t])
  }

  lemma {:induction false} PushBuffers(h: Handler, p: Cycle, item: Item)
    requires Inv(h, p) && Buffered(h, p) && Legal(h.layers, p, PushTensor(item, true))
    ensures var r := Push(h, item, true); r.Ok? && Buffered(r.value.0, After(h.layers, p, PushTensor(item, true)))
  {
    PushKeeps(h, p, item);
    hide LogInv, TableInv, MemoryInv;
  }

  /** A forward commit leaves the buffer table alone, or drops the group it releases. */
  lemma {:induction false} CommitBuffers(h: Handler)
    requires CommitForward(h).Ok?
    ensures var h' := CommitForward(h).value;
            || (h'.bufs == h.bufs && h'.offloaded == h.offloaded)
            || (h'.bufs == ReleasedBufs(h.bufs, h.offloaded) && h'.offloaded == h.offloaded + 1)
    ensures CommitForward(h).value.groups == h.groups
  {
  }

  lemma {:induction false} ForwardBuffers(h: Handler, p: Cycle)
    requires Inv(h, p) && Buffered(h, p) && Legal(h.layers, p, LayerForward)
    ensures var r := CommitForward(h); r.Ok? && Buffered(r.value, After(h.layers, p, LayerForward))
  {
    ForwardKeeps(h, p);
    CommitBuffers(h);
    hide Inv, CommitForward;
  }

  lemma {:induction false} StepBuffers(h: Handler, p: Cycle, e: Event)
    requires Inv(h, p) && Buffered(h, p) && Legal(h.layers, p, e)
    ensures Exec(h, e).Ok? && Buffered(Exec(h, e).value.0, After(h.layers, p, e))
  {
    StepCorrect(h, p, e);
    hide Inv, Push, Pop, CommitForward, CommitBackward;
    match e
    case PushTensor(item, need) => if need { PushBuffers(h, p, item); }
    case PopTensor(ByTag(tag)) => NothingPushed(h, p, e);
    case PopTensor(ByValue(v)) =>
    case LayerForward => ForwardBuffers(h, p);
    case LayerBackward => NothingPushed(h, p, e);
  }

  /** The way back ends with nothing saved. */
  lemma {:induction false} NothingPushed(h: Handler, p: Cycle, e: Event)
    requires p.backward && (e.LayerBackward? || (e.PopTensor? && e.handle.ByTag?))
    ensures forall h' :: Buffered(h', After(h.layers, p, e))
  {
  }

  lemma {:induction false} RunBuffers(h: Handler, p: Cycle, es: seq<Event>)
    requires Inv(h, p) && Buffered(h, p) && LegalRun(h.layers, p, es)
    ensures Run(h, es).Ok? && Buffered(Run(h, es).value.0, AfterRun(h.layers, p, es))
    decreases |es|
  {
    hide Inv, Exec, Legal, After, Expected, Buffered;
    if es != [] {
      StepCorrect(h, p, es[0]);
      StepBuffers(h, p, es[0]);
      RunBuffers(Exec(h, es[0]).value.0, After(h.layers, p, es[0]), es[1..]);
    }
  }

  // ---------- when a tensor is held ----------

  /** The layer after which the group is released has not been passed, or on the way back has been reached again. */
  ghost predicate Due(groups: nat, layers: nat, p: Cycle, g: nat)
    requires 0 < groups
  {
    g >= groups || p.position <= Window(groups, layers, g)
  }

  lemma {:induction false} DueForward(h: Handler, p: Cycle, g: nat)
    requires Inv(h, p) && !p.backward && g < h.groups
    ensures Due(h.groups, h.layers, p, g) <==> h.offloaded <= g
  {
    if g < h.offloaded {
      WindowBelow(h, p, g);
    } else if h.offloaded < g {
      WindowIncreasing(h.groups, h.layers, h.offloaded, g);
    }
  }

  lemma {:induction false} DueIsHeld(h: Handler, p: Cycle, t: Tag)
    requires Inv(h, p) && Buffered(h, p) && t in p.log && Due(h.groups, h.layers, p, t.group)
    ensures HeldAs(h, t, p.log[t])
  {
    if !p.backward && t.group < h.groups {
      DueForward(h, p, t.group);
    } else {
      assert !OnHost(h, p, t.group);
      assert Stands(h.copies, h.states[t], t, p.log[t]);
    }
    hide Window;
  }

  lemma {:induction false} HeldIsDue(h: Handler, p: Cycle, t: Tag)
    requires Inv(h, p) && h.groups < h.layers
    ensures Held(h, t) ==> t in p.log && Due(h.groups, h.layers, p, t.group)
  {
    if t.group < h.groups && !Due(h.groups, h.layers, p, t.group) {
      WindowLate(h.groups, h.layers, t.group);
      if !p.backward {
        DueForward(h, p, t.group);
      }
      assert OnHost(h, p, t.group);
      hide Window, Due;
      assert t.group in h.copies;
    }
  }

  /** At every point of every run a saved tensor that is not used yet is held, as what was pushed, as long as its
      group's release is ahead: so also while it is on its way to the host, and again from the layer on that released
      it. With fewer groups than layers nothing else is held. */
  lemma {:induction false} HeldExactly(groups: nat, layers: nat, es: seq<Event>)
    requires 1 <= groups <= layers && LegalRun(layers, START, es)
    ensures var p := AfterRun(layers, START, es);
            var r := Run(NewHandler(groups, layers), es);
            && r.Ok?
            && (forall t :: t in p.log && Due(groups, layers, p, t.group) ==> HeldAs(r.value.0, t, p.log[t]))
            && (groups < layers ==> forall t :: Held(r.value.0, t) ==> t in p.log && Due(groups, layers, p, t.group))
  {
    var h0, p := NewHandler(groups, layers), AfterRun(layers, START, es);
    StartInv(groups, layers);
    RunFrom(h0, START, es);
    RunBuffers(h0, START, es);
    var h := Run(h0, es).value.0;
    hide Inv, Buffered, Run, LegalRun, AfterRun, Due, Held, HeldAs, ExpectedRun;
    forall t | t in p.log && Due(groups, layers, p, t.group) ensures HeldAs(h, t, p.log[t]) {
      DueIsHeld(h, p, t);
    }
    if groups < layers {
      forall t ensures Held(h, t) ==> t in p.log && Due(groups, layers, p, t.group) {
        HeldIsDue(h, p, t);
      }
    }
  }

  /** On the way back a pop succeeds exactly for a saved tensor that is not used yet and is due again, and returns it:
      one that comes too early or twice fails. */
  lemma {:induction false} PopsExactly(groups: nat, layers: nat, es: seq<Event>, t: Tag)
    requires 1 <= groups < layers && LegalRun(layers, START, es) && AfterRun(layers, START, es).backward
    ensures var p := AfterRun(layers, START, es);
            var r := Run(NewHandler(groups, layers), es);
            && r.Ok?
            && var popped := Pop(r.value.0, ByTag(t));
               && (popped.Ok? <==> t in p.log && Due(groups, layers, p, t.group))
               && (popped.Ok? ==> popped.value.1 == p.log[t].value)
  {
    var h0, p := NewHandler(groups, layers), AfterRun(layers, START, es);
    StartInv(groups, layers);
    RunFrom(h0, START, es);
    hide Run, LegalRun, AfterRun, ExpectedRun;
    PopOk(Run(h0, es).value.0, p, t);
  }

  lemma {:induction false} PopOk(h: Handler, p: Cycle, t: Tag)
    requires Inv(h, p) && h.groups < h.layers && p.backward
    ensures Pop(h, ByTag(t)).Ok? <==> t in p.log && Due(h.groups, h.layers, p, t.group)
    ensures Pop(h, ByTag(t)).Ok? ==> Pop(h, ByTag(t)).value.1 == p.log[t].value
  {
    if t in p.log {
      WindowLate(h.groups, h.layers, t.group);
      assert Stands(h.copies, h.states[t], t, p.log[t]);
      assert t.group in h.copies <==> OnHost(h, p, t.group);
    }
    hide Window;
  }
}
