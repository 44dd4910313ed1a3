// The offload handler as the object it is: methods that update its tables in
// place, each tied to the operation on table values.

module OffloadHandler {
  import opened Results
  import opened OffloadWindow
  import opened OffloadModel
  import Weights
  import opened OffloadProofs

  class AsyncDoubleBufferGroupOffloadHandler {
    const groups: nat
    const layers: nat
    var currentGroup: int
    var tensorCount: nat
    var states: map<Tag, State>
    var bufs: map<Tag, Option<Item>>
    var offloaded: int
    var copies: map<int, map<int, seq<int>>>
    var layerWindowMap: map<nat, int>

    ghost function Fields(): Handler
      reads this
    {
      Handler(groups, layers, currentGroup, tensorCount, states, bufs, offloaded, copies)
    }

    ghost predicate Valid()
      reads this
    {
      && 0 < groups
      && (forall k: nat :: k in layerWindowMap <==> k < groups)
      && (forall k :: 0 <= k < groups ==> layerWindowMap[k] == Window(groups, layers, k))
    }

    constructor (groups: nat, layers: nat)
      requires 0 < groups
      ensures Valid() && Fields() == NewHandler(groups, layers)
    {
      this.groups, this.layers := groups, layers;
      currentGroup, tensorCount, offloaded := 0, 0, 0;
      states, bufs, copies := map[], map[], map[];
      var window := LayerWindowMap(groups, layers);
      layerWindowMap := window;
    }

    method TensorPush(item: Item, needOffload: bool) returns (r: Result<Handle>)
      requires Valid()
      modifies this
      ensures Valid()
      ensures var spec := Push(old(Fields()), item, needOffload);
              (r.Ok? <==> spec.Ok?) && (r.Ok? ==> Fields() == spec.value.0 && r.value == spec.value.1)
    {
      if !needOffload {
        return Ok(ByValue(item.value));
      }
      if currentGroup < 0 {
        return Err("group");
      }
      var tag := Tag(currentGroup, tensorCount);
      tensorCount := tensorCount + 1;
      if tag in states {
        return Err("tensor_tag not in tensor_tag_to_state");
      }
      states := states[tag := Live(item)];
      if currentGroup < groups {
        bufs := bufs[tag := Some(item)];
      }
      return Ok(ByTag(tag));
    }

    method TensorPop(handle: Handle) returns (r: Result<Value>)
      requires Valid()
      modifies this
      ensures Valid()
      ensures var spec := Pop(old(Fields()), handle);
              (r.Ok? <==> spec.Ok?) && (r.Ok? ==> Fields() == spec.value.0 && r.value == spec.value.1)
    {
      match handle {
        case ByValue(v) =>
          return Ok(v);
        case ByTag(tag) =>
          if tag !in states {
            return Err("tensor_tag in tensor_tag_to_state");
          }
          var state := states[tag];
          states, bufs := states - {tag}, bufs - {tag};
          if state.Away? {
            return Err("not isinstance(tensor, tuple)");
          }
          return Ok(state.item.value);
      }
    }

    method BulkOffloadGroup(g: int) returns (ok: bool)
      requires Valid()
      modifies this
      ensures Valid()
      ensures ok == BulkOffload(old(Fields()), g).Ok?
      ensures ok ==> Fields() == BulkOffload(old(Fields()), g).value
    {
      var offloadMapping;
      ok, offloadMapping := OffloadTags(g);
      hide AllLive, OffloadedStates, HostCopies;
      if ok {
        copies := copies[g := offloadMapping];
      }
    }

    /** The loop over the table; tags of one group stand in it in the order in which they were pushed. */
    method OffloadTags(g: int) returns (ok: bool, offloadMapping: map<int, seq<int>>)
      modifies `states
      ensures ok == AllLive(old(states), g)
      ensures ok ==> states == OffloadedStates(old(states), g) && offloadMapping == HostCopies(old(states), g)
    {
      ghost var before := states;
      offloadMapping := map[];
      var todo := states.Keys;
      hide AllLive, OffloadedStates, HostCopies;
      while todo != {}
        invariant Moving(before, states, todo, g, offloadMapping)
        decreases todo
      {
        ghost var oldest := Oldest(todo);
        var tag :| tag in todo && forall u :: u in todo ==> tag.index <= u.index;
        MoveOne(before, states, todo, g, offloadMapping, tag);
        hide Moving, Move;
        todo := todo - {tag};
        if tag.group == g {
          var state := states[tag];
          if state.Away? {
            return false, map[];
          }
          var key := state.item.key;
          if key !in offloadMapping {
            offloadMapping := offloadMapping[key := state.item.value.data];
          }
          states := states[tag := Away(key, state.item.value.shape)];
        }
      }
      ok := true;
      MovedAll(before, states, g, offloadMapping);
    }

    /** The tags not in `todo` have been dealt with, oldest first. */
    static ghost predicate Moving(before: map<Tag, State>, now: map<Tag, State>, todo: set<Tag>, g: int,
                                  mapping: map<int, seq<int>>) {
      && todo <= now.Keys == before.Keys
      && (forall t, u :: t in before && t !in todo && u in todo ==> t.index <= u.index)
      && (forall t :: t in before && (t in todo || t.group != g) ==> now[t] == before[t])
      && (forall t :: t in before && t !in todo && t.group == g ==>
            && before[t].Live?
            && now[t] == Away(before[t].item.key, before[t].item.value.shape)
            && before[t].item.key in mapping)
      && CopiesOfFirsts(before, g, mapping)
    }

    /** Every host copy is of the tensor pushed first under its key. */
    static ghost predicate CopiesOfFirsts(before: map<Tag, State>, g: int, mapping: map<int, seq<int>>) {
      forall key :: key in mapping ==>
        exists t :: IsFirst(before, g, key, t) && mapping[key] == before[t].item.value.data
    }

    /** Table and host copies after one tag. */
    static function Move(now: map<Tag, State>, g: int, mapping: map<int, seq<int>>, tag: Tag)
      : (map<Tag, State>, map<int, seq<int>>)
      requires tag in now && (tag.group == g ==> now[tag].Live?)
    {
      if tag.group != g then (now, mapping)
      else
        var item := now[tag].item;
        (now[tag := Away(item.key, item.value.shape)],
         if item.key in mapping then mapping else mapping[item.key := item.value.data])
    }

    static lemma {:induction false} MoveOne(before: map<Tag, State>, now: map<Tag, State>, todo: set<Tag>, g: int,
                                            mapping: map<int, seq<int>>, tag: Tag)
      requires Moving(before, now, todo, g, mapping)
      requires tag in todo && forall u :: u in todo ==> tag.index <= u.index
      ensures tag in now && (tag.group == g ==> (AllLive(before, g) ==> now[tag].Live?))
      ensures tag.group == g && now[tag].Away? ==> !AllLive(before, g)
      ensures tag.group != g || now[tag].Live? ==>
                var r := Move(now, g, mapping, tag); Moving(before, r.0, todo - {tag}, g, r.1)
    {
      hide HasKey;
      if tag.group == g && now[tag].Live? {
        if now[tag].item.key !in mapping {
          OldestIsFirst(before, g, mapping, todo, tag);
          CopiesGrow(before, g, mapping, tag);
        }
      }
      hide CopiesOfFirsts, IsFirst;
    }

    static lemma {:induction false} MovedAll(before: map<Tag, State>, now: map<Tag, State>, g: int, mapping: map<int, seq<int>>)
      requires Moving(before, now, {}, g, mapping)
      ensures AllLive(before, g) && now == OffloadedStates(before, g) && mapping == HostCopies(before, g)
    {
      assert AllLive(before, g);
      CopiesAgree(before, g, mapping);
      hide HostCopies, CopiesOfFirsts;
    }

    static lemma {:induction false} OldestIsFirst(before: map<Tag, State>, g: int, mapping: map<int, seq<int>>,
                                                  rest: set<Tag>, t: Tag)
      requires t in before && t.group == g && before[t].Live? && before[t].item.key !in mapping
      requires forall u :: u in before && u !in rest && u.group == g && before[u].Live? ==> before[u].item.key in mapping
      requires forall u :: u in rest ==> t.index <= u.index
      ensures IsFirst(before, g, before[t].item.key, t)
    {
    }

    static lemma {:induction false} CopiesGrow(before: map<Tag, State>, g: int, mapping: map<int, seq<int>>, t: Tag)
      requires CopiesOfFirsts(before, g, mapping) && t in before && before[t].Live?
      requires IsFirst(before, g, before[t].item.key, t)
      ensures CopiesOfFirsts(before, g, mapping[before[t].item.key := before[t].item.value.data])
    {
      hide IsFirst;
    }

    static lemma {:induction false} CopiesAgree(before: map<Tag, State>, g: int, mapping: map<int, seq<int>>)
      requires AllLive(before, g) && CopiesOfFirsts(before, g, mapping)
      requires forall t :: t in before && t.group == g ==> before[t].item.key in mapping
      ensures mapping == HostCopies(before, g)
    {
      forall key | key in Keys(before, g) ensures key in mapping && mapping[key] == CopyOf(before, g, key) {
        var u :| u in before && u.group == g && before[u].item.key == key;
        var t :| IsFirst(before, g, key, t) && mapping[key] == before[t].item.value.data;
        KeyIsFirst(before, g, key);
        forall v | IsFirst(before, g, key, v) ensures v == t {
          assert HasKey(before, g, key, t) && HasKey(before, g, key, v);
        }
      }
      forall key | key in mapping ensures key in Keys(before, g) {
        var t :| IsFirst(before, g, key, t);
      }
    }

    method SynchronizeOnGroupCommitForward(group: int) returns (ok: bool)
      requires Valid()
      modifies this
      ensures Valid()
      ensures ok == SynchronizeForward(old(Fields()), group).Ok?
      ensures ok ==> Fields() == SynchronizeForward(old(Fields()), group).value
    {
      if group == 0 {
        var kicked := BulkOffloadGroup(group);
        if !kicked {
          return false;
        }
      }
      if !(0 <= offloaded && offloaded in layerWindowMap) {
        return false;
      }
      if layerWindowMap[offloaded] == group {
        ok := ReleaseAndOffloadNext();
        return ok;
      }
      return true;
    }

    method ReleaseAndOffloadNext() returns (ok: bool)
      requires Valid()
      modifies this
      ensures Valid()
      ensures ok == Released(old(Fields())).Ok?
      ensures ok ==> Fields() == Released(old(Fields())).value
    {
      ReleaseBufs();
      if offloaded < groups - 1 {
        var next := BulkOffloadGroup(offloaded + 1);
        if !next {
          return false;
        }
      }
      offloaded := offloaded + 1;
      return true;
    }

    /** The loop that drops the references of the released group. */
    method ReleaseBufs()
      requires Valid()
      modifies `bufs
      ensures Valid()
      ensures bufs == ReleasedBufs(old(bufs), offloaded)
    {
      var todo := bufs.Keys;
      while todo != {}
        invariant todo <= bufs.Keys == old(bufs).Keys
        invariant forall t :: t in bufs ==> bufs[t] == if t !in todo && t.group == offloaded then None else old(bufs)[t]
        decreases todo
      {
        var tag :| tag in todo;
        todo := todo - {tag};
        if tag.group == offloaded {
          bufs := bufs[tag := None];
        }
      }
    }

    method OnGroupCommitForward() returns (ok: bool)
      requires Valid()
      modifies this
      ensures Valid()
      ensures ok == CommitForward(old(Fields())).Ok?
      ensures ok ==> Fields() == CommitForward(old(Fields())).value
    {
      ok := SynchronizeOnGroupCommitForward(currentGroup);
      if ok {
        currentGroup := currentGroup + 1;
        tensorCount := 0;
      }
    }

    method BulkReloadGroup(g: int) returns (ok: bool)
      requires Valid()
      modifies this
      ensures Valid()
      ensures ok == BulkReload(old(Fields()), g).Ok?
      ensures ok ==> Fields() == BulkReload(old(Fields()), g).value
    {
      if g >= groups || g !in copies {
        return false;
      }
      ghost var before := states;
      var offloadMapping := copies[g];
      copies := copies - {g};
      var todo := states.Keys;
      while todo != {}
        invariant todo <= states.Keys == before.Keys
        invariant unchanged(`currentGroup) && unchanged(`tensorCount) && unchanged(`bufs)
        invariant unchanged(`offloaded) && unchanged(`layerWindowMap)
        invariant copies == old(copies) - {g}
        invariant forall t :: t in before && (t in todo || t.group != g) ==> states[t] == before[t]
        invariant forall t :: t in before && t !in todo && t.group == g ==>
                    Viewable(offloadMapping, before[t]) && states[t] == Restored(offloadMapping, before[t])
        decreases todo
      {
        var tag :| tag in todo;
        todo := todo - {tag};
        var state := states[tag];
        if tag.group == g && state.Away? {
          if !(state.key in offloadMapping && |offloadMapping[state.key]| == Weights.Numel(state.shape)) {
            assert !Viewable(offloadMapping, before[tag]);
            return false;
          }
          states := states[tag := Live(Item(state.key, Value(state.shape, offloadMapping[state.key])))];
        }
      }
      assert states == ReloadedStates(before, offloadMapping, g);
      return true;
    }

    method OnGroupCommitBackward() returns (ok: bool)
      requires Valid()
      modifies this
      ensures Valid()
      ensures ok == CommitBackward(old(Fields())).Ok?
      ensures ok ==> Fields() == CommitBackward(old(Fields())).value
    {
      currentGroup := currentGroup - 1;
      if !(currentGroup >= 0) {
        return false;
      }
      if !(0 <= offloaded - 1 && offloaded - 1 in layerWindowMap) {
        return false;
      }
      if layerWindowMap[offloaded - 1] == currentGroup {
        var reloaded := BulkReloadGroup(offloaded - 1);
        if !reloaded {
          return false;
        }
        offloaded := offloaded - if offloaded > 1 then 1 else 0;
      }
      if currentGroup == 0 {
        offloaded := 0;
      }
      return true;
    }
  }

  /** The hooks called by a training run, on one handler object: no call fails, every saved tensor comes back
      as it was, and at the end of every cycle the object's tables are empty and its counters 0. */
  method Train(groups: nat, layers: nat, es: seq<Event>) returns (outs: seq<Option<Value>>)
    requires 1 <= groups <= layers && LegalRun(layers, START, es)
    ensures outs == ExpectedRun(layers, START, es)
  {
    var handler := new AsyncDoubleBufferGroupOffloadHandler(groups, layers);
    ghost var p, rest := START, es;
    outs := [];
    StartInv(groups, layers);
    for i := 0 to |es|
      invariant rest == es[i..] && handler.Valid() && fresh(handler)
      invariant handler.groups == groups && handler.layers == layers
      invariant Inv(handler.Fields(), p) && LegalRun(layers, p, rest)
      invariant outs + ExpectedRun(layers, p, rest) == ExpectedRun(layers, START, es)
    {
      StepCorrect(handler.Fields(), p, es[i]);
      ghost var expected := Expected(p, es[i]);
      var out := Call(handler, es[i]);
      assert out == Ok(expected);
      p := After(layers, p, es[i]);
      Weights.AppendAssoc(outs, [expected], ExpectedRun(layers, p, rest[1..]));
      rest := rest[1..];
      outs := outs + [out.value];
      if p == START {
        CycleEndsClean(handler.Fields());
        assert handler.states == map[] && handler.bufs == map[] && handler.copies == map[];
        assert handler.offloaded == handler.currentGroup == 0;
      }
    }
  }

  /** One hook call; an error is a failed assert or lookup. */
  method Call(handler: AsyncDoubleBufferGroupOffloadHandler, e: Event) returns (r: Result<Option<Value>>)
    requires handler.Valid()
    modifies handler
    ensures handler.Valid()
    ensures var spec := Exec(old(handler.Fields()), e);
            (r.Ok? <==> spec.Ok?) && (r.Ok? ==> handler.Fields() == spec.value.0 && r.value == spec.value.1)
  {
    match e {
      case PushTensor(item, need) =>
        var tag := handler.TensorPush(item, need);
        r := if tag.Ok? then Ok(None) else Err(tag.error);
      case PopTensor(handle) =>
        var v := handler.TensorPop(handle);
        r := if v.Ok? then Ok(Some(v.value)) else Err(v.error);
      case LayerForward =>
        var ok := handler.OnGroupCommitForward();
        r := if ok then Ok(None) else Err("forward");
      case LayerBackward =>
        var ok := handler.OnGroupCommitBackward();
        r := if ok then Ok(None) else Err("backward");
    }
  }
}
