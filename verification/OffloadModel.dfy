// Activation offloading (verl/verl/utils/activation_offload.py): the handler's
// tables as values, one function per handler operation.

module OffloadWindow {
  import opened Numbers
  /** Group k is released after the commit of layer Window(groups, layers, k). */
  function Window(groups: nat, layers: nat, k: nat): int
    requires 0 < groups
  {
    (layers / groups) * (k + 1) - 1 + Min(k + 1, layers % groups)
  }

  /** The constructor's loop over groups, with its running remainder. */
  method LayerWindowMap(groups: nat, layers: nat) returns (window: map<nat, int>)
    requires 0 < groups
    ensures forall k: nat :: k in window <==> k < groups
    ensures forall k :: 0 <= k < groups ==> window[k] == Window(groups, layers, k)
  {
    window := map[];
    var constant := 0;
    for i := 0 to groups
      invariant forall k: nat :: k in window <==> k < i
      invariant constant == Min(i, layers % groups)
      invariant forall k :: 0 <= k < i ==> window[k] == Window(groups, layers, k)
    {
      window := window[i := (layers / groups) * (i + 1) - 1];
      if i < layers % groups {
        window := window[i := window[i] + i + 1];
        constant := i + 1;
      } else {
        window := window[i := window[i] + constant];
      }
    }
  }

  lemma {:induction false} DivModBasics(groups: nat, layers: nat)
    requires 0 < groups <= layers
    ensures 1 <= layers / groups && layers % groups < groups
    ensures layers == (layers / groups) * groups + layers % groups
  {
  }

  lemma {:induction false} WindowStep(groups: nat, layers: nat, k: nat)
    requires 0 < groups <= layers
    ensures Window(groups, layers, k + 1) ==
            Window(groups, layers, k) + layers / groups + (if k + 1 < layers % groups then 1 else 0)
  {
    var q := layers / groups;
    assert q * (k + 2) == q * (k + 1) + q;
  }

  /** The release schedule is strictly increasing, spreads the layers evenly and ends at the last layer. */
  lemma {:induction false} WindowIncreasing(groups: nat, layers: nat, j: nat, k: nat)
    requires 0 < groups <= layers && j < k
    ensures Window(groups, layers, j) < Window(groups, layers, k)
  {
    DivModBasics(groups, layers);
    WindowStep(groups, layers, k - 1);
    if j < k - 1 {
      WindowIncreasing(groups, layers, j, k - 1);
    }
  }

  lemma {:induction false} WindowLast(groups: nat, layers: nat)
    requires 0 < groups <= layers
    ensures Window(groups, layers, groups - 1) == layers - 1
  {
    DivModBasics(groups, layers);
  }

  /** A group is never released before its own layer is done, and with fewer groups than layers
      not before the next layer is. */
  lemma {:induction false} WindowLate(groups: nat, layers: nat, k: nat)
    requires 0 < groups <= layers
    ensures k <= Window(groups, layers, k)
    ensures groups < layers ==> k + 1 <= Window(groups, layers, k)
  {
    DivModBasics(groups, layers);
    if k == 0 {
      assert layers / groups == 1 && layers % groups == 0 ==> layers == groups;
    } else {
      WindowLate(groups, layers, k - 1);
      WindowStep(groups, layers, k - 1);
    }
  }

  /** With one group less than layers, group k is released right after layer k + 1. */
  lemma {:induction false} WindowOneLess(layers: nat, k: nat)
    requires 2 <= layers && k < layers - 1
    ensures Window(layers - 1, layers, k) == k + 1
  {
    var n := layers - 1;
    if n == 1 {
      assert layers / n == 2 && layers % n == 0;
    } else {
      assert layers == 1 * n + 1;
      assert layers / n == 1 && layers % n == 1;
    }
  }
}

module OffloadModel {
  import opened Results
  import opened OffloadWindow
  import Weights

  /** A tensor's contents: shape and flat data. */
  datatype Value = Value(shape: seq<nat>, data: seq<int>) {
    ghost predicate Valid() {
      |data| == Weights.Numel(shape)
    }
  }

  /** A tensor on the device; `key` stands for its storage address, offset and element type. */
  datatype Item = Item(key: int, value: Value)

  datatype Tag = Tag(group: nat, index: nat)

  /** An entry of the tag table: the tensor, or key and shape while its group is on the host. */
  datatype State = Live(item: Item) | Away(key: int, shape: seq<nat>)

  /** The handler's fields. */
  datatype Handler = Handler(
    groups: nat, layers: nat,
    currentGroup: int, tensorCount: nat,
    states: map<Tag, State>, bufs: map<Tag, Option<Item>>,
    offloaded: int, copies: map<int, map<int, seq<int>>>)

  function NewHandler(groups: nat, layers: nat): Handler {
    Handler(groups, layers, 0, 0, map[], map[], 0, map[])
  }

  ghost predicate AllLive(states: map<Tag, State>, g: int) {
    forall t :: t in states && t.group == g ==> states[t].Live?
  }

  ghost predicate HasKey(states: map<Tag, State>, g: int, key: int, t: Tag) {
    t in states && t.group == g && states[t].Live? && states[t].item.key == key
  }

  /** Tensors of one group with the same key hold the same data. */
  ghost predicate Consistent(states: map<Tag, State>, g: int) {
    forall key, t, u :: HasKey(states, g, key, t) && HasKey(states, g, key, u) ==>
                          states[t].item.value.data == states[u].item.value.data
  }

  lemma {:induction false} Oldest(tags: set<Tag>) returns (first: Tag)
    requires tags != {}
    ensures first in tags && forall u :: u in tags ==> first.index <= u.index
  {
    first :| first in tags;
    var rest := tags - {first};
    if rest != {} {
      var other := Oldest(rest);
      if other.index < first.index {
        first := other;
      }
    }
  }

  /** The tensor of group g that was pushed first under this key. */
  ghost predicate IsFirst(states: map<Tag, State>, g: int, key: int, t: Tag) {
    HasKey(states, g, key, t) && forall u :: HasKey(states, g, key, u) ==> t.index <= u.index
  }

  lemma {:induction false} FirstExists(states: map<Tag, State>, g: int, key: int, t: Tag)
    requires HasKey(states, g, key, t)
    ensures exists first :: IsFirst(states, g, key, first)
  {
    var tags := set u | u in states && HasKey(states, g, key, u);
    assert t in tags;
    var first := Oldest(tags);
    assert IsFirst(states, g, key, first);
  }

  ghost function OffloadedStates(states: map<Tag, State>, g: int): map<Tag, State>
    requires AllLive(states, g)
  {
    map t | t in states :: if t.group == g then Away(states[t].item.key, states[t].item.value.shape) else states[t]
  }

  ghost function Keys(states: map<Tag, State>, g: int): set<int>
    requires AllLive(states, g)
  {
    set t | t in states && t.group == g :: states[t].item.key
  }

  lemma {:induction false} KeyIsFirst(states: map<Tag, State>, g: int, key: int)
    requires AllLive(states, g) && key in Keys(states, g)
    ensures exists first :: IsFirst(states, g, key, first)
  {
    var t :| t in states && t.group == g && states[t].item.key == key;
    FirstExists(states, g, key, t);
  }

  ghost function CopyOf(states: map<Tag, State>, g: int, key: int): seq<int>
    requires AllLive(states, g) && key in Keys(states, g)
  {
    KeyIsFirst(states, g, key);
    var first :| IsFirst(states, g, key, first);
    states[first].item.value.data
  }

  /** One host copy per distinct key of the group, of the tensor seen first. */
  ghost function HostCopies(states: map<Tag, State>, g: int): map<int, seq<int>>
    requires AllLive(states, g)
  {
    map key | key in Keys(states, g) :: CopyOf(states, g, key)
  }

  ghost function BulkOffload(h: Handler, g: int): Result<Handler> {
    if !AllLive(h.states, g) then Err("state is a tuple")
    else Ok(h.(states := OffloadedStates(h.states, g), copies := h.copies[g := HostCopies(h.states, g)]))
  }

  /** A host copy can be viewed in a shape of the same size. */
  ghost predicate Viewable(copies: map<int, seq<int>>, s: State) {
    s.Away? ==> s.key in copies && |copies[s.key]| == Weights.Numel(s.shape)
  }

  function Restored(copies: map<int, seq<int>>, s: State): State
    requires s.Away? ==> s.key in copies
  {
    if s.Away? then Live(Item(s.key, Value(s.shape, copies[s.key]))) else s
  }

  ghost predicate AllViewable(states: map<Tag, State>, copies: map<int, seq<int>>, g: int) {
    forall t :: t in states && t.group == g ==> Viewable(copies, states[t])
  }

  ghost function ReloadedStates(states: map<Tag, State>, copies: map<int, seq<int>>, g: int): map<Tag, State>
    requires AllViewable(states, copies, g)
  {
    map t | t in states :: if t.group == g then Restored(copies, states[t]) else states[t]
  }

  ghost function BulkReload(h: Handler, g: int): Result<Handler> {
    if g >= h.groups then Err("group_to_reload < num_offload_group")
    else if g !in h.copies then Err("group_offload_mapping")
    else if !AllViewable(h.states, h.copies[g], g) then Err("view")
    else Ok(h.(states := ReloadedStates(h.states, h.copies[g], g), copies := h.copies - {g}))
  }

  // ---------- the four hooks ----------

  datatype Handle = ByTag(tag: Tag) | ByValue(value: Value)

  function Push(h: Handler, item: Item, needOffload: bool): Result<(Handler, Handle)> {
    if !needOffload then Ok((h, ByValue(item.value)))
    else if h.currentGroup < 0 then Err("group")
    else
      var tag := Tag(h.currentGroup, h.tensorCount);
      if tag in h.states then Err("tensor_tag not in tensor_tag_to_state")
      else Ok((h.(tensorCount := h.tensorCount + 1,
                  states := h.states[tag := Live(item)],
                  bufs := if h.currentGroup < h.groups then h.bufs[tag := Some(item)] else h.bufs),
               ByTag(tag)))
  }

  function Pop(h: Handler, handle: Handle): Result<(Handler, Value)> {
    match handle
    case ByValue(v) => Ok((h, v))
    case ByTag(tag) =>
      if tag !in h.states then Err("tensor_tag in tensor_tag_to_state")
      else if h.states[tag].Away? then Err("not isinstance(tensor, tuple)")
      else Ok((h.(states := h.states - {tag}, bufs := h.bufs - {tag}), h.states[tag].item.value))
  }

  ghost function ReleasedBufs(bufs: map<Tag, Option<Item>>, g: int): map<Tag, Option<Item>> {
    map t | t in bufs :: if t.group == g then None else bufs[t]
  }

  /** The release of group `offloaded` and the offload of the next. */
  ghost function Released(h: Handler): Result<Handler> {
    var h2 := h.(bufs := ReleasedBufs(h.bufs, h.offloaded));
    var h3 :- if h2.offloaded < h2.groups - 1 then BulkOffload(h2, h2.offloaded + 1) else Ok(h2);
    Ok(h3.(offloaded := h3.offloaded + 1))
  }

  ghost function SynchronizeForward(h: Handler, group: int): Result<Handler> {
    var h1 :- if group == 0 then BulkOffload(h, group) else Ok(h);
    if !(0 <= h1.offloaded < h1.groups) then Err("layer_window_map")
    else if Window(h1.groups, h1.layers, h1.offloaded) != group then Ok(h1)
    else Released(h1)
  }

  ghost function CommitForward(h: Handler): Result<Handler> {
    var h1 :- SynchronizeForward(h, h.currentGroup);
    Ok(h1.(currentGroup := h1.currentGroup + 1, tensorCount := 0))
  }

  /** Bringing back the latest group on the host, once the backward pass reaches the layer that released it. */
  ghost function ReloadDue(h: Handler): Result<Handler> {
    if !(0 <= h.offloaded - 1 < h.groups) then Err("layer_window_map")
    else if Window(h.groups, h.layers, h.offloaded - 1) != h.currentGroup then Ok(h)
    else
      var r :- BulkReload(h, h.offloaded - 1);
      Ok(r.(offloaded := r.offloaded - if r.offloaded > 1 then 1 else 0))
  }

  ghost function CommitBackward(h: Handler): Result<Handler> {
    if h.currentGroup - 1 < 0 then Err("current_group >= 0")
    else
      var h1 :- ReloadDue(h.(currentGroup := h.currentGroup - 1));
      Ok(if h1.currentGroup == 0 then h1.(offloaded := 0) else h1)
  }
}
