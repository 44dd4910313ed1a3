// Building the candidate list of an instance (src/faithrec/recbench.py). Random
// choices are left open, so what is proved holds for every sequence of them.

module Items {
  import opened Filters
  import opened Numbers
  /** A catalog item; `text` is the lower-cased text the hard-negative search looks through. */
  datatype Item = Item(id: string, title: string, text: string, hard: bool)

  ghost predicate DistinctIds(s: seq<Item>) {
    forall i, j :: 0 <= i < j < |s| ==> s[i].id != s[j].id
  }

  function IdSet(s: seq<Item>): set<string> {
    set x | x in s :: x.id
  }

  lemma {:induction false} IdSetAppend(s: seq<Item>, t: seq<Item>)
    ensures IdSet(s + t) == IdSet(s) + IdSet(t)
  {
  }

  lemma {:induction false} LastIdIsFresh(front: seq<Item>, x: Item)
    ensures IdSet(front + [x]) == IdSet(front) + {x.id}
    ensures DistinctIds(front + [x]) <==> DistinctIds(front) && x.id !in IdSet(front)
  {
    var row := front + [x];
    IdSetAppend(front, [x]);
    assert IdSet([x]) == {x.id};
    if x.id in IdSet(front) {
      var i :| 0 <= i < |front| && front[i].id == x.id;
      assert row[i].id == row[|front|].id;
    }
    assert forall i :: 0 <= i < |front| ==> row[i] == front[i];
  }

  lemma {:induction false} DistinctIdsSize(s: seq<Item>)
    ensures |IdSet(s)| <= |s|
    ensures |IdSet(s)| == |s| <==> DistinctIds(s)
  {
    if s != [] {
      var front, x := s[..|s| - 1], s[|s| - 1];
      assert s == front + [x];
      DistinctIdsSize(front);
      LastIdIsFresh(front, x);
      hide IdSet, DistinctIds;
    }
  }

  lemma {:induction false} PermutedIds(s: seq<Item>, t: seq<Item>)
    requires multiset(s) == multiset(t)
    ensures |s| == |t| && IdSet(s) == IdSet(t)
    ensures forall x :: x in s <==> x in t
    ensures DistinctIds(s) ==> DistinctIds(t)
  {
    assert |multiset(s)| == |s| && |multiset(t)| == |t|;
    assert forall x :: x in s <==> x in multiset(s);
    assert forall x :: x in t <==> x in multiset(t);
    DistinctIdsSize(s);
    DistinctIdsSize(t);
  }

  lemma {:induction false} DistinctAppend(s: seq<Item>, t: seq<Item>)
    requires DistinctIds(s) && DistinctIds(t) && IdSet(s) !! IdSet(t)
    ensures DistinctIds(s + t)
  {
    forall i, j | 0 <= i < j < |s + t| ensures (s + t)[i].id != (s + t)[j].id {
      if i < |s| <= j {
        assert s[i].id in IdSet(s) && t[j - |s|].id in IdSet(t);
      }
    }
  }

  /** Items whose id is not in `drop`. */
  function Outside(s: seq<Item>, drop: set<string>): seq<Item> {
    if s == [] then []
    else Outside(s[..|s| - 1], drop) + if s[|s| - 1].id in drop then [] else [s[|s| - 1]]
  }

  lemma {:induction false} OutsideMembers(s: seq<Item>, drop: set<string>)
    ensures forall x :: x in Outside(s, drop) <==> x in s && x.id !in drop
    ensures DistinctIds(s) ==> DistinctIds(Outside(s, drop))
  {
    if s != [] {
      OutsideMembers(s[..|s| - 1], drop);
      assert s == s[..|s| - 1] + [s[|s| - 1]];
    }
  }

  lemma {:induction false} OutsideInOrder(s: seq<Item>, drop: set<string>) returns (at: seq<nat>)
    ensures HeldAt(s, at, Outside(s, drop))
    ensures forall k: nat :: k in at <==> k < |s| && s[k].id !in drop
  {
    if s == [] {
      at := [];
    } else {
      var front, x := s[..|s| - 1], s[|s| - 1];
      at := OutsideInOrder(front, drop);
      assert s == front + [x];
      HeldAtMore(front, at, Outside(front, drop), x);
      if x.id !in drop {
        at := at + [|front|];
      }
      hide HeldAt;
    }
  }

  lemma {:induction false} OutsideIds(s: seq<Item>, drop: set<string>)
    ensures IdSet(Outside(s, drop)) == IdSet(s) - drop
  {
    OutsideMembers(s, drop);
  }

  function Mark(s: seq<Item>, hard: bool): seq<Item> {
    seq(|s|, i requires 0 <= i < |s| => s[i].(hard := hard))
  }

  lemma {:induction false} MarkIds(s: seq<Item>, hard: bool)
    ensures IdSet(Mark(s, hard)) == IdSet(s)
    ensures DistinctIds(s) ==> DistinctIds(Mark(s, hard))
    ensures forall x :: x in Mark(s, hard) ==> x.hard == hard
  {
    forall id ensures id in IdSet(Mark(s, hard)) <==> id in IdSet(s) {
      if id in IdSet(s) {
        var i :| 0 <= i < |s| && s[i].id == id;
        assert Mark(s, hard)[i] in Mark(s, hard);
      }
      if id in IdSet(Mark(s, hard)) {
        var i :| 0 <= i < |s| && Mark(s, hard)[i].id == id;
        assert s[i] in s;
      }
    }
  }

  /** Items of the catalog, up to the mark for hard negatives. */
  ghost predicate Copies(s: seq<Item>, catalog: seq<Item>) {
    forall x :: x in s ==> IsCopy(x, catalog)
  }

  ghost predicate IsCopy(x: Item, catalog: seq<Item>) {
    exists y :: y in catalog && x == y.(hard := x.hard)
  }

  lemma {:induction false} MarkedCopies(s: seq<Item>, hard: bool, catalog: seq<Item>)
    requires forall x :: x in s ==> x in catalog
    ensures Copies(Mark(s, hard), catalog)
  {
    var t := Mark(s, hard);
    forall x | x in t ensures IsCopy(x, catalog) {
      var i :| 0 <= i < |t| && t[i] == x;
      assert s[i] in s;
    }
  }

  function Take(s: seq<Item>, n: nat): seq<Item> {
    s[..Min(n, |s|)]
  }

  lemma {:induction false} TakeIds(s: seq<Item>, n: nat)
    ensures IdSet(Take(s, n)) <= IdSet(s)
    ensures DistinctIds(s) ==> DistinctIds(Take(s, n))
    ensures n >= |s| ==> Take(s, n) == s
    ensures |Take(s, n)| == Min(n, |s|)
    ensures forall x :: x in Take(s, n) ==> x in s
  {
  }

  /** The library's shuffle: each place swaps with an arbitrary place at or before it. */
  method Shuffle(s: seq<Item>) returns (t: seq<Item>)
    ensures multiset(t) == multiset(s)
  {
    t := s;
    var i := |s| - 1;
    while i >= 1
      invariant |t| == |s| && i < |s|
      invariant multiset(t) == multiset(s)
    {
      var j :| 0 <= j <= i;
      t := t[i := t[j]][j := t[i]];
      i := i - 1;
    }
  }
}

module Candidates {
  import opened Numbers
  import opened Finite
  import opened Filters
  import opened Results
  import opened Items

  // ---------- random negatives ----------

  method SampleNegativeItems(catalog: seq<Item>, exclude: set<string>, count: int) returns (selected: seq<Item>)
    ensures |selected| <= Max(0, count)
    ensures IdSet(selected) <= IdSet(catalog) - exclude
    ensures |selected| < count ==> IdSet(selected) == IdSet(catalog) - exclude
    ensures DistinctIds(catalog) ==> DistinctIds(selected)
    ensures (forall x :: x in selected ==> !x.hard) && Copies(selected, catalog)
  {
    if count <= 0 || catalog == [] {
      return [];
    }
    selected := [];
    var selectedIds: set<string> := {};
    var maxAttempts := Max(100, count * 50);
    var attempts := 0;
    while |selected| < count && attempts < maxAttempts
      invariant |selected| <= count
      invariant selectedIds == IdSet(selected) && selectedIds <= IdSet(catalog) - exclude
      invariant DistinctIds(selected)
      invariant (forall x :: x in selected ==> !x.hard) && Copies(selected, catalog)
      decreases maxAttempts - attempts
    {
      attempts := attempts + 1;
      var n :| 0 <= n < |catalog|;
      var item := catalog[n];
      if item.id in exclude || item.id in selectedIds {
        continue;
      }
      IdSetAppend(selected, [item.(hard := false)]);
      assert IdSet([item.(hard := false)]) == {item.id};
      assert IsCopy(item.(hard := false), catalog);
      DistinctAppend(selected, [item.(hard := false)]);
      selected := selected + [item.(hard := false)];
      selectedIds := selectedIds + {item.id};
    }
    if |selected| < count {
      var remaining := Outside(catalog, exclude + selectedIds);
      var shuffled := Shuffle(remaining);
      FillUp(catalog, exclude, selected, shuffled, count);
      hide Outside, Mark, Take, IdSet, DistinctIds, IsCopy;
      selected := selected + Mark(Take(shuffled, count - |selected|), false);
    }
  }

  /** The fall-back: whatever is left of the catalog, in any order. */
  lemma {:induction false} FillUp(catalog: seq<Item>, exclude: set<string>, selected: seq<Item>, shuffled: seq<Item>,
                                  count: nat)
    requires |selected| < count && DistinctIds(selected) && IdSet(selected) <= IdSet(catalog) - exclude
    requires (forall x :: x in selected ==> !x.hard) && Copies(selected, catalog)
    requires multiset(shuffled) == multiset(Outside(catalog, exclude + IdSet(selected)))
    ensures var all := selected + Mark(Take(shuffled, count - |selected|), false);
            && |all| <= count && IdSet(all) <= IdSet(catalog) - exclude
            && (|all| < count ==> IdSet(all) == IdSet(catalog) - exclude)
            && (DistinctIds(catalog) ==> DistinctIds(all))
            && (forall x :: x in all ==> !x.hard) && Copies(all, catalog)
  {
    var remaining := Outside(catalog, exclude + IdSet(selected));
    OutsideIds(catalog, exclude + IdSet(selected));
    OutsideMembers(catalog, exclude + IdSet(selected));
    PermutedIds(remaining, shuffled);
    var top := Take(shuffled, count - |selected|);
    TakeIds(shuffled, count - |selected|);
    MarkIds(top, false);
    MarkedCopies(top, false, catalog);
    IdSetAppend(selected, Mark(top, false));
    hide Outside, Take, IdSet, Mark, IsCopy;
    if DistinctIds(catalog) {
      DistinctAppend(selected, Mark(top, false));
    }
  }

  // ---------- positives ----------

  /** The ground truth of an instance: parallel, possibly unequal, lists of item ids and titles. */
  datatype GroundTruth = GroundTruth(ids: seq<string>, titles: seq<string>) {
    function Rows(): nat {
      Max(|ids|, |titles|)
    }

    function Id(k: nat): string {
      if k < |ids| then ids[k] else ""
    }

    function Title(k: nat): string {
      if k < |titles| then titles[k] else ""
    }
  }

  /** Lookup tables over a catalog, and the spellings under which a title is known. */
  datatype Indexes = Indexes(byId: map<string, Item>, byTitle: map<string, Item>, aliases: string -> seq<string>)

  /** The last item with an id. */
  function LastWithId(catalog: seq<Item>, id: string): Option<Item> {
    if catalog == [] then None
    else if catalog[|catalog| - 1].id == id then Some(catalog[|catalog| - 1])
    else LastWithId(catalog[..|catalog| - 1], id)
  }

  /** The first item known under a spelling. */
  function FirstWithTitle(catalog: seq<Item>, aliases: string -> seq<string>, a: string): Option<Item> {
    if catalog == [] then None
    else
      var first := FirstWithTitle(catalog[..|catalog| - 1], aliases, a);
      if first.Some? then first
      else if a in aliases(catalog[|catalog| - 1].title) then Some(catalog[|catalog| - 1])
      else None
  }

  function Lookup(table: map<string, Item>, key: string): Option<Item> {
    if key in table then Some(table[key]) else None
  }

  ghost predicate IndexesOf(ix: Indexes, catalog: seq<Item>) {
    && (forall id :: Lookup(ix.byId, id) == LastWithId(catalog, id))
    && (forall a :: Lookup(ix.byTitle, a) == FirstWithTitle(catalog, ix.aliases, a))
  }

  lemma {:induction false} LastWithIdFound(catalog: seq<Item>, id: string)
    ensures LastWithId(catalog, id).Some? <==> id in IdSet(catalog)
    ensures LastWithId(catalog, id).Some? ==> LastWithId(catalog, id).value.id == id
  {
    if catalog != [] {
      LastWithIdFound(catalog[..|catalog| - 1], id);
      assert catalog == catalog[..|catalog| - 1] + [catalog[|catalog| - 1]];
    }
  }

  /** Registers an item under spellings that have no item yet. */
  method AddTitles(byTitle: map<string, Item>, names: seq<string>, item: Item) returns (more: map<string, Item>)
    ensures forall a :: a in more <==> a in byTitle || a in names
    ensures forall a :: a in more ==> more[a] == if a in byTitle then byTitle[a] else item
  {
    more := byTitle;
    for j := 0 to |names|
      invariant forall a :: a in more <==> a in byTitle || a in names[..j]
      invariant forall a :: a in more ==> more[a] == if a in byTitle then byTitle[a] else item
    {
      if names[j] !in more {
        more := more[names[j] := item];
      }
      assert names[..j + 1] == names[..j] + [names[j]];
    }
    assert names[..|names|] == names;
  }

  lemma {:induction false} IndexStep(ix: Indexes, catalog: seq<Item>, item: Item, byTitle: map<string, Item>)
    requires IndexesOf(ix, catalog)
    requires forall a :: a in byTitle <==> a in ix.byTitle || a in ix.aliases(item.title)
    requires forall a :: a in byTitle ==> byTitle[a] == if a in ix.byTitle then ix.byTitle[a] else item
    ensures IndexesOf(Indexes(ix.byId[item.id := item], byTitle, ix.aliases), catalog + [item])
  {
    assert (catalog + [item])[..|catalog|] == catalog;
    forall id ensures Lookup(ix.byId[item.id := item], id) == LastWithId(catalog + [item], id) {
      assert Lookup(ix.byId, id) == LastWithId(catalog, id);
    }
    forall a ensures Lookup(byTitle, a) == FirstWithTitle(catalog + [item], ix.aliases, a) {
      assert Lookup(ix.byTitle, a) == FirstWithTitle(catalog, ix.aliases, a);
    }
  }

  method CatalogIndexes(catalog: seq<Item>, aliases: string -> seq<string>) returns (ix: Indexes)
    ensures ix.aliases == aliases && IndexesOf(ix, catalog)
  {
    ix := Indexes(map[], map[], aliases);
    for i := 0 to |catalog|
      invariant ix.aliases == aliases && IndexesOf(ix, catalog[..i])
    {
      var item := catalog[i];
      assert catalog[..i + 1] == catalog[..i] + [item];
      var byTitle := AddTitles(ix.byTitle, aliases(item.title), item);
      IndexStep(ix, catalog[..i], item, byTitle);
      hide IndexesOf;
      ix := Indexes(ix.byId[item.id := item], byTitle, aliases);
    }
    assert catalog[..|catalog|] == catalog;
  }

  function FirstKnown(names: seq<string>, byTitle: map<string, Item>): Option<Item> {
    if names == [] then None
    else if names[0] in byTitle then Some(byTitle[names[0]])
    else FirstKnown(names[1..], byTitle)
  }

  /** The item a ground-truth row stands for: by id, else by title, else one made up from the row. */
  function Resolve(ix: Indexes, id: string, title: string): Item {
    if id in ix.byId then ix.byId[id]
    else
      var known := if title == "" then None else FirstKnown(ix.aliases(title), ix.byTitle);
      if known.Some? then known.value
      else
        var name := if title != "" then title else id;
        Item(if id != "" then id else title, name, name, false)
  }

  function RowItem(truth: GroundTruth, ix: Indexes, k: nat): Item {
    Resolve(ix, truth.Id(k), truth.Title(k))
  }

  /** Ids of the items that the first n ground-truth rows stand for. */
  function PositiveIds(truth: GroundTruth, ix: Indexes, n: nat): set<string> {
    set k: nat | k < n :: RowItem(truth, ix, k).id
  }

  ghost predicate IsRowItem(x: Item, truth: GroundTruth, ix: Indexes, n: nat) {
    exists k: nat :: k < n && x == RowItem(truth, ix, k).(hard := false)
  }

  /** Items that ground-truth rows stand for. */
  ghost predicate StandFor(s: seq<Item>, truth: GroundTruth, ix: Indexes) {
    forall x :: x in s ==> IsRowItem(x, truth, ix, truth.Rows())
  }

  lemma {:induction false} StandForNotHard(s: seq<Item>, truth: GroundTruth, ix: Indexes)
    requires StandFor(s, truth, ix)
    ensures forall x :: x in s ==> !x.hard
  {
  }

  /** One item for every id among the first n rows. */
  ghost predicate PositivesOf(positives: seq<Item>, truth: GroundTruth, ix: Indexes, n: nat) {
    && DistinctIds(positives) && IdSet(positives) == PositiveIds(truth, ix, n)
    && forall x :: x in positives ==> IsRowItem(x, truth, ix, n)
  }

  lemma {:induction false} OneMoreId(truth: GroundTruth, ix: Indexes, k: nat)
    ensures PositiveIds(truth, ix, k + 1) == PositiveIds(truth, ix, k) + {RowItem(truth, ix, k).id}
  {
  }

  lemma {:induction false} OneMoreRow(positives: seq<Item>, truth: GroundTruth, ix: Indexes, k: nat)
    requires PositivesOf(positives, truth, ix, k)
    ensures var item := RowItem(truth, ix, k);
            PositivesOf(if item.id in IdSet(positives) then positives else positives + [item.(hard := false)], truth, ix, k + 1)
  {
    hide PositiveIds, DistinctIds, IdSet, RowItem;
    var item := RowItem(truth, ix, k);
    OneMoreId(truth, ix, k);
    LastIdIsFresh(positives, item.(hard := false));
    forall x | x in positives ensures IsRowItem(x, truth, ix, k + 1) {
      var m: nat :| m < k && x == RowItem(truth, ix, m).(hard := false);
    }
  }

  method PositiveItems(truth: GroundTruth, ix: Indexes) returns (positives: seq<Item>)
    ensures PositivesOf(positives, truth, ix, truth.Rows())
  {
    positives := [];
    var seen: set<string> := {};
    for k := 0 to truth.Rows()
      invariant seen == IdSet(positives) && PositivesOf(positives, truth, ix, k)
    {
      var item := RowItem(truth, ix, k);
      OneMoreRow(positives, truth, ix, k);
      LastIdIsFresh(positives, item.(hard := false));
      hide PositivesOf, IdSet, DistinctIds, RowItem;
      if item.id !in seen {
        positives := positives + [item.(hard := false)];
        seen := seen + {item.id};
      }
    }
  }

  /** A catalog id listed in the ground truth is the id of a positive. */
  lemma {:induction false} ListedIdsArePositive(truth: GroundTruth, ix: Indexes, catalog: seq<Item>, k: nat)
    requires IndexesOf(ix, catalog) && k < |truth.ids| && truth.ids[k] in IdSet(catalog)
    ensures truth.ids[k] in PositiveIds(truth, ix, truth.Rows())
  {
    LastWithIdFound(catalog, truth.ids[k]);
    assert Lookup(ix.byId, truth.ids[k]) == LastWithId(catalog, truth.ids[k]);
    assert RowItem(truth, ix, k).id == truth.ids[k];
  }

  // ---------- which item a row stands for, in terms of the catalog ----------

  /** The last catalog item with this id. */
  ghost predicate IsLastWithId(catalog: seq<Item>, id: string, n: nat) {
    n < |catalog| && catalog[n].id == id && forall m :: n < m < |catalog| ==> catalog[m].id != id
  }

  ghost predicate KnownAs(catalog: seq<Item>, aliases: string -> seq<string>, a: string) {
    exists m :: 0 <= m < |catalog| && a in aliases(catalog[m].title)
  }

  /** The first catalog item known under this spelling. */
  ghost predicate IsFirstKnownAs(catalog: seq<Item>, aliases: string -> seq<string>, a: string, n: nat) {
    n < |catalog| && a in aliases(catalog[n].title) && forall m :: 0 <= m < n ==> a !in aliases(catalog[m].title)
  }

  lemma {:induction false} LastWithIdIsLast(catalog: seq<Item>, id: string, n: nat)
    requires IsLastWithId(catalog, id, n)
    ensures LastWithId(catalog, id) == Some(catalog[n])
  {
    if n < |catalog| - 1 {
      LastWithIdIsLast(catalog[..|catalog| - 1], id, n);
    }
  }

  lemma {:induction false} FirstWithTitleFound(catalog: seq<Item>, aliases: string -> seq<string>, a: string)
    ensures FirstWithTitle(catalog, aliases, a).Some? <==> KnownAs(catalog, aliases, a)
  {
    if catalog != [] {
      var front := catalog[..|catalog| - 1];
      FirstWithTitleFound(front, aliases, a);
      assert forall m :: 0 <= m < |front| ==> front[m] == catalog[m];
    }
  }

  lemma {:induction false} FirstWithTitleIsFirst(catalog: seq<Item>, aliases: string -> seq<string>, a: string, n: nat)
    requires IsFirstKnownAs(catalog, aliases, a, n)
    ensures FirstWithTitle(catalog, aliases, a) == Some(catalog[n])
  {
    var front := catalog[..|catalog| - 1];
    if n < |front| {
      FirstWithTitleIsFirst(front, aliases, a, n);
    } else {
      FirstWithTitleFound(front, aliases, a);
    }
  }

  lemma {:induction false} FirstKnownAt(names: seq<string>, byTitle: map<string, Item>, m: nat)
    requires m <= |names| && forall j :: 0 <= j < m ==> names[j] !in byTitle
    ensures FirstKnown(names, byTitle) == FirstKnown(names[m..], byTitle)
  {
    if m > 0 {
      FirstKnownAt(names[1..], byTitle, m - 1);
      assert names[1..][m - 1..] == names[m..];
    } else {
      assert names[0..] == names;
    }
  }

  lemma {:induction false} TitleIndex(ix: Indexes, catalog: seq<Item>, a: string)
    requires IndexesOf(ix, catalog)
    ensures a in ix.byTitle <==> KnownAs(catalog, ix.aliases, a)
    ensures forall n: nat :: IsFirstKnownAs(catalog, ix.aliases, a, n) ==> a in ix.byTitle && ix.byTitle[a] == catalog[n]
  {
    assert Lookup(ix.byTitle, a) == FirstWithTitle(catalog, ix.aliases, a);
    FirstWithTitleFound(catalog, ix.aliases, a);
    forall n: nat | IsFirstKnownAs(catalog, ix.aliases, a, n) ensures a in ix.byTitle && ix.byTitle[a] == catalog[n] {
      FirstWithTitleIsFirst(catalog, ix.aliases, a, n);
    }
  }

  lemma {:induction false} IdIndex(ix: Indexes, catalog: seq<Item>, id: string)
    requires IndexesOf(ix, catalog)
    ensures id in ix.byId <==> id in IdSet(catalog)
    ensures forall n: nat :: IsLastWithId(catalog, id, n) ==> id in ix.byId && ix.byId[id] == catalog[n]
  {
    assert Lookup(ix.byId, id) == LastWithId(catalog, id);
    LastWithIdFound(catalog, id);
    forall n: nat | IsLastWithId(catalog, id, n) ensures id in ix.byId && ix.byId[id] == catalog[n] {
      LastWithIdIsLast(catalog, id, n);
    }
  }

  /** A row whose id is in the catalog stands for the last item with it. */
  lemma {:induction false} RowById(truth: GroundTruth, ix: Indexes, catalog: seq<Item>, k: nat, n: nat)
    requires IndexesOf(ix, catalog) && IsLastWithId(catalog, truth.Id(k), n)
    ensures RowItem(truth, ix, k) == catalog[n]
  {
    IdIndex(ix, catalog, truth.Id(k));
  }

  /** Otherwise it stands for the first item known under the first spelling of its title that any item has. */
  lemma {:induction false} RowByTitle(truth: GroundTruth, ix: Indexes, catalog: seq<Item>, k: nat, m: nat, n: nat)
    requires IndexesOf(ix, catalog) && truth.Id(k) !in IdSet(catalog) && truth.Title(k) != ""
    requires var names := ix.aliases(truth.Title(k));
             && m < |names| && IsFirstKnownAs(catalog, ix.aliases, names[m], n)
             && forall j :: 0 <= j < m ==> !KnownAs(catalog, ix.aliases, names[j])
    ensures RowItem(truth, ix, k) == catalog[n]
  {
    var names := ix.aliases(truth.Title(k));
    IdIndex(ix, catalog, truth.Id(k));
    forall j | 0 <= j <= m ensures names[j] in ix.byTitle <==> KnownAs(catalog, ix.aliases, names[j]) {
      TitleIndex(ix, catalog, names[j]);
    }
    TitleIndex(ix, catalog, names[m]);
    FirstKnownAt(names, ix.byTitle, m);
    hide IndexesOf, IsFirstKnownAs, IdSet;
  }

  /** And if the catalog knows neither its id nor any spelling of its title, for an item made up from the row. */
  lemma {:induction false} RowMadeUp(truth: GroundTruth, ix: Indexes, catalog: seq<Item>, k: nat)
    requires IndexesOf(ix, catalog) && truth.Id(k) !in IdSet(catalog)
    requires truth.Title(k) == "" || forall a :: a in ix.aliases(truth.Title(k)) ==> !KnownAs(catalog, ix.aliases, a)
    ensures var item := RowItem(truth, ix, k);
            if truth.Id(k) == "" then item.id == item.title == truth.Title(k)
            else item.id == truth.Id(k) && item.title == if truth.Title(k) == "" then truth.Id(k) else truth.Title(k)
    ensures RowItem(truth, ix, k).text == RowItem(truth, ix, k).title
  {
    IdIndex(ix, catalog, truth.Id(k));
    var names := ix.aliases(truth.Title(k));
    if truth.Title(k) != "" {
      forall j | 0 <= j < |names| ensures names[j] !in ix.byTitle {
        TitleIndex(ix, catalog, names[j]);
      }
      FirstKnownAt(names, ix.byTitle, |names|);
    }
    hide IndexesOf, KnownAs, IdSet;
  }

  /** The item a ground-truth title names is a positive, hence never a negative. */
  lemma {:induction false} TitledIdsArePositive(truth: GroundTruth, ix: Indexes, catalog: seq<Item>, k: nat, m: nat,
                                                n: nat)
    requires IndexesOf(ix, catalog) && k < |truth.titles| && truth.titles[k] != ""
    requires (if k < |truth.ids| then truth.ids[k] else "") !in IdSet(catalog)
    requires var names := ix.aliases(truth.titles[k]);
             && m < |names| && IsFirstKnownAs(catalog, ix.aliases, names[m], n)
             && forall j :: 0 <= j < m ==> !KnownAs(catalog, ix.aliases, names[j])
    ensures catalog[n].id in PositiveIds(truth, ix, truth.Rows())
  {
    RowByTitle(truth, ix, catalog, k, m, n);
  }

  // ---------- hard negatives ----------

  predicate StartsAt(term: string, text: string, i: nat) {
    i + |term| <= |text| && text[i..i + |term|] == term
  }

  predicate Occurs(term: string, text: string) {
    exists i: nat :: i <= |text| && StartsAt(term, text, i)
  }

  /** Number of terms that occur in the text. */
  function Matches(terms: seq<string>, text: string): nat {
    if terms == [] then 0
    else
      var term := terms[|terms| - 1];
      Matches(terms[..|terms| - 1], text) + if term != "" && Occurs(term, text) then 1 else 0
  }

  lemma {:induction false} MatchesCounts(terms: seq<string>, text: string)
    ensures Matches(terms, text) == |set i | 0 <= i < |terms| && terms[i] != "" && Occurs(terms[i], text)|
  {
    if terms != [] {
      var front, last := terms[..|terms| - 1], terms[|terms| - 1];
      MatchesCounts(front, text);
      var inFront := set i | 0 <= i < |front| && front[i] != "" && Occurs(front[i], text);
      var all := set i | 0 <= i < |terms| && terms[i] != "" && Occurs(terms[i], text);
      assert all == inFront + if last != "" && Occurs(last, text) then {|front|} else {};
    }
  }

  /** Place a of the pool comes before place b: more matches, or as many and listed earlier. */
  ghost predicate Before(pool: seq<Item>, terms: seq<string>, a: nat, b: nat)
    requires a < |pool| && b < |pool|
  {
    var x, y := Matches(terms, pool[a].text), Matches(terms, pool[b].text);
    x > y || (x == y && a < b)
  }

  /** `t` holds the items at the places `at`, best first. */
  ghost predicate Ranked(pool: seq<Item>, terms: seq<string>, t: seq<Item>, at: seq<nat>) {
    && |t| == |at| && (forall i :: 0 <= i < |at| ==> at[i] < |pool| && t[i] == pool[at[i]])
    && forall i, j :: 0 <= i < j < |at| ==> Before(pool, terms, at[i], at[j])
  }

  function Inserted<T>(t: seq<T>, p: nat, x: T): (u: seq<T>)
    requires p <= |t|
    ensures |u| == |t| + 1
  {
    t[..p] + [x] + t[p..]
  }

  lemma {:induction false} InsertedAt<T>(t: seq<T>, p: nat, x: T, i: nat)
    requires p <= |t| && i <= |t|
    ensures Inserted(t, p, x)[i] == if i < p then t[i] else if i == p then x else t[i - 1]
    ensures multiset(Inserted(t, p, x)) == multiset(t) + multiset{x}
  {
    assert t == t[..p] + t[p..];
  }

  lemma {:induction false} InsertedMembers(t: seq<nat>, p: nat, x: nat)
    requires p <= |t|
    ensures forall y :: y in Inserted(t, p, x) <==> y in t || y == x
  {
    assert t == t[..p] + t[p..];
  }

  lemma {:induction false} InsertKeeps(pool: seq<Item>, terms: seq<string>, t: seq<Item>, at: seq<nat>, p: nat, n: nat)
    requires Ranked(pool, terms, t, at) && p <= |t| && n < |pool| && forall k :: k in at ==> k < n
    requires p < |t| ==> Matches(terms, t[p].text) < Matches(terms, pool[n].text)
    requires p > 0 ==> Matches(terms, t[p - 1].text) >= Matches(terms, pool[n].text)
    ensures Ranked(pool, terms, Inserted(t, p, pool[n]), Inserted(at, p, n))
  {
    hide Matches, Inserted;
    var u, to := Inserted(t, p, pool[n]), Inserted(at, p, n);
    forall i | 0 <= i < |to| ensures to[i] < |pool| && u[i] == pool[to[i]] {
      InsertedAt(t, p, pool[n], i);
      InsertedAt(at, p, n, i);
    }
    forall i, j | 0 <= i < j < |to| ensures Before(pool, terms, to[i], to[j]) {
      InsertedAt(at, p, n, i);
      InsertedAt(at, p, n, j);
      if i == p {
        assert at[j - 1] in at;
        assert p < j - 1 ==> Before(pool, terms, at[p], at[j - 1]);
      } else if j == p {
        assert at[i] in at;
        assert i < p - 1 ==> Before(pool, terms, at[i], at[p - 1]);
      }
    }
  }

  /** `t` is the first n items of the pool, sorted. */
  ghost predicate SortedUpTo(pool: seq<Item>, terms: seq<string>, t: seq<Item>, at: seq<nat>, n: nat) {
    && n <= |pool| && multiset(t) == multiset(pool[..n])
    && Ranked(pool, terms, t, at) && forall k: nat :: k in at <==> k < n
  }

  lemma {:induction false} SortStep(pool: seq<Item>, terms: seq<string>, t: seq<Item>, at: seq<nat>, p: nat, n: nat)
    returns (more: seq<nat>)
    requires SortedUpTo(pool, terms, t, at, n) && p <= |t| && n < |pool|
    requires p < |t| ==> Matches(terms, t[p].text) < Matches(terms, pool[n].text)
    requires p > 0 ==> Matches(terms, t[p - 1].text) >= Matches(terms, pool[n].text)
    ensures SortedUpTo(pool, terms, Inserted(t, p, pool[n]), more, n + 1)
  {
    more := Inserted(at, p, n);
    InsertKeeps(pool, terms, t, at, p, n);
    InsertedMembers(at, p, n);
    InsertedItems(pool, t, p, n);
    hide Inserted, Matches, Ranked;
  }

  lemma {:induction false} InsertedItems(pool: seq<Item>, t: seq<Item>, p: nat, n: nat)
    requires p <= |t| && n < |pool| && multiset(t) == multiset(pool[..n])
    ensures multiset(Inserted(t, p, pool[n])) == multiset(pool[..n + 1])
  {
    InsertedAt(t, p, pool[n], p);
    assert pool[..n + 1] == pool[..n] + [pool[n]];
    hide Inserted;
  }

  lemma {:induction false} SortDone(pool: seq<Item>, terms: seq<string>, t: seq<Item>, at: seq<nat>)
    requires SortedUpTo(pool, terms, t, at, |pool|)
    ensures multiset(t) == multiset(pool) && Ranked(pool, terms, t, at) && forall k :: 0 <= k < |pool| ==> k in at
  {
    assert pool[..|pool|] == pool;
    hide Ranked;
  }

  /** The place behind everything that matches at least as well. */
  method PlaceFor(t: seq<Item>, terms: seq<string>, text: string) returns (p: nat)
    ensures p <= |t|
    ensures p < |t| ==> Matches(terms, t[p].text) < Matches(terms, text)
    ensures p > 0 ==> Matches(terms, t[p - 1].text) >= Matches(terms, text)
  {
    hide Matches;
    p := |t|;
    while p > 0 && Matches(terms, t[p - 1].text) < Matches(terms, text)
      invariant 0 <= p <= |t|
      invariant p < |t| ==> Matches(terms, t[p].text) < Matches(terms, text)
    {
      p := p - 1;
    }
  }

  /** The library's stable sort, best first; `at` says where each item was. */
  method SortByMatches(s: seq<Item>, terms: seq<string>) returns (t: seq<Item>, ghost at: seq<nat>)
    ensures multiset(t) == multiset(s)
    ensures Ranked(s, terms, t, at) && forall k :: 0 <= k < |s| ==> k in at
  {
    t, at := [], [];
    for n := 0 to |s|
      invariant SortedUpTo(s, terms, t, at, n)
    {
      hide Matches, SortedUpTo, Inserted;
      var p := PlaceFor(t, terms, s[n].text);
      at := SortStep(s, terms, t, at, p, n);
      t := Inserted(t, p, s[n]);
    }
    SortDone(s, terms, t, at);
  }

  predicate Eligible(pool: seq<Item>, drop: set<string>, terms: seq<string>, k: nat) {
    k < |pool| && pool[k].id !in drop && Matches(terms, pool[k].text) > 0
  }

  /** The `count` items of the pool, apart from those to drop, that match best, best first and equals in pool order;
      fewer only if no more match. `at` says where they are. */
  ghost predicate BestMatches(pool: seq<Item>, drop: set<string>, terms: seq<string>, count: nat, hard: seq<Item>,
                              at: seq<nat>) {
    && |hard| == |at| <= count
    && (forall i :: 0 <= i < |at| ==> Eligible(pool, drop, terms, at[i]) && hard[i] == pool[at[i]].(hard := true))
    && (forall i, j :: 0 <= i < j < |at| ==> Before(pool, terms, at[i], at[j]))
    && forall k: nat :: Eligible(pool, drop, terms, k) && k !in at ==>
         |hard| == count && forall i :: 0 <= i < |at| ==> Before(pool, terms, at[i], k)
  }

  /** Filtering a pool changes nobody's rank. */
  lemma {:induction false} BestOfFiltered(pool: seq<Item>, drop: set<string>, terms: seq<string>, src: seq<nat>,
                                          scored: seq<Item>, inner: set<string>, count: nat, hard: seq<Item>,
                                          at: seq<nat>) returns (places: seq<nat>)
    requires HeldAt(pool, src, scored) && BestMatches(scored, inner, terms, count, hard, at)
    requires forall k: nat :: Eligible(pool, drop, terms, k) ==> k in src
    requires forall i: nat :: i < |scored| && Matches(terms, scored[i].text) > 0 ==>
                                (scored[i].id in drop <==> scored[i].id in inner)
    ensures BestMatches(pool, drop, terms, count, hard, places)
  {
    places := seq(|at|, i requires 0 <= i < |at| => src[at[i]]);
    hide Matches;
    forall i | 0 <= i < |places|
      ensures Eligible(pool, drop, terms, places[i]) && hard[i] == pool[places[i]].(hard := true)
    {
      assert Eligible(scored, inner, terms, at[i]);
    }
    forall i, j | 0 <= i < j < |places| ensures Before(pool, terms, places[i], places[j]) {
      assert Before(scored, terms, at[i], at[j]);
    }
    forall k: nat | Eligible(pool, drop, terms, k) && k !in places
      ensures |hard| == count && forall i :: 0 <= i < |places| ==> Before(pool, terms, places[i], k)
    {
      var j :| 0 <= j < |src| && src[j] == k;
      forall i | 0 <= i < |at| ensures at[i] != j {
        assert places[i] == src[at[i]];
      }
      assert Eligible(scored, inner, terms, j);
      forall i | 0 <= i < |places| ensures Before(pool, terms, places[i], k) {
        assert Before(scored, terms, at[i], j);
      }
    }
  }

  lemma {:induction false} BestPrefix(pool: seq<Item>, drop: set<string>, terms: seq<string>, count: nat,
                                      hard: seq<Item>, at: seq<nat>, m: nat)
    requires BestMatches(pool, drop, terms, count, hard, at)
    ensures |hard| == |at|
    ensures BestMatches(pool, drop, terms, Min(count, m), Take(hard, m), at[..Min(m, |at|)])
  {
    var few := at[..Min(m, |at|)];
    hide Eligible;
    forall k: nat | Eligible(pool, drop, terms, k) && k !in few
      ensures k < |pool| && |few| == Min(count, m)
      ensures forall i :: 0 <= i < |few| ==> few[i] < |pool| && Before(pool, terms, few[i], k)
    {
      IsPlace(pool, drop, terms, k);
      if k in at {
        var j :| 0 <= j < |at| && at[j] == k;
        assert j >= |few|;
        assert forall i :: 0 <= i < |few| ==> Before(pool, terms, at[i], at[j]);
      }
    }
  }

  lemma {:induction false} IsPlace(pool: seq<Item>, drop: set<string>, terms: seq<string>, k: nat)
    requires Eligible(pool, drop, terms, k)
    ensures k < |pool|
  {
  }

  method HardNegativeItems(pool: seq<Item>, terms: seq<string>, count: int)
    returns (hard: seq<Item>, ghost at: seq<nat>)
    ensures BestMatches(pool, {}, terms, Max(0, count), hard, at)
    ensures |hard| <= Max(0, count) && IdSet(hard) <= IdSet(pool)
    ensures DistinctIds(pool) ==> DistinctIds(hard)
    ensures forall x :: x in hard ==> x.hard && Matches(terms, x.text) > 0
    ensures forall y :: y in pool && Matches(terms, y.text) > 0 && count > 0 ==>
                          || y.(hard := true) in hard
                          || (|hard| == count && forall x :: x in hard ==> Matches(terms, x.text) >= Matches(terms, y.text))
  {
    if count <= 0 || terms == [] {
      return [], [];
    }
    var scored: seq<Item> := [];
    ghost var src: seq<nat> := [];
    for i := 0 to |pool|
      invariant HeldAt(pool, src, scored)
      invariant forall k: nat :: k in src <==> k < i && Matches(terms, pool[k].text) > 0
      invariant forall x :: x in scored ==> Matches(terms, x.text) > 0
    {
      if Matches(terms, pool[i].text) > 0 {
        scored, src := scored + [pool[i]], src + [i];
      }
    }
    var sorted, order := SortByMatches(scored, terms);
    hard := Mark(Take(sorted, count), true);
    FirstOfRanked(scored, terms, sorted, order, count);
    at := BestOfFiltered(pool, {}, terms, src, scored, {}, count, hard, order[..Min(count, |order|)]);
    hide Matches, HeldAt, BestMatches, Ranked;
    BestOfPool(pool, terms, count, hard, at);
  }

  lemma {:induction false} FirstOfRanked(scored: seq<Item>, terms: seq<string>, sorted: seq<Item>, order: seq<nat>,
                                         count: nat)
    requires Ranked(scored, terms, sorted, order) && forall k :: 0 <= k < |scored| ==> k in order
    requires forall x :: x in scored ==> Matches(terms, x.text) > 0
    ensures BestMatches(scored, {}, terms, count, Mark(Take(sorted, count), true), order[..Min(count, |order|)])
  {
    var hard, at := Mark(Take(sorted, count), true), order[..Min(count, |order|)];
    hide Matches;
    forall k: nat | Eligible(scored, {}, terms, k) && k !in at
      ensures |hard| == count && forall i :: 0 <= i < |at| ==> Before(scored, terms, at[i], k)
    {
      assert k in order;
      var j :| 0 <= j < |order| && order[j] == k;
      assert j >= |at|;
      assert forall i :: 0 <= i < |at| ==> Before(scored, terms, order[i], order[j]);
    }
  }

  lemma {:induction false} BestOfPool(pool: seq<Item>, terms: seq<string>, count: nat, hard: seq<Item>, at: seq<nat>)
    requires BestMatches(pool, {}, terms, count, hard, at)
    ensures |hard| <= count && IdSet(hard) <= IdSet(pool)
    ensures DistinctIds(pool) ==> DistinctIds(hard)
    ensures forall x :: x in hard ==> x.hard && Matches(terms, x.text) > 0
    ensures forall y :: y in pool && Matches(terms, y.text) > 0 ==>
                          || y.(hard := true) in hard
                          || (|hard| == count && forall x :: x in hard ==> Matches(terms, x.text) >= Matches(terms, y.text))
  {
    hide Matches;
    if DistinctIds(pool) {
      forall i, j | 0 <= i < j < |hard| ensures hard[i].id != hard[j].id {
        assert Before(pool, terms, at[i], at[j]);
      }
    }
    forall y | y in pool && Matches(terms, y.text) > 0
      ensures || y.(hard := true) in hard
              || (|hard| == count && forall x :: x in hard ==> Matches(terms, x.text) >= Matches(terms, y.text))
    {
      var k :| 0 <= k < |pool| && pool[k] == y;
      assert Eligible(pool, {}, terms, k);
      if k in at {
        var i :| 0 <= i < |at| && at[i] == k;
        assert hard[i] == y.(hard := true);
      }
    }
  }

  // ---------- the candidate list ----------

  datatype Candidate = Candidate(letter: char, item: Item, positive: bool)

  datatype Policy = Policy(positive: nat, hard: nat, random: nat, available: nat, dropped: nat)

  datatype Attached = Attached(candidates: seq<Candidate>, positiveLetters: seq<char>, selected: seq<Item>, policy: Policy)

  /** Candidate ids are the letters A to Z. */
  function LetterId(index: nat): Result<char> {
    if index >= 26 then Err("index >= 26")
    else Ok('A' + index as char)
  }

  /** Labels a shuffled row of items with letters. */
  ghost predicate Lettered(cs: seq<Candidate>, row: seq<Item>, positives: set<string>) {
    && |cs| == |row|
    && forall i :: 0 <= i < |cs| ==>
                     && Ok(cs[i].letter) == LetterId(i)
                     && cs[i].item == row[i]
                     && cs[i].positive == (row[i].id in positives)
  }

  function CountHard(row: seq<Item>): nat {
    if row == [] then 0 else CountHard(row[..|row| - 1]) + if row[|row| - 1].hard then 1 else 0
  }

  function CountPositive(row: seq<Item>, positives: set<string>): nat {
    if row == [] then 0 else CountPositive(row[..|row| - 1], positives) + if row[|row| - 1].id in positives then 1 else 0
  }

  /** Letters of the positive candidates, in list order. */
  function PositiveLetters(cs: seq<Candidate>): seq<char> {
    if cs == [] then []
    else PositiveLetters(cs[..|cs| - 1]) + if cs[|cs| - 1].positive then [cs[|cs| - 1].letter] else []
  }

  lemma {:induction false} LetterStep(cs: seq<Candidate>, x: Candidate, row: seq<Item>, i: nat, positives: set<string>)
    requires i < |row| && Lettered(cs, row[..i], positives)
    requires x.item == row[i] && Ok(x.letter) == LetterId(i) && x.positive == (row[i].id in positives)
    ensures Lettered(cs + [x], row[..i + 1], positives)
    ensures PositiveLetters(cs + [x]) == PositiveLetters(cs) + if x.positive then [x.letter] else []
    ensures CountPositive(row[..i + 1], positives) == CountPositive(row[..i], positives) + if x.positive then 1 else 0
    ensures CountHard(row[..i + 1]) == CountHard(row[..i]) + if row[i].hard then 1 else 0
  {
    assert row[..i + 1][..i] == row[..i];
    assert (cs + [x])[..i] == cs;
  }

  method Letter(row: seq<Item>, positives: set<string>) returns (cs: seq<Candidate>, letters: seq<char>, hard: nat)
    requires |row| <= 26
    ensures Lettered(cs, row, positives)
    ensures forall i :: 0 <= i < |cs| ==> cs[i].letter as int == 'A' as int + i
    ensures letters == PositiveLetters(cs)
    ensures |letters| == CountPositive(row, positives) && hard == CountHard(row)
  {
    cs, letters, hard := [], [], 0;
    for i := 0 to |row|
      invariant Lettered(cs, row[..i], positives)
      invariant |cs| == i && forall j :: 0 <= j < i ==> cs[j].letter as int == 'A' as int + j
      invariant letters == PositiveLetters(cs)
      invariant |letters| == CountPositive(row[..i], positives) && hard == CountHard(row[..i])
    {
      var letter := LetterId(i).value;
      var candidate := Candidate(letter, row[i], row[i].id in positives);
      LetterStep(cs, candidate, row, i, positives);
      hide Lettered, LetterId, PositiveLetters, CountPositive, CountHard;
      if candidate.positive {
        letters := letters + [letter];
      }
      if row[i].hard {
        hard := hard + 1;
      }
      cs := cs + [candidate];
    }
    assert row[..|row|] == row;
  }

  function ItemsOf(cs: seq<Candidate>): seq<Item> {
    seq(|cs|, i requires 0 <= i < |cs| => cs[i].item)
  }

  /** What the candidate items must be: the selected positives, all of them, and catalog items that are no positive;
      at most n, and fewer only when no catalog item is left. */
  ghost predicate Chosen(row: seq<Item>, selected: seq<Item>, available: set<string>, n: nat) {
    && (forall x :: x in selected ==> x in row)
    && IdSet(row) <= IdSet(selected) + available
    && |row| <= n
    && (|row| < n ==> available <= IdSet(row))
    && (forall x :: x in row && x.id in IdSet(selected) ==> !x.hard)
  }

  lemma {:induction false} ChosenSize(row: seq<Item>, selected: seq<Item>, available: set<string>, n: nat)
    requires Chosen(row, selected, available, n) && DistinctIds(row) && DistinctIds(selected)
    requires IdSet(selected) !! available
    ensures |row| == Min(n, |selected| + |available|)
  {
    DistinctIdsSize(row);
    DistinctIdsSize(selected);
    assert |IdSet(selected) + available| == |selected| + |available|;
    SubsetSize(IdSet(row), IdSet(selected) + available);
    if |row| < n {
      assert IdSet(row) == IdSet(selected) + available by {
        assert forall x :: x in selected ==> x in row;
      }
    }
  }

  /** The row before the last shuffle. */
  lemma {:induction false} CutIsChosen(selected: seq<Item>, hard: seq<Item>, random: seq<Item>, catalog: seq<Item>,
                                       positives: set<string>, n: nat)
    requires |selected| <= n && IdSet(selected) <= positives
    requires IdSet(hard) <= IdSet(catalog) - positives
    requires IdSet(random) <= IdSet(catalog) - (positives + IdSet(hard))
    requires |random| < n - |selected| - |hard| ==> IdSet(random) == IdSet(catalog) - (positives + IdSet(hard))
    requires DistinctIds(selected) && forall x :: x in selected ==> !x.hard
    ensures var row := Take(selected + hard + random, n);
            && Chosen(row, selected, IdSet(catalog) - positives, n)
            && (DistinctIds(hard) && DistinctIds(random) ==> DistinctIds(row))
  {
    var all := selected + hard + random;
    var row := Take(all, n);
    IdSetAppend(selected + hard, random);
    IdSetAppend(selected, hard);
    TakeIds(all, n);
    if DistinctIds(hard) && DistinctIds(random) {
      DistinctAppend(selected, hard);
      DistinctAppend(selected + hard, random);
    }
    forall x | x in selected ensures x in row {
      var i :| 0 <= i < |selected| && selected[i] == x;
      assert row[i] == x;
    }
    forall x | x in row && x.id in IdSet(selected) ensures !x.hard {
      assert x in selected || x in hard || x in random;
    }
    hide IdSet, DistinctIds;
  }

  /** The hard ones of a row are the catalog's `wanted` best matches that are no positives. */
  ghost predicate HardOnes(row: seq<Item>, catalog: seq<Item>, positives: set<string>, terms: seq<string>,
                           wanted: nat) {
    exists hard: seq<Item>, at: seq<nat> :: IsHardPart(row, catalog, positives, terms, wanted, hard, at)
  }

  /** Everything in the row is a selected positive or a catalog item. */
  ghost predicate Honest(row: seq<Item>, selected: seq<Item>, catalog: seq<Item>) {
    forall x :: x in row ==> x in selected || IsCopy(x, catalog)
  }

  ghost predicate IsHardPart(row: seq<Item>, catalog: seq<Item>, positives: set<string>, terms: seq<string>,
                             wanted: nat, hard: seq<Item>, at: seq<nat>) {
    && BestMatches(catalog, positives, terms, wanted, hard, at)
    && CountHard(row) == |hard| && forall x :: x in row && x.hard <==> x in hard
  }

  lemma {:induction false} CountHardConcat(a: seq<Item>, b: seq<Item>)
    ensures CountHard(a + b) == CountHard(a) + CountHard(b)
  {
    if b == [] {
      assert a + b == a;
    } else {
      CountHardConcat(a, b[..|b| - 1]);
      assert (a + b)[..|a + b| - 1] == a + b[..|b| - 1];
    }
  }

  lemma {:induction false} CountHardAll(s: seq<Item>)
    ensures (forall x :: x in s ==> x.hard) ==> CountHard(s) == |s|
    ensures (forall x :: x in s ==> !x.hard) ==> CountHard(s) == 0
  {
    if s != [] {
      CountHardAll(s[..|s| - 1]);
    }
  }

  lemma {:induction false} WithoutOne(t: seq<Item>, i: nat)
    requires i < |t|
    ensures t == t[..i] + ([t[i]] + t[i + 1..])
    ensures multiset(t) == multiset(t[..i] + t[i + 1..]) + multiset{t[i]}
  {
    var a, b := t[..i], t[i + 1..];
    assert t == a + ([t[i]] + b);
    assert multiset(a + ([t[i]] + b)) == multiset(a) + multiset([t[i]] + b);
  }

  lemma {:induction false} TakeOut(front: seq<Item>, x: Item, t: seq<Item>) returns (a: seq<Item>, b: seq<Item>)
    requires multiset(front + [x]) == multiset(t)
    ensures t == a + ([x] + b) && multiset(front) == multiset(a + b)
  {
    WithoutOne(front + [x], |front|);
    assert (front + [x])[..|front|] + (front + [x])[|front| + 1..] == front;
    assert x in multiset(t);
    var i :| 0 <= i < |t| && t[i] == x;
    WithoutOne(t, i);
    a, b := t[..i], t[i + 1..];
    assert multiset(front) + multiset{x} == multiset(a + b) + multiset{x};
    Cancel(multiset(front), multiset(a + b), x);
  }

  lemma {:induction false} Cancel(a: multiset<Item>, b: multiset<Item>, x: Item)
    requires a + multiset{x} == b + multiset{x}
    ensures a == b
  {
    assert (a + multiset{x}) - multiset{x} == a && (b + multiset{x}) - multiset{x} == b;
  }

  lemma {:induction false} CountHardPermuted(s: seq<Item>, t: seq<Item>)
    requires multiset(s) == multiset(t)
    ensures CountHard(s) == CountHard(t)
  {
    if s == [] {
      assert |multiset(t)| == |t|;
    } else {
      var front, x := s[..|s| - 1], s[|s| - 1];
      assert s == front + [x];
      var a, b := TakeOut(front, x, t);
      CountHardPermuted(front, a + b);
      hide CountHard;
      CountHardConcat(a, [x] + b);
      CountHardConcat([x], b);
      CountHardConcat(a, b);
      CountHardConcat(front, [x]);
    }
  }

  lemma {:induction false} HardPermuted(cut: seq<Item>, row: seq<Item>, catalog: seq<Item>, positives: set<string>,
                                        terms: seq<string>, wanted: nat)
    requires HardOnes(cut, catalog, positives, terms, wanted) && multiset(cut) == multiset(row)
    ensures HardOnes(row, catalog, positives, terms, wanted)
    ensures forall selected :: Honest(cut, selected, catalog) ==> Honest(row, selected, catalog)
  {
    var hard, at :| IsHardPart(cut, catalog, positives, terms, wanted, hard, at);
    PermutedIds(cut, row);
    CountHardPermuted(cut, row);
    hide BestMatches, CountHard, IsCopy;
    assert IsHardPart(row, catalog, positives, terms, wanted, hard, at);
  }

  /** Cutting the row to n keeps the best of the hard negatives. */
  lemma {:induction false} CutHard(selected: seq<Item>, hard: seq<Item>, at: seq<nat>, random: seq<Item>,
                                   catalog: seq<Item>, positives: set<string>, terms: seq<string>, count: nat, n: nat)
    requires |selected| <= n && BestMatches(catalog, positives, terms, count, hard, at)
    requires (forall x :: x in selected + random ==> !x.hard) && Copies(random, catalog)
    ensures HardOnes(Take(selected + hard + random, n), catalog, positives, terms, Min(count, n - |selected|))
    ensures Honest(Take(selected + hard + random, n), selected, catalog)
  {
    var m: nat := n - |selected|;
    BestPrefix(catalog, positives, terms, count, hard, at, m);
    AllHard(catalog, positives, terms, count, hard, at);
    RowParts(selected, hard, random, n);
    CutHonest(selected, hard, random, catalog, n);
    hide BestMatches, Honest, Copies, Take, CountHard;
    assert IsHardPart(Take(selected + hard + random, n), catalog, positives, terms, Min(count, m), Take(hard, m),
                      at[..Min(m, |at|)]);
  }

  lemma {:induction false} CutHonest(selected: seq<Item>, hard: seq<Item>, random: seq<Item>, catalog: seq<Item>,
                                     n: nat)
    requires Copies(hard, catalog) && Copies(random, catalog)
    ensures Honest(Take(selected + hard + random, n), selected, catalog)
  {
    hide IsCopy;
  }

  lemma {:induction false} RowParts(selected: seq<Item>, hard: seq<Item>, random: seq<Item>, n: nat)
    requires |selected| <= n && (forall x :: x in selected + random ==> !x.hard) && forall x :: x in hard ==> x.hard
    ensures var row, few := Take(selected + hard + random, n), Take(hard, n - |selected|);
            CountHard(row) == |few| && forall x :: x in row && x.hard <==> x in few
  {
    var m: nat := n - |selected|;
    var few, rest := Take(hard, m), Take(random, Max(0, m - |hard|));
    assert Take(selected + hard + random, n) == selected + few + rest;
    assert forall x :: x in selected ==> x in selected + random;
    assert forall x :: x in random ==> x in selected + random;
    assert (forall x :: x in few ==> x.hard) && forall x :: x in rest ==> x in random;
    hide Take;
    CountHardConcat(selected + few, rest);
    CountHardConcat(selected, few);
    CountHardAll(selected);
    CountHardAll(few);
    CountHardAll(rest);
    hide CountHard;
  }

  lemma {:induction false} AllHard(pool: seq<Item>, drop: set<string>, terms: seq<string>, count: nat, hard: seq<Item>,
                                   at: seq<nat>)
    requires BestMatches(pool, drop, terms, count, hard, at)
    ensures (forall x :: x in hard ==> x.hard) && Copies(hard, pool)
  {
    forall x | x in hard ensures IsCopy(x, pool) {
      var i :| 0 <= i < |hard| && hard[i] == x;
      assert Eligible(pool, drop, terms, at[i]);
    }
  }

  /** The hard negatives asked of the catalog without its positives. */
  method PickHard(catalog: seq<Item>, positives: set<string>, terms: seq<string>, hardNegatives: int)
    returns (hard: seq<Item>, ghost at: seq<nat>)
    ensures BestMatches(catalog, positives, terms, Max(0, hardNegatives), hard, at)
    ensures IdSet(hard) <= IdSet(catalog) - positives
    ensures DistinctIds(catalog) ==> DistinctIds(hard)
  {
    hide IdSet, DistinctIds, Outside, Matches;
    hard, at := [], [];
    EmptyIds();
    if hardNegatives > 0 {
      OutsideIds(catalog, positives);
      OutsideMembers(catalog, positives);
      ghost var idx := OutsideInOrder(catalog, positives);
      hard, at := HardNegativeItems(Outside(catalog, positives), terms, hardNegatives);
      at := BestOfFiltered(catalog, positives, terms, idx, Outside(catalog, positives), {}, hardNegatives, hard, at);
    }
  }

  lemma {:induction false} CountsFit(row: seq<Item>, positives: set<string>)
    requires forall x :: x in row && x.id in positives ==> !x.hard
    ensures CountHard(row) + CountPositive(row, positives) <= |row|
  {
    if row != [] {
      var front := row[..|row| - 1];
      assert row == front + [row[|row| - 1]];
      CountsFit(front, positives);
    }
  }

  lemma {:induction false} ChosenPermuted(cut: seq<Item>, row: seq<Item>, selected: seq<Item>, available: set<string>,
                                          n: nat)
    requires Chosen(cut, selected, available, n) && multiset(cut) == multiset(row)
    ensures Chosen(row, selected, available, n) && (DistinctIds(cut) ==> DistinctIds(row))
  {
    PermutedIds(cut, row);
    hide IdSet, DistinctIds;
  }

  /** The row of an instance: as many of its positives as wanted and fit, the best matches among the hard negatives,
      and other catalog items. */
  ghost predicate PickedRow(row: seq<Item>, selected: seq<Item>, catalog: seq<Item>, positives: set<string>,
                            terms: seq<string>, n: nat, wanted: nat, hardNegatives: int) {
    && DistinctIds(selected) && IdSet(selected) <= positives && |selected| == Min(Min(wanted, n), |positives|)
    && Chosen(row, selected, IdSet(catalog) - positives, n)
    && HardOnes(row, catalog, positives, terms, Min(Max(0, hardNegatives), n - |selected|))
    && Honest(row, selected, catalog)
    && (DistinctIds(catalog) ==> DistinctIds(row))
  }

  /** Positives first, then hard negatives, then random ones, cut to the requested number and shuffled. */
  method ChooseItems(truth: GroundTruth, ix: Indexes, catalog: seq<Item>, terms: seq<string>,
                     n: nat, hardNegatives: int, wanted: nat)
    returns (found: nat, selected: seq<Item>, row: seq<Item>)
    requires IndexesOf(ix, catalog)
    ensures var positives := PositiveIds(truth, ix, truth.Rows());
            found == |positives| && PickedRow(row, selected, catalog, positives, terms, n, wanted, hardNegatives)
    ensures StandFor(selected, truth, ix)
  {
    hide IdSet, DistinctIds, PositiveIds, Outside, Take, Chosen, Matches, IndexesOf, HardOnes, BestMatches, Honest,
         IsCopy, IsRowItem;
    ghost var positives := PositiveIds(truth, ix, truth.Rows());
    var items := PositiveItems(truth, ix);
    var allPositives := Shuffle(items);
    PermutedIds(items, allPositives);
    DistinctIdsSize(allPositives);
    found := |allPositives|;
    selected := Take(allPositives, Min(wanted, n));
    TakeIds(allPositives, Min(wanted, n));
    var allIds := IdSet(allPositives);
    var hard, at := PickHard(catalog, allIds, terms, hardNegatives);
    var random := SampleNegativeItems(catalog, allIds + IdSet(hard), Max(0, n - |selected| - |hard|));
    StandForNotHard(selected, truth, ix);
    CutIsChosen(selected, hard, random, catalog, positives, n);
    CutHard(selected, hard, at, random, catalog, positives, terms, Max(0, hardNegatives), n);
    var cut := Take(selected + hard + random, n);
    row := Shuffle(cut);
    ChosenPermuted(cut, row, selected, IdSet(catalog) - positives, n);
    HardPermuted(cut, row, catalog, positives, terms, Min(Max(0, hardNegatives), n - |selected|));
  }

  lemma {:induction false} EmptyIds()
    ensures IdSet([]) == {} && DistinctIds([])
  {
  }

  lemma {:induction false} MeetGrows(a: set<string>, x: string, ids: set<string>)
    requires x !in a
    ensures |(a + {x}) * ids| == |a * ids| + if x in ids then 1 else 0
  {
    if x in ids {
      assert (a + {x}) * ids == (a * ids) + {x};
    } else {
      assert (a + {x}) * ids == a * ids;
    }
  }

  lemma {:induction false} CountDistinct(row: seq<Item>, ids: set<string>)
    requires DistinctIds(row)
    ensures CountPositive(row, ids) == |IdSet(row) * ids|
  {
    hide IdSet, DistinctIds;
    if row == [] {
      EmptyIds();
      assert IdSet(row) * ids == {};
    } else {
      var front, x := row[..|row| - 1], row[|row| - 1];
      assert row == front + [x];
      LastIdIsFresh(front, x);
      CountDistinct(front, ids);
      MeetGrows(IdSet(front), x.id, ids);
    }
  }

  lemma {:induction false} ChosenCounts(row: seq<Item>, selected: seq<Item>, available: set<string>, n: nat)
    requires Chosen(row, selected, available, n) && DistinctIds(selected)
    ensures CountHard(row) + CountPositive(row, IdSet(selected)) <= |row|
    ensures DistinctIds(row) ==> CountPositive(row, IdSet(selected)) == |selected|
  {
    CountsFit(row, IdSet(selected));
    if DistinctIds(row) {
      CountDistinct(row, IdSet(selected));
      assert IdSet(row) * IdSet(selected) == IdSet(selected);
      DistinctIdsSize(selected);
    }
  }

  function PolicyOf(positive: nat, hard: nat, total: nat, available: nat, selected: nat): Policy
    requires positive + hard <= total
  {
    Policy(positive, hard, total - positive - hard, available, Max(0, available - selected))
  }

  ghost predicate Exact(r: Attached, catalog: seq<Item>, positives: set<string>, terms: seq<string>, n: nat,
                        wanted: nat, hardNegatives: int) {
    var row, selected := ItemsOf(r.candidates), r.selected;
    && PickedRow(row, selected, catalog, positives, terms, n, wanted, hardNegatives)
    && Lettered(r.candidates, row, IdSet(selected)) && r.positiveLetters == PositiveLetters(r.candidates)
    && (DistinctIds(catalog) ==> |row| == Min(n, |selected| + |IdSet(catalog) - positives|))
    && (DistinctIds(catalog) ==> |r.positiveLetters| == r.policy.positive == |selected|)
    && r.policy.hard == CountHard(row)
    && r.policy.positive + r.policy.hard + r.policy.random == |row|
    && r.policy.available == |positives| && r.policy.dropped == |positives| - |selected|
  }

  method AttachCandidates(truth: GroundTruth, ix: Indexes, catalog: seq<Item>, terms: seq<string>,
                          numCandidates: int, hardNegatives: int, positiveCandidates: int)
    returns (r: Result<Attached>)
    requires IndexesOf(ix, catalog)
    ensures r.Ok? <==> 1 <= numCandidates <= 26 && 1 <= positiveCandidates
    ensures r.Ok? ==> Exact(r.value, catalog, PositiveIds(truth, ix, truth.Rows()), terms, numCandidates,
                            positiveCandidates, hardNegatives)
    ensures r.Ok? ==> StandFor(r.value.selected, truth, ix)
  {
    if numCandidates < 1 {
      return Err("num_candidates < 1");
    }
    if numCandidates > 26 {
      return Err("num_candidates > 26");
    }
    if positiveCandidates < 1 {
      return Err("no positives");
    }
    var found, selected, row := ChooseItems(truth, ix, catalog, terms, numCandidates, hardNegatives, positiveCandidates);
    ghost var positives := PositiveIds(truth, ix, truth.Rows());
    hide IdSet, DistinctIds, PositiveIds, PickedRow, StandFor, IndexesOf, Lettered, ItemsOf, PositiveLetters, PolicyOf, Exact;
    RowFacts(row, selected, catalog, positives, terms, numCandidates, positiveCandidates, hardNegatives);
    var cs, letters, hardCount := Letter(row, IdSet(selected));
    var policy := PolicyOf(|letters|, hardCount, |cs|, found, |selected|);
    r := Ok(Attached(cs, letters, selected, policy));
    MakesExact(r.value, row, catalog, positives, terms, numCandidates, positiveCandidates, hardNegatives);
  }

  lemma {:induction false} MakesExact(r: Attached, row: seq<Item>, catalog: seq<Item>, positives: set<string>,
                                      terms: seq<string>, n: nat, wanted: nat, hardNegatives: int)
    requires Lettered(r.candidates, row, IdSet(r.selected))
    requires PickedRow(row, r.selected, catalog, positives, terms, n, wanted, hardNegatives)
    requires r.positiveLetters == PositiveLetters(r.candidates)
    requires |r.positiveLetters| == CountPositive(row, IdSet(r.selected)) && CountHard(row) + |r.positiveLetters| <= |row|
    requires r.policy == PolicyOf(|r.positiveLetters|, CountHard(row), |row|, |positives|, |r.selected|)
    ensures Exact(r, catalog, positives, terms, n, wanted, hardNegatives)
  {
    hide PickedRow, ItemsOf, IdSet, DistinctIds, Lettered, PositiveLetters, CountHard, CountPositive, LetterId;
    RowFacts(row, r.selected, catalog, positives, terms, n, wanted, hardNegatives);
    LetteredItems(r.candidates, row, IdSet(r.selected));
  }

  lemma {:induction false} LetteredItems(cs: seq<Candidate>, row: seq<Item>, positives: set<string>)
    requires Lettered(cs, row, positives)
    ensures ItemsOf(cs) == row && |cs| == |row|
  {
  }

  lemma {:induction false} RowFacts(row: seq<Item>, selected: seq<Item>, catalog: seq<Item>, positives: set<string>,
                                    terms: seq<string>, n: nat, wanted: nat, hardNegatives: int)
    requires PickedRow(row, selected, catalog, positives, terms, n, wanted, hardNegatives)
    ensures |row| <= n && CountHard(row) + CountPositive(row, IdSet(selected)) <= |row|
    ensures |selected| <= |positives|
    ensures DistinctIds(catalog) ==> CountPositive(row, IdSet(selected)) == |selected|
    ensures DistinctIds(catalog) ==> |row| == Min(n, |selected| + |IdSet(catalog) - positives|)
  {
    hide HardOnes;
    ChosenCounts(row, selected, IdSet(catalog) - positives, n);
    if DistinctIds(row) {
      ChosenSize(row, selected, IdSet(catalog) - positives, n);
    }
  }

  /** A candidate whose item is a positive is one of those selected, and labelled so; and the candidates that are
      neither come from the catalog. */
  lemma {:induction false} NoPositiveAmongNegatives(r: Attached, catalog: seq<Item>, positives: set<string>,
                                                    terms: seq<string>, n: nat, wanted: nat, hardNegatives: int,
                                                    c: Candidate)
    requires Exact(r, catalog, positives, terms, n, wanted, hardNegatives) && c in r.candidates
    ensures c.item.id in positives <==> c.positive
    ensures c.positive <==> c.item.id in IdSet(r.selected)
    ensures !c.positive ==> c.item.id in IdSet(catalog)
  {
    var i :| 0 <= i < |r.candidates| && r.candidates[i] == c;
    assert ItemsOf(r.candidates)[i] == c.item;
    assert c.item in ItemsOf(r.candidates);
    hide HardOnes, PositiveLetters, DistinctIds, CountHard;
  }
}
