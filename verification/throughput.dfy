/**
  mobile/src/core/plan.ts and background.ts: what goes first, and what may be staged while nobody is
  looking. The order keeps the members of a pair together and puts the heaviest group first; the
  selection fills a budget greedily in that order.
*/
module Throughput {
  import opened Wrappers

  datatype Asset = Asset(id: string, pairId: Option<string>, size: nat)

  function Sum(assets: seq<Asset>): nat {
    if assets == [] then 0 else Sum(assets[..|assets| - 1]) + assets[|assets| - 1].size
  }

  lemma {:induction false} SumConcat(a: seq<Asset>, b: seq<Asset>)
    ensures Sum(a + b) == Sum(a) + Sum(b)
  {
    if b == [] {
      assert a + b == a;
    } else {
      SumConcat(a, b[..|b| - 1]);
      assert (a + b)[..|a + b| - 1] == a + b[..|b| - 1];
    }
  }

  // ---- a stable sort, heaviest first ----

  /** Behind everything at least as heavy: what a stable sort does with one more element. */
  function Place<T>(sorted: seq<T>, x: T, weight: T -> nat): seq<T> {
    if sorted == [] || weight(sorted[|sorted| - 1]) >= weight(x) then sorted + [x]
    else Place(sorted[..|sorted| - 1], x, weight) + [sorted[|sorted| - 1]]
  }

  function Sorted<T>(xs: seq<T>, weight: T -> nat): seq<T> {
    if xs == [] then [] else Place(Sorted(xs[..|xs| - 1], weight), xs[|xs| - 1], weight)
  }

  predicate Descending<T>(xs: seq<T>, weight: T -> nat) {
    forall i, j | 0 <= i < j < |xs| :: weight(xs[i]) >= weight(xs[j])
  }

  /** The elements of one weight, in their order. */
  function OfWeight<T>(xs: seq<T>, weight: T -> nat, n: nat): seq<T> {
    if xs == [] then []
    else
      var before, last := OfWeight(xs[..|xs| - 1], weight, n), xs[|xs| - 1];
      if weight(last) == n then before + [last] else before
  }

  lemma {:induction false} PlaceKeeps<T>(sorted: seq<T>, x: T, weight: T -> nat)
    ensures multiset(Place(sorted, x, weight)) == multiset(sorted) + multiset{x}
  {
    if !(sorted == [] || weight(sorted[|sorted| - 1]) >= weight(x)) {
      var before, last := sorted[..|sorted| - 1], sorted[|sorted| - 1];
      PlaceKeeps(before, x, weight);
      assert sorted == before + [last];
    }
  }

  lemma {:induction false} PlaceDescends<T>(sorted: seq<T>, x: T, weight: T -> nat)
    requires Descending(sorted, weight)
    ensures Descending(Place(sorted, x, weight), weight)
    ensures forall y | y in Place(sorted, x, weight) :: y in sorted || y == x
  {
    if sorted == [] || weight(sorted[|sorted| - 1]) >= weight(x) {
      assert forall i | 0 <= i < |sorted| :: weight(sorted[i]) >= weight(sorted[|sorted| - 1]);
    } else {
      var before, last := sorted[..|sorted| - 1], sorted[|sorted| - 1];
      PlaceDescends(before, x, weight);
      var placed := Place(before, x, weight);
      forall i | 0 <= i < |placed|
        ensures weight(placed[i]) >= weight(last)
      {
        assert placed[i] in placed;
        assert forall y | y in before :: weight(y) >= weight(last);
      }
    }
  }

  lemma {:induction false} PlaceIsStable<T>(sorted: seq<T>, x: T, weight: T -> nat, n: nat)
    requires Descending(sorted, weight)
    ensures OfWeight(Place(sorted, x, weight), weight, n) ==
      OfWeight(sorted, weight, n) + if weight(x) == n then [x] else []
  {
    if sorted == [] || weight(sorted[|sorted| - 1]) >= weight(x) {
      assert (sorted + [x])[..|sorted|] == sorted;
    } else {
      var before, last := sorted[..|sorted| - 1], sorted[|sorted| - 1];
      PlaceIsStable(before, x, weight, n);
      var placed := Place(before, x, weight);
      assert (placed + [last])[..|placed|] == placed;
    }
  }

  lemma {:induction false} SortedDescends<T>(xs: seq<T>, weight: T -> nat)
    ensures Descending(Sorted(xs, weight), weight)
  {
    if xs != [] {
      SortedDescends(xs[..|xs| - 1], weight);
      PlaceDescends(Sorted(xs[..|xs| - 1], weight), xs[|xs| - 1], weight);
    }
  }

  lemma {:induction false} SortedKeeps<T>(xs: seq<T>, weight: T -> nat)
    ensures multiset(Sorted(xs, weight)) == multiset(xs)
  {
    hide Place;
    if xs != [] {
      SortedKeeps(xs[..|xs| - 1], weight);
      PlaceKeeps(Sorted(xs[..|xs| - 1], weight), xs[|xs| - 1], weight);
      assert xs == xs[..|xs| - 1] + [xs[|xs| - 1]];
    }
  }

  lemma {:induction false} SortedIsStable<T>(xs: seq<T>, weight: T -> nat, n: nat)
    ensures OfWeight(Sorted(xs, weight), weight, n) == OfWeight(xs, weight, n)
  {
    hide Place;
    if xs != [] {
      SortedDescends(xs[..|xs| - 1], weight);
      SortedIsStable(xs[..|xs| - 1], weight, n);
      PlaceIsStable(Sorted(xs[..|xs| - 1], weight), xs[|xs| - 1], weight, n);
    }
  }

  /** The same elements, heaviest first, and those of one weight in the order they came. */
  lemma SortedSorts<T>(xs: seq<T>, weight: T -> nat, n: nat)
    ensures Descending(Sorted(xs, weight), weight) && multiset(Sorted(xs, weight)) == multiset(xs)
    ensures OfWeight(Sorted(xs, weight), weight, n) == OfWeight(xs, weight, n)
  {
    hide Sorted, OfWeight, Descending;
    SortedDescends(xs, weight);
    SortedKeeps(xs, weight);
    SortedIsStable(xs, weight, n);
  }

  // ---- groups ----

  /** What an asset is kept together by. */
  function KeyOf(a: Asset): string {
    if a.pairId.Some? then a.pairId.value else a.id
  }

  function Keys(assets: seq<Asset>): seq<string> {
    if assets == [] then []
    else
      var before, key := Keys(assets[..|assets| - 1]), KeyOf(assets[|assets| - 1]);
      if key in before then before else before + [key]
  }

  function Members(assets: seq<Asset>, key: string): seq<Asset> {
    if assets == [] then []
    else
      var before, last := Members(assets[..|assets| - 1], key), assets[|assets| - 1];
      if KeyOf(last) == key then before + [last] else before
  }

  datatype Group = Group(members: seq<Asset>, size: nat)

  function SizeOf(a: Asset): nat { a.size }

  function GroupSize(g: Group): nat { g.size }

  function GroupOf(assets: seq<Asset>, key: string): Group {
    Group(Sorted(Members(assets, key), SizeOf), Sum(Members(assets, key)))
  }

  function GroupsOver(keys: seq<string>, assets: seq<Asset>): seq<Group> {
    seq(|keys|, i requires 0 <= i < |keys| => GroupOf(assets, keys[i]))
  }

  function Flat(groups: seq<Group>): seq<Asset> {
    if groups == [] then [] else Flat(groups[..|groups| - 1]) + groups[|groups| - 1].members
  }

  /** `orderForThroughput`. */
  function Ordered(assets: seq<Asset>): seq<Asset> {
    Flat(Sorted(GroupsOver(Keys(assets), assets), GroupSize))
  }

  // ---- the order ----

  lemma {:induction false} KeysOnce(assets: seq<Asset>)
    ensures forall i, j | 0 <= i < j < |Keys(assets)| :: Keys(assets)[i] != Keys(assets)[j]
    ensures forall a | a in assets :: KeyOf(a) in Keys(assets)
    ensures forall key | key in Keys(assets) :: Members(assets, key) != []
  {
    if assets != [] {
      KeysOnce(assets[..|assets| - 1]);
    }
  }

  lemma {:induction false} MembersHaveKey(assets: seq<Asset>, key: string)
    ensures forall a :: a in Members(assets, key) <==> a in assets && KeyOf(a) == key
  {
    if assets != [] {
      MembersHaveKey(assets[..|assets| - 1], key);
      assert assets == assets[..|assets| - 1] + [assets[|assets| - 1]];
    }
  }

  function MembersOver(keys: seq<string>, assets: seq<Asset>): multiset<Asset> {
    if keys == [] then multiset{}
    else MembersOver(keys[..|keys| - 1], assets) + multiset(Members(assets, keys[|keys| - 1]))
  }

  lemma OneMoreMember(assets: seq<Asset>, a: Asset, key: string)
    ensures multiset(Members(assets + [a], key)) ==
      multiset(Members(assets, key)) + if KeyOf(a) == key then multiset{a} else multiset{}
  {
    assert (assets + [a])[..|assets|] == assets;
  }

  lemma {:induction false} OneMoreAsset(keys: seq<string>, assets: seq<Asset>, a: Asset)
    requires forall i, j | 0 <= i < j < |keys| :: keys[i] != keys[j]
    ensures MembersOver(keys, assets + [a]) ==
      MembersOver(keys, assets) + if KeyOf(a) in keys then multiset{a} else multiset{}
  {
    hide Members, KeyOf;
    if keys != [] {
      var before, last := keys[..|keys| - 1], keys[|keys| - 1];
      OneMoreAsset(before, assets, a);
      OneMoreMember(assets, a, last);
      assert KeyOf(a) in keys <==> KeyOf(a) in before || KeyOf(a) == last;
      assert last !in before;
    }
  }

  lemma {:induction false} NoKeyNoMembers(assets: seq<Asset>, key: string)
    requires key !in Keys(assets)
    ensures Members(assets, key) == []
  {
    if assets != [] {
      NoKeyNoMembers(assets[..|assets| - 1], key);
    }
  }

  lemma KeyMadeNew(keys: seq<string>, assets: seq<Asset>, a: Asset)
    requires KeyOf(a) !in Keys(assets)
    ensures MembersOver(keys + [KeyOf(a)], assets + [a]) == MembersOver(keys, assets + [a]) + multiset{a}
  {
    var longer := keys + [KeyOf(a)];
    assert longer[..|longer| - 1] == keys && (assets + [a])[..|assets|] == assets;
    NoKeyNoMembers(assets, KeyOf(a));
    assert Members(assets + [a], KeyOf(a)) == [a];
  }

  /** Grouping loses nothing and repeats nothing. */
  lemma {:induction false} GroupingConserves(assets: seq<Asset>)
    ensures MembersOver(Keys(assets), assets) == multiset(assets)
  {
    hide MembersOver, Members;
    if assets == [] {
      NoGroups();
    } else {
      var before, last := assets[..|assets| - 1], assets[|assets| - 1];
      GroupingConserves(before);
      KeysOnce(before);
      OneMoreAsset(Keys(before), before, last);
      if KeyOf(last) !in Keys(before) {
        KeyMadeNew(Keys(before), before, last);
      }
      assert assets == before + [last];
    }
  }

  lemma NoGroups()
    ensures MembersOver([], []) == multiset{}
  {
  }

  lemma {:induction false} FlatOver(keys: seq<string>, assets: seq<Asset>)
    ensures multiset(Flat(GroupsOver(keys, assets))) == MembersOver(keys, assets)
  {
    hide Members, Sorted;
    if keys != [] {
      FlatOver(keys[..|keys| - 1], assets);
      var groups := GroupsOver(keys, assets);
      assert groups[..|groups| - 1] == GroupsOver(keys[..|keys| - 1], assets);
      SortedKeeps(Members(assets, keys[|keys| - 1]), SizeOf);
    }
  }

  lemma {:induction false} FlatPlaced(groups: seq<Group>, g: Group)
    ensures multiset(Flat(Place(groups, g, GroupSize))) == multiset(Flat(groups)) + multiset(g.members)
  {
    if groups == [] || GroupSize(groups[|groups| - 1]) >= GroupSize(g) {
      assert (groups + [g])[..|groups|] == groups;
    } else {
      var before, last := groups[..|groups| - 1], groups[|groups| - 1];
      FlatPlaced(before, g);
      var placed := Place(before, g, GroupSize);
      assert (placed + [last])[..|placed|] == placed;
    }
  }

  lemma {:induction false} FlatSorted(groups: seq<Group>)
    ensures multiset(Flat(Sorted(groups, GroupSize))) == multiset(Flat(groups))
  {
    hide Place;
    if groups != [] {
      FlatSorted(groups[..|groups| - 1]);
      FlatPlaced(Sorted(groups[..|groups| - 1], GroupSize), groups[|groups| - 1]);
    }
  }

  /** The order is of exactly the assets it was given. */
  lemma OrderIsAPermutation(assets: seq<Asset>)
    ensures multiset(Ordered(assets)) == multiset(assets)
  {
    hide Flat, Sorted, MembersOver, Keys, GroupsOver;
    GroupingConserves(assets);
    FlatOver(Keys(assets), assets);
    FlatSorted(GroupsOver(Keys(assets), assets));
  }

  /** One group: the members of one key, all of them, heaviest first, with their total. */
  predicate GroupOk(assets: seq<Asset>, g: Group) {
    g.members != [] && g == GroupOf(assets, KeyOf(g.members[0]))
  }

  lemma GroupOfIsOk(assets: seq<Asset>, key: string)
    requires Members(assets, key) != []
    ensures GroupOk(assets, GroupOf(assets, key)) && KeyOf(GroupOf(assets, key).members[0]) == key
  {
    var ms := Members(assets, key);
    SortedKeeps(ms, SizeOf);
    MembersHaveKey(assets, key);
    assert |multiset(ms)| == |ms| && |multiset(Sorted(ms, SizeOf))| == |Sorted(ms, SizeOf)|;
    assert Sorted(ms, SizeOf)[0] in multiset(Sorted(ms, SizeOf));
    assert Sorted(ms, SizeOf)[0] in ms;
  }

  predicate HeaviestFirst(assets: seq<Asset>) {
    forall i, j | 0 <= i < j < |assets| :: assets[i].size >= assets[j].size
  }

  lemma {:induction false} SumPlaced(sorted: seq<Asset>, a: Asset)
    ensures Sum(Place(sorted, a, SizeOf)) == Sum(sorted) + a.size
  {
    if sorted == [] || SizeOf(sorted[|sorted| - 1]) >= SizeOf(a) {
      SumOfOneMore(sorted, a);
    } else {
      var before, last := sorted[..|sorted| - 1], sorted[|sorted| - 1];
      SumPlaced(before, a);
      SumOfOneMore(Place(before, a, SizeOf), last);
    }
  }

  lemma {:induction false} SumSorted(assets: seq<Asset>)
    ensures Sum(Sorted(assets, SizeOf)) == Sum(assets)
  {
    hide Place;
    if assets != [] {
      SumSorted(assets[..|assets| - 1]);
      SumPlaced(Sorted(assets[..|assets| - 1], SizeOf), assets[|assets| - 1]);
    }
  }

  /** The groups in the order they are sent. */
  function Batches(assets: seq<Asset>): seq<Group> {
    Sorted(GroupsOver(Keys(assets), assets), GroupSize)
  }

  /**
    The order is a row of whole groups, one for each key: totals never grow along it, nor do sizes
    within a group, and every group is all of its key's assets.
  */
  lemma OrderIsWholeGroups(assets: seq<Asset>)
    ensures var gs := Batches(assets);
      && Ordered(assets) == Flat(gs)
      && (forall i, j | 0 <= i < j < |gs| :: Sum(gs[i].members) >= Sum(gs[j].members))
      && (forall g | g in gs :: GroupOk(assets, g) && HeaviestFirst(g.members))
      && (forall g | g in gs :: multiset(g.members) == multiset(Members(assets, KeyOf(g.members[0]))))
      && (forall i, j | 0 <= i < j < |gs| :: gs[i] != gs[j])
  {
    hide Sorted, Keys, Members, Flat, Sum;
    var keys := Keys(assets);
    var groups := GroupsOver(keys, assets);
    var gs := Batches(assets);
    SortedDescends(groups, GroupSize);
    SortedKeeps(groups, GroupSize);
    KeysOnce(assets);
    forall i | 0 <= i < |groups|
      ensures GroupOk(assets, groups[i]) && KeyOf(groups[i].members[0]) == keys[i]
    {
      GroupOfIsOk(assets, keys[i]);
    }
    forall g | g in gs
      ensures GroupOk(assets, g) && HeaviestFirst(g.members) && g.size == Sum(g.members)
      ensures multiset(g.members) == multiset(Members(assets, KeyOf(g.members[0])))
    {
      assert g in multiset(groups);
      SortedDescends(Members(assets, KeyOf(g.members[0])), SizeOf);
      SortedKeeps(Members(assets, KeyOf(g.members[0])), SizeOf);
      SumSorted(Members(assets, KeyOf(g.members[0])));
    }
    forall i, j | 0 <= i < j < |gs|
      ensures Sum(gs[i].members) >= Sum(gs[j].members)
    {
      assert gs[i] in gs && gs[j] in gs && GroupSize(gs[i]) >= GroupSize(gs[j]);
    }
    assert forall i, j | 0 <= i < j < |groups| :: groups[i] != groups[j];
    OnceEach(groups, gs);
  }

  /** What lies between two assets of one key has that key too. */
  predicate Together(assets: seq<Asset>) {
    forall i, j, k | 0 <= i < j < k < |assets| && KeyOf(assets[i]) == KeyOf(assets[k]) ::
      KeyOf(assets[j]) == KeyOf(assets[i])
  }

  function GroupKey(g: Group): string { if g.members == [] then "" else KeyOf(g.members[0]) }

  predicate OneKey(g: Group) { g.members != [] && forall a | a in g.members :: KeyOf(a) == GroupKey(g) }

  /** Whatever the groups put together hold is of one of their keys. */
  lemma {:induction false} FlatKeys(gs: seq<Group>)
    requires forall g | g in gs :: OneKey(g)
    ensures forall a | a in Flat(gs) :: exists i | 0 <= i < |gs| :: KeyOf(a) == GroupKey(gs[i])
  {
    hide KeyOf;
    if gs != [] {
      var before, last := gs[..|gs| - 1], gs[|gs| - 1];
      assert forall g | g in before :: g in gs;
      FlatKeys(before);
      assert last in gs && OneKey(last);
      forall a | a in Flat(gs)
        ensures exists i | 0 <= i < |gs| :: KeyOf(a) == GroupKey(gs[i])
      {
        if a in Flat(before) {
          var i :| 0 <= i < |before| && KeyOf(a) == GroupKey(before[i]);
          assert gs[i] == before[i];
        } else {
          assert a in last.members && KeyOf(a) == GroupKey(gs[|gs| - 1]);
        }
      }
    }
  }

  lemma {:induction false} FlatTogether(gs: seq<Group>)
    requires forall g | g in gs :: OneKey(g)
    requires forall i, j | 0 <= i < j < |gs| :: GroupKey(gs[i]) != GroupKey(gs[j])
    ensures Together(Flat(gs))
  {
    hide KeyOf;
    if gs != [] {
      var before, last := gs[..|gs| - 1], gs[|gs| - 1];
      assert forall g | g in before :: g in gs;
      FlatTogether(before);
      FlatKeys(before);
      assert last in gs && OneKey(last);
      ApartTogether(Flat(before), last.members);
    }
  }

  /** One more group, whose key is new. */
  lemma ApartTogether(flat: seq<Asset>, members: seq<Asset>)
    requires Together(flat) && members != [] && forall a | a in members :: KeyOf(a) == KeyOf(members[0])
    requires forall a | a in flat :: KeyOf(a) != KeyOf(members[0])
    ensures Together(flat + members)
  {
    hide KeyOf;
    var all := flat + members;
    forall i, j, k | 0 <= i < j < k < |all| && KeyOf(all[i]) == KeyOf(all[k])
      ensures KeyOf(all[j]) == KeyOf(all[i])
    {
      assert all[i] in flat || all[i] in members;
      if k >= |flat| {
        assert all[k] in members;
        assert i >= |flat| && all[i] in members && all[j] in members;
      }
    }
  }

  lemma OrderTogether(assets: seq<Asset>)
    ensures Together(Ordered(assets))
  {
    hide KeyOf, Keys, Members, Sorted, Flat, GroupOf, Together, Descending;
    OrderIsWholeGroups(assets);
    var gs := Batches(assets);
    forall g | g in gs
      ensures OneKey(g)
    {
      MembersHaveKey(assets, KeyOf(g.members[0]));
      assert forall a :: a in g.members <==> a in multiset(g.members);
    }
    forall i, j | 0 <= i < j < |gs|
      ensures GroupKey(gs[i]) != GroupKey(gs[j])
    {
      assert GroupOk(assets, gs[i]) && GroupOk(assets, gs[j]) && gs[i] != gs[j];
    }
    FlatTogether(gs);
  }

  /**
    The members of a pair are sent one after the other: what lies between two of them is of the pair
    as well, or an asset without a pair whose own id is the pair's.
  */
  lemma PairsStayTogether(assets: seq<Asset>, i: nat, j: nat, k: nat)
    requires i < j < k < |Ordered(assets)|
    requires Ordered(assets)[i].pairId.Some? && Ordered(assets)[i].pairId == Ordered(assets)[k].pairId
    ensures var pair, between := Ordered(assets)[i].pairId, Ordered(assets)[j];
      between.pairId == pair || (between.pairId.None? && between.id == pair.value)
  {
    hide Ordered;
    OrderTogether(assets);
    assert KeyOf(Ordered(assets)[j]) == KeyOf(Ordered(assets)[i]);
  }

  lemma OnceEach(a: seq<Group>, b: seq<Group>)
    requires multiset(a) == multiset(b) && forall i, j | 0 <= i < j < |a| :: a[i] != a[j]
    ensures forall i, j | 0 <= i < j < |b| :: b[i] != b[j]
  {
    forall i, j | 0 <= i < j < |b|
      ensures b[i] != b[j]
    {
      OnceOnly(a, b[i]);
      assert b == b[..i] + [b[i]] + b[i + 1..j] + [b[j]] + b[j + 1..];
      assert multiset(b)[b[i]] >= if b[i] == b[j] then 2 else 1;
    }
  }

  lemma {:induction false} OnceOnly(a: seq<Group>, g: Group)
    requires forall i, j | 0 <= i < j < |a| :: a[i] != a[j]
    ensures multiset(a)[g] <= 1
  {
    if a != [] {
      var before, last := a[..|a| - 1], a[|a| - 1];
      OnceOnly(before, g);
      assert a == before + [last];
      assert last !in before;
    }
  }

  // ---- the loops over assets ----

  method GroupByKey(assets: seq<Asset>) returns (order: seq<string>, groups: map<string, seq<Asset>>)
    ensures order == Keys(assets)
    ensures forall key ::
      (key in groups <==> key in order) && (if key in groups then groups[key] else []) == Members(assets, key)
  {
    order, groups := [], map[];
    for i := 0 to |assets|
      invariant order == Keys(assets[..i])
      invariant forall key ::
        (key in groups <==> key in order) && (if key in groups then groups[key] else []) == Members(assets[..i], key)
    {
      assert assets[..i + 1][..i] == assets[..i];
      var key := KeyOf(assets[i]);
      if key in groups {
        groups := groups[key := groups[key] + [assets[i]]];
      } else {
        groups := groups[key := [assets[i]]];
        order := order + [key];
      }
    }
    assert assets[..|assets|] == assets;
  }

  method OrderForThroughput(assets: seq<Asset>) returns (ordered: seq<Asset>)
    ensures ordered == Ordered(assets)
  {
    hide Keys, Members, Sorted;
    var order, groups := GroupByKey(assets);
    var entries: seq<Group> := [];
    for i := 0 to |order|
      invariant entries == GroupsOver(order[..i], assets)
    {
      entries := entries + [Group(Sorted(groups[order[i]], SizeOf), Sum(groups[order[i]]))];
    }
    assert order[..|order|] == order;
    var sorted := Sorted(entries, GroupSize);
    ordered := [];
    for i := 0 to |sorted|
      invariant ordered == Flat(sorted[..i])
    {
      assert sorted[..i + 1][..i] == sorted[..i];
      ordered := ordered + sorted[i].members;
    }
    assert sorted[..|sorted|] == sorted;
  }

  /** The assets about which the ledger says this, in the order they came. */
  function Where(assets: seq<Asset>, sent: Asset -> bool, says: bool): seq<Asset> {
    if assets == [] then []
    else
      var before, last := Where(assets[..|assets| - 1], sent, says), assets[|assets| - 1];
      if sent(last) == says then before + [last] else before
  }

  lemma {:induction false} WhereSplits(assets: seq<Asset>, sent: Asset -> bool)
    ensures multiset(Where(assets, sent, false)) + multiset(Where(assets, sent, true)) == multiset(assets)
  {
    if assets != [] {
      WhereSplits(assets[..|assets| - 1], sent);
      assert assets == assets[..|assets| - 1] + [assets[|assets| - 1]];
    }
  }

  lemma {:induction false} WhereSays(assets: seq<Asset>, sent: Asset -> bool, says: bool)
    ensures forall a | a in Where(assets, sent, says) :: sent(a) == says
  {
    if assets != [] {
      WhereSays(assets[..|assets| - 1], sent, says);
    }
  }

  /** `buildPlan`, with the ledger's answer for each asset. */
  method BuildPlan(assets: seq<Asset>, sent: Asset -> bool)
      returns (items: seq<Asset>, skipped: seq<Asset>, totalBytes: nat)
    ensures items == Ordered(Where(assets, sent, false)) && skipped == Where(assets, sent, true)
    ensures multiset(items) + multiset(skipped) == multiset(assets)
    ensures (forall a | a in items :: !sent(a)) && forall a | a in skipped :: sent(a)
    ensures totalBytes == Sum(items)
  {
    hide Ordered;
    var unsent: seq<Asset> := [];
    skipped := [];
    for i := 0 to |assets|
      invariant unsent == Where(assets[..i], sent, false) && skipped == Where(assets[..i], sent, true)
    {
      assert assets[..i + 1][..i] == assets[..i];
      if sent(assets[i]) {
        skipped := skipped + [assets[i]];
      } else {
        unsent := unsent + [assets[i]];
      }
    }
    assert assets[..|assets|] == assets;
    items := OrderForThroughput(unsent);
    OrderIsAPermutation(unsent);
    WhereSplits(assets, sent);
    WhereSays(assets, sent, false);
    WhereSays(assets, sent, true);
    assert forall a :: a in items <==> a in multiset(unsent);
    totalBytes := Sum(items);
  }

  // ---- the selection ----

  datatype Budget = Budget(maxFiles: nat, maxBytes: nat)

  datatype Selection = Selection(selected: seq<Asset>, deferred: seq<Asset>, skipped: seq<Asset>, bytes: nat)

  /** Half the free space, rounded down, is the most that may be staged when it is known. */
  function Ceiling(budget: Budget, free: Option<nat>): nat {
    if free.Some? && free.value / 2 < budget.maxBytes then free.value / 2 else budget.maxBytes
  }

  predicate Fits(s: Selection, budget: Budget, ceiling: nat, a: Asset) {
    |s.selected| < budget.maxFiles && s.bytes + a.size <= ceiling
  }

  /** One more asset: already queued, put off, or taken. */
  function Considered(s: Selection, budget: Budget, ceiling: nat, queued: bool, a: Asset): Selection {
    if queued then s.(skipped := s.skipped + [a])
    else if Fits(s, budget, ceiling, a) then s.(selected := s.selected + [a], bytes := s.bytes + a.size)
    else s.(deferred := s.deferred + [a])
  }

  function Selected(ordered: seq<Asset>, budget: Budget, ceiling: nat, queued: Asset -> bool): Selection {
    if ordered == [] then Selection([], [], [], 0)
    else
      var a := ordered[|ordered| - 1];
      Considered(Selected(ordered[..|ordered| - 1], budget, ceiling, queued), budget, ceiling, queued(a), a)
  }

  method SelectForBackground(assets: seq<Asset>, budget: Budget, queued: Asset -> bool, free: Option<nat>)
      returns (s: Selection)
    ensures s == Selected(Ordered(assets), budget, Ceiling(budget, free), queued)
  {
    hide Ordered;
    var ceiling := Ceiling(budget, free);
    var ordered := OrderForThroughput(assets);
    var selected: seq<Asset>, deferred: seq<Asset>, skipped: seq<Asset> := [], [], [];
    var bytes: nat := 0;
    for i := 0 to |ordered|
      invariant Selection(selected, deferred, skipped, bytes) == Selected(ordered[..i], budget, ceiling, queued)
    {
      var a := ordered[i];
      assert ordered[..i + 1][..i] == ordered[..i];
      if queued(a) {
        skipped := skipped + [a];
        continue;
      }
      if |selected| >= budget.maxFiles || bytes + a.size > ceiling {
        deferred := deferred + [a];
        continue;
      }
      selected := selected + [a];
      bytes := bytes + a.size;
    }
    assert ordered[..|ordered|] == ordered;
    s := Selection(selected, deferred, skipped, bytes);
  }

  lemma {:induction false} SelectionSplits(ordered: seq<Asset>, budget: Budget, ceiling: nat, queued: Asset -> bool)
    ensures var s := Selected(ordered, budget, ceiling, queued);
      multiset(s.selected) + multiset(s.deferred) + multiset(s.skipped) == multiset(ordered)
  {
    hide Fits, Considered;
    if ordered != [] {
      var before, a := ordered[..|ordered| - 1], ordered[|ordered| - 1];
      SelectionSplits(before, budget, ceiling, queued);
      OneMoreConsidered(Selected(before, budget, ceiling, queued), budget, ceiling, queued(a), a);
      assert ordered == before + [a];
    }
  }

  /** It goes into exactly one of the lists. */
  lemma OneMoreConsidered(s: Selection, budget: Budget, ceiling: nat, queued: bool, a: Asset)
    ensures var v := Considered(s, budget, ceiling, queued, a);
      multiset(v.selected) + multiset(v.deferred) + multiset(v.skipped) ==
        multiset(s.selected) + multiset(s.deferred) + multiset(s.skipped) + multiset{a}
  {
    hide Fits;
  }

  lemma {:induction false} SelectionKeepsTo(ordered: seq<Asset>, budget: Budget, ceiling: nat, queued: Asset -> bool)
    ensures var s := Selected(ordered, budget, ceiling, queued);
      KeepsTo(s, budget, ceiling, queued) && Subsequence(s.selected, ordered)
  {
    hide KeepsTo, Considered, Subsequence;
    if ordered == [] {
      NothingKeepsTo(budget, ceiling, queued);
    } else {
      var before, a := ordered[..|ordered| - 1], ordered[|ordered| - 1];
      SelectionKeepsTo(before, budget, ceiling, queued);
      OneMoreKeepsTo(Selected(before, budget, ceiling, queued), budget, ceiling, queued, a, before);
      assert before + [a] == ordered;
    }
  }

  lemma NothingKeepsTo(budget: Budget, ceiling: nat, queued: Asset -> bool)
    ensures KeepsTo(Selection([], [], [], 0), budget, ceiling, queued) && Subsequence([], [])
  {
  }

  /** What the selection keeps to, while it is made. */
  predicate KeepsTo(s: Selection, budget: Budget, ceiling: nat, queued: Asset -> bool) {
    && |s.selected| <= budget.maxFiles && s.bytes == Sum(s.selected) <= ceiling
    && (forall a | a in s.skipped :: queued(a))
    && (forall a | a in s.selected :: !queued(a)) && (forall a | a in s.deferred :: !queued(a))
    && (forall a | a in s.deferred :: !Fits(s, budget, ceiling, a))
  }

  lemma OneMoreKeepsTo(
      s: Selection, budget: Budget, ceiling: nat, queued: Asset -> bool, a: Asset, ordered: seq<Asset>)
    requires KeepsTo(s, budget, ceiling, queued) && Subsequence(s.selected, ordered)
    ensures var v := Considered(s, budget, ceiling, queued(a), a);
      KeepsTo(v, budget, ceiling, queued) && Subsequence(v.selected, ordered + [a])
  {
    hide Sum;
    var v := Considered(s, budget, ceiling, queued(a), a);
    assert (s.selected + [a])[..|s.selected|] == s.selected && (ordered + [a])[..|ordered|] == ordered;
    SumOfOneMore(s.selected, a);
    assert Subsequence(v.selected, ordered + [a]) by {
      hide KeepsTo, Fits;
    }
    assert KeepsTo(v, budget, ceiling, queued) by {
      hide Subsequence;
    }
  }

  lemma SumOfOneMore(assets: seq<Asset>, a: Asset)
    ensures Sum(assets + [a]) == Sum(assets) + a.size
  {
    assert (assets + [a])[..|assets|] == assets;
  }

  /**
    Every asset is in exactly one of the three lists, as often as it was given; the selection keeps
    to the number of files, the bytes, and half the free space; and it is maximal: of what was put
    off, nothing at all would still fit.
  */
  lemma SelectionIsMaximal(assets: seq<Asset>, budget: Budget, queued: Asset -> bool, free: Option<nat>)
    ensures var s := Selected(Ordered(assets), budget, Ceiling(budget, free), queued);
      && multiset(s.selected) + multiset(s.deferred) + multiset(s.skipped) == multiset(assets)
      && (forall a | a in s.skipped :: queued(a))
      && (forall a | a in s.selected :: !queued(a)) && (forall a | a in s.deferred :: !queued(a))
      && |s.selected| <= budget.maxFiles && s.bytes == Sum(s.selected) <= budget.maxBytes
      && (free.Some? ==> 2 * s.bytes <= free.value)
      && (forall a | a in s.deferred ::
           || |s.selected| == budget.maxFiles || s.bytes + a.size > budget.maxBytes
           || (free.Some? && 2 * (s.bytes + a.size) > free.value))
      && Subsequence(s.selected, Ordered(assets))
  {
    hide Ordered, Selected, Subsequence;
    SelectionSplits(Ordered(assets), budget, Ceiling(budget, free), queued);
    SelectionKeepsTo(Ordered(assets), budget, Ceiling(budget, free), queued);
    OrderIsAPermutation(assets);
  }

  /** What comes first in the order is decided first: a longer list adds to what was chosen of its beginning. */
  lemma {:induction false} EarlierFirst(
      ordered: seq<Asset>, budget: Budget, ceiling: nat, queued: Asset -> bool, n: nat)
    requires n <= |ordered|
    ensures var s, v := Selected(ordered[..n], budget, ceiling, queued), Selected(ordered, budget, ceiling, queued);
      s.selected <= v.selected && s.deferred <= v.deferred && s.skipped <= v.skipped
  {
    if n < |ordered| {
      EarlierFirst(ordered[..|ordered| - 1], budget, ceiling, queued, n);
      assert ordered[..|ordered| - 1][..n] == ordered[..n];
    } else {
      assert ordered[..n] == ordered;
    }
  }

  /** The first list can be had from the second by leaving things out. */
  predicate Subsequence(some: seq<Asset>, all: seq<Asset>) {
    if some == [] then true
    else if all == [] then false
    else
      || (some[|some| - 1] == all[|all| - 1] && Subsequence(some[..|some| - 1], all[..|all| - 1]))
      || Subsequence(some, all[..|all| - 1])
  }
}
