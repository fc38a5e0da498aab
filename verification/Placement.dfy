/** Dragging a tab or a group of the navigation to its place. */
module Placement {
  import opened Common

  datatype Tab = Tab(id: string, group: Option<string>, order: int, title: string)
  datatype Group = Group(id: string, order: int, title: string)

  // ------------------------------------------------------------------ sorting

  function Insert<T>(s: seq<T>, x: T, key: T -> int): seq<T> {
    if s == [] || key(s[|s| - 1]) <= key(x) then s + [x] else Insert(s[..|s| - 1], x, key) + [s[|s| - 1]]
  }

  /** A stable sort: equal keys keep their order. */
  function Sorted<T>(s: seq<T>, key: T -> int): seq<T> {
    if s == [] then [] else Insert(Sorted(s[..|s| - 1], key), s[|s| - 1], key)
  }

  ghost predicate Ascending<T>(s: seq<T>, key: T -> int) { forall i, j :: 0 <= i < j < |s| ==> key(s[i]) <= key(s[j]) }

  lemma {:induction false} InsertAdds<T>(s: seq<T>, x: T, key: T -> int)
    ensures multiset(Insert(s, x, key)) == multiset(s) + multiset{x}
  {
    if s != [] && key(s[|s| - 1]) > key(x) {
      InsertAdds(s[..|s| - 1], x, key);
      assert s == s[..|s| - 1] + [s[|s| - 1]];
    }
  }

  lemma {:induction false} InsertBelow<T>(s: seq<T>, x: T, key: T -> int, bound: int)
    requires key(x) <= bound && forall i :: 0 <= i < |s| ==> key(s[i]) <= bound
    ensures forall i :: 0 <= i < |Insert(s, x, key)| ==> key(Insert(s, x, key)[i]) <= bound
  {
    if s != [] && key(s[|s| - 1]) > key(x) { InsertBelow(s[..|s| - 1], x, key, bound); }
  }

  lemma {:induction false} InsertIs<T>(s: seq<T>, x: T, key: T -> int)
    requires Ascending(s, key)
    ensures Ascending(Insert(s, x, key), key) && multiset(Insert(s, x, key)) == multiset(s) + multiset{x}
  {
    InsertAdds(s, x, key);
    if s != [] && key(s[|s| - 1]) > key(x) {
      InsertIs(s[..|s| - 1], x, key);
      InsertBelow(s[..|s| - 1], x, key, key(s[|s| - 1]));
    }
  }

  /** Sorting is ascending and keeps every element. */
  lemma {:induction false} SortedIs<T>(s: seq<T>, key: T -> int)
    ensures Ascending(Sorted(s, key), key) && multiset(Sorted(s, key)) == multiset(s)
  {
    if s != [] {
      var n := |s| - 1;
      SortedIs(s[..n], key);
      InsertIs(Sorted(s[..n], key), s[n], key);
      assert s == s[..n] + [s[n]];
    }
  }

  lemma {:induction false} SortedAlready<T>(s: seq<T>, key: T -> int)
    requires Ascending(s, key)
    ensures Sorted(s, key) == s
  {
    if s != [] {
      var n := |s| - 1;
      SortedAlready(s[..n], key);
      if n > 0 { assert key(s[n - 1]) <= key(s[n]); }
      assert s == s[..n] + [s[n]];
    }
  }

  // ------------------------------------------------------------------ placing

  function OrderOf(): Tab -> int { (t: Tab) => t.order }
  function InGroup(group: Option<string>): Tab -> bool { (t: Tab) => t.group == group }
  function Not(id: string): string -> bool { (x: string) => x != id }

  function Ids(tabs: seq<Tab>): seq<string>
  {
    if tabs == [] then [] else Ids(tabs[..|tabs| - 1]) + [tabs[|tabs| - 1].id]
  }

  function OrderedTabIds(tabs: seq<Tab>, group: Option<string>): seq<string>
  {
    Ids(Sorted(Filter(tabs, InGroup(group)), OrderOf()))
  }

  function IndexOf(ids: seq<string>, id: string): (i: nat)
    ensures i <= |ids| && (i < |ids| ==> ids[i] == id)
    ensures i == |ids| ==> id !in ids
  {
    if ids == [] || ids[0] == id then 0 else 1 + IndexOf(ids[1..], id)
  }

  function TabById(tabs: seq<Tab>, id: string): Option<Tab> {
    if tabs == [] then None
    else if tabs[|tabs| - 1].id == id then Some(tabs[|tabs| - 1])
    else TabById(tabs[..|tabs| - 1], id)
  }

  function Keys(groupIds: seq<string>): seq<Option<string>> {
    seq(|groupIds| + 1, i requires 0 <= i <= |groupIds| => if i < |groupIds| then Some(groupIds[i]) else None)
  }

  /** A named target places below it; no target, or one without a name, places first. */
  predicate Names(target: Option<string>) { target.Some? && target.value != "" }

  function Others(tabs: seq<Tab>, key: Option<string>, source: string): seq<string>
  {
    Filter(OrderedTabIds(tabs, key), Not(source))
  }

  predicate Reaches(others: seq<string>, target: Option<string>) { Names(target) ==> target.value in others }

  /** One group's list after the move: the source directly below the target, or first; the others as they were. */
  function Moved(others: seq<string>, key: Option<string>, source: string, target: Option<string>,
      group: Option<string>): seq<string>
  {
    if key != group then others
    else if Names(target) && target.value in others then PutIn(others, IndexOf(others, target.value) + 1, source)
    else PutIn(others, 0, source)
  }

  function NewLists(tabs: seq<Tab>, keys: seq<Option<string>>, source: string, target: Option<string>,
      group: Option<string>):
    map<Option<string>, seq<string>>
  {
    map key | key in keys :: Moved(Others(tabs, key, source), key, source, target, group)
  }

  function Numbered(tabs: seq<Tab>, ids: seq<string>, key: Option<string>): seq<Tab>
    requires forall i :: 0 <= i < |ids| ==> TabById(tabs, ids[i]).Some?
  {
    seq(|ids|, i requires 0 <= i < |ids| => TabById(tabs, ids[i]).value.(group := key, order := i))
  }

  predicate Known(tabs: seq<Tab>, ids: seq<string>) { forall i :: 0 <= i < |ids| ==> TabById(tabs, ids[i]).Some? }

  lemma {:induction false} IdsAt(tabs: seq<Tab>, i: nat)
    requires i < |tabs|
    ensures |Ids(tabs)| == |tabs| && Ids(tabs)[i] == tabs[i].id
  {
    if i < |tabs| - 1 { IdsAt(tabs[..|tabs| - 1], i); } else if i > 0 { IdsAt(tabs[..i], i - 1); }
  }

  lemma {:induction false} IdsLength(tabs: seq<Tab>)
    ensures |Ids(tabs)| == |tabs|
  {
    if tabs != [] { IdsAt(tabs, 0); }
  }

  lemma {:induction false} TabByIdIs(tabs: seq<Tab>, id: string)
    ensures TabById(tabs, id).Some? ==> TabById(tabs, id).value in tabs && TabById(tabs, id).value.id == id
    ensures TabById(tabs, id).None? <==> forall t :: t in tabs ==> t.id != id
  {
    if tabs != [] {
      TabByIdIs(tabs[..|tabs| - 1], id);
      assert tabs == tabs[..|tabs| - 1] + [tabs[|tabs| - 1]];
    }
  }

  lemma {:induction false} OrderedAreKnown(tabs: seq<Tab>, key: Option<string>)
    ensures Known(tabs, OrderedTabIds(tabs, key))
  {
    var mine := Filter(tabs, InGroup(key));
    var sorted := Sorted(mine, OrderOf());
    SortedIs(mine, OrderOf());
    IdsLength(sorted);
    forall i | 0 <= i < |sorted| ensures TabById(tabs, Ids(sorted)[i]).Some? {
      IdsAt(sorted, i);
      assert sorted[i] in multiset(sorted);
      TabByIdIs(tabs, sorted[i].id);
    }
  }

  lemma {:induction false} OthersAreKnown(tabs: seq<Tab>, key: Option<string>, source: string)
    ensures Known(tabs, Others(tabs, key, source))
  {
    OrderedAreKnown(tabs, key);
    var ids := OrderedTabIds(tabs, key);
    var others := Others(tabs, key, source);
    forall i | 0 <= i < |others| ensures TabById(tabs, others[i]).Some? { assert others[i] in ids; }
  }

  lemma {:induction false} MovedAreKnown(tabs: seq<Tab>, others: seq<string>, key: Option<string>, source: string,
      target: Option<string>, group: Option<string>)
    requires TabById(tabs, source).Some? && Known(tabs, others)
    ensures Known(tabs, Moved(others, key, source, target, group))
  {
  }

  ghost predicate AllKnown(tabs: seq<Tab>, keys: seq<Option<string>>, lists: map<Option<string>, seq<string>>) {
    forall key :: key in keys ==> key in lists && Known(tabs, lists[key])
  }

  lemma {:induction false} NewListsAreKnown(tabs: seq<Tab>, keys: seq<Option<string>>, source: string,
      target: Option<string>, group: Option<string>)
    requires TabById(tabs, source).Some?
    ensures AllKnown(tabs, keys, NewLists(tabs, keys, source, target, group))
  {
    forall key | key in keys ensures Known(tabs, NewLists(tabs, keys, source, target, group)[key]) {
      OthersAreKnown(tabs, key, source);
      MovedAreKnown(tabs, Others(tabs, key, source), key, source, target, group);
    }
  }

  function Arranged(tabs: seq<Tab>, keys: seq<Option<string>>, lists: map<Option<string>, seq<string>>): seq<Tab>
    requires AllKnown(tabs, keys, lists)
  {
    if keys == [] then []
    else
      var key := keys[|keys| - 1];
      Arranged(tabs, keys[..|keys| - 1], lists) + Numbered(tabs, lists[key], key)
  }

  /** The first tab of that id. */
  function FindTab(tabs: seq<Tab>, id: string): Option<Tab> {
    if tabs == [] then None else if tabs[0].id == id then Some(tabs[0]) else FindTab(tabs[1..], id)
  }

  lemma {:induction false} FindTabIs(tabs: seq<Tab>, id: string)
    ensures FindTab(tabs, id).Some? ==> FindTab(tabs, id).value in tabs && FindTab(tabs, id).value.id == id
    ensures FindTab(tabs, id).None? <==> forall t :: t in tabs ==> t.id != id
  {
    if tabs != [] { FindTabIs(tabs[1..], id); }
  }

  predicate SamePlace(tabs: seq<Tab>, t: Tab) {
    var current := TabById(tabs, t.id);
    current.Some? && current.value.group == t.group && current.value.order == t.order
  }

  /** The move can be made: the tab exists, the place is not its own, and the target is in that group. */
  predicate Placeable(tabs: seq<Tab>, groupIds: seq<string>, source: string, target: Option<string>,
      group: Option<string>)
  {
    && FindTab(tabs, source).Some?
    && !(target == Some(source) && FindTab(tabs, source).value.group == group)
    && group in Keys(groupIds)
    && Reaches(Others(tabs, group, source), target)
  }

  lemma SourceIsKnown(tabs: seq<Tab>, source: string)
    requires FindTab(tabs, source).Some?
    ensures TabById(tabs, source).Some?
  {
    FindTabIs(tabs, source);
    TabByIdIs(tabs, source);
  }

  function Next(tabs: seq<Tab>, groupIds: seq<string>, source: string, target: Option<string>,
      group: Option<string>): seq<Tab>
    requires FindTab(tabs, source).Some?
  {
    SourceIsKnown(tabs, source);
    NewListsAreKnown(tabs, Keys(groupIds), source, target, group);
    Arranged(tabs, Keys(groupIds), NewLists(tabs, Keys(groupIds), source, target, group))
  }

  predicate AllStay(tabs: seq<Tab>, next: seq<Tab>) { forall i :: 0 <= i < |next| ==> SamePlace(tabs, next[i]) }

  function Placed(tabs: seq<Tab>, groupIds: seq<string>, source: string, target: Option<string>,
      group: Option<string>): Option<seq<Tab>>
  {
    if !Placeable(tabs, groupIds, source, target, group) then None
    else
      var next := Next(tabs, groupIds, source, target, group);
      if AllStay(tabs, next) then None else Some(next)
  }

  // ------------------------------------------------------------------ as the client does it

  method ListsByGroup(tabs: seq<Tab>, groupKeys: seq<Option<string>>, source: string)
      returns (idsByGroup: map<Option<string>, seq<string>>)
    ensures idsByGroup == map key | key in groupKeys :: Others(tabs, key, source)
  {
    idsByGroup := map[];
    for k := 0 to |groupKeys|
      invariant idsByGroup == map key | key in groupKeys[..k] :: Others(tabs, key, source)
    {
      assert groupKeys[..k + 1] == groupKeys[..k] + [groupKeys[k]];
      idsByGroup := idsByGroup[groupKeys[k] := Others(tabs, groupKeys[k], source)];
    }
    assert groupKeys[..|groupKeys|] == groupKeys;
  }

  /** The list of the target group, with the source spliced in, if the target is there. */
  method SpliceBelow(targetIds: seq<string>, source: string, target: Option<string>, ghost group: Option<string>)
      returns (r: Option<seq<string>>)
    ensures r == if Reaches(targetIds, target) then Some(Moved(targetIds, group, source, target, group)) else None
  {
    var targetIndex := 0;
    if Names(target) {
      targetIndex := IndexOf(targetIds, target.value);
      if targetIndex == |targetIds| { return None; }
      targetIndex := targetIndex + 1;
    }
    r := Some(targetIds[..targetIndex] + [source] + targetIds[targetIndex..]);
  }

  lemma ListsWithMove(tabs: seq<Tab>, keys: seq<Option<string>>, source: string, target: Option<string>,
      group: Option<string>)
    requires group in keys
    ensures (map key | key in keys :: Others(tabs, key, source))[group :=
        Moved(Others(tabs, group, source), group, source, target, group)]
      == NewLists(tabs, keys, source, target, group)
  {
  }

  /** The lists of all groups after the move, unless the target is not in its group. */
  method MovedLists(tabs: seq<Tab>, groupKeys: seq<Option<string>>, source: string, target: Option<string>,
      group: Option<string>)
    returns (r: Option<map<Option<string>, seq<string>>>)
    ensures r == if group in groupKeys && Reaches(Others(tabs, group, source), target)
      then Some(NewLists(tabs, groupKeys, source, target, group)) else None
  {
    var idsByGroup := ListsByGroup(tabs, groupKeys, source);
    if group !in idsByGroup { return None; }
    var targetIds := SpliceBelow(idsByGroup[group], source, target, group);
    if targetIds.None? { return None; }
    ListsWithMove(tabs, groupKeys, source, target, group);
    return Some(idsByGroup[group := targetIds.value]);
  }

  method PlaceTab(tabs: seq<Tab>, groupIds: seq<string>, source: string, target: Option<string>, group: Option<string>)
    returns (result: Option<seq<Tab>>)
    ensures result == Placed(tabs, groupIds, source, target, group)
  {
    var found := FindTab(tabs, source);
    if found.None? || (target == Some(source) && found.value.group == group) { return None; }
    var groupKeys := Keys(groupIds);
    var lists := MovedLists(tabs, groupKeys, source, target, group);
    if lists.None? { return None; }
    SourceIsKnown(tabs, source);
    NewListsAreKnown(tabs, groupKeys, source, target, group);
    var next := Flatten(tabs, groupKeys, lists.value);
    var same := StaysPut(tabs, next);
    result := if same then None else Some(next);
  }

  method StaysPut(tabs: seq<Tab>, next: seq<Tab>) returns (r: bool)
    ensures r == AllStay(tabs, next)
  {
    for k := 0 to |next|
      invariant forall i :: 0 <= i < k ==> SamePlace(tabs, next[i])
    {
      if !SamePlace(tabs, next[k]) { return false; }
    }
    return true;
  }

  method Flatten(tabs: seq<Tab>, keys: seq<Option<string>>, idsByGroup: map<Option<string>, seq<string>>)
      returns (next: seq<Tab>)
    requires AllKnown(tabs, keys, idsByGroup)
    ensures next == Arranged(tabs, keys, idsByGroup)
  {
    next := [];
    for k := 0 to |keys|
      invariant AllKnown(tabs, keys[..k], idsByGroup) && next == Arranged(tabs, keys[..k], idsByGroup)
    {
      assert keys[..k + 1][..k] == keys[..k];
      next := next + Numbered(tabs, idsByGroup[keys[k]], keys[k]);
    }
    assert keys[..|keys|] == keys;
  }

  // ------------------------------------------------------------------ what a placement is

  predicate DistinctIds(tabs: seq<Tab>) { forall i, j :: 0 <= i < j < |tabs| ==> tabs[i].id != tabs[j].id }

  predicate DistinctKeys(keys: seq<Option<string>>) { forall i, j :: 0 <= i < j < |keys| ==> keys[i] != keys[j] }

  lemma {:induction false} NumberedIs(tabs: seq<Tab>, ids: seq<string>, key: Option<string>)
    requires Known(tabs, ids)
    ensures Ids(Numbered(tabs, ids, key)) == ids && Ascending(Numbered(tabs, ids, key), OrderOf())
  {
    var n := Numbered(tabs, ids, key);
    IdsLength(n);
    forall i | 0 <= i < |ids| ensures Ids(n)[i] == ids[i] {
      IdsAt(n, i);
      TabByIdIs(tabs, ids[i]);
    }
  }

  lemma {:induction false} GroupOfConcat(before: seq<Tab>, mine: seq<Tab>, last: Option<string>, key: Option<string>)
    requires forall i :: 0 <= i < |mine| ==> mine[i].group == last
    ensures Filter(before + mine, InGroup(key)) == Filter(before, InGroup(key)) + if last == key then mine else []
  {
    FilterConcat(before, mine, InGroup(key));
    if last == key { FilterEvery(mine, InGroup(key)); } else { FilterNone(mine, InGroup(key)); }
  }

  /** In the arranged list, the tabs of a key are its numbered ids and nothing else. */
  lemma {:induction false} ArrangedGroup(tabs: seq<Tab>, keys: seq<Option<string>>,
      lists: map<Option<string>, seq<string>>, key: Option<string>)
    requires AllKnown(tabs, keys, lists) && DistinctKeys(keys)
    ensures key in keys ==> Filter(Arranged(tabs, keys, lists), InGroup(key)) == Numbered(tabs, lists[key], key)
    ensures key !in keys ==> Filter(Arranged(tabs, keys, lists), InGroup(key)) == []
  {
    if keys != [] {
      var n := |keys| - 1;
      ArrangedGroup(tabs, keys[..n], lists, key);
      GroupOfConcat(Arranged(tabs, keys[..n], lists), Numbered(tabs, lists[keys[n]], keys[n]), keys[n], key);
    }
  }

  lemma {:induction false} ReadBack(tabs: seq<Tab>, next: seq<Tab>, ids: seq<string>, key: Option<string>)
    requires Known(tabs, ids) && Filter(next, InGroup(key)) == Numbered(tabs, ids, key)
    ensures OrderedTabIds(next, key) == ids && forall i :: 0 <= i < |Filter(next, InGroup(key))|
                                                           ==> Filter(next, InGroup(key))[i].order == i
  {
    NumberedIs(tabs, ids, key);
    SortedAlready(Numbered(tabs, ids, key), OrderOf());
  }

  /**
   * Reading the result back group by group gives exactly the moved lists, numbered from zero: the
   * source stands directly after the target, or first, and all others are in their old order.
   */
  lemma {:induction false} PlacedGroups(tabs: seq<Tab>, groupIds: seq<string>, source: string, target: Option<string>,
      group: Option<string>, key: Option<string>)
    requires DistinctKeys(Keys(groupIds)) && FindTab(tabs, source).Some? && key in Keys(groupIds)
    ensures var next := Next(tabs, groupIds, source, target, group);
      && OrderedTabIds(next, key) == Moved(Others(tabs, key, source), key, source, target, group)
      && (forall i :: 0 <= i < |Filter(next, InGroup(key))| ==> Filter(next, InGroup(key))[i].order == i)
  {
    var lists := NewLists(tabs, Keys(groupIds), source, target, group);
    SourceIsKnown(tabs, source);
    NewListsAreKnown(tabs, Keys(groupIds), source, target, group);
    ArrangedGroup(tabs, Keys(groupIds), lists, key);
    ReadBack(tabs, Next(tabs, groupIds, source, target, group), lists[key], key);
  }

  // ------------------------------------------------------------------ every tab once

  /** How many tabs that satisfy `keep` have this id. */
  function Count(tabs: seq<Tab>, keep: Tab -> bool, id: string): nat {
    if tabs == [] then 0 else (if keep(tabs[0]) && tabs[0].id == id then 1 else 0) + Count(tabs[1..], keep, id)
  }

  function AnyOf(keys: seq<Option<string>>): Tab -> bool { (t: Tab) => t.group in keys }

  lemma {:induction false} IdsConcat(a: seq<Tab>, b: seq<Tab>)
    ensures Ids(a + b) == Ids(a) + Ids(b)
  {
    if b == [] {
      assert a + b == a;
    } else {
      IdsConcat(a, b[..|b| - 1]);
      assert (a + b)[..|a + b| - 1] == a + b[..|b| - 1];
    }
  }

  lemma {:induction false} IdsOfInsert(s: seq<Tab>, x: Tab)
    ensures multiset(Ids(Insert(s, x, OrderOf()))) == multiset(Ids(s)) + multiset{x.id}
  {
    if s == [] || OrderOf()(s[|s| - 1]) <= OrderOf()(x) {
      IdsConcat(s, [x]);
    } else {
      IdsOfInsert(s[..|s| - 1], x);
      IdsConcat(Insert(s[..|s| - 1], x, OrderOf()), [s[|s| - 1]]);
    }
  }

  lemma {:induction false} IdsOfSorted(s: seq<Tab>)
    ensures multiset(Ids(Sorted(s, OrderOf()))) == multiset(Ids(s))
  {
    if s != [] {
      IdsOfSorted(s[..|s| - 1]);
      IdsOfInsert(Sorted(s[..|s| - 1], OrderOf()), s[|s| - 1]);
    }
  }

  lemma {:induction false} CountIs(tabs: seq<Tab>, keep: Tab -> bool, id: string)
    ensures multiset(Ids(Filter(tabs, keep)))[id] == Count(tabs, keep, id)
  {
    if tabs != [] {
      CountIs(tabs[1..], keep, id);
      IdsConcat([tabs[0]], Filter(tabs[1..], keep));
    }
  }

  lemma {:induction false} OneMoreKey(tabs: seq<Tab>, keys: seq<Option<string>>, key: Option<string>, id: string)
    requires key !in keys
    ensures Count(tabs, AnyOf(keys + [key]), id) == Count(tabs, AnyOf(keys), id) + Count(tabs, InGroup(key), id)
  {
    if tabs != [] { OneMoreKey(tabs[1..], keys, key, id); }
  }

  lemma {:induction false} OthersCount(ids: seq<string>, source: string, id: string)
    ensures multiset(Filter(ids, Not(source)))[id] == if id == source then 0 else multiset(ids)[id]
  {
    if ids != [] {
      OthersCount(ids[1..], source, id);
      assert ids == [ids[0]] + ids[1..];
    }
  }

  lemma SpliceCount(ids: seq<string>, at: nat, source: string)
    requires at <= |ids|
    ensures multiset(PutIn(ids, at, source)) == multiset(ids) + multiset{source}
  {
    assert ids == ids[..at] + ids[at..];
  }

  lemma {:induction false} MovedCount(others: seq<string>, key: Option<string>, source: string, target: Option<string>,
      group: Option<string>)
    ensures multiset(Moved(others, key, source, target, group)) == multiset(others) + if key == group
        then multiset{source} else multiset{}
  {
    if key == group {
      SpliceCount(others, if Names(target) && target.value in others then IndexOf(others, target.value) + 1
          else 0, source);
    }
  }

  /** One group's new list holds its tabs without the source, and the source if it is the group moved to. */
  lemma {:induction false} ListCount(tabs: seq<Tab>, key: Option<string>, source: string, target: Option<string>,
      group: Option<string>, id: string)
    ensures multiset(Moved(Others(tabs, key, source), key, source, target, group))[id]
      == if id != source then Count(tabs, InGroup(key), id) else if key == group then 1 else 0
  {
    MovedCount(Others(tabs, key, source), key, source, target, group);
    OthersCount(OrderedTabIds(tabs, key), source, id);
    IdsOfSorted(Filter(tabs, InGroup(key)));
    CountIs(tabs, InGroup(key), id);
  }

  lemma {:induction false} ArrangedCount(tabs: seq<Tab>, keys: seq<Option<string>>,
      lists: map<Option<string>, seq<string>>, source: string, group: Option<string>, id: string)
    requires AllKnown(tabs, keys, lists) && DistinctKeys(keys)
    requires forall key :: key in keys ==>
      multiset(lists[key])[id] == if id != source then Count(tabs, InGroup(key), id) else if key == group then 1 else 0
    ensures multiset(Ids(Arranged(tabs, keys, lists)))[id]
      == if id != source then Count(tabs, AnyOf(keys), id) else if group in keys then 1 else 0
  {
    if keys == [] {
      NoneOfNoKeys(tabs, id);
    } else {
      var n := |keys| - 1;
      var last := keys[n];
      assert keys == keys[..n] + [last] && last !in keys[..n];
      ArrangedCount(tabs, keys[..n], lists, source, group, id);
      var before, group' := Arranged(tabs, keys[..n], lists), Numbered(tabs, lists[last], last);
      IdsConcat(before, group');
      NumberedIs(tabs, lists[last], last);
      assert Arranged(tabs, keys, lists) == before + group' && Ids(group') == lists[last];
      OneMoreKey(tabs, keys[..n], last, id);
    }
  }

  lemma {:induction false} NoneOfNoKeys(tabs: seq<Tab>, id: string)
    ensures Count(tabs, AnyOf([]), id) == 0
  {
    if tabs != [] { NoneOfNoKeys(tabs[1..], id); }
  }

  function AnyTab(): Tab -> bool { (t: Tab) => true }

  lemma {:induction false} CountAll(tabs: seq<Tab>, id: string)
    ensures Count(tabs, AnyTab(), id) == multiset(Ids(tabs))[id]
  {
    FilterEvery(tabs, AnyTab());
    CountIs(tabs, AnyTab(), id);
  }

  /** The tabs with this id are all counted exactly if their groups are known. */
  lemma {:induction false} CountKnown(tabs: seq<Tab>, keys: seq<Option<string>>, id: string)
    ensures Count(tabs, AnyOf(keys), id) <= Count(tabs, AnyTab(), id)
    ensures Count(tabs, AnyOf(keys), id) == Count(tabs, AnyTab(), id)
      <==> forall i :: 0 <= i < |tabs| && tabs[i].id == id ==> tabs[i].group in keys
  {
    if tabs != [] {
      var rest := tabs[1..];
      CountKnown(rest, keys, id);
      assert forall i :: 0 <= i < |rest| ==> rest[i] == tabs[i + 1];
      if forall i :: 0 <= i < |rest| && rest[i].id == id ==> rest[i].group in keys {
        forall i | 1 <= i < |tabs| && tabs[i].id == id ensures tabs[i].group in keys { assert tabs[i] == rest[i - 1]; }
      }
    }
  }

  lemma {:induction false} CountsOnce(tabs: seq<Tab>, keep: Tab -> bool, id: string)
    requires DistinctIds(tabs)
    ensures Count(tabs, keep, id) <= 1 && (Count(tabs, keep, id) == 1
        <==> exists t :: t in tabs && keep(t) && t.id == id)
  {
    if tabs != [] {
      var rest := tabs[1..];
      forall i, j | 0 <= i < j < |rest| ensures rest[i].id != rest[j].id { assert rest[i] == tabs[i + 1]
          && rest[j] == tabs[j + 1]; }
      CountsOnce(rest, keep, id);
      assert tabs == [tabs[0]] + rest;
      forall t | t in rest ensures t.id != tabs[0].id { var k :| 0 <= k < |rest| && rest[k] == t; }
    }
  }

  lemma {:induction false} NextCount(tabs: seq<Tab>, keys: seq<Option<string>>, source: string, target: Option<string>,
      group: Option<string>, id: string)
    requires DistinctKeys(keys) && group in keys && AllKnown(tabs, keys, NewLists(tabs, keys, source, target, group))
    ensures multiset(Ids(Arranged(tabs, keys, NewLists(tabs, keys, source, target, group))))[id]
      == if id != source then Count(tabs, AnyOf(keys), id) else 1
  {
    var lists := NewLists(tabs, keys, source, target, group);
    forall key | key in keys
      ensures multiset(lists[key])[id] == if id != source then Count(tabs, InGroup(key), id) else if key == group then 1
          else 0
    {
      ListCount(tabs, key, source, target, group, id);
    }
    ArrangedCount(tabs, keys, lists, source, group, id);
  }

  lemma {:induction false} SourceCount(tabs: seq<Tab>, source: string)
    requires DistinctIds(tabs) && FindTab(tabs, source).Some?
    ensures Count(tabs, AnyTab(), source) == 1
  {
    CountsOnce(tabs, AnyTab(), source);
    FindTabIs(tabs, source);
    assert AnyTab()(FindTab(tabs, source).value);
  }

  /** Every tab but the one that is moved is in a group there is. */
  predicate GroupsKnown(tabs: seq<Tab>, keys: seq<Option<string>>, source: string) {
    forall i :: 0 <= i < |tabs| ==> tabs[i].id == source || tabs[i].group in keys
  }

  /**
   * Placement is a permutation, every tab there once and none new, if and only if the others' groups are
   * known; else it loses tabs.
   */
  lemma {:induction false} PlacedIsPermutation(tabs: seq<Tab>, groupIds: seq<string>, source: string,
      target: Option<string>, group: Option<string>)
    requires DistinctKeys(Keys(groupIds)) && DistinctIds(tabs)
    requires FindTab(tabs, source).Some? && group in Keys(groupIds)
    ensures multiset(Ids(Next(tabs, groupIds, source, target, group))) == multiset(Ids(tabs))
        <==> GroupsKnown(tabs, Keys(groupIds), source)
    ensures multiset(Ids(Next(tabs, groupIds, source, target, group))) <= multiset(Ids(tabs))
  {
    var keys := Keys(groupIds);
    var after, before := multiset(Ids(Next(tabs, groupIds, source, target, group))), multiset(Ids(tabs));
    SourceIsKnown(tabs, source);
    NewListsAreKnown(tabs, keys, source, target, group);
    SourceCount(tabs, source);
    forall id ensures after[id] == if id == source then before[id] else Count(tabs, AnyOf(keys), id) {
      NextCount(tabs, keys, source, target, group, id);
      CountAll(tabs, id);
    }
    forall id
      ensures after[id] <= before[id]
      ensures after[id] == before[id] <==> id == source || forall i :: 0 <= i < |tabs| && tabs[i].id == id
                                                                       ==> tabs[i].group in keys
    {
      CountAll(tabs, id);
      CountKnown(tabs, keys, id);
    }
    if after == before {
      forall i | 0 <= i < |tabs| ensures tabs[i].id == source
          || tabs[i].group in keys { assert after[tabs[i].id] == before[tabs[i].id]; }
    }
  }

  // ------------------------------------------------------------------ doing it again

  lemma {:induction false} NotIn(ids: seq<string>, source: string)
    ensures source !in Filter(ids, Not(source))
    ensures source !in ids ==> Filter(ids, Not(source)) == ids
  {
    if source !in ids { FilterEvery(ids, Not(source)); }
  }

  lemma {:induction false} SpliceThenFilter(a: seq<string>, b: seq<string>, source: string)
    requires source !in a && source !in b
    ensures Filter(a + [source] + b, Not(source)) == a + b
  {
    var keep := Not(source);
    FilterConcat(a + [source], b, keep);
    FilterConcat(a, [source], keep);
    NotIn(a, source);
    NotIn(b, source);
    FilterNone([source], keep);
    var none := Filter([source], keep);
    assert a + none == a;
  }

  lemma {:induction false} MovedWithoutSource(others: seq<string>, key: Option<string>, source: string,
      target: Option<string>, group: Option<string>)
    requires source !in others
    ensures Filter(Moved(others, key, source, target, group), Not(source)) == others
  {
    NotIn(others, source);
    if key == group {
      var at := if Names(target) && target.value in others then IndexOf(others, target.value) + 1 else 0;
      assert others == others[..at] + others[at..];
      SpliceThenFilter(others[..at], others[at..], source);
    }
  }

  /** The lists read back from a placement and moved again are the same lists. */
  lemma {:induction false} SameLists(tabs: seq<Tab>, groupIds: seq<string>, source: string, target: Option<string>,
      group: Option<string>)
    requires DistinctKeys(Keys(groupIds)) && FindTab(tabs, source).Some?
    ensures var next := Next(tabs, groupIds, source, target, group);
      NewLists(next, Keys(groupIds), source, target, group) == NewLists(tabs, Keys(groupIds), source, target, group)
  {
    var next := Next(tabs, groupIds, source, target, group);
    forall key | key in Keys(groupIds) ensures Others(next, key, source) == Others(tabs, key, source) {
      PlacedGroups(tabs, groupIds, source, target, group, key);
      NotIn(OrderedTabIds(tabs, key), source);
      MovedWithoutSource(Others(tabs, key, source), key, source, target, group);
    }
  }

  /** Arranging by the same lists puts every id in the same place. */
  lemma {:induction false} ArrangedAlike(a: seq<Tab>, b: seq<Tab>, keys: seq<Option<string>>,
      lists: map<Option<string>, seq<string>>)
    requires AllKnown(a, keys, lists) && AllKnown(b, keys, lists)
    ensures var x, y := Arranged(a, keys, lists), Arranged(b, keys, lists);
      |x| == |y| && forall i :: 0 <= i < |x| ==> x[i].id == y[i].id && x[i].group == y[i].group
                                                 && x[i].order == y[i].order
  {
    if keys != [] {
      ArrangedAlike(a, b, keys[..|keys| - 1], lists);
      var ids := lists[keys[|keys| - 1]];
      forall i | 0 <= i < |ids| ensures TabById(a, ids[i]).value.id == TabById(b, ids[i]).value.id {
        TabByIdIs(a, ids[i]);
        TabByIdIs(b, ids[i]);
      }
    }
  }

  lemma {:induction false} LaterStays(next: seq<Tab>, again: seq<Tab>)
    requires DistinctIds(next) && |again| == |next|
    requires forall i :: 0 <= i < |next| ==> again[i].id == next[i].id && again[i].group == next[i].group
                                             && again[i].order == next[i].order
    ensures AllStay(next, again)
  {
    forall i | 0 <= i < |again| ensures SamePlace(next, again[i]) {
      TabByIdIs(next, again[i].id);
      assert next[i] in next;
      var found := TabById(next, again[i].id).value;
      var k :| 0 <= k < |next| && next[k] == found;
      assert k == i;
    }
  }

  lemma {:induction false} DistinctFromCounts(tabs: seq<Tab>, more: seq<Tab>)
    requires DistinctIds(tabs) && multiset(Ids(more)) <= multiset(Ids(tabs))
    ensures DistinctIds(more)
  {
    forall i, j | 0 <= i < j < |more| ensures more[i].id != more[j].id {
      if more[i].id == more[j].id {
        IdsAt(more, i);
        IdsAt(more, j);
        TwiceIn(Ids(more), i, j);
        AtMostOnce(tabs, more[i].id);
      }
    }
  }

  lemma TwiceIn(s: seq<string>, i: nat, j: nat)
    requires i < j < |s| && s[i] == s[j]
    ensures multiset(s)[s[i]] >= 2
  {
    assert s == s[..i] + [s[i]] + s[i + 1..j] + [s[j]] + s[j + 1..];
  }

  lemma {:induction false} AtMostOnce(tabs: seq<Tab>, id: string)
    requires DistinctIds(tabs)
    ensures multiset(Ids(tabs))[id] <= 1
  {
    FilterEvery(tabs, (t: Tab) => true);
    CountIs(tabs, (t: Tab) => true, id);
    CountsOnce(tabs, (t: Tab) => true, id);
  }

  lemma {:induction false} NextAgain(tabs: seq<Tab>, groupIds: seq<string>, source: string, target: Option<string>,
      group: Option<string>)
    requires DistinctKeys(Keys(groupIds)) && FindTab(tabs, source).Some?
    requires FindTab(Next(tabs, groupIds, source, target, group), source).Some?
    ensures var next := Next(tabs, groupIds, source, target, group);
      var again := Next(next, groupIds, source, target, group);
      |again| == |next| && forall i :: 0 <= i < |next| ==>
        again[i].id == next[i].id && again[i].group == next[i].group && again[i].order == next[i].order
  {
    var next := Next(tabs, groupIds, source, target, group);
    var keys := Keys(groupIds);
    SameLists(tabs, groupIds, source, target, group);
    SourceIsKnown(tabs, source);
    SourceIsKnown(next, source);
    NewListsAreKnown(tabs, keys, source, target, group);
    NewListsAreKnown(next, keys, source, target, group);
    ArrangedAlike(tabs, next, keys, NewLists(tabs, keys, source, target, group));
  }

  /** Repeating a placement on its own result changes nothing, and says so. */
  lemma {:induction false} PlacingAgainIsNothing(tabs: seq<Tab>, groupIds: seq<string>, source: string,
      target: Option<string>, group: Option<string>)
    requires DistinctKeys(Keys(groupIds)) && DistinctIds(tabs) && Placed(tabs, groupIds, source, target, group).Some?
    ensures Placed(Placed(tabs, groupIds, source, target, group).value, groupIds, source, target, group).None?
  {
    var next := Next(tabs, groupIds, source, target, group);
    PlacedIsPermutation(tabs, groupIds, source, target, group);
    DistinctFromCounts(tabs, next);
    if Placeable(next, groupIds, source, target, group) {
      NextAgain(tabs, groupIds, source, target, group);
      LaterStays(next, Next(next, groupIds, source, target, group));
    }
  }

  // ------------------------------------------------------------------ groups

  function RankOf(): Group -> int { (g: Group) => g.order }

  function FindGroup(groups: seq<Group>, id: string): (i: nat)
    ensures i <= |groups| && (i < |groups| ==> groups[i].id == id)
    ensures forall k :: 0 <= k < i ==> groups[k].id != id
  {
    if groups == [] || groups[0].id == id then 0 else 1 + FindGroup(groups[1..], id)
  }

  function Renumbered(groups: seq<Group>): (r: seq<Group>)
    ensures |r| == |groups| && forall i :: 0 <= i < |r| ==> r[i] == groups[i].(order := i)
  {
    seq(|groups|, i requires 0 <= i < |groups| => groups[i].(order := i))
  }

  predicate SameIds(a: seq<Group>, b: seq<Group>) { |a| == |b| && forall i :: 0 <= i < |a| ==> a[i].id == b[i].id }

  function TakenOut<T>(s: seq<T>, i: nat): (r: seq<T>)
    requires i < |s|
    ensures |r| == |s| - 1
  {
    s[..i] + s[i + 1..]
  }

  function PutIn<T>(s: seq<T>, at: nat, x: T): (r: seq<T>)
    requires at <= |s|
    ensures |r| == |s| + 1
  {
    s[..at] + [x] + s[at..]
  }

  lemma PutInIs<T>(s: seq<T>, at: nat, x: T)
    requires at <= |s|
    ensures multiset(PutIn(s, at, x)) == multiset(s) + multiset{x}
    ensures PutIn(s, at, x)[at] == x && TakenOut(PutIn(s, at, x), at) == s
        && (at > 0 ==> PutIn(s, at, x)[at - 1] == s[at - 1])
  {
    assert s == s[..at] + s[at..];
  }

  lemma TakenOutIs<T>(s: seq<T>, i: nat)
    requires i < |s|
    ensures multiset(TakenOut(s, i)) + multiset{s[i]} == multiset(s) && PutIn(TakenOut(s, i), i, s[i]) == s
  {
    assert s == s[..i] + [s[i]] + s[i + 1..];
  }

  /** The groups in order, with the source below the target; the order is not renumbered yet. */
  function Rearranged(groups: seq<Group>, source: string, target: string): Option<seq<Group>> {
    var ordered := Sorted(groups, RankOf());
    var i := FindGroup(ordered, source);
    if source == target || i == |ordered| then None
    else
      var rest := TakenOut(ordered, i);
      var t := FindGroup(rest, target);
      if t == |rest| then None else Some(PutIn(rest, t + 1, ordered[i]))
  }

  function GroupPlaced(groups: seq<Group>, source: string, target: string): Option<seq<Group>> {
    var r := Rearranged(groups, source, target);
    if r.None? || SameIds(r.value, Sorted(groups, RankOf())) then None else Some(Renumbered(r.value))
  }

  method PlaceGroupAfter(groups: seq<Group>, source: string, target: string) returns (result: Option<seq<Group>>)
    ensures result == GroupPlaced(groups, source, target)
  {
    if source == target { return None; }
    var ordered := Sorted(groups, RankOf());
    var original := ordered;
    var from := FindGroup(ordered, source);
    if from == |ordered| { return None; }
    var moved := ordered[from];
    ordered := ordered[..from] + ordered[from + 1..];
    var below := FindGroup(ordered, target);
    if below == |ordered| { return None; }
    ordered := ordered[..below + 1] + [moved] + ordered[below + 1..];
    if SameIds(ordered, original) { return None; }
    return Some(Renumbered(ordered));
  }

  predicate DistinctGroups(groups: seq<Group>) { forall i, j :: 0 <= i < j < |groups| ==> groups[i].id != groups[j].id }

  /** All groups, the source directly below the target, and the others in their old order. */
  lemma {:induction false} RearrangedIs(groups: seq<Group>, source: string, target: string)
    requires Rearranged(groups, source, target).Some?
    ensures
      var ordered, r := Sorted(groups, RankOf()), Rearranged(groups, source, target).value;
      var i, rest := FindGroup(ordered, source), TakenOut(ordered, FindGroup(ordered, source));
      var t := FindGroup(rest, target);
      && multiset(r) == multiset(groups)
      && r[t].id == target && r[t + 1] == ordered[i] && ordered[i].id == source && TakenOut(r, t + 1) == rest
  {
    SortedIs(groups, RankOf());
    var ordered := Sorted(groups, RankOf());
    var i := FindGroup(ordered, source);
    MoveIs(ordered, i, FindGroup(TakenOut(ordered, i), target));
  }

  lemma MoveIs<T>(s: seq<T>, i: nat, t: nat)
    requires i < |s| && t < |TakenOut(s, i)|
    ensures var rest := TakenOut(s, i); var r := PutIn(rest, t + 1, s[i]);
      multiset(r) == multiset(s) && r[t] == rest[t] && r[t + 1] == s[i] && TakenOut(r, t + 1) == rest
  {
    TakenOutIs(s, i);
    PutInIs(TakenOut(s, i), t + 1, s[i]);
  }

  lemma FindIs(groups: seq<Group>, id: string, i: nat)
    requires i < |groups| && groups[i].id == id && forall k :: 0 <= k < i ==> groups[k].id != id
    ensures FindGroup(groups, id) == i
  {
  }

  /** Placing a group again where it stands now, directly below the target, is nothing. */
  lemma {:induction false} BelowTargetStays(next: seq<Group>, source: string, target: string, t: nat)
    requires DistinctGroups(next) && Ascending(next, RankOf()) && source != target
    requires t + 1 < |next| && next[t].id == target && next[t + 1].id == source
    ensures GroupPlaced(next, source, target).None?
  {
    SortedAlready(next, RankOf());
    FindIs(next, source, t + 1);
    var rest := TakenOut(next, t + 1);
    FindIs(rest, target, t);
    TakenOutIs(next, t + 1);
  }

  lemma {:induction false} SwappedDistinct(ordered: seq<Group>, i: nat, at: nat)
    requires DistinctGroups(ordered) && i < |ordered| && at <= |ordered| - 1
    ensures var rest := TakenOut(ordered, i); DistinctGroups(PutIn(rest, at, ordered[i]))
  {
    var rest := TakenOut(ordered, i);
    forall k | 0 <= k < |rest| ensures rest[k] == ordered[if k < i then k else k + 1] { }
    var r := PutIn(rest, at, ordered[i]);
    forall a, b | 0 <= a < b < |r| ensures r[a].id != r[b].id {
      assert a < at ==> r[a] == rest[a];
      assert a > at ==> r[a] == rest[a - 1];
      assert b < at ==> r[b] == rest[b];
      assert b > at ==> r[b] == rest[b - 1];
    }
  }

  lemma {:induction false} InsertDistinct(s: seq<Group>, x: Group)
    requires DistinctGroups(s) && forall i :: 0 <= i < |s| ==> s[i].id != x.id
    ensures DistinctGroups(Insert(s, x, RankOf()))
    ensures forall g :: g in Insert(s, x, RankOf()) <==> g in s || g == x
  {
    if s != [] && RankOf()(s[|s| - 1]) > RankOf()(x) {
      var n := |s| - 1;
      InsertDistinct(s[..n], x);
      var r := Insert(s[..n], x, RankOf());
      assert s == s[..n] + [s[n]];
      forall k | 0 <= k < |r| ensures r[k].id != s[n].id { assert r[k] in r; }
    }
  }

  lemma {:induction false} SortedDistinct(s: seq<Group>)
    requires DistinctGroups(s)
    ensures DistinctGroups(Sorted(s, RankOf())) && forall g :: g in Sorted(s, RankOf()) <==> g in s
  {
    if s != [] {
      var n := |s| - 1;
      SortedDistinct(s[..n]);
      var r := Sorted(s[..n], RankOf());
      assert s == s[..n] + [s[n]];
      forall k | 0 <= k < |r| ensures r[k].id != s[n].id { assert r[k] in r; }
      InsertDistinct(r, s[n]);
    }
  }

  lemma {:induction false} RearrangedBelow(groups: seq<Group>, source: string, target: string) returns (t: nat)
    requires DistinctGroups(groups) && Rearranged(groups, source, target).Some?
    ensures var r := Rearranged(groups, source, target).value;
      DistinctGroups(r) && t + 1 < |r| && r[t].id == target && r[t + 1].id == source
  {
    var ordered := Sorted(groups, RankOf());
    var i := FindGroup(ordered, source);
    t := FindGroup(TakenOut(ordered, i), target);
    SortedDistinct(groups);
    RearrangedIs(groups, source, target);
    SwappedDistinct(ordered, i, t + 1);
  }

  /** Repeating a group's placement on its own result changes nothing, and says so. */
  lemma {:induction false} PlacingGroupAgainIsNothing(groups: seq<Group>, source: string, target: string)
    requires DistinctGroups(groups) && GroupPlaced(groups, source, target).Some?
    ensures GroupPlaced(GroupPlaced(groups, source, target).value, source, target).None?
  {
    var t := RearrangedBelow(groups, source, target);
    var next := GroupPlaced(groups, source, target).value;
    BelowTargetStays(next, source, target, t);
  }
}
