/** When a placement does something, and where what is placed stands afterwards. */
module PlacementOutcomes {
  import opened Common
  import opened Placement

  // ------------------------------------------------------------------ tabs

  lemma {:induction false} IdsAre(tabs: seq<Tab>, id: string)
    ensures id in Ids(tabs) <==> exists t :: t in tabs && t.id == id
  {
    if tabs != [] {
      var n := |tabs| - 1;
      IdsAre(tabs[..n], id);
      assert tabs == tabs[..n] + [tabs[n]];
    }
  }

  /** The other tabs of a group. */
  lemma {:induction false} OthersAre(tabs: seq<Tab>, key: Option<string>, source: string, id: string)
    ensures id in Others(tabs, key, source) <==> id != source && exists t :: t in tabs && t.group == key && t.id == id
  {
    var mine := Filter(tabs, InGroup(key));
    var sorted := Sorted(mine, OrderOf());
    SortedIs(mine, OrderOf());
    IdsAre(sorted, id);
    forall t ensures t in sorted <==> t in tabs && t.group == key {
      assert t in sorted <==> t in multiset(sorted);
      assert t in mine <==> t in multiset(mine);
    }
  }

  /** A tab there is is moved to a group there is: first, or below another tab of that group. */
  ghost predicate CanMove(tabs: seq<Tab>, groupIds: seq<string>, source: string, target: Option<string>,
      group: Option<string>)
  {
    && (exists t :: t in tabs && t.id == source) && (group.None? || group.value in groupIds)
    && (target.Some? && target.value != "" ==>
          target.value != source && exists t :: t in tabs && t.group == group && t.id == target.value)
  }

  lemma GroupIsKnown(groupIds: seq<string>, group: Option<string>)
    ensures group in Keys(groupIds) <==> group.None? || group.value in groupIds
  {
    var keys := Keys(groupIds);
    assert keys[|groupIds|] == None;
    if group.Some? && group.value in groupIds {
      var i :| 0 <= i < |groupIds| && groupIds[i] == group.value;
      assert keys[i] == group;
    }
  }

  /** A move is made if and only if it can be made and its tab is not dropped on itself, which may have no name. */
  lemma {:induction false} PlaceableIs(tabs: seq<Tab>, groupIds: seq<string>, source: string, target: Option<string>,
      group: Option<string>)
    ensures Placeable(tabs, groupIds, source, target, group)
      <==> CanMove(tabs, groupIds, source, target, group)
           && !(source == "" && target == Some("") && FindTab(tabs, source).Some?
                && FindTab(tabs, source).value.group == group)
  {
    FindTabIs(tabs, source);
    GroupIsKnown(groupIds, group);
    if target.Some? { OthersAre(tabs, group, source, target.value); }
  }

  lemma {:induction false} PlaceIsItsOwn(tabs: seq<Tab>, t: Tab)
    requires DistinctIds(tabs) && TabById(tabs, t.id).Some?
    requires t == TabById(tabs, t.id).value.(group := t.group, order := t.order)
    ensures SamePlace(tabs, t) <==> t in tabs
  {
    TabByIdIs(tabs, t.id);
    var known := TabById(tabs, t.id).value;
    if t in tabs {
      var i :| 0 <= i < |tabs| && tabs[i] == t;
      var j :| 0 <= j < |tabs| && tabs[j] == known;
      assert i == j;
    }
  }

  lemma {:induction false} ArrangedAreTabs(tabs: seq<Tab>, keys: seq<Option<string>>,
      lists: map<Option<string>, seq<string>>, i: nat)
    requires AllKnown(tabs, keys, lists) && i < |Arranged(tabs, keys, lists)|
    ensures
      var t := Arranged(tabs, keys, lists)[i];
      TabById(tabs, t.id).Some? && t == TabById(tabs, t.id).value.(group := t.group, order := t.order)
  {
    var n := |keys| - 1;
    var before := Arranged(tabs, keys[..n], lists);
    if i < |before| { ArrangedAreTabs(tabs, keys[..n], lists, i); }
    else {
      var ids := lists[keys[n]];
      TabByIdIs(tabs, ids[i - |before|]);
    }
  }

  /**
   * A placement gives a list, and then that of the move, if and only if the move can be made and some tab then stands
   * elsewhere, in another group or at another number.
   */
  lemma {:induction false} PlacedOutcome(tabs: seq<Tab>, groupIds: seq<string>, source: string, target: Option<string>,
      group: Option<string>)
    requires DistinctIds(tabs) && source != ""
    ensures
      var r := Placed(tabs, groupIds, source, target, group);
      if !CanMove(tabs, groupIds, source, target, group) then r.None?
      else
        FindTab(tabs, source).Some?
        && var next := Next(tabs, groupIds, source, target, group);
           r == if forall t :: t in next ==> t in tabs then None else Some(next)
  {
    PlaceableIs(tabs, groupIds, source, target, group);
    if CanMove(tabs, groupIds, source, target, group) {
      var next := Next(tabs, groupIds, source, target, group);
      var lists := NewLists(tabs, Keys(groupIds), source, target, group);
      SourceIsKnown(tabs, source);
      NewListsAreKnown(tabs, Keys(groupIds), source, target, group);
      forall i | 0 <= i < |next| ensures SamePlace(tabs, next[i]) <==> next[i] in tabs {
        ArrangedAreTabs(tabs, Keys(groupIds), lists, i);
        PlaceIsItsOwn(tabs, next[i]);
      }
      AllStayIs(tabs, next);
    }
  }

  lemma AllStayIs(tabs: seq<Tab>, next: seq<Tab>)
    requires forall i :: 0 <= i < |next| ==> (SamePlace(tabs, next[i]) <==> next[i] in tabs)
    ensures AllStay(tabs, next) <==> forall t :: t in next ==> t in tabs
  {
    if forall t :: t in next ==> t in tabs {
      forall i | 0 <= i < |next| ensures SamePlace(tabs, next[i]) { assert next[i] in next; }
    }
  }

  predicate StandsAt(ids: seq<string>, i: nat, others: seq<string>, source: string, target: Option<string>) {
    && i < |ids| && ids[i] == source && ids[..i] + ids[i + 1..] == others
    && if target.Some? && target.value != "" then i > 0 && ids[i - 1] == target.value else i == 0
  }

  /** `ids` is `others` with the source in it, directly below the target, or first if none is named. */
  ghost predicate StandsBelow(ids: seq<string>, others: seq<string>, source: string, target: Option<string>) {
    exists i: nat :: StandsAt(ids, i, others, source, target)
  }

  /**
   * Read back group by group, the source stands in its new group where it was dropped, and every other tab stands
   * among the others of its group as before.
   */
  lemma {:induction false} PlacedStands(tabs: seq<Tab>, groupIds: seq<string>, source: string, target: Option<string>,
      group: Option<string>, key: Option<string>)
    requires DistinctKeys(Keys(groupIds)) && CanMove(tabs, groupIds, source, target, group) && key in Keys(groupIds)
    ensures FindTab(tabs, source).Some?
    ensures
      var next := Next(tabs, groupIds, source, target, group);
      if key == group then StandsBelow(OrderedTabIds(next, key), Others(tabs, key, source), source, target)
      else OrderedTabIds(next, key) == Others(tabs, key, source)
  {
    FindTabIs(tabs, source);
    PlacedGroups(tabs, groupIds, source, target, group, key);
    if key == group {
      if Names(target) { OthersAre(tabs, group, source, target.value); }
      MovedStands(Others(tabs, group, source), source, target, group);
    }
  }

  lemma MovedStands(others: seq<string>, source: string, target: Option<string>, group: Option<string>)
    requires Reaches(others, target)
    ensures StandsBelow(Moved(others, group, source, target, group), others, source, target)
  {
    SplicedStands(others, if Names(target) then IndexOf(others, target.value) + 1 else 0, source, target);
  }

  lemma SplicedStands(others: seq<string>, at: nat, source: string, target: Option<string>)
    requires at <= |others|
    requires if target.Some? && target.value != "" then at > 0 && others[at - 1] == target.value else at == 0
    ensures StandsBelow(PutIn(others, at, source), others, source, target)
  {
    var ids := PutIn(others, at, source);
    assert ids[..at] == others[..at] && ids[at + 1..] == others[at..] && others[..at] + others[at..] == others;
    assert at > 0 ==> ids[at - 1] == others[at - 1];
    assert StandsAt(ids, at, others, source, target);
  }

  // ------------------------------------------------------------------ groups

  /** The source stands directly below the target. */
  predicate Below(groups: seq<Group>, source: string, target: string) {
    exists t :: 0 <= t < |groups| - 1 && groups[t].id == target && groups[t + 1].id == source
  }

  predicate HasGroup(groups: seq<Group>, id: string) { exists g :: g in groups && g.id == id }

  lemma HasGroupIs(groups: seq<Group>, id: string)
    ensures HasGroup(groups, id) <==> FindGroup(groups, id) < |groups|
  {
    var i := FindGroup(groups, id);
    if i < |groups| { assert groups[i] in groups; }
  }

  lemma {:induction false} RestHas(ordered: seq<Group>, i: nat, target: string)
    requires i < |ordered| && ordered[i].id != target
    ensures HasGroup(TakenOut(ordered, i), target) <==> HasGroup(ordered, target)
  {
    var rest := TakenOut(ordered, i);
    forall k | 0 <= k < |rest| ensures rest[k] == ordered[if k < i then k else k + 1] { }
    if g :| g in ordered && g.id == target {
      var k :| 0 <= k < |ordered| && ordered[k] == g;
      assert rest[if k < i then k else k - 1] == g;
    }
  }

  lemma {:induction false} RearrangedExists(groups: seq<Group>, source: string, target: string)
    requires DistinctGroups(groups)
    ensures Rearranged(groups, source, target).Some?
      <==> source != target && HasGroup(groups, source) && HasGroup(groups, target)
  {
    var ordered := Sorted(groups, RankOf());
    SortedDistinct(groups);
    HasGroupIs(ordered, source);
    var i := FindGroup(ordered, source);
    assert HasGroup(ordered, source) <==> HasGroup(groups, source);
    assert HasGroup(ordered, target) <==> HasGroup(groups, target);
    if i < |ordered| && source != target {
      var rest := TakenOut(ordered, i);
      HasGroupIs(rest, target);
      RestHas(ordered, i, target);
    }
  }

  /**
   * A group's placement gives a list if and only if both groups are there, are not one, and the source does not stand
   * directly below the target already.
   */
  lemma {:induction false} GroupPlacedOutcome(groups: seq<Group>, source: string, target: string)
    requires DistinctGroups(groups)
    ensures GroupPlaced(groups, source, target).Some?
      <==> source != target && HasGroup(groups, source) && HasGroup(groups, target)
           && !Below(Sorted(groups, RankOf()), source, target)
  {
    RearrangedExists(groups, source, target);
    if Rearranged(groups, source, target).Some? {
      SortedDistinct(groups);
      var ordered, r := Sorted(groups, RankOf()), Rearranged(groups, source, target).value;
      var t := RearrangedBelow(groups, source, target);
      if SameIds(r, ordered) { assert ordered[t].id == target && ordered[t + 1].id == source; }
      if Below(ordered, source, target) {
        var k :| 0 <= k < |ordered| - 1 && ordered[k].id == target && ordered[k + 1].id == source;
        AlreadyBelow(ordered, source, target, k);
      }
    }
  }

  lemma {:induction false} AlreadyBelow(ordered: seq<Group>, source: string, target: string, k: nat)
    requires DistinctGroups(ordered) && k + 1 < |ordered| && ordered[k].id == target && ordered[k + 1].id == source
    ensures FindGroup(ordered, source) == k + 1 && FindGroup(TakenOut(ordered, k + 1), target) == k
    ensures PutIn(TakenOut(ordered, k + 1), k + 1, ordered[k + 1]) == ordered
  {
    FindIs(ordered, source, k + 1);
    var rest := TakenOut(ordered, k + 1);
    forall i | 0 <= i < k ensures rest[i].id != target { assert rest[i] == ordered[i]; }
    FindIs(rest, target, k);
    TakenOutIs(ordered, k + 1);
  }

  /** Then the groups are numbered as they stand, the source directly below the target, all else as it was. */
  lemma {:induction false} GroupStands(groups: seq<Group>, source: string, target: string)
    requires DistinctGroups(groups) && GroupPlaced(groups, source, target).Some?
    ensures
      var r := GroupPlaced(groups, source, target).value;
      && Below(r, source, target) && |r| == |groups|
      && forall i :: 0 <= i < |r| ==> r[i].order == i && exists g :: g in groups && r[i] == g.(order := i)
  {
    var t := RearrangedBelow(groups, source, target);
    RearrangedKeeps(groups, source, target);
    var moved, r := Rearranged(groups, source, target).value, GroupPlaced(groups, source, target).value;
    assert r[t].id == target && r[t + 1].id == source;
    forall i | 0 <= i < |r| ensures r[i].order == i && exists g :: g in groups && r[i] == g.(order := i) {
      assert moved[i] in groups && r[i] == moved[i].(order := i);
    }
  }

  lemma RearrangedKeeps(groups: seq<Group>, source: string, target: string)
    requires Rearranged(groups, source, target).Some?
    ensures
      var moved := Rearranged(groups, source, target).value;
      |moved| == |groups| && forall i :: 0 <= i < |moved| ==> moved[i] in groups
  {
    RearrangedIs(groups, source, target);
    SameElements(groups, Rearranged(groups, source, target).value);
  }

  lemma SameElements(a: seq<Group>, b: seq<Group>)
    requires multiset(a) == multiset(b)
    ensures |a| == |b| && forall i :: 0 <= i < |b| ==> b[i] in a
  {
    assert |multiset(a)| == |multiset(b)|;
    forall i | 0 <= i < |b| ensures b[i] in a { assert b[i] in multiset(b); }
  }
}
