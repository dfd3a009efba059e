/**
 * The section navigation of the healthcare benefits survey page: sections
 * gathered into navigation groups, the set of open groups, and which groups
 * count as completed.
 */
module Navigation {
  import opened Options

  /** A section's `navigationGroup`. */
  datatype GroupTag = GroupTag(id: string, title: string, icon: Option<string>)

  /** The parts of a survey section that navigation reads. */
  datatype Section = Section(id: string, title: string, icon: Option<string>, group: Option<GroupTag>)

  /** A navigation entry: the indices of the sections listed under it. */
  datatype Group = Group(id: string, title: string, icon: Option<string>, collapsible: bool, items: seq<nat>)

  // Grouping.

  /** The position of the collapsible group named `id`, or `|gs|` when
      there is none (the `groupIndexMap` lookup). */
  function FindGroup(gs: seq<Group>, id: string): (k: nat)
    ensures k <= |gs|
    ensures k < |gs| ==> gs[k].collapsible && gs[k].id == id
    ensures forall j :: 0 <= j < k ==> !(gs[j].collapsible && gs[j].id == id)
  {
    if |gs| == 0 then 0
    else if gs[0].collapsible && gs[0].id == id then 0
    else 1 + FindGroup(gs[1..], id)
  }

  /** One step of the `forEach`: section `s` at index `i` joins the group of
      its tag, opens a new collapsible group for a tag not seen before, or
      gets a group of its own when it has no tag. */
  function Place(gs: seq<Group>, s: Section, i: nat): seq<Group> {
    match s.group
    case Some(t) =>
      var k := FindGroup(gs, t.id);
      if k < |gs| then gs[k := gs[k].(items := gs[k].items + [i])]
      else gs + [Group(t.id, t.title, if t.icon.Some? then t.icon else s.icon, true, [i])]
    case None => gs + [Group(s.id, s.title, s.icon, false, [i])]
  }

  /** The groups once sections `i` onwards are placed into `gs`. */
  function GroupsFrom(gs: seq<Group>, ss: seq<Section>, i: nat): seq<Group>
    requires i <= |ss|
    decreases |ss| - i
  {
    if i == |ss| then gs else GroupsFrom(Place(gs, ss[i], i), ss, i + 1)
  }

  /** `groupedSections`. */
  function GroupSections(ss: seq<Section>): seq<Group> {
    GroupsFrom([], ss, 0)
  }

  // What a grouping promises.

  /** Each group lists its sections in increasing index order, at least
      one, all below `n`. */
  predicate Ordered(gs: seq<Group>, n: nat) {
    (forall g :: 0 <= g < |gs| ==> |gs[g].items| > 0)
    && (forall g, a :: 0 <= g < |gs| && 0 <= a < |gs[g].items| ==> gs[g].items[a] < n)
    && (forall g, a, b :: 0 <= g < |gs| && 0 <= a < b < |gs[g].items| ==> gs[g].items[a] < gs[g].items[b])
  }

  /** Some group lists index `i`. */
  predicate Listed(gs: seq<Group>, i: nat) {
    exists g :: 0 <= g < |gs| && i in gs[g].items
  }

  /** Every index below `n` is listed somewhere. */
  predicate Covered(gs: seq<Group>, n: nat) {
    forall i: nat :: i < n ==> Listed(gs, i)
  }

  /** No index is listed under two groups. */
  predicate Disjoint(gs: seq<Group>) {
    forall g1, g2, a, b :: 0 <= g1 < g2 < |gs| && 0 <= a < |gs[g1].items| && 0 <= b < |gs[g2].items|
      ==> gs[g1].items[a] != gs[g2].items[b]
  }

  /** A section belongs to a group: the collapsible group of its tag, or a
      group that is not collapsible when it has no tag. */
  predicate Belongs(grp: Group, s: Section) {
    match s.group
    case Some(t) => grp.collapsible && grp.id == t.id
    case None => !grp.collapsible
  }

  /** A group takes its heading from the first section listed: the tag's
      title and icon (the section's icon when the tag has none), or the
      untagged section's own id, title and icon, alone in its group. */
  predicate Headed(grp: Group, s: Section) {
    match s.group
    case Some(t) => grp.title == t.title && grp.icon == (if t.icon.Some? then t.icon else s.icon)
    case None => grp.id == s.id && grp.title == s.title && grp.icon == s.icon && |grp.items| == 1
  }

  predicate Fits(gs: seq<Group>, ss: seq<Section>)
    requires Ordered(gs, |ss|)
  {
    (forall g, a :: 0 <= g < |gs| && 0 <= a < |gs[g].items| ==> Belongs(gs[g], ss[gs[g].items[a]]))
    && forall g :: 0 <= g < |gs| ==> Headed(gs[g], ss[gs[g].items[0]])
  }

  /** Collapsible groups have distinct ids. */
  predicate UniqueIds(gs: seq<Group>) {
    forall g1, g2 :: 0 <= g1 < g2 < |gs| && gs[g1].collapsible && gs[g2].collapsible ==> gs[g1].id != gs[g2].id
  }

  /** Groups appear in the order their first sections do. */
  predicate FirstSeen(gs: seq<Group>)
    requires forall g :: 0 <= g < |gs| ==> |gs[g].items| > 0
  {
    forall g1, g2 :: 0 <= g1 < g2 < |gs| ==> gs[g1].items[0] < gs[g2].items[0]
  }

  predicate Grouping(gs: seq<Group>, ss: seq<Section>, n: nat)
    requires n <= |ss|
  {
    Ordered(gs, n) && Covered(gs, n) && Disjoint(gs) && UniqueIds(gs) && FirstSeen(gs)
    && (Ordered(gs, |ss|) && Fits(gs, ss))
  }

  /** Placing section `n` into a grouping of the first `n` sections gives a
      grouping of the first `n + 1`. */
  lemma PlaceKeeps(gs: seq<Group>, ss: seq<Section>, n: nat)
    requires n < |ss| && Grouping(gs, ss, n)
    ensures Grouping(Place(gs, ss[n], n), ss, n + 1)
  {
    var s := ss[n];
    match s.group
    case Some(t) =>
      var k := FindGroup(gs, t.id);
      if k < |gs| {
        var r := gs[k := gs[k].(items := gs[k].items + [n])];
        JoinOrdered(gs, r, n, k, |ss|);
        JoinCovered(gs, r, n, k);
        JoinDisjoint(gs, r, n, k);
        JoinFits(gs, r, ss, n, k);
      } else {
        var added := Group(t.id, t.title, if t.icon.Some? then t.icon else s.icon, true, [n]);
        OpenKeeps(gs, gs + [added], ss, n, added);
        OpenFits(gs, gs + [added], ss, n, added);
      }
    case None =>
      var added := Group(s.id, s.title, s.icon, false, [n]);
      OpenKeeps(gs, gs + [added], ss, n, added);
      OpenFits(gs, gs + [added], ss, n, added);
  }

  lemma JoinOrdered(gs: seq<Group>, r: seq<Group>, n: nat, k: nat, m: nat)
    requires Ordered(gs, n) && n < m && k < |gs| && r == gs[k := gs[k].(items := gs[k].items + [n])]
    ensures Ordered(r, n + 1) && Ordered(r, m)
    ensures forall g :: 0 <= g < |r| ==> r[g].items[0] == gs[g].items[0] && r[g].id == gs[g].id && r[g].collapsible == gs[g].collapsible
  {
    assert forall g :: 0 <= g < |r| && g != k ==> r[g] == gs[g];
  }

  lemma JoinCovered(gs: seq<Group>, r: seq<Group>, n: nat, k: nat)
    requires Covered(gs, n) && k < |gs| && r == gs[k := gs[k].(items := gs[k].items + [n])]
    ensures Covered(r, n + 1)
  {
    forall i: nat | i < n + 1 ensures Listed(r, i) {
      if i == n {
        assert i in r[k].items;
      } else {
        assert Listed(gs, i);
        var g :| 0 <= g < |gs| && i in gs[g].items;
        assert i in r[g].items;
      }
    }
  }

  lemma JoinDisjoint(gs: seq<Group>, r: seq<Group>, n: nat, k: nat)
    requires Disjoint(gs) && Ordered(gs, n) && k < |gs| && r == gs[k := gs[k].(items := gs[k].items + [n])]
    ensures Disjoint(r)
  {
    forall g1, g2, a, b | 0 <= g1 < g2 < |r| && 0 <= a < |r[g1].items| && 0 <= b < |r[g2].items|
      ensures r[g1].items[a] != r[g2].items[b]
    {
      if g1 == k && a == |gs[k].items| {
        assert r[g2] == gs[g2];
      } else if g2 == k && b == |gs[k].items| {
        assert r[g1] == gs[g1];
      } else {
        assert r[g1].items[a] == gs[g1].items[a];
        assert r[g2].items[b] == gs[g2].items[b];
      }
    }
  }

  lemma JoinFits(gs: seq<Group>, r: seq<Group>, ss: seq<Section>, n: nat, k: nat)
    requires n < |ss| && Ordered(gs, n) && Ordered(gs, |ss|) && Fits(gs, ss)
    requires ss[n].group.Some? && k < |gs| && gs[k].collapsible && gs[k].id == ss[n].group.value.id
    requires r == gs[k := gs[k].(items := gs[k].items + [n])]
    ensures Ordered(r, |ss|) && Fits(r, ss)
  {
    JoinOrdered(gs, r, n, k, |ss|);
    forall g, a | 0 <= g < |r| && 0 <= a < |r[g].items| ensures Belongs(r[g], ss[r[g].items[a]]) {
      if g != k || a < |gs[k].items| {
        assert r[g].items[a] == gs[g].items[a];
      }
    }
    forall g | 0 <= g < |r| ensures Headed(r[g], ss[r[g].items[0]]) {
      assert Headed(gs[g], ss[gs[g].items[0]]);
    }
  }

  lemma OpenKeeps(gs: seq<Group>, r: seq<Group>, ss: seq<Section>, n: nat, added: Group)
    requires n < |ss| && Grouping(gs, ss, n) && r == gs + [added]
    requires added.items == [n]
    requires added.collapsible ==> forall j :: 0 <= j < |gs| ==> !(gs[j].collapsible && gs[j].id == added.id)
    ensures Ordered(r, n + 1) && Ordered(r, |ss|) && Covered(r, n + 1) && Disjoint(r) && UniqueIds(r) && FirstSeen(r)
  {
    OpenOrdered(gs, r, n, |ss|, added);
    OpenCovered(gs, r, n, added);
    OpenDisjoint(gs, r, n, added);
    assert forall g :: 0 <= g < |gs| ==> r[g] == gs[g];
  }

  lemma OpenOrdered(gs: seq<Group>, r: seq<Group>, n: nat, m: nat, added: Group)
    requires Ordered(gs, n) && n < m && r == gs + [added] && added.items == [n]
    ensures Ordered(r, n + 1) && Ordered(r, m)
  {
    assert forall g :: 0 <= g < |gs| ==> r[g] == gs[g];
  }

  lemma OpenCovered(gs: seq<Group>, r: seq<Group>, n: nat, added: Group)
    requires Covered(gs, n) && r == gs + [added] && added.items == [n]
    ensures Covered(r, n + 1)
  {
    forall i: nat | i < n + 1 ensures Listed(r, i) {
      if i == n {
        assert i in r[|gs|].items;
      } else {
        assert Listed(gs, i);
        var g :| 0 <= g < |gs| && i in gs[g].items;
        assert r[g] == gs[g];
      }
    }
  }

  lemma OpenDisjoint(gs: seq<Group>, r: seq<Group>, n: nat, added: Group)
    requires Disjoint(gs) && Ordered(gs, n) && r == gs + [added] && added.items == [n]
    ensures Disjoint(r)
  {
    assert forall g :: 0 <= g < |gs| ==> r[g] == gs[g];
  }

  lemma OpenFits(gs: seq<Group>, r: seq<Group>, ss: seq<Section>, n: nat, added: Group)
    requires n < |ss| && Ordered(gs, |ss|) && Fits(gs, ss) && r == gs + [added]
    requires added.items == [n] && Belongs(added, ss[n]) && Headed(added, ss[n])
    ensures Ordered(r, |ss|) && Fits(r, ss)
  {
    assert forall g :: 0 <= g < |gs| ==> r[g] == gs[g];
  }

  lemma GroupingEmpty(ss: seq<Section>)
    ensures Grouping([], ss, 0)
  {
  }

  lemma {:induction false} GroupsFromGrouping(gs: seq<Group>, ss: seq<Section>, i: nat)
    requires i <= |ss| && Grouping(gs, ss, i)
    ensures Grouping(GroupsFrom(gs, ss, i), ss, |ss|)
    decreases |ss| - i
  {
    if i < |ss| {
      PlaceKeeps(gs, ss, i);
      GroupsFromGrouping(Place(gs, ss[i], i), ss, i + 1);
    }
  }

  /** Every section is listed under exactly one group, once, with the
      groups in first-seen order: tagged sections under the collapsible
      group of their tag (one per tag), untagged ones alone in a group of
      their own. */
  lemma GroupSectionsPartition(ss: seq<Section>)
    ensures var gs := GroupSections(ss);
      Ordered(gs, |ss|) && Covered(gs, |ss|) && Disjoint(gs) && UniqueIds(gs) && FirstSeen(gs) && Fits(gs, ss)
  {
    GroupingEmpty(ss);
    GroupsFromGrouping([], ss, 0);
  }

  /** The group listing section `i`, as `Grouping` pins it down: the
      collapsible group of the section's tag, or a group of its own. */
  lemma {:induction false} GroupOfSection(gs: seq<Group>, ss: seq<Section>, i: nat) returns (g: nat)
    requires Grouping(gs, ss, |ss|) && i < |ss|
    ensures g < |gs| && i in gs[g].items
    ensures forall h :: 0 <= h < |gs| && h != g ==> i !in gs[h].items
    ensures ss[i].group.Some? ==> gs[g].collapsible && gs[g].id == ss[i].group.value.id
    ensures ss[i].group.None? ==> !gs[g].collapsible && gs[g].items == [i] && gs[g].id == ss[i].id
  {
    assert Listed(gs, i);
    g :| 0 <= g < |gs| && i in gs[g].items;
    var a :| 0 <= a < |gs[g].items| && gs[g].items[a] == i;
    assert Belongs(gs[g], ss[i]);
    ListedOnce(gs, g, a);
    if ss[i].group.None? {
      assert Headed(gs[g], ss[gs[g].items[0]]);
      assert Belongs(gs[g], ss[gs[g].items[0]]);
      assert |gs[g].items| == 1;
    }
  }

  /** An index listed under group `g` is listed under no other group. */
  lemma ListedOnce(gs: seq<Group>, g: nat, a: nat)
    requires Disjoint(gs) && g < |gs| && a < |gs[g].items|
    ensures forall h :: 0 <= h < |gs| && h != g ==> gs[g].items[a] !in gs[h].items
  {
    forall h, b | 0 <= h < |gs| && h != g && 0 <= b < |gs[h].items| ensures gs[h].items[b] != gs[g].items[a] {
      if h < g { assert gs[h].items[b] != gs[g].items[a]; } else { assert gs[g].items[a] != gs[h].items[b]; }
    }
  }

  // Open groups.

  /** The first group listing section `current` (`groupedSections.find`). */
  function ActiveGroup(gs: seq<Group>, current: nat): (k: nat)
    ensures k <= |gs|
    ensures k < |gs| ==> current in gs[k].items
    ensures forall j :: 0 <= j < k ==> current !in gs[j].items
  {
    if |gs| == 0 then 0
    else if current in gs[0].items then 0
    else 1 + ActiveGroup(gs[1..], current)
  }

  /** The effect run when the current section changes: the active group is
      opened when it is collapsible; nothing else changes. */
  function OpenActive(open: set<string>, gs: seq<Group>, current: nat): (r: set<string>)
    ensures open <= r
    ensures r - open <= (var k := ActiveGroup(gs, current); if k < |gs| then {gs[k].id} else {})
  {
    var k := ActiveGroup(gs, current);
    if k < |gs| && gs[k].collapsible then open + {gs[k].id} else open
  }

  /** Once the current section's group is opened, a tagged current section
      is visible: its tag's group is open. An untagged section leaves the
      open set as it was. */
  lemma OpenActiveShows(open: set<string>, gs: seq<Group>, ss: seq<Section>, current: nat)
    requires Grouping(gs, ss, |ss|) && current < |ss|
    ensures ss[current].group.Some? ==> ss[current].group.value.id in OpenActive(open, gs, current)
    ensures ss[current].group.None? ==> OpenActive(open, gs, current) == open
  {
    var g := GroupOfSection(gs, ss, current);
    var k := ActiveGroup(gs, current);
    assert k == g;
  }

  /** `toggleGroup`: flips whether one group is open. */
  function Toggle(open: set<string>, id: string): (r: set<string>)
    ensures id in r <==> id !in open
    ensures forall other :: other != id ==> (other in r <==> other in open)
  {
    if id in open then open - {id} else open + {id}
  }

  /** Toggling the same group twice restores the open set. */
  lemma ToggleTwice(open: set<string>, id: string)
    ensures Toggle(Toggle(open, id), id) == open
  {
    var once := Toggle(open, id);
    var twice := Toggle(once, id);
    assert forall x :: x in twice <==> x in open;
  }

  // Completion.

  /** `groupCompleted`. */
  predicate GroupCompleted(grp: Group, done: set<nat>) {
    |grp.items| > 0 && forall k :: 0 <= k < |grp.items| ==> grp.items[k] in done
  }

  /** Every navigation group shows as completed exactly when every section
      of the survey is completed. */
  lemma AllGroupsCompleted(gs: seq<Group>, ss: seq<Section>, done: set<nat>)
    requires Grouping(gs, ss, |ss|)
    ensures (forall g :: 0 <= g < |gs| ==> GroupCompleted(gs[g], done)) <==> (forall i :: 0 <= i < |ss| ==> i in done)
  {
    if forall g :: 0 <= g < |gs| ==> GroupCompleted(gs[g], done) {
      forall i | 0 <= i < |ss| ensures i in done {
        assert Listed(gs, i);
        var g :| 0 <= g < |gs| && i in gs[g].items;
        assert GroupCompleted(gs[g], done);
      }
    }
  }
}
