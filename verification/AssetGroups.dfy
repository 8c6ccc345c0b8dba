/** The group-of-groups graph: collecting descendants, deleting a group with them, and the top-level groups. */
module AssetGroups {

  import opened Prelude

  type Id = nat
  datatype Link = Link(parent: Id, child: Id)
  datatype Member = Member(groupId: Id, asset: Id)

  // ----- reachability -----

  ghost predicate ReachesIn(links: seq<Link>, a: Id, b: Id, steps: nat)
    decreases steps
  {
    if steps == 0 then a == b
    else exists m :: Link(a, m) in links && ReachesIn(links, m, b, steps - 1)
  }

  /** b is a proper descendant of a. */
  ghost predicate Reaches(links: seq<Link>, a: Id, b: Id) {
    exists steps: nat :: steps > 0 && ReachesIn(links, a, b, steps)
  }

  /** Neither the group nor any of its descendants is a descendant of itself. */
  ghost predicate NoCycleBelow(links: seq<Link>, a: Id) {
    !Reaches(links, a, a) && forall x :: Reaches(links, a, x) ==> !Reaches(links, x, x)
  }

  ghost predicate NoCycleAbove(links: seq<Link>, a: Id) {
    !Reaches(links, a, a) && forall x :: Reaches(links, x, a) ==> !Reaches(links, x, x)
  }

  lemma {:induction false} StepsAdd(links: seq<Link>, a: Id, b: Id, c: Id, i: nat, j: nat)
    requires ReachesIn(links, a, b, i) && ReachesIn(links, b, c, j)
    ensures ReachesIn(links, a, c, i + j)
    decreases i
  {
    if i > 0 {
      var m :| Link(a, m) in links && ReachesIn(links, m, b, i - 1);
      StepsAdd(links, m, b, c, i - 1, j);
    }
  }

  ghost function StepsOf(links: seq<Link>, a: Id, b: Id): (steps: nat)
    requires Reaches(links, a, b)
    ensures steps > 0 && ReachesIn(links, a, b, steps)
  {
    var steps: nat :| steps > 0 && ReachesIn(links, a, b, steps);
    steps
  }

  lemma LinkReaches(links: seq<Link>, a: Id, b: Id)
    requires Link(a, b) in links
    ensures Reaches(links, a, b)
  {
    assert ReachesIn(links, b, b, 0);
    assert ReachesIn(links, a, b, 1);
  }

  lemma Transitive(links: seq<Link>, a: Id, b: Id, c: Id)
    requires Reaches(links, a, b) && Reaches(links, b, c)
    ensures Reaches(links, a, c)
  {
    StepsAdd(links, a, b, c, StepsOf(links, a, b), StepsOf(links, b, c));
  }

  /** A descendant is a child or a descendant of a child. */
  lemma FirstStep(links: seq<Link>, a: Id, b: Id)
    ensures Reaches(links, a, b) <==> exists m :: Link(a, m) in links && (m == b || Reaches(links, m, b))
  {
    if Reaches(links, a, b) {
      var i := StepsOf(links, a, b);
      var m :| Link(a, m) in links && ReachesIn(links, m, b, i - 1);
      assert m == b || Reaches(links, m, b);
    }
    forall m | Link(a, m) in links && (m == b || Reaches(links, m, b)) ensures Reaches(links, a, b) {
      LinkReaches(links, a, m);
      if m != b { Transitive(links, a, m, b); }
    }
  }

  // ----- collecting descendants -----

  /** The children of a group, in the order of the link rows. */
  function Children(links: seq<Link>, g: Id): seq<Id> {
    if links == [] then []
    else Children(links[..|links| - 1], g) + if links[|links| - 1].parent == g then [links[|links| - 1].child] else []
  }

  lemma {:induction false} ChildrenMeans(links: seq<Link>, g: Id, c: Id)
    ensures c in Children(links, g) <==> Link(g, c) in links
  {
    if links != [] {
      ChildrenMeans(links[..|links| - 1], g, c);
      assert links == links[..|links| - 1] + [links[|links| - 1]];
    }
  }

  /** The recursion cut off at a depth: None when it would go deeper. */
  function Collect(links: seq<Link>, g: Id, depth: nat): Option<seq<Id>>
    decreases depth, 0
  {
    if depth == 0 then None
    else CollectAll(links, Children(links, g), |Children(links, g)|, depth - 1)
  }

  /** The first n of some groups, each followed by its own descendants. */
  function CollectAll(links: seq<Link>, groups: seq<Id>, n: nat, depth: nat): Option<seq<Id>>
    requires n <= |groups|
    decreases depth, n + 1
  {
    if n == 0 then Some([])
    else
      var before, below := CollectAll(links, groups, n - 1, depth), Collect(links, groups[n - 1], depth);
      if before.None? || below.None? then None
      else Some(before.value + [groups[n - 1]] + below.value)
  }

  lemma CollectAllGrows(links: seq<Link>, groups: seq<Id>, n: nat, depth: nat, before: seq<Id>, below: seq<Id>)
    requires n < |groups| && CollectAll(links, groups, n, depth) == Some(before)
      && Collect(links, groups[n], depth) == Some(below)
    ensures CollectAll(links, groups, n + 1, depth) == Some(before + [groups[n]] + below)
  {}

  ghost predicate EachCollects(links: seq<Link>, groups: seq<Id>, n: nat, depth: nat)
    requires n <= |groups|
  {
    forall k :: 0 <= k < n ==> Collect(links, groups[k], depth).Some?
  }

  lemma {:induction false} CollectAllSome(links: seq<Link>, groups: seq<Id>, n: nat, depth: nat)
    requires n <= |groups|
    ensures CollectAll(links, groups, n, depth).Some? <==> EachCollects(links, groups, n, depth)
  {
    if n > 0 {
      CollectAllSome(links, groups, n - 1, depth);
      assert EachCollects(links, groups, n, depth)
        <==> EachCollects(links, groups, n - 1, depth) && Collect(links, groups[n - 1], depth).Some?;
    }
  }

  /** What is collected is exactly the proper descendants. */
  lemma {:induction false} CollectedAreDescendants(links: seq<Link>, g: Id, depth: nat, x: Id)
    requires Collect(links, g, depth).Some?
    ensures x in Collect(links, g, depth).value <==> Reaches(links, g, x)
    decreases depth, 0
  {
    var children := Children(links, g);
    CollectAllMeans(links, children, |children|, depth - 1, x);
    FirstStep(links, g, x);
    if k :| 0 <= k < |children| && (children[k] == x || Reaches(links, children[k], x)) {
      ChildrenMeans(links, g, children[k]);
    } else if m :| Link(g, m) in links && (m == x || Reaches(links, m, x)) {
      ChildrenMeans(links, g, m);
    }
  }

  lemma {:induction false} CollectAllMeans(links: seq<Link>, groups: seq<Id>, n: nat, depth: nat, x: Id)
    requires n <= |groups| && CollectAll(links, groups, n, depth).Some?
    ensures x in CollectAll(links, groups, n, depth).value
      <==> exists k :: 0 <= k < n && (groups[k] == x || Reaches(links, groups[k], x))
    decreases depth, n + 1
  {
    if n > 0 {
      CollectAllMeans(links, groups, n - 1, depth, x);
      CollectedAreDescendants(links, groups[n - 1], depth, x);
    }
  }

  // ----- termination -----

  /** There is a walk of so many links from the group. */
  ghost predicate Walks(links: seq<Link>, a: Id, n: nat) {
    exists b :: ReachesIn(links, a, b, n)
  }

  ghost predicate NoneWalks(links: seq<Link>, groups: seq<Id>, n: nat, steps: nat)
    requires n <= |groups|
  {
    forall k :: 0 <= k < n ==> !Walks(links, groups[k], steps)
  }

  /** The recursion stays above a depth exactly when no walk is that long. */
  lemma {:induction false} CollectsUnlessWalks(links: seq<Link>, g: Id, depth: nat)
    ensures Collect(links, g, depth).Some? <==> !Walks(links, g, depth)
    decreases depth, 0
  {
    if depth == 0 {
      assert ReachesIn(links, g, g, 0);
    } else {
      AllCollectUnlessWalks(links, Children(links, g), |Children(links, g)|, depth - 1);
      WalksByChild(links, g, depth);
    }
  }

  lemma {:induction false} AllCollectUnlessWalks(links: seq<Link>, groups: seq<Id>, n: nat, depth: nat)
    requires n <= |groups|
    ensures CollectAll(links, groups, n, depth).Some? <==> NoneWalks(links, groups, n, depth)
    decreases depth, n + 1
  {
    if n > 0 {
      AllCollectUnlessWalks(links, groups, n - 1, depth);
      CollectsUnlessWalks(links, groups[n - 1], depth);
      assert NoneWalks(links, groups, n, depth)
        <==> NoneWalks(links, groups, n - 1, depth) && !Walks(links, groups[n - 1], depth);
    }
  }

  lemma WalksByChild(links: seq<Link>, g: Id, n: nat)
    requires n > 0
    ensures Walks(links, g, n) <==> !NoneWalks(links, Children(links, g), |Children(links, g)|, n - 1)
  {
    var children := Children(links, g);
    if b :| ReachesIn(links, g, b, n) {
      var m :| Link(g, m) in links && ReachesIn(links, m, b, n - 1);
      ChildrenMeans(links, g, m);
      assert Walks(links, m, n - 1);
    }
    if k :| 0 <= k < |children| && Walks(links, children[k], n - 1) {
      var b :| ReachesIn(links, children[k], b, n - 1);
      ChildrenMeans(links, g, children[k]);
      assert ReachesIn(links, g, b, n);
    }
  }

  lemma {:induction false} CycleWalks(links: seq<Link>, x: Id, around: nat, n: nat)
    requires around > 0 && ReachesIn(links, x, x, around)
    ensures Walks(links, x, n)
    decreases n
  {
    if n < around {
      WalkPrefix(links, x, x, around, n);
    } else {
      CycleWalks(links, x, around, n - around);
      var b :| ReachesIn(links, x, b, n - around);
      StepsAdd(links, x, x, b, around, n - around);
    }
  }

  lemma {:induction false} WalkPrefix(links: seq<Link>, a: Id, b: Id, n: nat, k: nat)
    requires ReachesIn(links, a, b, n) && k <= n
    ensures Walks(links, a, k)
    decreases k
  {
    if k == 0 {
      assert ReachesIn(links, a, a, 0);
    } else {
      var m :| Link(a, m) in links && ReachesIn(links, m, b, n - 1);
      WalkPrefix(links, m, b, n - 1, k - 1);
      var c :| ReachesIn(links, m, c, k - 1);
      assert ReachesIn(links, a, c, k);
    }
  }

  ghost predicate LinksInside(links: seq<Link>, groups: set<Id>) {
    forall l :: l in links ==> l.parent in groups && l.child in groups
  }

  /** `above` are ancestors of g: everything the recursion has entered and not left. */
  ghost predicate OnTheWayTo(links: seq<Link>, above: set<Id>, g: Id) {
    forall a :: a in above ==> Reaches(links, a, g)
  }

  ghost predicate MayEnter(links: seq<Link>, groups: set<Id>, above: set<Id>, g: Id) {
    g in groups && above <= groups && OnTheWayTo(links, above, g) && NoCycleBelow(links, g)
  }

  lemma NotAboveItself(links: seq<Link>, groups: set<Id>, above: set<Id>, g: Id)
    requires MayEnter(links, groups, above, g)
    ensures |groups - above| > 0
  {
    assert g in groups - above;
  }

  lemma ChildGoesDeeper(links: seq<Link>, groups: set<Id>, above: set<Id>, g: Id, c: Id)
    requires LinksInside(links, groups) && MayEnter(links, groups, above, g) && Link(g, c) in links
    ensures MayEnter(links, groups, above + {g}, c) && |groups - (above + {g})| == |groups - above| - 1
  {
    LinkReaches(links, g, c);
    forall a | a in above ensures Reaches(links, a, c) && a != g {
      Transitive(links, a, g, c);
    }
    forall x | Reaches(links, c, x) ensures !Reaches(links, x, x) {
      Transitive(links, g, c, x);
    }
    assert groups - (above + {g}) == (groups - above) - {g};
  }

  lemma {:induction false} AcyclicCollects(links: seq<Link>, groups: set<Id>, above: set<Id>, g: Id, depth: nat)
    requires LinksInside(links, groups) && MayEnter(links, groups, above, g)
    requires depth >= |groups - above|
    ensures Collect(links, g, depth).Some?
    decreases depth
  {
    NotAboveItself(links, groups, above, g);
    var children := Children(links, g);
    forall k | 0 <= k < |children| ensures Collect(links, children[k], depth - 1).Some? {
      ChildrenMeans(links, g, children[k]);
      ChildGoesDeeper(links, groups, above, g, children[k]);
      AcyclicCollects(links, groups, above + {g}, children[k], depth - 1);
    }
    CollectAllSome(links, children, |children|, depth - 1);
  }

  /** The recursion ends, at some depth, exactly when no cycle can be reached from the group. */
  lemma CollectionEndsIffNoCycle(links: seq<Link>, groups: set<Id>, g: Id)
    requires LinksInside(links, groups) && g in groups
    ensures (exists depth: nat :: Collect(links, g, depth).Some?) <==> NoCycleBelow(links, g)
  {
    if NoCycleBelow(links, g) {
      AcyclicCollects(links, groups, {}, g, |groups|);
    } else {
      var x :| (x == g || Reaches(links, g, x)) && Reaches(links, x, x);
      var around := StepsOf(links, x, x);
      var i := if x == g then 0 else StepsOf(links, g, x);
      forall depth: nat ensures Collect(links, g, depth).None? {
        CycleWalks(links, x, around, depth);
        var b :| ReachesIn(links, x, b, depth);
        StepsAdd(links, g, x, b, i, depth);
        WalkPrefix(links, g, b, i + depth, depth);
        CollectsUnlessWalks(links, g, depth);
      }
    }
  }

  // ----- the tables -----

  function Without(links: seq<Link>, gone: set<Id>): seq<Link> {
    if links == [] then []
    else Without(links[..|links| - 1], gone)
         + if links[|links| - 1].parent in gone || links[|links| - 1].child in gone then [] else [links[|links| - 1]]
  }

  lemma {:induction false} WithoutMeans(links: seq<Link>, gone: set<Id>, l: Link)
    ensures l in Without(links, gone) <==> l in links && l.parent !in gone && l.child !in gone
  {
    if links != [] {
      WithoutMeans(links[..|links| - 1], gone, l);
      assert links == links[..|links| - 1] + [links[|links| - 1]];
    }
  }

  lemma {:induction false} WithoutTwice(links: seq<Link>, gone: set<Id>, g: Id)
    ensures Without(Without(links, gone), {g}) == Without(links, gone + {g})
  {
    if links != [] {
      var rest, last := links[..|links| - 1], links[|links| - 1];
      WithoutTwice(rest, gone, g);
      if last.parent !in gone && last.child !in gone {
        assert Without(links, gone)[..|Without(links, gone)| - 1] == Without(rest, gone);
      } else {
        assert Without(links, gone) == Without(rest, gone);
      }
    }
  }

  lemma {:induction false} WithoutNothing(links: seq<Link>)
    ensures Without(links, {}) == links
  {
    if links != [] {
      WithoutNothing(links[..|links| - 1]);
    }
  }

  /** The group and everything below it. */
  ghost predicate IsSubtree(links: seq<Link>, g: Id, gone: set<Id>) {
    forall x :: x in gone <==> x == g || Reaches(links, g, x)
  }

  /** `get_tree`'s top level: the groups that are nobody's child. */
  ghost function TopLevel(groups: set<Id>, links: seq<Link>): set<Id> {
    set g | g in groups && IsNoChild(links, g)
  }

  ghost predicate IsNoChild(links: seq<Link>, g: Id) {
    forall l :: l in links ==> l.child != g
  }

  class AssetGroupRepository {
    var names: map<Id, string>
    var links: seq<Link>
    var members: set<Member>

    /** The foreign keys of the link and member tables, and the unique group name. */
    ghost predicate Valid()
      reads this
    {
      && LinksInside(links, names.Keys)
      && (forall m :: m in members ==> m.groupId in names)
      && (forall g, h :: g in names && h in names && names[g] == names[h] ==> g == h)
    }

    /** `above`: the groups whose call is still open; `depth`: how many levels there can still be. */
    method CollectSubgroupIds(groupId: Id, ghost above: set<Id>, ghost depth: nat) returns (allIds: seq<Id>)
      requires LinksInside(links, names.Keys) && MayEnter(links, names.Keys, above, groupId)
      requires depth == |names.Keys - above|
      ensures Collect(links, groupId, depth) == Some(allIds)
      decreases depth
    {
      NotAboveItself(links, names.Keys, above, groupId);
      var childIds := Children(links, groupId);
      allIds := [];
      for n := 0 to |childIds|
        invariant CollectAll(links, childIds, n, depth - 1) == Some(allIds)
      {
        ChildrenMeans(links, groupId, childIds[n]);
        ChildGoesDeeper(links, names.Keys, above, groupId, childIds[n]);
        var below := CollectSubgroupIds(childIds[n], above + {groupId}, depth - 1);
        CollectAllGrows(links, childIds, n, depth - 1, allIds, below);
        allIds := allIds + [childIds[n]];
        allIds := allIds + below;
      }
    }

    /** One DELETE on the group table; the foreign keys of the other tables cascade. */
    method DeleteRow(g: Id)
      modifies this
      ensures names == old(names) - {g} && links == Without(old(links), {g})
      ensures members == set m | m in old(members) && m.groupId != g
    {
      names := names - {g};
      links := Without(links, {g});
      members := set m | m in members && m.groupId != g;
    }

    method FindByName(name: string) returns (g: Option<Id>)
      requires Valid()
      ensures g.Some? ==> g.value in names && names[g.value] == name
      ensures g.None? ==> forall i :: i in names ==> names[i] != name
    {
      if i :| i in names && names[i] == name {
        return Some(i);
      }
      return None;
    }

    /** Deletes rows one by one, last first; a row that is already gone deletes nothing. */
    method DeleteRows(ids: seq<Id>, ghost gone: set<Id>)
      requires gone == set i | i in ids
      modifies this
      ensures names == old(names) - gone && links == Without(old(links), gone)
      ensures members == set m | m in old(members) && m.groupId !in gone
    {
      WithoutNothing(links);
      ghost var deleted: set<Id> := {};
      var n := |ids|;
      while n > 0
        invariant 0 <= n <= |ids| && deleted == (set i | i in ids[n..])
        invariant names == old(names) - deleted && links == Without(old(links), deleted)
        invariant members == set m | m in old(members) && m.groupId !in deleted
      {
        n := n - 1;
        DeleteRow(ids[n]);
        WithoutTwice(old(links), deleted, ids[n]);
        assert ids[n..] == [ids[n]] + ids[n + 1..];
        deleted := deleted + {ids[n]};
      }
      assert ids[0..] == ids;
    }

    /** The named group and all its descendants go, with their links and members; nothing else does. */
    method DeleteGroup(name: string) returns (found: bool, ghost gone: set<Id>)
      requires Valid()
      requires forall g :: g in names && names[g] == name ==> NoCycleBelow(links, g)
      modifies this
      ensures Valid() && found == (exists g :: g in old(names) && old(names)[g] == name)
      ensures !found ==> gone == {}
      ensures found ==> exists g :: g in old(names) && old(names)[g] == name && IsSubtree(old(links), g, gone)
      ensures names == old(names) - gone && links == Without(old(links), gone)
      ensures members == set m | m in old(members) && m.groupId !in gone
    {
      WithoutNothing(links);
      var g := FindByName(name);
      if g.None? {
        return false, {};
      }
      ghost var depth := |names.Keys - {}|;
      var below := CollectSubgroupIds(g.value, {}, depth);
      var allGroupIds := [g.value] + below;
      gone := set i | i in allGroupIds;
      CollectedSubtree(links, g.value, depth, gone);
      DeleteRows(allGroupIds, gone);
      WithoutStaysInside(old(links), old(names).Keys, gone);
      return true, gone;
    }
  }

  lemma CollectedSubtree(links: seq<Link>, g: Id, depth: nat, gone: set<Id>)
    requires Collect(links, g, depth).Some? && gone == set i | i in [g] + Collect(links, g, depth).value
    ensures IsSubtree(links, g, gone)
  {
    forall x ensures x in gone <==> x == g || Reaches(links, g, x) {
      CollectedAreDescendants(links, g, depth, x);
    }
  }

  lemma WithoutStaysInside(links: seq<Link>, groups: set<Id>, gone: set<Id>)
    requires LinksInside(links, groups)
    ensures LinksInside(Without(links, gone), groups - gone)
  {
    forall l | l in Without(links, gone) ensures l.parent in groups - gone && l.child in groups - gone {
      WithoutMeans(links, gone, l);
    }
  }

  // ----- the tree -----

  /** Following parents up from a group that no cycle lies above ends at a top-level group. */
  lemma {:induction false} TopLevelAbove(groups: set<Id>, links: seq<Link>, below: set<Id>, g: Id) returns (top: Id)
    requires LinksInside(links, groups) && g in groups && below <= groups && NoCycleAbove(links, g)
    requires forall b :: b in below ==> Reaches(links, g, b)
    ensures top in TopLevel(groups, links) && (top == g || Reaches(links, top, g))
    decreases |groups - below|
  {
    if IsNoChild(links, g) {
      top := g;
    } else {
      var l :| l in links && l.child == g;
      LinkReaches(links, l.parent, g);
      forall b | b in below ensures Reaches(links, l.parent, b) {
        Transitive(links, l.parent, g, b);
      }
      forall x | Reaches(links, x, l.parent) ensures !Reaches(links, x, x) {
        Transitive(links, x, l.parent, g);
      }
      assert g in groups - below;
      assert groups - (below + {g}) == (groups - below) - {g};
      top := TopLevelAbove(groups, links, below + {g}, l.parent);
      if top != l.parent { Transitive(links, top, l.parent, g); }
    }
  }

  /** Without cycles every group is in the tree of some top-level group. */
  lemma EveryGroupIsInATree(groups: set<Id>, links: seq<Link>, g: Id)
    requires LinksInside(links, groups) && g in groups && NoCycleAbove(links, g)
    ensures exists top :: top in TopLevel(groups, links) && (top == g || Reaches(links, top, g))
  {
    var top := TopLevelAbove(groups, links, {}, g);
  }

  /** Deleting a subtree orphans nobody: the remaining groups are top-level exactly if they were before. */
  lemma DeletionKeepsTopLevel(groups: set<Id>, links: seq<Link>, g: Id, gone: set<Id>)
    requires LinksInside(links, groups) && IsSubtree(links, g, gone)
    ensures TopLevel(groups - gone, Without(links, gone)) == TopLevel(groups, links) - gone
    ensures TopLevel(groups, links) * gone <= {g}
  {
    forall x | x in gone && x != g ensures !IsNoChild(links, x) {
      LastStep(links, g, x);
    }
    forall x | x in groups - gone ensures IsNoChild(links, x) <==> IsNoChild(Without(links, gone), x) {
      forall l: Link | l.child == x ensures l in links <==> l in Without(links, gone) {
        WithoutMeans(links, gone, l);
        if l in links && l.parent in gone {
          LinkReaches(links, l.parent, x);
          if l.parent != g { Transitive(links, g, l.parent, x); }
        }
      }
    }
  }

  lemma {:induction false} LastStep(links: seq<Link>, a: Id, b: Id)
    requires Reaches(links, a, b)
    ensures exists l :: l in links && l.child == b
  {
    LastLink(links, a, b, StepsOf(links, a, b));
  }

  lemma {:induction false} LastLink(links: seq<Link>, a: Id, b: Id, i: nat)
    requires i > 0 && ReachesIn(links, a, b, i)
    ensures exists l :: l in links && l.child == b
    decreases i
  {
    var m :| Link(a, m) in links && ReachesIn(links, m, b, i - 1);
    if i == 1 {
      assert Link(a, m) in links && Link(a, m).child == b;
    } else {
      LastLink(links, m, b, i - 1);
    }
  }

  // ----- adding a subgroup -----

  ghost predicate IsAcyclic(links: seq<Link>) {
    forall x :: !Reaches(links, x, x)
  }

  ghost predicate IsOrReaches(links: seq<Link>, a: Id, b: Id) {
    a == b || Reaches(links, a, b)
  }

  /** A walk that may use a new link either avoids it, or goes up to its parent and on from its child. */
  lemma {:induction false} NewLinkWalk(links: seq<Link>, l: Link, a: Id, b: Id, steps: nat)
    requires ReachesIn(links + [l], a, b, steps)
    ensures ReachesIn(links, a, b, steps) || (IsOrReaches(links, a, l.parent) && IsOrReaches(links, l.child, b))
    decreases steps
  {
    if steps > 0 {
      var m :| Link(a, m) in links + [l] && ReachesIn(links + [l], m, b, steps - 1);
      NewLinkWalk(links, l, m, b, steps - 1);
      if Link(a, m) in links {
        LinkReaches(links, a, m);
        if Reaches(links, m, l.parent) { Transitive(links, a, m, l.parent); }
      } else if ReachesIn(links, m, b, steps - 1) {
        assert IsOrReaches(links, m, b);
      }
    }
  }

  lemma {:induction false} MoreLinksReachMore(links: seq<Link>, l: Link, a: Id, b: Id, steps: nat)
    requires ReachesIn(links, a, b, steps)
    ensures ReachesIn(links + [l], a, b, steps)
    decreases steps
  {
    if steps > 0 {
      var m :| Link(a, m) in links && ReachesIn(links, m, b, steps - 1);
      MoreLinksReachMore(links, l, m, b, steps - 1);
      assert Link(a, m) in links + [l];
    }
  }

  /**
    * The check that add_subgroup does not make: the new link keeps the graph acyclic exactly when the child is
    * not at or above the parent.
    */
  lemma SubgroupKeepsAcyclicIff(links: seq<Link>, l: Link)
    requires IsAcyclic(links)
    ensures IsAcyclic(links + [l]) <==> !IsOrReaches(links, l.child, l.parent)
  {
    if IsOrReaches(links, l.child, l.parent) {
      assert Link(l.parent, l.child) in links + [l];
      LinkReaches(links + [l], l.parent, l.child);
      if l.child != l.parent {
        MoreLinksReachMore(links, l, l.child, l.parent, StepsOf(links, l.child, l.parent));
        Transitive(links + [l], l.parent, l.child, l.parent);
      }
    } else {
      forall x ensures !Reaches(links + [l], x, x) {
        if Reaches(links + [l], x, x) {
          var steps := StepsOf(links + [l], x, x);
          NewLinkWalk(links, l, x, x, steps);
          assert ReachesIn(links, x, x, steps) ==> Reaches(links, x, x);
          if l.child != x && x != l.parent { Transitive(links, l.child, x, l.parent); }
        }
      }
    }
  }

  /**
    * Adding a subgroup is not checked: two groups put into each other vanish from the top level, and neither can
    * be deleted.
    */
  lemma MutualSubgroups(a: Id, b: Id)
    ensures
      var links := [Link(a, b), Link(b, a)];
      && TopLevel({a, b}, links) == {}
      && forall depth: nat :: Collect(links, a, depth).None?
  {
    var links := [Link(a, b), Link(b, a)];
    assert links[0].child == b && links[1].child == a;
    LinkReaches(links, a, b);
    LinkReaches(links, b, a);
    Transitive(links, a, b, a);
    CollectionEndsIffNoCycle(links, {a, b}, a);
  }
}
