/** The folder tree the listing endpoint builds: siblings in name order, every folder below its parent,
    and the ids it holds. */
module FolderTree {
  import opened Prelude
  import opened Sorting
  import opened FolderGraph
  import opened FolderStore

  datatype Node = Node(id: Id, name: string, parent: Option<Id>, count: nat, children: seq<Node>)

  // ---------------------------------------------------------------- building

  ghost predicate ParentRooted(fs: Folders, parent: Option<Id>) {
    parent.Some? ==> Rooted(fs, parent.value)
  }

  /** The folders not passed on the way down to `parent`. */
  ghost function Remaining(fs: Folders, parent: Option<Id>): set<Id> {
    set x | x in fs && (parent.Some? ==> !AtOrBelow(fs, x, parent.value))
  }

  lemma DescentShrinks(fs: Folders, parent: Option<Id>, k: Id)
    requires ParentRooted(fs, parent) && k in fs && fs[k].parent == parent
    ensures Rooted(fs, k) && k in Remaining(fs, parent)
    ensures |Remaining(fs, Some(k))| < |Remaining(fs, parent)|
  {
    hide Climb, Rooted;
    RootedThroughParent(fs, k);
    RootedNotBelowItself(fs, k);
    BelowByParent(fs, k, k);
    forall x ensures x in Remaining(fs, Some(k)) ==> x in Remaining(fs, parent) && x != k {
      AtOrBelowIff(fs, x, k);
      BelowByParent(fs, x, k);
    }
    AtOrBelowIff(fs, k, k);
    assert k in Remaining(fs, parent) && k !in Remaining(fs, Some(k));
    SubsetSmaller(Remaining(fs, Some(k)), Remaining(fs, parent));
  }

  function Kids(fs: Folders, listing: seq<Id>, parent: Option<Id>): (r: seq<Id>)
    ensures forall k :: k in r <==> k in listing && k in fs && fs[k].parent == parent
    ensures Distinct(listing) ==> Distinct(r)
  {
    if listing == [] then []
    else
      var rest := Kids(fs, listing[1..], parent);
      if listing[0] in fs && fs[listing[0]].parent == parent then [listing[0]] + rest else rest
  }

  function LowerName(fs: Folders, x: Id): string {
    if x in fs then Lower(fs[x].name) else ""
  }

  function ByName(fs: Folders): (Id, Id) -> bool {
    (a, b) => LexLeq(LowerName(fs, a), LowerName(fs, b))
  }

  function SortedKids(fs: Folders, listing: seq<Id>, parent: Option<Id>): (r: seq<Id>)
    ensures forall k :: k in r <==> k in listing && k in fs && fs[k].parent == parent
    ensures Distinct(listing) ==> Distinct(r)
  {
    var kids := Kids(fs, listing, parent);
    var r := StableSort(kids, ByName(fs));
    SortElements(kids, ByName(fs));
    SameElements(r, kids);
    assert Distinct(kids) ==> Distinct(r) by { if Distinct(kids) { SameElementsDistinct(kids, r); } }
    r
  }

  /** Recursion from the top ends whatever the parent graph: it never enters a cycle. */
  function Tree(fs: Folders, listing: seq<Id>, counts: map<Id, nat>, parent: Option<Id>): seq<Node>
    requires ParentRooted(fs, parent)
    decreases |Remaining(fs, parent)|, 1, 0
  {
    Nodes(fs, listing, counts, parent, SortedKids(fs, listing, parent))
  }

  function Nodes(fs: Folders, listing: seq<Id>, counts: map<Id, nat>, parent: Option<Id>, kids: seq<Id>): seq<Node>
    requires ParentRooted(fs, parent)
    requires forall k :: k in kids ==> k in fs && fs[k].parent == parent
    decreases |Remaining(fs, parent)|, 0, |kids|
  {
    if kids == [] then []
    else
      var k := kids[0];
      DescentShrinks(fs, parent, k);
      [Node(k, fs[k].name, parent, if k in counts then counts[k] else 0, Tree(fs, listing, counts, Some(k)))]
        + Nodes(fs, listing, counts, parent, kids[1..])
  }

  // ---------------------------------------------------------------- which folders the tree lists

  function Ids(forest: seq<Node>): seq<Id> {
    if forest == [] then [] else [forest[0].id] + Ids(forest[0].children) + Ids(forest[1..])
  }

  /** A list of folders that has the parents of all its members. */
  predicate Complete(fs: Folders, listing: seq<Id>) {
    && Distinct(listing)
    && (forall x :: x in listing ==> x in fs && (fs[x].parent.Some? ==> fs[x].parent.value in listing))
  }

  ghost predicate UnderAny(fs: Folders, kids: seq<Id>, d: Id) {
    exists k :: k in kids && AtOrBelow(fs, k, d)
  }

  /** A folder lies under at most one of several siblings. */
  lemma SiblingsApart(fs: Folders, parent: Option<Id>, j: Id, k: Id, d: Id)
    requires ParentRooted(fs, parent) && j in fs && k in fs && fs[j].parent == parent && fs[k].parent == parent
    requires AtOrBelow(fs, j, d) && AtOrBelow(fs, k, d)
    ensures j == k
  {
    var m: nat :| Climb(fs, d, m) == Some(j);
    var n: nat :| Climb(fs, d, n) == Some(k);
    if m <= n {
      SiblingAbove(fs, parent, j, k, d, m, n);
    } else {
      SiblingAbove(fs, parent, k, j, d, n, m);
    }
  }

  lemma SiblingAbove(fs: Folders, parent: Option<Id>, j: Id, k: Id, d: Id, m: nat, n: nat)
    requires ParentRooted(fs, parent) && j in fs && k in fs && fs[j].parent == parent && fs[k].parent == parent
    requires m <= n && Climb(fs, d, m) == Some(j) && Climb(fs, d, n) == Some(k)
    ensures j == k
  {
    hide Rooted;
    DescentShrinks(fs, parent, k);
    ClimbFurther(fs, d, m, n - m);
    assert AtOrBelow(fs, k, j);
    AtOrBelowIff(fs, k, j);
    BelowByParent(fs, k, j);
  }

  lemma {:induction false} KidOnTheWay(fs: Folders, listing: seq<Id>, a: Id, d: Id, n: nat)
    requires Complete(fs, listing) && d in listing && n > 0 && Climb(fs, d, n) == Some(a)
    ensures UnderAny(fs, SortedKids(fs, listing, Some(a)), d)
    decreases n
  {
    hide SortedKids;
    var p := fs[d].parent.value;
    if n == 1 {
      assert d in SortedKids(fs, listing, Some(a));
      assert Climb(fs, p, 0) == Some(p);
      AtOrBelowIff(fs, d, d);
    } else {
      KidOnTheWay(fs, listing, a, p, n - 1);
      var k :| k in SortedKids(fs, listing, Some(a)) && AtOrBelow(fs, k, p);
      BelowByParent(fs, k, d);
      AtOrBelowIff(fs, k, d);
    }
  }

  lemma {:induction false} TopOnTheWay(fs: Folders, listing: seq<Id>, d: Id, n: nat)
    requires Complete(fs, listing) && d in listing && Climb(fs, d, n) == None
    ensures UnderAny(fs, SortedKids(fs, listing, None), d)
    decreases n
  {
    hide SortedKids;
    if fs[d].parent.None? {
      assert d in SortedKids(fs, listing, None);
      AtOrBelowIff(fs, d, d);
    } else {
      var p := fs[d].parent.value;
      TopOnTheWay(fs, listing, p, n - 1);
      var k :| k in SortedKids(fs, listing, None) && AtOrBelow(fs, k, p);
      BelowByParent(fs, k, d);
      AtOrBelowIff(fs, k, d);
    }
  }

  /** The folders of the list under the members of a sibling list with parent `parent`. */
  lemma UnderKids(fs: Folders, listing: seq<Id>, parent: Option<Id>, d: Id)
    requires Complete(fs, listing) && d in listing
    ensures UnderAny(fs, SortedKids(fs, listing, parent), d) <==>
              if parent.Some? then Below(fs, parent.value, d) else Rooted(fs, d)
  {
    hide SortedKids;
    if UnderAny(fs, SortedKids(fs, listing, parent), d) {
      var k :| k in SortedKids(fs, listing, parent) && AtOrBelow(fs, k, d);
      var n: nat :| Climb(fs, d, n) == Some(k);
      ClimbFurther(fs, d, n, 1);
    }
    if parent.Some? && Below(fs, parent.value, d) {
      var n: nat :| n > 0 && Climb(fs, d, n) == Some(parent.value);
      KidOnTheWay(fs, listing, parent.value, d, n);
    }
    if parent.None? && Rooted(fs, d) {
      var n: nat :| Climb(fs, d, n) == None;
      TopOnTheWay(fs, listing, d, n);
    }
  }

  lemma {:induction false} TreeIds(fs: Folders, listing: seq<Id>, counts: map<Id, nat>, parent: Option<Id>)
    requires Complete(fs, listing) && ParentRooted(fs, parent)
    ensures var ids := Ids(Tree(fs, listing, counts, parent));
            Distinct(ids) && forall d :: d in ids <==> d in listing && UnderAny(fs, SortedKids(fs, listing, parent), d)
    decreases |Remaining(fs, parent)|, 1, 0
  {
    hide SortedKids, Ids, UnderAny, ParentRooted, Remaining;
    NodesIds(fs, listing, counts, parent, SortedKids(fs, listing, parent));
  }

  lemma {:induction false} NodesIds(fs: Folders, listing: seq<Id>, counts: map<Id, nat>, parent: Option<Id>,
                                    kids: seq<Id>)
    requires Complete(fs, listing) && ParentRooted(fs, parent) && Distinct(kids)
    requires forall k :: k in kids ==> k in listing && fs[k].parent == parent
    ensures var ids := Ids(Nodes(fs, listing, counts, parent, kids));
            Distinct(ids) && forall d :: d in ids <==> d in listing && UnderAny(fs, kids, d)
    decreases |Remaining(fs, parent)|, 0, |kids|
  {
    hide SortedKids, AtOrBelow, Below, Rooted, ParentRooted, Remaining, Tree;
    if kids != [] {
      var k := kids[0];
      DescentShrinks(fs, parent, k);
      assert ParentRooted(fs, Some(k)) by { RootedParent(fs, k); }
      var head, tail := Ids(Tree(fs, listing, counts, Some(k))), Ids(Nodes(fs, listing, counts, parent, kids[1..]));
      TreeIds(fs, listing, counts, Some(k));
      NodesIds(fs, listing, counts, parent, kids[1..]);
      forall d ensures d in head <==> d in listing && Below(fs, k, d) {
        if d in listing { UnderKids(fs, listing, Some(k), d); }
      }
      HeadIds(fs, listing, parent, kids, head, tail);
      assert Ids(Nodes(fs, listing, counts, parent, kids)) == [k] + head + tail;
    }
  }

  lemma RootedParent(fs: Folders, k: Id)
    requires Rooted(fs, k)
    ensures ParentRooted(fs, Some(k))
  {
  }

  lemma HeadIds(fs: Folders, listing: seq<Id>, parent: Option<Id>, kids: seq<Id>, head: seq<Id>, tail: seq<Id>)
    requires Complete(fs, listing) && ParentRooted(fs, parent) && kids != [] && Distinct(kids)
    requires forall k :: k in kids ==> k in listing && fs[k].parent == parent
    requires Distinct(head) && Distinct(tail)
    requires forall d :: d in head <==> d in listing && Below(fs, kids[0], d)
    requires forall d :: d in tail <==> d in listing && UnderAny(fs, kids[1..], d)
    ensures Distinct([kids[0]] + head + tail)
    ensures forall d :: d in [kids[0]] + head + tail <==> d in listing && UnderAny(fs, kids, d)
  {
    hide AtOrBelow, Below, Rooted, ParentRooted, Climb;
    var k := kids[0];
    forall d ensures AtOrBelow(fs, k, d) <==> d == k || Below(fs, k, d) { AtOrBelowIff(fs, k, d); }
    assert !Below(fs, k, k) by {
      DescentShrinks(fs, parent, k);
      RootedNotBelowItself(fs, k);
    }
    forall d | d in tail ensures !AtOrBelow(fs, k, d) {
      var j :| j in kids[1..] && AtOrBelow(fs, j, d);
      if AtOrBelow(fs, k, d) { SiblingsApart(fs, parent, j, k, d); }
    }
    assert kids == [k] + kids[1..];
    DistinctJoin([k], head);
    DistinctJoin([k] + head, tail);
  }
}
