/** The listing endpoint: recursive problem counts that add up through the whole tree. */
module FolderCounts {
  import opened Prelude
  import opened Sorting
  import opened FolderGraph
  import opened FolderStore
  import opened FolderTree

  datatype Listing = Listing(all: nat, unfiled: nat, items: seq<Node>)

  function UserFolders(s: Store, user: string): set<Id> {
    set x | x in s.folders && s.folders[x].owner == user
  }

  /** `listing` is some enumeration of the folders of `user`. */
  predicate Enumerates(listing: seq<Id>, s: Store, user: string) {
    && Distinct(listing)
    && (forall x | x in listing :: x in s.folders && s.folders[x].owner == user)
    && (forall x | x in s.folders && s.folders[x].owner == user :: x in listing)
  }

  function LiveProblems(s: Store, user: string): set<Id> {
    set p | p in s.problems && !s.problems[p].deleted && s.problems[p].owner == user
  }

  function Unfiled(s: Store, user: string): set<Id> {
    set p | p in LiveProblems(s, user) && s.problems[p].folder.None?
  }

  ghost function Within(fs: Folders, a: Id): set<Id> {
    set x | x in fs && AtOrBelow(fs, a, x)
  }

  ghost function WithinAny(fs: Folders, kids: seq<Id>): set<Id> {
    set x | x in fs && UnderAny(fs, kids, x)
  }

  ghost predicate Counted(s: Store, user: string, listing: seq<Id>, counts: map<Id, nat>) {
    forall x :: x in listing ==> x in counts && counts[x] == |Filed(s, user, Within(s.folders, x))|
  }

  function Total(forest: seq<Node>): nat {
    if forest == [] then 0 else forest[0].count + Total(forest[1..])
  }

  /** Every node, at every depth, counts its own problems and those its children count. */
  predicate AddsUp(s: Store, user: string, forest: seq<Node>) {
    forest == [] ||
    (&& forest[0].count == |Filed(s, user, {forest[0].id})| + Total(forest[0].children)
     && AddsUp(s, user, forest[0].children) && AddsUp(s, user, forest[1..]))
  }

  // ---------------------------------------------------------------- sets of folders, sets of problems

  lemma FiledJoins(s: Store, user: string, a: set<Id>, b: set<Id>)
    requires a !! b
    ensures |Filed(s, user, a + b)| == |Filed(s, user, a)| + |Filed(s, user, b)|
  {
    assert Filed(s, user, a + b) == Filed(s, user, a) + Filed(s, user, b);
    assert Filed(s, user, a) !! Filed(s, user, b);
  }

  lemma FiledWithinFolders(s: Store, user: string, a: set<Id>, b: set<Id>)
    requires FilingsExist(s)
    requires forall x :: x in s.folders && s.folders[x].owner == user ==> (x in a <==> x in b)
    ensures Filed(s, user, a) == Filed(s, user, b)
  {
  }

  lemma KidsApart(fs: Folders, parent: Option<Id>, kids: seq<Id>)
    requires ParentRooted(fs, parent) && kids != [] && Distinct(kids)
    requires forall k :: k in kids ==> k in fs && fs[k].parent == parent
    ensures Within(fs, kids[0]) !! WithinAny(fs, kids[1..])
    ensures WithinAny(fs, kids) == Within(fs, kids[0]) + WithinAny(fs, kids[1..])
  {
    hide AtOrBelow, ParentRooted;
    assert kids == [kids[0]] + kids[1..];
    forall x | x in Within(fs, kids[0]) ensures x !in WithinAny(fs, kids[1..]) {
      if x in WithinAny(fs, kids[1..]) {
        var j :| j in kids[1..] && AtOrBelow(fs, j, x);
        SiblingsApart(fs, parent, j, kids[0], x);
      }
    }
  }

  /** The problems in and under a folder are its own and those under its subfolders. */
  lemma FolderSplits(s: Store, user: string, listing: seq<Id>, a: Id)
    requires Sound(s) && Enumerates(listing, s, user) && a in listing
    ensures |Filed(s, user, Within(s.folders, a))| ==
              |Filed(s, user, {a})| + |Filed(s, user, WithinAny(s.folders, SortedKids(s.folders, listing, Some(a))))|
  {
    hide AtOrBelow, Below, Acyclic, Rooted, SortedKids, UnderAny, Filed;
    var fs, kids := s.folders, SortedKids(s.folders, listing, Some(a));
    assert Complete(fs, listing);
    AcyclicHere(fs, a);
    forall x | x in listing ensures x in Within(fs, a) <==> x == a || x in WithinAny(fs, kids) {
      AtOrBelowIff(fs, a, x);
      UnderKids(fs, listing, Some(a), x);
    }
    UnderKids(fs, listing, Some(a), a);
    FiledWithinFolders(s, user, Within(fs, a), {a} + WithinAny(fs, kids));
    FiledJoins(s, user, {a}, WithinAny(fs, kids));
  }

  lemma AcyclicHere(fs: Folders, a: Id)
    requires Acyclic(fs)
    ensures !Below(fs, a, a) && Rooted(fs, a)
  {
    hide Below, Rooted;
    AcyclicIffRooted(fs);
  }

  lemma {:induction false} TreeAddsUp(s: Store, user: string, listing: seq<Id>, counts: map<Id, nat>,
                                      parent: Option<Id>)
    requires Sound(s) && Enumerates(listing, s, user) && Counted(s, user, listing, counts)
    requires ParentRooted(s.folders, parent)
    ensures var forest := Tree(s.folders, listing, counts, parent);
            AddsUp(s, user, forest)
            && Total(forest) == |Filed(s, user, WithinAny(s.folders, SortedKids(s.folders, listing, parent)))|
    decreases |Remaining(s.folders, parent)|, 1, 0
  {
    hide SortedKids, Filed, Sound, Counted, Enumerates, ParentRooted, Remaining, AddsUp, WithinAny;
    KidsListed(s, user, listing, parent);
    NodesAddUp(s, user, listing, counts, parent, SortedKids(s.folders, listing, parent));
  }

  lemma KidsListed(s: Store, user: string, listing: seq<Id>, parent: Option<Id>)
    requires Enumerates(listing, s, user)
    ensures Distinct(SortedKids(s.folders, listing, parent))
  {
  }

  lemma {:induction false} NodesAddUp(s: Store, user: string, listing: seq<Id>, counts: map<Id, nat>,
                                      parent: Option<Id>, kids: seq<Id>)
    requires Sound(s) && Enumerates(listing, s, user) && Counted(s, user, listing, counts)
    requires ParentRooted(s.folders, parent) && Distinct(kids)
    requires forall k :: k in kids ==> k in listing && k in s.folders && s.folders[k].parent == parent
    ensures var forest := Nodes(s.folders, listing, counts, parent, kids);
            AddsUp(s, user, forest) && Total(forest) == |Filed(s, user, WithinAny(s.folders, kids))|
    decreases |Remaining(s.folders, parent)|, 0, |kids|
  {
    hide SortedKids, Filed, Sound, Within, WithinAny, ParentRooted, Remaining, Enumerates, Rooted, Tree;
    if kids == [] {
      NothingFiled(s, user, kids);
    } else {
      var k := kids[0];
      DescentShrinks(s.folders, parent, k);
      RootedParent(s.folders, k);
      TreeAddsUp(s, user, listing, counts, Some(k));
      NodesAddUp(s, user, listing, counts, parent, kids[1..]);
      FolderSplits(s, user, listing, k);
      KidsApart(s.folders, parent, kids);
      FiledJoins(s, user, Within(s.folders, k), WithinAny(s.folders, kids[1..]));
    }
  }

  lemma NothingFiled(s: Store, user: string, kids: seq<Id>)
    requires kids == []
    ensures |Filed(s, user, WithinAny(s.folders, kids))| == 0
  {
    assert WithinAny(s.folders, kids) == {};
    assert Filed(s, user, {}) == {};
  }

  // ---------------------------------------------------------------- the endpoint

  /** Each live problem is unfiled or counted at the top exactly once. */
  lemma RootCountsConserve(s: Store, user: string, listing: seq<Id>, counts: map<Id, nat>)
    requires Sound(s) && Enumerates(listing, s, user) && Counted(s, user, listing, counts)
    ensures Total(Tree(s.folders, listing, counts, None)) + |Unfiled(s, user)| == |LiveProblems(s, user)|
  {
    hide SortedKids, Rooted, UnderAny, Acyclic, Tree, Counted;
    TreeAddsUp(s, user, listing, counts, None);
    var top := WithinAny(s.folders, SortedKids(s.folders, listing, None));
    assert Complete(s.folders, listing);
    forall x | x in listing ensures x in top {
      AcyclicHere(s.folders, x);
      UnderKids(s.folders, listing, None, x);
    }
    assert LiveProblems(s, user) == Filed(s, user, top) + Unfiled(s, user);
    assert Filed(s, user, top) !! Unfiled(s, user);
  }

  /** The tree holds every folder of the user exactly once. */
  lemma TreeListsEveryFolderOnce(s: Store, user: string, listing: seq<Id>, counts: map<Id, nat>)
    requires Sound(s) && Enumerates(listing, s, user)
    ensures var ids := Ids(Tree(s.folders, listing, counts, None));
            Distinct(ids) && forall x :: x in ids <==> x in UserFolders(s, user)
  {
    hide SortedKids, Rooted, UnderAny, Acyclic, Tree, Ids;
    assert Complete(s.folders, listing);
    TreeIds(s.folders, listing, counts, None);
    forall x | x in listing ensures UnderAny(s.folders, SortedKids(s.folders, listing, None), x) {
      AcyclicHere(s.folders, x);
      UnderKids(s.folders, listing, None, x);
    }
  }

  method CountInTree(s: Store, user: string, a: Id) returns (n: nat)
    requires a in s.folders
    ensures n == |Filed(s, user, Within(s.folders, a))|
  {
    hide Below, AtOrBelow, Filed;
    var below := Descendants(s.folders, a);
    forall x ensures x in below + {a} <==> x in Within(s.folders, a) {
      AtOrBelowIff(s.folders, a, x);
      if x != a { BelowByParent(s.folders, a, x); }
    }
    assert below + {a} == Within(s.folders, a);
    n := |Filed(s, user, below + {a})|;
  }

  method ListTree(s: Store, user: string, listing: seq<Id>) returns (r: Listing)
    requires Sound(s) && Enumerates(listing, s, user)
    ensures r.all == |LiveProblems(s, user)| && r.unfiled == |Unfiled(s, user)|
    ensures Distinct(Ids(r.items)) && forall x :: x in Ids(r.items) <==> x in UserFolders(s, user)
    ensures AddsUp(s, user, r.items) && Total(r.items) + r.unfiled == r.all
    ensures exists counts :: Counted(s, user, listing, counts) && r.items == Tree(s.folders, listing, counts, None)
  {
    hide Sound, Filed, Within, Tree, Ids, AddsUp, LiveProblems, Unfiled;
    var counts := map[];
    for k := 0 to |listing|
      invariant forall j :: 0 <= j < k ==>
                listing[j] in counts && counts[listing[j]] == |Filed(s, user, Within(s.folders, listing[j]))|
    {
      var n := CountInTree(s, user, listing[k]);
      counts := counts[listing[k] := n];
    }
    assert Counted(s, user, listing, counts);
    TreeAddsUp(s, user, listing, counts, None);
    TreeListsEveryFolderOnce(s, user, listing, counts);
    RootCountsConserve(s, user, listing, counts);
    r := Listing(|LiveProblems(s, user)|, |Unfiled(s, user)|, Tree(s.folders, listing, counts, None));
  }
}
