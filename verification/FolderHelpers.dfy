/** The helpers the browser runs over the folder tree, and what they agree with: each other, and
    the parent graph on the server. */
module FolderHelpers {
  import opened Prelude
  import opened Sorting
  import opened FolderGraph
  import opened FolderStore
  import opened FolderTree
  import opened FolderCounts

  function Flatten(forest: seq<Node>, depth: nat): seq<(Node, nat)> {
    if forest == [] then []
    else [(forest[0], depth)] + Flatten(forest[0].children, depth + 1) + Flatten(forest[1..], depth)
  }

  /** The first folder with this id, in the order the tree is shown. */
  function FindFolder(forest: seq<Node>, id: Id): Option<Node> {
    if forest == [] then None
    else if forest[0].id == id then Some(forest[0])
    else match FindFolder(forest[0].children, id)
      case Some(n) => Some(n)
      case None => FindFolder(forest[1..], id)
  }

  function IdSet(forest: seq<Node>): set<Id> {
    set x | x in Ids(forest)
  }

  method DescendantIds(folder: Node) returns (ids: set<Id>)
    ensures ids == IdSet(folder.children)
    decreases folder
  {
    ids := {};
    for k := 0 to |folder.children|
      invariant ids == IdSet(folder.children[..k])
    {
      var child := folder.children[k];
      var below := DescendantIds(child);
      ids := ids + {child.id} + below;
      IdsJoin(folder.children[..k], [child]);
      assert folder.children[..k] + [child] == folder.children[..k + 1];
      assert Ids([child]) == [child.id] + Ids(child.children) + [];
    }
    assert folder.children[..|folder.children|] == folder.children;
  }

  lemma {:induction false} IdsJoin(a: seq<Node>, b: seq<Node>)
    ensures Ids(a + b) == Ids(a) + Ids(b)
  {
    if a == [] {
      assert a + b == b;
    } else {
      assert a + b == [a[0]] + (a[1..] + b);
      IdsJoin(a[1..], b);
    }
  }

  // ---------------------------------------------------------------- ancestors

  /** What the visits of a forest leave in the map; a later visit of the same id wins. */
  function VisitAll(m: map<Id, seq<Id>>, forest: seq<Node>, ancestors: seq<Id>): map<Id, seq<Id>>
    decreases forest
  {
    if forest == [] then m
    else
      var f := forest[0];
      VisitAll(VisitAll(m[f.id := ancestors], f.children, ancestors + [f.id]), forest[1..], ancestors)
  }

  function AncestorMap(forest: seq<Node>): map<Id, seq<Id>> {
    VisitAll(map[], forest, [])
  }

  method Visit(m: map<Id, seq<Id>>, folder: Node, ancestors: seq<Id>) returns (r: map<Id, seq<Id>>)
    ensures r == VisitAll(m, [folder], ancestors)
    decreases folder
  {
    r := m[folder.id := ancestors];
    for k := 0 to |folder.children|
      invariant VisitAll(r, folder.children[k..], ancestors + [folder.id])
                == VisitAll(m[folder.id := ancestors], folder.children, ancestors + [folder.id])
    {
      var rest := folder.children[k..];
      assert rest[1..] == folder.children[k + 1..];
      var child := folder.children[k];
      var r' := Visit(r, child, ancestors + [folder.id]);
      assert VisitAll(r, [child], ancestors + [folder.id])
             == VisitAll(r[child.id := ancestors + [folder.id]], child.children, ancestors + [folder.id] + [child.id]);
      r := r';
    }
  }

  method BuildAncestorMap(forest: seq<Node>) returns (r: map<Id, seq<Id>>)
    ensures r == AncestorMap(forest)
  {
    r := map[];
    for k := 0 to |forest|
      invariant VisitAll(r, forest[k..], []) == AncestorMap(forest)
    {
      var rest := forest[k..];
      assert rest[1..] == forest[k + 1..];
      r := Visit(r, forest[k], []);
    }
  }

  lemma {:induction false} VisitedKeys(m: map<Id, seq<Id>>, forest: seq<Node>, ancestors: seq<Id>)
    ensures var r := VisitAll(m, forest, ancestors);
            && r.Keys == m.Keys + IdSet(forest)
            && forall b :: b in m && b !in Ids(forest) ==> r[b] == m[b]
    decreases forest
  {
    if forest != [] {
      var f := forest[0];
      var m1 := VisitAll(m[f.id := ancestors], f.children, ancestors + [f.id]);
      VisitedKeys(m[f.id := ancestors], f.children, ancestors + [f.id]);
      VisitedKeys(m1, forest[1..], ancestors);
    }
  }

  lemma {:induction false} FoundIsInside(forest: seq<Node>, id: Id)
    ensures FindFolder(forest, id).Some? <==> id in Ids(forest)
    ensures FindFolder(forest, id).Some? ==> FindFolder(forest, id).value.id == id
    ensures FindFolder(forest, id).Some? ==> forall x :: x in Ids(FindFolder(forest, id).value.children) ==>
            x in Ids(forest)
  {
    if forest != [] {
      FoundIsInside(forest[0].children, id);
      FoundIsInside(forest[1..], id);
    }
  }

  lemma DistinctParts(f: Node, rest: seq<Node>)
    requires Distinct(Ids([f] + rest))
    ensures Distinct(Ids(f.children)) && Distinct(Ids(rest))
    ensures f.id !in Ids(f.children) && f.id !in Ids(rest)
    ensures forall x :: x in Ids(f.children) ==> x !in Ids(rest)
  {
    var a, b := Ids(f.children), Ids(rest);
    assert ([f] + rest)[1..] == rest;
    var all := [f.id] + a + b;
    assert Ids([f] + rest) == all;
    assert all[0] == f.id;
    assert forall k :: 0 <= k < |a| ==> a[k] == all[k + 1];
    assert forall k :: 0 <= k < |b| ==> b[k] == all[k + 1 + |a|];
  }

  /** `b` is among the ids under the folder found for `a`. */
  predicate Under(forest: seq<Node>, a: Id, b: Id) {
    FindFolder(forest, a).Some? && b in Ids(FindFolder(forest, a).value.children)
  }

  lemma UnderSplits(f: Node, rest: seq<Node>, a: Id, b: Id)
    requires Distinct(Ids([f] + rest))
    ensures b in Ids(rest) ==> (Under([f] + rest, a, b) <==> Under(rest, a, b))
    ensures b in Ids(f.children) ==> (Under([f] + rest, a, b) <==> a == f.id || Under(f.children, a, b))
    ensures b == f.id ==> !Under([f] + rest, a, b)
  {
    hide Ids, Distinct;
    DistinctParts(f, rest);
    FoundIsInside(f.children, a);
    FoundIsInside(rest, a);
    assert ([f] + rest)[1..] == rest;
  }

  /** `a` is recorded above `b` exactly when `b` is under `a`, or `a` was above the whole forest. */
  lemma {:induction false} VisitIsDual(m: map<Id, seq<Id>>, forest: seq<Node>, above: seq<Id>, a: Id, b: Id)
    requires Distinct(Ids(forest)) && b in Ids(forest)
    ensures b in VisitAll(m, forest, above)
    ensures a in VisitAll(m, forest, above)[b] <==> a in above || Under(forest, a, b)
    decreases forest
  {
    hide Distinct, Under;
    var f, rest := forest[0], forest[1..];
    assert forest == [f] + rest;
    DistinctParts(f, rest);
    UnderSplits(f, rest, a, b);
    var m0 := m[f.id := above];
    var m1 := VisitAll(m0, f.children, above + [f.id]);
    VisitedKeys(m0, f.children, above + [f.id]);
    VisitedKeys(m1, rest, above);
    if b in Ids(rest) {
      VisitIsDual(m1, rest, above, a, b);
    } else if b in Ids(f.children) {
      VisitIsDual(m0, f.children, above + [f.id], a, b);
    }
  }

  /** On a tree with distinct ids, ancestors and descendants are two readings of one relation. */
  lemma AncestorDescendantDuality(forest: seq<Node>, a: Id, b: Id)
    requires Distinct(Ids(forest)) && b in Ids(forest)
    ensures b in AncestorMap(forest)
    ensures a in AncestorMap(forest)[b] <==>
              FindFolder(forest, a).Some? && b in IdSet(FindFolder(forest, a).value.children)
  {
    VisitIsDual(map[], forest, [], a, b);
  }

  lemma {:induction false} FlattenedIds(forest: seq<Node>, depth: nat)
    ensures |Flatten(forest, depth)| == |Ids(forest)|
    ensures forall k :: 0 <= k < |Ids(forest)| ==> Flatten(forest, depth)[k].0.id == Ids(forest)[k]
  {
    if forest != [] {
      FlattenedIds(forest[0].children, depth + 1);
      FlattenedIds(forest[1..], depth);
    }
  }

  /** A row is shown as deep as its folder has ancestors. */
  lemma {:induction false} DepthCountsAncestors(m: map<Id, seq<Id>>, forest: seq<Node>, above: seq<Id>, k: nat)
    requires Distinct(Ids(forest)) && k < |Flatten(forest, |above|)|
    ensures var (n, depth) := Flatten(forest, |above|)[k];
            n.id in VisitAll(m, forest, above) && |VisitAll(m, forest, above)[n.id]| == depth
    decreases forest
  {
    hide Distinct;
    var f, rest := forest[0], forest[1..];
    assert forest == [f] + rest;
    DistinctParts(f, rest);
    var m0 := m[f.id := above];
    var m1 := VisitAll(m0, f.children, above + [f.id]);
    var inside, after := Flatten(f.children, |above| + 1), Flatten(rest, |above|);
    VisitedKeys(m0, f.children, above + [f.id]);
    VisitedKeys(m1, rest, above);
    RowParts(forest, |above|, k);
    if 1 <= k < 1 + |inside| {
      DepthCountsAncestors(m0, f.children, above + [f.id], k - 1);
    } else if k > |inside| {
      DepthCountsAncestors(m1, rest, above, k - 1 - |inside|);
    }
  }

  /** Where row `k` of a flattened forest comes from. */
  lemma RowParts(forest: seq<Node>, depth: nat, k: nat)
    requires k < |Flatten(forest, depth)|
    ensures var f, rest, row := forest[0], forest[1..], Flatten(forest, depth)[k];
            var inside, after := Flatten(f.children, depth + 1), Flatten(rest, depth);
            && (k == 0 ==> row == (f, depth))
            && (1 <= k < 1 + |inside| ==> row == inside[k - 1] && row.0.id in Ids(f.children))
            && (k > |inside| ==> k - 1 - |inside| < |after| && row == after[k - 1 - |inside|] && row.0.id in Ids(rest))
  {
    hide Ids;
    FlattenedIds(forest[0].children, depth + 1);
    FlattenedIds(forest[1..], depth);
  }

  lemma FlattenDepthIsAncestorCount(forest: seq<Node>, k: nat)
    requires Distinct(Ids(forest)) && k < |Flatten(forest, 0)|
    ensures var (n, depth) := Flatten(forest, 0)[k];
            n.id in AncestorMap(forest) && |AncestorMap(forest)[n.id]| == depth
  {
    DepthCountsAncestors(map[], forest, [], k);
  }

  // ---------------------------------------------------------------- browser and server

  lemma {:induction false} FoundInTree(fs: Folders, listing: seq<Id>, counts: map<Id, nat>, parent: Option<Id>, a: Id)
    requires Complete(fs, listing) && ParentRooted(fs, parent)
    ensures var found := FindFolder(Tree(fs, listing, counts, parent), a);
            found.Some? ==> Rooted(fs, a) && found.value.children == Tree(fs, listing, counts, Some(a))
    decreases |Remaining(fs, parent)|, 1, 0
  {
    hide SortedKids, FindFolder, ParentRooted, Remaining;
    FoundInNodes(fs, listing, counts, parent, SortedKids(fs, listing, parent), a);
  }

  lemma {:induction false} FoundInNodes(fs: Folders, listing: seq<Id>, counts: map<Id, nat>, parent: Option<Id>,
                                        kids: seq<Id>, a: Id)
    requires Complete(fs, listing) && ParentRooted(fs, parent)
    requires forall k :: k in kids ==> k in fs && fs[k].parent == parent
    ensures var found := FindFolder(Nodes(fs, listing, counts, parent, kids), a);
            found.Some? ==> Rooted(fs, a) && found.value.children == Tree(fs, listing, counts, Some(a))
    decreases |Remaining(fs, parent)|, 0, |kids|
  {
    hide SortedKids, Rooted, ParentRooted, Remaining, Tree;
    if kids != [] {
      DescentShrinks(fs, parent, kids[0]);
      RootedParent(fs, kids[0]);
      FoundInTree(fs, listing, counts, Some(kids[0]), a);
      FoundInNodes(fs, listing, counts, parent, kids[1..], a);
    }
  }

  /** The ancestors the browser computes from the tree are the ancestors in the folder collection,
      and so are the descendants. */
  lemma BrowserAgreesWithServer(s: Store, user: string, listing: seq<Id>, counts: map<Id, nat>, a: Id, b: Id)
    requires Sound(s) && Enumerates(listing, s, user) && a in listing && b in listing
    ensures var forest := Tree(s.folders, listing, counts, None);
            && b in AncestorMap(forest) && (a in AncestorMap(forest)[b] <==> Below(s.folders, a, b))
            && FindFolder(forest, a).Some?
            && (b in IdSet(FindFolder(forest, a).value.children) <==> Below(s.folders, a, b))
  {
    hide Tree, Ids, Rooted, UnderAny, Acyclic, AncestorMap, SortedKids, Below;
    var forest := Tree(s.folders, listing, counts, None);
    TreeListsEveryFolderOnce(s, user, listing, counts);
    AncestorDescendantDuality(forest, a, b);
    FoundIsInside(forest, a);
    assert Complete(s.folders, listing);
    FoundInTree(s.folders, listing, counts, None, a);
    TreeIds(s.folders, listing, counts, Some(a));
    UnderKids(s.folders, listing, Some(a), b);
  }

  /** Siblings are shown in the order of their lower-cased names. */
  lemma SiblingsByName(fs: Folders, listing: seq<Id>, parent: Option<Id>)
    ensures Ordered(SortedKids(fs, listing, parent), ByName(fs))
  {
    forall a, b ensures ByName(fs)(a, b) || ByName(fs)(b, a) { LexTotal(LowerName(fs, a), LowerName(fs, b)); }
    forall a, b, c | ByName(fs)(a, b) && ByName(fs)(b, c) ensures ByName(fs)(a, c) {
      LexTransitive(LowerName(fs, a), LowerName(fs, b), LowerName(fs, c));
    }
    SortOrdered(Kids(fs, listing, parent), ByName(fs));
  }
}
