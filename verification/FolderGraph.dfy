/** The parent graph of the folder collection. Every folder document names at most one parent, so
    the ancestors of a folder form a chain that either ends or runs into a cycle. */
module FolderGraph {
  import opened Prelude

  type Id = string

  datatype Folder = Folder(name: string, owner: string, parent: Option<Id>)

  type Folders = map<Id, Folder>

  function Parent(fs: Folders, x: Id): Option<Id> {
    if x in fs then fs[x].parent else None
  }

  /** The folder `n` parents above `x`. */
  function Climb(fs: Folders, x: Id, n: nat): Option<Id>
    decreases n
  {
    if n == 0 then Some(x)
    else match Parent(fs, x)
      case None => None
      case Some(p) => Climb(fs, p, n - 1)
  }

  /** `d` is a transitive descendant of `a`. */
  ghost predicate Below(fs: Folders, a: Id, d: Id) {
    exists n: nat :: n > 0 && Climb(fs, d, n) == Some(a)
  }

  ghost predicate AtOrBelow(fs: Folders, a: Id, d: Id) {
    exists n: nat :: Climb(fs, d, n) == Some(a)
  }

  ghost predicate Acyclic(fs: Folders) {
    forall x :: !Below(fs, x, x)
  }

  /** The chain above `x` comes to an end. */
  ghost predicate Rooted(fs: Folders, x: Id) {
    exists n: nat :: Climb(fs, x, n) == None
  }

  // ---------------------------------------------------------------- climbing

  lemma {:induction false} ClimbFurther(fs: Folders, x: Id, m: nat, n: nat)
    ensures Climb(fs, x, m + n) ==
            match Climb(fs, x, m) case None => None case Some(y) => Climb(fs, y, n)
    decreases m
  {
    if m > 0 && Parent(fs, x).Some? {
      ClimbFurther(fs, Parent(fs, x).value, m - 1, n);
    }
  }

  lemma BelowTransitive(fs: Folders, a: Id, b: Id, c: Id)
    requires AtOrBelow(fs, a, b) && Below(fs, b, c)
    ensures Below(fs, a, c)
  {
    var m: nat :| Climb(fs, b, m) == Some(a);
    var n: nat :| n > 0 && Climb(fs, c, n) == Some(b);
    ClimbFurther(fs, c, n, m);
    assert Climb(fs, c, n + m) == Some(a);
  }

  /** A descendant is a child or a descendant of a child: the two ways down. */
  lemma BelowByParent(fs: Folders, a: Id, d: Id)
    ensures Below(fs, a, d) <==> Parent(fs, d).Some? && AtOrBelow(fs, a, Parent(fs, d).value)
  {
    if Below(fs, a, d) {
      var n: nat :| n > 0 && Climb(fs, d, n) == Some(a);
      assert Climb(fs, Parent(fs, d).value, n - 1) == Some(a);
    }
    if Parent(fs, d).Some? && AtOrBelow(fs, a, Parent(fs, d).value) {
      var n: nat :| Climb(fs, Parent(fs, d).value, n) == Some(a);
      assert Climb(fs, d, n + 1) == Some(a);
    }
  }

  lemma AtOrBelowIff(fs: Folders, a: Id, d: Id)
    ensures AtOrBelow(fs, a, d) <==> a == d || Below(fs, a, d)
  {
    if AtOrBelow(fs, a, d) {
      var n: nat :| Climb(fs, d, n) == Some(a);
      if n == 0 { assert a == d; }
    }
    assert Climb(fs, d, 0) == Some(d);
  }

  lemma {:induction false} CycleNeverEnds(fs: Folders, x: Id, m: nat, k: nat)
    requires m > 0 && Climb(fs, x, m) == Some(x)
    ensures Climb(fs, x, k).Some?
    decreases k
  {
    if k <= m {
      ClimbFurther(fs, x, k, m - k);
    } else {
      CycleNeverEnds(fs, x, m, k - m);
      ClimbFurther(fs, x, m, k - m);
    }
  }

  lemma RootedNotBelowItself(fs: Folders, x: Id)
    requires Rooted(fs, x)
    ensures !Below(fs, x, x)
  {
    if Below(fs, x, x) {
      var m: nat :| m > 0 && Climb(fs, x, m) == Some(x);
      var k: nat :| Climb(fs, x, k) == None;
      CycleNeverEnds(fs, x, m, k);
    }
  }

  lemma RootedThroughParent(fs: Folders, x: Id)
    ensures Rooted(fs, x) <==> Parent(fs, x).Some? ==> Rooted(fs, Parent(fs, x).value)
  {
    if Rooted(fs, x) && Parent(fs, x).Some? {
      var n: nat :| Climb(fs, x, n) == None;
      assert Climb(fs, Parent(fs, x).value, n - 1) == None;
    }
    if Parent(fs, x).None? {
      assert Climb(fs, x, 1) == None;
    } else if Rooted(fs, Parent(fs, x).value) {
      var n: nat :| Climb(fs, Parent(fs, x).value, n) == None;
      assert Climb(fs, x, n + 1) == None;
    }
  }

  /** Without cycles every chain ends: a finite collection cannot feed it for ever. */
  lemma {:induction false} AcyclicIsRooted(fs: Folders, x: Id, passed: set<Id>)
    requires Acyclic(fs) && passed <= fs.Keys && (forall v :: v in passed ==> Below(fs, x, v))
    ensures Rooted(fs, x)
    decreases |fs.Keys - passed|
  {
    RootedThroughParent(fs, x);
    if Parent(fs, x).Some? {
      var p := Parent(fs, x).value;
      assert x !in passed by { assert !Below(fs, x, x); }
      BelowByParent(fs, p, x);
      assert Climb(fs, p, 0) == Some(p);
      forall v | v in passed + {x} ensures Below(fs, p, v) {
        if v != x {
          AtOrBelowIff(fs, p, x);
          BelowTransitive(fs, p, x, v);
        }
      }
      assert fs.Keys - (passed + {x}) < fs.Keys - passed;
      SubsetSmaller(fs.Keys - (passed + {x}), fs.Keys - passed);
      AcyclicIsRooted(fs, p, passed + {x});
    }
  }

  lemma SubsetSmaller<T>(a: set<T>, b: set<T>)
    requires a < b
    ensures |a| < |b|
  {
    assert |b| == |a| + |b - a| by { assert b == a + (b - a); }
    assert b - a != {};
  }

  /** An acyclic parent graph is one in which every chain of ancestors ends. */
  lemma AcyclicIffRooted(fs: Folders)
    ensures Acyclic(fs) <==> forall x :: Rooted(fs, x)
  {
    if Acyclic(fs) {
      forall x ensures Rooted(fs, x) { AcyclicIsRooted(fs, x, {}); }
    }
    if forall x :: Rooted(fs, x) {
      forall x ensures !Below(fs, x, x) { RootedNotBelowItself(fs, x); }
    }
  }

  // ---------------------------------------------------------------- changing one edge

  predicate AgreeOff(fs: Folders, gs: Folders, f: Id) {
    && (forall x :: x in fs && x != f ==> Parent(fs, x) == Parent(gs, x))
    && (forall x :: x in gs && x != f ==> Parent(fs, x) == Parent(gs, x))
  }

  lemma {:induction false} SameClimbOff(fs: Folders, gs: Folders, f: Id, x: Id, n: nat)
    requires AgreeOff(fs, gs, f) && (forall j: nat :: j < n ==> Climb(fs, x, j) != Some(f))
    ensures Climb(gs, x, n) == Climb(fs, x, n)
    decreases n
  {
    if n > 0 {
      assert Climb(fs, x, 0) != Some(f);
      assert x != f && Parent(fs, x) == Parent(gs, x);
      if Parent(fs, x).Some? {
        var p := Parent(fs, x).value;
        forall j: nat | j < n - 1 ensures Climb(fs, p, j) != Some(f) {
          assert Climb(fs, x, j + 1) == Climb(fs, p, j);
        }
        SameClimbOff(fs, gs, f, p, n - 1);
      }
    }
  }

  /** Whatever happens to the edge above `f`, the rest stays acyclic as long as `f` is not put
      under itself or under one of its old descendants. */
  lemma ReparentKeepsAcyclic(fs: Folders, gs: Folders, f: Id)
    requires Acyclic(fs) && AgreeOff(fs, gs, f)
    requires Parent(gs, f).Some? ==> Parent(gs, f).value != f && !Below(fs, f, Parent(gs, f).value)
    ensures Acyclic(gs)
  {
    NotOnCycle(fs, gs, f);
    forall x ensures !Below(gs, x, x) {
      if Below(gs, x, x) {
        var n: nat :| n > 0 && Climb(gs, x, n) == Some(x);
        if j: nat :| j < n && Climb(gs, x, j) == Some(f) {
          ClimbFurther(gs, x, j, n - j);
          ClimbFurther(gs, f, n - j, j);
          assert false;
        } else {
          SameClimbOff(gs, fs, f, x, n);
          assert Below(fs, x, x);
        }
      }
    }
  }

  lemma NotOnCycle(fs: Folders, gs: Folders, f: Id)
    requires AgreeOff(fs, gs, f)
    requires Parent(gs, f).Some? ==> Parent(gs, f).value != f && !Below(fs, f, Parent(gs, f).value)
    ensures !Below(gs, f, f)
  {
    if Below(gs, f, f) {
      var n: nat :| n > 0 && Climb(gs, f, n) == Some(f);
      var p := Parent(gs, f).value;
      AtOrBelowIff(fs, f, p);
      assert forall j: nat :: Climb(fs, p, j) != Some(f);
      SameClimbOff(fs, gs, f, p, n - 1);
      assert false;
    }
  }

  // ---------------------------------------------------------------- breadth-first closure

  predicate ChildOfAny(fs: Folders, c: Id, batch: seq<Id>) {
    c in fs && fs[c].parent.Some? && fs[c].parent.value in batch
  }

  /** Everything under a finished folder has been found. */
  ghost predicate ClosedOutside(fs: Folders, root: Id, found: set<Id>, frontier: seq<Id>) {
    forall c, p :: c in fs && fs[c].parent == Some(p) && (p == root || p in found) && p !in frontier ==> c in found
  }

  lemma {:induction false} ClosedHoldsAllBelow(fs: Folders, root: Id, found: set<Id>, d: Id, n: nat)
    requires ClosedOutside(fs, root, found, []) && n > 0 && Climb(fs, d, n) == Some(root)
    ensures d in found
    decreases n
  {
    if n > 1 {
      ClosedHoldsAllBelow(fs, root, found, Parent(fs, d).value, n - 1);
    } else {
      assert Climb(fs, Parent(fs, d).value, 0) == Some(root);
    }
  }

  lemma ClosedIsAllBelow(fs: Folders, root: Id, found: set<Id>)
    requires ClosedOutside(fs, root, found, []) && (forall d :: d in found ==> Below(fs, root, d))
    ensures forall d :: d in found <==> Below(fs, root, d)
  {
    forall d | Below(fs, root, d) ensures d in found {
      var n: nat :| n > 0 && Climb(fs, d, n) == Some(root);
      ClosedHoldsAllBelow(fs, root, found, d, n);
    }
  }

  lemma ChildIsBelow(fs: Folders, root: Id, child: Id)
    requires child in fs && fs[child].parent.Some?
    requires fs[child].parent.value == root || Below(fs, root, fs[child].parent.value)
    ensures Below(fs, root, child)
  {
    AtOrBelowIff(fs, root, fs[child].parent.value);
    BelowByParent(fs, root, child);
  }

  /** The children of one batch that were not known yet, in the order the cursor yields them. */
  method NewChildren(fs: Folders, batch: seq<Id>, known: set<Id>) returns (found: set<Id>, added: seq<Id>)
    requires known <= fs.Keys
    ensures found == known + set c | c in fs && ChildOfAny(fs, c, batch)
    ensures forall x :: x in added <==> x in found && x !in known
  {
    found, added := known, [];
    var children := set c | c in fs && ChildOfAny(fs, c, batch);
    ghost var all := children;
    while children != {}
      invariant children <= all && found == known + (all - children)
      invariant forall x :: x in added <==> x in found && x !in known
      decreases children
    {
      var child :| child in children;
      children := children - {child};
      if child !in found {
        found := found + {child};
        added := added + [child];
      }
    }
  }

  lemma NothingFoundIsClosed(fs: Folders, root: Id)
    ensures ClosedOutside(fs, root, {}, [root])
  {
  }

  lemma BatchKeepsClosed(fs: Folders, root: Id, before: set<Id>, batch: seq<Id>, found: set<Id>, added: seq<Id>)
    requires ClosedOutside(fs, root, before, batch)
    requires found == before + set c | c in fs && ChildOfAny(fs, c, batch)
    requires forall x :: x in added <==> x in found && x !in before
    ensures ClosedOutside(fs, root, found, added)
  {
    forall c, p | c in fs && fs[c].parent == Some(p) && (p == root || p in found) && p !in added ensures c in found {
      assert p == root || p in before;
      assert p in batch ==> ChildOfAny(fs, c, batch);
    }
  }

  lemma BatchIsBelow(fs: Folders, root: Id, before: set<Id>, batch: seq<Id>)
    requires forall d :: d in before ==> Below(fs, root, d)
    requires forall x :: x in batch ==> x == root || x in before
    ensures forall c :: c in fs && ChildOfAny(fs, c, batch) ==> Below(fs, root, c)
  {
    hide Below;
    forall c | c in fs && ChildOfAny(fs, c, batch) ensures Below(fs, root, c) { ChildIsBelow(fs, root, c); }
  }

  /** All transitive descendants of a folder, batch by batch. The parent graph may hold cycles and
      parents that do not exist. */
  method Descendants(fs: Folders, root: Id) returns (found: set<Id>)
    ensures forall d :: d in found <==> Below(fs, root, d)
  {
    hide Below, Climb, ClosedOutside, ChildOfAny;
    found := {};
    var toCheck := [root];
    NothingFoundIsClosed(fs, root);
    while toCheck != []
      invariant found <= fs.Keys
      invariant forall d :: d in found ==> Below(fs, root, d)
      invariant forall x :: x in toCheck ==> x == root || x in found
      invariant ClosedOutside(fs, root, found, toCheck)
      decreases |fs.Keys - found|, |toCheck|
    {
      var batch := toCheck;
      ghost var before := found;
      found, toCheck := NewChildren(fs, batch, found);
      BatchIsBelow(fs, root, before, batch);
      BatchKeepsClosed(fs, root, before, batch, found, toCheck);
      if toCheck != [] {
        assert toCheck[0] in found && toCheck[0] !in before;
        SubsetSmaller(fs.Keys - found, fs.Keys - before);
      } else {
        assert found == before by { assert forall x :: x in found ==> x in before; }
      }
    }
    ClosedIsAllBelow(fs, root, found);
  }
}
