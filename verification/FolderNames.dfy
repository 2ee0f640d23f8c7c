/** How far the handlers' own checks keep the names of sibling folders apart. */
module FolderNames {
  import opened Prelude
  import opened FolderGraph
  import opened FolderStore

  /** No two folders at one place of one user differ in case alone. */
  predicate UniqueNames(fs: Folders) {
    forall x | x in fs :: !Clashes(fs, fs[x].owner, fs[x].name, fs[x].parent, Some(x))
  }

  lemma SameNameBothWays(a: string, b: string)
    ensures SameName(a, b) <==> SameName(b, a)
  {
  }

  /** Placing one folder: names stay apart exactly when nobody at its place has its name. */
  lemma PlacedApartIff(fs: Folders, id: Id, f: Folder)
    requires forall x | x in fs && x != id :: !Clashes(fs - {id}, fs[x].owner, fs[x].name, fs[x].parent, Some(x))
    ensures UniqueNames(fs[id := f]) <==> !Clashes(fs, f.owner, f.name, f.parent, Some(id))
  {
    hide SameName;
    var gs := fs[id := f];
    if Clashes(fs, f.owner, f.name, f.parent, Some(id)) {
      var x :| x in fs && x != id && fs[x].owner == f.owner && fs[x].parent == f.parent && SameName(fs[x].name, f.name);
      assert gs[x] == fs[x];
      assert Clashes(gs, f.owner, f.name, f.parent, Some(id));
    } else {
      forall x | x in gs ensures !Clashes(gs, gs[x].owner, gs[x].name, gs[x].parent, Some(x)) {
        forall y | y in gs && y != x && gs[y].owner == gs[x].owner && gs[y].parent == gs[x].parent
          ensures !SameName(gs[y].name, gs[x].name) {
          SameNameBothWays(gs[x].name, gs[y].name);
          if x != id && y != id {
            assert y in fs - {id} && (fs - {id})[y] == gs[y];
          }
        }
      }
    }
  }

  lemma ApartWithout(fs: Folders, id: Id)
    requires UniqueNames(fs)
    ensures UniqueNames(fs - {id})
    ensures forall x | x in fs && x != id :: !Clashes(fs - {id}, fs[x].owner, fs[x].name, fs[x].parent, Some(x))
  {
    hide SameName;
    forall x | x in fs && x != id ensures !Clashes(fs - {id}, fs[x].owner, fs[x].name, fs[x].parent, Some(x)) {
      forall y | y in fs - {id} && y != x && fs[y].owner == fs[x].owner && fs[y].parent == fs[x].parent
        ensures !SameName((fs - {id})[y].name, fs[x].name) {
        assert (fs - {id})[y] == fs[y];
      }
    }
  }

  /** A renaming within letter case leaves the names its siblings may not have as they were. */
  lemma SameCase(fs: Folders, user: string, a: string, b: string, parent: Option<Id>, except: Option<Id>)
    requires Lower(a) == Lower(b)
    ensures Clashes(fs, user, a, parent, except) <==> Clashes(fs, user, b, parent, except)
  {
    hide Lower, SameName;
    TakenIsClash(fs, user, a, parent, except);
    TakenIsClash(fs, user, b, parent, except);
  }

  /** An update that goes through keeps names apart exactly when it is not a renaming and a move at once
      to a place where the new name is taken: there the handler looks at neither place. */
  lemma UpdateKeepsNamesIff(s: Store, user: string, id: Id, raw: Option<string>, move: Option<Option<Id>>)
    requires UniqueNames(s.folders) && UpdateFailure(s, user, id, raw, move).None?
    ensures var fs := Update(s, user, id, raw, move).folders;
            && id in fs
            && (UniqueNames(fs) <==> !(raw.Some? && move.Some?
                                       && Clashes(s.folders, user, fs[id].name, move.value, Some(id))))
  {
    hide Lower, Strip, NameFailure, SameName, Clashes, UniqueNames, NameTaken, CycleFailure;
    var fs := s.folders;
    var f := Update(s, user, id, raw, move).folders[id];
    ApartWithout(fs, id);
    PlacedApartIff(fs, id, f);
    assert !Clashes(fs, user, fs[id].name, fs[id].parent, Some(id)) by { NoClashHere(fs, id); }
    TakenIsClash(fs, user, f.name, fs[id].parent, Some(id));
    TakenIsClash(fs, user, f.name, f.parent, Some(id));
    if Lower(f.name) == Lower(fs[id].name) {
      SameCase(fs, user, f.name, fs[id].name, fs[id].parent, Some(id));
    }
  }

  lemma NoClashHere(fs: Folders, id: Id)
    requires UniqueNames(fs) && id in fs
    ensures !Clashes(fs, fs[id].owner, fs[id].name, fs[id].parent, Some(id))
  {
    hide Clashes;
  }

  lemma CreateKeepsNames(s: Store, user: string, raw: string, parent: Option<Id>, id: Id)
    requires UniqueNames(s.folders)
    ensures UniqueNames(Create(s, user, raw, parent, id).folders)
  {
    hide Lower, Strip, NameFailure, SameName, Clashes, UniqueNames, NameTaken;
    if CreateFailure(s, user, raw, parent).None? && id !in s.folders {
      ApartWithout(s.folders, id);
      PlacedApartIff(s.folders, id, Folder(Strip(raw), user, parent));
      TakenIsClash(s.folders, user, Strip(raw), parent, None);
      ExceptMissing(s.folders, user, Strip(raw), parent, id);
    }
  }

  lemma ExceptMissing(fs: Folders, user: string, name: string, parent: Option<Id>, id: Id)
    requires id !in fs
    ensures Clashes(fs, user, name, parent, None) <==> Clashes(fs, user, name, parent, Some(id))
  {
    hide SameName;
    if Clashes(fs, user, name, parent, None) {
      var x :| x in fs && fs[x].owner == user && fs[x].parent == parent && SameName(fs[x].name, name);
      assert Some(x) != Some(id);
    }
  }

  /** Not a renaming and a move in one request. */
  predicate OneChange(q: Request) {
    q.UpdateFolder? ==> q.rename.None? || q.move.None?
  }

  lemma ApplyKeepsNames(s: Store, user: string, q: Request)
    requires UniqueNames(s.folders) && OneChange(q)
    ensures UniqueNames(Apply(s, user, q).folders)
  {
    hide UniqueNames, Create, UpdateFailure, CreateFailure, Clashes;
    match q
    case CreateFolder(name, parent, newId) => CreateKeepsNames(s, user, name, parent, newId);
    case UpdateFolder(id, rename, move) =>
      if UpdateFailure(s, user, id, rename, move).None? { UpdateKeepsNamesIff(s, user, id, rename, move); }
    case DeleteFolder(id) => ApartWithout(s.folders, id);
    case _ =>
  }

  /** Over every run in which no request renames and moves at once, no two sibling folders of a user
      have the same name. */
  lemma {:induction false} RunsKeepNames(s: Store, qs: seq<(string, Request)>)
    requires UniqueNames(s.folders) && forall k :: 0 <= k < |qs| ==> OneChange(qs[k].1)
    ensures UniqueNames(Run(s, qs).folders)
    decreases |qs|
  {
    hide UniqueNames, Apply, OneChange;
    if qs != [] {
      ApplyKeepsNames(s, qs[0].0, qs[0].1);
      RunsKeepNames(Apply(s, qs[0].0, qs[0].1), qs[1..]);
    }
  }

  /** Renamed and moved at once, `b` at the top level comes to stand beside an `a` under the name `A`. */
  lemma RenameAndMoveClashes(user: string)
    ensures var fs: Folders := map["r" := Folder("r", user, None), "x" := Folder("a", user, Some("r")),
                                   "y" := Folder("b", user, None)];
            var s := Store(fs, map[]);
            && UpdateFailure(s, user, "y", Some("A"), Some(Some("r"))).None?
            && UniqueNames(fs) && !UniqueNames(Update(s, user, "y", Some("A"), Some(Some("r"))).folders)
  {
    var fs: Folders := map["r" := Folder("r", user, None), "x" := Folder("a", user, Some("r")),
                           "y" := Folder("b", user, None)];
    var s := Store(fs, map[]);
    assert Strip("A") == "A";
    assert !Below(fs, "y", "r") by { TopIsBelowNone(fs, "y", "r"); }
    assert SameLetter('a', 'A') && !SameLetter('r', 'b');
    var gs := Update(s, user, "y", Some("A"), Some(Some("r"))).folders;
    hide Strip;
    assert UpdateFailure(s, user, "y", Some("A"), Some(Some("r"))).None? by {
      LoweredIsSameName("r", "A");
      assert !SameLetter('r', 'A');
      assert !NameTaken(fs, user, "A", None, Some("y"));
    }
    assert gs["x"] == fs["x"] && gs["y"].name == "A" && gs["y"].parent == Some("r");
    assert SameName(gs["x"].name, gs["y"].name);
    assert Clashes(gs, user, "A", Some("r"), Some("y"));
    assert !SameName("r", "b") && !SameName("b", "r");
  }

  lemma TopIsBelowNone(fs: Folders, a: Id, d: Id)
    requires d in fs && fs[d].parent.None?
    ensures !Below(fs, a, d)
  {
    if n: nat :| n > 0 && Climb(fs, d, n) == Some(a) {
      assert false;
    }
  }
}
