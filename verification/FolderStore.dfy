/** The folder endpoints over the folder and problem collections, one request at a time. */
module FolderStore {
  import opened Prelude
  import opened FolderGraph

  datatype Problem = Problem(owner: string, folder: Option<Id>, deleted: bool)

  datatype Store = Store(folders: Folders, problems: map<Id, Problem>)

  datatype Failure =
    | NotFound | Forbidden | EmptyName | NameTooLong | DuplicateName
    | MoveUnderSelf | MoveUnderDescendant | HasSubfolders | HasProblems

  const MAX_FOLDER_NAME_LENGTH := 200

  // ---------------------------------------------------------------- names

  function StripLeft(s: string): string {
    if s != "" && PythonSpace(s[0]) then StripLeft(s[1..]) else s
  }

  function StripRight(s: string): string {
    if s != "" && PythonSpace(s[|s| - 1]) then StripRight(s[..|s| - 1]) else s
  }

  function Strip(s: string): string {
    StripRight(StripLeft(s))
  }

  function NameFailure(raw: string): Option<Failure> {
    var name := Strip(raw);
    if name == "" then Some(EmptyName)
    else if |name| > MAX_FOLDER_NAME_LENGTH then Some(NameTooLong)
    else None
  }

  function Lower(s: string): string {
    seq(|s|, k requires 0 <= k < |s| => if 'A' <= s[k] <= 'Z' then s[k] - 'A' + 'a' else s[k])
  }

  /** A sibling at this place already has the name, whatever its case. */
  predicate NameTaken(fs: Folders, user: string, name: string, parent: Option<Id>, except: Option<Id>) {
    exists x | x in fs ::
      && Some(x) != except
      && fs[x].owner == user && fs[x].parent == parent && Lower(fs[x].name) == Lower(name)
  }

  predicate AllSpace(s: string) {
    forall c | c in s :: PythonSpace(c)
  }

  lemma SpaceJoins(a: string, b: string)
    requires AllSpace(a) && AllSpace(b)
    ensures AllSpace(a + b)
  {
  }

  lemma OneSpace(c: char)
    requires PythonSpace(c)
    ensures AllSpace([c])
  {
  }

  /** `s` without the space around it. */
  ghost predicate IsTrimmed(s: string, name: string) {
    && (exists l, r :: s == l + name + r && AllSpace(l) && AllSpace(r))
    && (name != "" ==> !PythonSpace(name[0]) && !PythonSpace(name[|name| - 1]))
  }

  lemma {:induction false} StripLeftDrops(s: string) returns (l: string)
    ensures s == l + StripLeft(s) && AllSpace(l)
    ensures StripLeft(s) != "" ==> !PythonSpace(StripLeft(s)[0])
  {
    hide PythonSpace, AllSpace;
    if s != "" && PythonSpace(s[0]) {
      var rest := StripLeftDrops(s[1..]);
      l := [s[0]] + rest;
      OneSpace(s[0]);
      SpaceJoins([s[0]], rest);
    } else {
      l := "";
      assert AllSpace("") by { NoneIsSpace(); }
    }
  }

  lemma NoneIsSpace()
    ensures AllSpace("")
  {
  }

  lemma {:induction false} StripRightDrops(s: string) returns (r: string)
    ensures s == StripRight(s) + r && AllSpace(r)
    ensures StripRight(s) != "" ==> !PythonSpace(StripRight(s)[|StripRight(s)| - 1]) && StripRight(s)[0] == s[0]
  {
    hide PythonSpace, AllSpace;
    if s != "" && PythonSpace(s[|s| - 1]) {
      var before, last := s[..|s| - 1], s[|s| - 1];
      var rest := StripRightDrops(before);
      r := rest + [last];
      OneSpace(last);
      SpaceJoins(rest, [last]);
      assert StripRight(s) == StripRight(before);
      assert s == before + [last];
    } else {
      r := "";
      assert AllSpace("") by { NoneIsSpace(); }
    }
  }

  lemma StripTrims(s: string)
    ensures IsTrimmed(s, Strip(s))
  {
    hide PythonSpace, AllSpace, StripLeft, StripRight;
    var l := StripLeftDrops(s);
    var r := StripRightDrops(StripLeft(s));
    assert s == l + Strip(s) + r;
  }

  /** The same by positions. */
  predicate TrimmedTo(s: string, i: nat, j: nat) {
    && i <= j <= |s|
    && (forall k | 0 <= k < i :: PythonSpace(s[k])) && (forall k | j <= k < |s| :: PythonSpace(s[k]))
    && (i < j ==> !PythonSpace(s[i]) && !PythonSpace(s[j - 1]))
  }

  lemma TrimmedByPosition(s: string, name: string) returns (i: nat, j: nat)
    requires IsTrimmed(s, name)
    ensures TrimmedTo(s, i, j) && name == s[i..j]
  {
    hide PythonSpace, AllSpace, TrimmedTo;
    var l, r :| s == l + name + r && AllSpace(l) && AllSpace(r);
    i, j := |l|, |l| + |name|;
    Positions(s, l, name, r);
  }

  lemma Positions(s: string, l: string, name: string, r: string)
    requires s == l + name + r && AllSpace(l) && AllSpace(r)
    requires name != "" ==> !PythonSpace(name[0]) && !PythonSpace(name[|name| - 1])
    ensures TrimmedTo(s, |l|, |l| + |name|) && name == s[|l|..|l| + |name|]
  {
    hide PythonSpace;
    var j := |l| + |name|;
    forall k | 0 <= k < |l| ensures PythonSpace(s[k]) { assert s[k] == l[k] && l[k] in l; }
    forall k | j <= k < |s| ensures PythonSpace(s[k]) { assert s[k] == r[k - j] && r[k - j] in r; }
  }

  /** There is one way to trim a string. */
  lemma OneTrim(s: string, a: string, b: string)
    requires IsTrimmed(s, a) && IsTrimmed(s, b)
    ensures a == b
  {
    hide IsTrimmed, PythonSpace;
    var i, j := TrimmedByPosition(s, a);
    var m, n := TrimmedByPosition(s, b);
    assert i < j && m < n ==> i == m && j == n;
    assert i == j ==> forall k | 0 <= k < |s| :: PythonSpace(s[k]);
    assert m == n ==> forall k | 0 <= k < |s| :: PythonSpace(s[k]);
  }

  /** One letter or other character, whatever its case. */
  predicate SameLetter(c: char, d: char) {
    || c == d
    || ('A' <= c <= 'Z' && d as int == c as int + 32)
    || ('A' <= d <= 'Z' && c as int == d as int + 32)
  }

  predicate SameName(a: string, b: string) {
    |a| == |b| && forall k :: 0 <= k < |a| ==> SameLetter(a[k], b[k])
  }

  lemma LoweredIsSameName(a: string, b: string)
    ensures Lower(a) == Lower(b) <==> SameName(a, b)
  {
    if Lower(a) == Lower(b) {
      assert |Lower(a)| == |a| && |Lower(b)| == |b|;
      forall k | 0 <= k < |a| ensures SameLetter(a[k], b[k]) {
        assert Lower(a)[k] == Lower(b)[k];
      }
    }
  }

  /** Some folder of the user at this place, other than `except`, has the name, whatever its case. */
  predicate Clashes(fs: Folders, user: string, name: string, parent: Option<Id>, except: Option<Id>) {
    exists x | x in fs :: Some(x) != except && fs[x].owner == user && fs[x].parent == parent
      && SameName(fs[x].name, name)
  }

  lemma TakenIsClash(fs: Folders, user: string, name: string, parent: Option<Id>, except: Option<Id>)
    ensures NameTaken(fs, user, name, parent, except) <==> Clashes(fs, user, name, parent, except)
  {
    hide Lower, SameName;
    forall x | x in fs ensures Lower(fs[x].name) == Lower(name) <==> SameName(fs[x].name, name) {
      LoweredIsSameName(fs[x].name, name);
    }
  }

  // ---------------------------------------------------------------- requests as functions of the store

  function Owned(fs: Folders, user: string, id: Id): Option<Failure> {
    if id !in fs then Some(NotFound)
    else if fs[id].owner != user then Some(Forbidden)
    else None
  }

  function CreateFailure(s: Store, user: string, raw: string, parent: Option<Id>): Option<Failure> {
    if NameFailure(raw).Some? then NameFailure(raw)
    else if parent.Some? && Owned(s.folders, user, parent.value).Some? then Owned(s.folders, user, parent.value)
    else if NameTaken(s.folders, user, Strip(raw), parent, None) then Some(DuplicateName)
    else None
  }

  function Create(s: Store, user: string, raw: string, parent: Option<Id>, id: Id): Store {
    if CreateFailure(s, user, raw, parent).Some? || id in s.folders then s
    else s.(folders := s.folders[id := Folder(Strip(raw), user, parent)])
  }

  /** A name that differs only in case or padding from the present one is not looked up. */
  function RenameFailure(fs: Folders, user: string, id: Id, raw: Option<string>): Option<Failure>
    requires id in fs
  {
    if raw.None? then None
    else if NameFailure(raw.value).Some? then NameFailure(raw.value)
    else if Lower(Strip(raw.value)) != Lower(fs[id].name)
      && NameTaken(fs, user, Strip(raw.value), fs[id].parent, Some(id)) then
      Some(DuplicateName)
    else None
  }

  ghost function CycleFailure(fs: Folders, id: Id, target: Id): Option<Failure> {
    if target == id then Some(MoveUnderSelf)
    else if Below(fs, id, target) then Some(MoveUnderDescendant)
    else None
  }

  /** The name is looked up at the new place only when the request does not rename as well. */
  ghost function MoveFailure(fs: Folders, user: string, id: Id, raw: Option<string>, to: Option<Id>): Option<Failure>
    requires id in fs
  {
    if to.Some? && Owned(fs, user, to.value).Some? then Owned(fs, user, to.value)
    else if to.Some? && CycleFailure(fs, id, to.value).Some? then CycleFailure(fs, id, to.value)
    else if raw.None? && NameTaken(fs, user, fs[id].name, to, Some(id)) then Some(DuplicateName)
    else None
  }

  /** `move` is absent when the request does not mention a parent; `Some(None)` moves to the top. */
  ghost function UpdateFailure(s: Store, user: string, id: Id, raw: Option<string>,
                               move: Option<Option<Id>>): Option<Failure> {
    if Owned(s.folders, user, id).Some? then Owned(s.folders, user, id)
    else if RenameFailure(s.folders, user, id, raw).Some? then RenameFailure(s.folders, user, id, raw)
    else if move.Some? then MoveFailure(s.folders, user, id, raw, move.value)
    else None
  }

  function Updated(f: Folder, raw: Option<string>, move: Option<Option<Id>>): Folder {
    f.(name := if raw.Some? then Strip(raw.value) else f.name, parent := move.GetOr(f.parent))
  }

  ghost function Update(s: Store, user: string, id: Id, raw: Option<string>, move: Option<Option<Id>>): Store {
    if UpdateFailure(s, user, id, raw, move).Some? then s
    else s.(folders := s.folders[id := Updated(s.folders[id], raw, move)])
  }

  /** The live problems of a user filed in one of some folders. */
  function Filed(s: Store, user: string, ids: set<Id>): set<Id> {
    set p | p in s.problems && !s.problems[p].deleted && s.problems[p].owner == user
            && s.problems[p].folder.Some? && s.problems[p].folder.value in ids
  }

  function DeleteFailure(s: Store, user: string, id: Id): Option<Failure> {
    if Owned(s.folders, user, id).Some? then Owned(s.folders, user, id)
    else if exists x | x in s.folders :: s.folders[x].parent == Some(id) then Some(HasSubfolders)
    else if Filed(s, user, {id}) != {} then Some(HasProblems)
    else None
  }

  function Delete(s: Store, user: string, id: Id): Store {
    if DeleteFailure(s, user, id).Some? then s else s.(folders := s.folders - {id})
  }

  function OwnedProblem(s: Store, user: string, p: Id): Option<Failure> {
    if p !in s.problems then Some(NotFound)
    else if s.problems[p].owner != user then Some(Forbidden)
    else if s.problems[p].deleted then Some(NotFound)
    else None
  }

  /** Filing checks the folder and every problem before it writes anything. */
  function FileProblems(s: Store, user: string, ps: seq<Id>, to: Option<Id>): Store {
    if (to.Some? && Owned(s.folders, user, to.value).Some?)
      || (exists p | p in ps :: OwnedProblem(s, user, p).Some?) then s
    else s.(problems := map p | p in s.problems :: if p in ps then s.problems[p].(folder := to) else s.problems[p])
  }

  datatype Request =
    | CreateFolder(name: string, parent: Option<Id>, newId: Id)
    | UpdateFolder(id: Id, rename: Option<string>, move: Option<Option<Id>>)
    | DeleteFolder(id: Id)
    | AddProblem(problem: Id)
    | FileProblemsIn(ps: seq<Id>, to: Option<Id>)
    | DeleteProblem(problem: Id)

  ghost function Apply(s: Store, user: string, q: Request): Store {
    match q
    case CreateFolder(name, parent, newId) => Create(s, user, name, parent, newId)
    case UpdateFolder(id, rename, move) => Update(s, user, id, rename, move)
    case DeleteFolder(id) => Delete(s, user, id)
    case AddProblem(p) => if p in s.problems then s else s.(problems := s.problems[p := Problem(user, None, false)])
    case FileProblemsIn(ps, to) => FileProblems(s, user, ps, to)
    case DeleteProblem(p) =>
      if OwnedProblem(s, user, p).Some? then s else s.(problems := s.problems[p := s.problems[p].(deleted := true)])
  }

  ghost function Run(s: Store, qs: seq<(string, Request)>): Store
    decreases |qs|
  {
    if qs == [] then s else Run(Apply(s, qs[0].0, qs[0].1), qs[1..])
  }

  // ---------------------------------------------------------------- what every run keeps

  ghost predicate ParentsExist(fs: Folders) {
    forall x, p :: x in fs && fs[x].parent == Some(p) ==> p in fs && fs[p].owner == fs[x].owner
  }

  predicate FilingsExist(s: Store) {
    forall p | p in s.problems && !s.problems[p].deleted && s.problems[p].folder.Some? ::
      s.problems[p].folder.value in s.folders && s.folders[s.problems[p].folder.value].owner == s.problems[p].owner
  }

  ghost predicate Sound(s: Store) {
    Acyclic(s.folders) && ParentsExist(s.folders) && FilingsExist(s)
  }

  lemma NobodyBelowMissing(fs: Folders, a: Id, d: Id)
    requires ParentsExist(fs) && a !in fs
    ensures !Below(fs, a, d)
  {
    if Below(fs, a, d) {
      var n: nat :| n > 0 && Climb(fs, d, n) == Some(a);
      ClimbFurther(fs, d, n - 1, 1);
      assert false;
    }
  }

  lemma CreateKeepsSound(s: Store, user: string, raw: string, parent: Option<Id>, id: Id)
    requires Sound(s)
    ensures Sound(Create(s, user, raw, parent, id))
  {
    var s' := Create(s, user, raw, parent, id);
    if s' != s {
      if parent.Some? {
        NobodyBelowMissing(s.folders, id, parent.value);
      }
      ReparentKeepsAcyclic(s.folders, s'.folders, id);
    }
  }

  lemma UpdateKeepsSound(s: Store, user: string, id: Id, raw: Option<string>, move: Option<Option<Id>>)
    requires Sound(s)
    ensures Sound(Update(s, user, id, raw, move))
  {
    hide NameTaken, NameFailure, Strip, Lower;
    var s' := Update(s, user, id, raw, move);
    if s' != s {
      var p := s'.folders[id].parent;
      if move.None? && p.Some? {
        assert !Below(s.folders, id, id);
        BelowByParent(s.folders, id, id);
        AtOrBelowIff(s.folders, id, p.value);
      }
      ReparentKeepsAcyclic(s.folders, s'.folders, id);
    }
  }

  lemma DeleteKeepsSound(s: Store, user: string, id: Id)
    requires Sound(s)
    ensures Sound(Delete(s, user, id))
  {
    var s' := Delete(s, user, id);
    if s' != s {
      ReparentKeepsAcyclic(s.folders, s'.folders, id);
      assert forall p :: p in s.problems && !s.problems[p].deleted && s.problems[p].folder == Some(id) ==>
             p in Filed(s, user, {id});
    }
  }

  /** One request, by any user: the parent graph stays a forest, no folder and no live problem is
      left pointing at a folder that does not exist or belongs to someone else. */
  lemma ApplyKeepsSound(s: Store, user: string, q: Request)
    requires Sound(s)
    ensures Sound(Apply(s, user, q))
  {
    hide Create, Update, Delete, Acyclic;
    match q
    case CreateFolder(name, parent, newId) => CreateKeepsSound(s, user, name, parent, newId);
    case UpdateFolder(id, rename, move) => UpdateKeepsSound(s, user, id, rename, move);
    case DeleteFolder(id) => DeleteKeepsSound(s, user, id);
    case _ =>
  }

  lemma {:induction false} RunsKeepForest(s: Store, qs: seq<(string, Request)>)
    requires Sound(s)
    ensures Sound(Run(s, qs))
    decreases |qs|
  {
    if qs != [] {
      ApplyKeepsSound(s, qs[0].0, qs[0].1);
      RunsKeepForest(Apply(s, qs[0].0, qs[0].1), qs[1..]);
    }
  }

  /** A move is refused for a cycle exactly when it would make one. */
  lemma MoveRefusedExactlyForCycles(s: Store, id: Id, to: Id)
    requires Sound(s) && id in s.folders && to in s.folders
    ensures CycleFailure(s.folders, id, to).None? <==> Acyclic(s.folders[id := s.folders[id].(parent := Some(to))])
  {
    var gs := s.folders[id := s.folders[id].(parent := Some(to))];
    if CycleFailure(s.folders, id, to).None? {
      ReparentKeepsAcyclic(s.folders, gs, id);
    } else {
      AtOrBelowIff(s.folders, id, to);
      var n: nat :| Climb(s.folders, to, n) == Some(id);
      ReachedInBoth(s.folders, gs, id, to, n);
      BelowByParent(gs, id, id);
    }
  }

  lemma {:induction false} ReachedInBoth(fs: Folders, gs: Folders, f: Id, x: Id, n: nat)
    requires AgreeOff(fs, gs, f) && Climb(fs, x, n) == Some(f)
    ensures AtOrBelow(gs, f, x)
    decreases n
  {
    AtOrBelowIff(gs, f, x);
    if x != f {
      ReachedInBoth(fs, gs, f, Parent(fs, x).value, n - 1);
      BelowByParent(gs, f, x);
    }
  }

  // ---------------------------------------------------------------- why a request is refused

  /** What is wrong with a name as it will be stored. */
  function BadName(name: string): Option<Failure> {
    if |name| == 0 then Some(EmptyName) else if |name| > 200 then Some(NameTooLong) else None
  }

  lemma NameIsStripped(raw: string, name: string)
    requires IsTrimmed(raw, name)
    ensures Strip(raw) == name && NameFailure(raw) == BadName(name)
  {
    StripTrims(raw);
    OneTrim(raw, Strip(raw), name);
  }

  /** A creation fails for its name, else for the folder it is to stand in, else for a sibling of that
      name, and for nothing else. */
  lemma CreateFailsFor(s: Store, user: string, raw: string, parent: Option<Id>, name: string)
    requires IsTrimmed(raw, name)
    ensures CreateFailure(s, user, raw, parent)
            == if BadName(name).Some? then BadName(name)
               else if parent.Some? && parent.value !in s.folders then Some(NotFound)
               else if parent.Some? && s.folders[parent.value].owner != user then Some(Forbidden)
               else if Clashes(s.folders, user, name, parent, None) then Some(DuplicateName)
               else None
  {
    hide NameTaken, Clashes, NameFailure, Strip, IsTrimmed;
    NameIsStripped(raw, name);
    TakenIsClash(s.folders, user, name, parent, None);
  }

  /** A renaming alone fails for a folder that is not the user's, else for its name, else for another
      folder of that name beside it. */
  lemma RenameFailsFor(s: Store, user: string, id: Id, raw: string, name: string)
    requires IsTrimmed(raw, name)
    ensures UpdateFailure(s, user, id, Some(raw), None)
            == if id !in s.folders then Some(NotFound)
               else if s.folders[id].owner != user then Some(Forbidden)
               else if BadName(name).Some? then BadName(name)
               else if !SameName(name, s.folders[id].name)
                 && Clashes(s.folders, user, name, s.folders[id].parent, Some(id)) then
                 Some(DuplicateName)
               else None
  {
    hide NameTaken, Clashes, NameFailure, Strip, IsTrimmed, Lower, SameName;
    NameIsStripped(raw, name);
    if id in s.folders {
      LoweredIsSameName(name, s.folders[id].name);
      TakenIsClash(s.folders, user, name, s.folders[id].parent, Some(id));
    }
  }

  /** A move alone fails for a folder or a place that is not the user's, else for a cycle, else for another
      folder of its name at the new place. */
  lemma MoveFailsFor(s: Store, user: string, id: Id, to: Option<Id>)
    ensures UpdateFailure(s, user, id, None, Some(to))
            == if id !in s.folders then Some(NotFound)
               else if s.folders[id].owner != user then Some(Forbidden)
               else if to.Some? && to.value !in s.folders then Some(NotFound)
               else if to.Some? && s.folders[to.value].owner != user then Some(Forbidden)
               else if to == Some(id) then Some(MoveUnderSelf)
               else if to.Some? && Below(s.folders, id, to.value) then Some(MoveUnderDescendant)
               else if Clashes(s.folders, user, s.folders[id].name, to, Some(id)) then Some(DuplicateName)
               else None
  {
    hide NameTaken, Clashes, Below;
    if id in s.folders {
      TakenIsClash(s.folders, user, s.folders[id].name, to, Some(id));
    }
  }

  /** Filing moves exactly the problems named, and all or none of them: none if the folder or one of the
      problems is missing or another user's, or one of the problems is deleted. */
  lemma FilingIsAllOrNone(s: Store, user: string, ps: seq<Id>, to: Option<Id>)
    ensures var s' := FileProblems(s, user, ps, to);
            var allowed := && (to.Some? ==> to.value in s.folders && s.folders[to.value].owner == user)
                           && forall p :: p in ps ==>
                                p in s.problems && s.problems[p].owner == user && !s.problems[p].deleted;
            && s'.folders == s.folders && s'.problems.Keys == s.problems.Keys
            && forall p :: p in s.problems ==>
                 && s'.problems[p].folder == (if allowed && p in ps then to else s.problems[p].folder)
                 && s'.problems[p].owner == s.problems[p].owner && s'.problems[p].deleted == s.problems[p].deleted
  {
    if exists p | p in ps :: OwnedProblem(s, user, p).Some? {
      var p :| p in ps && OwnedProblem(s, user, p).Some?;
    }
  }

  /** A new problem is live and unfiled; deleting marks the user's own live problem and nothing else. */
  lemma ProblemsComeAndGo(s: Store, user: string, p: Id)
    ensures p !in s.problems ==>
              var s' := Apply(s, user, AddProblem(p));
              s'.folders == s.folders && s'.problems == s.problems[p := Problem(user, None, false)]
    ensures var s' := Apply(s, user, DeleteProblem(p));
            && s'.folders == s.folders && s'.problems.Keys == s.problems.Keys
            && forall q :: q in s.problems ==>
                 && s'.problems[q].deleted == (s.problems[q].deleted || (q == p && s.problems[q].owner == user))
                 && s'.problems[q].owner == s.problems[q].owner && s'.problems[q].folder == s.problems[q].folder
  {
  }

  // ---------------------------------------------------------------- the endpoints

  class FolderService {
    var folders: Folders
    var problems: map<Id, Problem>

    function State(): Store
      reads this
    {
      Store(folders, problems)
    }

    constructor ()
      ensures State() == Store(map[], map[]) && Sound(State())
    {
      folders, problems := map[], map[];
      new;
      NoFoldersAcyclic();
    }

    method CreateFolder(user: string, raw: string, parent: Option<Id>, id: Id) returns (failure: Option<Failure>)
      requires id !in folders && Sound(State())
      modifies this
      ensures failure == CreateFailure(old(State()), user, raw, parent)
      ensures State() == Create(old(State()), user, raw, parent, id) && Sound(State())
      ensures problems == old(problems)
      ensures failure.Some? ==> folders == old(folders)
      ensures failure.None? ==>
                && folders.Keys == old(folders).Keys + {id}
                && (forall x :: x in old(folders) ==> folders[x] == old(folders)[x])
                && folders[id].owner == user && folders[id].parent == parent
                && IsTrimmed(raw, folders[id].name) && 0 < |folders[id].name| <= 200
    {
      StripTrims(raw);
      CreateKeepsSound(State(), user, raw, parent, id);
      failure := NameFailure(raw);
      if failure.Some? {
        return;
      }
      if parent.Some? {
        failure := Owned(folders, user, parent.value);
        if failure.Some? {
          return;
        }
      }
      if NameTaken(folders, user, Strip(raw), parent, None) {
        return Some(DuplicateName);
      }
      folders := folders[id := Folder(Strip(raw), user, parent)];
    }

    method CheckMove(user: string, id: Id, raw: Option<string>, to: Option<Id>) returns (failure: Option<Failure>)
      requires id in folders
      ensures failure == MoveFailure(folders, user, id, raw, to)
    {
      hide NameTaken;
      if to.Some? {
        failure := Owned(folders, user, to.value);
        if failure.Some? {
          return;
        }
        if to.value == id {
          return Some(MoveUnderSelf);
        }
        var below := Descendants(folders, id);
        if to.value in below {
          return Some(MoveUnderDescendant);
        }
      }
      if raw.None? && NameTaken(folders, user, folders[id].name, to, Some(id)) {
        return Some(DuplicateName);
      }
      return None;
    }

    method UpdateFolder(user: string, id: Id, raw: Option<string>, move: Option<Option<Id>>)
      returns (failure: Option<Failure>)
      requires Sound(State())
      modifies this
      ensures failure == UpdateFailure(old(State()), user, id, raw, move)
      ensures State() == Update(old(State()), user, id, raw, move) && Sound(State())
      ensures problems == old(problems) && folders.Keys == old(folders).Keys
      ensures forall x :: x in folders && (x != id || failure.Some?) ==> folders[x] == old(folders)[x]
      ensures failure.None? ==>
                && id in folders && folders[id].owner == old(folders)[id].owner == user
                && (if move.Some? then folders[id].parent == move.value
                    else folders[id].parent == old(folders)[id].parent)
                && (if raw.Some? then IsTrimmed(raw.value, folders[id].name) && 0 < |folders[id].name| <= 200
                    else folders[id].name == old(folders)[id].name)
      ensures failure.None? && move.Some? && move.value.Some? ==> Below(folders, move.value.value, id)
    {
      hide MoveFailure, RenameFailure, Sound;
      if raw.Some? {
        StripTrims(raw.value);
        RenamedIsNamed(State(), user, id, raw, move);
      }
      UpdateKeepsSound(State(), user, id, raw, move);
      failure := Owned(folders, user, id);
      if failure.Some? {
        return;
      }
      failure := RenameFailure(folders, user, id, raw);
      if failure.Some? {
        return;
      }
      if move.Some? {
        failure := CheckMove(user, id, raw, move.value);
        if failure.Some? {
          return;
        }
      }
      folders := folders[id := Updated(folders[id], raw, move)];
      if move.Some? && move.value.Some? {
        ChildIsBelow(folders, move.value.value, id);
      }
    }

    method DeleteFolder(user: string, id: Id) returns (failure: Option<Failure>)
      requires Sound(State())
      modifies this
      ensures failure == DeleteFailure(old(State()), user, id)
      ensures State() == Delete(old(State()), user, id) && Sound(State())
      ensures problems == old(problems)
      ensures failure.None? <==>
                && id in old(folders) && old(folders)[id].owner == user
                && (forall x :: x in old(folders) ==> old(folders)[x].parent != Some(id))
                && (forall p :: p in problems && problems[p].owner == user && problems[p].folder == Some(id) ==>
                      problems[p].deleted)
      ensures folders.Keys == old(folders).Keys - (if failure.None? then {id} else {})
      ensures forall x :: x in folders ==> folders[x] == old(folders)[x]
    {
      hide Sound;
      FiledNone(State(), user, id);
      DeleteKeepsSound(State(), user, id);
      failure := DeleteFailure(State(), user, id);
      if failure.None? {
        folders := folders - {id};
      }
    }
  }

  lemma FiledNone(s: Store, user: string, id: Id)
    ensures Filed(s, user, {id}) == {} <==>
              forall p :: p in s.problems && s.problems[p].owner == user && s.problems[p].folder == Some(id) ==>
                s.problems[p].deleted
  {
    forall p | p in s.problems
      ensures p in Filed(s, user, {id}) <==>
                !s.problems[p].deleted && s.problems[p].owner == user && s.problems[p].folder == Some(id) {}
  }

  lemma RenamedIsNamed(s: Store, user: string, id: Id, raw: Option<string>, move: Option<Option<Id>>)
    ensures raw.Some? && UpdateFailure(s, user, id, raw, move).None? ==> 0 < |Strip(raw.value)| <= 200
  {
    hide Strip, MoveFailure, NameTaken;
  }

  lemma NoFoldersAcyclic()
    ensures Acyclic(map[])
  {
    forall x: Id ensures !Below(map[], x, x) {}
  }
}
