// File trees as finite maps from relative paths to nodes, what a scan shows of
// them, and the plan that mirrors one tree onto another.
module Trees {
  import opened Options

  // A relative path is its sequence of components; [] is the mirrored root,
  // which always exists and is never itself an entry.
  type Path = seq<string>

  // Times and durations are integers in nanoseconds.
  const SECOND := 1_000_000_000
  const SLACK := 2 * SECOND

  datatype Node =
    | Dir
    | File(data: seq<nat>, mtime: int, precision: nat)

  type Tree = map<Path, Node>

  function Parent(p: Path): Path
    requires p != []
  {
    p[..|p| - 1]
  }

  function Name(p: Path): string
    requires p != []
  {
    p[|p| - 1]
  }

  predicate IsDirAt(t: Tree, p: Path) {
    p == [] || (p in t && t[p].Dir?)
  }

  ghost predicate Closed(t: Tree) {
    forall p <- t :: p != [] && IsDirAt(t, Parent(p))
  }

  predicate HasChild(t: Tree, d: Path) {
    exists q <- t :: |q| == |d| + 1 && d < q
  }

  // ---- What the scans show ----

  const PARTIAL_SUFFIX := ".sfync-part"

  predicate IsPartialName(name: string) {
    |name| >= |PARTIAL_SUFFIX| && name[|name| - |PARTIAL_SUFFIX|..] == PARTIAL_SUFFIX
  }

  // The hidden sibling through which a file is uploaded.
  function PartialPath(p: Path): Path
    requires p != []
  {
    Parent(p) + ["." + Name(p) + PARTIAL_SUFFIX]
  }

  // Is q such a sibling, and whose?
  predicate HasOwner(q: Path) {
    q != [] && IsPartialName(Name(q)) && |Name(q)| > |PARTIAL_SUFFIX| && Name(q)[0] == '.'
  }

  function Owner(q: Path): Path
    requires HasOwner(q)
  {
    Parent(q) + [Name(q)[1..|Name(q)| - |PARTIAL_SUFFIX|]]
  }

  lemma OwnerOfPartial(p: Path)
    requires p != []
    ensures HasOwner(PartialPath(p)) && Owner(PartialPath(p)) == p
    ensures Parent(PartialPath(p)) == Parent(p) && |PartialPath(p)| == |p|
  {
    var q := PartialPath(p);
    assert Parent(q) == Parent(p) && Name(q) == "." + Name(p) + PARTIAL_SUFFIX;
    assert Name(q)[1..|Name(q)| - |PARTIAL_SUFFIX|] == Name(p);
    assert Name(q)[|Name(q)| - |PARTIAL_SUFFIX|..] == PARTIAL_SUFFIX;
    assert Parent(p) + [Name(p)] == p;
  }

  lemma PartialOfOwner(q: Path)
    requires HasOwner(q)
    ensures Owner(q) != [] && PartialPath(Owner(q)) == q && Parent(Owner(q)) == Parent(q)
  {
    var p := Owner(q);
    assert Parent(p) == Parent(q) && Name(p) == Name(q)[1..|Name(q)| - |PARTIAL_SUFFIX|];
    assert "." + Name(p) + PARTIAL_SUFFIX == Name(q);
    assert Parent(q) + [Name(q)] == q;
  }

  function At(t: Tree, p: Path): Option<Node> {
    if p in t then Some(t[p]) else None
  }

  predicate HasDir(t: Tree, q: Path) {
    q in t && t[q].Dir?
  }

  // The entry itself is passed over: .syncignore matches it, or it is a file
  // that belongs to a transfer in progress.
  predicate PassedOver(ignored: Path -> bool, p: Path, n: Node)
    requires p != []
  {
    ignored(p) || (n.File? && IsPartialName(Name(p)))
  }

  // Neither the entry nor a directory above it is passed over.
  predicate Visible(ignored: Path -> bool, t: Tree, p: Path)
    decreases |p|
  {
    p != [] && p in t && !PassedOver(ignored, p, t[p]) &&
    (|p| == 1 || Visible(ignored, t, Parent(p)))
  }

  function Scan(ignored: Path -> bool, t: Tree): Tree {
    map p | p in t && Visible(ignored, t, p) :: t[p]
  }

  ghost predicate HiddenBelow(ignored: Path -> bool, t: Tree, d: Path) {
    exists q <- t :: d < q && !Visible(ignored, t, q)
  }

  lemma PartialNames(name: string)
    ensures IsPartialName(name) <==> exists stem: string :: name == stem + ".sfync-part"
  {
    if IsPartialName(name) { assert name == name[..|name| - 11] + ".sfync-part"; }
  }

  // An entry is shown exactly if nothing on the way down to it is ignored or
  // is a file with the name of a partial.
  lemma {:induction false} VisibleMeans(ignored: Path -> bool, t: Tree, p: Path)
    ensures Visible(ignored, t, p) <==>
              p != [] && forall k | 0 < k <= |p| ::
                p[..k] in t && !ignored(p[..k]) && !(t[p[..k]].File? && exists stem: string :: p[k - 1] == stem + ".sfync-part")
    decreases |p|
  {
    if p != [] {
      PartialNames(Name(p));
      assert p[..|p|] == p;
      if |p| > 1 {
        VisibleMeans(ignored, t, Parent(p));
        assert forall k | 0 < k < |p| :: Parent(p)[..k] == p[..k];
      }
    }
  }

  // ---- The plan ----

  datatype Action = Upload | Download | Delete | DeleteDir | Mkdir | Skip | Conflict

  datatype Entry = Entry(action: Action, path: Path, isNew: bool)

  predicate IsDifferent(local: Node, remote: Node)
    requires local.File? && remote.File?
  {
    |local.data| != |remote.data| ||
    local.mtime - remote.mtime < -SLACK ||
    local.mtime - remote.mtime > remote.precision + SLACK
  }

  // source and target are local and remote when mirroring up, the other way
  // round when mirroring down; the comparison always takes local first.
  predicate Differs(source: Node, target: Node, up: bool)
    requires source.File? && target.File?
  {
    if up then IsDifferent(source, target) else IsDifferent(target, source)
  }

  // What the plan does about one path.
  function Decide(source: Tree, target: Tree, up: bool, p: Path): Option<Entry> {
    if p in source then
      if source[p].Dir? then
        if p !in target then Some(Entry(Mkdir, p, false))
        else if target[p].File? then Some(Entry(Conflict, p, false))
        else None
      else if p !in target then Some(Entry(if up then Upload else Download, p, true))
      else if target[p].Dir? then Some(Entry(Conflict, p, false))
      else if Differs(source[p], target[p], up) then Some(Entry(if up then Upload else Download, p, false))
      else Some(Entry(Skip, p, false))
    else if p in target then
      Some(Entry(if target[p].Dir? then DeleteDir else Delete, p, false))
    else None
  }

  // What the plan does about the given paths, and about all of them.
  function PlanFor(source: Tree, target: Tree, up: bool, paths: set<Path>): set<Entry> {
    set p | p in paths && Decide(source, target, up, p).Some? :: Decide(source, target, up, p).value
  }

  function Plan(source: Tree, target: Tree, up: bool): set<Entry> {
    PlanFor(source, target, up, source.Keys + target.Keys)
  }

  lemma DecideKeepsPath(source: Tree, target: Tree, up: bool, p: Path)
    ensures Decide(source, target, up, p).Some? ==> Decide(source, target, up, p).value.path == p
  {}

  lemma PlanMembers(source: Tree, target: Tree, up: bool, e: Entry)
    ensures e in Plan(source, target, up) <==> Decide(source, target, up, e.path) == Some(e)
  {
    if e in Plan(source, target, up) {
      var p :| p in source.Keys + target.Keys && Decide(source, target, up, p) == Some(e);
      DecideKeepsPath(source, target, up, p);
    }
  }

  // A file that both sides have is left alone exactly if the sizes agree and
  // the local time is at most two seconds before the remote one, and at most
  // two seconds after the end of what the remote one stands for.
  lemma SkippedExactly(local: Tree, remote: Tree, p: Path)
    requires p in local && p in remote && local[p].File? && remote[p].File?
    ensures var ahead := local[p].mtime - remote[p].mtime;
            var same := |local[p].data| == |remote[p].data| &&
                        -2_000_000_000 <= ahead <= remote[p].precision + 2_000_000_000;
            && (Entry(Skip, p, false) in Plan(local, remote, true) <==> same)
            && (Entry(Skip, p, false) in Plan(remote, local, false) <==> same)
            && (Entry(Upload, p, false) in Plan(local, remote, true) <==> !same)
            && (Entry(Download, p, false) in Plan(remote, local, false) <==> !same)
  {
    forall action ensures Entry(action, p, false) in Plan(local, remote, true) <==>
                            Decide(local, remote, true, p) == Some(Entry(action, p, false)) {
      PlanMembers(local, remote, true, Entry(action, p, false));
    }
    forall action ensures Entry(action, p, false) in Plan(remote, local, false) <==>
                            Decide(remote, local, false, p) == Some(Entry(action, p, false)) {
      PlanMembers(remote, local, false, Entry(action, p, false));
    }
  }

  // An edit, however small, of a file whose copy is listed with its exact time
  // is transferred if it is more than two seconds apart from that copy; so an
  // edit on the other side is undone.
  lemma EditsAreNoticed(local: Tree, remote: Tree, p: Path)
    requires p in local && p in remote && local[p].File? && remote[p].File? && remote[p].precision == 0
    requires local[p].mtime > remote[p].mtime + 2_000_000_000 || remote[p].mtime > local[p].mtime + 2_000_000_000
    ensures Entry(Upload, p, false) in Plan(local, remote, true) && Entry(Skip, p, false) !in Plan(local, remote, true)
    ensures Entry(Download, p, false) in Plan(remote, local, false) && Entry(Skip, p, false) !in Plan(remote, local, false)
  {
    SkippedExactly(local, remote, p);
  }

  // Everything else in a plan: what only the source has is made, what only the
  // target has is deleted, and a file is never put where a directory is, nor a
  // directory where a file is.
  lemma PlannedExactly(source: Tree, target: Tree, up: bool, p: Path)
    ensures var plan := Plan(source, target, up);
            && (Entry(Mkdir, p, false) in plan <==> p in source && source[p].Dir? && p !in target)
            && (Entry(Upload, p, true) in plan <==> up && p in source && source[p].File? && p !in target)
            && (Entry(Download, p, true) in plan <==> !up && p in source && source[p].File? && p !in target)
            && (Entry(Conflict, p, false) in plan <==> p in source && p in target && source[p].File? != target[p].File?)
            && (Entry(Delete, p, false) in plan <==> p !in source && p in target && target[p].File?)
            && (Entry(DeleteDir, p, false) in plan <==> p !in source && p in target && target[p].Dir?)
  {
    forall action, isNew ensures Entry(action, p, isNew) in Plan(source, target, up) <==>
                                   Decide(source, target, up, p) == Some(Entry(action, p, isNew)) {
      PlanMembers(source, target, up, Entry(action, p, isNew));
    }
  }

  // A path has at most one entry, and none exactly if it is a directory on both
  // sides or on neither side at all.
  lemma OneEntryEach(source: Tree, target: Tree, up: bool, p: Path)
    ensures forall e, f | e in Plan(source, target, up) && f in Plan(source, target, up) && e.path == f.path :: e == f
    ensures (forall e <- Plan(source, target, up) :: e.path != p) <==>
              (p in source && p in target && source[p].Dir? && target[p].Dir?) || (p !in source && p !in target)
  {
    forall e ensures e in Plan(source, target, up) <==> Decide(source, target, up, e.path) == Some(e) {
      PlanMembers(source, target, up, e);
    }
    DecideKeepsPath(source, target, up, p);
    assert Decide(source, target, up, p).Some? ==> Decide(source, target, up, p).value in Plan(source, target, up);
  }

  function Listed(decision: Option<Entry>): seq<Entry> {
    if decision.Some? then [decision.value] else []
  }

  lemma PlanForGrows(source: Tree, target: Tree, up: bool, paths: set<Path>, p: Path)
    requires p !in paths
    ensures multiset(PlanFor(source, target, up, paths + {p})) ==
            multiset(PlanFor(source, target, up, paths)) + multiset(Listed(Decide(source, target, up, p)))
  {
    var before, after := PlanFor(source, target, up, paths), PlanFor(source, target, up, paths + {p});
    match Decide(source, target, up, p)
    case None =>
      assert after == before;
    case Some(e) =>
      assert after == before + {e};
      forall q | q in paths ensures Decide(source, target, up, q) != Some(e) {
        DecideKeepsPath(source, target, up, q);
        DecideKeepsPath(source, target, up, p);
      }
      assert e !in before;
  }

  // The body of diffTrees' first loop: what one source entry adds.
  method DiffSourceEntry(local: Tree, remote: Tree, upload: bool, relPath: Path) returns (added: seq<Entry>)
    requires relPath in if upload then local else remote
    ensures added == Listed(if upload then Decide(local, remote, true, relPath) else Decide(remote, local, false, relPath))
  {
    var source, target := if upload then local else remote, if upload then remote else local;
    added := [];
    if source[relPath].Dir? {
      if relPath !in target {
        added := [Entry(Mkdir, relPath, false)];
      } else if target[relPath].File? {
        added := [Entry(Conflict, relPath, false)];
      }
      return;
    }
    if relPath !in target {
      added := [Entry(if upload then Upload else Download, relPath, true)];
    } else if target[relPath].Dir? {
      added := [Entry(Conflict, relPath, false)];
    } else if IsDifferent(local[relPath], remote[relPath]) {
      added := [Entry(if upload then Upload else Download, relPath, false)];
    } else {
      added := [Entry(Skip, relPath, false)];
    }
  }

  // The entries listed so far are those the plan has for the paths done so far.
  ghost predicate Covers(actions: seq<Entry>, source: Tree, target: Tree, up: bool, done: set<Path>) {
    multiset(actions) == multiset(PlanFor(source, target, up, done))
  }

  lemma CoversGrows(actions: seq<Entry>, added: seq<Entry>, source: Tree, target: Tree, up: bool, done: set<Path>, p: Path)
    requires Covers(actions, source, target, up, done) && p !in done
    requires added == Listed(Decide(source, target, up, p))
    ensures Covers(actions + added, source, target, up, done + {p})
  {
    PlanForGrows(source, target, up, done, p);
  }

  method DiffSources(local: Tree, remote: Tree, upload: bool) returns (actions: seq<Entry>)
    ensures upload ==> Covers(actions, local, remote, true, local.Keys)
    ensures !upload ==> Covers(actions, remote, local, false, remote.Keys)
  {
    var source, target := if upload then local else remote, if upload then remote else local;
    actions := [];
    var todo, done := source.Keys, {};
    while todo != {}
      invariant todo == source.Keys - done && done <= source.Keys
      invariant Covers(actions, source, target, upload, done)
      decreases todo
    {
      var relPath :| relPath in todo;
      var added := DiffSourceEntry(local, remote, upload, relPath);
      CoversGrows(actions, added, source, target, upload, done, relPath);
      todo, done := todo - {relPath}, done + {relPath};
      actions := actions + added;
    }
    assert done == source.Keys;
  }

  // diffTrees: two passes, over maps that come in no particular order.
  method DiffTrees(local: Tree, remote: Tree, upload: bool) returns (actions: seq<Entry>)
    ensures upload ==> multiset(actions) == multiset(Plan(local, remote, true))
    ensures !upload ==> multiset(actions) == multiset(Plan(remote, local, false))
  {
    var source, target := if upload then local else remote, if upload then remote else local;
    actions := DiffSources(local, remote, upload);
    var todo, done := target.Keys - source.Keys, source.Keys;
    while todo != {}
      invariant todo == target.Keys - done && source.Keys <= done <= source.Keys + target.Keys
      invariant Covers(actions, source, target, upload, done)
      decreases todo
    {
      var relPath :| relPath in todo;
      var added := [Entry(if target[relPath].Dir? then DeleteDir else Delete, relPath, false)];
      CoversGrows(actions, added, source, target, upload, done, relPath);
      todo, done := todo - {relPath}, done + {relPath};
      actions := actions + added;
    }
    assert forall p | p in target.Keys :: p !in todo ==> p in done;
    assert done == source.Keys + target.Keys;
  }
}
