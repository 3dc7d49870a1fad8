// Executing a mirror plan: whatever order the jobs of a phase run in, the
// destination ends as one and the same tree, and the only step that can fail
// is removing a directory that still holds something the scan does not show.
module Mirror {
  import opened Options
  import opened Trees
  import Uploads = Upload

  // What the server (or the local disk) records for a transferred file.
  datatype Stamp = Stamp(mtime: int, precision: nat)

  // How a step went: at the first try, through MkdirAll, or not at all.
  datatype Outcome = Direct | Fallback | Failed

  // MkdirAll: every directory on the way is created unless a file is in the way.
  function WithDirs(t: Tree, p: Path): Option<Tree>
    decreases |p|
  {
    if p == [] then Some(t) else
    match WithDirs(t, Parent(p))
    case None => None
    case Some(u) =>
      if p !in u then Some(u[p := Dir])
      else if u[p].Dir? then Some(u)
      else None
  }

  // A file as an upload sees it, remotely and locally.
  function StoredAt(t: Tree, p: Path): Option<Uploads.Stored> {
    if p in t && t[p].File? then Some(Uploads.Stored(t[p].data, t[p].mtime)) else None
  }

  function LocalOf(n: Node): Uploads.Local
    requires n.File?
  {
    Uploads.Local(n.data, n.mtime)
  }

  // One mirror run: `source` is the scan of the side copied from, `dest` the
  // whole tree of the side copied to, including what its scan does not show.
  // continues: the server tells a partial's size and time and takes more of it.
  datatype Run = Run(ignored: Path -> bool, source: Tree, dest: Tree, up: bool, stamps: Path -> Stamp, continues: Path -> bool) {

    ghost predicate Sound() {
      && Closed(source) && Closed(dest)
      && (forall p <- source :: !PassedOver(ignored, p, source[p]))
      && (forall p <- source :: p in dest ==> source[p].Dir? == dest[p].Dir?)
    }

    function View(): Tree {
      Scan(ignored, dest)
    }

    // The entries that execution acts on: everything but skips and conflicts.
    function Todo(): set<Entry> {
      set e | e in Plan(source, View(), up) && !e.action.Skip? && !e.action.Conflict?
    }

    // An upload of p that found this tree would go on from the partial there.
    predicate Continues(t: Tree, p: Path)
      requires p in source && source[p].File?
    {
      up && p != [] && |source[p].data| >= Uploads.RESUME_THRESHOLD && continues(p) &&
      var partial := StoredAt(t, PartialPath(p));
      partial.Some? && Uploads.CanResumePartial(|partial.value.data|, partial.value.mtime, LocalOf(source[p]))
    }

    // What a transfer of p that found this tree puts in place.
    function SentFrom(t: Tree, p: Path): Node
      requires p in source && source[p].File?
    {
      var data := source[p].data;
      File(if Continues(t, p) then t[PartialPath(p)].data + data[|t[PartialPath(p)].data|..] else data,
           stamps(p).mtime, stamps(p).precision)
    }

    function Sent(p: Path): Node
      requires p in source && source[p].File?
    {
      SentFrom(dest, p)
    }

    // The upload of p goes on from a partial that is not the start of the file.
    predicate Spoiled(p: Path) {
      p in source && source[p].File? && Continues(dest, p) && !(dest[PartialPath(p)].data <= source[p].data)
    }

    // ---- One step ----

    function Exec(t: Tree, e: Entry): (Tree, Outcome) {
      var p := e.path;
      if p == [] then (t, Failed) else
      match e.action
      case Mkdir =>
        if IsDirAt(t, Parent(p)) && p !in t then (t[p := Dir], Direct)
        else (match WithDirs(t, p) case Some(u) => (u, Fallback) case None => (t, Failed))
      case Upload =>
        // Through the partial file, which is there no more afterwards.
        if IsDirAt(t, Parent(p)) && !HasDir(t, PartialPath(p)) then Store(t, t - {PartialPath(p)}, p, Direct) else (t, Failed)
      case Download =>
        if IsDirAt(t, Parent(p)) then Store(t, t, p, Direct)
        else (match WithDirs(t, Parent(p)) case Some(u) => Store(u, u, p, Fallback) case None => (t, Failed))
      case Delete =>
        if p in t && t[p].File? then (t - {p}, Direct)
        else if p !in t && up then (t, Fallback)
        else (t, Failed)
      case DeleteDir =>
        if p in t && t[p].Dir? && !HasChild(t, p) then (t - {p}, Direct) else (t, Failed)
      case _ => (t, Failed)
    }

    // p is put into t by a transfer that found the tree `found`.
    function Store(found: Tree, t: Tree, p: Path, how: Outcome): (Tree, Outcome) {
      if p in source && source[p].File? && !(p in t && t[p].Dir?) then (t[p := SentFrom(found, p)], how) else (t, Failed)
    }

    // The tree after running the steps in order.
    function After(ops: seq<Entry>): Tree
      decreases |ops|
    {
      if ops == [] then dest else Exec(After(ops[..|ops| - 1]), ops[|ops| - 1]).0
    }

    function OutcomeAt(ops: seq<Entry>, k: nat): Outcome
      requires k < |ops|
    {
      Exec(After(ops[..k]), ops[k]).1
    }

    // ---- Where it ends ----

    predicate Transferred(p: Path) {
      p in source && source[p].File? &&
      (p in View() && View()[p].File? ==> Differs(source[p], View()[p], up))
    }

    // An upload is blocked by a directory where its partial file has to go.
    predicate Blocked(p: Path) {
      up && p != [] && (HasDir(source, PartialPath(p)) || HasDir(dest, PartialPath(p)))
    }

    predicate Arrives(p: Path) {
      Transferred(p) && !Blocked(p)
    }

    // q is the partial file of one of these files, and that file is uploaded.
    predicate ConsumedBy(done: set<Path>, q: Path) {
      up && HasOwner(q) && Owner(q) in done && Arrives(Owner(q))
    }

    predicate Consumed(q: Path) {
      up && HasOwner(q) && Arrives(Owner(q))
    }

    // What is at p in the end. A directory the source lacks outlives the run if
    // something hidden is below it; what is hidden does unless it is the
    // partial of a file sent.
    ghost function FinalAt(p: Path): Option<Node> {
      if p in source then
        if source[p].Dir? then Some(Dir)
        else if Arrives(p) then Some(Sent(p))
        else At(dest, p)
      else if p in dest && !Consumed(p) && (!Visible(ignored, dest, p) || (dest[p].Dir? && HiddenBelow(ignored, dest, p))) then
        Some(dest[p])
      else None
    }

    ghost function Final(): Tree {
      map p | p in source.Keys + dest.Keys && FinalAt(p).Some? :: FinalAt(p).value
    }

    // As in the end on the paths done, as before on the others, but for the
    // partials of the files sent so far.
    ghost function MidAt(done: set<Path>, p: Path): Option<Node> {
      if p in done then FinalAt(p) else if ConsumedBy(done, p) then None else At(dest, p)
    }

    ghost function Mid(done: set<Path>): Tree {
      map p | p in source.Keys + dest.Keys && MidAt(done, p).Some? :: MidAt(done, p).value
    }
  }

  lemma InMid(r: Run, done: set<Path>, p: Path)
    ensures At(r.Mid(done), p) == r.MidAt(done, p)
  {
  }

  lemma InFinal(r: Run, p: Path)
    ensures At(r.Final(), p) == r.FinalAt(p)
  {
  }

  lemma SameTrees(t: Tree, u: Tree)
    requires forall p :: At(t, p) == At(u, p)
    ensures t == u
  {
    forall p ensures (p in t <==> p in u) && (p in t ==> t[p] == u[p]) {
      assert At(t, p) == At(u, p);
    }
  }

  // ---- Facts about visibility ----

  // Every path in the source that the destination has too is visible there.
  lemma {:induction false} SharedIsVisible(r: Run, p: Path)
    requires r.Sound() && p in r.source && p in r.dest
    ensures Visible(r.ignored, r.dest, p)
    decreases |p|
  {
    if |p| <= 1 {
    } else {
      assert Parent(p) in r.source && r.source[Parent(p)].Dir?;
      assert Parent(p) in r.dest;
      SharedIsVisible(r, Parent(p));
    }
  }

  lemma {:induction false} AncestorPresent(t: Tree, p: Path, k: nat)
    requires Closed(t) && p in t && 0 < k < |p|
    ensures p[..k] in t && t[p[..k]].Dir?
    decreases |p|
  {
    if k == |p| - 1 {
    } else {
      AncestorPresent(t, Parent(p), k);
      assert Parent(p)[..k] == p[..k];
    }
  }

  // ---- One step at a time ----

  // e is one of the steps to execute.
  predicate IsStep(r: Run, e: Entry) {
    Decide(r.source, r.View(), r.up, e.path) == Some(e) && !e.action.Skip? && !e.action.Conflict?
  }

  lemma StepsAreTodo(r: Run, e: Entry)
    ensures e in r.Todo() <==> IsStep(r, e)
  {
    PlanMembers(r.source, r.View(), r.up, e);
  }

  predicate IsTransfer(e: Entry) {
    e.action.Upload? || e.action.Download?
  }

  // a must run before b: parents are made before children, directories before
  // the files that go into them; files are uploaded and deleted before
  // directories are, and deeper directories go before shallower ones.
  predicate Before(a: Entry, b: Entry) {
    match b.action
    case Mkdir => a.action.Mkdir? && |a.path| < |b.path|
    case Upload => a.action.Mkdir?
    case Download => a.action.Mkdir?
    case DeleteDir => a.action.Upload? || a.action.Delete? || (a.action.DeleteDir? && |a.path| > |b.path|)
    case _ => false
  }

  // Whatever e has to wait for is done; e itself, and what waits for e, is not.
  ghost predicate Due(r: Run, done: set<Path>, e: Entry) {
    && IsStep(r, e) && e.path !in done && (forall x <- done :: Decide(r.source, r.View(), r.up, x).Some?)
    && (forall a :: IsStep(r, a) && Before(a, e) ==> a.path in done)
    && (forall b :: IsStep(r, b) && Before(e, b) ==> b.path !in done)
  }

  lemma ParentReady(r: Run, done: set<Path>, e: Entry)
    requires r.Sound() && Due(r, done, e) && (e.action.Mkdir? || IsTransfer(e))
    ensures e.path in r.source && e.path != [] && IsDirAt(r.Mid(done), Parent(e.path))
  {
    var q := Parent(e.path);
    if q != [] {
      NeverConsumed(r, q);
      InMid(r, done, q);
      if q !in r.dest {
        assert IsStep(r, Entry(Mkdir, q, false)) && Before(Entry(Mkdir, q, false), e);
      }
    }
  }

  // Only files that the source lacks are ever consumed, hidden ones.
  lemma NeverConsumed(r: Run, q: Path)
    requires r.Sound()
    ensures r.Consumed(q) ==> q !in r.source && !HasDir(r.dest, q) && (q in r.dest ==> !Visible(r.ignored, r.dest, q))
  {
    if r.Consumed(q) { PartialOfOwner(q); }
  }

  lemma NotConsumedBelow(r: Run, d: Path, q: Path)
    requires r.Sound() && d != [] && d !in r.source && d < q
    ensures !r.Consumed(q)
  {
    if r.Consumed(q) {
      var o := Owner(q);
      PartialOfOwner(q);
      assert o[..|d|] == Parent(o)[..|d|] == d;
      AncestorPresent(r.source, o, |d|);
    }
  }

  // A step that sends nothing changes its own path and no other.
  lemma MidGrows(r: Run, done: set<Path>, p: Path, u: Tree)
    requires !(r.up && r.Arrives(p)) && At(u, p) == r.FinalAt(p)
    requires forall x | x != p :: At(u, x) == At(r.Mid(done), x)
    ensures r.Mid(done + {p}) == u
  {
    forall x ensures At(r.Mid(done + {p}), x) == At(u, x) {
      InMid(r, done, x);
      InMid(r, done + {p}, x);
      assert r.ConsumedBy(done + {p}, x) == r.ConsumedBy(done, x);
    }
    SameTrees(r.Mid(done + {p}), u);
  }

  lemma PartialIsGone(r: Run, done: set<Path>, p: Path)
    requires r.Sound() && r.up && p != [] && r.Arrives(p) && p in done
    ensures r.MidAt(done, PartialPath(p)) == None
  {
    OwnerOfPartial(p);
    NeverConsumed(r, PartialPath(p));
  }

  // A file sent takes its partial away.
  lemma MidSends(r: Run, done: set<Path>, p: Path)
    requires r.Sound() && r.up && p != [] && r.Arrives(p) && PartialPath(p) != p
    ensures r.Mid(done + {p}) == (r.Mid(done) - {PartialPath(p)})[p := r.Sent(p)]
  {
    var q, u := PartialPath(p), (r.Mid(done) - {PartialPath(p)})[p := r.Sent(p)];
    PartialIsGone(r, done + {p}, p);
    forall x ensures At(r.Mid(done + {p}), x) == At(u, x) {
      InMid(r, done, x);
      InMid(r, done + {p}, x);
      if x != p && x != q { OthersUnconsumed(r, done, p, x); }
    }
    SameTrees(r.Mid(done + {p}), u);
  }

  lemma OthersUnconsumed(r: Run, done: set<Path>, p: Path, x: Path)
    requires p != [] && x != PartialPath(p)
    ensures r.ConsumedBy(done + {p}, x) == r.ConsumedBy(done, x)
  {
    if HasOwner(x) { PartialOfOwner(x); }
  }

  lemma MkdirStep(r: Run, done: set<Path>, e: Entry)
    requires r.Sound() && Due(r, done, e) && e.action.Mkdir?
    ensures r.Exec(r.Mid(done), e) == (r.Mid(done + {e.path}), Direct)
  {
    ParentReady(r, done, e);
    if e.path in r.dest { SharedIsVisible(r, e.path); }
    InMid(r, done, e.path);
    MidGrows(r, done, e.path, r.Mid(done)[e.path := Dir]);
  }

  lemma DownloadStep(r: Run, done: set<Path>, e: Entry)
    requires r.Sound() && Due(r, done, e) && e.action.Download?
    ensures r.Exec(r.Mid(done), e) == (r.Mid(done + {e.path}), Direct)
  {
    ParentReady(r, done, e);
    assert !r.up && r.Transferred(e.path);
    InMid(r, done, e.path);
    MidGrows(r, done, e.path, r.Mid(done)[e.path := r.Sent(e.path)]);
  }

  // A directory at the partial path stands there when the upload's turn comes.
  lemma PartialPathThen(r: Run, done: set<Path>, e: Entry)
    requires r.Sound() && Due(r, done, e) && e.action.Upload? && e.path != []
    ensures HasDir(r.Mid(done), PartialPath(e.path)) <==> r.Blocked(e.path)
  {
    var q := PartialPath(e.path);
    OwnerOfPartial(e.path);
    InMid(r, done, q);
    if HasDir(r.source, q) {
      if q !in r.dest { assert IsStep(r, Entry(Mkdir, q, false)) && Before(Entry(Mkdir, q, false), e); }
    } else if HasDir(r.dest, q) && Visible(r.ignored, r.dest, q) {
      assert IsStep(r, Entry(DeleteDir, q, false)) && Before(e, Entry(DeleteDir, q, false));
    }
  }

  // Nothing touches the partial before its file's turn comes.
  lemma PartialUntouched(r: Run, done: set<Path>, e: Entry)
    requires r.Sound() && Due(r, done, e) && e.action.Upload? && e.path in r.source && r.source[e.path].File?
    ensures r.SentFrom(r.Mid(done), e.path) == r.Sent(e.path)
  {
    var q := PartialPath(e.path);
    OwnerOfPartial(e.path);
    InMid(r, done, q);
    assert StoredAt(r.dest, q).Some? ==> q !in done;
    assert StoredAt(r.Mid(done), q) == StoredAt(r.dest, q);
  }

  lemma SourceFileIsNoPartial(r: Run, p: Path)
    requires r.Sound() && p in r.source && r.source[p].File?
    ensures p != [] && !HasOwner(p) && PartialPath(p) != p
  {
    OwnerOfPartial(p);
  }

  lemma BlockedStep(r: Run, done: set<Path>, p: Path)
    requires r.Sound() && p in r.source && r.source[p].File? && p !in done && p != [] && r.Blocked(p)
    ensures r.Mid(done + {p}) == r.Mid(done)
  {
    SourceFileIsNoPartial(r, p);
    InMid(r, done, p);
    MidGrows(r, done, p, r.Mid(done));
  }

  lemma UploadStep(r: Run, done: set<Path>, e: Entry)
    requires r.Sound() && Due(r, done, e) && e.action.Upload?
    ensures r.Exec(r.Mid(done), e) == (r.Mid(done + {e.path}), if r.Blocked(e.path) then Failed else Direct)
  {
    var p := e.path;
    ParentReady(r, done, e);
    SourceFileIsNoPartial(r, p);
    PartialPathThen(r, done, e);
    assert r.Transferred(p);
    if r.Blocked(p) {
      BlockedStep(r, done, p);
    } else {
      MidSends(r, done, p);
      InMid(r, done, p);
      PartialUntouched(r, done, e);
    }
  }

  lemma DeleteStep(r: Run, done: set<Path>, e: Entry)
    requires r.Sound() && Due(r, done, e) && e.action.Delete?
    ensures r.Exec(r.Mid(done), e) == (r.Mid(done + {e.path}), Direct)
  {
    InMid(r, done, e.path);
    NeverConsumed(r, e.path);
    MidGrows(r, done, e.path, r.Mid(done) - {e.path});
  }

  // When a directory's turn comes, all it can still hold leads to something hidden.
  lemma ChildIsHidden(r: Run, done: set<Path>, e: Entry, c: Path)
    requires r.Sound() && Due(r, done, e) && e.action.DeleteDir?
    requires c in r.Mid(done) && |c| == |e.path| + 1 && e.path < c
    ensures HiddenBelow(r.ignored, r.dest, e.path)
  {
    InMid(r, done, c);
    assert Parent(c) == e.path;
    assert c !in r.source;
    if Visible(r.ignored, r.dest, c) {
      var step := Entry(if r.dest[c].Dir? then DeleteDir else Delete, c, false);
      assert IsStep(r, step) && Before(step, e);
      var q :| q in r.dest && c < q && !Visible(r.ignored, r.dest, q);
      assert e.path < q;
    }
  }

  // An entry with something hidden at or below it stays where it is.
  lemma HiddenHolds(r: Run, done: set<Path>, d: Path, c: Path, q: Path)
    requires r.Sound() && d != [] && d !in r.source && d < c <= q
    requires q in r.dest && !Visible(r.ignored, r.dest, q)
    ensures r.MidAt(done, c).Some?
  {
    assert c !in r.source by {
      if c in r.source {
        assert c[..|d|] == d;
        AncestorPresent(r.source, c, |d|);
      }
    }
    if c != q {
      AncestorPresent(r.dest, q, |c|);
      assert q[..|c|] == c;
    }
    NotConsumedBelow(r, d, c);
  }

  lemma HiddenLeavesChild(r: Run, done: set<Path>, e: Entry)
    requires r.Sound() && Due(r, done, e) && e.action.DeleteDir?
    requires HiddenBelow(r.ignored, r.dest, e.path)
    ensures HasChild(r.Mid(done), e.path)
  {
    var d := e.path;
    var q :| q in r.dest && d < q && !Visible(r.ignored, r.dest, q);
    var c := q[..|d| + 1];
    assert d < c && c <= q;
    HiddenHolds(r, done, d, c, q);
    InMid(r, done, c);
  }

  lemma HeldDirStep(r: Run, done: set<Path>, e: Entry)
    requires r.Sound() && Due(r, done, e) && e.action.DeleteDir?
    requires HiddenBelow(r.ignored, r.dest, e.path)
    ensures r.Exec(r.Mid(done), e) == (r.Mid(done + {e.path}), Failed)
  {
    HiddenLeavesChild(r, done, e);
    InMid(r, done, e.path);
    NeverConsumed(r, e.path);
    MidGrows(r, done, e.path, r.Mid(done));
  }

  lemma EmptyDirStep(r: Run, done: set<Path>, e: Entry)
    requires r.Sound() && Due(r, done, e) && e.action.DeleteDir?
    requires !HiddenBelow(r.ignored, r.dest, e.path)
    ensures r.Exec(r.Mid(done), e) == (r.Mid(done + {e.path}), Direct)
  {
    InMid(r, done, e.path);
    NeverConsumed(r, e.path);
    MidGrows(r, done, e.path, r.Mid(done) - {e.path});
    if c :| c in r.Mid(done) && |c| == |e.path| + 1 && e.path < c {
      ChildIsHidden(r, done, e, c);
    }
  }

  ghost function Expected(r: Run, e: Entry): Outcome {
    if (e.action.DeleteDir? && HiddenBelow(r.ignored, r.dest, e.path)) || (e.action.Upload? && r.Blocked(e.path)) then Failed
    else Direct
  }

  lemma AnyStep(r: Run, done: set<Path>, e: Entry)
    requires r.Sound() && Due(r, done, e)
    ensures r.Exec(r.Mid(done), e) == (r.Mid(done + {e.path}), Expected(r, e))
  {
    match e.action
    case Mkdir => MkdirStep(r, done, e);
    case Upload => UploadStep(r, done, e);
    case Download => DownloadStep(r, done, e);
    case Delete => DeleteStep(r, done, e);
    case DeleteDir => if HiddenBelow(r.ignored, r.dest, e.path) { HeldDirStep(r, done, e); } else { EmptyDirStep(r, done, e); }
  }

  // ---- Whole runs ----

  ghost predicate Respects(ops: seq<Entry>) {
    forall i, j | 0 <= i < j < |ops| :: !Before(ops[j], ops[i])
  }

  // ops executes the plan: each step once, nothing before what it waits for.
  ghost predicate Executes(r: Run, ops: seq<Entry>) {
    multiset(ops) == multiset(r.Todo()) && Respects(ops)
  }

  lemma SameMembers(ops: seq<Entry>, s: set<Entry>)
    requires multiset(ops) == multiset(s)
    ensures forall e :: e in ops <==> e in s
  {
    forall e ensures e in ops <==> e in s {
      assert e in ops <==> e in multiset(ops);
      assert e in s <==> e in multiset(s);
    }
  }

  lemma NoRepeat(ops: seq<Entry>, s: set<Entry>, i: nat, j: nat)
    requires multiset(ops) == multiset(s) && i < j < |ops|
    ensures ops[i] != ops[j]
  {
    assert ops == ops[..j] + ops[j..];
    assert ops[i] in ops[..j] && ops[j] in ops[j..];
    assert multiset(ops)[ops[i]] == multiset(ops[..j])[ops[i]] + multiset(ops[j..])[ops[i]];
    assert multiset(s)[ops[i]] <= 1;
  }

  ghost function PathsOf(ops: seq<Entry>): set<Path> {
    set i | 0 <= i < |ops| :: ops[i].path
  }

  lemma NextIsDue(r: Run, ops: seq<Entry>, k: nat)
    requires Executes(r, ops) && k < |ops|
    ensures Due(r, PathsOf(ops[..k]), ops[k])
  {
    SameMembers(ops, r.Todo());
    forall a ensures a in ops <==> IsStep(r, a) { StepsAreTodo(r, a); }
    assert ops[k] in ops;
    if ops[k].path in PathsOf(ops[..k]) {
      var i :| 0 <= i < k && ops[..k][i].path == ops[k].path;
      assert ops[i] in ops;
      NoRepeat(ops, r.Todo(), i, k);
    }
    forall a | IsStep(r, a) && Before(a, ops[k]) ensures a.path in PathsOf(ops[..k]) {
      var i :| 0 <= i < |ops| && ops[i] == a;
      assert i < k;
      assert ops[..k][i] == a;
    }
    forall x | x in PathsOf(ops[..k]) ensures Decide(r.source, r.View(), r.up, x).Some? {
      var i :| 0 <= i < k && ops[..k][i].path == x;
      assert ops[i] in ops;
    }
    forall b | IsStep(r, b) && Before(ops[k], b) ensures b.path !in PathsOf(ops[..k]) {
      forall i | 0 <= i < k ensures ops[..k][i].path != b.path { assert ops[i] in ops; }
    }
  }

  lemma PathsGrow(ops: seq<Entry>, k: nat)
    requires k < |ops|
    ensures PathsOf(ops[..k + 1]) == PathsOf(ops[..k]) + {ops[k].path}
  {
    var more := ops[..k + 1];
    assert forall i | 0 <= i < k :: more[i] == ops[..k][i];
    forall p | p in PathsOf(ops[..k]) + {ops[k].path} ensures p in PathsOf(more) {
      if p == ops[k].path {
        assert more[k].path == p;
      } else {
        var i :| 0 <= i < k && ops[..k][i].path == p;
        assert more[i].path == p;
      }
    }
  }

  lemma AfterOneMore(r: Run, ops: seq<Entry>, k: nat)
    requires k < |ops|
    ensures r.After(ops[..k + 1]) == r.Exec(r.After(ops[..k]), ops[k]).0
  {
    assert ops[..k + 1][..k] == ops[..k];
  }

  lemma NextStep(r: Run, ops: seq<Entry>, k: nat)
    requires r.Sound() && Executes(r, ops) && k < |ops|
    ensures r.Exec(r.Mid(PathsOf(ops[..k])), ops[k]) == (r.Mid(PathsOf(ops[..k + 1])), Expected(r, ops[k]))
  {
    NextIsDue(r, ops, k);
    AnyStep(r, PathsOf(ops[..k]), ops[k]);
    PathsGrow(ops, k);
  }

  lemma MidOfNothing(r: Run)
    ensures r.Mid({}) == r.dest && PathsOf([]) == {}
  {
    forall p ensures At(r.Mid({}), p) == At(r.dest, p) { InMid(r, {}, p); }
    SameTrees(r.Mid({}), r.dest);
  }

  // After any number of steps the tree is final where they ran, untouched elsewhere.
  lemma {:induction false} AfterPrefix(r: Run, ops: seq<Entry>, k: nat)
    requires r.Sound() && Executes(r, ops) && k <= |ops|
    ensures r.After(ops[..k]) == r.Mid(PathsOf(ops[..k]))
  {
    if k == 0 {
      MidOfNothing(r);
    } else {
      AfterPrefix(r, ops, k - 1);
      NextStep(r, ops, k - 1);
      AfterOneMore(r, ops, k - 1);
    }
  }

  lemma NothingElseAt(r: Run, done: set<Path>, p: Path)
    requires r.Sound() && p !in done
    requires forall e :: IsStep(r, e) ==> e.path in done
    ensures r.MidAt(done, p) == r.FinalAt(p)
  {
    if p in r.source && p in r.dest { SharedIsVisible(r, p); }
    var d := Decide(r.source, r.View(), r.up, p);
    assert d.Some? ==> d.value.path == p;
    assert d.None? || !IsStep(r, d.value);
    NeverConsumed(r, p);
    assert r.ConsumedBy(done, p) == r.Consumed(p) by {
      if r.Consumed(p) { SentIsStep(r, Owner(p)); }
    }
  }

  lemma SentIsStep(r: Run, p: Path)
    requires r.Sound() && r.Transferred(p)
    ensures Decide(r.source, r.View(), r.up, p).Some? && IsStep(r, Decide(r.source, r.View(), r.up, p).value)
    ensures Decide(r.source, r.View(), r.up, p).value.path == p
  {
    if p in r.dest { SharedIsVisible(r, p); }
  }

  lemma NothingElseToDo(r: Run, done: set<Path>)
    requires r.Sound()
    requires forall e :: IsStep(r, e) ==> e.path in done
    ensures r.Mid(done) == r.Final()
  {
    forall p ensures At(r.Mid(done), p) == At(r.Final(), p) {
      InMid(r, done, p);
      InFinal(r, p);
      if p !in done { NothingElseAt(r, done, p); }
    }
    SameTrees(r.Mid(done), r.Final());
  }

  // The mirror theorem. Every order that makes parents before children and
  // empties directories from the bottom up ends in the same tree, Final, and
  // every step succeeds at the first try, with two exceptions that fail and
  // change nothing: the upload of a file whose partial path is a directory, and
  // the removal of a directory with something hidden below it.
  lemma {:induction false} MirrorConverges(r: Run, ops: seq<Entry>)
    requires r.Sound() && Executes(r, ops)
    ensures r.After(ops) == r.Final()
    ensures forall k | 0 <= k < |ops| :: r.OutcomeAt(ops, k) == Expected(r, ops[k])
  {
    AfterPrefix(r, ops, |ops|);
    assert ops[..|ops|] == ops;
    SameMembers(ops, r.Todo());
    forall e | IsStep(r, e) ensures e.path in PathsOf(ops) {
      StepsAreTodo(r, e);
      var i :| 0 <= i < |ops| && ops[i] == e;
    }
    NothingElseToDo(r, PathsOf(ops));
    forall k | 0 <= k < |ops| ensures r.OutcomeAt(ops, k) == Expected(r, ops[k]) {
      AfterPrefix(r, ops, k);
      NextStep(r, ops, k);
    }
  }

  // What Final means to the user: the source is there, in kind, and in content as
  // SentIsExact says, each file either sent, or already within the comparison's tolerance, or, if it
  // was blocked, as before; what the scan does not show is untouched, unless it
  // was the partial of a file sent; and all else that is left is a directory
  // kept for something hidden below it.
  lemma FinalMirrorsSource(r: Run, p: Path)
    requires r.Sound()
    ensures p in r.source && r.source[p].Dir? ==> HasDir(r.Final(), p)
    ensures p in r.source && r.source[p].File? ==>
              At(r.Final(), p) == (if r.Arrives(p) then Some(r.Sent(p)) else At(r.dest, p)) &&
              (r.Transferred(p) || (p in r.dest && r.dest[p].File? && !Differs(r.source[p], r.dest[p], r.up)))
    ensures p in r.dest && !Visible(r.ignored, r.dest, p) ==>
              p !in r.source && At(r.Final(), p) == if r.Consumed(p) then None else Some(r.dest[p])
    ensures p !in r.source && p in r.dest && Visible(r.ignored, r.dest, p) ==>
              At(r.Final(), p) == if r.dest[p].Dir? && HiddenBelow(r.ignored, r.dest, p) then Some(r.dest[p]) else None
    ensures p !in r.source && p !in r.dest ==> p !in r.Final()
  {
    if p in r.source && p in r.dest { SharedIsVisible(r, p); }
    InFinal(r, p);
    NeverConsumed(r, p);
  }

  // An upload goes on from what it finds exactly if the file has ten megabytes
  // or more and its partial, a hidden file beside it, is not empty, not larger
  // and not older; the server has to play along.
  lemma ContinuesExactly(r: Run, t: Tree, p: Path)
    requires p in r.source && r.source[p].File? && p != []
    ensures var q := p[..|p| - 1] + ["." + p[|p| - 1] + ".sfync-part"];
            r.Continues(t, p) <==>
              && r.up && r.continues(p) && |r.source[p].data| >= 10_485_760 && q in t && t[q].File?
              && 0 < |t[q].data| <= |r.source[p].data| && r.source[p].mtime <= t[q].mtime
  {}

  // A file sent has the source's content exactly unless its upload went on from
  // a partial that is not the start of it; its size is right all the same.
  lemma SentIsExact(r: Run, p: Path)
    requires p in r.source && r.source[p].File?
    ensures r.Sent(p).data == r.source[p].data <==> !r.Spoiled(p)
    ensures |r.Sent(p).data| == |r.source[p].data|
  {
    var local := LocalOf(r.source[p]);
    if r.Continues(r.dest, p) { Uploads.ResumeIsExact(StoredAt(r.dest, PartialPath(p)).value, local); }
  }

  // A partial that is no start of the file and not older than it: the run is
  // sound, reports no error, and puts in place what is not the file.
  lemma StalePartialSpoils()
    ensures var data := seq(Uploads.RESUME_THRESHOLD, _ => 2);
            var r := Run(_ => false, map[["foo"] := File(data, 5, 0)], map[[".foo.sfync-part"] := File([1], 10, 0)],
                         true, _ => Stamp(5, 0), _ => true);
            r.Sound() && r.Arrives(["foo"]) && r.Spoiled(["foo"])
  {
    var data := seq(Uploads.RESUME_THRESHOLD, _ => 2);
    var q := [".foo.sfync-part"];
    assert "." + "foo" + PARTIAL_SUFFIX == ".foo.sfync-part";
    assert Parent(["foo"]) == [] && PartialPath(["foo"]) == q;
    assert data[0] == 2;
    assert IsPartialName("foo") ==> false;
  }

  // The only hidden entries that go are the partials of files sent.
  lemma ConsumedMeansSent(r: Run, q: Path)
    ensures r.Consumed(q) <==> r.up && exists p :: p != [] && r.Arrives(p) && PartialPath(p) == q
  {
    if r.Consumed(q) { PartialOfOwner(q); }
    if r.up && exists p :: p != [] && r.Arrives(p) && PartialPath(p) == q {
      var p :| p != [] && r.Arrives(p) && PartialPath(p) == q;
      OwnerOfPartial(p);
    }
  }

  // With nothing hidden the paths end up the source's exactly when no file that
  // the destination lacks was blocked.
  lemma NothingHiddenMeansSamePaths(r: Run)
    requires r.Sound() && r.View() == r.dest
    ensures r.Final().Keys == r.source.Keys <==> forall p <- r.source :: r.Transferred(p) && r.Blocked(p) ==> p in r.dest
  {
    forall q | q in r.dest ensures Visible(r.ignored, r.dest, q) { assert q in r.View(); }
    forall p ensures p in r.Final() <==> p in r.source && !(r.Transferred(p) && r.Blocked(p) && p !in r.dest) {
      FinalMirrorsSource(r, p);
      assert p in r.Final() <==> At(r.Final(), p).Some?;
    }
  }

  // ---- Mirroring again ----

  ghost predicate TimesKept(r: Run) {
    forall p | r.Arrives(p) :: !Differs(r.source[p], r.Sent(p), r.up)
  }

  lemma {:induction false} VisibleAfterwards(r: Run, p: Path)
    requires r.Sound() && p != []
    ensures Visible(r.ignored, r.Final(), p) <==>
              p in r.Final() && (p in r.source || (p in r.dest && Visible(r.ignored, r.dest, p)))
    decreases |p|
  {
    var t := r.Final();
    FinalMirrorsSource(r, p);
    if |p| == 1 || p !in t {
    } else {
      VisibleAfterwards(r, Parent(p));
      FinalMirrorsSource(r, Parent(p));
      if p !in r.source {
        assert IsDirAt(r.dest, Parent(p));
        if Visible(r.ignored, r.dest, p) && Parent(p) !in r.source {
          var q :| q in r.dest && p < q && !Visible(r.ignored, r.dest, q);
          assert Parent(p) < q;
        }
        if Parent(p) in r.source { SharedIsVisible(r, Parent(p)); }
      }
    }
  }

  // Diffing again after a run whose file times were kept proposes nothing but
  // one skip for each source file in place, and again the uploads that were
  // blocked and the removals that failed.
  lemma {:induction false} MirrorIsIdempotent(r: Run, e: Entry)
    requires r.Sound() && TimesKept(r)
    ensures e in Plan(r.source, Scan(r.ignored, r.Final()), r.up) <==>
              if e.path in r.source then
                r.source[e.path].File? &&
                if r.Transferred(e.path) && r.Blocked(e.path) then Some(e) == Decide(r.source, r.View(), r.up, e.path)
                else e == Entry(Skip, e.path, false)
              else
                e == Entry(DeleteDir, e.path, false) && e.path in r.View() &&
                r.dest[e.path].Dir? && HiddenBelow(r.ignored, r.dest, e.path)
  {
    var p := e.path;
    PlanMembers(r.source, Scan(r.ignored, r.Final()), r.up, e);
    if p != [] {
      VisibleAfterwards(r, p);
      FinalMirrorsSource(r, p);
      if p in r.source && p in r.dest { SharedIsVisible(r, p); }
    }
  }

  // ---- A step retried ----

  lemma {:induction false} DirsAreThere(t: Tree, p: Path)
    requires Closed(t) && IsDirAt(t, p)
    ensures WithDirs(t, p) == Some(t)
    decreases |p|
  {
    if p == [] {
    } else {
      DirsAreThere(t, Parent(p));
    }
  }

  // A step that has worked leaves things so that doing it again, as a retry
  // may, changes nothing more. It is reported as done again, except the removal
  // of a directory, and of a local file; a remote file already gone counts as
  // deleted.
  lemma RetriedStep(r: Run, t: Tree, e: Entry)
    requires r.Exec(t, e).1 != Failed && Closed(r.Exec(t, e).0) && (IsTransfer(e) ==> e.action.Upload? == r.up)
    requires e.path in r.source && r.source[e.path].File? ==> !r.Continues(t, e.path)
    ensures var (u, how) := r.Exec(r.Exec(t, e).0, e);
            && u == r.Exec(t, e).0
            && (how == Failed <==> e.action.DeleteDir? || (e.action.Delete? && !r.up))
  {
    var p, u := e.path, r.Exec(t, e).0;
    match e.action
    case Mkdir => RemadeStep(r, t, e);
    case Upload => ResentStep(r, t, e);
    case Download =>
      assert IsDirAt(u, Parent(p));
    case _ =>
  }

  lemma RemadeStep(r: Run, t: Tree, e: Entry)
    requires e.action.Mkdir? && r.Exec(t, e).1 != Failed && Closed(r.Exec(t, e).0)
    ensures r.Exec(r.Exec(t, e).0, e) == (r.Exec(t, e).0, Fallback)
  {
    DirsAreThere(r.Exec(t, e).0, e.path);
  }

  lemma ResentStep(r: Run, t: Tree, e: Entry)
    requires e.action.Upload? && r.Exec(t, e).1 != Failed && Closed(r.Exec(t, e).0)
    requires e.path in r.source && r.source[e.path].File? && !r.Continues(t, e.path)
    ensures r.Exec(r.Exec(t, e).0, e) == (r.Exec(t, e).0, Direct)
  {
    var p, u := e.path, r.Exec(t, e).0;
    OwnerOfPartial(p);
    assert Name(PartialPath(p)) == "." + Name(p) + PARTIAL_SUFFIX;
    assert PartialPath(p) != p && PartialPath(p) != Parent(p);
    assert PartialPath(p) !in u && IsDirAt(u, Parent(p));
    assert u - {PartialPath(p)} == u;
    assert u[p := u[p]] == u;
  }

  // ---- Steps whose directories are missing ----

  // MkdirAll succeeds exactly if no file is on the way, and adds just what is
  // missing.
  lemma {:induction false} WithDirsExactly(t: Tree, p: Path)
    ensures WithDirs(t, p).Some? <==> forall k | 0 < k <= |p| :: p[..k] in t ==> t[p[..k]].Dir?
    ensures WithDirs(t, p).Some? ==>
              forall q :: At(WithDirs(t, p).value, q) == if q != [] && q <= p && q !in t then Some(Dir) else At(t, q)
    decreases |p|
  {
    if p != [] {
      var d := Parent(p);
      WithDirsExactly(t, d);
      assert forall k | 0 < k < |p| :: d[..k] == p[..k];
      assert p[..|p|] == p;
      if WithDirs(t, d).Some? {
        var u := WithDirs(t, d).value;
        assert At(u, p) == At(t, p);
        if WithDirs(t, p).Some? {
          forall q ensures At(WithDirs(t, p).value, q) == if q != [] && q <= p && q !in t then Some(Dir) else At(t, q) {
            assert q <= p <==> q <= d || q == p;
            assert At(u, q) == if q != [] && q <= d && q !in t then Some(Dir) else At(t, q);
          }
        }
      }
    }
  }

  // So a directory is made, and a file downloaded, exactly if no file is in the
  // way of its directories nor anything of the other kind in its place, whether
  // or not the step that was to make its directory has worked.
  lemma StepsMakeTheirWay(r: Run, t: Tree, p: Path, isNew: bool)
    requires Closed(t) && p in r.source && p != []
    ensures var clear := forall k | 0 < k < |p| :: p[..k] in t ==> t[p[..k]].Dir?;
            && (r.Exec(t, Entry(Mkdir, p, isNew)).1 != Failed <==> clear && !(p in t && t[p].File?))
            && (r.source[p].File? ==>
                  (r.Exec(t, Entry(Download, p, isNew)).1 != Failed <==> clear && !(p in t && t[p].Dir?)))
  {
    var d := Parent(p);
    WithDirsExactly(t, d);
    WithDirsExactly(t, p);
    assert p[..|p|] == p;
    assert forall k | 0 < k < |p| :: d[..k] == p[..k];
    if IsDirAt(t, d) { DirsAreThere(t, d); }
    if WithDirs(t, d).Some? { assert At(WithDirs(t, d).value, p) == At(t, p); }
  }
}
