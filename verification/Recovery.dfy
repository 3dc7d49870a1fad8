// Mirror runs that go wrong: steps fail, half succeed, are retried, or never
// happen, in any order. What such a run can never do, and why the next
// complete run still converges.
module Recovery {
  import opened Options
  import opened Trees
  import opened Mirror
  import Uploads = Upload

  // .syncignore matches the path or a directory above it.
  predicate IgnoredOnWay(ignored: Path -> bool, p: Path)
    decreases |p|
  {
    p != [] && (ignored(p) || IgnoredOnWay(ignored, Parent(p)))
  }

  lemma {:induction false} IgnoredIsHidden(ignored: Path -> bool, t: Tree, p: Path)
    requires IgnoredOnWay(ignored, p)
    ensures !Visible(ignored, t, p)
    decreases |p|
  {
    if ignored(p) {
    } else {
      IgnoredIsHidden(ignored, t, Parent(p));
    }
  }

  // MkdirAll got no further than this.
  ghost predicate SomeDirs(t: Tree, p: Path, t': Tree) {
    exists k :: 0 <= k <= |p| && WithDirs(t, p[..k]) == Some(t')
  }

  // An upload of n to p did whatever one attempt can do to p and its partial.
  ghost predicate HalfSent(t: Tree, p: Path, n: Node, t': Tree)
    requires n.File?
  {
    && p != [] && IsDirAt(t, Parent(p))
    && !HasDir(t, p) && !HasDir(t, PartialPath(p)) && !HasDir(t', p) && !HasDir(t', PartialPath(p))
    && (forall q | q != p && q != PartialPath(p) :: At(t', q) == At(t, q))
    && exists ok, gap :: Uploads.Attempt(Uploads.Store(StoredAt(t, p), StoredAt(t, PartialPath(p)), false), LocalOf(n), ok,
                                         Uploads.Store(StoredAt(t', p), StoredAt(t', PartialPath(p)), gap))
  }

  // A download made some directories, and may have left a temporary file.
  ghost predicate HalfFetched(t: Tree, p: Path, t': Tree) {
    p != [] && exists u :: SomeDirs(t, Parent(p), u) && (t' == u || TempLeft(u, p, t'))
  }

  // CreateTemp's names: ".name.", anything, and the partial suffix.
  predicate IsTemp(q: Path, p: Path)
    requires p != []
  {
    IsPartial(q) && Parent(q) == Parent(p) && "." + Name(p) + "." <= Name(q)
  }

  ghost predicate TempLeft(u: Tree, p: Path, t': Tree)
    requires p != []
  {
    IsDirAt(u, Parent(p)) &&
    exists q, n :: TempAt(u, p, q, n, t')
  }

  predicate TempAt(u: Tree, p: Path, q: Path, n: Node, t': Tree)
    requires p != []
  {
    IsTemp(q, p) && q !in u && n.File? && t' == u[q := n]
  }

  // What running step e can have done, whatever is reported of it.
  ghost predicate Glitch(r: Run, t: Tree, e: Entry, t': Tree) {
    t' == t || t' == r.Exec(t, e).0 ||
    (e.action.Mkdir? && SomeDirs(t, e.path, t')) ||
    (e.action.Download? && HalfFetched(t, e.path, t')) ||
    (e.action.Upload? && e.path in r.source && r.source[e.path].File? && HalfSent(t, e.path, r.source[e.path], t'))
  }

  ghost predicate IsFaultyRun(r: Run, trees: seq<Tree>, ops: seq<Entry>) {
    |trees| == |ops| + 1 && trees[0] == r.dest &&
    forall k | 0 <= k < |ops| :: IsStep(r, ops[k]) && Glitch(r, trees[k], ops[k], trees[k + 1])
  }

  predicate IsPartial(q: Path) {
    q != [] && IsPartialName(Name(q))
  }

  // What .syncignore covers is as it was.
  predicate Spared(r: Run, t: Tree) {
    forall q <- r.dest :: IgnoredOnWay(r.ignored, q) && !IsPartial(q) ==> q in t && t[q] == r.dest[q]
  }

  // Every entry is of the source's kind, or was there before, or is a partial file.
  predicate Familiar(r: Run, t: Tree) {
    forall q <- t ::
      if q in r.source then t[q].Dir? == r.source[q].Dir?
      else (q in r.dest && t[q] == r.dest[q]) || (IsPartial(q) && t[q].File?)
  }

  // The directories that both sides had are there.
  predicate Standing(r: Run, t: Tree) {
    forall q <- r.source :: r.source[q].Dir? && q in r.dest ==> HasDir(t, q)
  }

  ghost predicate Sane(r: Run, t: Tree) {
    Closed(t) && Spared(r, t)
  }

  ghost predicate Harmless(r: Run, t: Tree) {
    Sane(r, t) && Familiar(r, t) && Standing(r, t)
  }

  // Transferring p may leave a file at q.
  predicate Fouls(r: Run, p: Path, q: Path)
    requires p != []
  {
    if r.up then q == PartialPath(p) else IsTemp(q, p)
  }

  // No directory still to be made is where such a file could be left.
  ghost predicate Clear(r: Run) {
    forall p, q :: p != [] && r.Transferred(p) && Fouls(r, p, q) && q in r.source ==> q in r.dest
  }

  // ---- Steps do no harm ----

  lemma StepIsNotIgnored(r: Run, e: Entry)
    requires r.Sound() && IsStep(r, e)
    ensures e.path != [] && (e.path in r.dest ==> !IgnoredOnWay(r.ignored, e.path))
  {
    if e.path in r.dest && IgnoredOnWay(r.ignored, e.path) {
      IgnoredIsHidden(r.ignored, r.dest, e.path);
      if e.path in r.source { SharedIsVisible(r, e.path); }
    }
  }

  // MkdirAll only adds directories, on the way to p.
  lemma {:induction false} WithDirsAdds(t: Tree, p: Path, u: Tree)
    requires Closed(t) && WithDirs(t, p) == Some(u)
    ensures Closed(u) && IsDirAt(u, p)
    ensures forall q <- t :: q in u && u[q] == t[q]
    ensures forall q <- u :: q !in t ==> q <= p && u[q].Dir?
    decreases |p|
  {
    if p == [] {
    } else {
      var v := WithDirs(t, Parent(p)).value;
      WithDirsAdds(t, Parent(p), v);
      assert Parent(p) <= p;
    }
  }

  lemma DirsAreSane(r: Run, t: Tree, p: Path, u: Tree)
    requires Sane(r, t) && WithDirs(t, p) == Some(u)
    ensures Sane(r, u) && IsDirAt(u, p)
  {
    WithDirsAdds(t, p, u);
  }

  lemma AncestorIsDir(r: Run, p: Path, k: nat)
    requires r.Sound() && p in r.source && k <= |p| && (k == |p| ==> r.source[p].Dir?)
    ensures p[..k] == [] || HasDir(r.source, p[..k])
  {
    if 0 < k < |p| { AncestorPresent(r.source, p, k); }
    assert k == |p| ==> p[..k] == p;
  }

  lemma DirsAreKnown(r: Run, d: Path, q: Path)
    requires r.Sound() && HasDir(r.source, d) && q != [] && q <= d
    ensures HasDir(r.source, q)
  {
    assert q == d[..|q|];
    if |q| < |d| { AncestorPresent(r.source, d, |q|); } else { assert q == d; }
  }

  lemma DirsHarmless(r: Run, t: Tree, d: Path, u: Tree)
    requires r.Sound() && Closed(t) && Familiar(r, t) && Standing(r, t)
    requires (d == [] || HasDir(r.source, d)) && WithDirs(t, d) == Some(u)
    ensures Familiar(r, u) && Standing(r, u)
  {
    WithDirsAdds(t, d, u);
    forall q | q in u && q !in t ensures HasDir(r.source, q) { DirsAreKnown(r, d, q); }
  }

  lemma SetClosed(t: Tree, p: Path, n: Node)
    requires Closed(t) && p != [] && IsDirAt(t, Parent(p)) && (p in t ==> t[p].Dir? == n.Dir?)
    ensures Closed(t[p := n])
  {
  }

  lemma SetIsSane(r: Run, t: Tree, p: Path, n: Node)
    requires Sane(r, t) && p != [] && IsDirAt(t, Parent(p)) && (p in t ==> t[p].Dir? == n.Dir?)
    requires p in r.dest && !IsPartial(p) ==> !IgnoredOnWay(r.ignored, p)
    ensures Sane(r, t[p := n])
  {
    SetClosed(t, p, n);
  }

  lemma SetHarmless(r: Run, t: Tree, p: Path, n: Node)
    requires Familiar(r, t) && Standing(r, t) && p in r.source && n.Dir? == r.source[p].Dir?
    ensures Familiar(r, t[p := n]) && Standing(r, t[p := n])
  {
  }

  lemma RemoveClosed(t: Tree, p: Path)
    requires Closed(t) && p in t && (t[p].File? || !HasChild(t, p))
    ensures Closed(t - {p})
  {
    forall q | q in t && q != p ensures Parent(q) != p {
      if t[p].Dir? { assert !(|q| == |p| + 1 && p < q); }
    }
  }

  lemma RemoveIsSane(r: Run, t: Tree, p: Path)
    requires Sane(r, t) && (p in t ==> t[p].File? || !HasChild(t, p))
    requires p in r.dest && !IsPartial(p) ==> !IgnoredOnWay(r.ignored, p)
    ensures Sane(r, t - {p})
  {
    if p in t { RemoveClosed(t, p); } else { assert t - {p} == t; }
  }

  lemma RemoveHarmless(r: Run, t: Tree, p: Path)
    requires Familiar(r, t) && Standing(r, t) && (p !in r.source || !HasDir(t, p))
    ensures Familiar(r, t - {p}) && Standing(r, t - {p})
  {
  }

  // ---- Exec ----

  lemma StoreIsSane(r: Run, found: Tree, t: Tree, p: Path, how: Outcome)
    requires Sane(r, t) && p != [] && IsDirAt(t, Parent(p))
    requires p in r.dest ==> !IgnoredOnWay(r.ignored, p)
    ensures Sane(r, r.Store(found, t, p, how).0)
  {
    if p in r.source && r.source[p].File? && !(p in t && t[p].Dir?) {
      SetIsSane(r, t, p, r.SentFrom(found, p));
    }
  }

  lemma StoreHarmless(r: Run, found: Tree, t: Tree, p: Path, how: Outcome)
    requires Familiar(r, t) && Standing(r, t)
    ensures Familiar(r, r.Store(found, t, p, how).0) && Standing(r, r.Store(found, t, p, how).0)
  {
    if p in r.source && r.source[p].File? && !(p in t && t[p].Dir?) {
      SetHarmless(r, t, p, r.SentFrom(found, p));
    }
  }

  lemma ExecIsSane(r: Run, t: Tree, e: Entry)
    requires r.Sound() && Sane(r, t) && IsStep(r, e)
    ensures Sane(r, r.Exec(t, e).0)
  {
    var p := e.path;
    StepIsNotIgnored(r, e);
    match e.action
    case Mkdir =>
      if IsDirAt(t, Parent(p)) && p !in t {
        SetIsSane(r, t, p, Dir);
      } else if WithDirs(t, p).Some? {
        DirsAreSane(r, t, p, WithDirs(t, p).value);
      }
    case Upload => if IsDirAt(t, Parent(p)) && !HasDir(t, PartialPath(p)) { UploadIsSane(r, t, p); }
    case Download =>
      if IsDirAt(t, Parent(p)) {
        StoreIsSane(r, t, t, p, Direct);
      } else if WithDirs(t, Parent(p)).Some? {
        var u := WithDirs(t, Parent(p)).value;
        DirsAreSane(r, t, Parent(p), u);
        StoreIsSane(r, u, u, p, Fallback);
      }
    case Delete => if p in t && t[p].File? { RemoveIsSane(r, t, p); }
    case DeleteDir => if p in t && t[p].Dir? && !HasChild(t, p) { RemoveIsSane(r, t, p); }
    case Skip =>
    case Conflict =>
  }

  lemma UploadIsSane(r: Run, t: Tree, p: Path)
    requires Sane(r, t) && p != [] && IsDirAt(t, Parent(p)) && !HasDir(t, PartialPath(p))
    requires p in r.dest ==> !IgnoredOnWay(r.ignored, p)
    ensures Sane(r, r.Store(t, t - {PartialPath(p)}, p, Direct).0)
  {
    OwnerOfPartial(p);
    RemoveIsSane(r, t, PartialPath(p));
    StoreIsSane(r, t, t - {PartialPath(p)}, p, Direct);
  }

  lemma ExecHarmless(r: Run, t: Tree, e: Entry)
    requires r.Sound() && Harmless(r, t) && IsStep(r, e)
    ensures Harmless(r, r.Exec(t, e).0)
  {
    var p := e.path;
    ExecIsSane(r, t, e);
    StepIsNotIgnored(r, e);
    match e.action
    case Mkdir =>
      if IsDirAt(t, Parent(p)) && p !in t {
        SetHarmless(r, t, p, Dir);
      } else if WithDirs(t, p).Some? {
        DirsHarmless(r, t, p, WithDirs(t, p).value);
      }
    case Upload =>
      if IsDirAt(t, Parent(p)) && !HasDir(t, PartialPath(p)) {
        RemoveHarmless(r, t, PartialPath(p));
        StoreHarmless(r, t, t - {PartialPath(p)}, p, Direct);
      }
    case Download => FetchHarmless(r, t, p);
    case Delete => RemoveHarmless(r, t, p);
    case DeleteDir => RemoveHarmless(r, t, p);
    case Skip =>
    case Conflict =>
  }

  lemma FetchHarmless(r: Run, t: Tree, p: Path)
    requires r.Sound() && Harmless(r, t) && p in r.source && p != []
    ensures IsDirAt(t, Parent(p)) ==> Familiar(r, r.Store(t, t, p, Direct).0) && Standing(r, r.Store(t, t, p, Direct).0)
    ensures WithDirs(t, Parent(p)).Some? ==>
              var u := WithDirs(t, Parent(p)).value;
              Familiar(r, r.Store(u, u, p, Fallback).0) && Standing(r, r.Store(u, u, p, Fallback).0)
  {
    if IsDirAt(t, Parent(p)) { StoreHarmless(r, t, t, p, Direct); }
    if WithDirs(t, Parent(p)).Some? {
      var u := WithDirs(t, Parent(p)).value;
      AncestorIsDir(r, p, |p| - 1);
      DirsHarmless(r, t, Parent(p), u);
      StoreHarmless(r, u, u, p, Fallback);
    }
  }

  // ---- Broken uploads and downloads ----

  lemma HalfSentElsewhere(t: Tree, p: Path, n: Node, t': Tree, x: Path)
    requires n.File? && HalfSent(t, p, n, t')
    ensures x != p && !IsPartial(x) ==> At(t', x) == At(t, x)
    ensures x in t' && (x == p || At(t', x) != At(t, x)) ==> t'[x].File? && (x == p || (IsPartial(x) && x == PartialPath(p)))
  {
    OwnerOfPartial(p);
  }

  lemma HalfSentClosed(t: Tree, p: Path, n: Node, t': Tree)
    requires Closed(t) && n.File? && HalfSent(t, p, n, t')
    ensures Closed(t')
  {
    var q := PartialPath(p);
    OwnerOfPartial(p);
    forall x | x in t' ensures x != [] && IsDirAt(t', Parent(x)) {
      assert x != p && x != q ==> At(t', x) == At(t, x);
      if x != [] && Parent(x) != [] { assert Parent(x) != p && Parent(x) != q ==> At(t', Parent(x)) == At(t, Parent(x)); }
    }
  }

  lemma HalfSentIsSane(r: Run, t: Tree, e: Entry, t': Tree)
    requires r.Sound() && Sane(r, t) && IsStep(r, e)
    requires e.path in r.source && r.source[e.path].File? && HalfSent(t, e.path, r.source[e.path], t')
    ensures Sane(r, t')
  {
    StepIsNotIgnored(r, e);
    HalfSentClosed(t, e.path, r.source[e.path], t');
    forall x | x in r.dest && IgnoredOnWay(r.ignored, x) && !IsPartial(x) ensures x in t' && t'[x] == r.dest[x] {
      HalfSentElsewhere(t, e.path, r.source[e.path], t', x);
    }
  }

  lemma HalfSentHarmless(r: Run, t: Tree, p: Path, t': Tree)
    requires r.Sound() && Clear(r) && r.up && Familiar(r, t) && Standing(r, t)
    requires r.Transferred(p) && HalfSent(t, p, r.source[p], t')
    ensures Familiar(r, t') && Standing(r, t')
  {
    assert Fouls(r, p, PartialPath(p));
    forall x | x in t'
      ensures if x in r.source then t'[x].Dir? == r.source[x].Dir?
              else (x in r.dest && t'[x] == r.dest[x]) || (IsPartial(x) && t'[x].File?)
    {
      HalfSentElsewhere(t, p, r.source[p], t', x);
    }
    forall x | x in r.source && r.source[x].Dir? && x in r.dest ensures HasDir(t', x) {
      assert At(t', x) == At(t, x);
    }
  }

  lemma HalfFetchedIsSane(r: Run, t: Tree, p: Path, t': Tree)
    requires Sane(r, t) && HalfFetched(t, p, t')
    ensures Sane(r, t')
  {
    var u :| SomeDirs(t, Parent(p), u) && (t' == u || TempLeft(u, p, t'));
    var k: nat :| k < |p| && WithDirs(t, Parent(p)[..k]) == Some(u);
    DirsAreSane(r, t, Parent(p)[..k], u);
    if t' != u {
      var q, n :| TempAt(u, p, q, n, t');
      SetIsSane(r, u, q, n);
    }
  }

  lemma TempHarmless(r: Run, u: Tree, p: Path, t': Tree)
    requires r.Sound() && Clear(r) && !r.up && Familiar(r, u) && Standing(r, u)
    requires p != [] && r.Transferred(p) && TempLeft(u, p, t')
    ensures Familiar(r, t') && Standing(r, t')
  {
    var q, n :| TempAt(u, p, q, n, t');
    assert Fouls(r, p, q);
    assert q !in r.source;
  }

  lemma HalfFetchedHarmless(r: Run, t: Tree, p: Path, t': Tree)
    requires r.Sound() && Clear(r) && !r.up && Harmless(r, t) && r.Transferred(p) && HalfFetched(t, p, t')
    ensures Familiar(r, t') && Standing(r, t')
  {
    var u :| SomeDirs(t, Parent(p), u) && (t' == u || TempLeft(u, p, t'));
    var k: nat :| k < |p| && WithDirs(t, Parent(p)[..k]) == Some(u);
    assert Parent(p)[..k] == p[..k];
    AncestorIsDir(r, p, k);
    DirsHarmless(r, t, p[..k], u);
    if t' != u { TempHarmless(r, u, p, t'); }
  }

  lemma GlitchIsSane(r: Run, t: Tree, e: Entry, t': Tree)
    requires r.Sound() && Sane(r, t) && IsStep(r, e) && Glitch(r, t, e, t')
    ensures Sane(r, t')
  {
    if t' == t {
    } else if t' == r.Exec(t, e).0 {
      ExecIsSane(r, t, e);
    } else if e.action.Upload? {
      HalfSentIsSane(r, t, e, t');
    } else if e.action.Mkdir? {
      var k: nat :| k <= |e.path| && WithDirs(t, e.path[..k]) == Some(t');
      DirsAreSane(r, t, e.path[..k], t');
    } else {
      HalfFetchedIsSane(r, t, e.path, t');
    }
  }

  lemma GlitchHarmless(r: Run, t: Tree, e: Entry, t': Tree)
    requires r.Sound() && Clear(r) && Harmless(r, t) && IsStep(r, e) && Glitch(r, t, e, t')
    ensures Harmless(r, t')
  {
    GlitchIsSane(r, t, e, t');
    if t' == t {
    } else if t' == r.Exec(t, e).0 {
      ExecHarmless(r, t, e);
    } else if e.action.Upload? {
      HalfSentHarmless(r, t, e.path, t');
    } else if e.action.Mkdir? {
      var k: nat :| k <= |e.path| && WithDirs(t, e.path[..k]) == Some(t');
      AncestorIsDir(r, e.path, k);
      DirsHarmless(r, t, e.path[..k], t');
    } else {
      HalfFetchedHarmless(r, t, e.path, t');
    }
  }

  // ---- Whole runs ----

  // However a run goes, the tree stays a tree and everything .syncignore covers
  // survives unchanged; and unless a file to be sent can foul a directory still
  // to be made, nothing appears that the source does not have but partial
  // files, and no entry turns into another kind.
  lemma {:induction false} FaultyRunsDoNoHarm(r: Run, trees: seq<Tree>, ops: seq<Entry>, k: nat)
    requires r.Sound() && IsFaultyRun(r, trees, ops) && k < |trees|
    ensures Sane(r, trees[k])
    ensures Clear(r) ==> Harmless(r, trees[k])
  {
    if k == 0 {
    } else {
      FaultyRunsDoNoHarm(r, trees, ops, k - 1);
      GlitchIsSane(r, trees[k - 1], ops[k - 1], trees[k]);
      if Clear(r) { GlitchHarmless(r, trees[k - 1], ops[k - 1], trees[k]); }
    }
  }

  // The run that starts from what another has left.
  function Again(r: Run, t: Tree, stamps: Path -> Stamp, continues: Path -> bool): Run {
    Run(r.ignored, r.source, t, r.up, stamps, continues)
  }

  // Whatever a faulty run left, the next run that gets through makes the
  // destination the source's mirror, but for files whose partial path has a
  // directory at it, and still keeps what is ignored. What it sends is the
  // source's, if the partials were usable to begin with.
  lemma NextRunRepairs(r: Run, trees: seq<Tree>, ops: seq<Entry>, stamps: Path -> Stamp, continues: Path -> bool,
                       next: seq<Entry>, p: Path)
    requires r.Sound() && IsFaultyRun(r, trees, ops)
    ensures var again := Again(r, trees[|ops|], stamps, continues);
            var t := again.After(next);
            && (Clear(r) ==> again.Sound())
            && (again.Sound() && Executes(again, next) ==>
                  && t == again.Final()
                  && (p in r.source && !again.Blocked(p) ==> p in t && t[p].Dir? == r.source[p].Dir?)
                  && (again.Arrives(p) ==> t[p] == again.Sent(p))
                  && (again.Arrives(p) && Usable(r, r.dest) ==> t[p].data == r.source[p].data)
                  && (p in r.dest && IgnoredOnWay(r.ignored, p) && !IsPartial(p) ==> p in t && t[p] == r.dest[p]))
  {
    var again := Again(r, trees[|ops|], stamps, continues);
    FaultyRunsDoNoHarm(r, trees, ops, |ops|);
    if again.Sound() && Executes(again, next) {
      MirrorConverges(again, next);
      FinalMirrorsSource(again, p);
      assert again.Arrives(p) ==> At(again.Final(), p) == Some(again.Sent(p));
      if IgnoredOnWay(r.ignored, p) { IgnoredIsHidden(r.ignored, again.dest, p); }
      if again.Arrives(p) && Usable(r, r.dest) {
        FaultyRunsNeverTruncate(r, trees, ops, |ops|);
        UsableIsNotSpoiled(again, p);
      }
    }
  }

  lemma UsableIsNotSpoiled(r: Run, p: Path)
    requires Usable(r, r.dest) && p in r.source && r.source[p].File?
    ensures !r.Spoiled(p) && r.Sent(p).data == r.source[p].data
  {
    SentIsExact(r, p);
  }

  // ---- When a run can do harm ----

  lemma {:induction false} WithDirsWorks(r: Run, p: Path)
    requires r.Sound() && (p == [] || (p in r.source && r.source[p].Dir?))
    ensures WithDirs(r.dest, p).Some?
    decreases |p|
  {
    if p == [] {
    } else {
      WithDirsWorks(r, Parent(p));
      WithDirsAdds(r.dest, Parent(p), WithDirs(r.dest, Parent(p)).value);
    }
  }

  lemma FouledPath(r: Run, p: Path, q: Path, u: Tree)
    requires r.Sound() && p != [] && r.Transferred(p) && Fouls(r, p, q) && q in r.source && q !in r.dest
    requires WithDirs(r.dest, Parent(p)) == Some(u)
    ensures q !in u && q != p && r.source[q].Dir? && !HasDir(u, p) && IsDirAt(u, Parent(p))
  {
    OwnerOfPartial(p);
    WithDirsAdds(r.dest, Parent(p), u);
    assert |q| == |p|;
  }

  // With p's directory made, a broken transfer of p can leave a file at q.
  lemma UploadFouls(r: Run, p: Path, u: Tree)
    requires p != [] && r.Transferred(p) && IsDirAt(u, Parent(p)) && !HasDir(u, p) && PartialPath(p) !in u && PartialPath(p) != p
    ensures HalfSent(u, p, r.source[p], u[PartialPath(p) := File([], 0, 0)])
  {
    var q := PartialPath(p);
    var t := u[q := File([], 0, 0)];
    assert Uploads.Attempt(Uploads.Store(StoredAt(u, p), StoredAt(u, q), false), LocalOf(r.source[p]), false,
                           Uploads.Store(StoredAt(t, p), StoredAt(t, q), false));
  }

  lemma DownloadFouls(t: Tree, p: Path, q: Path, u: Tree)
    requires p != [] && IsTemp(q, p) && q !in u && WithDirs(t, Parent(p)) == Some(u) && IsDirAt(u, Parent(p))
    ensures HalfFetched(t, p, u[q := File([], 0, 0)])
  {
    assert Parent(p)[..|p| - 1] == Parent(p);
    assert SomeDirs(t, Parent(p), u);
    assert TempAt(u, p, q, File([], 0, 0), u[q := File([], 0, 0)]);
  }

  lemma OneStep(r: Run, e: Entry, t: Tree)
    requires IsStep(r, e) && Glitch(r, r.dest, e, t)
    ensures IsFaultyRun(r, [r.dest, t], [e])
  {
  }

  lemma TwoSteps(r: Run, d: Entry, u: Tree, e: Entry, t: Tree)
    requires IsStep(r, d) && Glitch(r, r.dest, d, u) && IsStep(r, e) && Glitch(r, u, e, t)
    ensures IsFaultyRun(r, [r.dest, u, t], [d, e])
  {
    var trees, ops := [r.dest, u, t], [d, e];
    forall k | 0 <= k < |ops| ensures IsStep(r, ops[k]) && Glitch(r, trees[k], ops[k], trees[k + 1]) {
      assert k == 0 || k == 1;
    }
  }

  lemma RunsCanFoul(r: Run, p: Path, q: Path) returns (trees: seq<Tree>, ops: seq<Entry>)
    requires r.Sound() && p != [] && r.Transferred(p) && Fouls(r, p, q) && q in r.source && q !in r.dest
    ensures WithDirs(r.dest, Parent(p)).Some? && IsFaultyRun(r, trees, ops)
    ensures trees[|ops|] == WithDirs(r.dest, Parent(p)).value[q := File([], 0, 0)]
  {
    var e := Decide(r.source, r.View(), r.up, p).value;
    var d, mk := Parent(p), Entry(Mkdir, Parent(p), false);
    SentIsStep(r, p);
    WithDirsWorks(r, d);
    var u := WithDirs(r.dest, d).value;
    var t := u[q := File([], 0, 0)];
    FouledPath(r, p, q, u);
    if r.up { UploadFouls(r, p, u); } else { DownloadFouls(r.dest, p, q, u); }
    if !r.up {
      OneStep(r, e, t);
      trees, ops := [r.dest, t], [e];
    } else if IsDirAt(r.dest, d) {
      NothingMade(r.dest, d);
      OneStep(r, e, t);
      trees, ops := [r.dest, t], [e];
    } else {
      assert d[..|d|] == d;
      TwoSteps(r, mk, u, e, t);
      trees, ops := [r.dest, u, t], [mk, e];
    }
  }

  lemma {:induction false} NothingMade(t: Tree, d: Path)
    requires Closed(t) && IsDirAt(t, d)
    ensures WithDirs(t, d) == Some(t)
    decreases |d|
  {
    if d == [] {
    } else {
      NothingMade(t, Parent(d));
    }
  }

  // All faulty runs are harmless, and can be mirrored over again without the two
  // sides clashing in kind, exactly when no file to be transferred can foul a
  // source directory that the destination lacks.
  lemma HarmlessExactlyIfClear(r: Run, stamps: Path -> Stamp, continues: Path -> bool)
    requires r.Sound()
    ensures Clear(r) <==> forall trees, ops | IsFaultyRun(r, trees, ops) :: Harmless(r, trees[|ops|])
    ensures Clear(r) <==> forall trees, ops | IsFaultyRun(r, trees, ops) :: Again(r, trees[|ops|], stamps, continues).Sound()
  {
    if Clear(r) {
      forall trees, ops | IsFaultyRun(r, trees, ops)
        ensures Harmless(r, trees[|ops|]) && Again(r, trees[|ops|], stamps, continues).Sound()
      {
        FaultyRunsDoNoHarm(r, trees, ops, |ops|);
      }
    } else {
      var p, q :| p != [] && r.Transferred(p) && Fouls(r, p, q) && q in r.source && q !in r.dest;
      var trees, ops := RunsCanFoul(r, p, q);
      assert r.source[q].Dir?;
      var left: Tree := trees[|ops|];
      assert q in left && left[q].File?;
    }
  }

  // ---- What uploads leave ----

  function Put(t: Tree, p: Path, f: Option<Uploads.Stored>, precision: nat): Tree {
    if f.Some? then t[p := File(f.value.data, f.value.mtime, precision)] else t - {p}
  }

  // Whatever one attempt can leave is among the glitches, even that both the
  // file and its partial are gone.
  lemma AttemptsAreGlitches(r: Run, t: Tree, e: Entry, gap: bool, ok: bool, s: Uploads.Store, precision: nat)
    requires e.action.Upload? && e.path in r.source && r.source[e.path].File? && e.path != []
    requires IsDirAt(t, Parent(e.path)) && !HasDir(t, e.path) && !HasDir(t, PartialPath(e.path)) && PartialPath(e.path) != e.path
    requires Uploads.Attempt(Uploads.Store(StoredAt(t, e.path), StoredAt(t, PartialPath(e.path)), false),
                             LocalOf(r.source[e.path]), ok, s)
    ensures Glitch(r, t, e, Put(Put(t, e.path, s.dst, precision), PartialPath(e.path), s.partial, precision))
  {
    var p, q := e.path, PartialPath(e.path);
    var u := Put(Put(t, p, s.dst, precision), q, s.partial, precision);
    assert Uploads.Store(StoredAt(u, p), StoredAt(u, q), s.gap) == s;
    assert HalfSent(t, p, r.source[p], u);
  }

  // No file of the source is truncated at the destination: what is there is
  // what was there before the run, or all of the source's file.
  predicate Whole(r: Run, t: Tree) {
    forall q <- r.source :: r.source[q].File? && q in t && t[q].File? ==>
      t[q].data == r.source[q].data || (q in r.dest && r.dest[q].File? && t[q].data == r.dest[q].data)
  }

  // Every partial that an upload would continue holds the start of its file.
  ghost predicate Usable(r: Run, t: Tree) {
    r.up ==> forall q <- r.source :: q != [] && r.source[q].File? ==>
      Uploads.StartOf(StoredAt(t, PartialPath(q)), LocalOf(r.source[q]))
  }

  // A change that writes no file keeps both.
  lemma ElsewhereKeepsWhole(r: Run, t: Tree, t': Tree)
    requires Whole(r, t) && Usable(r, t)
    requires forall x | x in t' && t'[x].File? :: At(t', x) == At(t, x)
    ensures Whole(r, t') && Usable(r, t')
  {
    forall q | r.up && q in r.source && q != [] && r.source[q].File?
      ensures Uploads.StartOf(StoredAt(t', PartialPath(q)), LocalOf(r.source[q]))
    {
      var x := PartialPath(q);
      assert x in t' && t'[x].File? ==> At(t', x) == At(t, x);
    }
    forall q | q in r.source && r.source[q].File? && q in t' && t'[q].File?
      ensures t'[q].data == r.source[q].data || (q in r.dest && r.dest[q].File? && t'[q].data == r.dest[q].data)
    {
      assert At(t', q) == At(t, q);
    }
  }

  lemma SendKeepsWhole(r: Run, found: Tree, t: Tree, p: Path)
    requires r.Sound() && Usable(r, found) && Whole(r, t) && Usable(r, t) && p in r.source && r.source[p].File?
    ensures Whole(r, t[p := r.SentFrom(found, p)]) && Usable(r, t[p := r.SentFrom(found, p)])
  {
    SourceFileIsNoPartial(r, p);
    UsableIsSent(r, found, p);
    forall q | q in r.source && q != [] ensures PartialPath(q) != p { OwnerOfPartial(q); }
  }

  lemma UsableIsSent(r: Run, t: Tree, p: Path)
    requires Usable(r, t) && p in r.source && r.source[p].File?
    ensures r.SentFrom(t, p).data == r.source[p].data
  {
    if r.Continues(t, p) { Uploads.ResumeIsExact(StoredAt(t, PartialPath(p)).value, LocalOf(r.source[p])); }
  }

  lemma {:induction false} DirsKeepWhole(r: Run, t: Tree, p: Path, u: Tree)
    requires Closed(t) && Whole(r, t) && Usable(r, t) && WithDirs(t, p) == Some(u)
    ensures Whole(r, u) && Usable(r, u)
  {
    WithDirsAdds(t, p, u);
    ElsewhereKeepsWhole(r, t, u);
  }

  lemma FetchKeepsWhole(r: Run, t: Tree, e: Entry)
    requires r.Sound() && Closed(t) && Whole(r, t) && Usable(r, t)
    requires e.action.Download? && e.path in r.source && r.source[e.path].File?
    ensures Whole(r, r.Exec(t, e).0) && Usable(r, r.Exec(t, e).0)
  {
    var p := e.path;
    if p != [] && IsDirAt(t, Parent(p)) {
      SendKeepsWhole(r, t, t, p);
    } else if p != [] && WithDirs(t, Parent(p)).Some? {
      var u := WithDirs(t, Parent(p)).value;
      DirsKeepWhole(r, t, Parent(p), u);
      SendKeepsWhole(r, u, u, p);
    }
  }

  lemma MkdirKeepsWhole(r: Run, t: Tree, e: Entry)
    requires Closed(t) && Whole(r, t) && Usable(r, t) && e.action.Mkdir?
    ensures Whole(r, r.Exec(t, e).0) && Usable(r, r.Exec(t, e).0)
  {
    var p := e.path;
    if p != [] {
      if IsDirAt(t, Parent(p)) && p !in t {
        ElsewhereKeepsWhole(r, t, t[p := Dir]);
      } else if WithDirs(t, p).Some? {
        DirsKeepWhole(r, t, p, WithDirs(t, p).value);
      }
    }
  }

  lemma UploadKeepsWhole(r: Run, t: Tree, e: Entry)
    requires r.Sound() && Whole(r, t) && Usable(r, t) && e.action.Upload? && e.path in r.source && r.source[e.path].File?
    ensures Whole(r, r.Exec(t, e).0) && Usable(r, r.Exec(t, e).0)
  {
    var p := e.path;
    if p != [] && IsDirAt(t, Parent(p)) && !HasDir(t, PartialPath(p)) {
      var u := t - {PartialPath(p)};
      ElsewhereKeepsWhole(r, t, u);
      SendKeepsWhole(r, t, u, p);
    }
  }

  lemma ExecKeepsWhole(r: Run, t: Tree, e: Entry)
    requires r.Sound() && Closed(t) && Whole(r, t) && Usable(r, t) && IsStep(r, e)
    ensures Whole(r, r.Exec(t, e).0) && Usable(r, r.Exec(t, e).0)
  {
    match e.action
    case Mkdir => MkdirKeepsWhole(r, t, e);
    case Upload => UploadKeepsWhole(r, t, e);
    case Download => FetchKeepsWhole(r, t, e);
    case Delete => ElsewhereKeepsWhole(r, t, t - {e.path});
    case DeleteDir => ElsewhereKeepsWhole(r, t, t - {e.path});
    case Skip =>
    case Conflict =>
  }

  lemma HalfSentKeepsUsable(r: Run, t: Tree, p: Path, t': Tree)
    requires r.Sound() && r.up && Usable(r, t)
    requires p in r.source && r.source[p].File? && HalfSent(t, p, r.source[p], t')
    ensures Usable(r, t')
  {
    SourceFileIsNoPartial(r, p);
    forall q | q in r.source && q != [] && r.source[q].File?
      ensures Uploads.StartOf(StoredAt(t', PartialPath(q)), LocalOf(r.source[q]))
    {
      OwnerOfPartial(p);
      OwnerOfPartial(q);
      assert q != p ==> At(t', PartialPath(q)) == At(t, PartialPath(q));
    }
  }

  lemma HalfSentKeepsWhole(r: Run, t: Tree, p: Path, t': Tree)
    requires r.Sound() && r.up && Whole(r, t) && Usable(r, t)
    requires p in r.source && r.source[p].File? && HalfSent(t, p, r.source[p], t')
    ensures Whole(r, t')
  {
    OwnerOfPartial(p);
    forall q | q in r.source && r.source[q].File? && q in t' && t'[q].File?
      ensures t'[q].data == r.source[q].data || (q in r.dest && r.dest[q].File? && t'[q].data == r.dest[q].data)
    {
      SourceFileIsNoPartial(r, q);
      assert q != p ==> At(t', q) == At(t, q);
    }
  }

  lemma GlitchKeepsWhole(r: Run, t: Tree, e: Entry, t': Tree)
    requires r.Sound() && Closed(t) && Whole(r, t) && Usable(r, t) && IsStep(r, e) && Glitch(r, t, e, t')
    ensures Whole(r, t') && Usable(r, t')
  {
    if t' == t {
    } else if t' == r.Exec(t, e).0 {
      ExecKeepsWhole(r, t, e);
    } else if e.action.Upload? {
      assert r.up;
      HalfSentKeepsWhole(r, t, e.path, t');
      HalfSentKeepsUsable(r, t, e.path, t');
    } else if e.action.Mkdir? {
      var k: nat :| k <= |e.path| && WithDirs(t, e.path[..k]) == Some(t');
      DirsKeepWhole(r, t, e.path[..k], t');
    } else {
      HalfFetchedKeepsWhole(r, t, e, t');
    }
  }

  lemma HalfFetchedKeepsWhole(r: Run, t: Tree, e: Entry, t': Tree)
    requires r.Sound() && Closed(t) && Whole(r, t) && Usable(r, t) && IsStep(r, e)
    requires e.action.Download? && HalfFetched(t, e.path, t')
    ensures Whole(r, t') && Usable(r, t')
  {
    var p := e.path;
    var u :| SomeDirs(t, Parent(p), u) && (t' == u || TempLeft(u, p, t'));
    var k: nat :| k < |p| && WithDirs(t, Parent(p)[..k]) == Some(u);
    DirsKeepWhole(r, t, Parent(p)[..k], u);
    assert !r.up;
    if t' != u {
      var q, n :| TempAt(u, p, q, n, t');
      assert q in r.source ==> r.source[q].Dir?;
    }
  }

  // However a run goes wrong, no destination file is ever truncated, as long as
  // the partials that uploads found were usable.
  lemma {:induction false} FaultyRunsNeverTruncate(r: Run, trees: seq<Tree>, ops: seq<Entry>, k: nat)
    requires r.Sound() && Usable(r, r.dest) && IsFaultyRun(r, trees, ops) && k < |trees|
    ensures Whole(r, trees[k]) && Usable(r, trees[k])
  {
    if k == 0 {
    } else {
      FaultyRunsNeverTruncate(r, trees, ops, k - 1);
      FaultyRunsDoNoHarm(r, trees, ops, k - 1);
      GlitchKeepsWhole(r, trees[k - 1], ops[k - 1], trees[k]);
    }
  }
}
