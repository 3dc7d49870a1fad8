// walkRemote: directories are listed by any number of workers in any order,
// each listing adding entries to a shared map and starting more listings.
module Walk {
  import opened Sums
  import opened Trees

  datatype Task =
    | Listing(dir: Path)
    | Spawning(dir: Path, subdirs: seq<Path>)   // listed; subdirectories still to start

  // listed is bookkeeping for the proofs: the directories ReadDir was called on.
  datatype State = State(entries: Tree, tasks: seq<Task>, wg: int, listed: set<Path>)

  // The server's tree, and which directories it lets us list.
  datatype Server = Server(ignored: Path -> bool, tree: Tree, readable: Path -> bool) {

    // An entry the walk should find: shown, and below listable directories only.
    predicate Reached(p: Path)
      decreases |p|
    {
      p != [] && p in tree && !PassedOver(ignored, p, tree[p]) && readable(Parent(p)) &&
      (|p| == 1 || (Reached(Parent(p)) && tree[Parent(p)].Dir?))
    }

    function Found(): Tree {
      map p | p in tree && Reached(p) :: tree[p]
    }

    // The entries one ReadDir contributes.
    function Children(d: Path): Tree {
      map p | p in tree && p != [] && Parent(p) == d && readable(d) && !PassedOver(ignored, p, tree[p]) :: tree[p]
    }

    function Subdirs(d: Path): set<Path> {
      set p | p in Children(d) && tree[p].Dir?
    }
  }

  function Start(): State {
    State(map[], [Listing([])], 1, {})
  }

  // Task i goes on: it lists its directory, starts one more listing, or returns.
  function Advance(v: Server, s: State, i: nat, subdirs: seq<Path>): State
    requires i < |s.tasks|
  {
    match s.tasks[i]
    case Listing(d) =>
      State(s.entries + v.Children(d), s.tasks[i := Spawning(d, subdirs)], s.wg, s.listed + {d})
    case Spawning(d, rest) =>
      if rest == [] then s.(tasks := s.tasks[..i] + s.tasks[i + 1..], wg := s.wg - 1)
      else s.(tasks := s.tasks[i := Spawning(d, rest[1..])] + [Listing(rest[0])], wg := s.wg + 1)
  }

  // The server names subdirectories in whatever order it likes.
  predicate Step(v: Server, s: State, s': State, i: nat, subdirs: seq<Path>) {
    i < |s.tasks| &&
    (s.tasks[i].Listing? ==> multiset(subdirs) == multiset(v.Subdirs(s.tasks[i].dir))) &&
    s' == Advance(v, s, i, subdirs)
  }

  ghost predicate Next(v: Server, s: State, s': State) {
    exists i: nat, subdirs :: Step(v, s, s', i, subdirs)
  }

  // ---- What every step keeps ----

  // How many listings of p a task still has to do or to start.
  function Owed(p: Path): Task -> nat {
    (t: Task) =>
      match t
      case Listing(d) => if d == p then 1 else 0
      case Spawning(_, rest) => multiset(rest)[p]
  }

  function Known(entries: Tree): set<Path> {
    {[]} + set p | p in entries && entries[p].Dir?
  }

  // Each directory met so far is listed or owed a listing, and exactly once;
  // the entries are those whose parent has been listed.
  ghost predicate Inv(v: Server, s: State) {
    && (forall p :: Sum(Owed(p), s.tasks) == if p in Known(s.entries) && p !in s.listed then 1 else 0)
    && s.listed <= Known(s.entries)
    && s.wg == |s.tasks|
    && (forall p :: p in s.entries <==> p != [] && Parent(p) in s.listed && v.Reached(p))
    && (forall p <- s.entries :: s.entries[p] == v.tree[p])
  }

  lemma StartInv(v: Server)
    ensures Inv(v, Start())
  {
    assert Known(map[]) == {[]};
  }

  lemma NewlyListed(v: Server, s: State, i: nat, d: Path)
    requires Inv(v, s) && i < |s.tasks| && s.tasks[i] == Listing(d)
    ensures d in Known(s.entries) && d !in s.listed
    ensures d == [] || (v.Reached(d) && v.tree[d].Dir?)
  {
    SumWithout(Owed(d), s.tasks, i);
  }

  lemma ChildrenAreNew(v: Server, s: State, i: nat, d: Path)
    requires Inv(v, s) && i < |s.tasks| && s.tasks[i] == Listing(d)
    ensures s.entries.Keys !! v.Children(d).Keys
    ensures forall p :: p in v.Children(d) <==> p != [] && Parent(p) == d && v.Reached(p)
    ensures Known(s.entries + v.Children(d)) == Known(s.entries) + v.Subdirs(d) && Known(s.entries) !! v.Subdirs(d)
  {
    NewlyListed(v, s, i, d);
    forall p ensures p in v.Children(d) <==> p != [] && Parent(p) == d && v.Reached(p) {}
    var all := s.entries + v.Children(d);
    forall p | p in all ensures all[p] == v.tree[p] {}
  }

  lemma ListingBalance(v: Server, s: State, i: nat, d: Path, subdirs: seq<Path>, p: Path)
    requires Inv(v, s) && i < |s.tasks| && s.tasks[i] == Listing(d)
    requires multiset(subdirs) == multiset(v.Subdirs(d))
    ensures Sum(Owed(p), s.tasks[i := Spawning(d, subdirs)]) ==
            if p in Known(s.entries + v.Children(d)) && p !in s.listed + {d} then 1 else 0
  {
    NewlyListed(v, s, i, d);
    ChildrenAreNew(v, s, i, d);
    SumUpdate(Owed(p), s.tasks, i, Spawning(d, subdirs));
    assert multiset(subdirs)[p] == multiset(v.Subdirs(d))[p];
  }

  lemma ListStep(v: Server, s: State, i: nat, d: Path, subdirs: seq<Path>)
    requires Inv(v, s) && i < |s.tasks| && s.tasks[i] == Listing(d)
    requires multiset(subdirs) == multiset(v.Subdirs(d))
    ensures Inv(v, Advance(v, s, i, subdirs))
  {
    forall p { ListingBalance(v, s, i, d, subdirs, p); }
    NewlyListed(v, s, i, d);
    ChildrenAreNew(v, s, i, d);
  }

  lemma SpawnBalance(s: State, i: nat, d: Path, rest: seq<Path>, p: Path)
    requires i < |s.tasks| && s.tasks[i] == Spawning(d, rest) && rest != []
    ensures Sum(Owed(p), s.tasks[i := Spawning(d, rest[1..])] + [Listing(rest[0])]) == Sum(Owed(p), s.tasks)
  {
    SumUpdate(Owed(p), s.tasks, i, Spawning(d, rest[1..]));
    SumAppend(Owed(p), s.tasks[i := Spawning(d, rest[1..])], Listing(rest[0]));
    assert rest == [rest[0]] + rest[1..];
  }

  lemma SpawnStep(v: Server, s: State, i: nat, d: Path, rest: seq<Path>)
    requires Inv(v, s) && i < |s.tasks| && s.tasks[i] == Spawning(d, rest)
    ensures Inv(v, Advance(v, s, i, []))
  {
    forall p ensures Sum(Owed(p), Advance(v, s, i, []).tasks) == Sum(Owed(p), s.tasks) {
      if rest == [] { SumWithout(Owed(p), s.tasks, i); } else { SpawnBalance(s, i, d, rest, p); }
    }
  }

  lemma StepKeepsInv(v: Server, s: State, s': State)
    requires Inv(v, s) && Next(v, s, s')
    ensures Inv(v, s')
  {
    var i: nat, subdirs :| Step(v, s, s', i, subdirs);
    match s.tasks[i]
    case Listing(d) => ListStep(v, s, i, d, subdirs);
    case Spawning(d, rest) => SpawnStep(v, s, i, d, rest);
  }

  // ---- When it ends ----

  lemma {:induction false} AllFound(v: Server, s: State, p: Path)
    requires Inv(v, s) && s.tasks == [] && v.Reached(p)
    ensures p in s.entries
    decreases |p|
  {
    if |p| <= 1 {
    } else {
      AllFound(v, s, Parent(p));
    }
    assert Sum(Owed(Parent(p)), s.tasks) == 0;
    assert Parent(p) in s.listed;
  }

  // With the WaitGroup at zero nothing is pending and the map is complete.
  lemma DrainedIsComplete(v: Server, s: State)
    requires Inv(v, s) && s.wg == 0
    ensures s.tasks == [] && s.entries == v.Found()
  {
    forall p | v.Reached(p) ensures p in s.entries { AllFound(v, s, p); }
  }

  lemma {:induction false} ReachedIsVisible(v: Server, p: Path)
    requires Closed(v.tree) && forall d :: v.readable(d)
    ensures v.Reached(p) <==> Visible(v.ignored, v.tree, p)
    decreases |p|
  {
    if |p| <= 1 {
    } else {
      ReachedIsVisible(v, Parent(p));
    }
  }

  lemma FoundIsScan(v: Server)
    requires Closed(v.tree) && forall d :: v.readable(d)
    ensures v.Found() == Scan(v.ignored, v.tree)
  {
    forall p { ReachedIsVisible(v, p); }
  }

  ghost predicate IsRun(v: Server, run: seq<State>) {
    run != [] && run[0] == Start() && forall k | 0 < k < |run| :: Next(v, run[k - 1], run[k])
  }

  lemma {:induction false} RunKeepsInv(v: Server, run: seq<State>, k: nat)
    requires IsRun(v, run) && k < |run|
    ensures Inv(v, run[k])
  {
    if k == 0 {
      StartInv(v);
    } else {
      RunKeepsInv(v, run, k - 1);
      StepKeepsInv(v, run[k - 1], run[k]);
    }
  }

  // Any completion order gives the same map: what the serial walk finds.
  lemma WalkIsOrderIndependent(v: Server, run: seq<State>)
    requires IsRun(v, run)
    ensures run[|run| - 1].wg == 0 <==> run[|run| - 1].tasks == []
    ensures run[|run| - 1].wg == 0 ==> run[|run| - 1].entries == v.Found()
    ensures run[|run| - 1].wg == 0 && Closed(v.tree) && (forall d :: v.readable(d)) ==>
              run[|run| - 1].entries == Scan(v.ignored, v.tree)
  {
    var last := run[|run| - 1];
    RunKeepsInv(v, run, |run| - 1);
    if last.wg == 0 {
      DrainedIsComplete(v, last);
      if Closed(v.tree) && forall d :: v.readable(d) { FoundIsScan(v); }
    }
  }

  // ---- It does end ----

  function Weight(t: Task): nat {
    match t
    case Listing(_) => 2
    case Spawning(_, rest) => 1 + 3 * |rest|
  }

  // Steps left: three for each directory not met yet, plus what pending listings still take.
  function Left(v: Server, s: State): int {
    3 * (|Known(v.Found())| - |Known(s.entries)|) + Sum(Weight, s.tasks)
  }

  lemma KnownIsBounded(v: Server, s: State)
    requires Inv(v, s)
    ensures Known(s.entries) <= Known(v.Found()) && 0 <= Left(v, s)
  {
    assert Known(s.entries) <= Known(v.Found());
    SubsetIsSmaller(Known(s.entries), Known(v.Found()));
  }

  lemma SubsetIsSmaller<T>(a: set<T>, b: set<T>)
    requires a <= b
    ensures |a| <= |b|
  {
    assert b == a + (b - a);
  }

  lemma ListingIsCounted(v: Server, s: State, i: nat, d: Path, subdirs: seq<Path>)
    requires Inv(v, s) && i < |s.tasks| && s.tasks[i] == Listing(d)
    requires multiset(subdirs) == multiset(v.Subdirs(d))
    ensures Left(v, Advance(v, s, i, subdirs)) == Left(v, s) - 1
  {
    ChildrenAreNew(v, s, i, d);
    SumUpdate(Weight, s.tasks, i, Spawning(d, subdirs));
    assert |multiset(subdirs)| == |subdirs| && |multiset(v.Subdirs(d))| == |v.Subdirs(d)|;
  }

  lemma SpawningIsCounted(v: Server, s: State, i: nat, d: Path, rest: seq<Path>, subdirs: seq<Path>)
    requires i < |s.tasks| && s.tasks[i] == Spawning(d, rest)
    ensures Left(v, Advance(v, s, i, subdirs)) == Left(v, s) - 1
  {
    if rest == [] {
      SumWithout(Weight, s.tasks, i);
    } else {
      SumUpdate(Weight, s.tasks, i, Spawning(d, rest[1..]));
      SumAppend(Weight, s.tasks[i := Spawning(d, rest[1..])], Listing(rest[0]));
    }
  }

  // Every step brings the end exactly one closer, whoever takes it.
  lemma StepsAreCounted(v: Server, s: State, s': State)
    requires Inv(v, s) && Next(v, s, s')
    ensures Left(v, s') == Left(v, s) - 1
  {
    var i: nat, subdirs :| Step(v, s, s', i, subdirs);
    match s.tasks[i]
    case Listing(d) => ListingIsCounted(v, s, i, d, subdirs);
    case Spawning(d, rest) => SpawningIsCounted(v, s, i, d, rest, subdirs);
  }

  // readdir gives the entries in no particular order.
  method Enumerate(s: set<Path>) returns (q: seq<Path>)
    ensures multiset(q) == multiset(s)
  {
    q := [];
    var left := s;
    ghost var taken: set<Path> := {};
    while left != {}
      invariant left + taken == s && left !! taken && multiset(q) == multiset(taken)
      decreases left
    {
      var p :| p in left;
      q, left, taken := q + [p], left - {p}, taken + {p};
    }
    assert taken == s;
  }

  // One worker's next step, chosen arbitrarily.
  method TakeStep(v: Server, s: State) returns (s': State)
    requires Inv(v, s) && s.wg != 0
    ensures Inv(v, s') && Left(v, s') == Left(v, s) - 1
  {
    var i: nat :| i < |s.tasks| by { assert 0 < |s.tasks|; }
    var subdirs := [];
    if s.tasks[i].Listing? { subdirs := Enumerate(v.Subdirs(s.tasks[i].dir)); }
    s' := Advance(v, s, i, subdirs);
    assert Step(v, s, s', i, subdirs);
    StepsAreCounted(v, s, s');
    StepKeepsInv(v, s, s');
  }

  // The walk itself, its workers' steps interleaved in an arbitrary way.
  method WalkRemote(v: Server) returns (entries: Tree)
    ensures entries == v.Found()
  {
    var s := Start();
    StartInv(v);
    KnownIsBounded(v, s);
    while s.wg != 0
      invariant Inv(v, s) && 0 <= Left(v, s)
      decreases Left(v, s)
    {
      s := TakeStep(v, s);
      KnownIsBounded(v, s);
    }
    DrainedIsComplete(v, s);
    entries := s.entries;
  }

  lemma LeftAt(v: Server, run: seq<State>, k: nat)
    requires IsRun(v, run) && k < |run|
    ensures 0 <= Left(v, run[k])
  {
    RunKeepsInv(v, run, k);
    KnownIsBounded(v, run[k]);
  }

  lemma LeftDrops(v: Server, run: seq<State>, k: nat)
    requires IsRun(v, run) && 0 < k < |run|
    ensures Left(v, run[k]) == Left(v, run[k - 1]) - 1
  {
    RunKeepsInv(v, run, k - 1);
    StepsAreCounted(v, run[k - 1], run[k]);
  }

  lemma {:induction false} LeftSoFar(v: Server, run: seq<State>, k: nat)
    requires IsRun(v, run) && k < |run|
    ensures k + Left(v, run[k]) == Left(v, Start())
  {
    if k == 0 {
      assert run[0] == Start();
    } else {
      LeftSoFar(v, run, k - 1);
      LeftDrops(v, run, k);
    }
  }

  // No run has more steps than three for each directory it lists, less one.
  lemma WalkTerminates(v: Server, run: seq<State>)
    requires IsRun(v, run)
    ensures |run| <= 3 * |Known(v.Found())|
    ensures run[|run| - 1].wg == 0 ==> |run| == 3 * |Known(v.Found())|
  {
    LeftSoFar(v, run, |run| - 1);
    LeftAt(v, run, |run| - 1);
    assert Known(map[]) == {[]};
    if run[|run| - 1].wg == 0 {
      WalkIsOrderIndependent(v, run);
    }
  }

  // ---- What a directory that cannot be listed costs ----

  // What is shown is found exactly if every directory above it can be listed.
  lemma {:induction false} ReachedExactly(v: Server, p: Path)
    requires Closed(v.tree)
    ensures v.Reached(p) <==> Visible(v.ignored, v.tree, p) && forall k | 0 <= k < |p| :: v.readable(p[..k])
    decreases |p|
  {
    if p != [] {
      assert p[..|p| - 1] == Parent(p);
      if |p| > 1 {
        ReachedExactly(v, Parent(p));
        assert forall k | 0 <= k < |p| - 1 :: Parent(p)[..k] == p[..k];
      }
    }
  }

  // A file that both sides have and show is deleted by a mirror-down, and sent
  // again by a mirror-up as if it were new, exactly if some directory above it
  // could not be listed on the server.
  lemma UnlistedIsGone(v: Server, local: Tree, p: Path)
    requires Closed(v.tree) && Visible(v.ignored, v.tree, p) && Visible(v.ignored, local, p)
    requires v.tree[p].File? && local[p].File?
    ensures var here := Scan(v.ignored, local);
            var unlisted := exists k :: 0 <= k < |p| && !v.readable(p[..k]);
            && (Entry(Delete, p, false) in Plan(v.Found(), here, false) <==> unlisted)
            && (Entry(Upload, p, true) in Plan(here, v.Found(), true) <==> unlisted)
  {
    ReachedExactly(v, p);
    PlannedExactly(v.Found(), Scan(v.ignored, local), false, p);
    PlannedExactly(Scan(v.ignored, local), v.Found(), true, p);
  }
}
