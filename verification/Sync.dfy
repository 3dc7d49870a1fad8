// The mirror commands end to end: scan both sides, compare, sort, execute.
module Sync {
  import opened Options
  import opened Trees
  import opened Mirror
  import opened Schedule
  import opened Engine
  import opened Recovery

  // Two complete trees whose visible source entries do not clash in kind with
  // what the destination has at the same path.
  ghost predicate Agree(ignored: Path -> bool, from: Tree, dest: Tree) {
    Closed(from) && Closed(dest) &&
    forall p | p in from && p in dest && Visible(ignored, from, p) :: from[p].Dir? == dest[p].Dir?
  }

  lemma ScansAreSound(ignored: Path -> bool, from: Tree, dest: Tree, up: bool,
                      stamps: Path -> Stamp, continues: Path -> bool)
    requires Agree(ignored, from, dest)
    ensures Run(ignored, Scan(ignored, from), dest, up, stamps, continues).Sound()
  {
    var s := Scan(ignored, from);
    forall p | p in s ensures p != [] && IsDirAt(s, Parent(p)) {
      assert Visible(ignored, from, p);
      assert IsDirAt(from, Parent(p));
    }
  }

  lemma NoConflicts(r: Run, e: Entry)
    requires r.Sound() && e in Plan(r.source, r.View(), r.up)
    ensures !e.action.Conflict?
  {
    PlanMembers(r.source, r.View(), r.up, e);
  }

  // The sorted list of a sound run is the list of steps to execute.
  lemma SortedCounts(r: Run, actions: seq<Entry>, sorted: seq<Entry>, e: Entry)
    requires r.Sound() && multiset(actions) == multiset(Plan(r.source, r.View(), r.up))
    requires Collects(sorted, actions, ACTED_ON)
    ensures multiset(sorted)[e] == if IsStep(r, e) then 1 else 0
  {
    var plan := Plan(r.source, r.View(), r.up);
    assert multiset(sorted)[e] == if Phase(e) in ACTED_ON then multiset(plan)[e] else 0;
    PlanMembers(r.source, r.View(), r.up, e);
    if e in plan { NoConflicts(r, e); }
  }

  lemma SortedIsTodo(r: Run, actions: seq<Entry>, sorted: seq<Entry>)
    requires r.Sound() && multiset(actions) == multiset(Plan(r.source, r.View(), r.up))
    requires Collects(sorted, actions, ACTED_ON)
    ensures multiset(sorted) == multiset(r.Todo())
  {
    forall e ensures multiset(sorted)[e] == multiset(r.Todo())[e] {
      SortedCounts(r, actions, sorted, e);
      StepsAreTodo(r, e);
    }
  }

  // Running in parallel, or deleting before downloading, ends where running the
  // sorted list one by one would.
  lemma {:induction false} SerialOrderAgrees(r: Run, sorted: seq<Entry>, ops: seq<Entry>)
    requires r.Sound() && Sorted(sorted) && multiset(sorted) == multiset(r.Todo()) && Executes(r, ops)
    ensures r.After(ops) == r.After(sorted)
  {
    SortedRespects(sorted);
    MirrorConverges(r, sorted);
    MirrorConverges(r, ops);
  }

  lemma NothingLost(actions: seq<Entry>, sorted: seq<Entry>, skips: seq<Entry>)
    requires Collects(sorted, actions, ACTED_ON) && Collects(skips, actions, {5})
    ensures multiset(sorted) + multiset(skips) == multiset(actions)
  {
    forall e ensures (multiset(sorted) + multiset(skips))[e] == multiset(actions)[e] {
      assert multiset(sorted)[e] == if Phase(e) == 5 then 0 else multiset(actions)[e];
      assert multiset(skips)[e] == if Phase(e) == 5 then multiset(actions)[e] else 0;
    }
  }

  lemma SkipsAndRest(actions: seq<Entry>, sorted: seq<Entry>)
    requires Collects(sorted, actions, ACTED_ON)
    ensures |sorted| + |Bucket(actions, {5})| == |actions|
    ensures forall e <- sorted :: !e.action.Skip?
  {
    BucketCollects(actions, {5});
    NothingLost(actions, sorted, Bucket(actions, {5}));
    assert |multiset(sorted) + multiset(Bucket(actions, {5}))| == |sorted| + |Bucket(actions, {5})|;
    assert |multiset(actions)| == |actions|;
    forall e | e in sorted ensures !e.action.Skip? { PhaseOfMember(sorted, actions, ACTED_ON, e); }
  }

  lemma {:induction false} ReportAt(r: Run, faults: Faults, ops: seq<Entry>, k: nat)
    requires k < |ops|
    ensures |Reports(r, faults, ops)| == |ops|
    ensures Reports(r, faults, ops)[k] == Report(ops[k], Attempted(r, faults, Reached(r, faults, ops[..k]), ops[k]).1)
    decreases |ops|
  {
    var front := ops[..|ops| - 1];
    if k < |front| {
      ReportAt(r, faults, front, k);
      assert front[..k] == ops[..k];
    } else {
      if front != [] { ReportAt(r, faults, front, 0); }
    }
  }

  lemma ReportsAreOf(r: Run, faults: Faults, ops: seq<Entry>, x: Report)
    requires x in Reports(r, faults, ops)
    ensures |Reports(r, faults, ops)| == |ops|
    ensures exists k :: 0 <= k < |ops| && ops[k] == x.entry && Reports(r, faults, ops)[k] == x
  {
    if ops != [] { ReportAt(r, faults, ops, 0); }
    var k :| 0 <= k < |Reports(r, faults, ops)| && Reports(r, faults, ops)[k] == x;
    ReportAt(r, faults, ops, k);
  }

  // A directory the source lacks and the run has to keep.
  ghost predicate Kept(r: Run, d: Path) {
    d !in r.source && d in r.View() && r.dest[d].Dir? && HiddenBelow(r.ignored, r.dest, d)
  }

  // Reports in which only the removal of kept directories and the upload of
  // blocked files failed.
  ghost predicate FailAsExpected(r: Run, reports: seq<Report>) {
    forall x <- reports :: !x.entry.action.Conflict? &&
      (!x.ok <==> (x.entry.action.DeleteDir? && Kept(r, x.entry.path)) || (x.entry.action.Upload? && r.Blocked(x.entry.path)))
  }

  const NONE := Counts(0, 0, 0, 0, 0, [], [])

  predicate Mentions(reports: seq<Report>, action: Action, p: Path) {
    exists x: Report :: x in reports && x.entry.action == action && x.entry.path == p
  }

  lemma {:induction false} WarningsAreKept(r: Run, reports: seq<Report>, d: Path)
    requires FailAsExpected(r, reports)
    ensures d in CreditAll(NONE, reports).warnings <==> Kept(r, d) && Mentions(reports, DeleteDir, d)
    ensures d in CreditAll(NONE, reports).errors <==> r.Blocked(d) && Mentions(reports, Upload, d)
  {
    if reports == [] {
    } else {
      var front, last := reports[..|reports| - 1], reports[|reports| - 1];
      assert last in reports && reports == front + [last];
      WarningsAreKept(r, front, d);
      assert Mentions(reports, DeleteDir, d) <==>
               Mentions(front, DeleteDir, d) || (last.entry.action.DeleteDir? && last.entry.path == d);
      assert Mentions(reports, Upload, d) <==> Mentions(front, Upload, d) || (last.entry.action.Upload? && last.entry.path == d);
    }
  }

  lemma ReportIsOutcome(r: Run, faults: Faults, ops: seq<Entry>, k: nat)
    requires r.Sound() && Executes(r, ops) && Faultless(faults) && k < |ops| && |Reports(r, faults, ops)| == |ops|
    ensures Reports(r, faults, ops)[k] == Report(ops[k], Expected(r, ops[k]) != Failed)
  {
    MirrorConverges(r, ops);
    ReportAt(r, faults, ops, k);
    FaultlessIsExec(r, faults, ops[..k]);
    assert r.OutcomeAt(ops, k) == Expected(r, ops[k]);
  }

  lemma ExpectedFailures(r: Run, e: Entry)
    requires IsStep(r, e)
    ensures !e.action.Conflict?
    ensures Expected(r, e) == Failed <==>
              (e.action.DeleteDir? && Kept(r, e.path)) || (e.action.Upload? && r.Blocked(e.path))
  {
  }

  lemma ReportIsHonest(r: Run, faults: Faults, ops: seq<Entry>, k: nat)
    requires r.Sound() && Executes(r, ops) && Faultless(faults) && k < |ops| && |Reports(r, faults, ops)| == |ops|
    ensures Reports(r, faults, ops)[k].entry == ops[k] && !ops[k].action.Conflict?
    ensures !Reports(r, faults, ops)[k].ok <==>
              (ops[k].action.DeleteDir? && Kept(r, ops[k].path)) || (ops[k].action.Upload? && r.Blocked(ops[k].path))
  {
    ReportIsOutcome(r, faults, ops, k);
    SameMembers(ops, r.Todo());
    assert ops[k] in ops;
    StepsAreTodo(r, ops[k]);
    ExpectedFailures(r, ops[k]);
  }

  lemma RunReports(r: Run, faults: Faults, ops: seq<Entry>)
    requires r.Sound() && Executes(r, ops) && Faultless(faults)
    ensures FailAsExpected(r, Reports(r, faults, ops))
  {
    forall x | x in Reports(r, faults, ops)
      ensures !x.entry.action.Conflict?
      ensures !x.ok <==> (x.entry.action.DeleteDir? && Kept(r, x.entry.path)) ||
                         (x.entry.action.Upload? && r.Blocked(x.entry.path))
    {
      ReportsAreOf(r, faults, ops, x);
      var k :| 0 <= k < |ops| && ops[k] == x.entry && Reports(r, faults, ops)[k] == x;
      ReportIsHonest(r, faults, ops, k);
    }
  }

  lemma StepIsReported(r: Run, faults: Faults, ops: seq<Entry>, e: Entry)
    requires Executes(r, ops) && IsStep(r, e)
    ensures Mentions(Reports(r, faults, ops), e.action, e.path)
  {
    SameMembers(ops, r.Todo());
    StepsAreTodo(r, e);
    var k :| 0 <= k < |ops| && ops[k] == e;
    ReportAt(r, faults, ops, k);
    assert Reports(r, faults, ops)[k] in Reports(r, faults, ops);
  }

  lemma ReportedIsStep(r: Run, faults: Faults, ops: seq<Entry>, x: Report)
    requires Executes(r, ops) && x in Reports(r, faults, ops)
    ensures IsStep(r, x.entry)
  {
    ReportsAreOf(r, faults, ops, x);
    SameMembers(ops, r.Todo());
    assert x.entry in ops;
    StepsAreTodo(r, x.entry);
  }

  lemma BlockedIsReported(r: Run, faults: Faults, ops: seq<Entry>, p: Path)
    requires r.Sound() && Executes(r, ops) && r.Blocked(p)
    ensures Mentions(Reports(r, faults, ops), Upload, p) <==> r.Transferred(p)
  {
    if r.Transferred(p) {
      SentIsStep(r, p);
      StepIsReported(r, faults, ops, Decide(r.source, r.View(), r.up, p).value);
    }
    if Mentions(Reports(r, faults, ops), Upload, p) {
      var x: Report :| x in Reports(r, faults, ops) && x.entry.action == Upload && x.entry.path == p;
      ReportedIsStep(r, faults, ops, x);
    }
  }

  // ---- What a mirror command promises ----

  // A job that fares as it likes may be tried twice, and either attempt may go
  // wrong in any of the ways of Recovery.
  ghost predicate Plausible(r: Run, faults: Faults) {
    forall t, e | faults(t, e).Some? :: TwoGlitches(r, t, e, faults(t, e).value.0)
  }

  ghost predicate TwoGlitches(r: Run, t: Tree, e: Entry, t': Tree) {
    exists u :: Glitch(r, t, e, u) && Glitch(r, u, e, t')
  }

  lemma AttemptedIsSane(r: Run, faults: Faults, t: Tree, e: Entry)
    requires r.Sound() && Plausible(r, faults) && Sane(r, t) && IsStep(r, e)
    ensures Sane(r, Attempted(r, faults, t, e).0)
    ensures Clear(r) && Harmless(r, t) ==> Harmless(r, Attempted(r, faults, t, e).0)
  {
    if faults(t, e).Some? {
      var t' := faults(t, e).value.0;
      assert TwoGlitches(r, t, e, t');
      var u :| Glitch(r, t, e, u) && Glitch(r, u, e, t');
      GlitchIsSane(r, t, e, u);
      GlitchIsSane(r, u, e, t');
      if Clear(r) && Harmless(r, t) {
        GlitchHarmless(r, t, e, u);
        GlitchHarmless(r, u, e, t');
      }
    } else {
      ExecIsSane(r, t, e);
      if Harmless(r, t) { ExecHarmless(r, t, e); }
    }
  }

  lemma AttemptedIsWhole(r: Run, faults: Faults, t: Tree, e: Entry)
    requires r.Sound() && Plausible(r, faults) && Sane(r, t) && Whole(r, t) && Usable(r, t) && IsStep(r, e)
    ensures Whole(r, Attempted(r, faults, t, e).0) && Usable(r, Attempted(r, faults, t, e).0)
  {
    if faults(t, e).Some? {
      var t' := faults(t, e).value.0;
      assert TwoGlitches(r, t, e, t');
      var u :| Glitch(r, t, e, u) && Glitch(r, u, e, t');
      GlitchIsSane(r, t, e, u);
      GlitchKeepsWhole(r, t, e, u);
      GlitchKeepsWhole(r, u, e, t');
    } else {
      ExecKeepsWhole(r, t, e);
    }
  }

  lemma {:induction false} ReachedIsHarmless(r: Run, faults: Faults, ops: seq<Entry>)
    requires r.Sound() && Plausible(r, faults) && forall e <- ops :: IsStep(r, e)
    ensures Sane(r, Reached(r, faults, ops))
    ensures Clear(r) ==> Harmless(r, Reached(r, faults, ops))
    ensures Usable(r, r.dest) ==> Whole(r, Reached(r, faults, ops)) && Usable(r, Reached(r, faults, ops))
  {
    if ops == [] {
    } else {
      var front, last := ops[..|ops| - 1], ops[|ops| - 1];
      ReachedIsHarmless(r, faults, front);
      AttemptedIsSane(r, faults, Reached(r, faults, front), last);
      if Usable(r, r.dest) { AttemptedIsWhole(r, faults, Reached(r, faults, front), last); }
    }
  }

  // For every pattern of failures the counts add up; when nothing fails the
  // destination is the mirror, and only what had to fail did; and whatever goes
  // wrong, ignored entries survive, and no file is truncated if the partials are
  // usable.
  ghost predicate Mirrored(r: Run, faults: Faults, t: Tree, c: Counts) {
    && c.skipped + c.Total() == |Plan(r.source, r.View(), r.up)|
    && (r.Sound() && Faultless(faults) ==> IsMirror(r, t, c))
    && (r.Sound() && Plausible(r, faults) ==>
          Sane(r, t) && (Clear(r) ==> Harmless(r, t)) && (Usable(r, r.dest) ==> Whole(r, t)))
  }

  // A file sent is the source's unless its upload went on from a spoiled partial.
  ghost predicate IsMirror(r: Run, t: Tree, c: Counts) {
    && t == r.Final()
    && (forall p :: (p in c.errors <==> r.Transferred(p) && r.Blocked(p)) && (p in c.warnings <==> Kept(r, p)))
    && (forall p | r.Arrives(p) :: p in t && t[p].File? && (t[p].data == r.source[p].data <==> !r.Spoiled(p)))
  }

  lemma SentInFinal(r: Run, p: Path)
    requires r.Sound() && r.Arrives(p)
    ensures p in r.Final() && r.Final()[p].File? && (r.Final()[p].data == r.source[p].data <==> !r.Spoiled(p))
  {
    FinalMirrorsSource(r, p);
    SentIsExact(r, p);
    assert At(r.Final(), p) == Some(r.Sent(p));
  }

  lemma AllCounted(r: Run, faults: Faults, actions: seq<Entry>, sorted: seq<Entry>, ops: seq<Entry>, skipped: nat)
    requires Collects(sorted, actions, ACTED_ON) && skipped == |Bucket(actions, {5})| && multiset(ops) == multiset(sorted)
    ensures var c := CreditAll(NONE.(skipped := skipped), Reports(r, faults, ops)); c.skipped + c.Total() == |actions|
  {
    SkipsAndRest(actions, sorted);
    assert |multiset(ops)| == |multiset(sorted)|;
    forall x | x in Reports(r, faults, ops) ensures !x.entry.action.Skip? {
      ReportsAreOf(r, faults, ops, x);
      assert x.entry in multiset(sorted);
    }
    if ops != [] { ReportAt(r, faults, ops, 0); }
    ReportsAreConserved(NONE.(skipped := skipped), Reports(r, faults, ops));
  }

  lemma FaultlessMirrors(r: Run, faults: Faults, ops: seq<Entry>, skipped: nat)
    requires r.Sound() && Faultless(faults) && Executes(r, ops)
    ensures IsMirror(r, Reached(r, faults, ops), CreditAll(NONE.(skipped := skipped), Reports(r, faults, ops)))
  {
    var reports := Reports(r, faults, ops);
    MirrorConverges(r, ops);
    FaultlessIsExec(r, faults, ops);
    RunReports(r, faults, ops);
    SkippedAside(reports, skipped);
    forall p | r.Arrives(p)
      ensures p in r.Final() && r.Final()[p].File? && (r.Final()[p].data == r.source[p].data <==> !r.Spoiled(p))
    {
      SentInFinal(r, p);
    }
    forall p
      ensures p in CreditAll(NONE, reports).errors <==> r.Transferred(p) && r.Blocked(p)
      ensures p in CreditAll(NONE, reports).warnings <==> Kept(r, p)
    {
      WarningsAreKept(r, reports, p);
      if r.Blocked(p) { BlockedIsReported(r, faults, ops, p); }
      if Kept(r, p) { StepIsReported(r, faults, ops, Entry(DeleteDir, p, false)); }
    }
  }

  lemma RunIsMirrored(r: Run, faults: Faults, actions: seq<Entry>, sorted: seq<Entry>, ops: seq<Entry>,
                      t: Tree, skipped: nat, c: Counts)
    requires multiset(actions) == multiset(Plan(r.source, r.View(), r.up))
    requires Collects(sorted, actions, ACTED_ON) && skipped == |Bucket(actions, {5})|
    requires IsRunOf(r, faults, sorted, t, NONE.(skipped := skipped), c, ops)
    ensures Mirrored(r, faults, t, c)
  {
    AllCounted(r, faults, actions, sorted, ops, skipped);
    assert |multiset(actions)| == |Plan(r.source, r.View(), r.up)|;
    if r.Sound() {
      SortedIsTodo(r, actions, sorted);
      if Faultless(faults) { FaultlessMirrors(r, faults, ops, skipped); }
      if Plausible(r, faults) {
        SameMembers(ops, r.Todo());
        forall e | e in ops ensures IsStep(r, e) { StepsAreTodo(r, e); }
        ReachedIsHarmless(r, faults, ops);
      }
    }
  }

  // Everything planned but skips is tried once, in the order ops, and what the
  // result says is what came of it: it is free of errors exactly if no transfer
  // failed.
  ghost predicate Told(r: Run, faults: Faults, t: Tree, c: Counts, ops: seq<Entry>) {
    var reports := Reports(r, faults, ops);
    && (forall e :: multiset(ops)[e] == if e in Plan(r.source, r.View(), r.up) && e.action != Skip then 1 else 0)
    && t == Reached(r, faults, ops) && AsReported(c, reports) && |reports| == |ops|
    && (forall k | 0 <= k < |ops| :: reports[k].entry == ops[k])
    && (c.errors == [] <==> forall k | 0 <= k < |ops| && (ops[k].action == Upload || ops[k].action == Download) :: reports[k].ok)
  }

  lemma TriedAsPlanned(r: Run, actions: seq<Entry>, sorted: seq<Entry>, ops: seq<Entry>, e: Entry)
    requires multiset(actions) == multiset(Plan(r.source, r.View(), r.up)) && Collects(sorted, actions, ACTED_ON)
    requires multiset(ops) == multiset(sorted)
    ensures multiset(ops)[e] == if e in Plan(r.source, r.View(), r.up) && e.action != Skip then 1 else 0
  {
    assert multiset(sorted)[e] == if Phase(e) == 5 then 0 else multiset(actions)[e];
  }

  lemma ReportedInOrder(r: Run, faults: Faults, ops: seq<Entry>)
    ensures |Reports(r, faults, ops)| == |ops|
    ensures forall k | 0 <= k < |ops| :: Reports(r, faults, ops)[k].entry == ops[k]
  {
    if ops != [] { ReportAt(r, faults, ops, 0); }
    forall k | 0 <= k < |ops| ensures Reports(r, faults, ops)[k].entry == ops[k] { ReportAt(r, faults, ops, k); }
  }

  lemma NoErrorsInOrder(c: Counts, reports: seq<Report>, ops: seq<Entry>)
    requires AsReported(c, reports) && |reports| == |ops| && forall k | 0 <= k < |ops| :: reports[k].entry == ops[k]
    ensures c.errors == [] <==>
              forall k | 0 <= k < |ops| && (ops[k].action == Upload || ops[k].action == Download) :: reports[k].ok
  {
    NoErrorsMeansAllSent(c, reports);
    assert forall k | 0 <= k < |ops| :: reports[k] in reports;
  }

  lemma RunIsTold(r: Run, faults: Faults, actions: seq<Entry>, sorted: seq<Entry>, ops: seq<Entry>,
                  t: Tree, skipped: nat, c: Counts)
    requires multiset(actions) == multiset(Plan(r.source, r.View(), r.up)) && Collects(sorted, actions, ACTED_ON)
    requires IsRunOf(r, faults, sorted, t, NONE.(skipped := skipped), c, ops)
    ensures Told(r, faults, t, c, ops)
  {
    forall e ensures multiset(ops)[e] == if e in Plan(r.source, r.View(), r.up) && e.action != Skip then 1 else 0 {
      TriedAsPlanned(r, actions, sorted, ops, e);
    }
    ReportedInOrder(r, faults, ops);
    CountsAreAsReported(skipped, Reports(r, faults, ops));
    NoErrorsInOrder(c, Reports(r, faults, ops), ops);
  }

  lemma {:induction false} SkippedAside(reports: seq<Report>, skipped: nat)
    ensures CreditAll(NONE.(skipped := skipped), reports) ==
            CreditAll(NONE, reports).(skipped := skipped + CreditAll(NONE, reports).skipped)
  {
    if reports == [] {
    } else {
      SkippedAside(reports[..|reports| - 1], skipped);
    }
  }

  lemma DownPlanHasNoUpload(r: Run, actions: seq<Entry>, sorted: seq<Entry>)
    requires multiset(actions) == multiset(Plan(r.source, r.View(), r.up)) && !r.up && Collects(sorted, actions, ACTED_ON)
    ensures forall e <- sorted :: !e.action.Upload?
  {
    forall e | e in sorted ensures !e.action.Upload? {
      PhaseOfMember(sorted, actions, ACTED_ON, e);
      assert e in multiset(actions);
      PlanMembers(r.source, r.View(), r.up, e);
    }
  }

  method MirrorUp(ignored: Path -> bool, local: Tree, remote: Tree,
      stamps: Path -> Stamp, continues: Path -> bool, faults: Faults)
    returns (t: Tree, result: MirrorResult, ghost ops: seq<Entry>)
    ensures Mirrored(Run(ignored, Scan(ignored, local), remote, true, stamps, continues), faults, t, result.Tally())
    ensures Told(Run(ignored, Scan(ignored, local), remote, true, stamps, continues), faults, t, result.Tally(), ops)
  {
    result := new MirrorResult();
    var r := Run(ignored, Scan(ignored, local), remote, true, stamps, continues);
    var actions := DiffTrees(r.source, r.View(), true);
    result.CountSkips(actions);
    var sorted := SortActions(actions);
    SkipsAndRest(actions, sorted);
    t, ops := ExecuteUp(r, faults, sorted, result);
    RunIsMirrored(r, faults, actions, sorted, ops, t, |Bucket(actions, {5})|, result.Tally());
    RunIsTold(r, faults, actions, sorted, ops, t, |Bucket(actions, {5})|, result.Tally());
  }

  method MirrorDown(ignored: Path -> bool, local: Tree, remote: Tree,
      stamps: Path -> Stamp, continues: Path -> bool, faults: Faults)
    returns (t: Tree, result: MirrorResult, ghost ops: seq<Entry>)
    ensures Mirrored(Run(ignored, Scan(ignored, remote), local, false, stamps, continues), faults, t, result.Tally())
    ensures Told(Run(ignored, Scan(ignored, remote), local, false, stamps, continues), faults, t, result.Tally(), ops)
  {
    result := new MirrorResult();
    var r := Run(ignored, Scan(ignored, remote), local, false, stamps, continues);
    var actions := DiffTrees(r.View(), r.source, false);
    result.CountSkips(actions);
    var sorted := SortActions(actions);
    SkipsAndRest(actions, sorted);
    DownPlanHasNoUpload(r, actions, sorted);
    t, ops := ExecuteDown(r, faults, sorted, result);
    RunIsMirrored(r, faults, actions, sorted, ops, t, |Bucket(actions, {5})|, result.Tally());
    RunIsTold(r, faults, actions, sorted, ops, t, |Bucket(actions, {5})|, result.Tally());
  }
}
