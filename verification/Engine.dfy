// executeUp, executeDown and the two mirror commands, from scan to result.
module Engine {
  import opened Options
  import opened Trees
  import opened Mirror
  import opened Schedule

  datatype Counts = Counts(uploaded: nat, downloaded: nat, deleted: nat, created: nat, skipped: nat,
                           warnings: seq<Path>, errors: seq<Path>)
  {
    function Total(): nat {
      uploaded + downloaded + deleted + created + |warnings| + |errors|
    }
  }

  datatype Report = Report(entry: Entry, ok: bool)

  function Credit(c: Counts, report: Report): Counts {
    var p := report.entry.path;
    match report.entry.action
    case Mkdir => if report.ok then c.(created := c.created + 1) else c.(warnings := c.warnings + [p])
    case Upload => if report.ok then c.(uploaded := c.uploaded + 1) else c.(errors := c.errors + [p])
    case Download => if report.ok then c.(downloaded := c.downloaded + 1) else c.(errors := c.errors + [p])
    case Delete => if report.ok then c.(deleted := c.deleted + 1) else c.(warnings := c.warnings + [p])
    case DeleteDir => if report.ok then c.(deleted := c.deleted + 1) else c.(warnings := c.warnings + [p])
    case Conflict => c.(warnings := c.warnings + [p])
    case Skip => c
  }

  function CreditAll(c: Counts, reports: seq<Report>): Counts {
    if reports == [] then c else Credit(CreditAll(c, reports[..|reports| - 1]), reports[|reports| - 1])
  }

  // Every entry reported once, whatever its outcome, is counted exactly once.
  lemma {:induction false} ReportsAreConserved(c: Counts, reports: seq<Report>)
    requires forall x <- reports :: !x.entry.action.Skip?
    ensures CreditAll(c, reports).Total() == c.Total() + |reports|
    ensures CreditAll(c, reports).skipped == c.skipped
  {
    if reports == [] {
    } else {
      ReportsAreConserved(c, reports[..|reports| - 1]);
      assert reports[|reports| - 1] in reports;
    }
  }

  // The paths of the reports of a kind, in their order.
  function Picked(reports: seq<Report>, which: Report -> bool): seq<Path> {
    if reports == [] then []
    else
      var last := reports[|reports| - 1];
      Picked(reports[..|reports| - 1], which) + if which(last) then [last.entry.path] else []
  }

  // What the counts are, report by report: a failed transfer is an error, a
  // conflict or any other failure a warning, and everything else is counted
  // under what was done.
  ghost predicate AsReported(c: Counts, reports: seq<Report>) {
    && c.errors == Picked(reports, (x: Report) => !x.ok && (x.entry.action == Upload || x.entry.action == Download))
    && c.warnings == Picked(reports, (x: Report) => x.entry.action == Conflict ||
         (!x.ok && (x.entry.action == Mkdir || x.entry.action == Delete || x.entry.action == DeleteDir)))
    && c.uploaded == |Picked(reports, (x: Report) => x.ok && x.entry.action == Upload)|
    && c.downloaded == |Picked(reports, (x: Report) => x.ok && x.entry.action == Download)|
    && c.created == |Picked(reports, (x: Report) => x.ok && x.entry.action == Mkdir)|
    && c.deleted == |Picked(reports, (x: Report) => x.ok && (x.entry.action == Delete || x.entry.action == DeleteDir))|
  }

  lemma {:induction false} CountsAreAsReported(skipped: nat, reports: seq<Report>)
    ensures AsReported(CreditAll(Counts(0, 0, 0, 0, skipped, [], []), reports), reports)
  {
    if reports == [] {
    } else {
      CountsAreAsReported(skipped, reports[..|reports| - 1]);
    }
  }

  lemma {:induction false} PickedMembers(reports: seq<Report>, which: Report -> bool, p: Path)
    ensures p in Picked(reports, which) <==> exists x: Report :: x in reports && which(x) && x.entry.path == p
  {
    if reports == [] {
    } else {
      var front, last := reports[..|reports| - 1], reports[|reports| - 1];
      assert reports == front + [last];
      PickedMembers(front, which, p);
    }
  }

  // A run counts as a success exactly if no transfer failed.
  lemma {:induction false} NoErrorsMeansAllSent(c: Counts, reports: seq<Report>)
    requires AsReported(c, reports)
    ensures c.errors == [] <==> forall x <- reports :: x.entry.action == Upload || x.entry.action == Download ==> x.ok
    ensures forall p :: p in c.errors <==> exists x: Report ::
                          x in reports && !x.ok && (x.entry.action == Upload || x.entry.action == Download) && x.entry.path == p
  {
    var failed := (x: Report) => !x.ok && (x.entry.action == Upload || x.entry.action == Download);
    forall p ensures p in c.errors <==> exists x: Report :: x in reports && failed(x) && x.entry.path == p {
      PickedMembers(reports, failed, p);
    }
    assert c.errors != [] ==> c.errors[0] in c.errors;
    forall x | x in reports && failed(x) ensures c.errors != [] { assert x.entry.path in c.errors; }
  }

  // MirrorResult: the aggregate that the workers' result callbacks update.
  class MirrorResult {
    var uploaded: nat
    var downloaded: nat
    var deleted: nat
    var created: nat
    var skipped: nat
    var warnings: seq<Path>
    var errors: seq<Path>

    constructor ()
      ensures Tally() == Counts(0, 0, 0, 0, 0, [], [])
    {
      uploaded, downloaded, deleted, created, skipped, warnings, errors := 0, 0, 0, 0, 0, [], [];
    }

    function Tally(): Counts
      reads this
    {
      Counts(uploaded, downloaded, deleted, created, skipped, warnings, errors)
    }

    method CountSkips(actions: seq<Entry>)
      modifies this`skipped
      ensures skipped == old(skipped) + |Bucket(actions, {5})|
    {
      for i := 0 to |actions|
        invariant skipped == old(skipped) + |Bucket(actions[..i], {5})|
      {
        BucketGrows(actions, i, {5});
        if actions[i].action.Skip? { skipped := skipped + 1; }
      }
      assert actions[..|actions|] == actions;
    }

    // onResult, for each kind of job.
    method OnResult(e: Entry, ok: bool)
      modifies this
      ensures Tally() == Credit(old(Tally()), Report(e, ok))
    {
      match e.action
      case Mkdir => if ok { created := created + 1; } else { warnings := warnings + [e.path]; }
      case Upload => if ok { uploaded := uploaded + 1; } else { errors := errors + [e.path]; }
      case Download => if ok { downloaded := downloaded + 1; } else { errors := errors + [e.path]; }
      case Delete => if ok { deleted := deleted + 1; } else { warnings := warnings + [e.path]; }
      case DeleteDir => if ok { deleted := deleted + 1; } else { warnings := warnings + [e.path]; }
      case Conflict => warnings := warnings + [e.path];
      case Skip =>
    }
  }

  // ---- Batches ----

  // What befalls a job, if anything does: the tree it leaves, and whether it is
  // reported as done. A job runs once, so each may fare as it likes.
  type Faults = (Tree, Entry) -> Option<(Tree, bool)>

  ghost predicate Faultless(faults: Faults) {
    forall t, e :: faults(t, e).None?
  }

  function Attempted(r: Run, faults: Faults, t: Tree, e: Entry): (Tree, bool) {
    match faults(t, e)
    case Some(x) => x
    case None => (r.Exec(t, e).0, r.Exec(t, e).1 != Failed)
  }

  // The tree after running the jobs in order, and what is reported of them.
  function Reached(r: Run, faults: Faults, ops: seq<Entry>): Tree
    decreases |ops|
  {
    if ops == [] then r.dest else Attempted(r, faults, Reached(r, faults, ops[..|ops| - 1]), ops[|ops| - 1]).0
  }

  function Reports(r: Run, faults: Faults, ops: seq<Entry>): seq<Report> {
    if ops == [] then []
    else
      var front, last := ops[..|ops| - 1], ops[|ops| - 1];
      Reports(r, faults, front) + [Report(last, Attempted(r, faults, Reached(r, faults, front), last).1)]
  }

  lemma {:induction false} FaultlessIsExec(r: Run, faults: Faults, ops: seq<Entry>)
    requires Faultless(faults)
    ensures Reached(r, faults, ops) == r.After(ops)
    decreases |ops|
  {
    if ops == [] {
    } else {
      FaultlessIsExec(r, faults, ops[..|ops| - 1]);
    }
  }

  // The tree and the counts are what running ops from the start gives.
  ghost predicate InStep(r: Run, faults: Faults, t: Tree, tally: Counts, c: Counts, ops: seq<Entry>) {
    t == Reached(r, faults, ops) && tally == CreditAll(c, Reports(r, faults, ops))
  }

  lemma OneMoreStep(r: Run, faults: Faults, t: Tree, tally: Counts, c: Counts, ops: seq<Entry>, e: Entry)
    requires InStep(r, faults, t, tally, c, ops)
    ensures var (u, ok) := Attempted(r, faults, t, e); InStep(r, faults, u, Credit(tally, Report(e, ok)), c, ops + [e])
  {
    var more := ops + [e];
    assert more[..|ops|] == ops;
    assert Reports(r, faults, more)[..|Reports(r, faults, ops)|] == Reports(r, faults, ops);
  }

  method RunJob(r: Run, faults: Faults, t: Tree, e: Entry, result: MirrorResult, ghost c: Counts, ghost ops: seq<Entry>)
    returns (t': Tree)
    requires InStep(r, faults, t, result.Tally(), c, ops)
    modifies result
    ensures InStep(r, faults, t', result.Tally(), c, ops + [e])
  {
    OneMoreStep(r, faults, t, result.Tally(), c, ops, e);
    var (u, ok) := Attempted(r, faults, t, e);
    result.OnResult(e, ok);
    t' := u;
  }

  method TakeAny(jobs: seq<Entry>) returns (e: Entry, rest: seq<Entry>)
    requires jobs != []
    ensures multiset(rest) + multiset{e} == multiset(jobs) && |rest| == |jobs| - 1
  {
    var i :| 0 <= i < |jobs|;
    e, rest := jobs[i], jobs[..i] + jobs[i + 1..];
    assert jobs == jobs[..i] + [jobs[i]] + jobs[i + 1..];
  }

  // runTransfers: the jobs of one batch, in whatever order the workers take
  // them. ops is what ran before, order what has run in this batch.
  method RunBatch(r: Run, faults: Faults, t: Tree, batch: seq<Entry>, result: MirrorResult,
                  ghost c: Counts, ghost ops: seq<Entry>)
    returns (t': Tree, ghost order: seq<Entry>)
    requires InStep(r, faults, t, result.Tally(), c, ops)
    modifies result
    ensures multiset(order) == multiset(batch)
    ensures InStep(r, faults, t', result.Tally(), c, ops + order)
  {
    t' := t;
    order := [];
    var left := batch;
    assert ops + order == ops;
    while left != []
      invariant multiset(order) + multiset(left) == multiset(batch)
      invariant InStep(r, faults, t', result.Tally(), c, ops + order)
      decreases |left|
    {
      var e;
      e, left := TakeAny(left);
      t' := RunJob(r, faults, t', e, result, c, ops + order);
      assert (ops + order) + [e] == ops + (order + [e]);
      order := order + [e];
    }
  }

  // Nothing in a batch waits for anything in it or in a later one.
  ghost predicate Staged(batches: seq<seq<Entry>>) {
    forall i, j, a, b | 0 <= i <= j < |batches| && a in batches[i] && b in batches[j] :: !Before(b, a)
  }

  method RunBatches(r: Run, faults: Faults, batches: seq<seq<Entry>>, result: MirrorResult, ghost c: Counts)
    returns (t: Tree, ghost ops: seq<Entry>)
    requires Staged(batches) && result.Tally() == c
    modifies result
    ensures multiset(ops) == multiset(Flatten(batches)) && Respects(ops)
    ensures InStep(r, faults, t, result.Tally(), c, ops)
  {
    t, ops := r.dest, [];
    for i := 0 to |batches|
      invariant multiset(ops) == multiset(Flatten(batches[..i])) && Respects(ops)
      invariant InStep(r, faults, t, result.Tally(), c, ops)
    {
      ghost var order;
      t, order := RunBatch(r, faults, t, batches[i], result, c, ops);
      AppendBatch(batches, i, ops, order);
      ops := ops + order;
    }
    assert batches[..|batches|] == batches;
  }

  lemma AppendBatch(batches: seq<seq<Entry>>, i: nat, ops: seq<Entry>, order: seq<Entry>)
    requires Staged(batches) && i < |batches|
    requires multiset(ops) == multiset(Flatten(batches[..i])) && Respects(ops)
    requires multiset(order) == multiset(batches[i])
    ensures multiset(ops + order) == multiset(Flatten(batches[..i + 1])) && Respects(ops + order)
  {
    assert batches[..i + 1][..i] == batches[..i];
    forall a | a in ops ensures exists k :: 0 <= k < i && a in batches[k] {
      assert a in multiset(Flatten(batches[..i]));
      FlattenMembers(batches[..i], a);
    }
    forall b | b in order ensures b in batches[i] {
      assert b in multiset(batches[i]);
    }
    forall x, y | 0 <= x < y < |ops + order| ensures !Before((ops + order)[y], (ops + order)[x]) {
      if y < |ops| {
        assert !Before(ops[y], ops[x]);
      } else {
        assert order[y - |ops|] in order;
        if x < |ops| { assert ops[x] in ops; } else { assert order[x - |ops|] in order; }
      }
    }
  }

  lemma {:induction false} FlattenMembers(batches: seq<seq<Entry>>, e: Entry)
    requires e in Flatten(batches)
    ensures exists k :: 0 <= k < |batches| && e in batches[k]
  {
    var last := batches[|batches| - 1];
    if e in last {
    } else {
      FlattenMembers(batches[..|batches| - 1], e);
      var k :| 0 <= k < |batches| - 1 && e in batches[..|batches| - 1][k];
      assert e in batches[k];
    }
  }

  lemma SortedRespects(ops: seq<Entry>)
    requires Sorted(ops)
    ensures Respects(ops)
  {}

  // ---- executeUp ----

  ghost predicate PhasesIn(batches: seq<seq<Entry>>, phases: set<nat>) {
    forall i, e | 0 <= i < |batches| && e in batches[i] :: Phase(e) in phases
  }

  // Conflicts (phase 4) wait for nothing and nothing waits for them.
  lemma AddStage(x: seq<seq<Entry>>, phases: set<nat>, y: seq<seq<Entry>>, q: nat)
    requires Staged(x) && Staged(y) && PhasesIn(x, phases) && PhasesIn(y, {q})
    requires forall p <- phases :: p < q || p == 4
    ensures Staged(x + y) && PhasesIn(x + y, phases + {q})
  {
    forall i, j, a, b | 0 <= i <= j < |x + y| && a in (x + y)[i] && b in (x + y)[j] ensures !Before(b, a) {
      if j < |x| {
        assert a in x[i] && b in x[j];
      } else if i < |x| {
        assert a in x[i] && b in y[j - |x|];
        assert Phase(a) in phases && Phase(b) == q;
      } else {
        assert a in y[i - |x|] && b in y[j - |x|];
      }
    }
    forall i, e | 0 <= i < |x + y| && e in (x + y)[i] ensures Phase(e) in phases + {q} {
      if i < |x| { assert e in x[i]; } else { assert e in y[i - |x|]; }
    }
  }

  lemma LevelsStaged(levels: seq<seq<Entry>>, phase: nat)
    requires IsLevels(levels) && (phase == 0 || phase == 3)
    requires DepthSorted(Flatten(levels), phase == 3) && forall e <- Flatten(levels) :: Phase(e) == phase
    ensures Staged(levels) && PhasesIn(levels, {phase})
  {
    LevelsStrict(levels, phase == 3);
    forall i, e | 0 <= i < |levels| && e in levels[i]
      ensures Phase(e) == phase && |e.path| == LevelDepth(levels[i])
    {
      LevelMembers(levels, i, e);
    }
  }

  lemma SortedByDepth(b: seq<Entry>, phase: nat)
    requires Sorted(b) && (phase == 0 || phase == 3) && forall e <- b :: Phase(e) == phase
    ensures DepthSorted(b, phase == 3)
  {
    forall i | 0 <= i < |b| ensures Phase(b[i]) == phase { assert b[i] in b; }
  }

  lemma BucketLevelsStaged(actions: seq<Entry>, levels: seq<seq<Entry>>, phase: nat)
    requires Sorted(actions) && (phase == 0 || phase == 3)
    requires IsLevels(levels) && Flatten(levels) == Bucket(actions, {phase})
    ensures Staged(levels) && PhasesIn(levels, {phase})
  {
    BucketSorted(actions, {phase});
    BucketCollects(actions, {phase});
    var b := Bucket(actions, {phase});
    forall e | e in b ensures Phase(e) == phase { PhaseOfMember(b, actions, {phase}, e); }
    SortedByDepth(b, phase);
    LevelsStaged(levels, phase);
  }

  lemma BucketStaged(actions: seq<Entry>, phase: nat)
    requires phase != 0 && phase != 3
    ensures Staged([Bucket(actions, {phase})]) && PhasesIn([Bucket(actions, {phase})], {phase})
  {
    BucketCollects(actions, {phase});
    var b := Bucket(actions, {phase});
    forall e | e in b ensures Phase(e) == phase { PhaseOfMember(b, actions, {phase}, e); }
  }

  function UpBatches(b4: seq<Entry>, mk: seq<seq<Entry>>, b1: seq<Entry>, b2: seq<Entry>, rm: seq<seq<Entry>>): seq<seq<Entry>> {
    [b4] + mk + [b1] + [b2] + rm
  }

  lemma UpBatchesStaged(actions: seq<Entry>, mk: seq<seq<Entry>>, rm: seq<seq<Entry>>)
    requires Sorted(actions)
    requires IsLevels(mk) && Flatten(mk) == Bucket(actions, {0})
    requires IsLevels(rm) && Flatten(rm) == Bucket(actions, {3})
    ensures Staged(UpBatches(Bucket(actions, {4}), mk, Bucket(actions, {1}), Bucket(actions, {2}), rm))
  {
    var b4, b1, b2 := [Bucket(actions, {4})], [Bucket(actions, {1})], [Bucket(actions, {2})];
    BucketLevelsStaged(actions, mk, 0);
    BucketLevelsStaged(actions, rm, 3);
    BucketStaged(actions, 4);
    BucketStaged(actions, 1);
    BucketStaged(actions, 2);
    AddStage(b4, {4}, mk, 0);
    AddStage(b4 + mk, {4, 0}, b1, 1);
    AddStage(b4 + mk + b1, {4, 0, 1}, b2, 2);
    AddStage(b4 + mk + b1 + b2, {4, 0, 1, 2}, rm, 3);
  }

  lemma {:induction false} FlattenConcat(x: seq<seq<Entry>>, y: seq<seq<Entry>>)
    ensures Flatten(x + y) == Flatten(x) + Flatten(y)
  {
    if y == [] {
      assert x + y == x;
    } else {
      var front, last := y[..|y| - 1], y[|y| - 1];
      FlattenConcat(x, front);
      assert (x + y)[..|x + y| - 1] == x + front;
      assert Flatten(x + y) == Flatten(x + front) + last;
      assert (Flatten(x) + Flatten(front)) + last == Flatten(x) + (Flatten(front) + last);
    }
  }

  lemma FlattenUpBatches(b4: seq<Entry>, mk: seq<seq<Entry>>, b1: seq<Entry>, b2: seq<Entry>, rm: seq<seq<Entry>>)
    ensures Flatten(UpBatches(b4, mk, b1, b2, rm)) == b4 + Flatten(mk) + b1 + b2 + Flatten(rm)
  {
    FlattenConcat([b4], mk);
    FlattenConcat([b4] + mk, [b1]);
    FlattenConcat([b4] + mk + [b1], [b2]);
    FlattenConcat([b4] + mk + [b1] + [b2], rm);
  }

  lemma AllCollected(b: seq<Entry>, actions: seq<Entry>)
    requires Collects(b, actions, ACTED_ON) && forall e <- actions :: !e.action.Skip?
    ensures multiset(b) == multiset(actions)
  {
    forall e ensures multiset(b)[e] == multiset(actions)[e] {
      assert e in multiset(actions) ==> e in actions;
    }
  }

  lemma UpBatchesCover(actions: seq<Entry>, mk: seq<seq<Entry>>, rm: seq<seq<Entry>>)
    requires Flatten(mk) == Bucket(actions, {0}) && Flatten(rm) == Bucket(actions, {3})
    requires forall e <- actions :: !e.action.Skip?
    ensures multiset(Flatten(UpBatches(Bucket(actions, {4}), mk, Bucket(actions, {1}), Bucket(actions, {2}), rm))) ==
            multiset(actions)
  {
    var b4, b1, b2 := Bucket(actions, {4}), Bucket(actions, {1}), Bucket(actions, {2});
    FlattenUpBatches(b4, mk, b1, b2, rm);
    BucketsCollect(actions, Flatten(mk), b1, b2, Flatten(rm), b4);
    BucketsCover(actions, Flatten(mk), b1, b2, Flatten(rm), b4);
    AllCollected(Flatten(mk) + b1 + b2 + Flatten(rm) + b4, actions);
  }

  // One way of going through a sorted list, whatever order each batch took.
  ghost predicate IsRunOf(r: Run, faults: Faults, actions: seq<Entry>, t: Tree, c: Counts, c': Counts, ops: seq<Entry>) {
    multiset(ops) == multiset(actions) && Respects(ops) && InStep(r, faults, t, c', c, ops)
  }

  method ExecuteUp(r: Run, faults: Faults, actions: seq<Entry>, result: MirrorResult) returns (t: Tree, ghost ops: seq<Entry>)
    requires Sorted(actions) && forall e <- actions :: !e.action.Skip?
    modifies result
    ensures IsRunOf(r, faults, actions, t, old(result.Tally()), result.Tally(), ops)
  {
    var mkLevels := DepthLevels(Bucket(actions, {0}));
    var rmLevels := DepthLevels(Bucket(actions, {3}));
    var batches := UpBatches(Bucket(actions, {4}), mkLevels, Bucket(actions, {1}), Bucket(actions, {2}), rmLevels);
    UpBatchesStaged(actions, mkLevels, rmLevels);
    UpBatchesCover(actions, mkLevels, rmLevels);
    t, ops := RunBatches(r, faults, batches, result, result.Tally());
  }

  // ---- executeDown ----

  lemma RespectsConcat(x: seq<Entry>, y: seq<Entry>)
    requires Respects(x) && (forall e <- x :: Phase(e) != 1) && (forall e <- y :: e.action.Download?)
    ensures Respects(x + y)
  {
    var ops := x + y;
    forall i, j | 0 <= i < j < |ops| ensures !Before(ops[j], ops[i]) {
      if j < |x| {
        assert !Before(x[j], x[i]);
      } else {
        assert ops[j] in y;
        assert ops[i] in x || ops[i] in y;
      }
    }
  }

  lemma DownRespects(actions: seq<Entry>, serial: seq<Entry>, order: seq<Entry>)
    requires Sorted(serial) && Collects(serial, actions, {0, 2, 3, 4}) && Collects(order, actions, {1})
    requires forall e <- actions :: !e.action.Upload?
    ensures Respects(serial + order)
  {
    SortedRespects(serial);
    forall e | e in serial ensures Phase(e) != 1 { PhaseOfMember(serial, actions, {0, 2, 3, 4}, e); }
    forall e | e in order ensures e.action.Download? { PhaseOfMember(order, actions, {1}, e); }
    RespectsConcat(serial, order);
  }

  lemma DownCovers(actions: seq<Entry>, serial: seq<Entry>, order: seq<Entry>)
    requires Collects(serial, actions, {0, 2, 3, 4}) && Collects(order, actions, {1})
    requires forall e <- actions :: !e.action.Skip?
    ensures multiset(serial + order) == multiset(actions)
  {
    forall e ensures multiset(serial + order)[e] == multiset(actions)[e] {
      assert multiset(serial + order)[e] == multiset(serial)[e] + multiset(order)[e];
      assert e in multiset(actions) ==> e in actions;
    }
  }

  method ExecuteDown(r: Run, faults: Faults, actions: seq<Entry>, result: MirrorResult) returns (t: Tree, ghost ops: seq<Entry>)
    requires Sorted(actions) && forall e <- actions :: !e.action.Skip? && !e.action.Upload?
    modifies result
    ensures IsRunOf(r, faults, actions, t, old(result.Tally()), result.Tally(), ops)
  {
    ghost var c := result.Tally();
    var transfers := [];
    t, ops := r.dest, [];
    for i := 0 to |actions|
      invariant transfers == Bucket(actions[..i], {1})
      invariant ops == Bucket(actions[..i], {0, 2, 3, 4})
      invariant InStep(r, faults, t, result.Tally(), c, ops)
    {
      BucketGrows(actions, i, {1});
      BucketGrows(actions, i, {0, 2, 3, 4});
      assert actions[i] in actions;
      if actions[i].action.Download? {
        transfers := transfers + [actions[i]];
      } else {
        t := RunJob(r, faults, t, actions[i], result, c, ops);
        ops := ops + [actions[i]];
      }
    }
    assert actions[..|actions|] == actions;
    ghost var order;
    t, order := RunBatch(r, faults, t, transfers, result, c, ops);
    BucketSorted(actions, {0, 2, 3, 4});
    BucketCollects(actions, {0, 2, 3, 4});
    BucketCollects(actions, {1});
    DownRespects(actions, ops, order);
    DownCovers(actions, ops, order);
    ops := ops + order;
  }
}
