// From an unordered plan to the batches that execution runs one after another:
// sortActions and depthLevels.
module Schedule {
  import opened Trees
  import opened Mirror

  // sortActions' groups, in the order it lists them; skips are dropped.
  function Phase(e: Entry): nat {
    match e.action
    case Mkdir => 0
    case Upload => 1
    case Download => 1
    case Delete => 2
    case DeleteDir => 3
    case Conflict => 4
    case Skip => 5
  }

  function Bucket(actions: seq<Entry>, phases: set<nat>): seq<Entry> {
    if actions == [] then []
    else Bucket(actions[..|actions| - 1], phases) +
         if Phase(actions[|actions| - 1]) in phases then [actions[|actions| - 1]] else []
  }

  predicate DepthSorted(s: seq<Entry>, deepestFirst: bool) {
    forall i, j | 0 <= i < j < |s| ::
      if deepestFirst then |s[i].path| >= |s[j].path| else |s[i].path| <= |s[j].path|
  }

  lemma {:induction false} BucketMembers(actions: seq<Entry>, phases: set<nat>, e: Entry)
    ensures multiset(Bucket(actions, phases))[e] == if Phase(e) in phases then multiset(actions)[e] else 0
  {
    if actions == [] {
    } else {
      var front, last := actions[..|actions| - 1], actions[|actions| - 1];
      BucketMembers(front, phases, e);
      assert actions == front + [last];
    }
  }

  lemma BucketGrows(actions: seq<Entry>, i: nat, phases: set<nat>)
    requires i < |actions|
    ensures Bucket(actions[..i + 1], phases) ==
            Bucket(actions[..i], phases) + if Phase(actions[i]) in phases then [actions[i]] else []
  {
    assert actions[..i + 1][..i] == actions[..i];
  }

  // b holds exactly the entries of these phases, in whatever order.
  ghost predicate Collects(b: seq<Entry>, actions: seq<Entry>, phases: set<nat>) {
    forall e :: multiset(b)[e] == if Phase(e) in phases then multiset(actions)[e] else 0
  }

  lemma BucketCollects(actions: seq<Entry>, phases: set<nat>)
    ensures Collects(Bucket(actions, phases), actions, phases)
  {
    forall e { BucketMembers(actions, phases, e); }
  }

  lemma PhaseOfMember(b: seq<Entry>, actions: seq<Entry>, phases: set<nat>, e: Entry)
    requires Collects(b, actions, phases) && e in b
    ensures Phase(e) in phases && e in actions
  {
    assert e in multiset(b);
    assert e in multiset(actions);
  }

  predicate Precedes(a: Entry, b: Entry, deepestFirst: bool) {
    if deepestFirst then |a.path| > |b.path| else |a.path| < |b.path|
  }

  lemma InsertedInOrder(r: seq<Entry>, a: Entry, k: nat, deepestFirst: bool)
    requires DepthSorted(r, deepestFirst) && k <= |r|
    requires forall j | 0 <= j < k :: Precedes(r[j], a, deepestFirst)
    requires k < |r| ==> !Precedes(r[k], a, deepestFirst)
    ensures DepthSorted(r[..k] + [a] + r[k..], deepestFirst)
  {
  }

  method Insert(r: seq<Entry>, a: Entry, deepestFirst: bool) returns (r': seq<Entry>)
    requires DepthSorted(r, deepestFirst)
    ensures multiset(r') == multiset(r) + multiset{a} && DepthSorted(r', deepestFirst)
  {
    var k := 0;
    while k < |r| && Precedes(r[k], a, deepestFirst)
      invariant k <= |r|
      invariant forall j | 0 <= j < k :: Precedes(r[j], a, deepestFirst)
    {
      k := k + 1;
    }
    InsertedInOrder(r, a, k, deepestFirst);
    r' := r[..k] + [a] + r[k..];
    assert r == r[..k] + r[k..];
  }

  // sort.Slice by depth: all that is known of it is that it gives some
  // permutation in depth order.
  method SortByDepth(s: seq<Entry>, deepestFirst: bool) returns (r: seq<Entry>)
    ensures multiset(r) == multiset(s) && DepthSorted(r, deepestFirst)
  {
    r := [];
    for i := 0 to |s|
      invariant multiset(r) == multiset(s[..i]) && DepthSorted(r, deepestFirst)
    {
      assert s[..i + 1] == s[..i] + [s[i]];
      r := Insert(r, s[i], deepestFirst);
    }
    assert s[..|s|] == s;
  }

  // A list in the order sortActions promises.
  predicate InOrder(a: Entry, b: Entry) {
    && Phase(a) <= Phase(b)
    && (a.action.Mkdir? && b.action.Mkdir? ==> |a.path| <= |b.path|)
    && (a.action.DeleteDir? && b.action.DeleteDir? ==> |a.path| >= |b.path|)
  }

  predicate Sorted(actions: seq<Entry>) {
    forall i, j | 0 <= i < j < |actions| :: InOrder(actions[i], actions[j])
  }

  lemma {:induction false} BucketSorted(actions: seq<Entry>, phases: set<nat>)
    requires Sorted(actions)
    ensures Sorted(Bucket(actions, phases))
  {
    if actions == [] {
    } else {
      var front, last := actions[..|actions| - 1], actions[|actions| - 1];
      BucketSorted(front, phases);
      BucketCollects(front, phases);
      forall x | x in Bucket(front, phases) ensures InOrder(x, last) {
        PhaseOfMember(Bucket(front, phases), front, phases, x);
        var i :| 0 <= i < |front| && front[i] == x;
        assert InOrder(actions[i], actions[|actions| - 1]);
      }
    }
  }

  lemma SortedConcat(a: seq<Entry>, b: seq<Entry>)
    requires Sorted(a) && Sorted(b)
    requires forall x <- a, y <- b :: InOrder(x, y)
    ensures Sorted(a + b)
  {}

  lemma OnePhaseSorted(s: seq<Entry>, phase: nat, deepestFirst: bool)
    requires forall e <- s :: Phase(e) == phase
    requires phase == 0 ==> DepthSorted(s, false)
    requires phase == 3 ==> DepthSorted(s, true)
    ensures Sorted(s)
  {}

  lemma BucketsSorted(actions: seq<Entry>, b0: seq<Entry>, b1: seq<Entry>, b2: seq<Entry>, b3: seq<Entry>, b4: seq<Entry>)
    requires Collects(b0, actions, {0}) && Collects(b1, actions, {1}) && Collects(b2, actions, {2})
    requires Collects(b3, actions, {3}) && Collects(b4, actions, {4})
    requires DepthSorted(b0, false) && DepthSorted(b3, true)
    ensures Sorted(b0 + b1 + b2 + b3 + b4)
  {
    forall e | e in b0 ensures Phase(e) == 0 { PhaseOfMember(b0, actions, {0}, e); }
    forall e | e in b1 ensures Phase(e) == 1 { PhaseOfMember(b1, actions, {1}, e); }
    forall e | e in b2 ensures Phase(e) == 2 { PhaseOfMember(b2, actions, {2}, e); }
    forall e | e in b3 ensures Phase(e) == 3 { PhaseOfMember(b3, actions, {3}, e); }
    forall e | e in b4 ensures Phase(e) == 4 { PhaseOfMember(b4, actions, {4}, e); }
    ConcatSorted(b0, b1, b2, b3, b4);
  }

  lemma ConcatSorted(b0: seq<Entry>, b1: seq<Entry>, b2: seq<Entry>, b3: seq<Entry>, b4: seq<Entry>)
    requires forall e <- b0 :: Phase(e) == 0
    requires forall e <- b1 :: Phase(e) == 1
    requires forall e <- b2 :: Phase(e) == 2
    requires forall e <- b3 :: Phase(e) == 3
    requires forall e <- b4 :: Phase(e) == 4
    requires DepthSorted(b0, false) && DepthSorted(b3, true)
    ensures Sorted(b0 + b1 + b2 + b3 + b4)
  {
    OnePhaseSorted(b0, 0, false);
    OnePhaseSorted(b1, 1, false);
    OnePhaseSorted(b2, 2, false);
    OnePhaseSorted(b3, 3, true);
    OnePhaseSorted(b4, 4, false);
    SortedConcat(b0, b1);
    SortedConcat(b0 + b1, b2);
    SortedConcat(b0 + b1 + b2, b3);
    SortedConcat(b0 + b1 + b2 + b3, b4);
  }

  lemma BucketsCover(actions: seq<Entry>, b0: seq<Entry>, b1: seq<Entry>, b2: seq<Entry>, b3: seq<Entry>, b4: seq<Entry>)
    requires Collects(b0, actions, {0}) && Collects(b1, actions, {1}) && Collects(b2, actions, {2})
    requires Collects(b3, actions, {3}) && Collects(b4, actions, {4})
    ensures Collects(b0 + b1 + b2 + b3 + b4, actions, {0, 1, 2, 3, 4})
  {
    forall e
      ensures multiset(b0 + b1 + b2 + b3 + b4)[e] == if Phase(e) in {0, 1, 2, 3, 4} then multiset(actions)[e] else 0
    {
      var n := multiset(actions)[e];
      assert multiset(b0 + b1 + b2 + b3 + b4)[e] ==
             multiset(b0)[e] + multiset(b1)[e] + multiset(b2)[e] + multiset(b3)[e] + multiset(b4)[e];
      assert multiset(b0)[e] == if Phase(e) == 0 then n else 0;
      assert multiset(b1)[e] == if Phase(e) == 1 then n else 0;
      assert multiset(b2)[e] == if Phase(e) == 2 then n else 0;
      assert multiset(b3)[e] == if Phase(e) == 3 then n else 0;
      assert multiset(b4)[e] == if Phase(e) == 4 then n else 0;
    }
  }

  lemma BucketsCollect(actions: seq<Entry>, b0: seq<Entry>, b1: seq<Entry>, b2: seq<Entry>, b3: seq<Entry>, b4: seq<Entry>)
    requires multiset(b0) == multiset(Bucket(actions, {0})) && b1 == Bucket(actions, {1})
    requires b2 == Bucket(actions, {2}) && multiset(b3) == multiset(Bucket(actions, {3})) && b4 == Bucket(actions, {4})
    ensures Collects(b0, actions, {0}) && Collects(b1, actions, {1}) && Collects(b2, actions, {2})
    ensures Collects(b3, actions, {3}) && Collects(b4, actions, {4})
  {
    BucketCollects(actions, {0});
    BucketCollects(actions, {1});
    BucketCollects(actions, {2});
    BucketCollects(actions, {3});
    BucketCollects(actions, {4});
  }

  // The sorted list: everything but the skips.
  const ACTED_ON := {0, 1, 2, 3, 4}

  method SortActions(actions: seq<Entry>) returns (result: seq<Entry>)
    ensures Sorted(result)
    ensures Collects(result, actions, ACTED_ON)
  {
    var mkdirs, transfers, deletes, deleteDirs, conflicts := [], [], [], [], [];
    for i := 0 to |actions|
      invariant mkdirs == Bucket(actions[..i], {0})
      invariant transfers == Bucket(actions[..i], {1})
      invariant deletes == Bucket(actions[..i], {2})
      invariant deleteDirs == Bucket(actions[..i], {3})
      invariant conflicts == Bucket(actions[..i], {4})
    {
      forall ph: nat { BucketGrows(actions, i, {ph}); }
      var a := actions[i];
      match a.action
      case Mkdir => mkdirs := mkdirs + [a];
      case Upload => transfers := transfers + [a];
      case Download => transfers := transfers + [a];
      case Delete => deletes := deletes + [a];
      case DeleteDir => deleteDirs := deleteDirs + [a];
      case Conflict => conflicts := conflicts + [a];
      case Skip =>
    }
    assert actions[..|actions|] == actions;
    mkdirs := SortByDepth(mkdirs, false);
    deleteDirs := SortByDepth(deleteDirs, true);
    BucketsCollect(actions, mkdirs, transfers, deletes, deleteDirs, conflicts);
    BucketsSorted(actions, mkdirs, transfers, deletes, deleteDirs, conflicts);
    BucketsCover(actions, mkdirs, transfers, deletes, deleteDirs, conflicts);
    result := mkdirs + transfers + deletes + deleteDirs + conflicts;
  }

  // What that list is: everything but the skips, directories to make first and
  // shallowest first, then transfers, then deletions, and directories to remove
  // deepest first.
  lemma SortedExactly(actions: seq<Entry>, result: seq<Entry>)
    requires Sorted(result) && Collects(result, actions, ACTED_ON)
    ensures forall e :: multiset(result)[e] == if e.action == Skip then 0 else multiset(actions)[e]
    ensures forall i, j | 0 <= i < j < |result| ::
              var a, b := result[i], result[j];
              && (b.action == Mkdir ==> a.action == Mkdir && |a.path| <= |b.path|)
              && (b.action == Upload || b.action == Download ==> a.action in [Mkdir, Upload, Download])
              && (b.action == Delete ==> a.action != DeleteDir && a.action != Conflict)
              && (b.action == DeleteDir ==> a.action != Conflict && (a.action == DeleteDir ==> |a.path| >= |b.path|))
  {
    forall e ensures multiset(result)[e] == if e.action == Skip then 0 else multiset(actions)[e] {
      assert multiset(result)[e] == if Phase(e) in ACTED_ON then multiset(actions)[e] else 0;
    }
    forall i, j | 0 <= i < j < |result| ensures InOrder(result[i], result[j]) && !result[i].action.Skip? {
      PhaseOfMember(result, actions, ACTED_ON, result[i]);
    }
  }

  // ---- Levels ----

  function Flatten(levels: seq<seq<Entry>>): seq<Entry> {
    if levels == [] then [] else Flatten(levels[..|levels| - 1]) + levels[|levels| - 1]
  }

  predicate OneDepth(level: seq<Entry>, d: nat) {
    forall e <- level :: |e.path| == d
  }

  function LevelDepth(level: seq<Entry>): nat {
    if level == [] then 0 else |level[0].path|
  }

  // Consecutive non-empty runs of equal depth, each as long as it can be.
  predicate IsLevels(levels: seq<seq<Entry>>) {
    levels == [] ||
    (var front, last := levels[..|levels| - 1], levels[|levels| - 1];
     IsLevels(front) && last != [] && OneDepth(last, LevelDepth(last)) &&
     (front != [] ==> LevelDepth(front[|front| - 1]) != LevelDepth(last)))
  }

  lemma AddLevel(levels: seq<seq<Entry>>, level: seq<Entry>)
    requires IsLevels(levels) && level != [] && OneDepth(level, LevelDepth(level))
    requires levels != [] ==> LevelDepth(levels[|levels| - 1]) != LevelDepth(level)
    ensures IsLevels(levels + [level]) && Flatten(levels + [level]) == Flatten(levels) + level
  {
    assert (levels + [level])[..|levels|] == levels;
  }

  method RunEnd(entries: seq<Entry>, i: nat) returns (j: nat)
    requires i < |entries|
    ensures i < j <= |entries| && OneDepth(entries[i..j], |entries[i].path|)
    ensures j < |entries| ==> |entries[j].path| != |entries[i].path|
  {
    j := i;
    while j < |entries| && |entries[j].path| == |entries[i].path|
      invariant i <= j <= |entries| && OneDepth(entries[i..j], |entries[i].path|)
    {
      assert entries[i..j + 1] == entries[i..j] + [entries[j]];
      j := j + 1;
    }
  }

  method DepthLevels(entries: seq<Entry>) returns (levels: seq<seq<Entry>>)
    ensures Flatten(levels) == entries && IsLevels(levels)
  {
    levels := [];
    var i := 0;
    while i < |entries|
      invariant i <= |entries| && Flatten(levels) == entries[..i] && IsLevels(levels)
      invariant levels != [] && i < |entries| ==> LevelDepth(levels[|levels| - 1]) != |entries[i].path|
    {
      var j := RunEnd(entries, i);
      AddLevel(levels, entries[i..j]);
      assert entries[..j] == entries[..i] + entries[i..j];
      levels := levels + [entries[i..j]];
      i := j;
    }
    assert entries[..|entries|] == entries;
  }

  lemma {:induction false} LevelMembers(levels: seq<seq<Entry>>, k: nat, e: Entry)
    requires IsLevels(levels) && k < |levels| && e in levels[k]
    ensures |e.path| == LevelDepth(levels[k]) && e in Flatten(levels)
    decreases |levels|
  {
    if k == |levels| - 1 {
    } else {
      LevelMembers(levels[..|levels| - 1], k, e);
    }
  }

  lemma PrefixDepthSorted(a: seq<Entry>, b: seq<Entry>, deepestFirst: bool)
    requires DepthSorted(a + b, deepestFirst)
    ensures DepthSorted(a, deepestFirst)
    ensures forall x <- a, y <- b :: if deepestFirst then |x.path| >= |y.path| else |x.path| <= |y.path|
  {
    forall i, j | 0 <= i < j < |a|
      ensures if deepestFirst then |a[i].path| >= |a[j].path| else |a[i].path| <= |a[j].path|
    {
      assert (a + b)[i] == a[i] && (a + b)[j] == a[j];
    }
    forall x, y | x in a && y in b
      ensures if deepestFirst then |x.path| >= |y.path| else |x.path| <= |y.path|
    {
      var i :| 0 <= i < |a| && a[i] == x;
      var j :| 0 <= j < |b| && b[j] == y;
      assert (a + b)[i] == x && (a + b)[|a| + j] == y;
    }
  }

  // In depth-sorted input the levels get strictly deeper (or shallower).
  lemma {:induction false} LevelsStrict(levels: seq<seq<Entry>>, deepestFirst: bool)
    requires IsLevels(levels) && DepthSorted(Flatten(levels), deepestFirst)
    ensures forall i, j | 0 <= i < j < |levels| ::
              if deepestFirst then LevelDepth(levels[i]) > LevelDepth(levels[j])
              else LevelDepth(levels[i]) < LevelDepth(levels[j])
  {
    if |levels| <= 1 {
    } else {
      var front, last := levels[..|levels| - 1], levels[|levels| - 1];
      PrefixDepthSorted(Flatten(front), last, deepestFirst);
      LevelsStrict(front, deepestFirst);
      var prev := front[|front| - 1];
      LevelMembers(front, |front| - 1, prev[0]);
      assert last[0] in last;
      forall i | 0 <= i < |front|
        ensures if deepestFirst then LevelDepth(levels[i]) > LevelDepth(last) else LevelDepth(levels[i]) < LevelDepth(last)
      {
        assert levels[i] == front[i];
      }
    }
  }
}
