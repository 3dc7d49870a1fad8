// The auto-sync pipeline: per-file debounce timers, a bounded queue, and
// workers that claim a file, process it and pick up work that arrived meanwhile.
module Daemon {
  import opened Sums

  // A file of a profile. The queue keys it by profile + NUL + path, the
  // debouncer by profile + ":" + path.
  datatype Task = Task(profile: string, file: string)

  function Key(t: Task): string {
    t.profile + "\0" + t.file
  }

  lemma AfterProfile(t: Task, i: nat)
    ensures |t.profile| < i < |Key(t)| ==> Key(t)[i] in t.file
  {
    if |t.profile| < i < |Key(t)| { assert Key(t)[i] == t.file[i - |t.profile| - 1]; }
  }

  // A file path has no NUL, so the key is as good as the pair itself.
  lemma KeysAreDistinct(a: Task, b: Task)
    requires '\0' !in a.file && '\0' !in b.file && Key(a) == Key(b)
    ensures a == b
  {
    var k := Key(a);
    assert k[|a.profile|] == '\0' && k[|b.profile|] == '\0';
    AfterProfile(a, |b.profile|);
    AfterProfile(b, |a.profile|);
    assert a.profile == k[..|a.profile|] && b.profile == k[..|b.profile|];
    assert a.file == k[|a.profile| + 1..] && b.file == k[|b.profile| + 1..];
  }

  function DebounceKey(t: Task): string {
    t.profile + ":" + t.file
  }

  predicate IsAbsolute(file: string) {
    file != "" && file[0] == '/'
  }

  // Whether two profiles have files with the same debouncer key depends on
  // their names alone.
  predicate NamesClash(p: string, q: string) {
    p + ":/" <= q || q + ":/" <= p
  }

  lemma LongerNameExtends(p: string, f: string, q: string, g: string)
    requires IsAbsolute(f) && |p| < |q| && p + ":" + f == q + ":" + g
    ensures p + ":/" <= q
  {
    var k := p + ":" + f;
    assert k[..|p| + 2] == p + ":/";
    assert k[|q|] == ':' && k[|p| + 1] == '/';
    assert k[..|q|] == q;
  }

  lemma KeysClashExactly(p: string, q: string)
    requires p != q
    ensures NamesClash(p, q) <==>
              exists f, g :: IsAbsolute(f) && IsAbsolute(g) && DebounceKey(Task(p, f)) == DebounceKey(Task(q, g))
  {
    if p + ":/" <= q {
      LongerNameClashes(p, q);
    } else if q + ":/" <= p {
      LongerNameClashes(q, p);
    }
    if f, g :| IsAbsolute(f) && IsAbsolute(g) && DebounceKey(Task(p, f)) == DebounceKey(Task(q, g)) {
      var k := DebounceKey(Task(p, f));
      assert k[..|p|] == p && k[..|q|] == q;
      if |p| < |q| { LongerNameExtends(p, f, q, g); } else { LongerNameExtends(q, g, p, f); }
    }
  }

  lemma LongerNameClashes(p: string, q: string)
    requires p + ":/" <= q
    ensures exists f, g :: IsAbsolute(f) && IsAbsolute(g) && DebounceKey(Task(p, f)) == DebounceKey(Task(q, g))
    ensures exists f, g :: IsAbsolute(f) && IsAbsolute(g) && DebounceKey(Task(q, f)) == DebounceKey(Task(p, g))
  {
    var r := q[|p| + 2..];
    var f := "/" + r + ":/";
    assert q == p + ":/" + r;
    assert IsAbsolute(f) && IsAbsolute("/");
    assert DebounceKey(Task(p, f)) == p + ":/" + r + ":/" == DebounceKey(Task(q, "/"));
  }

  // Different files of these have different timers.
  predicate Apart(tasks: set<Task>) {
    forall a <- tasks, b <- tasks :: DebounceKey(a) == DebounceKey(b) ==> a == b
  }

  lemma DebounceKeysAreDistinct(tasks: set<Task>)
    requires forall a <- tasks :: IsAbsolute(a.file)
    requires forall a <- tasks, b <- tasks :: a.profile != b.profile ==> !NamesClash(a.profile, b.profile)
    ensures Apart(tasks)
  {
    forall a, b | a in tasks && b in tasks && DebounceKey(a) == DebounceKey(b) ensures a == b {
      var k := DebounceKey(a);
      assert a == Task(a.profile, a.file) && b == Task(b.profile, b.file);
      if a.profile != b.profile { KeysClashExactly(a.profile, b.profile); }
      assert a.file == k[|a.profile| + 1..] && b.file == k[|b.profile| + 1..];
    }
  }

  const QUEUE_CAP := 100
  const QUEUE_WORKERS := 8

  // ---- claim and finish ----

  // The files in flight and with parked work after a claim, and after a finish.
  function Claimed(inFlight: set<Task>, pending: set<Task>, k: Task): (set<Task>, set<Task>) {
    if k in inFlight then (inFlight, pending + {k}) else (inFlight + {k}, pending)
  }

  function Finished(inFlight: set<Task>, pending: set<Task>, k: Task): (set<Task>, set<Task>) {
    (inFlight - {k}, pending - {k})
  }

  class UploadQueue {
    var inFlight: set<Task>
    var pending: set<Task>
    var knownDirs: set<(string, string)>

    constructor ()
      ensures inFlight == {} && pending == {} && knownDirs == {}
    {
      inFlight, pending, knownDirs := {}, {}, {};
    }

    method Claim(task: Task) returns (mine: bool)
      modifies this`inFlight, this`pending
      ensures mine <==> task !in old(inFlight)
      ensures (inFlight, pending) == Claimed(old(inFlight), old(pending), task)
    {
      if task in inFlight {
        pending := pending + {task};
        return false;
      }
      inFlight := inFlight + {task};
      return true;
    }

    method Finish(task: Task) returns (again: bool)
      modifies this`inFlight, this`pending
      ensures again <==> task in old(pending)
      ensures (inFlight, pending) == Finished(old(inFlight), old(pending), task)
    {
      inFlight := inFlight - {task};
      assert task !in pending ==> pending - {task} == pending;
      if task !in pending { return false; }
      pending := pending - {task};
      return true;
    }

    method RememberDir(profile: string, dir: string)
      modifies this`knownDirs
      ensures knownDirs == old(knownDirs) + {(profile, dir)}
    {
      knownDirs := knownDirs + {(profile, dir)};
    }

    // "" forgets every profile's directories.
    method ForgetDirs(profile: string)
      modifies this`knownDirs
      ensures knownDirs == set d | d in old(knownDirs) && profile != "" && d.0 != profile
    {
      var left := knownDirs;
      ghost var seen: set<(string, string)> := {};
      while left != {}
        invariant left + seen == old(knownDirs) && left !! seen
        invariant knownDirs == left + set d | d in seen && profile != "" && d.0 != profile
        decreases left
      {
        var d :| d in left;
        left, seen := left - {d}, seen + {d};
        if profile == "" || d.0 == profile { knownDirs := knownDirs - {d}; }
      }
    }
  }

  // ---- The debouncer ----

  // Timers are numbered as they are created. armed: created, neither stopped
  // nor fired.
  class Debouncer {
    var timers: map<string, nat>
    var armed: map<nat, Task>
    var created: nat

    constructor ()
      ensures timers == map[] && armed == map[] && created == 0
    {
      timers, armed, created := map[], map[], 0;
    }

    method Add(task: Task)
      modifies this
      ensures armed == Rearmed(old(timers), old(armed), old(created), task)
      ensures timers == old(timers)[DebounceKey(task) := old(created)] && created == old(created) + 1
    {
      var key := DebounceKey(task);
      if key in timers { armed := armed - {timers[key]}; }
      armed := armed[created := task];
      timers := timers[key := created];
      created := created + 1;
    }

    // The first thing a timer does when it has fired, whatever timer the map
    // holds for the file by then.
    method Fired(task: Task)
      modifies this`timers
      ensures timers == Unmapped(old(timers), task)
    {
      timers := timers - {DebounceKey(task)};
    }

    method Stop(key: string)
      modifies this`timers, this`armed
      ensures timers == old(timers) - {key}
      ensures armed == if key in old(timers) then old(armed) - {old(timers)[key]} else old(armed)
    {
      if key in timers {
        armed := armed - {timers[key]};
        timers := timers - {key};
      }
    }

    method StopAll()
      modifies this`timers, this`armed
      ensures timers == map[]
      ensures armed == old(armed) - old(timers).Values
    {
      armed := armed - timers.Values;
      timers := map[];
    }
  }

  function Rearmed(timers: map<string, nat>, armed: map<nat, Task>, created: nat, task: Task): map<nat, Task> {
    var key := DebounceKey(task);
    (if key in timers then armed - {timers[key]} else armed)[created := task]
  }

  function Unmapped(timers: map<string, nat>, task: Task): map<string, nat> {
    timers - {DebounceKey(task)}
  }

  // ---- The pipeline ----

  datatype Worker = Idle | Has(task: Task) | Processing(task: Task)

  // fired: timers that have gone off but not yet cleared their map entry;
  // calling: callbacks about to enqueue. lastEvent and lastStart are the times
  // of each file's last event and of the start of its last processing.
  datatype State = State(timers: map<string, nat>, armed: map<nat, Task>, created: nat,
                         fired: multiset<Task>, calling: multiset<Task>, queue: seq<Task>,
                         workers: seq<Worker>, inFlight: set<Task>, pending: set<Task>,
                         clock: nat, lastEvent: map<Task, nat>, lastStart: map<Task, nat>)

  datatype Event =
    | Change(task: Task)
    | Fire(timer: nat)
    | Unmap(task: Task)
    | Enqueue(task: Task)
    | Receive(w: nat)
    | Claim(w: nat)
    | Finish(w: nat)

  predicate Enabled(s: State, e: Event) {
    match e
    case Change(_) => true
    case Fire(i) => i in s.armed
    case Unmap(k) => k in s.fired
    case Enqueue(k) => k in s.calling && |s.queue| < QUEUE_CAP
    case Receive(w) => w < |s.workers| && s.workers[w].Idle? && s.queue != []
    case Claim(w) => w < |s.workers| && s.workers[w].Has?
    case Finish(w) => w < |s.workers| && s.workers[w].Processing?
  }

  function Next(s: State, e: Event): State
    requires Enabled(s, e)
  {
    match e
    case Change(k) =>
      s.(clock := s.clock + 1, lastEvent := s.lastEvent[k := s.clock + 1],
         armed := Rearmed(s.timers, s.armed, s.created, k), timers := s.timers[DebounceKey(k) := s.created],
         created := s.created + 1)
    case Fire(i) => s.(armed := s.armed - {i}, fired := s.fired + multiset{s.armed[i]})
    case Unmap(k) => s.(timers := Unmapped(s.timers, k), fired := s.fired - multiset{k}, calling := s.calling + multiset{k})
    case Enqueue(k) => s.(calling := s.calling - multiset{k}, queue := s.queue + [k])
    case Receive(w) => s.(workers := s.workers[w := Has(s.queue[0])], queue := s.queue[1..])
    case Claim(w) =>
      var k := s.workers[w].task;
      var (inFlight, pending) := Claimed(s.inFlight, s.pending, k);
      if k in s.inFlight then s.(workers := s.workers[w := Idle], inFlight := inFlight, pending := pending)
      else s.(workers := s.workers[w := Processing(k)], inFlight := inFlight, pending := pending,
              clock := s.clock + 1, lastStart := s.lastStart[k := s.clock + 1])
    case Finish(w) =>
      var k := s.workers[w].task;
      var (inFlight, pending) := Finished(s.inFlight, s.pending, k);
      s.(workers := s.workers[w := if k in s.pending then Has(k) else Idle], inFlight := inFlight, pending := pending)
  }

  predicate Initial(s: State) {
    && s.timers == map[] && s.armed == map[] && s.fired == multiset{} && s.calling == multiset{}
    && s.queue == [] && s.workers == seq(QUEUE_WORKERS, _ => Idle) && s.inFlight == {} && s.pending == {}
    && s.lastEvent == map[] && s.lastStart == map[]
  }

  // ---- The invariant ----

  function Busy(k: Task): Worker -> nat {
    (w: Worker) => if w == Processing(k) then 1 else 0
  }

  // The file will be processed again without any further event.
  ghost predicate Owed(s: State, k: Task) {
    || (exists i :: i in s.armed && s.armed[i] == k)
    || k in s.fired || k in s.calling || k in s.queue
    || (exists w :: 0 <= w < |s.workers| && s.workers[w] == Has(k))
    || k in s.pending
  }

  predicate Stale(s: State, k: Task) {
    k in s.lastEvent && (k !in s.lastStart || s.lastStart[k] < s.lastEvent[k])
  }

  // Timers run for files that have changed, each mapped under its file's key.
  predicate Timed(s: State) {
    && (forall i <- s.armed :: i < s.created && s.armed[i] in s.lastEvent)
    && (forall key <- s.timers :: s.timers[key] < s.created &&
          (s.timers[key] in s.armed ==> DebounceKey(s.armed[s.timers[key]]) == key))
  }

  ghost predicate Inv(s: State) {
    && (forall k :: Sum(Busy(k), s.workers) == if k in s.inFlight then 1 else 0)
    && s.pending <= s.inFlight
    && (Apart(s.lastEvent.Keys) ==> forall k :: Stale(s, k) ==> Owed(s, k))
    && (forall k <- s.lastEvent :: s.lastEvent[k] <= s.clock)
    && Timed(s)
    && 0 < |s.workers|
  }

  lemma InitialInv(s: State)
    requires Initial(s)
    ensures Inv(s)
  {
    forall k ensures Sum(Busy(k), s.workers) == 0 {
      forall w | w in s.workers ensures Busy(k)(w) == 0 {}
      SumIsZero(Busy(k), s.workers);
    }
  }

  // ---- Every step keeps it ----

  // The claim that settles what was owed for k.
  predicate Starts(s: State, e: Event, k: Task)
    requires Enabled(s, e)
  {
    e.Claim? && s.workers[e.w].task == k && k !in s.inFlight
  }

  // With different keys for different files, stopping a timer happens only in
  // favour of a new one for the same file.
  lemma TimerStays(s: State, e: Event, i: nat)
    requires Inv(s) && Enabled(s, e) && i in s.armed && Apart(Next(s, e).lastEvent.Keys)
    ensures Owed(Next(s, e), s.armed[i])
  {
    var k, s' := s.armed[i], Next(s, e);
    if e.Change? && e.task == k {
      assert s'.armed[s.created] == k;
    } else if e.Change? {
      assert e.task in s'.lastEvent && k in s'.lastEvent;
      assert i in s'.armed && s'.armed[i] == k;
    } else if e != Fire(i) {
      assert i in s'.armed && s'.armed[i] == k;
    }
  }

  lemma CalledStays(s: State, e: Event, k: Task)
    requires Inv(s) && Enabled(s, e) && (k in s.fired || k in s.calling)
    ensures Owed(Next(s, e), k)
  {
    if e == Enqueue(k) { assert Next(s, e).queue[|s.queue|] == k; }
  }

  lemma QueuedStays(s: State, e: Event, k: Task)
    requires Inv(s) && Enabled(s, e) && k in s.queue
    ensures Owed(Next(s, e), k)
  {
    var s' := Next(s, e);
    if e.Receive? && s.queue[0] == k {
      assert s'.workers[e.w] == Has(k);
    } else {
      assert k in s'.queue;
    }
  }

  lemma WorkStays(s: State, e: Event, w: nat, k: Task)
    requires Inv(s) && Enabled(s, e) && w < |s.workers| && s.workers[w] == Has(k)
    ensures Owed(Next(s, e), k) || Starts(s, e, k)
  {
    if e != Claim(w) { assert Next(s, e).workers[w] == Has(k); }
  }

  lemma PendingStays(s: State, e: Event, k: Task)
    requires Inv(s) && Enabled(s, e) && k in s.pending
    ensures Owed(Next(s, e), k)
  {
    if e.Finish? && s.workers[e.w].task == k { assert Next(s, e).workers[e.w] == Has(k); }
  }

  lemma OwedStays(s: State, e: Event, k: Task)
    requires Inv(s) && Enabled(s, e) && Owed(s, k) && Apart(Next(s, e).lastEvent.Keys)
    ensures Owed(Next(s, e), k) || Starts(s, e, k)
  {
    if i :| i in s.armed && s.armed[i] == k {
      TimerStays(s, e, i);
    } else if k in s.fired || k in s.calling {
      CalledStays(s, e, k);
    } else if k in s.queue {
      QueuedStays(s, e, k);
    } else if k in s.pending {
      PendingStays(s, e, k);
    } else {
      var w :| 0 <= w < |s.workers| && s.workers[w] == Has(k);
      WorkStays(s, e, w, k);
    }
  }

  lemma ApartBefore(s: State, e: Event)
    requires Enabled(s, e) && Apart(Next(s, e).lastEvent.Keys)
    ensures Apart(s.lastEvent.Keys)
  {
    assert forall k <- s.lastEvent :: k in Next(s, e).lastEvent;
  }

  lemma StaleIsOwed(s: State, e: Event, k: Task)
    requires Inv(s) && Enabled(s, e) && Stale(Next(s, e), k) && Apart(Next(s, e).lastEvent.Keys)
    ensures Owed(Next(s, e), k)
  {
    ApartBefore(s, e);
    if e == Change(k) {
      assert Next(s, e).armed[s.created] == k;
    } else {
      assert Stale(s, k);
      OwedStays(s, e, k);
    }
  }

  lemma ClaimIsExclusive(s: State, w: nat, k: Task)
    requires Inv(s) && Enabled(s, Claim(w))
    ensures Sum(Busy(k), Next(s, Claim(w)).workers) == if k in Next(s, Claim(w)).inFlight then 1 else 0
  {
    var j := s.workers[w].task;
    if j in s.inFlight { SumUpdate(Busy(k), s.workers, w, Idle); } else { SumUpdate(Busy(k), s.workers, w, Processing(j)); }
  }

  lemma FinishFrees(s: State, w: nat, k: Task)
    requires Inv(s) && Enabled(s, Finish(w))
    ensures Sum(Busy(k), Next(s, Finish(w)).workers) == if k in Next(s, Finish(w)).inFlight then 1 else 0
  {
    SumUpdate(Busy(k), s.workers, w, Next(s, Finish(w)).workers[w]);
  }

  lemma OneWorkerEach(s: State, e: Event, k: Task)
    requires Inv(s) && Enabled(s, e)
    ensures Sum(Busy(k), Next(s, e).workers) == if k in Next(s, e).inFlight then 1 else 0
  {
    match e
    case Receive(w) => SumUpdate(Busy(k), s.workers, w, Has(s.queue[0]));
    case Claim(w) => ClaimIsExclusive(s, w, k);
    case Finish(w) => FinishFrees(s, w, k);
    case _ =>
  }

  lemma FlightKept(s: State, e: Event)
    requires Inv(s) && Enabled(s, e)
    ensures Next(s, e).pending <= Next(s, e).inFlight && |Next(s, e).workers| == |s.workers|
    ensures forall k <- Next(s, e).lastEvent :: Next(s, e).lastEvent[k] <= Next(s, e).clock
  {}

  lemma TimersKept(s: State, e: Event)
    requires Inv(s) && Enabled(s, e)
    ensures Timed(Next(s, e))
  {}

  lemma NextKeepsInv(s: State, e: Event)
    requires Inv(s) && Enabled(s, e)
    ensures Inv(Next(s, e))
  {
    var s' := Next(s, e);
    forall k ensures Sum(Busy(k), s'.workers) == if k in s'.inFlight then 1 else 0 { OneWorkerEach(s, e, k); }
    if Apart(s'.lastEvent.Keys) {
      forall k ensures Stale(s', k) ==> Owed(s', k) { if Stale(s', k) { StaleIsOwed(s, e, k); } }
    }
    FlightKept(s, e);
    TimersKept(s, e);
  }

  ghost predicate IsRun(states: seq<State>, events: seq<Event>) {
    |states| == |events| + 1 && Initial(states[0]) &&
    forall k | 0 <= k < |events| :: Enabled(states[k], events[k]) && states[k + 1] == Next(states[k], events[k])
  }

  lemma {:induction false} RunKeepsInv(states: seq<State>, events: seq<Event>, k: nat)
    requires IsRun(states, events) && k < |states|
    ensures Inv(states[k])
  {
    if k == 0 {
      InitialInv(states[0]);
    } else {
      RunKeepsInv(states, events, k - 1);
      NextKeepsInv(states[k - 1], events[k - 1]);
    }
  }

  // ---- What it gives ----

  lemma NeverTwiceAtOnce(s: State, v: nat, w: nat, k: Task)
    requires Inv(s) && v < w < |s.workers| && s.workers[v] == Processing(k)
    ensures s.workers[w] != Processing(k) && k in s.inFlight
  {
    SumWithout(Busy(k), s.workers, v);
    var rest := s.workers[..v] + s.workers[v + 1..];
    assert rest[w - 1] == s.workers[w];
    SumWithout(Busy(k), rest, w - 1);
  }

  predicate Quiet(s: State) {
    s.armed == map[] && s.fired == multiset{} && s.calling == multiset{} && s.queue == [] &&
    forall w <- s.workers :: w.Idle?
  }

  // When nothing is left to do, nothing is parked and, as long as no two of the
  // files share a timer, every file that has changed was last processed after
  // its last change.
  lemma NoChangeIsLost(s: State, k: Task)
    requires Inv(s) && Quiet(s)
    ensures s.pending == {} && s.inFlight == {}
    ensures Apart(s.lastEvent.Keys) && k in s.lastEvent ==> k in s.lastStart && s.lastEvent[k] <= s.lastStart[k]
  {
    forall j ensures j !in s.inFlight {
      forall w | w in s.workers ensures Busy(j)(w) == 0 {}
      SumIsZero(Busy(j), s.workers);
    }
    forall w | 0 <= w < |s.workers| ensures s.workers[w].Idle? { assert s.workers[w] in s.workers; }
    assert !Owed(s, k);
  }

  // ---- And it does become quiet ----

  function Weight(w: Worker): nat {
    match w
    case Idle => 0
    case Has(_) => 3
    case Processing(_) => 2
  }

  function Load(s: State): nat {
    7 * |s.armed| + 6 * |s.fired| + 5 * |s.calling| + 4 * |s.queue| + Sum(Weight, s.workers) + 2 * |s.pending|
  }

  lemma FireLightens(s: State, i: nat)
    requires Enabled(s, Fire(i))
    ensures Load(Next(s, Fire(i))) < Load(s)
  {
    assert s.armed == (s.armed - {i})[i := s.armed[i]];
  }

  lemma ClaimLightens(s: State, w: nat)
    requires Inv(s) && Enabled(s, Claim(w))
    ensures Load(Next(s, Claim(w))) < Load(s)
  {
    var k := s.workers[w].task;
    if k in s.inFlight {
      SumUpdate(Weight, s.workers, w, Idle);
      assert |s.pending + {k}| <= |s.pending| + 1;
    } else {
      SumUpdate(Weight, s.workers, w, Processing(k));
    }
  }

  lemma FinishLightens(s: State, w: nat)
    requires Inv(s) && Enabled(s, Finish(w))
    ensures Load(Next(s, Finish(w))) < Load(s)
  {
    SumUpdate(Weight, s.workers, w, Next(s, Finish(w)).workers[w]);
  }

  lemma ReceiveLightens(s: State, w: nat)
    requires Inv(s) && Enabled(s, Receive(w))
    ensures Load(Next(s, Receive(w))) < Load(s)
  {
    SumUpdate(Weight, s.workers, w, Has(s.queue[0]));
  }

  lemma EveryStepLightens(s: State, e: Event)
    requires Inv(s) && Enabled(s, e) && !e.Change?
    ensures Load(Next(s, e)) < Load(s)
  {
    match e
    case Fire(i) => FireLightens(s, i);
    case Receive(w) => ReceiveLightens(s, w);
    case Claim(w) => ClaimLightens(s, w);
    case Finish(w) => FinishLightens(s, w);
    case _ =>
  }

  lemma SomethingIsEnabled(s: State)
    requires Inv(s) && !Quiet(s)
    ensures exists e: Event :: !e.Change? && Enabled(s, e)
  {
    if s.armed != map[] {
      var i :| i in s.armed;
      assert Enabled(s, Fire(i));
    } else if s.fired != multiset{} {
      var k :| k in s.fired;
      assert Enabled(s, Unmap(k));
    } else if w :| 0 <= w < |s.workers| && !s.workers[w].Idle? {
      assert Enabled(s, if s.workers[w].Has? then Claim(w) else Finish(w));
    } else if s.queue != [] {
      assert s.workers[0].Idle? && Enabled(s, Receive(0));
    } else if s.calling != multiset{} {
      var k :| k in s.calling;
      assert Enabled(s, Enqueue(k));
    }
  }

  ghost predicate IsSettling(states: seq<State>, events: seq<Event>) {
    |states| == |events| + 1 && Inv(states[0]) &&
    forall k | 0 <= k < |events| ::
      !events[k].Change? && Enabled(states[k], events[k]) && states[k + 1] == Next(states[k], events[k])
  }

  lemma {:induction false} SettlingRun(states: seq<State>, events: seq<Event>, k: nat)
    requires IsSettling(states, events) && k < |states|
    ensures Inv(states[k]) && Load(states[k]) + k <= Load(states[0])
  {
    if k == 0 {
    } else {
      SettlingRun(states, events, k - 1);
      NextKeepsInv(states[k - 1], events[k - 1]);
      EveryStepLightens(states[k - 1], events[k - 1]);
    }
  }

  // Once changes stop, in any interleaving, at most Load steps remain; and when
  // none is left every changed file has been processed since its last change,
  // unless two of them share a timer.
  lemma DaemonSettles(states: seq<State>, events: seq<Event>, k: Task)
    requires IsSettling(states, events)
    ensures |events| <= Load(states[0])
    ensures (forall e: Event :: Enabled(states[|events|], e) ==> e.Change?) ==>
              Quiet(states[|events|]) &&
              (Apart(states[|events|].lastEvent.Keys) && k in states[|events|].lastEvent ==>
                 k in states[|events|].lastStart && states[|events|].lastEvent[k] <= states[|events|].lastStart[k])
  {
    var last := states[|events|];
    SettlingRun(states, events, |events|);
    if forall e: Event :: Enabled(last, e) ==> e.Change? {
      if !Quiet(last) { SomethingIsEnabled(last); }
      NoChangeIsLost(last, k);
    }
  }

  // ---- What does not hold: one live timer per file ----

  function LiveTimers(s: State, k: Task): set<nat> {
    set i | i in s.armed && s.armed[i] == k
  }

  // A further event leaves one live timer for its file exactly when no live
  // timer had been taken out of the map by an older one that fired.
  lemma OneTimerIfNoneUnmapped(s: State, k: Task)
    requires Inv(s)
    ensures LiveTimers(Next(s, Change(k)), k) == {s.created} <==>
              forall i <- LiveTimers(s, k) :: DebounceKey(k) in s.timers && s.timers[DebounceKey(k)] == i
  {
    var key := DebounceKey(k);
    var s', mapped: set<nat> := Next(s, Change(k)), if key in s.timers then {s.timers[key]} else {};
    assert LiveTimers(s', k) == LiveTimers(s, k) - mapped + {s.created};
    forall i | i in LiveTimers(s, k) && i !in mapped ensures i in LiveTimers(s', k) && i != s.created {
    }
  }

  // Change, the timer goes off, change, the old timer clears the new one's map
  // entry, change: two timers are running for the file.
  lemma TwoTimersCanLive(s: State, k: Task)
    requires Initial(s)
    ensures var s1 := Next(s, Change(k));
            var s2 := Next(s1, Fire(s.created));
            var s3 := Next(s2, Change(k));
            var s4 := Next(s3, Unmap(k));
            var s5 := Next(s4, Change(k));
            LiveTimers(s5, k) == {s.created + 1, s.created + 2}
  {
    var s3 := Next(Next(Next(s, Change(k)), Fire(s.created)), Change(k));
    assert s3.armed == map[s.created + 1 := k];
  }

  // ---- What a shared key does ----

  // The second file's event stops the first one's timer.
  lemma ClashStopsTimer(s: State, a: Task, b: Task)
    requires Initial(s) && a != b && DebounceKey(a) == DebounceKey(b)
    ensures var t := Next(Next(s, Change(a)), Change(b));
            t.armed == map[s.created + 1 := b] && Stale(t, a) && t.lastStart == map[]
  {
    assert Next(s, Change(a)).armed == map[s.created := a];
    assert Next(s, Change(a)).timers == map[DebounceKey(a) := s.created];
  }

  // The only timer left runs to its end: all is quiet, and the first file's
  // change has never been processed.
  lemma LastTimerEnqueues(t: State, i: nat, b: Task)
    requires t.armed == map[i := b] && t.fired == multiset{} && t.calling == multiset{} && t.queue == []
    ensures var u := Next(Next(Next(t, Fire(i)), Unmap(b)), Enqueue(b));
            u == t.(armed := map[], timers := Unmapped(t.timers, b), queue := [b])
  {
  }

  lemma LastTaskRuns(u: State, b: Task)
    requires u.queue == [b] && u.inFlight == {} && u.pending == {} && u.workers == seq(QUEUE_WORKERS, _ => Idle)
    ensures var v := Next(Next(u, Receive(0)), Claim(0));
            v.workers[0] == Processing(b) &&
            Next(v, Finish(0)) == u.(queue := [], clock := u.clock + 1, lastStart := u.lastStart[b := u.clock + 1])
  {
    var v := Next(Next(u, Receive(0)), Claim(0));
    assert Next(v, Finish(0)).workers == u.workers;
  }

  lemma ClashLosesChange(s: State, a: Task, b: Task)
    requires Initial(s) && a != b && DebounceKey(a) == DebounceKey(b)
    ensures var t := Next(Next(s, Change(a)), Change(b));
            var u := Next(Next(Next(t, Fire(s.created + 1)), Unmap(b)), Enqueue(b));
            var v := Next(Next(Next(u, Receive(0)), Claim(0)), Finish(0));
            Quiet(v) && Stale(v, a)
  {
    ClashStopsTimer(s, a, b);
    var t := Next(Next(s, Change(a)), Change(b));
    LastTimerEnqueues(t, s.created + 1, b);
    LastTaskRuns(Next(Next(Next(t, Fire(s.created + 1)), Unmap(b)), Enqueue(b)), b);
  }
}
