// runTransfers: workers sharing one connection run jobs, and a worker whose
// job failed on a dead connection replaces it and retries once.
module Reconnect {
  import opened Options
  import opened Sums

  // Jobs are numbered in the order they are sent to the workers.
  type Job = nat

  // A failure observed at a generation was not the connection's fault.
  predicate IsHealthy(gen: nat, observed: nat, alive: bool) {
    gen == observed && alive
  }

  // What reconnect comes to: the generation afterwards, whether the caller may
  // retry, and whether the connection was closed and redialed.
  function Reconnected(gen: nat, observed: nat, connects: bool): (nat, bool, bool) {
    if gen != observed then (gen, true, false)
    else if !connects then (gen, false, true)
    else (gen + 1, true, true)
  }

  // reconnectCoordinator, its methods under the lock they take.
  class Coordinator {
    var gen: nat

    constructor ()
      ensures gen == 0
    {
      gen := 0;
    }

    method Healthy(observedGen: nat, alive: bool) returns (healthy: bool)
      ensures healthy == IsHealthy(gen, observedGen, alive)
      ensures healthy <==> gen == observedGen && alive
    {
      healthy := gen == observedGen && alive;
    }

    // touched: the connection was closed and redialed.
    method Replace(observedGen: nat, connects: bool) returns (ok: bool, touched: bool)
      modifies this
      ensures (gen, ok, touched) == Reconnected(old(gen), observedGen, connects)
      ensures touched <==> old(gen) == observedGen
      ensures ok <==> !touched || connects
      ensures gen == if touched && connects then old(gen) + 1 else old(gen)
    {
      if gen != observedGen { return true, false; }
      if !connects { return false, true; }
      gen := gen + 1;
      return true, true;
    }
  }

  // retry: the generation a first attempt failed at, for a second attempt.
  datatype Worker =
    | Waiting
    | Starting(job: Job, retry: Option<nat>)    // wants the read lock
    | Running(job: Job, retry: Option<nat>)     // an attempt, read lock held
    | Checking(job: Job, gen: nat)              // wants the read lock
    | Probing(job: Job, gen: nat)               // IsAlive, read lock held
    | Locking(job: Job, gen: nat)               // waits for the write lock
    | Replacing(job: Job, gen: nat)             // write lock held
    | Reporting(job: Job, failed: bool)
    | Finished

  datatype Touch = Touch(observed: nat, ok: bool)

  // attempts[j]: how each finished attempt at job j went; reported[j]: the
  // verdict passed to onResult; touches: every Close/Connect.
  datatype State = State(gen: nat, workers: seq<Worker>, left: seq<Job>, reported: map<Job, bool>,
                         attempts: seq<seq<bool>>, touches: seq<Touch>)

  datatype Event =
    | Receive(w: nat)
    | Quit(w: nat)
    | Begin(w: nat)
    | End(w: nat, ok: bool)
    | Probe(w: nat)
    | ProbeEnd(w: nat, alive: bool)
    | Lock(w: nat)
    | Replace(w: nat, connects: bool)
    | Report(w: nat)

  predicate Reads(w: Worker) { w.Running? || w.Probing? }

  // Readers may come in as long as no writer holds the lock, even when one is
  // about to ask for it.
  predicate MayRead(s: State) {
    forall w <- s.workers :: !w.Replacing?
  }

  predicate MayWrite(s: State) {
    forall w <- s.workers :: !Reads(w) && !w.Replacing?
  }

  predicate Enabled(s: State, e: Event) {
    e.w < |s.workers| &&
    var w := s.workers[e.w];
    match e
    case Receive(_) => w.Waiting? && s.left != []
    case Quit(_) => w.Waiting? && s.left == []
    case Begin(_) => w.Starting? && MayRead(s)
    case End(_, _) => w.Running? && w.job < |s.attempts|
    case Probe(_) => w.Checking? && MayRead(s)
    case ProbeEnd(_, _) => w.Probing?
    case Lock(_) => w.Locking? && MayWrite(s)
    case Replace(_, _) => w.Replacing?
    case Report(_) => w.Reporting?
  }

  // Where the acting worker goes.
  function Moves(s: State, e: Event): Worker
    requires Enabled(s, e)
  {
    var w := s.workers[e.w];
    match e
    case Receive(_) => Starting(s.left[0], None)
    case Quit(_) => Finished
    case Begin(_) => Running(w.job, w.retry)
    case End(_, ok) => if ok || w.retry.Some? then Reporting(w.job, !ok) else Checking(w.job, s.gen)
    case Probe(_) => Probing(w.job, w.gen)
    case ProbeEnd(_, alive) => if IsHealthy(s.gen, w.gen, alive) then Reporting(w.job, true) else Locking(w.job, w.gen)
    case Lock(_) => Replacing(w.job, w.gen)
    case Replace(_, connects) =>
      if Reconnected(s.gen, w.gen, connects).1 then Starting(w.job, Some(w.gen)) else Reporting(w.job, true)
    case Report(_) => Waiting
  }

  function Next(s: State, e: Event): State
    requires Enabled(s, e)
  {
    var w := s.workers[e.w];
    var moved := s.(workers := s.workers[e.w := Moves(s, e)]);
    match e
    case Receive(_) => moved.(left := s.left[1..])
    case End(_, ok) => moved.(attempts := s.attempts[w.job := s.attempts[w.job] + [ok]])
    case Replace(_, connects) =>
      var (gen, ok, touched) := Reconnected(s.gen, w.gen, connects);
      moved.(gen := gen, touches := if touched then s.touches + [Touch(w.gen, ok)] else s.touches)
    case Report(_) => moved.(reported := s.reported[w.job := w.failed])
    case _ => moved
  }

  predicate Initial(s: State, jobs: nat) {
    && s.gen == 0 && s.workers != [] && (forall w <- s.workers :: w.Waiting?)
    && s.left == seq(jobs, i => i) && s.reported == map[] && s.touches == []
    && s.attempts == seq(jobs, _ => [])
  }

  // ---- The locks ----

  // A writer is alone: nothing reads and nobody else writes.
  ghost predicate Locked(s: State) {
    forall i, j | 0 <= i < |s.workers| && 0 <= j < |s.workers| && i != j && s.workers[i].Replacing? ::
      !Reads(s.workers[j]) && !s.workers[j].Replacing?
  }

  // Failures are observed at past or present generations, retries at past ones.
  predicate Dated(s: State, w: Worker) {
    match w
    case Starting(_, retry) => retry.Some? ==> retry.value < s.gen
    case Running(_, retry) => retry.Some? ==> retry.value < s.gen
    case Checking(_, g) => g <= s.gen
    case Probing(_, g) => g <= s.gen
    case Locking(_, g) => g <= s.gen
    case Replacing(_, g) => g <= s.gen
    case _ => true
  }

  ghost predicate OneReplacementEach(s: State) {
    && (forall k | 0 <= k < |s.touches| :: s.touches[k].observed <= s.gen && (s.touches[k].ok ==> s.touches[k].observed < s.gen))
    && (forall k, l | 0 <= k < l < |s.touches| ::
          s.touches[k].observed <= s.touches[l].observed &&
          (s.touches[k].ok ==> s.touches[k].observed < s.touches[l].observed))
  }

  ghost predicate Safe(s: State) {
    Locked(s) && (forall w <- s.workers :: Dated(s, w)) && OneReplacementEach(s)
  }

  lemma LockedStays(s: State, e: Event)
    requires Safe(s) && Enabled(s, e)
    ensures Locked(Next(s, e))
  {
    var s' := Next(s, e);
    forall i, j | 0 <= i < |s'.workers| && 0 <= j < |s'.workers| && i != j && s'.workers[i].Replacing?
      ensures !Reads(s'.workers[j]) && !s'.workers[j].Replacing?
    {
      assert s.workers[i] in s.workers && s.workers[j] in s.workers;
    }
  }

  lemma DatesStay(s: State, e: Event, i: nat)
    requires Safe(s) && Enabled(s, e) && i < |s.workers|
    ensures Dated(Next(s, e), Next(s, e).workers[i])
  {
    assert s.workers[i] in s.workers && s.workers[e.w] in s.workers;
    assert Dated(s, s.workers[i]) && Dated(s, s.workers[e.w]);
  }

  lemma TouchesStay(s: State, e: Event)
    requires Safe(s) && Enabled(s, e)
    ensures OneReplacementEach(Next(s, e))
  {
    assert Dated(s, s.workers[e.w]);
  }

  lemma NextIsSafe(s: State, e: Event)
    requires Safe(s) && Enabled(s, e)
    ensures Safe(Next(s, e))
  {
    LockedStays(s, e);
    TouchesStay(s, e);
    forall w | w in Next(s, e).workers ensures Dated(Next(s, e), w) {
      var i :| 0 <= i < |s.workers| && Next(s, e).workers[i] == w;
      DatesStay(s, e, i);
    }
  }

  // The connection is closed and redialed only with no attempt and no probe
  // in progress, and only by a worker that failed on the generation in place.
  lemma ReplacementIsExclusive(s: State, e: Event)
    requires Safe(s) && Enabled(s, e) && Next(s, e).touches != s.touches
    ensures e.Replace? && s.workers[e.w].gen == s.gen
    ensures forall j | 0 <= j < |s.workers| :: !Reads(s.workers[j])
  {
    assert s.workers[e.w].Replacing?;
  }

  // A second attempt starts only on a generation newer than the one that failed.
  lemma RetryIsOnANewerGeneration(s: State, e: Event)
    requires Safe(s) && Enabled(s, e) && e.Begin? && s.workers[e.w].retry.Some?
    ensures s.workers[e.w].retry.value < s.gen
  {
    assert Dated(s, s.workers[e.w]);
  }

  // ---- The jobs ----

  function On(j: Job): Worker -> nat {
    (w: Worker) => if !w.Waiting? && !w.Finished? && w.job == j then 1 else 0
  }

  // What a worker at this point knows of its job's attempts.
  predicate Fits(w: Worker, tried: seq<bool>) {
    match w
    case Starting(_, retry) => tried == if retry.Some? then [false] else []
    case Running(_, retry) => tried == if retry.Some? then [false] else []
    case Reporting(_, failed) => Verdict(tried, failed)
    case Waiting => true
    case Finished => true
    case _ => tried == [false]
  }

  // One attempt, or a second after a first that failed; the last one decides.
  predicate Verdict(tried: seq<bool>, failed: bool) {
    (|tried| == 1 || (|tried| == 2 && !tried[0])) && tried[|tried| - 1] == !failed
  }

  // Each job is with the sender, with one worker, or reported.
  ghost predicate Conserved(s: State, jobs: nat) {
    && |s.attempts| == jobs
    && (forall j: Job :: multiset(s.left)[j] + Sum(On(j), s.workers) + (if j in s.reported then 1 else 0) ==
                    if j < jobs then 1 else 0)
    && (forall j <- s.left :: j < jobs && s.attempts[j] == [])
    && (forall w <- s.workers :: w.Waiting? || w.Finished? || (w.job < jobs && Fits(w, s.attempts[w.job])))
    && (forall j <- s.reported :: j < jobs && Verdict(s.attempts[j], s.reported[j]))
    && (s.left != [] ==> forall w <- s.workers :: !w.Finished?)
  }

  lemma StartsConserved(s: State, jobs: nat)
    requires Initial(s, jobs)
    ensures Safe(s) && Conserved(s, jobs)
  {
    forall j: Job ensures Sum(On(j), s.workers) == 0 { SumIsZero(On(j), s.workers); }
    forall j: Job ensures multiset(s.left)[j] == if j < jobs then 1 else 0 { CountTo(jobs, j); }
    forall i | 0 <= i < |s.workers| ensures s.workers[i].Waiting? { assert s.workers[i] in s.workers; }
  }

  lemma {:induction false} CountTo(n: nat, j: nat)
    ensures multiset(seq(n, i => i))[j] == if j < n then 1 else 0
  {
    if n == 0 {
    } else {
      CountTo(n - 1, j);
      assert seq(n, i => i) == seq(n - 1, i => i) + [n - 1];
    }
  }

  lemma OnMoves(s: State, e: Event, j: Job)
    requires Enabled(s, e)
    ensures Sum(On(j), Next(s, e).workers) == Sum(On(j), s.workers) - On(j)(s.workers[e.w]) + On(j)(Moves(s, e))
  {
    SumUpdate(On(j), s.workers, e.w, Moves(s, e));
  }

  // A worker's job is nowhere else.
  lemma JobIsExclusive(s: State, jobs: nat, w: nat, i: nat)
    requires Conserved(s, jobs) && w < |s.workers| && i < |s.workers| && i != w
    requires !s.workers[w].Waiting? && !s.workers[w].Finished?
    ensures s.workers[w].job !in s.left && s.workers[w].job !in s.reported
    ensures s.workers[i].Waiting? || s.workers[i].Finished? || s.workers[i].job != s.workers[w].job
  {
    var j := s.workers[w].job;
    SumWithout(On(j), s.workers, w);
    var rest := s.workers[..w] + s.workers[w + 1..];
    var k := if i < w then i else i - 1;
    assert rest[k] == s.workers[i];
    SumWithout(On(j), rest, k);
    assert j in s.left ==> multiset(s.left)[j] > 0;
  }

  lemma JobIsOut(s: State, jobs: nat, w: nat)
    requires Conserved(s, jobs) && w < |s.workers|
    requires !s.workers[w].Waiting? && !s.workers[w].Finished?
    ensures s.workers[w].job < jobs && s.workers[w].job !in s.left && s.workers[w].job !in s.reported
    ensures Fits(s.workers[w], s.attempts[s.workers[w].job])
  {
    assert s.workers[w] in s.workers;
    SumWithout(On(s.workers[w].job), s.workers, w);
    assert s.workers[w].job in s.left ==> multiset(s.left)[s.workers[w].job] > 0;
  }

  lemma FirstTaken(left: seq<Job>, j: Job)
    requires left != []
    ensures multiset(left)[j] == multiset(left[1..])[j] + if left[0] == j then 1 else 0
  {
    assert left == [left[0]] + left[1..];
  }

  lemma CountsStay(s: State, jobs: nat, e: Event, j: Job)
    requires Conserved(s, jobs) && Enabled(s, e)
    ensures multiset(Next(s, e).left)[j] + Sum(On(j), Next(s, e).workers) + (if j in Next(s, e).reported then 1 else 0) ==
            multiset(s.left)[j] + Sum(On(j), s.workers) + (if j in s.reported then 1 else 0)
  {
    OnMoves(s, e, j);
    if e.Receive? {
      FirstTaken(s.left, j);
    } else if e.Report? {
      JobIsOut(s, jobs, e.w);
    }
  }

  // What the acting worker knows afterwards is right.
  lemma ActorFits(s: State, jobs: nat, e: Event)
    requires Conserved(s, jobs) && Enabled(s, e)
    ensures var w := Moves(s, e);
            w.Waiting? || w.Finished? || (w.job < jobs && Fits(w, Next(s, e).attempts[w.job]))
  {
    if e.Receive? {
      assert s.left[0] in s.left;
    } else if !e.Quit? {
      JobIsOut(s, jobs, e.w);
    }
  }

  lemma OthersFit(s: State, jobs: nat, e: Event, i: nat)
    requires Conserved(s, jobs) && Enabled(s, e) && i < |s.workers| && i != e.w
    ensures var w := s.workers[i];
            w.Waiting? || w.Finished? || (w.job < jobs && Fits(w, Next(s, e).attempts[w.job]))
  {
    assert s.workers[i] in s.workers;
    if e.End? { JobIsExclusive(s, jobs, e.w, i); }
  }

  lemma LeftAndReportedFit(s: State, jobs: nat, e: Event)
    requires Conserved(s, jobs) && Enabled(s, e)
    ensures forall j <- Next(s, e).left :: j < jobs && Next(s, e).attempts[j] == []
    ensures forall j <- Next(s, e).reported :: j < jobs && Verdict(Next(s, e).attempts[j], Next(s, e).reported[j])
    ensures Next(s, e).left != [] ==> forall w <- Next(s, e).workers :: !w.Finished?
  {
    if !e.Receive? && !e.Quit? { JobIsOut(s, jobs, e.w); }
    forall j | j in Next(s, e).left ensures j < jobs && Next(s, e).attempts[j] == [] {
      assert j in s.left;
    }
    forall w | w in Next(s, e).workers ensures w in s.workers || w == Moves(s, e) {
      var i :| 0 <= i < |s.workers| && Next(s, e).workers[i] == w;
    }
  }

  lemma NextIsConserved(s: State, jobs: nat, e: Event)
    requires Conserved(s, jobs) && Enabled(s, e)
    ensures Conserved(Next(s, e), jobs)
  {
    var s' := Next(s, e);
    forall j: Job ensures multiset(s'.left)[j] + Sum(On(j), s'.workers) + (if j in s'.reported then 1 else 0) ==
                          if j < jobs then 1 else 0 {
      CountsStay(s, jobs, e, j);
    }
    forall w | w in s'.workers ensures w.Waiting? || w.Finished? || (w.job < jobs && Fits(w, s'.attempts[w.job])) {
      var i :| 0 <= i < |s.workers| && s'.workers[i] == w;
      if i == e.w { ActorFits(s, jobs, e); } else { OthersFit(s, jobs, e, i); }
    }
    LeftAndReportedFit(s, jobs, e);
  }

  // ---- It ends, with every job reported ----

  function Weight(w: Worker): nat {
    match w
    case Waiting => 1
    case Starting(_, retry) => if retry.None? then 11 else 5
    case Running(_, retry) => if retry.None? then 10 else 4
    case Checking(_, _) => 9
    case Probing(_, _) => 8
    case Locking(_, _) => 7
    case Replacing(_, _) => 6
    case Reporting(_, _) => 3
    case Finished => 0
  }

  function Load(s: State): nat {
    12 * |s.left| + Sum(Weight, s.workers)
  }

  lemma EveryStepLightens(s: State, e: Event)
    requires Enabled(s, e)
    ensures Load(Next(s, e)) < Load(s)
  {
    SumUpdate(Weight, s.workers, e.w, Moves(s, e));
  }

  predicate ActsAlone(w: Worker) {
    w.Waiting? || w.Running? || w.Probing? || w.Replacing? || w.Reporting?
  }

  // No deadlock: as long as a worker has not finished, some step can be taken.
  lemma SomeStepIsEnabled(s: State, jobs: nat)
    requires Conserved(s, jobs) && exists w <- s.workers :: !w.Finished?
    ensures exists e :: Enabled(s, e)
  {
    if i :| 0 <= i < |s.workers| && ActsAlone(s.workers[i]) {
      assert s.workers[i] in s.workers;
      var w := s.workers[i];
      assert Enabled(s, if w.Waiting? then (if s.left == [] then Quit(i) else Receive(i))
                        else if w.Running? then End(i, true)
                        else if w.Probing? then ProbeEnd(i, true)
                        else if w.Replacing? then Event.Replace(i, true)
                        else Report(i));
    } else {
      forall w | w in s.workers ensures !ActsAlone(w) {
        var i :| 0 <= i < |s.workers| && s.workers[i] == w;
      }
      if i :| 0 <= i < |s.workers| && s.workers[i].Locking? {
        assert MayWrite(s) && Enabled(s, Lock(i));
      } else {
        forall w | w in s.workers ensures !w.Locking? {
          var i :| 0 <= i < |s.workers| && s.workers[i] == w;
        }
        var w :| w in s.workers && !w.Finished?;
        var i :| 0 <= i < |s.workers| && s.workers[i] == w;
        assert MayRead(s) && Enabled(s, if w.Starting? then Begin(i) else Probe(i));
      }
    }
  }

  ghost predicate IsRun(states: seq<State>, events: seq<Event>, jobs: nat) {
    |states| == |events| + 1 && Initial(states[0], jobs) &&
    forall k | 0 <= k < |events| :: Enabled(states[k], events[k]) && states[k + 1] == Next(states[k], events[k])
  }

  lemma StepInvariant(s: State, e: Event, jobs: nat)
    requires Safe(s) && Conserved(s, jobs) && Enabled(s, e)
    ensures Safe(Next(s, e)) && Conserved(Next(s, e), jobs)
    ensures Load(Next(s, e)) < Load(s) && |Next(s, e).workers| == |s.workers|
  {
    NextIsSafe(s, e);
    NextIsConserved(s, jobs, e);
    EveryStepLightens(s, e);
  }

  lemma {:induction false} RunInvariant(states: seq<State>, events: seq<Event>, jobs: nat, k: nat)
    requires IsRun(states, events, jobs) && k < |states|
    ensures Safe(states[k]) && Conserved(states[k], jobs)
    ensures Load(states[k]) + k <= Load(states[0]) && |states[k].workers| == |states[0].workers|
  {
    if k == 0 {
      StartsConserved(states[0], jobs);
    } else {
      RunInvariant(states, events, jobs, k - 1);
      StepInvariant(states[k - 1], events[k - 1], jobs);
    }
  }

  lemma DoneIsReported(s: State, jobs: nat, j: Job)
    requires Conserved(s, jobs) && s.workers != [] && (forall w <- s.workers :: w.Finished?) && j < jobs
    ensures j in s.reported && Verdict(s.attempts[j], s.reported[j])
  {
    SumIsZero(On(j), s.workers);
    assert s.workers[0] in s.workers;
    assert s.left == [];
  }

  // This step hands job j's outcome to onResult.
  predicate ReportsJob(s: State, e: Event, j: Job) {
    e.Report? && e.w < |s.workers| && s.workers[e.w].Reporting? && s.workers[e.w].job == j
  }

  // How often that happens in the first k steps of a run.
  function TimesReported(states: seq<State>, events: seq<Event>, k: nat, j: Job): nat
    requires k <= |events| < |states|
  {
    if k == 0 then 0
    else TimesReported(states, events, k - 1, j) + if ReportsJob(states[k - 1], events[k - 1], j) then 1 else 0
  }

  lemma ReportIsFirst(s: State, e: Event, jobs: nat, j: Job)
    requires Conserved(s, jobs) && Enabled(s, e)
    ensures j in Next(s, e).reported <==> j in s.reported || ReportsJob(s, e, j)
    ensures !(j in s.reported && ReportsJob(s, e, j))
  {
    if e.Report? { JobIsOut(s, jobs, e.w); }
  }

  lemma {:induction false} ReportedOnce(states: seq<State>, events: seq<Event>, jobs: nat, k: nat, j: Job)
    requires IsRun(states, events, jobs) && k < |states|
    ensures TimesReported(states, events, k, j) == if j in states[k].reported then 1 else 0
  {
    if k == 0 {
    } else {
      ReportedOnce(states, events, jobs, k - 1, j);
      RunInvariant(states, events, jobs, k - 1);
      ReportIsFirst(states[k - 1], events[k - 1], jobs, j);
    }
  }

  // In every interleaving runTransfers comes to an end, and by then each job
  // has been run once, or twice if its first attempt failed, and been reported
  // exactly once with the outcome of its last attempt.
  lemma TransfersComplete(states: seq<State>, events: seq<Event>, jobs: nat, j: Job)
    requires IsRun(states, events, jobs) && j < jobs
    ensures |events| <= Load(states[0])
    ensures TimesReported(states, events, |events|, j) <= 1
    ensures (forall e :: !Enabled(states[|events|], e)) ==>
              TimesReported(states, events, |events|, j) == 1 &&
              j in states[|events|].reported && j < |states[|events|].attempts| &&
              Verdict(states[|events|].attempts[j], states[|events|].reported[j])
  {
    var last := states[|events|];
    RunInvariant(states, events, jobs, |events|);
    ReportedOnce(states, events, jobs, |events|, j);
    if forall e :: !Enabled(last, e) {
      if w :| w in last.workers && !w.Finished? { SomeStepIsEnabled(last, jobs); }
      DoneIsReported(last, jobs, j);
    }
  }

  // ---- Which failures are retried ----

  // The acting worker works on job j.
  predicate ActsOn(s: State, e: Event, j: Job) {
    e.w < |s.workers| && var w := s.workers[e.w]; !w.Waiting? && !w.Finished? && w.job == j
  }

  // The generation at which job j's first attempt failed, if it has.
  function FailedAt(states: seq<State>, events: seq<Event>, k: nat, j: Job): Option<nat>
    requires k <= |events| < |states|
  {
    if k == 0 then None
    else
      var before := FailedAt(states, events, k - 1, j);
      if before.None? && events[k - 1] == End(events[k - 1].w, false) && ActsOn(states[k - 1], events[k - 1], j)
      then Some(states[k - 1].gen) else before
  }

  // Job j's failure is found to be no fault of the connection: the probe made
  // for it answers, and nobody has reconnected since.
  predicate FoundHealthy(s: State, e: Event, j: Job, failedAt: Option<nat>) {
    ActsOn(s, e, j) && s.workers[e.w].Probing? && e.ProbeEnd? && e.alive && failedAt == Some(s.gen)
  }

  // The reconnect made for it fails.
  predicate ConnectFailed(s: State, e: Event, j: Job, failedAt: Option<nat>) {
    ActsOn(s, e, j) && s.workers[e.w].Replacing? && e.Replace? && !e.connects && failedAt == Some(s.gen)
  }

  predicate Excused(states: seq<State>, events: seq<Event>, k: nat, j: Job)
    requires k <= |events| < |states|
  {
    k > 0 && (Excused(states, events, k - 1, j) ||
              FoundHealthy(states[k - 1], events[k - 1], j, FailedAt(states, events, k - 1, j)) ||
              ConnectFailed(states[k - 1], events[k - 1], j, FailedAt(states, events, k - 1, j)))
  }

  // What a worker on job j knows of that.
  predicate Knows(w: Worker, tried: seq<bool>, failedAt: Option<nat>, excused: bool) {
    match w
    case Starting(_, retry) => !excused && failedAt == retry
    case Running(_, retry) => !excused && failedAt == retry
    case Checking(_, g) => !excused && failedAt == Some(g)
    case Probing(_, g) => !excused && failedAt == Some(g)
    case Locking(_, g) => !excused && failedAt == Some(g)
    case Replacing(_, g) => !excused && failedAt == Some(g)
    case Reporting(_, _) => Settled(tried, failedAt, excused)
    case _ => true
  }

  // A single failed attempt is the last one exactly if it is excused.
  predicate Settled(tried: seq<bool>, failedAt: Option<nat>, excused: bool) {
    (excused <==> tried == [false]) && (failedAt.Some? <==> tried != [] && !tried[0])
  }

  ghost predicate Explained(s: State, j: Job, failedAt: Option<nat>, excused: bool) {
    && j < |s.attempts|
    && (j in s.left ==> failedAt == None && !excused)
    && (forall i | 0 <= i < |s.workers| :: ActsOn(s, Receive(i), j) ==> Knows(s.workers[i], s.attempts[j], failedAt, excused))
    && (j in s.reported ==> Settled(s.attempts[j], failedAt, excused))
  }

  lemma OthersKnow(s: State, jobs: nat, e: Event, j: Job, failedAt: Option<nat>, excused: bool)
    requires Conserved(s, jobs) && Enabled(s, e) && Explained(s, j, failedAt, excused)
    requires !ActsOn(s, e, j) && !(e.Receive? && s.left[0] == j)
    ensures Explained(Next(s, e), j, failedAt, excused)
  {
    var s' := Next(s, e);
    forall i | 0 <= i < |s'.workers| && ActsOn(s', Receive(i), j)
      ensures Knows(s'.workers[i], s'.attempts[j], failedAt, excused)
    {
      assert i != e.w;
      assert ActsOn(s, Receive(i), j);
    }
  }

  // Only the acting worker has job j, before and after.
  lemma ActorIsAlone(s: State, jobs: nat, e: Event, j: Job, i: nat)
    requires Conserved(s, jobs) && Enabled(s, e) && i < |s.workers| && i != e.w
    requires ActsOn(s, e, j) || (e.Receive? && s.left[0] == j)
    ensures !ActsOn(Next(s, e), Receive(i), j) && j !in s.reported
    ensures ActsOn(s, e, j) ==> j !in s.left
  {
    if ActsOn(s, e, j) {
      JobIsExclusive(s, jobs, e.w, i);
    } else {
      ReceivedIsNew(s, jobs, j, i);
    }
  }

  lemma ReceivedIsNew(s: State, jobs: nat, j: Job, i: nat)
    requires Conserved(s, jobs) && j in s.left && i < |s.workers|
    ensures !ActsOn(s, Receive(i), j) && j !in s.reported && multiset(s.left)[j] == 1
  {
    SumWithout(On(j), s.workers, i);
    assert multiset(s.left)[j] > 0;
  }

  lemma ActorKnows(s: State, jobs: nat, e: Event, j: Job, failedAt: Option<nat>, excused: bool)
    requires Conserved(s, jobs) && Enabled(s, e) && Explained(s, j, failedAt, excused) && ActsOn(s, e, j) && !e.Report?
    ensures var failed := if failedAt.None? && e == End(e.w, false) then Some(s.gen) else failedAt;
            Knows(Moves(s, e), Next(s, e).attempts[j], failed,
                  excused || FoundHealthy(s, e, j, failedAt) || ConnectFailed(s, e, j, failedAt))
  {
    JobIsOut(s, jobs, e.w);
    assert ActsOn(s, Receive(e.w), j);
    if e.End? {
      var w := s.workers[e.w];
      SettledByEnd(s.attempts[j], w.retry, e.ok);
    }
  }

  lemma SettledByEnd(tried: seq<bool>, retry: Option<nat>, ok: bool)
    requires tried == if retry.Some? then [false] else []
    ensures tried + [ok] == [false] <==> retry.None? && !ok
    ensures (tried + [ok])[0] <==> retry.None? && ok
  {
    if retry.None? {
      assert tried + [ok] == [ok];
    } else {
      assert |tried + [ok]| == 2;
    }
  }

  lemma StepExplains(s: State, jobs: nat, e: Event, j: Job, failedAt: Option<nat>, excused: bool)
    requires Conserved(s, jobs) && Enabled(s, e) && Explained(s, j, failedAt, excused)
    ensures var failed := if failedAt.None? && e == End(e.w, false) && ActsOn(s, e, j) then Some(s.gen) else failedAt;
            Explained(Next(s, e), j, failed, excused || FoundHealthy(s, e, j, failedAt) || ConnectFailed(s, e, j, failedAt))
  {
    if !ActsOn(s, e, j) && !(e.Receive? && s.left[0] == j) {
      OthersKnow(s, jobs, e, j, failedAt, excused);
    } else {
      forall i: nat | i < |s.workers| && i != e.w ensures !ActsOn(Next(s, e), Receive(i), j) {
        ActorIsAlone(s, jobs, e, j, i);
      }
      if e.Receive? {
        ReceivedIsNew(s, jobs, j, e.w);
        FirstTaken(s.left, j);
      } else {
        JobIsOut(s, jobs, e.w);
        assert ActsOn(s, Receive(e.w), j);
        if !e.Report? { ActorKnows(s, jobs, e, j, failedAt, excused); }
      }
    }
  }

  lemma {:induction false} RunExplains(states: seq<State>, events: seq<Event>, jobs: nat, k: nat, j: Job)
    requires IsRun(states, events, jobs) && k < |states| && j < jobs
    ensures Explained(states[k], j, FailedAt(states, events, k, j), Excused(states, events, k, j))
  {
    if k == 0 {
      forall i | 0 <= i < |states[0].workers| ensures states[0].workers[i].Waiting? {
        assert states[0].workers[i] in states[0].workers;
      }
    } else {
      RunExplains(states, events, jobs, k - 1, j);
      RunInvariant(states, events, jobs, k - 1);
      StepExplains(states[k - 1], jobs, events[k - 1], j, FailedAt(states, events, k - 1, j), Excused(states, events, k - 1, j));
    }
  }

  // In the end a job has been tried just once and failed exactly if its probe
  // answered on the connection it had failed on, or its own reconnect failed;
  // after any other first failure there is exactly one more attempt, and the
  // connection it had failed on has been replaced.
  lemma FailuresAreRetried(states: seq<State>, events: seq<Event>, jobs: nat, j: Job)
    requires IsRun(states, events, jobs) && j < jobs && forall e :: !Enabled(states[|events|], e)
    ensures j < |states[|events|].attempts|
    ensures var last, tried := states[|events|], states[|events|].attempts[j];
            var failedAt := FailedAt(states, events, |events|, j);
            && (tried == [false] <==> Excused(states, events, |events|, j))
            && (failedAt.None? <==> tried == [true])
            && (failedAt.Some? && !Excused(states, events, |events|, j) ==>
                  |tried| == 2 && !tried[0] && failedAt.value < last.gen && Touch(failedAt.value, true) in last.touches)
  {
    TransfersComplete(states, events, jobs, j);
    RunExplains(states, events, jobs, |events|, j);
    if FailedAt(states, events, |events|, j).Some? && !Excused(states, events, |events|, j) {
      RetriedIsPast(states, events, jobs, |events|, j);
      GenerationsAreTouched(states, events, jobs, |events|, FailedAt(states, events, |events|, j).value);
    }
  }

  // A second attempt means that the generation of the first failure is past.
  predicate PastRetry(s: State, j: Job, failedAt: Option<nat>) {
    j < |s.attempts| && (|s.attempts[j]| == 2 ==> failedAt.Some? && failedAt.value < s.gen)
  }

  lemma StepKeepsPast(s: State, jobs: nat, e: Event, j: Job, failedAt: Option<nat>, excused: bool)
    requires Safe(s) && Conserved(s, jobs) && Enabled(s, e)
    requires Explained(s, j, failedAt, excused) && PastRetry(s, j, failedAt)
    ensures PastRetry(Next(s, e), j, failedAt)
  {
    if e.End? && s.workers[e.w].job == j {
      JobIsOut(s, jobs, e.w);
      assert ActsOn(s, Receive(e.w), j);
      assert Dated(s, s.workers[e.w]);
    }
  }

  lemma {:induction false} RetriedIsPast(states: seq<State>, events: seq<Event>, jobs: nat, k: nat, j: Job)
    requires IsRun(states, events, jobs) && k < |states| && j < jobs
    ensures PastRetry(states[k], j, FailedAt(states, events, k, j))
  {
    if k == 0 {
    } else {
      RetriedIsPast(states, events, jobs, k - 1, j);
      RunInvariant(states, events, jobs, k - 1);
      RunExplains(states, events, jobs, k - 1, j);
      StepKeepsPast(states[k - 1], jobs, events[k - 1], j,
                    FailedAt(states, events, k - 1, j), Excused(states, events, k - 1, j));
    }
  }

  lemma {:induction false} GenerationsAreTouched(states: seq<State>, events: seq<Event>, jobs: nat, k: nat, g: nat)
    requires IsRun(states, events, jobs) && k < |states| && g < states[k].gen
    ensures Touch(g, true) in states[k].touches
  {
    if k == 0 {
    } else {
      var s, e := states[k - 1], events[k - 1];
      if g < s.gen {
        GenerationsAreTouched(states, events, jobs, k - 1, g);
      } else {
        assert Next(s, e).touches == s.touches + [Touch(g, true)];
      }
    }
  }

  // A worker replaces the connection only for a job whose first attempt failed
  // at the generation it observed, and which nothing has excused since.
  lemma ReplacedForAFailure(states: seq<State>, events: seq<Event>, jobs: nat, k: nat, j: Job)
    requires IsRun(states, events, jobs) && k < |events| && j < jobs
    requires ActsOn(states[k], events[k], j) && events[k].Replace?
    ensures !Excused(states, events, k, j) && FailedAt(states, events, k, j) == Some(states[k].workers[events[k].w].gen)
    ensures Excused(states, events, k + 1, j) || states[k + 1].gen > states[k].workers[events[k].w].gen
  {
    RunExplains(states, events, jobs, k, j);
    RunInvariant(states, events, jobs, k);
    assert ActsOn(states[k], Receive(events[k].w), j);
    assert states[k].workers[events[k].w] in states[k].workers;
    assert Dated(states[k], states[k].workers[events[k].w]);
  }

  lemma {:induction false} FindingsLast(states: seq<State>, events: seq<Event>, k: nat, l: nat, j: Job)
    requires k <= l <= |events| < |states|
    ensures Excused(states, events, k, j) ==> Excused(states, events, l, j)
    ensures FailedAt(states, events, k, j).Some? ==> FailedAt(states, events, l, j) == FailedAt(states, events, k, j)
  {
    if k < l { FindingsLast(states, events, k, l - 1, j); }
  }

  lemma {:induction false} GenerationsGrow(states: seq<State>, events: seq<Event>, jobs: nat, k: nat, l: nat)
    requires IsRun(states, events, jobs) && k <= l < |states|
    ensures states[k].gen <= states[l].gen
  {
    if k < l { GenerationsGrow(states, events, jobs, k, l - 1); }
  }

  // A job found healthy never has the connection replaced for it, before or
  // after.
  lemma HealthyIsLeftAlone(states: seq<State>, events: seq<Event>, jobs: nat, k: nat, l: nat, j: Job)
    requires IsRun(states, events, jobs) && k < |events| && l < |events| && j < jobs
    requires FoundHealthy(states[k], events[k], j, FailedAt(states, events, k, j))
    ensures !(ActsOn(states[l], events[l], j) && events[l].Replace?)
  {
    if ActsOn(states[l], events[l], j) && events[l].Replace? {
      ReplacedForAFailure(states, events, jobs, l, j);
      if k < l {
        FindingsLast(states, events, k + 1, l, j);
      } else if l < k {
        FindingsLast(states, events, l, k, j);
        FindingsLast(states, events, l + 1, k, j);
        GenerationsGrow(states, events, jobs, l + 1, k);
        RunExplains(states, events, jobs, k, j);
        assert ActsOn(states[k], Receive(events[k].w), j);
      }
    }
  }
}
