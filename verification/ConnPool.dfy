// connPool: exclusive use of up to `limit` connections, opened lazily, with
// dialing outside the lock and waiting on a condition variable.
//
// The functions say what each critical section does to the pool's fields; the
// class runs those sections step by step; ConnPoolProtocol proves what holds
// whatever way any number of threads interleave them.
module ConnPool {
  import opened Options

  type Conn = nat

  datatype Fault = PoolClosed | DialFailed(code: int)

  datatype Fields = Fields(idle: seq<Conn>, open: int, dialing: int, dialErr: Option<int>,
                           limit: int, capped: bool, closed: bool)

  // How a pass through acquire's loop ends.
  datatype Move = Take(c: Conn) | Fail(why: Fault) | Dial | Sleep

  datatype Wakeup = Nobody | OneWaiter | EveryWaiter

  // Fields afterwards, where the caller goes next, who is signalled, which
  // connections are closed, and whether the cap is reported.
  datatype Effect = Effect(after: Fields, move: Move, wake: Wakeup, shut: seq<Conn>, capNotice: bool)

  function NewFields(limit: int): Fields {
    Fields([], 0, 0, None, if limit < 1 then 1 else limit, false, false)
  }

  function Seeded(f: Fields, c: Conn): Fields {
    f.(open := f.open + 1, idle := f.idle + [c])
  }

  // One pass through acquire's loop, up to where it dials, waits or returns.
  function Turn(f: Fields, waited: bool): Effect {
    if f.closed then Effect(f, Fail(PoolClosed), Nobody, [], false)
    else if f.idle != [] then
      Effect(f.(idle := f.idle[..|f.idle| - 1]), Take(f.idle[|f.idle| - 1]), Nobody, [], false)
    else if waited && f.open == 0 && f.dialErr.Some? then
      Effect(f, Fail(DialFailed(f.dialErr.value)), Nobody, [], false)
    else if f.open < f.limit then
      Effect(f.(open := f.open + 1, dialing := f.dialing + 1), Dial, Nobody, [], false)
    else Effect(f, Sleep, Nobody, [], false)
  }

  function DialWon(f: Fields, c: Conn): Effect {
    var g := f.(dialing := f.dialing - 1, dialErr := None);
    if g.closed then Effect(g.(open := g.open - 1), Fail(PoolClosed), Nobody, [c], false)
    else Effect(g, Take(c), Nobody, [], false)
  }

  // A failed dial wakes everyone; with connections established the pool stops
  // growing and the caller goes round the loop again under the same lock.
  function DialLost(f: Fields, waited: bool, code: int): Effect {
    var g := f.(dialing := f.dialing - 1, open := f.open - 1);
    if g.open - g.dialing == 0 then
      Effect(g.(dialErr := Some(code)), Fail(DialFailed(code)), EveryWaiter, [], false)
    else
      Turn(g.(limit := g.open, capped := true), waited).(wake := EveryWaiter, capNotice := !g.capped)
  }

  function Released(f: Fields, c: Conn, broken: bool): Effect {
    if broken || f.closed then Effect(f.(open := f.open - 1), Fail(PoolClosed), EveryWaiter, [c], false)
    else Effect(f.(idle := f.idle + [c]), Fail(PoolClosed), OneWaiter, [], false)
  }

  function ClosedAll(f: Fields): Effect {
    if f.closed then Effect(f, Fail(PoolClosed), Nobody, [], false)
    else Effect(f.(closed := true, idle := [], open := f.open - |f.idle|), Fail(PoolClosed), EveryWaiter, f.idle, false)
  }

  class Pool {
    var idle: seq<Conn>
    var open: int
    var dialing: int
    var dialErr: Option<int>
    var limit: int
    var capped: bool
    var closed: bool

    function State(): Fields
      reads this
    {
      Fields(idle, open, dialing, dialErr, limit, capped, closed)
    }

    constructor (limit: int)
      ensures State() == NewFields(limit)
    {
      idle, open, dialing, dialErr := [], 0, 0, None;
      this.limit := if limit < 1 then 1 else limit;
      capped, closed := false, false;
    }

    method Seed(c: Conn) returns (wake: Wakeup)
      modifies this
      ensures State() == Seeded(old(State()), c) && wake == OneWaiter
    {
      open := open + 1;
      idle := idle + [c];
      return OneWaiter;
    }

    // acquire's loop body, entered at the top with the lock held.
    method AcquireTurn(waited: bool) returns (move: Move)
      modifies this
      ensures State() == Turn(old(State()), waited).after && move == Turn(old(State()), waited).move
    {
      if closed { return Fail(PoolClosed); }
      var n := |idle|;
      if n > 0 {
        move := Take(idle[n - 1]);
        idle := idle[..n - 1];
        return;
      }
      if waited && open == 0 && dialErr.Some? { return Fail(DialFailed(dialErr.value)); }
      if open < limit {
        open := open + 1;
        dialing := dialing + 1;
        return Dial;
      }
      return Sleep;
    }

    // acquire after a dial that gave c, lock held again.
    method DialSucceeded(c: Conn) returns (move: Move, shut: seq<Conn>)
      modifies this
      ensures var e := DialWon(old(State()), c); State() == e.after && move == e.move && shut == e.shut
    {
      dialing := dialing - 1;
      dialErr := None;
      if closed {
        open := open - 1;
        return Fail(PoolClosed), [c];
      }
      return Take(c), [];
    }

    // acquire after a dial that failed, lock held again.
    method DialFailedWith(waited: bool, code: int) returns (move: Move, wake: Wakeup, capNotice: bool)
      modifies this
      ensures var e := DialLost(old(State()), waited, code);
              State() == e.after && move == e.move && wake == e.wake && capNotice == e.capNotice
    {
      dialing := dialing - 1;
      open := open - 1;
      wake := EveryWaiter;
      capNotice := false;
      var established := open - dialing;
      if established == 0 {
        dialErr := Some(code);
        return Fail(DialFailed(code)), wake, capNotice;
      }
      limit := open;
      if !capped {
        capped := true;
        capNotice := true;
      }
      move := AcquireTurn(waited);
    }

    method Release(c: Conn, broken: bool) returns (wake: Wakeup, shut: seq<Conn>)
      modifies this
      ensures var e := Released(old(State()), c, broken); State() == e.after && wake == e.wake && shut == e.shut
    {
      if broken || closed {
        open := open - 1;
        return EveryWaiter, [c];
      }
      idle := idle + [c];
      return OneWaiter, [];
    }

    method TryAcquireIdle() returns (got: Option<Conn>, busy: bool)
      modifies this
      ensures got.Some? <==> old(idle) != [] && !closed
      ensures got.Some? ==> State() == Turn(old(State()), false).after && Turn(old(State()), false).move == Take(got.value)
      ensures got.None? ==> State() == old(State()) && (busy <==> open > 0 && !closed)
    {
      var n := |idle|;
      if n > 0 && !closed {
        got, busy := Some(idle[n - 1]), false;
        idle := idle[..n - 1];
        return;
      }
      return None, open > 0 && !closed;
    }

    method CloseAll() returns (wake: Wakeup, shut: seq<Conn>)
      modifies this
      ensures var e := ClosedAll(old(State())); State() == e.after && wake == e.wake && shut == e.shut
    {
      if closed { return Nobody, []; }
      closed := true;
      shut := idle;
      idle := [];
      open := open - |shut|;
      wake := EveryWaiter;
    }
  }
}

// Any number of threads going through the pool's critical sections.
module ConnPoolProtocol {
  import opened Options
  import opened Sums
  import opened ConnPool

  datatype Thread =
    | Outside
    | Dialing(waited: bool)
    | Asleep                 // in cond.Wait, not signalled
    | Woken                  // signalled, still to get the lock back
    | Holding(c: Conn)

  // born: every connection ever dialed or seeded; closing: to be closed by a
  // goroutine already on its way; shut: close calls that have happened.
  datatype Sys = Sys(f: Fields, threads: seq<Thread>, born: set<Conn>, closing: multiset<Conn>, shut: multiset<Conn>)

  datatype Event =
    | Enter(t: nat)
    | Resume(t: nat)
    | DialOk(t: nat, c: Conn)
    | DialFail(t: nat, code: int)
    | Release(t: nat, broken: bool, signalled: nat)
    | TryIdle(t: nat)
    | CloseAll
    | Close(c: Conn)

  function Arrive(m: Move, waited: bool): Thread {
    match m
    case Take(c) => Holding(c)
    case Fail(_) => Outside
    case Dial => Dialing(waited)
    case Sleep => Asleep
  }

  function WakeAll(threads: seq<Thread>): seq<Thread> {
    seq(|threads|, i requires 0 <= i < |threads| => if threads[i].Asleep? then Woken else threads[i])
  }

  predicate AnyAsleep(threads: seq<Thread>) {
    exists i :: 0 <= i < |threads| && threads[i].Asleep?
  }

  // cond.Signal wakes one sleeper, any one, if there is one.
  predicate Signalled(threads: seq<Thread>, w: nat, threads': seq<Thread>) {
    if AnyAsleep(threads) then w < |threads| && threads[w].Asleep? && threads' == threads[w := Woken]
    else threads' == threads
  }

  predicate Step(s: Sys, e: Event, s': Sys) {
    match e
    case Enter(t) =>
      t < |s.threads| && s.threads[t].Outside? &&
      var r := Turn(s.f, false);
      s' == s.(f := r.after, threads := s.threads[t := Arrive(r.move, false)])
    case Resume(t) =>
      t < |s.threads| && s.threads[t].Woken? &&
      var r := Turn(s.f, true);
      s' == s.(f := r.after, threads := s.threads[t := Arrive(r.move, true)])
    case DialOk(t, c) =>
      t < |s.threads| && s.threads[t].Dialing? && c !in s.born &&
      var r := DialWon(s.f, c);
      s' == s.(f := r.after, threads := s.threads[t := Arrive(r.move, false)], born := s.born + {c},
               closing := s.closing + multiset(r.shut))
    case DialFail(t, code) =>
      t < |s.threads| && s.threads[t].Dialing? &&
      var r := DialLost(s.f, s.threads[t].waited, code);
      s' == s.(f := r.after, threads := WakeAll(s.threads)[t := Arrive(r.move, s.threads[t].waited)])
    case Release(t, broken, w) =>
      t < |s.threads| && s.threads[t].Holding? &&
      var r := Released(s.f, s.threads[t].c, broken);
      var left := s.threads[t := Outside];
      s' == s.(f := r.after, threads := s'.threads, closing := s.closing + multiset(r.shut)) &&
      (if r.wake.EveryWaiter? then s'.threads == WakeAll(left) else Signalled(left, w, s'.threads))
    case TryIdle(t) =>
      t < |s.threads| && s.threads[t].Outside? &&
      (if s.f.idle != [] && !s.f.closed then
         var r := Turn(s.f, false); s' == s.(f := r.after, threads := s.threads[t := Arrive(r.move, false)])
       else s' == s)
    case CloseAll =>
      var r := ClosedAll(s.f);
      s' == s.(f := r.after, closing := s.closing + multiset(r.shut),
               threads := if r.wake.EveryWaiter? then WakeAll(s.threads) else s.threads)
    case Close(c) =>
      c in s.closing && s' == s.(closing := s.closing - multiset{c}, shut := s.shut + multiset{c})
  }

  // A fresh pool, seeded (FTP's Connect) or not (SFTP's), with nobody inside.
  ghost predicate Initial(s: Sys) {
    exists limit: int :: InitialAt(s, limit)
  }

  ghost predicate InitialAt(s: Sys, limit: int) {
    && (forall t <- s.threads :: t.Outside?) && s.closing == multiset{} && s.shut == multiset{}
    && ((s.f == NewFields(limit) && s.born == {}) ||
        (exists c <- s.born :: s.f == Seeded(NewFields(limit), c) && s.born == {c}))
  }

  // ---- The invariant ----

  function Holds(c: Conn): Thread -> nat {
    (t: Thread) => if t == Holding(c) then 1 else 0
  }

  function AnyHolding(t: Thread): nat { if t.Holding? then 1 else 0 }

  function IsDialing(t: Thread): nat { if t.Dialing? then 1 else 0 }

  function IsWoken(t: Thread): nat { if t.Woken? then 1 else 0 }

  // Where c is: idle, held, about to be closed or closed, counted together.
  ghost function Places(s: Sys, c: Conn): nat {
    multiset(s.f.idle)[c] + Sum(Holds(c), s.threads) + s.closing[c] + s.shut[c]
  }

  ghost predicate Counted(s: Sys) {
    && s.f.dialing == Sum(IsDialing, s.threads)
    && s.f.open == |s.f.idle| + Sum(AnyHolding, s.threads) + s.f.dialing
    && 1 <= s.f.limit && s.f.open <= s.f.limit
    && (s.f.closed ==> s.f.idle == [])
  }

  // Every connection ever made is in exactly one place.
  ghost predicate Placed(s: Sys) {
    forall c :: Places(s, c) == if c in s.born then 1 else 0
  }

  // Whoever sleeps unsignalled does so because the pool is full, and there are
  // woken threads for all the idle connections.
  ghost predicate NoLostWakeup(s: Sys) {
    AnyAsleep(s.threads) ==>
      !s.f.closed && s.f.open == s.f.limit && |s.f.idle| <= Sum(IsWoken, s.threads)
  }

  ghost predicate Inv(s: Sys) {
    Counted(s) && Placed(s) && NoLostWakeup(s)
  }

  lemma {:induction false} SumWakeAll(f: Thread -> nat, threads: seq<Thread>)
    requires f(Asleep) == f(Woken)
    ensures Sum(f, WakeAll(threads)) == Sum(f, threads)
  {
    if threads == [] {
    } else {
      SumWakeAll(f, threads[1..]);
      assert WakeAll(threads)[1..] == WakeAll(threads[1..]);
    }
  }

  lemma NobodyInside(f: Thread -> nat, threads: seq<Thread>)
    requires f(Outside) == 0 && forall t <- threads :: t.Outside?
    ensures Sum(f, threads) == 0
  {
    SumIsZero(f, threads);
  }

  lemma InitialInv(s: Sys)
    requires Initial(s)
    ensures Inv(s)
  {
    NobodyInside(IsDialing, s.threads);
    NobodyInside(AnyHolding, s.threads);
    forall c ensures Sum(Holds(c), s.threads) == 0 { NobodyInside(Holds(c), s.threads); }
    forall i | 0 <= i < |s.threads| ensures !s.threads[i].Asleep? { assert s.threads[i] in s.threads; }
  }

  // ---- Every step keeps it ----

  lemma Moved(threads: seq<Thread>, t: nat, x: Thread)
    requires t < |threads|
    ensures Sum(IsDialing, threads[t := x]) == Sum(IsDialing, threads) - IsDialing(threads[t]) + IsDialing(x)
    ensures Sum(AnyHolding, threads[t := x]) == Sum(AnyHolding, threads) - AnyHolding(threads[t]) + AnyHolding(x)
    ensures Sum(IsWoken, threads[t := x]) == Sum(IsWoken, threads) - IsWoken(threads[t]) + IsWoken(x)
    ensures forall c :: Sum(Holds(c), threads[t := x]) == Sum(Holds(c), threads) - Holds(c)(threads[t]) + Holds(c)(x)
  {
    SumUpdate(IsDialing, threads, t, x);
    SumUpdate(AnyHolding, threads, t, x);
    SumUpdate(IsWoken, threads, t, x);
    forall c ensures Sum(Holds(c), threads[t := x]) == Sum(Holds(c), threads) - Holds(c)(threads[t]) + Holds(c)(x) {
      SumUpdate(Holds(c), threads, t, x);
    }
  }

  lemma Broadcast(threads: seq<Thread>)
    ensures Sum(IsDialing, WakeAll(threads)) == Sum(IsDialing, threads)
    ensures Sum(AnyHolding, WakeAll(threads)) == Sum(AnyHolding, threads)
    ensures forall c :: Sum(Holds(c), WakeAll(threads)) == Sum(Holds(c), threads)
    ensures !AnyAsleep(WakeAll(threads))
  {
    SumWakeAll(IsDialing, threads);
    SumWakeAll(AnyHolding, threads);
    forall c ensures Sum(Holds(c), WakeAll(threads)) == Sum(Holds(c), threads) { SumWakeAll(Holds(c), threads); }
  }

  lemma SleepersElsewhere(threads: seq<Thread>, t: nat, x: Thread)
    requires t < |threads| && AnyAsleep(threads[t := x]) && !x.Asleep?
    ensures AnyAsleep(threads)
  {
    var i :| 0 <= i < |threads| && threads[t := x][i].Asleep?;
    assert threads[i].Asleep?;
  }

  // A pass through acquire's loop by thread t: it was outside, or woken, or is
  // giving up a dial that has just woken everyone.
  ghost predicate MayTurn(s: Sys, t: nat, waited: bool) {
    t < |s.threads| && Inv(s) &&
    (s.threads[t].Outside? || (s.threads[t].Woken? && (waited || !AnyAsleep(s.threads))))
  }

  function AfterTurn(s: Sys, t: nat, waited: bool): Sys
    requires t < |s.threads|
  {
    var r := Turn(s.f, waited);
    s.(f := r.after, threads := s.threads[t := Arrive(r.move, waited)])
  }

  lemma TurnKeepsCounted(s: Sys, t: nat, waited: bool)
    requires MayTurn(s, t, waited)
    ensures Counted(AfterTurn(s, t, waited))
  {
    Moved(s.threads, t, Arrive(Turn(s.f, waited).move, waited));
  }

  lemma IdleTaken(idle: seq<Conn>, c: Conn)
    requires idle != []
    ensures multiset(idle)[c] == multiset(idle[..|idle| - 1])[c] + if idle[|idle| - 1] == c then 1 else 0
  {
    assert idle == idle[..|idle| - 1] + [idle[|idle| - 1]];
  }

  lemma TakeKeepsPlace(s: Sys, t: nat, waited: bool, c: Conn)
    requires t < |s.threads| && !s.threads[t].Holding? && !s.f.closed && s.f.idle != []
    ensures Places(AfterTurn(s, t, waited), c) == Places(s, c)
  {
    var last := s.f.idle[|s.f.idle| - 1];
    SumUpdate(Holds(c), s.threads, t, Holding(last));
    IdleTaken(s.f.idle, c);
  }

  lemma TurnKeepsPlace(s: Sys, t: nat, waited: bool, c: Conn)
    requires t < |s.threads| && !s.threads[t].Holding?
    ensures Places(AfterTurn(s, t, waited), c) == Places(s, c)
  {
    if !s.f.closed && s.f.idle != [] {
      TakeKeepsPlace(s, t, waited, c);
    } else {
      var x := Arrive(Turn(s.f, waited).move, waited);
      assert Turn(s.f, waited).after.idle == s.f.idle && !x.Holding?;
      SumUpdate(Holds(c), s.threads, t, x);
    }
  }

  lemma TurnKeepsPlaced(s: Sys, t: nat, waited: bool)
    requires MayTurn(s, t, waited)
    ensures Placed(AfterTurn(s, t, waited))
  {
    forall c ensures Places(AfterTurn(s, t, waited), c) == if c in s.born then 1 else 0 {
      TurnKeepsPlace(s, t, waited, c);
    }
  }

  lemma TurnKeepsWakeups(s: Sys, t: nat, waited: bool)
    requires MayTurn(s, t, waited)
    ensures NoLostWakeup(AfterTurn(s, t, waited))
  {
    var x := Arrive(Turn(s.f, waited).move, waited);
    SumUpdate(IsWoken, s.threads, t, x);
    if AnyAsleep(s.threads[t := x]) && !x.Asleep? { SleepersElsewhere(s.threads, t, x); }
  }

  lemma TurnKeepsInv(s: Sys, t: nat, waited: bool)
    requires MayTurn(s, t, waited)
    ensures Inv(AfterTurn(s, t, waited))
  {
    TurnKeepsCounted(s, t, waited);
    TurnKeepsPlaced(s, t, waited);
    TurnKeepsWakeups(s, t, waited);
  }

  lemma DialOkKeepsInv(s: Sys, t: nat, c: Conn, s': Sys)
    requires Inv(s) && Step(s, DialOk(t, c), s')
    ensures Inv(s')
  {
    var x := s'.threads[t];
    Moved(s.threads, t, x);
    forall d ensures Places(s', d) == if d in s'.born then 1 else 0 {
      assert Places(s, d) == if d in s.born then 1 else 0;
    }
    if AnyAsleep(s'.threads) { SleepersElsewhere(s.threads, t, x); }
  }

  // The state between a failed dial's bookkeeping and the caller's next turn.
  function AfterLoss(s: Sys, t: nat): Sys
    requires t < |s.threads|
  {
    var open := s.f.open - 1;
    s.(f := s.f.(dialing := s.f.dialing - 1, open := open, limit := open, capped := true),
       threads := WakeAll(s.threads)[t := Woken])
  }

  lemma LossMidway(s: Sys, t: nat)
    requires Inv(s) && t < |s.threads| && s.threads[t].Dialing? && s.f.open != s.f.dialing
    ensures Inv(AfterLoss(s, t)) && !AnyAsleep(AfterLoss(s, t).threads)
  {
    var mid := AfterLoss(s, t);
    Broadcast(s.threads);
    Moved(WakeAll(s.threads), t, Woken);
    forall c ensures Places(mid, c) == Places(s, c) {}
    if AnyAsleep(mid.threads) { SleepersElsewhere(WakeAll(s.threads), t, Woken); }
  }

  lemma OnlyDialFails(s: Sys, t: nat, code: int, s': Sys)
    requires Inv(s) && Step(s, DialFail(t, code), s') && s.f.open == s.f.dialing
    ensures Inv(s')
  {
    Broadcast(s.threads);
    Moved(WakeAll(s.threads), t, Outside);
    forall c ensures Places(s', c) == Places(s, c) {}
    if AnyAsleep(s'.threads) { SleepersElsewhere(WakeAll(s.threads), t, Outside); }
  }

  // With connections established, a failed dial is the bookkeeping and then
  // one more turn of the loop.
  lemma FailedDialTurns(s: Sys, t: nat, code: int, s': Sys)
    requires Step(s, DialFail(t, code), s') && s.f.open != s.f.dialing
    ensures s' == AfterTurn(AfterLoss(s, t), t, s.threads[t].waited)
  {
    var x := s'.threads[t];
    assert WakeAll(s.threads)[t := Woken][t := x] == WakeAll(s.threads)[t := x];
  }

  lemma DialFailKeepsInv(s: Sys, t: nat, code: int, s': Sys)
    requires Inv(s) && Step(s, DialFail(t, code), s')
    ensures Inv(s')
  {
    if s.f.open == s.f.dialing {
      OnlyDialFails(s, t, code, s');
    } else {
      LossMidway(s, t);
      TurnKeepsInv(AfterLoss(s, t), t, s.threads[t].waited);
      FailedDialTurns(s, t, code, s');
    }
  }

  lemma BrokenReleaseKeepsInv(s: Sys, t: nat, broken: bool, w: nat, s': Sys)
    requires Inv(s) && Step(s, Release(t, broken, w), s') && (broken || s.f.closed)
    ensures Inv(s')
  {
    var left := s.threads[t := Outside];
    Moved(s.threads, t, Outside);
    Broadcast(left);
    forall c ensures Places(s', c) == Places(s, c) {}
  }

  lemma SignalKeeps(threads: seq<Thread>, w: nat, threads': seq<Thread>)
    requires Signalled(threads, w, threads')
    ensures Sum(IsDialing, threads') == Sum(IsDialing, threads)
    ensures Sum(AnyHolding, threads') == Sum(AnyHolding, threads)
    ensures forall c :: Sum(Holds(c), threads') == Sum(Holds(c), threads)
    ensures Sum(IsWoken, threads') == Sum(IsWoken, threads) + if AnyAsleep(threads) then 1 else 0
    ensures AnyAsleep(threads') ==> AnyAsleep(threads)
  {
    if AnyAsleep(threads) { Moved(threads, w, Woken); }
  }

  lemma GoodReleaseKeepsInv(s: Sys, t: nat, w: nat, s': Sys)
    requires Inv(s) && Step(s, Release(t, false, w), s') && !s.f.closed
    ensures Inv(s')
  {
    var left := s.threads[t := Outside];
    Moved(s.threads, t, Outside);
    SignalKeeps(left, w, s'.threads);
    forall c ensures Places(s', c) == Places(s, c) {}
    if AnyAsleep(left) { SleepersElsewhere(s.threads, t, Outside); }
  }

  lemma CloseAllKeepsInv(s: Sys, s': Sys)
    requires Inv(s) && Step(s, CloseAll, s')
    ensures Inv(s')
  {
    Broadcast(s.threads);
    forall c ensures Places(s', c) == Places(s, c) {}
  }

  lemma StepKeepsInv(s: Sys, e: Event, s': Sys)
    requires Inv(s) && Step(s, e, s')
    ensures Inv(s')
  {
    match e
    case Enter(t) => TurnKeepsInv(s, t, false); assert s' == AfterTurn(s, t, false);
    case Resume(t) => TurnKeepsInv(s, t, true); assert s' == AfterTurn(s, t, true);
    case DialOk(t, c) => DialOkKeepsInv(s, t, c, s');
    case DialFail(t, code) => DialFailKeepsInv(s, t, code, s');
    case Release(t, broken, w) =>
      if broken || s.f.closed { BrokenReleaseKeepsInv(s, t, broken, w, s'); } else { GoodReleaseKeepsInv(s, t, w, s'); }
    case TryIdle(t) => TurnKeepsInv(s, t, false);
    case CloseAll => CloseAllKeepsInv(s, s');
    case Close(c) => forall d ensures Places(s', d) == Places(s, d) {}
  }

  // ---- What the invariant gives ----

  ghost predicate IsRun(states: seq<Sys>, events: seq<Event>) {
    |states| == |events| + 1 && Initial(states[0]) &&
    forall k | 0 <= k < |events| :: Step(states[k], events[k], states[k + 1])
  }

  lemma {:induction false} RunKeepsInv(states: seq<Sys>, events: seq<Event>, k: nat)
    requires IsRun(states, events) && k < |states|
    ensures Inv(states[k])
  {
    if k == 0 {
      InitialInv(states[0]);
    } else {
      RunKeepsInv(states, events, k - 1);
      StepKeepsInv(states[k - 1], events[k - 1], states[k]);
    }
  }

  lemma {:induction false} SomeoneCounts(f: Thread -> nat, threads: seq<Thread>)
    requires Sum(f, threads) > 0
    ensures exists i :: 0 <= i < |threads| && f(threads[i]) > 0
  {
    if forall t <- threads :: f(t) == 0 {
      SumIsZero(f, threads);
    } else {
      var t :| t in threads && f(t) != 0;
      var i :| 0 <= i < |threads| && threads[i] == t;
    }
  }

  predicate CanAct(t: Thread) {
    t.Woken? || t.Dialing? || t.Holding?
  }

  // A thread asleep is never the last one left: some other thread is awake,
  // dialing or holding a connection, and the pool is open and full.
  lemma SleeperIsNotAlone(s: Sys)
    requires Inv(s) && AnyAsleep(s.threads)
    ensures exists i :: 0 <= i < |s.threads| && CanAct(s.threads[i])
    ensures !s.f.closed && s.f.open == s.f.limit >= 1 && |s.f.idle| <= Sum(IsWoken, s.threads)
  {
    if Sum(IsWoken, s.threads) > 0 {
      SomeoneCounts(IsWoken, s.threads);
    } else if Sum(AnyHolding, s.threads) > 0 {
      SomeoneCounts(AnyHolding, s.threads);
    } else {
      SomeoneCounts(IsDialing, s.threads);
    }
  }

  lemma TwoHolders(threads: seq<Thread>, i: nat, j: nat, c: Conn)
    requires i < j < |threads| && threads[i] == threads[j] == Holding(c)
    ensures Sum(Holds(c), threads) >= 2
  {
    SumWithout(Holds(c), threads, j);
    var rest := threads[..j] + threads[j + 1..];
    assert rest[i] == Holding(c);
    SumWithout(Holds(c), rest, i);
  }

  // A connection in someone's hands is in nobody else's, and neither idle nor closed.
  lemma UseIsExclusive(s: Sys, i: nat, c: Conn)
    requires Inv(s) && i < |s.threads| && s.threads[i] == Holding(c)
    ensures c in s.born && c !in s.f.idle && c !in s.closing && c !in s.shut
    ensures forall j | 0 <= j < |s.threads| && j != i :: s.threads[j] != Holding(c)
  {
    SumUpdate(Holds(c), s.threads, i, Outside);
    assert Places(s, c) <= 1;
    forall j | 0 <= j < |s.threads| && j != i ensures s.threads[j] != Holding(c) {
      if s.threads[j] == Holding(c) { TwoHolders(s.threads, if i < j then i else j, if i < j then j else i, c); }
    }
  }

  // Once closed and left by everybody, every connection has been closed exactly once.
  lemma ClosedPoolClosesAll(s: Sys)
    requires Inv(s) && s.f.closed && s.closing == multiset{} && forall t <- s.threads :: t.Outside?
    ensures s.shut == multiset(s.born) && s.f.open == 0
  {
    NobodyInside(IsDialing, s.threads);
    NobodyInside(AnyHolding, s.threads);
    forall c ensures s.shut[c] == multiset(s.born)[c] {
      NobodyInside(Holds(c), s.threads);
      assert Places(s, c) == if c in s.born then 1 else 0;
    }
  }

  // How an acquire that fails in this step fails.
  function Verdict(s: Sys, e: Event): Option<Fault> {
    var move := match e
      case Enter(_) => Turn(s.f, false).move
      case Resume(_) => Turn(s.f, true).move
      case DialOk(_, c) => DialWon(s.f, c).move
      case DialFail(t, code) =>
        if t < |s.threads| && s.threads[t].Dialing? then DialLost(s.f, s.threads[t].waited, code).move else Sleep
      case _ => Sleep;
    if move.Fail? then Some(move.why) else None
  }

  // A dial error reaches a caller only when no connection is established; any
  // other failure means the pool is closed.
  lemma FailuresAreHonest(s: Sys, e: Event, s': Sys)
    requires Inv(s) && Step(s, e, s') && Verdict(s, e).Some?
    ensures Verdict(s, e).value.DialFailed? ==> s'.f.idle == [] && forall t <- s'.threads :: !t.Holding?
    ensures Verdict(s, e).value.PoolClosed? ==> s'.f.closed
  {
    StepKeepsInv(s, e, s');
    if Verdict(s, e).value.DialFailed? && exists t <- s'.threads :: t.Holding? {
      var t :| t in s'.threads && t.Holding?;
      var i :| 0 <= i < |s'.threads| && s'.threads[i] == t;
      SumUpdate(AnyHolding, s'.threads, i, Outside);
    }
  }

  // A caller that comes to an open pool gets the connection released last, or
  // dials if there is room, or else waits; one that has waited gives up instead
  // of dialing if nothing is open and the last word was a failed dial.
  lemma ServedExactly(s: Sys, t: nat, e: Event, s': Sys)
    requires Step(s, e, s') && (e == Enter(t) || e == Resume(t))
    ensures var f, x := s.f, s'.threads[t];
            && (x == Outside <==> f.closed || (e == Resume(t) && f.idle == [] && f.open == 0 && f.dialErr.Some?))
            && (x.Holding? <==> !f.closed && f.idle != [])
            && (x.Holding? ==> s'.f.idle + [x.c] == f.idle && s'.f.open == f.open)
            && (x.Dialing? <==> x != Outside && f.idle == [] && f.open < f.limit)
            && (x.Dialing? ==> x.waited == (e == Resume(t)) && s'.f.open == f.open + 1)
            && (x == Asleep <==> x != Outside && f.idle == [] && f.open >= f.limit)
            && x != Woken && s'.f.dialErr == f.dialErr && s'.f.limit == f.limit
  {
  }

  // One failed dial is enough for everyone: if nothing is left open, whoever
  // slept through it fails with its error as soon as it gets the lock.
  lemma FailureIsShared(s: Sys, t: nat, code: int, s': Sys, u: nat, s'': Sys)
    requires Inv(s) && Step(s, DialFail(t, code), s') && s'.f.open == 0 && !s'.f.closed
    requires u < |s.threads| && s.threads[u].Asleep? && Step(s', Resume(u), s'')
    ensures s'.threads[t].Outside? && s''.threads[u].Outside? && Verdict(s', Resume(u)) == Some(DialFailed(code))
    ensures Verdict(s, DialFail(t, code)) == Some(DialFailed(code)) && s''.f == s'.f
  {
    SumUpdate(IsDialing, s.threads, t, Outside);
  }

  // A failed dial with others established fails nobody: the pool keeps to the
  // connections and dials it has, says so at most once, and the caller shares
  // them without dialing again.
  lemma FailureCaps(s: Sys, t: nat, code: int, s': Sys)
    requires Inv(s) && Step(s, DialFail(t, code), s') && s.f.open > s.f.dialing && !s.f.closed
    ensures s'.f.limit == s.f.open - 1 && s'.f.open == s.f.open - 1 && s'.f.dialErr == s.f.dialErr && s'.f.capped
    ensures s'.threads[t].Holding? || s'.threads[t].Asleep?
    ensures DialLost(s.f, s.threads[t].waited, code).capNotice <==> !s.f.capped
  {
    SumUpdate(IsDialing, s.threads, t, Outside);
  }

  // The dial at event l failed with this code, and none has succeeded since.
  predicate FailedSince(events: seq<Event>, l: nat, k: nat, code: int) {
    l < k <= |events| && events[l].DialFail? && events[l].code == code && forall m | l < m < k :: !events[m].DialOk?
  }

  lemma RememberedStays(s: Sys, e: Event, s': Sys)
    requires Inv(s) && Step(s, e, s') && (s.f.dialErr.Some? ==> s.f.open == s.f.dialing)
    ensures s'.f.dialErr.Some? ==> s'.f.open == s'.f.dialing
    ensures s'.f.dialErr.Some? ==> !e.DialOk? && (s'.f.dialErr == s.f.dialErr || (e.DialFail? && s'.f.dialErr == Some(e.code)))
  {
    if e.Release? {
      SumUpdate(AnyHolding, s.threads, e.t, Outside);
    }
  }

  ghost predicate ErrorAt(events: seq<Event>, k: nat, err: Option<int>) {
    err.Some? ==> exists l :: FailedSince(events, l, k, err.value)
  }

  lemma ErrorStays(events: seq<Event>, k: nat, before: Option<int>, after: Option<int>)
    requires k < |events| && ErrorAt(events, k, before)
    requires after.Some? ==>
               !events[k].DialOk? && (after == before || (events[k].DialFail? && after == Some(events[k].code)))
    ensures ErrorAt(events, k + 1, after)
  {
    if after.Some? {
      if events[k].DialFail? && after == Some(events[k].code) {
        assert FailedSince(events, k, k + 1, after.value);
      } else {
        var l :| FailedSince(events, l, k, after.value);
        assert FailedSince(events, l, k + 1, after.value);
      }
    }
  }

  // A remembered dial error is that of a dial no other has succeeded after, and
  // nothing is established.
  ghost predicate Remembers(s: Sys, events: seq<Event>, k: nat) {
    ErrorAt(events, k, s.f.dialErr) && (s.f.dialErr.Some? ==> s.f.open == s.f.dialing)
  }

  lemma StepRemembers(s: Sys, events: seq<Event>, k: nat, s': Sys)
    requires Inv(s) && k < |events| && Step(s, events[k], s') && Remembers(s, events, k)
    ensures Remembers(s', events, k + 1)
  {
    RememberedStays(s, events[k], s');
    ErrorStays(events, k, s.f.dialErr, s'.f.dialErr);
  }

  lemma NothingToRemember(s: Sys)
    requires Initial(s)
    ensures s.f.dialErr.None?
  {}

  // So it is over any run.
  lemma {:induction false} ErrorsAreCurrent(states: seq<Sys>, events: seq<Event>, k: nat)
    requires IsRun(states, events) && k < |states|
    ensures Remembers(states[k], events, k)
  {
    if k == 0 {
      NothingToRemember(states[0]);
    } else {
      ErrorsAreCurrent(states, events, k - 1);
      RunKeepsInv(states, events, k - 1);
      StepRemembers(states[k - 1], events, k - 1, states[k]);
    }
  }

  lemma PoolOnlyShrinks(s: Sys, e: Event, s': Sys)
    requires Inv(s) && Step(s, e, s')
    ensures 1 <= s'.f.limit <= s.f.limit
    ensures (s.f.closed ==> s'.f.closed) && (s.f.capped ==> s'.f.capped)
    ensures s.born <= s'.born && s.shut <= s'.shut
  {
    StepKeepsInv(s, e, s');
    if e.DialFail? { SumUpdate(IsDialing, s.threads, e.t, Outside); }
  }

  // ---- Everybody gets out ----

  // The steps still owed by threads already inside, and closeAll; no new caller
  // enters. On a closed pool closeAll does nothing and is no step.
  predicate IsDrain(s: Sys, e: Event) {
    e.Resume? || e.DialOk? || e.DialFail? || e.Release? || (e.CloseAll? && !s.f.closed)
  }

  function Rank(t: Thread): nat {
    match t
    case Woken => 3
    case Dialing(_) => 2
    case Holding(_) => 1
    case _ => 0
  }

  function Inside(t: Thread): nat { if t.Outside? then 0 else 1 }

  // Threads inside, room to grow and being open weigh more than any thread's
  // position.
  function High(s: Sys): int {
    Sum(Inside, s.threads) + s.f.limit + if s.f.closed then 0 else 1
  }

  function Load(s: Sys): nat
    requires 0 <= s.f.limit
  {
    Times(High(s), 3 * |s.threads| + 1) + Sum(Rank, s.threads)
  }

  lemma {:induction false} RankIsSmall(threads: seq<Thread>)
    ensures Sum(Rank, threads) <= 3 * |threads|
  {
    if threads == [] {
    } else {
      RankIsSmall(threads[1..]);
    }
  }

  function Times(k: nat, n: nat): nat {
    if k == 0 then 0 else n + Times(k - 1, n)
  }

  lemma {:induction false} HigherDigit(a: nat, b: nat, n: nat)
    requires a < b
    ensures Times(a, n) + n <= Times(b, n)
  {
    if a == b - 1 {
    } else {
      HigherDigit(a, b - 1, n);
    }
  }

  lemma LoadDrops(s: Sys, s': Sys)
    requires |s'.threads| == |s.threads| && 0 <= s'.f.limit && 0 <= s.f.limit
    requires High(s') < High(s)
    ensures 0 <= s'.f.limit && Load(s') < Load(s)
  {
    RankIsSmall(s'.threads);
    HigherDigit(High(s'), High(s), 3 * |s.threads| + 1);
  }

  // Thread t moves to x with the limit as it was.
  lemma MoveDrops(s: Sys, s': Sys, t: nat, x: Thread)
    requires t < |s.threads| && s'.threads == s.threads[t := x] && s'.f.limit == s.f.limit >= 0 && s'.f.closed == s.f.closed
    requires CanAct(s.threads[t]) && Rank(x) < Rank(s.threads[t])
    ensures 0 <= s'.f.limit && Load(s') < Load(s)
  {
    SumUpdate(Inside, s.threads, t, x);
    SumUpdate(Rank, s.threads, t, x);
    if x.Outside? { LoadDrops(s, s'); }
  }

  lemma LostDialDrops(s: Sys, t: nat, code: int, s': Sys)
    requires Inv(s) && Step(s, DialFail(t, code), s')
    ensures 0 <= s'.f.limit && Load(s') < Load(s)
  {
    PoolOnlyShrinks(s, DialFail(t, code), s');
    SumWakeAll(Inside, s.threads);
    SumUpdate(Inside, WakeAll(s.threads), t, s'.threads[t]);
    LoadDrops(s, s');
  }

  lemma ReleaseDrops(s: Sys, t: nat, broken: bool, w: nat, s': Sys)
    requires Inv(s) && Step(s, Release(t, broken, w), s')
    ensures 0 <= s'.f.limit && Load(s') < Load(s)
  {
    var left := s.threads[t := Outside];
    SumUpdate(Inside, s.threads, t, Outside);
    SumWakeAll(Inside, left);
    if AnyAsleep(left) && w < |left| { SumUpdate(Inside, left, w, Woken); }
    LoadDrops(s, s');
  }

  lemma CloseDrops(s: Sys, s': Sys)
    requires Inv(s) && Step(s, CloseAll, s') && !s.f.closed
    ensures 0 <= s'.f.limit && Load(s') < Load(s)
  {
    SumWakeAll(Inside, s.threads);
    LoadDrops(s, s');
  }

  lemma DrainStep(s: Sys, e: Event, s': Sys)
    requires Inv(s) && Step(s, e, s') && IsDrain(s, e)
    ensures 0 <= s'.f.limit && Load(s') < Load(s)
  {
    match e
    case Resume(t) => MoveDrops(s, s', t, s'.threads[t]);
    case DialOk(t, c) => MoveDrops(s, s', t, s'.threads[t]);
    case DialFail(t, code) => LostDialDrops(s, t, code, s');
    case Release(t, broken, w) => ReleaseDrops(s, t, broken, w, s');
    case CloseAll => CloseDrops(s, s');
  }

  lemma SomebodyCanAct(s: Sys) returns (i: nat)
    requires Inv(s) && exists t <- s.threads :: !t.Outside?
    ensures i < |s.threads| && CanAct(s.threads[i])
  {
    if AnyAsleep(s.threads) {
      SleeperIsNotAlone(s);
      i :| i < |s.threads| && CanAct(s.threads[i]);
    } else {
      var t :| t in s.threads && !t.Outside?;
      i :| i < |s.threads| && s.threads[i] == t;
    }
  }

  // While anybody is inside, somebody there can take a step.
  lemma DrainGoesOn(s: Sys)
    requires Inv(s) && exists t <- s.threads :: !t.Outside?
    ensures exists e: Event, s' :: !e.CloseAll? && IsDrain(s, e) && Step(s, e, s')
  {
    var i := SomebodyCanAct(s);
    match s.threads[i]
    case Woken => assert Step(s, Resume(i), AfterTurn(s, i, true));
    case Dialing(waited) =>
      var r := DialLost(s.f, waited, 0);
      assert Step(s, DialFail(i, 0), s.(f := r.after, threads := WakeAll(s.threads)[i := Arrive(r.move, waited)]));
    case Holding(c) =>
      var r := Released(s.f, c, true);
      assert Step(s, Release(i, true, 0), s.(f := r.after, threads := WakeAll(s.threads[i := Outside]),
                                             closing := s.closing + multiset(r.shut)));
  }

  ghost predicate IsDrainRun(states: seq<Sys>, events: seq<Event>) {
    |states| == |events| + 1 && Inv(states[0]) &&
    forall k | 0 <= k < |events| :: IsDrain(states[k], events[k]) && Step(states[k], events[k], states[k + 1])
  }

  lemma {:induction false} DrainRun(states: seq<Sys>, events: seq<Event>, k: nat)
    requires IsDrainRun(states, events) && k < |states|
    ensures Inv(states[k]) && Load(states[k]) + k <= Load(states[0])
  {
    if k == 0 {
    } else {
      DrainRun(states, events, k - 1);
      StepKeepsInv(states[k - 1], events[k - 1], states[k]);
      DrainStep(states[k - 1], events[k - 1], states[k]);
    }
  }

  // No permanent hang: from any reachable state, if no new caller comes in, the
  // threads inside can take at most Load steps in whatever order, the pool being
  // closed meanwhile or not, and when none of them has a step left to take,
  // every one has returned.
  lemma PoolDrains(states: seq<Sys>, events: seq<Event>)
    requires IsDrainRun(states, events)
    ensures |events| <= Load(states[0])
    ensures (forall e: Event, s' :: IsDrain(states[|events|], e) && !e.CloseAll? ==> !Step(states[|events|], e, s')) ==>
              forall t <- states[|events|].threads :: t.Outside?
  {
    var last := states[|events|];
    DrainRun(states, events, |events|);
    if exists t <- last.threads :: !t.Outside? { DrainGoesOn(last); }
  }
}
