// deadlineTracker: one connection deadline shared by concurrent operations.
module Deadline {
  // Zero is no deadline at all.
  type Instant = nat

  datatype Fields = Fields(active: map<nat, Instant>, nextId: nat, deadline: Instant)

  datatype Event = Begin(expires: Instant) | End(op: nat)

  ghost predicate IsLatest(active: map<nat, Instant>, t: Instant) {
    && (forall i <- active :: active[i] <= t)
    && (if active == map[] then t == 0 else exists i <- active :: active[i] == t)
  }

  // The operations are numbered as they begin, and none expires at zero.
  ghost predicate Numbered(f: Fields) {
    forall i <- f.active :: i < f.nextId && f.active[i] > 0
  }

  ghost predicate Step(f: Fields, e: Event, g: Fields) {
    match e
    case Begin(expires) =>
      expires > 0 && g.active == f.active[f.nextId := expires] && g.nextId == f.nextId + 1 && IsLatest(g.active, g.deadline)
    case End(op) =>
      op < f.nextId && g.nextId == f.nextId &&
      if op in f.active then g.active == f.active - {op} && IsLatest(g.active, g.deadline) else g == f
  }

  class DeadlineTracker {
    var active: map<nat, Instant>
    var nextId: nat
    var deadline: Instant    // of the connection

    function State(): Fields
      reads this
    {
      Fields(active, nextId, deadline)
    }

    constructor ()
      ensures State() == Fields(map[], 0, 0)
    {
      active, nextId, deadline := map[], 0, 0;
    }

    method Begin(now: Instant, budget: nat) returns (op: Operation)
      requires now > 0 && Numbered(State())
      modifies this
      ensures Step(old(State()), Event.Begin(now + budget), State()) && Numbered(State())
      ensures fresh(op) && op.tracker == this && op.id == old(nextId) && !op.ended
    {
      var id := nextId;
      nextId := nextId + 1;
      active := active[id := now + budget];
      Apply();
      op := new Operation(this, id);
    }

    // Sets the connection's deadline to the latest one registered, or clears it.
    method Apply()
      requires Numbered(State())
      modifies this`deadline
      ensures IsLatest(active, deadline)
    {
      var latest: Instant := 0;
      var left := active.Keys;
      while left != {}
        invariant left <= active.Keys
        invariant forall i <- active.Keys - left :: active[i] <= latest
        invariant latest == 0 <==> left == active.Keys
        invariant latest > 0 ==> exists i <- active.Keys - left :: active[i] == latest
      {
        var i :| i in left;
        if active[i] > latest { latest := active[i]; }
        left := left - {i};
      }
      deadline := latest;
    }
  }

  // What Begin hands out to unregister an operation; only its first call counts.
  class Operation {
    const tracker: DeadlineTracker
    const id: nat
    var ended: bool

    constructor (tracker: DeadlineTracker, id: nat)
      ensures this.tracker == tracker && this.id == id && !ended
    {
      this.tracker, this.id, ended := tracker, id, false;
    }

    method End()
      requires Numbered(tracker.State()) && id < tracker.nextId && (ended <==> id !in tracker.active)
      modifies this, tracker
      ensures ended && Step(old(tracker.State()), Event.End(id), tracker.State()) && Numbered(tracker.State())
    {
      if ended { return; }
      ended := true;
      tracker.active := tracker.active - {id};
      tracker.Apply();
    }
  }

  // ---- Over any interleaving ----

  ghost predicate IsRun(states: seq<Fields>, events: seq<Event>) {
    |states| == |events| + 1 && states[0] == Fields(map[], 0, 0) &&
    forall k | 0 <= k < |events| :: Step(states[k], events[k], states[k + 1])
  }

  // When each operation of a history is due, in the order they began.
  function Begun(h: seq<Event>): seq<Instant> {
    if h == [] then []
    else
      var e := h[|h| - 1];
      Begun(h[..|h| - 1]) + if e.Begin? then [e.expires] else []
  }

  // Begun, and not yet ended by any call.
  function InFlight(h: seq<Event>): map<nat, Instant> {
    map op | 0 <= op < |Begun(h)| && End(op) !in h :: Begun(h)[op]
  }

  lemma OneMoreEvent(h: seq<Event>, e: Event)
    requires forall op: nat :: End(op) in h ==> op < |Begun(h)|
    ensures Begun(h + [e]) == Begun(h) + if e.Begin? then [e.expires] else []
    ensures InFlight(h + [e]) == if e.Begin? then InFlight(h)[|Begun(h)| := e.expires] else InFlight(h) - {e.op}
  {
    assert (h + [e])[..|h|] == h;
  }

  lemma {:induction false} HistoryOfRun(states: seq<Fields>, events: seq<Event>, k: nat)
    requires IsRun(states, events) && k < |states|
    ensures states[k].active == InFlight(events[..k]) && states[k].nextId == |Begun(events[..k])|
    ensures forall op: nat :: End(op) in events[..k] ==> op < |Begun(events[..k])|
  {
    if k == 0 {
    } else {
      HistoryOfRun(states, events, k - 1);
      assert Step(states[k - 1], events[k - 1], states[k]);
      assert events[..k] == events[..k - 1] + [events[k - 1]];
      OneMoreEvent(events[..k - 1], events[k - 1]);
    }
  }

  // However begins and repeated ends interleave, the connection's deadline is
  // the latest one among the operations in flight, or cleared if there is none.
  lemma DeadlineIsLatestInFlight(states: seq<Fields>, events: seq<Event>, k: nat)
    requires IsRun(states, events) && k < |states|
    ensures IsLatest(InFlight(events[..k]), states[k].deadline)
  {
    HistoryOfRun(states, events, k);
    if k > 0 {
      LatestKept(states, events, k);
    }
  }

  lemma {:induction false} LatestKept(states: seq<Fields>, events: seq<Event>, k: nat)
    requires IsRun(states, events) && k < |states|
    ensures IsLatest(states[k].active, states[k].deadline)
  {
    if k == 0 {
    } else {
      LatestKept(states, events, k - 1);
      assert Step(states[k - 1], events[k - 1], states[k]);
    }
  }

  // No operation is cut short by another: the connection is good at least
  // until the operation's own deadline.
  lemma NeverCutShort(states: seq<Fields>, events: seq<Event>, k: nat, op: nat)
    requires IsRun(states, events) && k < |states|
    requires op < |Begun(events[..k])| && End(op) !in events[..k]
    ensures states[k].deadline >= Begun(events[..k])[op]
  {
    DeadlineIsLatestInFlight(states, events, k);
    assert op in InFlight(events[..k]);
  }
}
