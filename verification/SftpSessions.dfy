// transferSession: a large SFTP transfer takes a slot, then a session of its
// own from a pool as large as there are slots.
module SftpSessions {
  import opened Sums
  import opened ConnPool
  import opened ConnPoolProtocol

  // slots[t]: thread t has taken a slot, until its release function gives it back.
  datatype Client = Client(pool: Sys, slots: seq<bool>)

  datatype SlotEvent = TakeSlot(t: nat) | FreeSlot(t: nat) | InPool(e: Event)

  function Taken(slot: bool): nat { if slot then 1 else 0 }

  // A slot is taken before the pool is entered, and given back once the
  // session has been released, or was never had.
  ghost predicate ClientStep(n: nat, s: Client, e: SlotEvent, s': Client) {
    match e
    case TakeSlot(t) => t < |s.slots| && !s.slots[t] && Sum(Taken, s.slots) < n && s' == s.(slots := s.slots[t := true])
    case FreeSlot(t) =>
      t < |s.slots| == |s.pool.threads| && s.slots[t] && s.pool.threads[t].Outside? && s' == s.(slots := s.slots[t := false])
    case InPool(p) =>
      Step(s.pool, p, s'.pool) && s'.slots == s.slots && !p.TryIdle? && (p.Enter? ==> p.t < |s.slots| && s.slots[p.t])
  }

  ghost predicate SlotInv(n: nat, s: Client) {
    && |s.slots| == |s.pool.threads| && Sum(Taken, s.slots) <= n
    && (forall t | 0 <= t < |s.slots| :: !s.pool.threads[t].Outside? ==> s.slots[t])
    && (s.pool.f.limit == n || s.pool.f.capped)
  }

  // Only Enter brings a thread into the pool.
  ghost predicate NobodyNew(s: Sys, e: Event, s': Sys) {
    |s'.threads| == |s.threads| &&
    forall t | 0 <= t < |s.threads| :: !s'.threads[t].Outside? ==> !s.threads[t].Outside? || (e.Enter? && e.t == t)
  }

  lemma OnlyEntersByEnter(s: Sys, e: Event, s': Sys)
    requires Step(s, e, s') && !e.TryIdle?
    ensures NobodyNew(s, e, s')
  {
    match e
    case Enter(_) =>
    case Resume(_) =>
    case DialOk(_, _) =>
    case DialFail(_, _) =>
    case Release(_, _, _) =>
    case CloseAll =>
    case Close(_) =>
  }

  // The limit changes only together with the cap notice.
  lemma LimitKept(s: Sys, e: Event, s': Sys)
    requires Step(s, e, s')
    ensures s'.f.capped || (s'.f.limit == s.f.limit && !s.f.capped)
  {
  }

  lemma StepKeepsSlots(n: nat, s: Client, e: SlotEvent, s': Client)
    requires SlotInv(n, s) && ClientStep(n, s, e, s')
    ensures SlotInv(n, s')
  {
    match e
    case TakeSlot(t) => SumUpdate(Taken, s.slots, t, true);
    case FreeSlot(t) => SumUpdate(Taken, s.slots, t, false);
    case InPool(p) =>
      OnlyEntersByEnter(s.pool, p, s'.pool);
      LimitKept(s.pool, p, s'.pool);
  }

  ghost predicate IsClientRun(n: nat, states: seq<Client>, events: seq<SlotEvent>) {
    && |states| == |events| + 1 && InitialAt(states[0].pool, n)
    && |states[0].slots| == |states[0].pool.threads| && (forall x <- states[0].slots :: !x)
    && forall k | 0 <= k < |events| :: ClientStep(n, states[k], events[k], states[k + 1])
  }

  lemma {:induction false} ClientRunInvariant(n: nat, states: seq<Client>, events: seq<SlotEvent>, k: nat)
    requires n > 0 && IsClientRun(n, states, events) && k < |states|
    ensures Inv(states[k].pool) && SlotInv(n, states[k])
  {
    if k == 0 {
      InitialInv(states[0].pool);
      SumIsZero(Taken, states[0].slots);
      forall t | 0 <= t < |states[0].slots| ensures states[0].pool.threads[t].Outside? {
        assert states[0].pool.threads[t] in states[0].pool.threads;
      }
    } else {
      ClientRunInvariant(n, states, events, k - 1);
      var s, e, s' := states[k - 1], events[k - 1], states[k];
      assert ClientStep(n, s, e, s');
      if e.InPool? { StepKeepsInv(s.pool, e.e, s'.pool); }
      StepKeepsSlots(n, s, e, s');
    }
  }

  function Waits(t: Thread): nat { if t.Asleep? then 1 else 0 }

  // Everyone in the pool has a slot.
  lemma {:induction false} InsideHaveSlots(threads: seq<Thread>, slots: seq<bool>)
    requires |slots| == |threads| && forall t | 0 <= t < |slots| :: !threads[t].Outside? ==> slots[t]
    ensures Sum(AnyHolding, threads) + Sum(IsDialing, threads) + Sum(IsWoken, threads) + Sum(Waits, threads) <= Sum(Taken, slots)
  {
    if threads == [] {
    } else {
      InsideHaveSlots(threads[1..], slots[1..]);
    }
  }

  // Large transfers are never more than there are slots, and with a slot none
  // ever waits for a session, unless the server has refused to open one.
  lemma SlotMeansNoWaiting(n: nat, states: seq<Client>, events: seq<SlotEvent>, k: nat)
    requires n > 0 && IsClientRun(n, states, events) && k < |states|
    ensures Sum(AnyHolding, states[k].pool.threads) <= n
    ensures AnyAsleep(states[k].pool.threads) ==> states[k].pool.f.capped
  {
    var s := states[k];
    ClientRunInvariant(n, states, events, k);
    InsideHaveSlots(s.pool.threads, s.slots);
    if i :| 0 <= i < |s.pool.threads| && s.pool.threads[i].Asleep? {
      SumUpdate(Waits, s.pool.threads, i, Outside);
    }
  }
}
