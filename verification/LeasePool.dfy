// ConnectionPool: one shared client per profile, lent out through leases. A
// client found dead or out of date is retired, and closed by its last lease.
//
// Entries and clients are named by an id, in tables beside the map of
// connections; a client that lost the race to be installed has no entry.
module LeasePool {
  import opened Options

  type Id = nat

  // trusted: lastOK is not zero.
  datatype Entry = Entry(name: string, users: int, retired: bool, trusted: bool)

  datatype Fields = Fields(connections: map<string, Id>, entries: map<Id, Entry>, closes: map<Id, nat>)

  // What a profile says on where and how to connect, and the rest. The host key
  // is verified unless that is switched off.
  datatype Profile = Profile(host: string, port: int, username: string, password: string, sshKey: string, protocol: string,
                             ftpConnections: int, tlsCaCert: string, verifyHostKey: Option<bool>, rest: seq<string>)

  // The map holds exactly the unretired entries, each under its own name.
  ghost predicate Mapped(f: Fields) {
    && (forall n <- f.connections ::
          f.connections[n] in f.entries && f.entries[f.connections[n]].name == n && !f.entries[f.connections[n]].retired)
    && (forall i <- f.entries :: i in f.closes && (!f.entries[i].retired ==> IsCurrent(f, i)))
  }

  // Does the map hold entry i?
  predicate IsCurrent(f: Fields, i: Id)
    requires i in f.entries
  {
    f.entries[i].name in f.connections && f.connections[f.entries[i].name] == i
  }

  predicate Live(f: Fields, name: string) {
    name in f.connections && f.connections[name] in f.entries && !f.entries[f.connections[name]].retired
  }

  function Borrow(f: Fields, i: Id): Fields
    requires i in f.entries
  {
    f.(entries := f.entries[i := f.entries[i].(users := f.entries[i].users + 1)])
  }

  function Shut(f: Fields, i: Id): map<Id, nat>
    requires i in f.closes
  {
    f.closes[i := f.closes[i] + 1]
  }

  // releaseLocked: the last lease of a retired entry closes its client.
  function GiveBack(f: Fields, i: Id, failed: bool): Fields
    requires i in f.entries && i in f.closes
  {
    var e := f.entries[i].(users := f.entries[i].users - 1, trusted := !failed);
    f.(entries := f.entries[i := e], closes := if e.retired && e.users == 0 then Shut(f, i) else f.closes)
  }

  // retire: only an entry nobody leases is closed at once.
  function Retire(f: Fields, i: Id): Fields
    requires i in f.entries && i in f.closes
  {
    var e := f.entries[i];
    Fields(if IsCurrent(f, i) then f.connections - {e.name} else f.connections,
           f.entries[i := e.(retired := true)],
           if !e.retired && e.users == 0 then Shut(f, i) else f.closes)
  }

  function RetireNamed(f: Fields, n: string): Fields {
    if n in f.connections && f.connections[n] in f.entries && f.connections[n] in f.closes then Retire(f, f.connections[n]) else f
  }

  // A probe has answered.
  function Trust(f: Fields, i: Id): Fields
    requires i in f.entries
  {
    f.(entries := f.entries[i := f.entries[i].(trusted := true)])
  }

  // CloseAll's step for one entry.
  function Discard(f: Fields, i: Id): Fields
    requires i in f.entries && i in f.closes
  {
    f.(entries := f.entries[i := f.entries[i].(retired := true)], closes := Shut(f, i))
  }

  // Acquire after its dial: share what a racing caller has installed and close
  // the new client i, or install it with a first lease.
  function Install(f: Fields, name: string, i: Id): Fields {
    if Live(f, name) then Borrow(f, f.connections[name]).(closes := f.closes[i := 1])
    else Fields(f.connections[name := i], f.entries[i := Entry(name, 1, false, true)], f.closes[i := 0])
  }

  // Is i the current entry of one of these profiles?
  predicate Dropped(f: Fields, names: set<string>, i: Id)
    requires i in f.entries
  {
    f.entries[i].name in names && IsCurrent(f, i)
  }

  // UpdateProfiles retires the current entries of these profiles.
  function Reloaded(f: Fields, names: set<string>): Fields {
    Fields(map n | n in f.connections && n !in names :: f.connections[n],
           map i | i in f.entries :: if Dropped(f, names, i) then f.entries[i].(retired := true) else f.entries[i],
           map i | i in f.closes ::
             f.closes[i] + if i in f.entries && Dropped(f, names, i) && f.entries[i].users == 0 then 1 else 0)
  }

  // CloseAll's loop over these profiles: retired and closed, leased or not.
  function Closing(f: Fields, names: set<string>): Fields {
    f.(entries := map i | i in f.entries :: if Dropped(f, names, i) then f.entries[i].(retired := true) else f.entries[i],
       closes := map i | i in f.closes :: f.closes[i] + if i in f.entries && Dropped(f, names, i) then 1 else 0)
  }

  function AllClosed(f: Fields): Fields {
    Closing(f, f.connections.Keys).(connections := map[])
  }

  predicate Verifies(p: Profile) {
    p.verifyHostKey.None? || p.verifyHostKey.value
  }

  // profileChanged
  predicate HasChanged(p: Profile, q: Profile) {
    || p.host != q.host
    || p.port != q.port
    || p.username != q.username
    || p.password != q.password
    || p.sshKey != q.sshKey
    || p.protocol != q.protocol
    || p.ftpConnections != q.ftpConnections
    || p.tlsCaCert != q.tlsCaCert
    || Verifies(p) != Verifies(q)
  }

  // Two profiles connect alike: one is the other but for the rest and for how
  // it says whether to verify the host key.
  ghost predicate ConnectAlike(p: Profile, q: Profile) {
    && q == p.(rest := q.rest, verifyHostKey := q.verifyHostKey)
    && (p.verifyHostKey == Some(false) <==> q.verifyHostKey == Some(false))
  }

  // Does a reload remove this profile or change its connection settings?
  predicate IsStale(profile: Profile, name: string, profiles: map<string, Profile>) {
    name !in profiles || HasChanged(profile, profiles[name])
  }

  function Stale(before: map<string, Profile>, after: map<string, Profile>): set<string> {
    set n | n in before && IsStale(before[n], n, after)
  }

  lemma ReloadedOneMore(f: Fields, names: set<string>, n: string)
    requires Mapped(f) && n !in names
    ensures Reloaded(f, names + {n}) == RetireNamed(Reloaded(f, names), n)
  {
    var g, h := Reloaded(f, names), Reloaded(f, names + {n});
    if n in f.connections {
      var i := f.connections[n];
      assert IsCurrent(g, i) && g.entries[i] == f.entries[i] && g.closes[i] == f.closes[i];
      assert h.connections == g.connections - {n};
      assert h.entries == g.entries[i := g.entries[i].(retired := true)];
      assert h.closes == if g.entries[i].users == 0 then Shut(g, i) else g.closes;
    } else {
      assert h.connections == g.connections;
      assert h.entries == g.entries;
      assert h.closes == g.closes;
    }
  }

  lemma ReloadStep(f: Fields, stale: set<string>, done: set<string>, n: string)
    requires Mapped(f) && n !in done
    ensures var g := Reloaded(f, done * stale);
            && (n in g.connections ==> g.connections[n] in g.entries && g.connections[n] in g.closes)
            && Reloaded(f, (done + {n}) * stale) == if n in stale then RetireNamed(g, n) else g
  {
    if n in stale {
      assert (done + {n}) * stale == done * stale + {n};
      ReloadedOneMore(f, done * stale, n);
    } else {
      assert (done + {n}) * stale == done * stale;
    }
  }

  lemma ClosingOneMore(f: Fields, names: set<string>, n: string)
    requires Mapped(f) && n !in names && n in f.connections
    ensures var g, i := Closing(f, names), f.connections[n];
            i in g.entries && i in g.closes &&
            Closing(f, names + {n}) == Discard(g, i)
  {
    var g, i := Closing(f, names), f.connections[n];
    assert !Dropped(f, names, i);
    assert Closing(f, names + {n}).entries == g.entries[i := g.entries[i].(retired := true)];
    assert Closing(f, names + {n}).closes == Shut(g, i);
  }

  lemma NothingDropped(f: Fields)
    ensures Reloaded(f, {}) == f && Closing(f, {}) == f
  {
    assert Reloaded(f, {}).connections == f.connections;
    assert Reloaded(f, {}).entries == f.entries;
    assert Reloaded(f, {}).closes == f.closes;
  }

  class ConnectionPool {
    var connections: map<string, Id>
    var entries: map<Id, Entry>
    var closes: map<Id, nat>
    var profiles: map<string, Profile>

    function State(): Fields
      reads this
    {
      Fields(connections, entries, closes)
    }

    constructor (profiles: map<string, Profile>)
      ensures State() == Fields(map[], map[], map[]) && this.profiles == profiles && Mapped(State())
    {
      connections, entries, closes, this.profiles := map[], map[], map[], profiles;
    }

    method CloseClient(i: Id)
      requires i in closes
      modifies this`closes
      ensures closes == Shut(old(State()), i)
    {
      closes := closes[i := closes[i] + 1];
    }

    // Acquire, first section: lease the entry in the map, and say whether it
    // still has to be probed.
    method LeaseExisting(name: string, recent: bool) returns (found: bool, probe: bool)
      requires Mapped(State())
      modifies this
      ensures found == (name in old(connections))
      ensures probe == (found && !(recent && old(entries[connections[name]].trusted)))
      ensures State() == if found then Borrow(old(State()), old(connections)[name]) else old(State())
      ensures profiles == old(profiles)
    {
      if name in connections && !entries[connections[name]].retired {
        var i := connections[name];
        entries := entries[i := entries[i].(users := entries[i].users + 1)];
        return true, !(recent && entries[i].trusted);
      }
      return false, false;
    }

    // Acquire, second section: the probe of entry i succeeded, or failed.
    method ProbeAnswered(i: Id)
      requires i in entries
      modifies this
      ensures State() == Trust(old(State()), i) && profiles == old(profiles)
    {
      entries := entries[i := entries[i].(trusted := true)];
    }

    method ProbeFailed(i: Id)
      requires i in entries && i in closes
      modifies this
      ensures State() == GiveBack(Retire(old(State()), i), i, false) && profiles == old(profiles)
    {
      RetireEntry(i);
      ReleaseLocked(i, false);
    }

    method RetireEntry(i: Id)
      requires i in entries && i in closes
      modifies this
      ensures State() == Retire(old(State()), i) && profiles == old(profiles)
    {
      var name := entries[i].name;
      if name in connections && connections[name] == i { connections := connections - {name}; }
      if !entries[i].retired {
        entries := entries[i := entries[i].(retired := true)];
        if entries[i].users == 0 { CloseClient(i); }
      }
      assert entries == old(Retire(State(), i).entries);
    }

    method ReleaseLocked(i: Id, failed: bool)
      requires i in entries && i in closes
      modifies this
      ensures State() == GiveBack(old(State()), i, failed) && profiles == old(profiles)
    {
      entries := entries[i := entries[i].(users := entries[i].users - 1, trusted := !failed)];
      if entries[i].retired && entries[i].users == 0 { CloseClient(i); }
    }

    // Acquire, last section: i is the client just dialed for this profile.
    method InstallClient(name: string, i: Id) returns (leased: Id)
      requires Mapped(State()) && i !in closes
      modifies this
      ensures State() == Install(old(State()), name, i) && profiles == old(profiles)
      ensures Live(State(), name) && leased == connections[name]
    {
      if name in connections && !entries[connections[name]].retired {
        leased := connections[name];
        entries := entries[leased := entries[leased].(users := entries[leased].users + 1)];
        closes := closes[i := 0];
        CloseClient(i);
        return;
      }
      connections, entries, closes := connections[name := i], entries[i := Entry(name, 1, false, true)], closes[i := 0];
      return i;
    }

    method DropProfile(n: string)
      requires n in connections ==> connections[n] in entries && connections[n] in closes
      modifies this
      ensures State() == RetireNamed(old(State()), n) && profiles == old(profiles)
    {
      if n in connections { RetireEntry(connections[n]); }
    }

    method DropIfStale(n: string, profile: Profile, newProfiles: map<string, Profile>,
                       ghost before: Fields, ghost stale: set<string>, ghost done: set<string>)
      requires Mapped(before) && n !in done && (n in stale <==> IsStale(profile, n, newProfiles))
      requires State() == Reloaded(before, done * stale)
      modifies this
      ensures State() == Reloaded(before, (done + {n}) * stale) && profiles == old(profiles)
    {
      ReloadStep(before, stale, done, n);
      if IsStale(profile, n, newProfiles) { DropProfile(n); }
    }

    method UpdateProfiles(newProfiles: map<string, Profile>)
      requires Mapped(State())
      modifies this
      ensures State() == Reloaded(old(State()), Stale(old(profiles), newProfiles)) && profiles == newProfiles
      ensures forall n <- old(profiles) :: n in old(connections) ==>
                var i := old(connections)[n];
                if n in newProfiles && ConnectAlike(old(profiles)[n], newProfiles[n]) then
                  n in connections && connections[n] == i && entries[i] == old(entries[i]) && closes[i] == old(closes[i])
                else
                  && n !in connections && i in entries && entries[i] == old(entries[i]).(retired := true)
                  && i in closes && closes[i] == old(closes[i]) + if old(entries[i]).users == 0 then 1 else 0
      ensures forall n <- old(connections) :: n !in old(profiles) ==>
                var i := old(connections)[n];
                n in connections && connections[n] == i && entries[i] == old(entries[i]) && closes[i] == old(closes[i])
      ensures connections.Keys <= old(connections).Keys && entries.Keys == old(entries).Keys && closes.Keys == old(closes).Keys
      ensures forall i <- entries :: old(entries[i]).retired ==> entries[i] == old(entries[i]) && closes[i] == old(closes[i])
    {
      RetireStale(profiles, newProfiles, Stale(profiles, newProfiles));
      profiles := newProfiles;
    }

    method RetireStale(olds: map<string, Profile>, newProfiles: map<string, Profile>, ghost stale: set<string>)
      requires Mapped(State()) && stale <= olds.Keys
      requires forall n <- olds :: n in stale <==> IsStale(olds[n], n, newProfiles)
      modifies this
      ensures State() == Reloaded(old(State()), stale) && profiles == old(profiles)
    {
      ghost var before, done := State(), {};
      var left := olds.Keys;
      NothingDropped(before);
      while left != {}
        invariant left <= olds.Keys && done == olds.Keys - left
        invariant State() == Reloaded(before, done * stale) && profiles == old(profiles)
      {
        var n :| n in left;
        DropIfStale(n, olds[n], newProfiles, before, stale, done);
        left, done := left - {n}, done + {n};
      }
      assert done * stale == stale;
    }

    method DiscardEntry(i: Id)
      requires i in entries && i in closes
      modifies this
      ensures State() == Discard(old(State()), i) && profiles == old(profiles)
    {
      entries := entries[i := entries[i].(retired := true)];
      CloseClient(i);
    }

    method CloseAll()
      requires Mapped(State())
      modifies this
      ensures State() == AllClosed(old(State())) && profiles == old(profiles)
    {
      ghost var before := State();
      var left, done: set<string> := connections.Keys, {};
      NothingDropped(before);
      while left != {}
        invariant left !! done && left + done == connections.Keys && connections == before.connections
        invariant State() == Closing(before, done) && profiles == old(profiles)
      {
        var n :| n in left;
        ClosingOneMore(before, done, n);
        DiscardEntry(connections[n]);
        left, done := left - {n}, done + {n};
      }
      connections := map[];
    }
  }

  // The function an Acquire hands out to end its lease. Only its first call counts.
  class Releaser {
    const pool: ConnectionPool
    const entry: Id
    var done: bool

    constructor (pool: ConnectionPool, entry: Id)
      ensures this.pool == pool && this.entry == entry && !done
    {
      this.pool, this.entry, done := pool, entry, false;
    }

    method Call(failed: bool)
      requires entry in pool.entries && entry in pool.closes
      modifies this, pool
      ensures done && pool.State() == if old(done) then old(pool.State()) else GiveBack(old(pool.State()), entry, failed)
    {
      if done { return; }
      done := true;
      pool.ReleaseLocked(entry, failed);
    }
  }
}

// Any number of users, probes, dials, reloads and releases in any order.
module LeaseProtocol {
  import opened Sums
  import opened LeasePool

  datatype Thread =
    | Outside
    | Probing(id: Id)          // IsAlive on a leased entry, outside the lock
    | Looking(name: string)                   // wants the lock again, to look up the profile
    | Dialing(name: string, profile: Profile) // Connect, outside the lock
    | Leasing(id: Id)

  // profiles: those of the pool; dialed: the one each client was dialed with.
  datatype State = State(pool: Fields, threads: seq<Thread>, profiles: map<string, Profile>, dialed: map<Id, Profile>)

  datatype Event =
    | Enter(t: nat, name: string, recent: bool)
    | ProbeOk(t: nat)
    | ProbeDead(t: nat)
    | Look(t: nat)
    | DialOk(t: nat, id: Id)
    | DialFail(t: nat)
    | Release(t: nat, failed: bool)
    | Reload(profiles: map<string, Profile>)
    | CloseAll

  predicate Enabled(s: State, e: Event) {
    match e
    case Enter(t, _, _) => t < |s.threads| && s.threads[t].Outside?
    case ProbeOk(t) => t < |s.threads| && s.threads[t].Probing? && s.threads[t].id in s.pool.entries
    case ProbeDead(t) =>
      t < |s.threads| && s.threads[t].Probing? && s.threads[t].id in s.pool.entries && s.threads[t].id in s.pool.closes
    case Look(t) => t < |s.threads| && s.threads[t].Looking?
    case DialOk(t, id) => t < |s.threads| && s.threads[t].Dialing? && id !in s.pool.closes && id !in s.pool.entries
    case DialFail(t) => t < |s.threads| && s.threads[t].Dialing?
    case Release(t, _) =>
      t < |s.threads| && s.threads[t].Leasing? && s.threads[t].id in s.pool.entries && s.threads[t].id in s.pool.closes
    case Reload(_) => true
    case CloseAll => NobodyLeases(s.pool)
  }

  // Shutdown comes after the users have stopped.
  predicate NobodyLeases(f: Fields) {
    forall n <- f.connections :: f.connections[n] in f.entries ==> f.entries[f.connections[n]].users == 0
  }

  // Acquire once it has no lease: dial, unless the profile is gone.
  function Onward(s: State, name: string): Thread {
    if name in s.profiles then Dialing(name, s.profiles[name]) else Outside
  }

  function Next(s: State, e: Event): State
    requires Enabled(s, e)
  {
    match e
    case Enter(t, name, recent) =>
      if Live(s.pool, name) then
        var id := s.pool.connections[name];
        s.(pool := Borrow(s.pool, id),
           threads := s.threads[t := if recent && s.pool.entries[id].trusted then Leasing(id) else Probing(id)])
      else s.(threads := s.threads[t := Onward(s, name)])
    case ProbeOk(t) =>
      var id := s.threads[t].id;
      s.(pool := Trust(s.pool, id), threads := s.threads[t := Leasing(id)])
    case ProbeDead(t) =>
      var id := s.threads[t].id;
      s.(pool := GiveBack(Retire(s.pool, id), id, false), threads := s.threads[t := Looking(s.pool.entries[id].name)])
    case Look(t) => s.(threads := s.threads[t := Onward(s, s.threads[t].name)])
    case DialOk(t, id) =>
      var f := Install(s.pool, s.threads[t].name, id);
      s.(pool := f, threads := s.threads[t := Leasing(f.connections[s.threads[t].name])],
         dialed := s.dialed[id := s.threads[t].profile])
    case DialFail(t) => s.(threads := s.threads[t := Outside])
    case Release(t, failed) => s.(pool := GiveBack(s.pool, s.threads[t].id, failed), threads := s.threads[t := Outside])
    case Reload(profiles) => s.(pool := Reloaded(s.pool, Stale(s.profiles, profiles)), profiles := profiles)
    case CloseAll => s.(pool := AllClosed(s.pool))
  }

  // ---- The invariant ----

  function Uses(id: Id): Thread -> nat {
    (t: Thread) => if t == Leasing(id) || t == Probing(id) then 1 else 0
  }

  // A client is closed exactly when it is retired and nobody leases it, and
  // one that was never installed has been closed at once; never twice.
  predicate ClosedOnce(f: Fields) {
    f.entries.Keys <= f.closes.Keys &&
    forall i <- f.closes :: f.closes[i] == if i !in f.entries || (f.entries[i].retired && f.entries[i].users == 0) then 1 else 0
  }

  ghost predicate Counted(f: Fields, threads: seq<Thread>) {
    && (forall i <- f.entries :: f.entries[i].users == Sum(Uses(i), threads))
    && (forall t <- threads :: t.Leasing? || t.Probing? ==> t.id in f.entries)
  }

  ghost predicate Inv(s: State) {
    Mapped(s.pool) && ClosedOnce(s.pool) && Counted(s.pool, s.threads)
  }

  predicate Initial(s: State) {
    s.pool == Fields(map[], map[], map[]) && s.dialed == map[] && forall t <- s.threads :: t.Outside?
  }

  // ---- Every step keeps it ----

  // f and g agree on who uses which entry.
  predicate SameUsers(f: Fields, g: Fields) {
    f.entries.Keys == g.entries.Keys && forall i <- f.entries :: f.entries[i].users == g.entries[i].users
  }

  // Thread t moves to x, and the entries' counts move with it.
  lemma Recounted(f: Fields, g: Fields, threads: seq<Thread>, t: nat, x: Thread)
    requires Counted(f, threads) && t < |threads| && f.entries.Keys <= g.entries.Keys
    requires forall i <- f.entries :: g.entries[i].users == f.entries[i].users - Uses(i)(threads[t]) + Uses(i)(x)
    requires forall i <- g.entries :: i !in f.entries ==> x == Leasing(i) && g.entries[i].users == 1
    requires x.Leasing? || x.Probing? ==> x.id in g.entries
    ensures Counted(g, threads[t := x])
  {
    forall i | i in g.entries ensures g.entries[i].users == Sum(Uses(i), threads[t := x]) {
      SumUpdate(Uses(i), threads, t, x);
      if i !in f.entries {
        SumIsZero(Uses(i), threads);
      }
    }
  }

  lemma BorrowKeeps(f: Fields, i: Id)
    requires Mapped(f) && ClosedOnce(f) && i in f.entries && !f.entries[i].retired
    ensures Mapped(Borrow(f, i)) && ClosedOnce(Borrow(f, i))
    ensures Borrow(f, i).entries.Keys == f.entries.Keys + {i}
    ensures forall k <- f.entries :: Borrow(f, i).entries[k].users == f.entries[k].users + if k == i then 1 else 0
  {
  }

  lemma TrustKeeps(f: Fields, i: Id)
    requires Mapped(f) && ClosedOnce(f) && i in f.entries
    ensures Mapped(Trust(f, i)) && ClosedOnce(Trust(f, i))
  {
  }

  lemma RetireKeeps(f: Fields, i: Id)
    requires Mapped(f) && ClosedOnce(f) && i in f.entries
    ensures Mapped(Retire(f, i)) && ClosedOnce(Retire(f, i)) && SameUsers(f, Retire(f, i))
  {
  }

  lemma GiveBackKeeps(f: Fields, i: Id, failed: bool)
    requires Mapped(f) && ClosedOnce(f) && i in f.entries && f.entries[i].users > 0
    ensures Mapped(GiveBack(f, i, failed)) && ClosedOnce(GiveBack(f, i, failed))
    ensures GiveBack(f, i, failed).entries.Keys == f.entries.Keys
    ensures forall k <- f.entries :: GiveBack(f, i, failed).entries[k].users == f.entries[k].users - if k == i then 1 else 0
  {
  }

  lemma InstallKeeps(f: Fields, name: string, i: Id)
    requires Mapped(f) && ClosedOnce(f) && i !in f.closes
    ensures Mapped(Install(f, name, i)) && ClosedOnce(Install(f, name, i))
    ensures var g := Install(f, name, i);
            var leased := g.connections[name];
            && leased in g.entries && g.entries.Keys == f.entries.Keys + {leased}
            && (forall k <- f.entries :: g.entries[k].users == f.entries[k].users + if k == leased then 1 else 0)
            && (leased !in f.entries ==> g.entries[leased].users == 1)
  {
    if Live(f, name) { BorrowKeeps(f, f.connections[name]); }
  }

  lemma ReloadKeeps(f: Fields, names: set<string>)
    requires Mapped(f) && ClosedOnce(f)
    ensures Mapped(Reloaded(f, names)) && ClosedOnce(Reloaded(f, names)) && SameUsers(f, Reloaded(f, names))
  {
  }

  lemma CloseAllKeeps(f: Fields)
    requires Mapped(f) && ClosedOnce(f) && NobodyLeases(f)
    ensures Mapped(AllClosed(f)) && ClosedOnce(AllClosed(f)) && SameUsers(f, AllClosed(f))
  {
  }

  lemma SameCounts(f: Fields, g: Fields, threads: seq<Thread>)
    requires Counted(f, threads) && SameUsers(f, g)
    ensures Counted(g, threads)
  {
  }

  lemma InUse(s: State, t: nat)
    requires Inv(s) && t < |s.threads| && (s.threads[t].Probing? || s.threads[t].Leasing?)
    ensures var i := s.threads[t].id; i in s.pool.entries && s.pool.entries[i].users > 0
  {
    var i := s.threads[t].id;
    assert s.threads[t] in s.threads;
    SumUpdate(Uses(i), s.threads, t, Outside);
  }

  lemma EnterKeeps(s: State, t: nat, name: string, recent: bool)
    requires Inv(s) && Enabled(s, Enter(t, name, recent))
    ensures Inv(Next(s, Enter(t, name, recent)))
  {
    var n := Next(s, Enter(t, name, recent));
    if Live(s.pool, name) {
      BorrowKeeps(s.pool, s.pool.connections[name]);
      LeaseBegan(s.pool, n.pool, s.threads, t, n.threads[t]);
    } else {
      Recounted(s.pool, n.pool, s.threads, t, n.threads[t]);
    }
  }

  lemma ProbeOkKeeps(s: State, t: nat)
    requires Inv(s) && Enabled(s, ProbeOk(t))
    ensures Inv(Next(s, ProbeOk(t)))
  {
    var n := Next(s, ProbeOk(t));
    TrustKeeps(s.pool, s.threads[t].id);
    Recounted(s.pool, n.pool, s.threads, t, n.threads[t]);
  }

  // Thread t has got a lease.
  lemma LeaseBegan(f: Fields, g: Fields, threads: seq<Thread>, t: nat, x: Thread)
    requires Counted(f, threads) && t < |threads| && !threads[t].Leasing? && !threads[t].Probing?
    requires (x.Leasing? || x.Probing?) && g.entries.Keys == f.entries.Keys + {x.id}
    requires forall k <- f.entries :: g.entries[k].users == f.entries[k].users + if k == x.id then 1 else 0
    requires x.id !in f.entries ==> x.Leasing? && g.entries[x.id].users == 1
    ensures Counted(g, threads[t := x])
  {
    Recounted(f, g, threads, t, x);
  }

  // Thread t has given its lease back.
  lemma LeaseEnded(f: Fields, g: Fields, threads: seq<Thread>, t: nat, x: Thread)
    requires Counted(f, threads) && t < |threads| && (threads[t].Leasing? || threads[t].Probing?) && !x.Leasing? && !x.Probing?
    requires f.entries.Keys == g.entries.Keys
    requires forall k <- f.entries :: g.entries[k].users == f.entries[k].users - if k == threads[t].id then 1 else 0
    ensures Counted(g, threads[t := x])
  {
    Recounted(f, g, threads, t, x);
  }

  lemma ProbeDeadKeeps(s: State, t: nat)
    requires Inv(s) && Enabled(s, ProbeDead(t))
    ensures Inv(Next(s, ProbeDead(t)))
  {
    var i, n := s.threads[t].id, Next(s, ProbeDead(t));
    InUse(s, t);
    RetireKeeps(s.pool, i);
    GiveBackKeeps(Retire(s.pool, i), i, false);
    LeaseEnded(s.pool, n.pool, s.threads, t, n.threads[t]);
  }

  lemma DialOkKeeps(s: State, t: nat, id: Id)
    requires Inv(s) && Enabled(s, DialOk(t, id))
    ensures Inv(Next(s, DialOk(t, id)))
  {
    var n := Next(s, DialOk(t, id));
    InstallKeeps(s.pool, s.threads[t].name, id);
    LeaseBegan(s.pool, n.pool, s.threads, t, n.threads[t]);
  }

  lemma ReleaseKeeps(s: State, t: nat, failed: bool)
    requires Inv(s) && Enabled(s, Release(t, failed))
    ensures Inv(Next(s, Release(t, failed)))
  {
    var i, n := s.threads[t].id, Next(s, Release(t, failed));
    InUse(s, t);
    GiveBackKeeps(s.pool, i, failed);
    LeaseEnded(s.pool, n.pool, s.threads, t, Outside);
  }

  lemma StepKeepsInv(s: State, e: Event)
    requires Inv(s) && Enabled(s, e)
    ensures Inv(Next(s, e))
  {
    match e
    case Enter(t, name, recent) => EnterKeeps(s, t, name, recent);
    case ProbeOk(t) => ProbeOkKeeps(s, t);
    case ProbeDead(t) => ProbeDeadKeeps(s, t);
    case Look(t) => Recounted(s.pool, s.pool, s.threads, t, Onward(s, s.threads[t].name));
    case DialOk(t, id) => DialOkKeeps(s, t, id);
    case DialFail(t) => Recounted(s.pool, s.pool, s.threads, t, Outside);
    case Release(t, failed) => ReleaseKeeps(s, t, failed);
    case Reload(profiles) =>
      ReloadKeeps(s.pool, Stale(s.profiles, profiles));
      SameCounts(s.pool, Next(s, e).pool, s.threads);
    case CloseAll =>
      CloseAllKeeps(s.pool);
      SameCounts(s.pool, AllClosed(s.pool), s.threads);
  }

  ghost predicate IsRun(states: seq<State>, events: seq<Event>) {
    |states| == |events| + 1 && Initial(states[0]) &&
    forall k | 0 <= k < |events| :: Enabled(states[k], events[k]) && states[k + 1] == Next(states[k], events[k])
  }

  lemma {:induction false} RunKeepsInv(states: seq<State>, events: seq<Event>, k: nat)
    requires IsRun(states, events) && k < |states|
    ensures Inv(states[k])
  {
    if k == 0 {
    } else {
      RunKeepsInv(states, events, k - 1);
      StepKeepsInv(states[k - 1], events[k - 1]);
    }
  }

  // ---- What follows ----

  // In every interleaving a client that some user holds a lease on is open.
  lemma LeasedIsOpen(states: seq<State>, events: seq<Event>, k: nat, t: nat)
    requires IsRun(states, events) && k < |states| && t < |states[k].threads|
    requires states[k].threads[t].Leasing? || states[k].threads[t].Probing?
    ensures var i := states[k].threads[t].id; i in states[k].pool.closes && states[k].pool.closes[i] == 0
  {
    RunKeepsInv(states, events, k);
    InUse(states[k], t);
  }

  // No client is ever closed twice, and once nobody is probing or leasing,
  // every dialed client but the current ones has been closed.
  lemma EveryClientClosedOnce(states: seq<State>, events: seq<Event>, k: nat, i: Id)
    requires IsRun(states, events) && k < |states| && i in states[k].pool.closes
    ensures states[k].pool.closes[i] <= 1
    ensures (forall t <- states[k].threads :: !t.Leasing? && !t.Probing?) ==>
              (states[k].pool.closes[i] == 0 <==> i in states[k].pool.entries && IsCurrent(states[k].pool, i))
  {
    var s := states[k];
    RunKeepsInv(states, events, k);
    if i in s.pool.entries && forall t <- s.threads :: !t.Leasing? && !t.Probing? {
      SumIsZero(Uses(i), s.threads);
    }
  }

  // From f to g entry i stays retired, and gets no new lease.
  predicate StaysRetired(f: Fields, g: Fields, i: Id) {
    i in f.entries && i in f.closes && f.entries[i].retired ==>
      && i in g.entries && g.entries[i].retired && g.entries[i].users <= f.entries[i].users
      && i in g.closes && g.closes[i] >= f.closes[i]
  }

  lemma GiveBackStays(f: Fields, k: Id, failed: bool, i: Id)
    requires k in f.entries && k in f.closes
    ensures StaysRetired(f, GiveBack(f, k, failed), i)
  {
  }

  lemma RetireStays(f: Fields, k: Id, i: Id)
    requires k in f.entries && k in f.closes
    ensures StaysRetired(f, Retire(f, k), i)
  {
  }

  lemma InstallStays(f: Fields, name: string, k: Id, i: Id)
    requires k !in f.closes && k !in f.entries
    ensures StaysRetired(f, Install(f, name, k), i)
  {
  }

  lemma ReloadStays(f: Fields, names: set<string>, i: Id)
    ensures StaysRetired(f, Reloaded(f, names), i) && StaysRetired(f, AllClosed(f), i)
  {
  }

  // A step gives leases only on entries that are not retired, never puts a
  // retired entry back in service, and never opens a closed client again.
  lemma RetiredIsForGood(s: State, e: Event, i: Id)
    requires Enabled(s, e)
    ensures StaysRetired(s.pool, Next(s, e).pool, i)
  {
    match e
    case Enter(_, _, _) =>
    case ProbeOk(_) =>
    case ProbeDead(t) =>
      var k := s.threads[t].id;
      RetireStays(s.pool, k, i);
      GiveBackStays(Retire(s.pool, k), k, false, i);
    case Look(_) =>
    case DialOk(t, id) => InstallStays(s.pool, s.threads[t].name, id, i);
    case DialFail(_) =>
    case Release(t, failed) => GiveBackStays(s.pool, s.threads[t].id, failed, i);
    case Reload(profiles) => ReloadStays(s.pool, Stale(s.profiles, profiles), i);
    case CloseAll => ReloadStays(s.pool, {}, i);
  }

  // An operation that failed has the next Acquire probe the client it used.
  lemma FailureForcesProbe(s: State, t: nat, u: nat, recent: bool)
    requires Inv(s) && Enabled(s, Release(t, true)) && u < |s.threads| && (u == t || s.threads[u].Outside?)
    requires !s.pool.entries[s.threads[t].id].retired
    ensures var i, n := s.threads[t].id, Next(s, Release(t, true));
            Next(n, Enter(u, s.pool.entries[i].name, recent)).threads[u] == Probing(i)
  {
    ReleaseKeeps(s, t, true);
  }

  // CloseAll meets the rule that a client is closed only once nobody leases it
  // exactly when it is called after the users have stopped.
  lemma CloseAllNeedsQuiet(f: Fields)
    requires Mapped(f) && ClosedOnce(f)
    ensures ClosedOnce(AllClosed(f)) <==> NobodyLeases(f)
  {
    if ClosedOnce(AllClosed(f)) {
      forall n | n in f.connections ensures f.entries[f.connections[n]].users == 0 {
        var i := f.connections[n];
        assert AllClosed(f).entries[i].retired && AllClosed(f).closes[i] == 1;
      }
    }
  }

  // One that succeeded spares it the probe, for a while.
  lemma SuccessSparesProbe(s: State, t: nat, u: nat)
    requires Inv(s) && Enabled(s, Release(t, false)) && u < |s.threads| && (u == t || s.threads[u].Outside?)
    requires !s.pool.entries[s.threads[t].id].retired
    ensures var i, n := s.threads[t].id, Next(s, Release(t, false));
            Next(n, Enter(u, s.pool.entries[i].name, true)).threads[u] == Leasing(i)
  {
    ReleaseKeeps(s, t, false);
  }

  // ---- Which settings a client was dialed with ----

  // What is lent out under name n was dialed with n's present settings.
  ghost predicate UpToDate(s: State, n: string) {
    n in s.pool.connections ==>
      n in s.profiles && s.pool.connections[n] in s.dialed &&
      ConnectAlike(s.dialed[s.pool.connections[n]], s.profiles[n])
  }

  ghost predicate Suits(t: Thread, profiles: map<string, Profile>, n: string) {
    t.Dialing? && t.name == n ==> n in profiles && ConnectAlike(t.profile, profiles[n])
  }

  // So is every client being dialed for it.
  ghost predicate DialsUpToDate(s: State, n: string) {
    forall t <- s.threads :: Suits(t, s.profiles, n)
  }

  // No client is being dialed for n that a reload would find out of date.
  ghost predicate FindsNoDial(s: State, e: Event, n: string) {
    e.Reload? ==> forall t <- s.threads :: Suits(t, e.profiles, n)
  }

  lemma AlikeExactly(p: Profile, q: Profile)
    ensures HasChanged(p, q) <==> !ConnectAlike(p, q)
  {}

  // The one way for a client with other settings to be lent out: it was being
  // dialed while they changed, and nothing better had been installed by then.
  lemma SettingsStay(s: State, e: Event, n: string)
    requires Inv(s) && Enabled(s, e) && UpToDate(s, n)
    ensures UpToDate(Next(s, e), n) <==>
              !(e.DialOk? && s.threads[e.t].name == n && n !in s.pool.connections && !Suits(s.threads[e.t], s.profiles, n))
  {
    if e.Reload? {
      if n in s.profiles && n in e.profiles { AlikeExactly(s.profiles[n], e.profiles[n]); }
    }
  }

  lemma DialsStay(s: State, e: Event, n: string)
    requires Enabled(s, e) && DialsUpToDate(s, n) && FindsNoDial(s, e, n)
    ensures DialsUpToDate(Next(s, e), n)
  {
    forall t | t in Next(s, e).threads ensures Suits(t, Next(s, e).profiles, n) {
      assert t in s.threads || t == Next(s, e).threads[e.t];
    }
  }

  // In every run whose reloads find no dial in progress under old settings,
  // whatever is lent out has the present ones.
  lemma {:induction false} LentUnderPresentSettings(states: seq<State>, events: seq<Event>, k: nat, n: string)
    requires IsRun(states, events) && k < |states| && forall l | 0 <= l < k :: FindsNoDial(states[l], events[l], n)
    ensures UpToDate(states[k], n) && DialsUpToDate(states[k], n)
  {
    if k == 0 {
    } else {
      LentUnderPresentSettings(states, events, k - 1, n);
      RunKeepsInv(states, events, k - 1);
      SettingsStay(states[k - 1], events[k - 1], n);
      DialsStay(states[k - 1], events[k - 1], n);
    }
  }

  // A reload that does find one goes wrong if that dial succeeds next: a client
  // with the old settings is lent out under the new ones, and reloading again
  // does not retire it.
  lemma OldSettingsSurvive(s: State, t: nat, profiles: map<string, Profile>, id: Id)
    requires Inv(s) && t < |s.threads| && s.threads[t].Dialing? && id !in s.pool.closes && id !in s.pool.entries
    requires UpToDate(s, s.threads[t].name) && DialsUpToDate(s, s.threads[t].name)
    requires !Suits(s.threads[t], profiles, s.threads[t].name)
    ensures var n := s.threads[t].name;
            var late := Next(Next(s, Reload(profiles)), DialOk(t, id));
            !UpToDate(late, n) && late.threads[t] == Leasing(id) && Next(late, Reload(profiles)) == late
  {
    var n := s.threads[t].name;
    assert Suits(s.threads[t], s.profiles, n);
    if n in profiles { AlikeExactly(s.profiles[n], profiles[n]); }
    StepKeepsInv(s, Reload(profiles));
    var late := Next(Next(s, Reload(profiles)), DialOk(t, id));
    assert Stale(profiles, profiles) == {};
    NothingDropped(late.pool);
  }
}
