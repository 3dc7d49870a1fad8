// What an FTP session's working directory and reply stream go through when
// directories are made, and when a session may go back to the pool.
module FtpSession {
  import opened Paths

  // Lost: a timeout, a network error or a garbled reply.
  datatype Reply = Done | Refused(code: nat) | Lost

  datatype Fault =
    | Answered(code: nat)      // a textproto.Error
    | Network
    | LocalFile                // an fs.PathError
    | Unrestored               // carries errBrokenSession

  const NOT_AVAILABLE: nat := 421

  // sessionBroken, for an operation that returned an error.
  predicate SessionBroken(f: Fault) {
    f.Unrestored? || f.Network? || (f.Answered? && f.code == NOT_AVAILABLE)
  }

  // What the server would answer while one path component is handled. A
  // command whose reply is lost may have been carried out all the same.
  datatype Round = Round(make: Reply, makeTook: bool, pwd: Reply,
                         check: Reply, checkTook: bool, restore: Reply, restoreTook: bool)

  datatype Result = Success | Error(fault: Fault)

  // withConn puts the session back into the pool after this.
  predicate Reusable(r: Result) {
    r.Success? || !SessionBroken(r.fault)
  }

  function AsFault(r: Reply): Fault
    requires !r.Done?
  {
    if r.Lost? then Network else Answered(r.code)
  }

  // A reply after which the session can't be relied on.
  predicate OutOfStep(r: Reply) {
    r.Lost? || r == Refused(NOT_AVAILABLE)
  }

  // MkdirAll's `current` once the first i components have been handled.
  function Current(components: seq<string>, i: nat): string
    requires i <= |components|
  {
    if i == 0 then ""
    else
      var name := components[i - 1];
      if name == "" then "/"
      else if Current(components, i - 1) == "/" then "/" + name
      else Current(components, i - 1) + "/" + name
  }

  // A refused MKD is no error if the directory can be entered and left again.
  predicate FoundThere(r: Round, present: bool, homePresent: bool) {
    r.make.Refused? && !OutOfStep(r.make) && r.pwd.Done? && r.check.Done? && present && r.restore.Done? && homePresent
  }

  // The directories named by the first n components.
  function Named(components: seq<string>, n: nat): set<string>
    requires n <= |components|
  {
    if n == 0 then {} else Named(components, n - 1) + if components[n - 1] == "" then {} else {Current(components, n)}
  }

  // The error reply to MKD is the one reported although the session has fallen
  // out of step while looking whether the directory was there.
  predicate Slips(r: Round) {
    r.make.Refused? && !OutOfStep(r.make) && (OutOfStep(r.pwd) || (r.pwd.Done? && OutOfStep(r.check) && r.restore.Done?))
  }

  predicate SlipsAt(components: seq<string>, rounds: seq<Round>, n: nat)
    requires n <= |components| == |rounds|
  {
    n > 0 && components[n - 1] != "" && Slips(rounds[n - 1])
  }

  // ---- MkdirAll as a function of the server's answers ----

  // inStep: no reply has been lost.
  datatype Session = Session(cwd: string, dirs: set<string>, inStep: bool) {
    function Hearing(r: Reply): Session {
      this.(inStep := inStep && !OutOfStep(r))
    }

    function Making(path: string, r: Reply, took: bool): Session {
      Hearing(r).(dirs := if r.Done? || (r.Lost? && took) then dirs + {path} else dirs)
    }

    // The server changes only into a directory it has.
    function Entry(path: string, r: Reply): Reply {
      if r.Done? && path !in dirs then Refused(550) else r
    }

    function Entering(path: string, r: Reply, took: bool): Session {
      Hearing(Entry(path, r)).(cwd := if Entry(path, r).Done? || (r.Lost? && took) then path else cwd)
    }
  }

  function Ensured(s: Session, path: string, round: Round): (Session, Result) {
    var made := s.Making(path, round.make, round.makeTook);
    if round.make.Done? then (made, Success)
    else if SessionBroken(AsFault(round.make)) then (made, Error(AsFault(round.make)))
    else Looked(made, path, round)
  }

  // After a refused MKD: is the directory there all the same?
  function Looked(s: Session, path: string, round: Round): (Session, Result)
    requires !round.make.Done?
  {
    var asked := s.Hearing(round.pwd);
    if !round.pwd.Done? then (asked, Error(AsFault(round.make)))
    else
      var checked := asked.Entering(path, round.check, round.checkTook);
      (checked.Entering(asked.cwd, round.restore, round.restoreTook),
       if !checked.Entry(asked.cwd, round.restore).Done? then Error(Unrestored)
       else if asked.Entry(path, round.check).Done? then Success
       else Error(AsFault(round.make)))
  }

  // After the first n components.
  function EnsuredUpTo(s: Session, components: seq<string>, rounds: seq<Round>, n: nat): (Session, Result)
    requires n <= |components| == |rounds|
  {
    if n == 0 then (s, Success)
    else
      var (t, result) := EnsuredUpTo(s, components, rounds, n - 1);
      if result.Error? || components[n - 1] == "" then (t, result)
      else Ensured(t, Current(components, n), rounds[n - 1])
  }

  function AllMade(s: Session, path: string, precise: bool, entry: Reply, rounds: seq<Round>): (Session, Result)
    requires |rounds| == |Split(path)|
  {
    var heard := s.Hearing(s.Entry(path, entry));
    if precise && s.Entry(path, entry).Done? then (heard, Success)
    else if precise && SessionBroken(AsFault(s.Entry(path, entry))) then (heard, Error(AsFault(s.Entry(path, entry))))
    else EnsuredUpTo(if precise then heard else s, Split(path), rounds, |rounds|)
  }

  lemma {:induction false} ErrorStays(s: Session, components: seq<string>, rounds: seq<Round>, h: nat, n: nat)
    requires h <= n <= |components| == |rounds| && EnsuredUpTo(s, components, rounds, h).1.Error?
    ensures EnsuredUpTo(s, components, rounds, n) == EnsuredUpTo(s, components, rounds, h)
  {
    if n == h {
    } else {
      ErrorStays(s, components, rounds, h, n - 1);
    }
  }

  // One component, for any answers: unless the session is given up it is where
  // it was, and in step exactly if the answers did not slip; and it succeeds
  // exactly when the directory is made, or found by going there and back.
  lemma EnsuredMeans(s: Session, path: string, round: Round)
    ensures var (t, result) := Ensured(s, path, round);
            && (Reusable(result) ==> t.cwd == s.cwd && t.inStep == (s.inStep && !Slips(round)))
            && (result.Success? ==> path in t.dirs && !Slips(round))
            && (result.Success? <==> round.make.Done? || FoundThere(round, path in s.dirs, s.cwd in s.dirs))
            && (result.Error? ==> !round.make.Done? && (result.fault.Unrestored? || result.fault == AsFault(round.make)))
            && (t.dirs == s.dirs || t.dirs == s.dirs + {path})
  {}

  lemma {:induction false} EachStays(s: Session, components: seq<string>, rounds: seq<Round>, n: nat)
    requires n <= |components| == |rounds|
    ensures var (t, result) := EnsuredUpTo(s, components, rounds, n); Reusable(result) ==> t.cwd == s.cwd
  {
    if n == 0 {
    } else {
      EachStays(s, components, rounds, n - 1);
      EnsuredMeans(EnsuredUpTo(s, components, rounds, n - 1).0, Current(components, n), rounds[n - 1]);
    }
  }

  lemma MkdirAllStays(s: Session, path: string, precise: bool, entry: Reply, rounds: seq<Round>)
    requires |rounds| == |Split(path)|
    ensures var (t, result) := AllMade(s, path, precise, entry, rounds); Reusable(result) ==> t.cwd == s.cwd
  {
    EachStays(s.Hearing(s.Entry(path, entry)), Split(path), rounds, |rounds|);
    EachStays(s, Split(path), rounds, |rounds|);
  }

  // A component is reached whose answers slip.
  predicate SlipsOnTheWay(s: Session, components: seq<string>, rounds: seq<Round>, n: nat)
    requires n <= |components| == |rounds|
  {
    n > 0 && (SlipsOnTheWay(s, components, rounds, n - 1) ||
              (EnsuredUpTo(s, components, rounds, n - 1).1.Success? && SlipsAt(components, rounds, n)))
  }

  lemma {:induction false} EachKeepsStep(s: Session, components: seq<string>, rounds: seq<Round>, n: nat)
    requires n <= |components| == |rounds|
    ensures var (t, result) := EnsuredUpTo(s, components, rounds, n);
            && (Reusable(result) ==> t.inStep == (s.inStep && !SlipsOnTheWay(s, components, rounds, n)))
            && (result.Success? ==> !SlipsOnTheWay(s, components, rounds, n))
  {
    if n == 0 {
    } else {
      EachKeepsStep(s, components, rounds, n - 1);
      EnsuredMeans(EnsuredUpTo(s, components, rounds, n - 1).0, Current(components, n), rounds[n - 1]);
    }
  }

  // The whole path: MkdirAll walks it unless the directory is found at once.
  predicate MkdirAllSlips(s: Session, path: string, precise: bool, entry: Reply, rounds: seq<Round>)
    requires |rounds| == |Split(path)|
  {
    var found := s.Entry(path, entry);
    !(precise && found.Done?) && SlipsOnTheWay(if precise then s.Hearing(found) else s, Split(path), rounds, |rounds|)
  }

  lemma MkdirAllKeepsStep(s: Session, path: string, precise: bool, entry: Reply, rounds: seq<Round>)
    requires |rounds| == |Split(path)|
    ensures var (t, result) := AllMade(s, path, precise, entry, rounds);
            Reusable(result) ==> t.inStep == (s.inStep && !MkdirAllSlips(s, path, precise, entry, rounds))
  {
    var found := s.Entry(path, entry);
    EachKeepsStep(if precise then s.Hearing(found) else s, Split(path), rounds, |rounds|);
  }

  // ---- The session ----

  class FtpSession {
    var cwd: string
    var dirs: set<string>    // the server's directories
    var inStep: bool         // no reply has been lost

    constructor (cwd: string, dirs: set<string>)
      ensures this.cwd == cwd && this.dirs == dirs && inStep
    {
      this.cwd, this.dirs, inStep := cwd, dirs, true;
    }

    function State(): Session
      reads this
    {
      Session(cwd, dirs, inStep)
    }

    method MakeDir(path: string, reply: Reply, took: bool) returns (r: Reply)
      modifies this`dirs, this`inStep
      ensures r == reply && State() == old(State()).Making(path, reply, took)
    {
      if reply.Done? || (reply.Lost? && took) { dirs := dirs + {path}; }
      inStep := inStep && !OutOfStep(reply);
      return reply;
    }

    method CurrentDir(reply: Reply) returns (r: Reply, path: string)
      modifies this`inStep
      ensures r == reply && path == cwd && State() == old(State()).Hearing(reply)
    {
      inStep := inStep && !OutOfStep(reply);
      return reply, cwd;
    }

    method ChangeDir(path: string, reply: Reply, took: bool) returns (r: Reply)
      modifies this`cwd, this`inStep
      ensures r == old(State()).Entry(path, reply) && State() == old(State()).Entering(path, reply, took)
    {
      r := if reply.Done? && path !in dirs then Refused(550) else reply;
      if r.Done? || (r.Lost? && took) { cwd := path; }
      inStep := inStep && !OutOfStep(r);
    }

    // One component of MkdirAll: make it, or find that it is there already.
    method EnsureDir(path: string, round: Round) returns (result: Result)
      modifies this
      ensures (State(), result) == Ensured(old(State()), path, round)
    {
      var made := MakeDir(path, round.make, round.makeTook);
      if made.Done? { return Success; }
      if SessionBroken(AsFault(made)) { return Error(AsFault(made)); }
      result := LookFor(path, round);
    }

    method LookFor(path: string, round: Round) returns (result: Result)
      requires !round.make.Done?
      modifies this
      ensures (State(), result) == Looked(old(State()), path, round)
    {
      var asked, home := CurrentDir(round.pwd);
      if asked.Done? {
        var checked := ChangeDir(path, round.check, round.checkTook);
        var restored := ChangeDir(home, round.restore, round.restoreTook);
        if !restored.Done? { return Error(Unrestored); }
        if checked.Done? { return Success; }
      }
      return Error(AsFault(round.make));
    }

    // MkdirAll. `entry` is the answer to MLST for the whole path, asked first
    // of servers that have it; `rounds` are the answers for each component.
    method MkdirAll(path: string, precise: bool, entry: Reply, rounds: seq<Round>) returns (result: Result, handled: nat)
      requires |rounds| == |Split(path)|
      modifies this
      ensures (State(), result) == AllMade(old(State()), path, precise, entry, rounds)
      ensures handled <= |rounds| && old(dirs) <= dirs <= old(dirs) + Named(Split(path), handled)
      ensures Reusable(result) ==> cwd == old(cwd) && inStep == (old(inStep) && !SlipsAt(Split(path), rounds, handled))
      ensures result.Success? ==> if handled == 0 then path in dirs else Named(Split(path), |rounds|) <= dirs
      ensures result.Error? ==> if handled == 0 then precise && OutOfStep(entry) else !rounds[handled - 1].make.Done?
    {
      if precise {
        var found := if entry.Done? && path !in dirs then Refused(550) else entry;
        inStep := inStep && !OutOfStep(found);
        if found.Done? { return Success, 0; }
        if SessionBroken(AsFault(found)) { return Error(AsFault(found)), 0; }
      }
      result, handled := EnsureEach(Split(path), rounds);
    }

    method EnsureEach(components: seq<string>, rounds: seq<Round>) returns (result: Result, handled: nat)
      requires components != [] && |rounds| == |components|
      modifies this
      ensures (State(), result) == EnsuredUpTo(old(State()), components, rounds, |rounds|)
      ensures 0 < handled <= |rounds| && old(dirs) <= dirs <= old(dirs) + Named(components, handled)
      ensures Reusable(result) ==> cwd == old(cwd) && inStep == (old(inStep) && !SlipsAt(components, rounds, handled))
      ensures result.Success? ==> handled == |rounds| && Named(components, |rounds|) <= dirs
      ensures result.Error? ==>
                && components[handled - 1] != "" && !rounds[handled - 1].make.Done?
                && (result.fault.Unrestored? || result.fault == AsFault(rounds[handled - 1].make))
    {
      result, handled := Success, 0;
      var current := "";
      while handled < |components|
        invariant handled <= |components| && current == Current(components, handled)
        invariant (State(), Success) == EnsuredUpTo(old(State()), components, rounds, handled)
        invariant cwd == old(cwd) && inStep == old(inStep) && !SlipsAt(components, rounds, handled)
        invariant old(dirs) <= dirs <= old(dirs) + Named(components, handled) && Named(components, handled) <= dirs
      {
        var name := components[handled];
        handled := handled + 1;
        if name == "" {
          current := "/";
        } else {
          current := if current == "/" then "/" + name else current + "/" + name;
          EnsuredMeans(State(), current, rounds[handled - 1]);
          result := EnsureDir(current, rounds[handled - 1]);
          if result.Error? {
            ErrorStays(old(State()), components, rounds, handled, |rounds|);
            return;
          }
        }
      }
      result := Success;
    }
  }

  // ---- Which directory MkdirAll makes ----

  // The path is absolute, with no empty component: "/", or "/a/b".
  predicate IsCleanAbsolute(path: string) {
    var c := Split(path);
    c == ["", ""] || (|c| >= 2 && c[0] == "" && "" !in c[1..])
  }

  lemma {:induction false} CurrentIfClean(c: seq<string>, i: nat)
    requires 2 <= i <= |c| && c[0] == "" && forall j | 1 <= j < i :: c[j] != ""
    requires forall n <- c :: IsComponent(n)
    ensures Current(c, i) == Joined(c[..i]) && i <= |Current(c, i)|
  {
    assert c[..i][..i - 1] == c[..i - 1];
    if i > 2 {
      CurrentIfClean(c, i - 1);
    } else {
      assert c[..1] == [""];
    }
  }

  // An empty component throws away the part before it.
  lemma {:induction false} CurrentIfNot(c: seq<string>, i: nat, j: nat)
    requires 1 <= j < i <= |c| && c[0] == "" && c[j] == ""
    ensures 1 <= |Current(c, i)| <= |Joined(c[..i])| && (i > 2 ==> |Current(c, i)| < |Joined(c[..i])|)
  {
    var name := c[i - 1];
    assert c[..i][..i - 1] == c[..i - 1];
    assert Joined(c[..i]) == Joined(c[..i - 1]) + "/" + name;
    if j < i - 1 {
      CurrentIfNot(c, i - 1, j);
    } else if i > 2 {
      assert c[..i - 1][..i - 2] == c[..i - 2];
    }
  }

  lemma {:induction false} FirstOfJoined(c: seq<string>)
    requires c != [] && c[0] != ""
    ensures Joined(c) != "" && Joined(c)[0] == c[0][0]
  {
    if |c| <= 1 {
    } else {
      FirstOfJoined(c[..|c| - 1]);
    }
  }

  lemma {:induction false} CurrentIsRooted(c: seq<string>, i: nat)
    requires 0 < i <= |c|
    ensures Current(c, i) != "" && Current(c, i)[0] == '/'
  {
    if i <= 1 {
    } else {
      CurrentIsRooted(c, i - 1);
    }
  }

  // MkdirAll makes the directory it was asked for exactly when the path is
  // absolute and clean; "/a//b" has it make "/b".
  lemma MakesThePath(path: string)
    ensures Current(Split(path), |Split(path)|) == path <==> IsCleanAbsolute(path)
  {
    var c := Split(path);
    JoinedSplit(path);
    CurrentIsRooted(c, |c|);
    assert c[..|c|] == c;
    if c[0] != "" {
      FirstOfJoined(c);
      assert c[0] in c && c[0][0] != '/';
    } else if j :| 1 <= j < |c| && c[j] == "" {
      CurrentIfNot(c, |c|, j);
      assert c[j] in c[1..];
    } else if |c| >= 2 {
      CurrentIfClean(c, |c|);
    }
  }
}

// The client's sessions, pooled: any interleaving of dials, operations,
// probes and Close, with any answers from the server.
module FtpClient {
  import opened ConnPool
  import opened ConnPoolProtocol
  import opened Paths
  import opened FtpSession

  // inStep: the session has lost none of the replies it waited for.
  datatype Client = Client(pool: Sys, cwd: map<Conn, string>, inStep: map<Conn, bool>)

  // What a caller that holds a session does with it before it ends: withConn
  // runs MkdirAll, with `dirs` the server's directories by then; or a single
  // command; or a listing, which may ask for the times of some entries; or a
  // transfer. IsAlive sends NOOP.
  datatype Use =
    | Mkdirs(path: string, precise: bool, entry: Reply, rounds: seq<Round>, dirs: set<string>)
    | Single(reply: Reply)
    | Listing(reply: Reply, times: seq<Reply>)
    | Transfer(replies: seq<Reply>, result: Result)
    | NoOp(reply: Reply)

  predicate WellFormed(u: Use) {
    && (u.Mkdirs? ==> |u.rounds| == |Split(u.path)|)
    && (u.Listing? && !u.reply.Done? ==> u.times == [])
  }

  function ResultOf(r: Reply): Result {
    if r.Done? then Success else Error(AsFault(r))
  }

  // The session is given up for the error that is returned, or for NOOP's.
  function Broken(u: Use, cwd: string): bool
    requires WellFormed(u)
  {
    match u
    case Mkdirs(path, precise, entry, rounds, dirs) =>
      !Reusable(AllMade(Session(cwd, dirs, true), path, precise, entry, rounds).1)
    case Single(reply) => !Reusable(ResultOf(reply))
    case Listing(reply, _) => !Reusable(ResultOf(reply))
    case Transfer(_, result) => !Reusable(result)
    case NoOp(reply) => !reply.Done?
  }

  function CwdAfter(u: Use, cwd: string): string
    requires WellFormed(u)
  {
    if u.Mkdirs? then AllMade(Session(cwd, u.dirs, true), u.path, u.precise, u.entry, u.rounds).0.cwd else cwd
  }

  // Has every reply arrived, and none announced the end?
  predicate AllInStep(u: Use, cwd: string)
    requires WellFormed(u)
  {
    match u
    case Mkdirs(path, precise, entry, rounds, dirs) =>
      AllMade(Session(cwd, dirs, true), path, precise, entry, rounds).0.inStep
    case Single(reply) => !OutOfStep(reply)
    case Listing(reply, times) => !OutOfStep(reply) && forall r <- times :: !OutOfStep(r)
    case Transfer(replies, _) => forall r <- replies :: !OutOfStep(r)
    case NoOp(reply) => !OutOfStep(reply)
  }

  // A reply is lost, and yet no error that would give up the session returned:
  // the one for an entry's time never is, and a transfer's result may come from
  // another command.
  predicate Swallows(u: Use, cwd: string)
    requires WellFormed(u)
  {
    match u
    case Mkdirs(path, precise, entry, rounds, dirs) =>
      MkdirAllSlips(Session(cwd, dirs, true), path, precise, entry, rounds) && !Broken(u, cwd)
    case Single(_) => false
    case Listing(_, times) => Lost in times || Refused(421) in times
    case Transfer(replies, result) =>
      (Lost in replies || Refused(421) in replies) && result != Error(Network) && result != Error(Unrestored) &&
      result != Error(Answered(421))
    case NoOp(_) => false
  }

  // A session that goes back has lost a reply in this use exactly if the use
  // swallowed it.
  lemma SwallowedExactly(u: Use, cwd: string)
    requires WellFormed(u) && !Broken(u, cwd)
    ensures AllInStep(u, cwd) <==> !Swallows(u, cwd)
  {
    if u.Mkdirs? { MkdirAllKeepsStep(Session(cwd, u.dirs, true), u.path, u.precise, u.entry, u.rounds); }
  }

  // A command that fails because its reply is lost, or announces the end, costs
  // the session; any other refusal does not, except of NOOP.
  lemma BrokenExactly(r: Reply, cwd: string)
    ensures Broken(Single(r), cwd) <==> r == Lost || r == Refused(421)
    ensures Broken(NoOp(r), cwd) <==> r != Done
  {}

  datatype ClientEvent = InPool(e: Event) | UseAndRelease(t: nat, use: Use, signalled: nat)

  // Every login starts in the same directory.
  ghost predicate ClientStep(home: string, s: Client, e: ClientEvent, s': Client) {
    match e
    case InPool(p) =>
      !p.Release? && Step(s.pool, p, s'.pool) && s'.cwd == (if p.DialOk? then s.cwd[p.c := home] else s.cwd) &&
      s'.inStep == if p.DialOk? then s.inStep[p.c := true] else s.inStep
    case UseAndRelease(t, use, w) =>
      WellFormed(use) && t < |s.pool.threads| && s.pool.threads[t].Holding? && s.pool.threads[t].c in s.cwd &&
      s.pool.threads[t].c in s.inStep &&
      var c := s.pool.threads[t].c;
      Step(s.pool, Release(t, Broken(use, s.cwd[c]), w), s'.pool) && s'.cwd == s.cwd[c := CwdAfter(use, s.cwd[c])] &&
      s'.inStep == s.inStep[c := s.inStep[c] && AllInStep(use, s.cwd[c])]
  }

  // Of the sessions ever logged in, those not given up are at home.
  ghost predicate AtHome(home: string, s: Client) {
    forall c <- s.pool.born :: s.pool.closing[c] == 0 && s.pool.shut[c] == 0 ==> c in s.cwd && s.cwd[c] == home
  }

  lemma UseStaysOrBreaks(u: Use, cwd: string)
    requires WellFormed(u)
    ensures Broken(u, cwd) || CwdAfter(u, cwd) == cwd
  {
    if u.Mkdirs? { MkdirAllStays(Session(cwd, u.dirs, true), u.path, u.precise, u.entry, u.rounds); }
  }

  lemma StepKeepsHome(home: string, s: Client, e: ClientEvent, s': Client)
    requires AtHome(home, s) && ClientStep(home, s, e, s')
    ensures AtHome(home, s')
  {
    if e.UseAndRelease? { UseStaysOrBreaks(e.use, s.cwd[s.pool.threads[e.t].c]); }
  }

  lemma StepKeepsPool(home: string, s: Client, e: ClientEvent, s': Client)
    requires Inv(s.pool) && ClientStep(home, s, e, s')
    ensures Inv(s'.pool)
  {
    match e
    case InPool(p) => StepKeepsInv(s.pool, p, s'.pool);
    case UseAndRelease(t, use, w) => StepKeepsInv(s.pool, Release(t, Broken(use, s.cwd[s.pool.threads[t].c]), w), s'.pool);
  }

  ghost predicate InitiallyInStep(s: Client) {
    forall c <- s.pool.born :: c in s.inStep && s.inStep[c]
  }

  ghost predicate IsClientRun(home: string, states: seq<Client>, events: seq<ClientEvent>) {
    |states| == |events| + 1 && Initial(states[0].pool) && AtHome(home, states[0]) && InitiallyInStep(states[0]) &&
    forall k | 0 <= k < |events| :: ClientStep(home, states[k], events[k], states[k + 1])
  }

  lemma {:induction false} ClientRunInvariant(home: string, states: seq<Client>, events: seq<ClientEvent>, k: nat)
    requires IsClientRun(home, states, events) && k < |states|
    ensures Inv(states[k].pool) && AtHome(home, states[k])
  {
    if k == 0 {
      InitialInv(states[0].pool);
    } else {
      ClientRunInvariant(home, states, events, k - 1);
      StepKeepsPool(home, states[k - 1], events[k - 1], states[k]);
      StepKeepsHome(home, states[k - 1], events[k - 1], states[k]);
    }
  }

  // Over any run, with any server, every session in the idle list has the
  // working directory it logged in with, and so has every session handed out.
  lemma IdleSessionsAreAtHome(home: string, states: seq<Client>, events: seq<ClientEvent>, k: nat, c: Conn)
    requires IsClientRun(home, states, events) && k < |states|
    requires c in states[k].pool.f.idle || exists t <- states[k].pool.threads :: t == Holding(c)
    ensures c in states[k].cwd && states[k].cwd[c] == home
  {
    var s := states[k].pool;
    ClientRunInvariant(home, states, events, k);
    if Holding(c) in s.threads {
      var i :| 0 <= i < |s.threads| && s.threads[i] == Holding(c);
      Moved(s.threads, i, Outside);
    }
    assert Places(s, c) == 1;
  }

  // ---- Which sessions have lost a reply ----

  // In this step the holder of session c lets go of it with a reply swallowed.
  predicate SwallowsOn(s: Client, e: ClientEvent, c: Conn) {
    e.UseAndRelease? && e.t < |s.pool.threads| && s.pool.threads[e.t] == Holding(c) && c in s.cwd && WellFormed(e.use) &&
    Swallows(e.use, s.cwd[c])
  }

  predicate HasSwallowed(states: seq<Client>, events: seq<ClientEvent>, k: nat, c: Conn)
    requires k <= |events| < |states|
  {
    k > 0 && (HasSwallowed(states, events, k - 1, c) || SwallowsOn(states[k - 1], events[k - 1], c))
  }

  // Session c, unless it is given up, has lost a reply exactly if so.
  ghost predicate InStepBut(s: Client, c: Conn, swallowed: bool) {
    && (swallowed ==> c in s.pool.born)
    && (c in s.pool.born && s.pool.closing[c] == 0 && s.pool.shut[c] == 0 ==> c in s.inStep && s.inStep[c] == !swallowed)
  }

  lemma UseKeepsStep(home: string, s: Client, e: ClientEvent, s': Client, c: Conn, swallowed: bool)
    requires Inv(s.pool) && e.UseAndRelease? && ClientStep(home, s, e, s') && InStepBut(s, c, swallowed)
    ensures InStepBut(s', c, swallowed || SwallowsOn(s, e, c))
  {
    var held := s.pool.threads[e.t].c;
    UseIsExclusive(s.pool, e.t, held);
    if held == c && !Broken(e.use, s.cwd[c]) { SwallowedExactly(e.use, s.cwd[c]); }
  }

  lemma StepKeepsStep(home: string, s: Client, e: ClientEvent, s': Client, c: Conn, swallowed: bool)
    requires Inv(s.pool) && ClientStep(home, s, e, s') && InStepBut(s, c, swallowed)
    ensures InStepBut(s', c, swallowed || SwallowsOn(s, e, c))
  {
    if e.UseAndRelease? { UseKeepsStep(home, s, e, s', c, swallowed); }
  }

  lemma {:induction false} InStepUnlessSwallowed(home: string, states: seq<Client>, events: seq<ClientEvent>, k: nat, c: Conn)
    requires IsClientRun(home, states, events) && k < |states|
    ensures InStepBut(states[k], c, HasSwallowed(states, events, k, c))
  {
    if k == 0 {
    } else {
      InStepUnlessSwallowed(home, states, events, k - 1, c);
      ClientRunInvariant(home, states, events, k - 1);
      StepKeepsStep(home, states[k - 1], events[k - 1], states[k], c, HasSwallowed(states, events, k - 1, c));
    }
  }

  // Over any run a session in the idle list, or handed out, has lost a reply
  // exactly if some use of it has swallowed one.
  lemma LostRepliesWereSwallowed(home: string, states: seq<Client>, events: seq<ClientEvent>, k: nat, c: Conn)
    requires IsClientRun(home, states, events) && k < |states|
    requires c in states[k].pool.f.idle || exists t <- states[k].pool.threads :: t == Holding(c)
    ensures c in states[k].inStep && (states[k].inStep[c] <==> !HasSwallowed(states, events, k, c))
  {
    var s := states[k].pool;
    ClientRunInvariant(home, states, events, k);
    InStepUnlessSwallowed(home, states, events, k, c);
    if Holding(c) in s.threads {
      var i :| 0 <= i < |s.threads| && s.threads[i] == Holding(c);
      Moved(s.threads, i, Outside);
    }
    assert Places(s, c) == 1;
  }

  // That happens: a listing succeeds although the reply with an entry's time is
  // lost, and its session goes back to the pool.
  lemma LostTimeGoesUnnoticed(home: string, s: Client, t: nat, w: nat, s': Client)
    requires ClientStep(home, s, UseAndRelease(t, Listing(Done, [Lost]), w), s') && !s.pool.f.closed
    ensures var c := s.pool.threads[t].c; c in s'.pool.f.idle && !s'.inStep[c]
  {
    var use := Listing(Done, [Lost]);
    assert Lost in [Lost];
    SwallowedExactly(use, s.cwd[s.pool.threads[t].c]);
  }
}
