// What a worker does with one task: up to three attempts at uploading a file,
// or at deleting the remote copy of one that is gone.
//
// Everything the worker meets (what it sees locally, what the pool and the
// server answer, whether Stop comes while it waits) is a script of attempts;
// everything it does is a log.
module Retry {
  import opened Options
  import Paths
  import Trees
  import Upload

  const MAX_RETRIES: nat := 3

  datatype Profile = Profile(remotePath: string, autoSyncDeletes: bool)

  datatype Reply = Ok | NotExist | Failed(code: int)

  datatype LocalStat = Missing | Regular(size: nat) | Irregular | StatFailed

  datatype RemoteStat = Found(isDir: bool) | Absent | Unknown(code: int)

  // dirKnown: the remote directory is remembered. stopping: Stop comes before
  // the wait that follows a failed attempt is over.
  datatype Attempt = Attempt(local: LocalStat, contextSeen: bool, acquired: Reply,
                             remote: RemoteStat, removed: Reply,
                             dirKnown: bool, made: Reply, sent: Reply, stopping: bool)

  datatype Act =
    | Acquire
    | Release(failed: bool)
    | Stat(path: string)
    | Remove(path: string)
    | RemoveDir(path: string)
    | MakeDirs(path: string)
    | Send(path: string, resume: bool)
    | Remember(path: string)
    | Forget
    | Success(deleted: bool)
    | Failure(error: Reply, attempts: nat)

  datatype Step = Step(attempt: nat, act: Act)

  // ---- What a log may look like ----

  datatype Phase = Free | Held | Reported | Broken

  // A lease is taken before the server is touched and given back before the
  // next is taken or the outcome reported; after a report there is nothing.
  function Move(p: Phase, act: Act): Phase {
    match act
    case Acquire => if p.Free? then Held else Broken
    case Release(_) => if p.Held? then Free else Broken
    case Stat(_) => if p.Held? then Held else Broken
    case Remove(_) => if p.Held? then Held else Broken
    case RemoveDir(_) => if p.Held? then Held else Broken
    case MakeDirs(_) => if p.Held? then Held else Broken
    case Send(_, _) => if p.Held? then Held else Broken
    case Remember(_) => if p.Free? || p.Held? then p else Broken
    case Forget => if p.Free? || p.Held? then p else Broken
    case Success(_) => if p.Free? then Reported else Broken
    case Failure(_, _) => if p.Free? then Reported else Broken
  }

  function PhaseOf(log: seq<Step>): Phase {
    if log == [] then Free else Move(PhaseOf(log[..|log| - 1]), log[|log| - 1].act)
  }

  function Leases(log: seq<Step>): nat {
    if log == [] then 0 else Leases(log[..|log| - 1]) + if log[|log| - 1].act.Acquire? then 1 else 0
  }

  function Releases(log: seq<Step>): nat {
    if log == [] then 0 else Releases(log[..|log| - 1]) + if log[|log| - 1].act.Release? then 1 else 0
  }

  function Reports(log: seq<Step>): nat {
    if log == [] then 0
    else Reports(log[..|log| - 1]) + if log[|log| - 1].act.Success? || log[|log| - 1].act.Failure? then 1 else 0
  }

  // Every lease taken in such a log is given back exactly once, and at most
  // one outcome is reported.
  lemma {:induction false} OrderlyLogBalances(log: seq<Step>)
    requires !PhaseOf(log).Broken?
    ensures Leases(log) == Releases(log) + if PhaseOf(log).Held? then 1 else 0
    ensures Reports(log) == if PhaseOf(log).Reported? then 1 else 0
  {
    if log == [] {
    } else {
      OrderlyLogBalances(log[..|log| - 1]);
    }
  }

  // The server is touched only under a lease, and nothing follows a report.
  lemma {:induction false} OrderlyLogOrder(log: seq<Step>, k: nat)
    requires !PhaseOf(log).Broken? && k < |log|
    ensures var act, before := log[k].act, log[..k];
            && (act.Stat? || act.Remove? || act.RemoveDir? || act.MakeDirs? || act.Send? || act.Release? ==>
                  Leases(before) == Releases(before) + 1)
            && (act.Acquire? || act.Success? || act.Failure? ==> Leases(before) == Releases(before))
            && (act.Success? || act.Failure? ==> k == |log| - 1)
  {
    if k == |log| - 1 {
      OrderlyLogBalances(log[..k]);
    } else {
      var shorter := log[..|log| - 1];
      assert shorter[..k] == log[..k];
      OrderlyLogOrder(shorter, k);
    }
  }

  // ---- Which tasks are worked on ----

  // filepath.Base of an absolute, clean path.
  function Base(path: string): string {
    if path == "/" then path else Paths.AfterLastSlash(path)
  }

  // Where a file lies inside the context directory, if it does.
  function RelPath(file: string, context: string): Option<string> {
    if context + "/" <= file then Some(file[|context| + 1..])
    else if file == context then Some(Base(file))
    else None
  }

  // The file's path in the context, if it is to be synced at all.
  function Synced(profile: Option<Profile>, file: Option<string>, context: Option<string>, ignored: string -> bool)
    : Option<string>
  {
    if profile.None? || file.None? || context.None? then None
    else
      var rel := RelPath(file.value, context.value);
      if rel.None? || Trees.IsPartialName(Base(file.value)) || ignored(rel.value) then None else rel
  }

  // A task is dropped unseen unless its file is the context or lies below it,
  // is no partial, and is not ignored under its path in the context.
  lemma SyncedExactly(profile: Profile, file: string, context: string, ignored: string -> bool, rel: string)
    ensures Synced(Some(profile), Some(file), Some(context), ignored) == Some(rel) <==>
              && (file == context + "/" + rel || (file == context && rel == Base(file)))
              && !ignored(rel) && !exists stem: string :: Base(file) == stem + ".sfync-part"
  {
    Trees.PartialNames(Base(file));
    assert file == context + "/" + rel ==> context + "/" <= file && file[|context| + 1..] == rel;
    assert context + "/" <= file ==> file == context + "/" + file[|context| + 1..];
  }

  // ---- What an attempt's own facts say ----

  predicate Present(a: Attempt) {
    !a.local.Missing? && !a.local.Irregular?
  }

  // The file is put on the server.
  predicate Sends(a: Attempt) {
    Present(a) && a.acquired.Ok? && (a.dirKnown || a.made.Ok?) && a.sent.Ok?
  }

  // A path that is gone may be deleted remotely.
  predicate MayDelete(deletes: bool, a: Attempt) {
    deletes && a.local.Missing? && a.contextSeen
  }

  // Its remote copy is removed.
  predicate Removes(deletes: bool, a: Attempt) {
    MayDelete(deletes, a) && a.acquired.Ok? && a.remote.Found? && a.removed.Ok?
  }

  // There is no remote copy, or at the last attempt one is left that is a
  // directory.
  predicate LeftAlone(a: Attempt, final: bool) {
    || a.remote.Absent?
    || (a.remote == Found(false) && a.removed.NotExist?)
    || (a.remote == Found(true) && !a.removed.Ok? && final)
  }

  // Nothing is to be done, so nothing is reported either.
  predicate IsQuiet(deletes: bool, a: Attempt, final: bool) {
    if MayDelete(deletes, a) then a.acquired.Ok? && LeftAlone(a, final) else !Present(a)
  }

  predicate Fails(deletes: bool, a: Attempt, final: bool) {
    !Sends(a) && !Removes(deletes, a) && !IsQuiet(deletes, a, final)
  }

  // The first answer that was not as hoped.
  function FirstFault(a: Attempt): Reply {
    if !a.acquired.Ok? then a.acquired
    else if a.local.Missing? then (if a.remote.Unknown? then Failed(a.remote.code) else a.removed)
    else if !a.dirKnown && !a.made.Ok? then a.made
    else a.sent
  }

  // ---- What one attempt, and the whole loop, come to ----

  datatype Verdict = Dropped | Done(deleted: bool) | Again(error: Reply)

  function DeleteVerdict(a: Attempt, final: bool): Verdict {
    match a.remote
    case Absent => Dropped
    case Unknown(code) => Again(Failed(code))
    case Found(isDir) =>
      if a.removed.Ok? then Done(true)
      else if isDir then (if final then Dropped else Again(a.removed))
      else if a.removed.NotExist? then Dropped
      else Again(a.removed)
  }

  function VerdictOf(deletes: bool, a: Attempt, final: bool): Verdict {
    if a.local.Irregular? || (a.local.Missing? && !(deletes && a.contextSeen)) then Dropped
    else if !a.acquired.Ok? then Again(a.acquired)
    else if a.local.Missing? then DeleteVerdict(a, final)
    else if !a.dirKnown && !a.made.Ok? then Again(a.made)
    else if a.sent.Ok? then Done(false)
    else Again(a.sent)
  }

  // The report that attempts k, k + 1, ... end with, if any.
  function Outcome(deletes: bool, script: seq<Attempt>, k: nat, error: Reply): Option<Act>
    requires k <= |script| == MAX_RETRIES
    decreases MAX_RETRIES - k
  {
    if k == MAX_RETRIES then Some(Failure(error, MAX_RETRIES))
    else
      match VerdictOf(deletes, script[k], k == MAX_RETRIES - 1)
      case Dropped => None
      case Done(deleted) => Some(Success(deleted))
      case Again(e) => if k < MAX_RETRIES - 1 && script[k].stopping then None else Outcome(deletes, script, k + 1, e)
  }

  function Report(log: seq<Step>): Option<Act> {
    if log != [] && (log[|log| - 1].act.Success? || log[|log| - 1].act.Failure?) then Some(log[|log| - 1].act) else None
  }

  datatype Job = Job(deletes: bool, remote: string, dir: string)

  // The one place on the server a task is about.
  function JobFor(profile: Profile, rel: string, join: (string, string) -> string, dirOf: string -> string): Job {
    Job(profile.autoSyncDeletes, join(profile.remotePath, rel), dirOf(join(profile.remotePath, rel)))
  }

  // What an attempt may do, given what it has just seen.
  predicate Allowed(job: Job, a: Attempt, final: bool, act: Act) {
    match act
    case Acquire => a.acquired.Ok? && (Present(a) || MayDelete(job.deletes, a))
    case Release(failed) => a.acquired.Ok? && (failed <==> Fails(job.deletes, a, final))
    case Stat(p) => p == job.remote && MayDelete(job.deletes, a)
    case Remove(p) => p == job.remote && MayDelete(job.deletes, a) && a.remote == Found(false)
    case RemoveDir(p) => p == job.remote && MayDelete(job.deletes, a) && a.remote == Found(true)
    case MakeDirs(p) => p == job.dir && Present(a) && !a.dirKnown
    case Remember(p) => p == job.dir && Present(a) && (a.dirKnown || a.made.Ok?)
    case Send(p, resume) =>
      && p == job.remote && Present(a) && (a.dirKnown || a.made.Ok?)
      && (resume <==> a.local.Regular? && a.local.size >= Upload.RESUME_THRESHOLD)
    case Forget => Removes(job.deletes, a) || (Present(a) && (a.dirKnown || a.made.Ok?) && !a.sent.Ok?)
    case Success(deleted) => if deleted then Removes(job.deletes, a) else Sends(a)
    case Failure(error, attempts) => final && Fails(job.deletes, a, final) && error == FirstFault(a) && attempts == MAX_RETRIES
  }

  // What the log of an attempt that did its work must hold.
  predicate Evidence(job: Job, a: Attempt, attempt: nat, log: seq<Step>, deleted: bool) {
    if deleted then
      Step(attempt, if a.remote == Found(true) then RemoveDir(job.remote) else Remove(job.remote)) in log &&
      Step(attempt, Forget) in log
    else
      Step(attempt, Send(job.remote, a.local.Regular? && a.local.size >= Upload.RESUME_THRESHOLD)) in log &&
      Step(attempt, Remember(job.dir)) in log && (a.dirKnown || Step(attempt, MakeDirs(job.dir)) in log)
  }

  predicate Tried(a: Attempt) {
    Present(a) && a.acquired.Ok? && (a.dirKnown || a.made.Ok?)
  }

  predicate AllAllowed(job: Job, script: seq<Attempt>, log: seq<Step>) {
    forall s <- log :: s.attempt < |script| && Allowed(job, script[s.attempt], s.attempt == MAX_RETRIES - 1, s.act)
  }

  function Log(job: Job, script: seq<Attempt>, log: seq<Step>, attempt: nat, act: Act): (r: seq<Step>)
    requires AllAllowed(job, script, log) && attempt < |script| && Allowed(job, script[attempt], attempt == MAX_RETRIES - 1, act)
    ensures PhaseOf(r) == Move(PhaseOf(log), act) && AllAllowed(job, script, r)
    ensures Report(r) == if act.Success? || act.Failure? then Some(act) else None
    ensures r == log + [Step(attempt, act)]
  {
    assert (log + [Step(attempt, act)])[..|log|] == log;
    log + [Step(attempt, act)]
  }

  // A reported success rests on work done in the attempt it is reported from.
  predicate Proven(job: Job, script: seq<Attempt>, log: seq<Step>) {
    log != [] && log[|log| - 1].act.Success? ==>
      var s := log[|log| - 1];
      s.attempt < |script| && Evidence(job, script[s.attempt], s.attempt, log, s.act.deleted)
  }

  // deleteRemote: absent already is no error, and a directory that cannot be
  // removed is one only if there is another attempt to come.
  method DeleteRemote(job: Job, script: seq<Attempt>, attempt: nat, final: bool, before: seq<Step>)
    returns (deleted: bool, error: Reply, log: seq<Step>)
    requires attempt < |script| && MayDelete(job.deletes, script[attempt])
    requires PhaseOf(before).Held? && AllAllowed(job, script, before)
    ensures var a := script[attempt];
            && (deleted <==> a.remote.Found? && a.removed.Ok?)
            && (error.Ok? <==> deleted || a.remote.Absent? ||
                               (a.remote.Found? && if a.remote.isDir then final else a.removed.NotExist?))
            && (!error.Ok? ==> error == if a.remote.Unknown? then Failed(a.remote.code) else a.removed)
            && (deleted ==> Step(attempt, if a.remote == Found(true) then RemoveDir(job.remote) else Remove(job.remote)) in log)
    ensures PhaseOf(log).Held? && AllAllowed(job, script, log)
  {
    var a := script[attempt];
    deleted, error, log := false, Ok, Log(job, script, before, attempt, Stat(job.remote));
    if a.remote.Absent? { return; }
    if a.remote.Unknown? {
      error := Failed(a.remote.code);
      return;
    }
    if a.remote.isDir {
      log := Log(job, script, log, attempt, RemoveDir(job.remote));
      if !a.removed.Ok? {
        if !final { error := a.removed; }
        return;
      }
      deleted := true;
      return;
    }
    log := Log(job, script, log, attempt, Remove(job.remote));
    if !a.removed.Ok? {
      if !a.removed.NotExist? { error := a.removed; }
      return;
    }
    deleted := true;
  }

  // The upload itself, after the directory has been ensured or is remembered.
  method SendFile(job: Job, script: seq<Attempt>, attempt: nat, before: seq<Step>)
    returns (error: Reply, sending: bool, log: seq<Step>)
    requires attempt < |script| && Present(script[attempt])
    requires PhaseOf(before).Held? && AllAllowed(job, script, before)
    ensures sending <==> script[attempt].dirKnown || script[attempt].made.Ok?
    ensures error == if sending then script[attempt].sent else script[attempt].made
    ensures sending ==> Evidence(job, script[attempt], attempt, log, false)
    ensures PhaseOf(log).Held? && AllAllowed(job, script, log)
  {
    var a := script[attempt];
    log := before;
    if !a.dirKnown {
      log := Log(job, script, log, attempt, MakeDirs(job.dir));
      if !a.made.Ok? { return a.made, false, log; }
    }
    log := Log(job, script, log, attempt, Remember(job.dir));
    log := Log(job, script, log, attempt, Send(job.remote, a.local.Regular? && a.local.size >= Upload.RESUME_THRESHOLD));
    return a.sent, true, log;
  }

  // processUpload. Whatever happens over the attempts, leases are balanced and
  // at most one outcome is reported, it is the one the attempts come to, and
  // the server is touched only as Allowed says, at the file's own counterpart.
  method ProcessUpload(profile: Option<Profile>, file: Option<string>, context: Option<string>, ignored: string -> bool,
                       join: (string, string) -> string, dirOf: string -> string, script: seq<Attempt>)
    returns (log: seq<Step>)
    requires |script| == MAX_RETRIES
    ensures PhaseOf(log).Free? || PhaseOf(log).Reported?
    ensures var rel := Synced(profile, file, context, ignored);
            if rel.None? then log == []
            else
              && Report(log) == Outcome(profile.value.autoSyncDeletes, script, 0, Ok)
              && AllAllowed(JobFor(profile.value, rel.value, join, dirOf), script, log)
              && Proven(JobFor(profile.value, rel.value, join, dirOf), script, log)
    ensures var rel := Synced(profile, file, context, ignored);
            rel.Some? ==> forall s <- log ::
              && s.attempt < MAX_RETRIES
              && var a := script[s.attempt];
              && (s.act.Remove? || s.act.RemoveDir? ==>
                    profile.value.autoSyncDeletes && a.local.Missing? && a.contextSeen &&
                    a.remote == Found(s.act.RemoveDir?) && s.act.path == join(profile.value.remotePath, rel.value))
              && (s.act.Send? ==>
                    !a.local.Missing? && !a.local.Irregular? && s.act.path == join(profile.value.remotePath, rel.value) &&
                    (s.act.resume <==> a.local.Regular? && a.local.size >= 10_485_760))
  {
    log := [];
    if profile.None? || file.None? || context.None? { return; }
    var rel := RelPath(file.value, context.value);
    if rel.None? || Trees.IsPartialName(Base(file.value)) || ignored(rel.value) { return; }
    log := TryThrice(JobFor(profile.value, rel.value, join, dirOf), script);
  }

  method TryThrice(job: Job, script: seq<Attempt>) returns (log: seq<Step>)
    requires |script| == MAX_RETRIES
    ensures PhaseOf(log).Free? || PhaseOf(log).Reported?
    ensures Report(log) == Outcome(job.deletes, script, 0, Ok) && AllAllowed(job, script, log) && Proven(job, script, log)
  {
    log := [];
    var lastError: Reply := Ok;
    for attempt := 0 to MAX_RETRIES
      invariant PhaseOf(log).Free? && Report(log).None? && AllAllowed(job, script, log)
      invariant Outcome(job.deletes, script, attempt, lastError) == Outcome(job.deletes, script, 0, Ok)
    {
      var verdict;
      verdict, log := TryOnce(job, script, attempt, log);
      if !verdict.Again? { return; }
      lastError := verdict.error;
      if attempt < MAX_RETRIES - 1 && script[attempt].stopping { return; }
    }
    log := Log(job, script, log, MAX_RETRIES - 1, Failure(lastError, MAX_RETRIES));
  }

  // The body of the retry loop, up to its wait.
  method TryOnce(job: Job, script: seq<Attempt>, attempt: nat, before: seq<Step>) returns (verdict: Verdict, log: seq<Step>)
    requires attempt < |script| == MAX_RETRIES
    requires PhaseOf(before).Free? && Report(before).None? && AllAllowed(job, script, before)
    ensures verdict == VerdictOf(job.deletes, script[attempt], attempt == MAX_RETRIES - 1) && AllAllowed(job, script, log)
    ensures Ended(job, script, attempt, log, verdict)
    ensures verdict.Again? && Tried(script[attempt]) ==> Step(attempt, Forget) in log
  {
    var a := script[attempt];
    if a.local.Missing? {
      if !job.deletes || !a.contextSeen { return Dropped, before; }
    } else if a.local.Irregular? {
      return Dropped, before;
    }
    if !a.acquired.Ok? { return Again(a.acquired), before; }
    log := Log(job, script, before, attempt, Acquire);
    if a.local.Missing? {
      verdict, log := TryDelete(job, script, attempt, log);
    } else {
      verdict, log := TrySend(job, script, attempt, log);
    }
  }

  // What an attempt leaves behind once it had a lease.
  predicate Ended(job: Job, script: seq<Attempt>, attempt: nat, log: seq<Step>, verdict: Verdict)
    requires attempt < |script|
  {
    if verdict.Done? then
      && PhaseOf(log).Reported? && Report(log) == Some(Success(verdict.deleted))
      && log != [] && log[|log| - 1].attempt == attempt && Evidence(job, script[attempt], attempt, log, verdict.deleted)
    else PhaseOf(log).Free? && Report(log).None?
  }

  method TryDelete(job: Job, script: seq<Attempt>, attempt: nat, before: seq<Step>) returns (verdict: Verdict, log: seq<Step>)
    requires attempt < |script| == MAX_RETRIES && MayDelete(job.deletes, script[attempt]) && script[attempt].acquired.Ok?
    requires PhaseOf(before).Held? && AllAllowed(job, script, before)
    ensures verdict == DeleteVerdict(script[attempt], attempt == MAX_RETRIES - 1)
    ensures AllAllowed(job, script, log) && Ended(job, script, attempt, log, verdict)
  {
    var deleted, error;
    deleted, error, log := DeleteRemote(job, script, attempt, attempt == MAX_RETRIES - 1, before);
    log := Log(job, script, log, attempt, Release(!error.Ok?));
    if deleted { log := Log(job, script, log, attempt, Forget); }
    if !error.Ok? { return Again(error), log; }
    if !deleted { return Dropped, log; }
    return Done(true), Log(job, script, log, attempt, Success(true));
  }

  method TrySend(job: Job, script: seq<Attempt>, attempt: nat, before: seq<Step>) returns (verdict: Verdict, log: seq<Step>)
    requires attempt < |script| && Present(script[attempt]) && script[attempt].acquired.Ok?
    requires PhaseOf(before).Held? && AllAllowed(job, script, before)
    ensures verdict == VerdictOf(job.deletes, script[attempt], attempt == MAX_RETRIES - 1)
    ensures AllAllowed(job, script, log) && Ended(job, script, attempt, log, verdict)
    ensures verdict.Again? && Tried(script[attempt]) ==> Step(attempt, Forget) in log
  {
    var error, sending;
    error, sending, log := SendFile(job, script, attempt, before);
    log := Log(job, script, log, attempt, Release(!error.Ok?));
    if error.Ok? { return Done(false), Log(job, script, log, attempt, Success(false)); }
    if sending { log := Log(job, script, log, attempt, Forget); }
    return Again(error), log;
  }

  // ---- What the outcome means ----

  predicate Retried(deletes: bool, script: seq<Attempt>, k: nat)
    requires k < |script| == MAX_RETRIES
  {
    VerdictOf(deletes, script[k], k == MAX_RETRIES - 1).Again? && !(k < MAX_RETRIES - 1 && script[k].stopping)
  }

  // An error is reported exactly when all three attempts failed and Stop did
  // not interrupt; it is the error of the last one.
  lemma ErrorMeansAllFailed(deletes: bool, script: seq<Attempt>, e: Reply)
    requires |script| == MAX_RETRIES
    ensures Outcome(deletes, script, 0, Ok) == Some(Failure(e, MAX_RETRIES)) <==>
              (forall k: nat | k < MAX_RETRIES :: Retried(deletes, script, k)) &&
              VerdictOf(deletes, script[MAX_RETRIES - 1], true) == Again(e)
  {
    assert Retried(deletes, script, 0) && Retried(deletes, script, 1) && Retried(deletes, script, 2) <==>
             forall k: nat | k < MAX_RETRIES :: Retried(deletes, script, k);
  }

  // Attempt k does the work and every one from i up to it fails.
  predicate DidAt(deletes: bool, script: seq<Attempt>, i: nat, k: nat, deleted: bool)
    requires |script| == MAX_RETRIES
  {
    i <= k < MAX_RETRIES && VerdictOf(deletes, script[k], k == MAX_RETRIES - 1) == Done(deleted) &&
    forall j: nat | i <= j < k :: Retried(deletes, script, j)
  }

  // Success is reported exactly when some attempt did its work and all before
  // it failed.
  lemma {:induction false} SuccessMeansOneDid(deletes: bool, script: seq<Attempt>, i: nat, e: Reply, deleted: bool)
    requires i <= |script| == MAX_RETRIES
    ensures Outcome(deletes, script, i, e) == Some(Success(deleted)) <==> exists k: nat :: DidAt(deletes, script, i, k, deleted)
    decreases MAX_RETRIES - i
  {
    if i == MAX_RETRIES {
    } else {
      var v := VerdictOf(deletes, script[i], i == MAX_RETRIES - 1);
      if v == Done(deleted) {
        assert DidAt(deletes, script, i, i, deleted);
      } else if Retried(deletes, script, i) {
        var n := i + 1;
        SuccessMeansOneDid(deletes, script, n, v.error, deleted);
        assert forall k: nat :: DidAt(deletes, script, n, k, deleted) <==> DidAt(deletes, script, i, k, deleted);
      } else {
        forall k: nat ensures !DidAt(deletes, script, i, k, deleted) {
          assert k > i ==> !Retried(deletes, script, i);
        }
      }
    }
  }

  // ---- The outcome from the attempts' own facts ----

  // Attempt k is made: every one before it failed, and Stop did not come in
  // the waits between them.
  predicate Reached(deletes: bool, script: seq<Attempt>, k: nat)
    requires k <= |script|
  {
    forall i | 0 <= i < k :: Fails(deletes, script[i], false) && !script[i].stopping
  }

  lemma VerdictByFields(deletes: bool, a: Attempt, final: bool)
    ensures var v := VerdictOf(deletes, a, final);
            && (v == Done(false) <==> Sends(a))
            && (v == Done(true) <==> Removes(deletes, a))
            && (v.Dropped? <==> IsQuiet(deletes, a, final))
            && (v.Again? <==> Fails(deletes, a, final))
            && (v.Again? ==> v.error == FirstFault(a) && !v.error.Ok?)
  {}

  // What is reported: success from the first attempt that does not fail, if it
  // does the work; the last attempt's error if all fail; otherwise nothing, as
  // there is nothing to do or Stop came during a wait.
  lemma OutcomeByFields(deletes: bool, script: seq<Attempt>)
    requires |script| == 3
    ensures var o := Outcome(deletes, script, 0, Ok);
            && (o == Some(Success(false)) <==> exists k :: 0 <= k < 3 && Reached(deletes, script, k) && Sends(script[k]))
            && (o == Some(Success(true)) <==>
                  exists k :: 0 <= k < 3 && Reached(deletes, script, k) && Removes(deletes, script[k]))
            && (o.None? <==> exists k :: (0 <= k < 3 && Reached(deletes, script, k) &&
                  (IsQuiet(deletes, script[k], k == 2) || (k < 2 && Fails(deletes, script[k], false) && script[k].stopping))))
            && (o.Some? && o.value.Failure? <==> Reached(deletes, script, 2) && Fails(deletes, script[2], true))
            && (o.Some? && o.value.Failure? ==> o.value == Failure(FirstFault(script[2]), 3))
  {
    VerdictByFields(deletes, script[0], false);
    VerdictByFields(deletes, script[1], false);
    VerdictByFields(deletes, script[2], true);
    assert Reached(deletes, script, 0);
    assert Reached(deletes, script, 1) <==> Fails(deletes, script[0], false) && !script[0].stopping;
    assert Reached(deletes, script, 2) <==>
             Reached(deletes, script, 1) && Fails(deletes, script[1], false) && !script[1].stopping;
  }

  // A file that is there to be uploaded is never silently dropped: unless Stop
  // comes during a wait, the third attempt is followed by a report at the
  // latest. It is success exactly if some attempt got a lease, has its
  // directory, and sent the file.
  lemma FilesAreReported(deletes: bool, script: seq<Attempt>)
    requires |script| == 3 && forall a <- script :: !a.local.Missing? && !a.local.Irregular?
    requires !script[0].stopping && !script[1].stopping
    ensures var o := Outcome(deletes, script, 0, Ok);
            var last := script[2];
            if exists a <- script :: a.acquired.Ok? && (a.dirKnown || a.made.Ok?) && a.sent.Ok? then o == Some(Success(false))
            else
              o == Some(Failure(if !last.acquired.Ok? then last.acquired
                                else if !last.dirKnown && !last.made.Ok? then last.made else last.sent, 3))
  {
    OutcomeByFields(deletes, script);
    assert forall a <- script :: a == script[0] || a == script[1] || a == script[2];
    assert script[0] in script && script[1] in script && script[2] in script;
    FirstThatSends(deletes, script);
  }

  lemma FirstThatSends(deletes: bool, script: seq<Attempt>)
    requires |script| == 3 && !script[0].stopping && !script[1].stopping && forall i | 0 <= i < 3 :: Present(script[i])
    ensures (exists i :: 0 <= i < 3 && Sends(script[i])) <==>
              exists k :: 0 <= k < 3 && Reached(deletes, script, k) && Sends(script[k])
    ensures Reached(deletes, script, 2) && Fails(deletes, script[2], true) <==> forall i | 0 <= i < 3 :: !Sends(script[i])
  {
    assert Reached(deletes, script, 0);
    assert Reached(deletes, script, 1) <==> !Sends(script[0]);
    assert Reached(deletes, script, 2) <==> !Sends(script[0]) && !Sends(script[1]);
  }

  // Without the last word: the remote copy may still be there.
  predicate MayRemain(a: Attempt) {
    !a.acquired.Ok? || a.remote.Unknown? || (a.remote.Found? && !a.removed.Ok? && (a.remote.isDir || !a.removed.NotExist?))
  }

  // A path that stays gone while its context stands. Unless Stop comes during a
  // wait, the first attempt that does not leave the matter open decides: there
  // is silence exactly if it finds no remote copy, or if all are over and the
  // last one could not remove a directory.
  lemma DeletionsAreReported(script: seq<Attempt>)
    requires |script| == 3 && forall a <- script :: a.local.Missing? && a.contextSeen
    requires !script[0].stopping && !script[1].stopping
    ensures var o, last := Outcome(true, script, 0, Ok), script[2];
            if exists k :: 0 <= k < 3 && !MayRemain(script[k]) && forall i | 0 <= i < k :: MayRemain(script[i]) then
              forall k | 0 <= k < 3 && !MayRemain(script[k]) && (forall i | 0 <= i < k :: MayRemain(script[i])) ::
                o == if script[k].remote.Found? && script[k].removed.Ok? then Some(Success(true)) else None
            else if last.acquired.Ok? && last.remote == Found(true) then o == None
            else
              o == Some(Failure(if !last.acquired.Ok? then last.acquired
                                else if last.remote.Unknown? then Failed(last.remote.code) else last.removed, 3))
  {
    OutcomeByFields(true, script);
    assert script[0] in script && script[1] in script && script[2] in script;
    forall a | a in script
      ensures Fails(true, a, false) <==> MayRemain(a)
      ensures Fails(true, a, true) <==> MayRemain(a) && !(a.acquired.Ok? && a.remote == Found(true))
    {}
    assert Reached(true, script, 0);
    assert Reached(true, script, 1) <==> MayRemain(script[0]);
    assert Reached(true, script, 2) <==> MayRemain(script[0]) && MayRemain(script[1]);
  }

  // Without the option, or once the context is gone, nothing is ever deleted
  // and a path that is gone is let go.
  lemma NotMissingUnlessSure(deletes: bool, script: seq<Attempt>)
    requires |script| == 3 && script[0].local.Missing? && !(deletes && script[0].contextSeen)
    ensures Outcome(deletes, script, 0, Ok).None?
  {
    OutcomeByFields(deletes, script);
    assert Reached(deletes, script, 0);
  }
}
