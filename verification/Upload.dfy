// Atomic, resumable uploads: data goes to a partial file beside the
// destination and is renamed into place only when complete.
//
// FtpUpload and SftpUpload follow the two clients line by line, with the
// server's answers as parameters; both keep to one relation, Attempt, and
// UploadRuns proves what any mixture of edits and attempts can do.
module Upload {
  import opened Options

  type Bytes = seq<nat>

  // Files from this size on are uploaded so that they can be resumed: 10 MB.
  const RESUME_THRESHOLD: nat := 10 * 1024 * 1024

  datatype Local = Local(data: Bytes, mtime: int)

  // A remote file, the partial or the destination.
  datatype Stored = Stored(data: Bytes, mtime: int)

  // gap: the rename fallback has had to delete the destination at some time.
  datatype Store = Store(dst: Option<Stored>, partial: Option<Stored>, gap: bool)

  predicate CanResumePartial(size: int, mtime: int, local: Local) {
    size > 0 && size <= |local.data| && !(local.mtime > mtime)
  }

  // What a transfer did: sent everything, or stopped. A stopped one may not
  // even have opened the partial; otherwise the first n bytes got there.
  datatype Sent = AllSent | Stopped(began: bool, n: nat, dead: bool)

  // Lost: no answer, and the session is dead; the server may still have done it.
  datatype Reply = Done | Refused | Lost(applied: bool)

  // An answer may come late: now is what the server's clock stamps on writes,
  // stamped what it records when asked to set the time (None: it does not),
  // noSuchFile that a refusal to remove the destination says it is not there.
  datatype Answers = Answers(sizeKnown: bool, timeKnown: bool, resumed: Sent, whole: Sent,
                             now: int, stamped: Option<int>, closeOk: bool, flushed: nat, posixRename: bool,
                             rename: Reply, removeDst: Reply, noSuchFile: bool, retry: Reply, removePartial: bool)

  function Min(a: nat, b: nat): nat { if a < b then a else b }

  // A partial that passes the resume check holds the start of the local file.
  ghost predicate StartOf(p: Option<Stored>, local: Local) {
    p.Some? && local.mtime <= p.value.mtime ==> p.value.data <= local.data
  }

  ghost predicate Sound(s: Store, local: Local) {
    StartOf(s.partial, local)
  }

  // Continuing such a partial, wherever it stops, gives the start of the file.
  lemma ContinuedStart(p: Bytes, data: Bytes, k: nat)
    requires p <= data && k <= |data| - |p|
    ensures p + data[|p|..][..k] <= data && p + data[|p|..] == data
  {}

  // The attempt continues the partial rather than starting again.
  predicate Resumes(partial: Option<Stored>, local: Local, resume: bool, a: Answers) {
    resume && a.sizeKnown && a.timeKnown && partial.Some? &&
    CanResumePartial(|partial.value.data|, partial.value.mtime, local)
  }

  // FTP falls back to a full upload when the server refuses to resume.
  predicate FtpSends(resumes: bool, a: Answers) {
    (resumes && a.resumed.AllSent?) || (!(resumes && a.resumed.Stopped? && a.resumed.dead) && a.whole.AllSent?)
  }

  predicate FtpReplaces(a: Answers) {
    a.rename.Done? || (a.rename.Refused? && !a.removeDst.Lost? && a.retry.Done?)
  }

  predicate Took(reply: Reply) {
    reply.Done? || (reply.Lost? && reply.applied)
  }

  // The destination is gone in the end: it was not there or has been removed,
  // and neither rename has put the new file in place.
  predicate FtpLeavesNone(a: Answers, dst: Option<Stored>) {
    !Took(a.rename) && (dst == None || (a.rename.Refused? && Took(a.removeDst))) &&
    !(a.rename.Refused? && !a.removeDst.Lost? && Took(a.retry))
  }

  predicate SftpLeavesNone(a: Answers, dst: Option<Stored>) {
    var removing := !a.posixRename && a.rename.Refused?;
    !Took(a.rename) && (dst == None || (removing && Took(a.removeDst))) &&
    !(removing && (a.removeDst.Done? || (a.removeDst.Refused? && a.noSuchFile)) && Took(a.retry))
  }

  predicate SftpSends(resumes: bool, a: Answers) {
    (if resumes then a.resumed.AllSent? else a.whole.AllSent?) && a.closeOk
  }

  predicate SftpReplaces(a: Answers) {
    a.rename.Done? ||
    (!a.posixRename && a.rename.Refused? && (a.removeDst.Done? || (a.removeDst.Refused? && a.noSuchFile)) && a.retry.Done?)
  }

  // Both clients go on from a partial exactly if they are asked to, the server
  // tells its size and time, it is neither empty nor larger than the file, and
  // the file has not been modified since.
  lemma ResumesExactly(partial: Option<Stored>, local: Local, resume: bool, a: Answers)
    ensures Resumes(partial, local, resume, a) <==>
              resume && a.sizeKnown && a.timeKnown && partial.Some? &&
              0 < |partial.value.data| <= |local.data| && local.mtime <= partial.value.mtime
    // A server that refuses to go on is sent the whole file instead, over FTP.
    ensures resume && a.resumed.Stopped? && !a.resumed.dead && a.whole.AllSent? ==>
              FtpSends(Resumes(partial, local, resume, a), a)
    // Refused outright, a rename is tried again with the old file out of the way;
    // if that cannot be removed FTP tries all the same, SFTP only if it was not there.
    ensures a.rename.Refused? && a.removeDst.Done? && a.retry.Done? ==> FtpReplaces(a) && (SftpReplaces(a) <==> !a.posixRename)
    ensures a.rename.Refused? && a.removeDst.Refused? && a.retry.Done? ==>
              FtpReplaces(a) && (SftpReplaces(a) <==> !a.posixRename && a.noSuchFile)
    ensures a.rename.Refused? && a.removeDst.Lost? ==> !FtpReplaces(a) && !SftpReplaces(a)
    ensures a.rename.Lost? || (a.rename.Refused? && a.retry != Done) ==> !FtpReplaces(a) && !SftpReplaces(a)
  {}

  // Continuing a partial commits the local file exactly when the partial is the
  // start of it.
  lemma ResumeIsExact(p: Stored, local: Local)
    requires CanResumePartial(|p.data|, p.mtime, local)
    ensures p.data + local.data[|p.data|..] == local.data <==> p.data <= local.data
  {
    if p.data + local.data[|p.data|..] == local.data {
      assert local.data[..|p.data|] == p.data;
    }
  }

  predicate HasData(f: Option<Stored>, data: Bytes) {
    f.Some? && f.value.data == data
  }

  // What one attempt may do, whichever protocol it uses.
  ghost predicate Attempt(s: Store, local: Local, ok: bool, s': Store) {
    && (s.gap ==> s'.gap)
    && (Sound(s, local) ==>
          && Sound(s', local)
          && (ok ==> HasData(s'.dst, local.data) && s'.partial == None)
          && (!ok ==> s'.dst == s.dst || HasData(s'.dst, local.data) || (s'.dst == None && s'.gap)))
  }

  class RemoteDir {
    var dst: Option<Stored>
    var partial: Option<Stored>
    ghost var gap: bool

    ghost function State(): Store
      reads this
    {
      Store(dst, partial, gap)
    }

    constructor (dst: Option<Stored>, partial: Option<Stored>)
      ensures State() == Store(dst, partial, false)
    {
      this.dst, this.partial, gap := dst, partial, false;
    }

    // Bytes written at the end of what is already there.
    method Append(bytes: Bytes, sent: Sent, now: int) returns (ok: bool)
      requires partial.Some?
      modifies this`partial
      ensures ok == sent.AllSent?
      ensures sent.AllSent? ==> partial == Some(Stored(old(partial.value.data) + bytes, now))
      ensures sent.Stopped? ==>
                (partial == old(partial) ||
                 exists k :: 0 <= k <= |bytes| && partial == Some(Stored(old(partial.value.data) + bytes[..k], now)))
    {
      ok := sent.AllSent?;
      if ok {
        partial := Some(Stored(partial.value.data + bytes, now));
      } else if sent.began && sent.n > 0 {
        var k := Min(sent.n, |bytes|);
        partial := Some(Stored(partial.value.data + bytes[..k], now));
      }
    }

    // The partial truncated and written from the start.
    method Overwrite(bytes: Bytes, sent: Sent, now: int) returns (ok: bool)
      modifies this`partial
      ensures ok == sent.AllSent?
      ensures sent.AllSent? ==> partial == Some(Stored(bytes, now))
      ensures sent.Stopped? ==>
                (partial == old(partial) ||
                 exists k :: 0 <= k <= |bytes| && partial == Some(Stored(bytes[..k], now)))
    {
      ok := sent.AllSent?;
      if ok {
        partial := Some(Stored(bytes, now));
      } else if sent.began {
        var k := Min(sent.n, |bytes|);
        partial := Some(Stored(bytes[..k], now));
      }
    }

    // Server-side rename of the partial over the destination.
    method Rename(reply: Reply)
      requires partial.Some?
      modifies this`dst, this`partial
      ensures if Took(reply)
              then dst == old(partial) && partial == None
              else dst == old(dst) && partial == old(partial)
    {
      if Took(reply) {
        dst, partial := partial, None;
      }
    }

    method RemoveDst(reply: Reply)
      modifies this`dst, this`gap
      ensures if Took(reply) then dst == None && gap
              else dst == old(dst) && gap == old(gap)
    {
      if Took(reply) { dst := None; gap := true; }
    }

    // ftpReplace: servers that refuse to overwrite get dst deleted first.
    method FtpReplace(a: Answers) returns (ok: bool, dead: bool)
      requires partial.Some?
      modifies this
      ensures ok <==> FtpReplaces(a)
      ensures dst == None <==> FtpLeavesNone(a, old(dst))
      ensures old(gap) ==> gap
      ensures ok ==> dst == old(partial) && partial == None
      ensures !ok ==> dst == old(dst) || dst == old(partial) || (dst == None && gap)
      ensures partial == None || partial == old(partial)
      ensures a.rename.Refused? && !a.removeDst.Lost? && a.retry.Refused? ==> !dead && partial == old(partial)
    {
      Rename(a.rename);
      if !a.rename.Refused? { return a.rename.Done?, a.rename.Lost?; }
      RemoveDst(a.removeDst);
      if a.removeDst.Lost? { return false, true; }
      Rename(a.retry);
      return a.retry.Done?, a.retry.Lost?;
    }

    // sftpReplace: posix-rename where offered, else rename, else remove and rename.
    method SftpReplace(a: Answers) returns (ok: bool)
      requires partial.Some?
      modifies this
      ensures ok <==> SftpReplaces(a)
      ensures dst == None <==> SftpLeavesNone(a, old(dst))
      ensures old(gap) ==> gap
      ensures ok ==> dst == old(partial) && partial == None
      ensures !ok ==> dst == old(dst) || dst == old(partial) || (dst == None && gap)
      ensures partial == None || partial == old(partial)
    {
      Rename(a.rename);
      if a.posixRename || a.rename.Done? { return a.rename.Done?; }
      if a.rename.Lost? { return false; }
      RemoveDst(a.removeDst);
      if !a.removeDst.Done? && !(a.removeDst.Refused? && a.noSuchFile) { return false; }
      Rename(a.retry);
      return a.retry.Done?;
    }

    method DropPartial(works: bool)
      modifies this`partial
      ensures partial == if works then None else old(partial)
    {
      if works { partial := None; }
    }

    // The offset to resume from: 0 unless the server's answers show that the
    // partial is from this version of the file.
    method ResumeOffset(local: Local, resume: bool, a: Answers) returns (offset: nat)
      ensures offset == if Resumes(partial, local, resume, a) then |partial.value.data| else 0
    {
      offset := 0;
      if resume && a.sizeKnown && partial.Some? {
        if a.timeKnown && CanResumePartial(|partial.value.data|, partial.value.mtime, local) {
          offset := |partial.value.data|;
        }
      }
    }

    // Continue the partial from offset, which passed the resume check.
    method Continue(local: Local, a: Answers) returns (done: bool)
      requires partial.Some? && CanResumePartial(|partial.value.data|, partial.value.mtime, local)
      modifies this`partial
      ensures done == a.resumed.AllSent? && partial.Some?
      ensures StartOf(old(partial), local) ==>
                StartOf(partial, local) && (done ==> partial.value.data == local.data)
    {
      var offset := |partial.value.data|;
      ghost var before := partial.value;
      done := Append(local.data[offset..], a.resumed, a.now);
      if before.data <= local.data {
        ContinuedStart(before.data, local.data, 0);
        forall k: nat | k <= |local.data| - offset ensures before.data + local.data[offset..][..k] <= local.data {
          ContinuedStart(before.data, local.data, k);
        }
      }
    }

    method Restart(local: Local, a: Answers) returns (done: bool)
      modifies this`partial
      ensures done == a.whole.AllSent? && (old(partial).Some? ==> partial.Some?)
      ensures done ==> partial.Some? && partial.value.data == local.data
      ensures StartOf(old(partial), local) ==> StartOf(partial, local)
    {
      done := Overwrite(local.data, a.whole, a.now);
    }

    // ftpClient.upload, up to where the partial holds the whole file.
    method FtpSend(local: Local, resume: bool, a: Answers) returns (done: bool, dead: bool, sent: nat)
      modifies this`partial
      ensures done <==> FtpSends(Resumes(old(partial), local, resume, a), a)
      ensures old(partial).Some? ==> partial.Some?
      ensures StartOf(old(partial), local) ==>
                StartOf(partial, local) && (done ==> partial.Some? && partial.value.data == local.data)
      ensures done ==> partial.Some?
      ensures !done && !resume ==> dead == a.whole.dead
      ensures done && a.resumed.AllSent? && Resumes(old(partial), local, resume, a) ==>
                sent == |local.data| - |old(partial).value.data|
    {
      var offset := ResumeOffset(local, resume, a);
      sent, done := |local.data| - offset, false;
      if offset > 0 {
        done := Continue(local, a);
        if !done {
          if a.resumed.dead { return false, true, sent; }
          offset := 0;   // REST unsupported or the partial is unusable
        }
      }
      if offset == 0 {
        done := Restart(local, a);
        sent := |local.data|;
      }
      dead := !done && a.whole.dead;
    }

    // ftpClient.upload.
    method FtpUpload(local: Local, resume: bool, a: Answers) returns (ok: bool, sent: nat)
      modifies this
      ensures ok <==> FtpSends(Resumes(old(partial), local, resume, a), a) && FtpReplaces(a)
      ensures FtpSends(Resumes(old(partial), local, resume, a), a) ==> (dst == None <==> FtpLeavesNone(a, old(dst)))
      ensures !FtpSends(Resumes(old(partial), local, resume, a), a) ==>
                dst == old(dst) && (resume && old(partial).Some? ==> partial.Some?)
      ensures Attempt(old(State()), local, ok, State())
      ensures a.whole.AllSent? && !(a.resumed.Stopped? && a.resumed.dead) && a.rename.Done? ==> ok
      ensures ok && !a.rename.Done? ==> a.rename.Refused? && !a.removeDst.Lost? && a.retry.Done?
      ensures ok && !a.whole.AllSent? ==>
                resume && a.sizeKnown && a.timeKnown && a.resumed.AllSent? && old(partial).Some? &&
                0 < |old(partial).value.data| <= |local.data| && local.mtime <= old(partial).value.mtime
      ensures !resume && a.whole.Stopped? && !a.whole.dead && a.removePartial ==> partial == None
      ensures FtpSends(Resumes(old(partial), local, resume, a), a) ==>
                a.rename.Refused? && !a.removeDst.Lost? && a.retry.Refused? ==> (partial == None <==> a.removePartial)
      ensures ok && a.stamped.Some? ==> dst.Some? && dst.value.mtime == a.stamped.value
      ensures ok && a.resumed.AllSent? && Resumes(old(partial), local, resume, a) ==>
                sent == |local.data| - |old(partial).value.data|
    {
      var done, dead;
      done, dead, sent := FtpSend(local, resume, a);
      if !done {
        if !resume && !dead { DropPartial(a.removePartial); }
        return false, sent;
      }
      if a.stamped.Some? { partial := Some(partial.value.(mtime := a.stamped.value)); }
      ok, dead := FtpReplace(a);
      if !ok && !dead { DropPartial(a.removePartial); }
    }

    // sftpClient.uploadOn, up to where the handle has been closed.
    method SftpSend(local: Local, resume: bool, a: Answers) returns (done: bool, sent: nat)
      modifies this`partial
      ensures done <==> SftpSends(Resumes(old(partial), local, resume, a), a)
      ensures old(partial).Some? ==> partial.Some?
      ensures StartOf(old(partial), local) ==>
                StartOf(partial, local) && (done ==> partial.Some? && partial.value.data == local.data)
      ensures done ==> partial.Some? && (a.stamped.Some? ==> partial.value.mtime == a.stamped.value)
      ensures Resumes(old(partial), local, resume, a) ==> sent == |local.data| - |old(partial).value.data|
    {
      var offset := ResumeOffset(local, resume, a);
      sent := |local.data| - offset;
      if offset > 0 { done := Continue(local, a); } else { done := Restart(local, a); }
      if !done { return false, sent; }
      // Writes are pipelined: a failed close may mean that only the first of
      // them arrived. Chtimes runs meanwhile, so such an unfinished partial can
      // even carry the local file's own time.
      var p := partial.value;
      if !a.closeOk { p := p.(data := p.data[..Min(a.flushed, |p.data|)]); }
      if a.stamped.Some? { p := p.(mtime := a.stamped.value); }
      partial := Some(p);
      done := a.closeOk;
    }

    // sftpClient.uploadOn.
    method SftpUpload(local: Local, resume: bool, a: Answers) returns (ok: bool, sent: nat)
      modifies this
      ensures ok <==> SftpSends(Resumes(old(partial), local, resume, a), a) && SftpReplaces(a)
      ensures SftpSends(Resumes(old(partial), local, resume, a), a) ==> (dst == None <==> SftpLeavesNone(a, old(dst)))
      ensures !SftpSends(Resumes(old(partial), local, resume, a), a) ==>
                dst == old(dst) && (if resume then old(partial).Some? ==> partial.Some? else a.removePartial ==> partial == None)
      ensures Attempt(old(State()), local, ok, State())
      ensures a.whole.AllSent? && a.resumed.AllSent? && a.closeOk && a.rename.Done? ==> ok
      ensures !ok && SftpSends(Resumes(old(partial), local, resume, a), a) && a.removePartial ==> partial == None
      ensures ok ==> a.closeOk && (a.rename.Done? || (!a.posixRename && a.rename.Refused? && a.retry.Done?))
      ensures ok && !a.whole.AllSent? ==>
                resume && a.sizeKnown && a.timeKnown && a.resumed.AllSent? && old(partial).Some? &&
                0 < |old(partial).value.data| <= |local.data| && local.mtime <= old(partial).value.mtime
      ensures ok && a.stamped.Some? ==> dst.Some? && dst.value.mtime == a.stamped.value
      ensures ok && Resumes(old(partial), local, resume, a) ==> sent == |local.data| - |old(partial).value.data|
    {
      var done;
      done, sent := SftpSend(local, resume, a);
      if !done {
        if !resume { DropPartial(a.removePartial); }
        return false, sent;
      }
      ok := SftpReplace(a);
      if !ok { DropPartial(a.removePartial); }
    }
  }
}

// Any sequence of local edits and upload attempts.
module UploadRuns {
  import opened Options
  import opened Upload

  // versions: everything the local file has held so far.
  datatype World = World(local: Local, store: Store, versions: set<Bytes>)

  datatype Event = Edit | Tried(ok: bool)

  // An edit's time is later than that of any partial written before it; edits
  // do not happen during an attempt.
  ghost predicate Step(w: World, e: Event, w': World) {
    match e
    case Edit =>
      && w'.store == w.store && w'.versions == w.versions + {w'.local.data}
      && (w.store.partial.Some? ==> w.store.partial.value.mtime < w'.local.mtime)
    case Tried(ok) =>
      w'.local == w.local && w'.versions == w.versions && Attempt(w.store, w.local, ok, w'.store)
  }

  // A partial from before may be lying there.
  ghost predicate Initial(w: World) {
    Sound(w.store, w.local) && !w.store.gap && w.versions == {w.local.data}
  }

  ghost predicate Inv(w: World, first: Option<Stored>) {
    && Sound(w.store, w.local) && w.local.data in w.versions
    && (match w.store.dst
        case None => first == None || w.store.gap
        case Some(f) => first == Some(f) || f.data in w.versions)
  }

  lemma StepKeepsInv(w: World, e: Event, w': World, first: Option<Stored>)
    requires Inv(w, first) && Step(w, e, w')
    ensures Inv(w', first)
    ensures e == Tried(true) ==> HasData(w'.store.dst, w.local.data)
    ensures e == Edit ==> w'.store.dst == w.store.dst
  {}

  ghost predicate IsRun(worlds: seq<World>, events: seq<Event>) {
    |worlds| == |events| + 1 && Initial(worlds[0]) &&
    forall k | 0 <= k < |events| :: Step(worlds[k], events[k], worlds[k + 1])
  }

  // After any number of edits, failures and retries the destination is the
  // original, or a complete version of the local file, or absent, and absent
  // only if it was at first or the rename fallback has deleted it; and every
  // attempt that reports success has put the current version there.
  lemma {:induction false} UploadsAreAtomic(worlds: seq<World>, events: seq<Event>, k: nat)
    requires IsRun(worlds, events) && k < |worlds|
    ensures Inv(worlds[k], worlds[0].store.dst)
    ensures k > 0 && events[k - 1] == Tried(true) ==>
              HasData(worlds[k].store.dst, worlds[k].local.data) && worlds[k].store.partial == None
  {
    if k == 0 {
    } else {
      UploadsAreAtomic(worlds, events, k - 1);
      StepKeepsInv(worlds[k - 1], events[k - 1], worlds[k], worlds[0].store.dst);
    }
  }

  // An edit that is not later than the partial lets a stale one pass the check.
  lemma StaleEditCorrupts()
    ensures var p, edited := Stored([1], 5), Local([2, 2], 5);
            p.data <= [1, 1] && CanResumePartial(|p.data|, p.mtime, edited) &&
            p.data + edited.data[|p.data|..] != edited.data
  {
    assert ([1] + [2, 2][1..])[0] == 1;
  }
}
