// What a second mirror run does, given how the first one set file times and how
// the destination lists them afterwards.
module SecondRun {
  import opened Options
  import opened Trees
  import opened Mirror
  import opened FtpTime

  // ---- Exact times: SFTP, MLSD, and the local side ----

  // Chtimes over SFTP keeps whole seconds, and scans show them exactly.
  ghost predicate SetExactly(r: Run) {
    forall p | r.Arrives(p) :: r.stamps(p) == Stamp(WholeSecond(r.source[p].mtime), 0)
  }

  lemma SftpUpIsIdempotent(r: Run, e: Entry)
    requires r.Sound() && r.up && SetExactly(r)
    ensures e in Plan(r.source, Scan(r.ignored, r.Final()), true) ==>
              e.action.Skip? || e.action.DeleteDir? || (e.action.Upload? && r.Blocked(e.path))
    ensures e.path in r.source && r.source[e.path].File? ==>
              (Entry(Skip, e.path, false) in Plan(r.source, Scan(r.ignored, r.Final()), true) <==>
               !(r.Transferred(e.path) && r.Blocked(e.path)))
  {
    forall p | r.Arrives(p) ensures !Differs(r.source[p], r.Sent(p), r.up) {
      ExactTimesStayInSync(r.source[p].mtime);
    }
    MirrorIsIdempotent(r, e);
    MirrorIsIdempotent(r, Entry(Skip, e.path, false));
  }

  // A download sets the local file's time to the remote one, which the local
  // file system keeps at least to the second.
  ghost predicate SetLocally(r: Run) {
    forall p | r.Arrives(p) :: WholeSecond(r.source[p].mtime) <= r.stamps(p).mtime <= r.source[p].mtime
  }

  lemma DownIsIdempotent(r: Run, e: Entry)
    requires r.Sound() && !r.up && SetLocally(r)
    ensures e in Plan(r.source, Scan(r.ignored, r.Final()), false) ==> e.action.Skip? || e.action.DeleteDir?
    ensures e.path in r.source && r.source[e.path].File? ==>
              Entry(Skip, e.path, false) in Plan(r.source, Scan(r.ignored, r.Final()), false)
  {
    forall p | r.Arrives(p) ensures !Differs(r.source[p], r.Sent(p), r.up) {
      assert r.source[p].mtime - SECOND < WholeSecond(r.source[p].mtime);
    }
    MirrorIsIdempotent(r, e);
    MirrorIsIdempotent(r, Entry(Skip, e.path, false));
  }

  // ---- FTP: the server lists every file anew ----

  // The same tree as a later scan sees it, times and precisions included.
  function Relisted(t: Tree, listed: Path -> Remote): Tree {
    map p | p in t :: if t[p].File? then File(t[p].data, listed(p).mtime, listed(p).precision) else Dir
  }

  lemma {:induction false} RelistedVisible(ignored: Path -> bool, t: Tree, listed: Path -> Remote, p: Path)
    ensures Visible(ignored, Relisted(t, listed), p) <==> Visible(ignored, t, p)
    decreases |p|
  {
    if |p| <= 1 {
    } else {
      RelistedVisible(ignored, t, listed, Parent(p));
    }
  }

  // How the server has each file at the time of the second scan; the times of
  // the files sent are the ones set.
  ghost predicate ListsWhatWasSet(r: Run, now: int, listing: Path -> Listing) {
    forall p <- r.source :: r.source[p].File? ==>
      Plausible(listing(p), now) && (r.Arrives(p) ==> listing(p).mtime == WholeSecond(r.source[p].mtime))
  }

  // used: the offset each entry is corrected by, the server's or, as long as
  // that has not been found, none.
  function ListedAs(listing: Path -> Listing, offset: int, used: Path -> int, now: int): Path -> Remote {
    p => Seen(listing(p), offset, used(p), now)
  }

  lemma DecideAgain(r: Run, listed: Path -> Remote, p: Path)
    requires r.Sound() && r.up && p in r.source && r.source[p].File? && p in r.Final()
    ensures Decide(r.source, Scan(r.ignored, Relisted(r.Final(), listed)), true, p) ==
            Some(Entry(if |r.source[p].data| != |r.Final()[p].data| || TimesDiffer(r.source[p].mtime, listed(p))
                       then Upload else Skip, p, false))
  {
    FinalMirrorsSource(r, p);
    VisibleAfterwards(r, p);
    RelistedVisible(r.ignored, r.Final(), listed, p);
  }

  // A second mirror-up over FTP, however the server lists each file by then and
  // whether or not its timezone was found: any file in place is skipped exactly
  // if it compares as in sync under its new listing. That holds for a file whose
  // time was set from here, by this run or an earlier one, if its entry was
  // corrected, and exactly under AgreesUncorrected if it was not.
  lemma FtpSecondRun(r: Run, offset: int, used: Path -> int, now: int, listing: Path -> Listing, p: Path)
    requires r.Sound() && r.up && IsZone(offset) && ListsWhatWasSet(r, now, listing)
    requires p in r.source && r.source[p].File? && (used(p) == offset || used(p) == 0)
    ensures var d := Decide(r.source, Scan(r.ignored, Relisted(r.Final(), ListedAs(listing, offset, used, now))), true, p);
            var drifts := TimesDiffer(r.source[p].mtime, Seen(listing(p), offset, used(p), now));
            && (r.Arrives(p) || !r.Transferred(p) ==> d == Some(Entry(if drifts then Upload else Skip, p, false)))
            && (r.Transferred(p) && r.Blocked(p) && p in r.dest ==>
                  d == Some(Entry(if |r.source[p].data| != |r.dest[p].data| || drifts then Upload else Skip, p, false)))
            && (r.Transferred(p) && r.Blocked(p) && p !in r.dest ==> d == Some(Entry(Upload, p, true)))
            && (r.Arrives(p) || listing(p).mtime == WholeSecond(r.source[p].mtime) ==>
                  && (used(p) == offset ==> !drifts)
                  && (used(p) == 0 ==> (drifts <==> !AgreesUncorrected(r.source[p].mtime, listing(p), offset, now))))
  {
    var listed := ListedAs(listing, offset, used, now);
    FinalMirrorsSource(r, p);
    SentIsExact(r, p);
    VisibleAfterwards(r, p);
    RelistedVisible(r.ignored, r.Final(), listed, p);
    if At(r.Final(), p).Some? { DecideAgain(r, listed, p); }
    if listing(p).mtime == WholeSecond(r.source[p].mtime) {
      SetTimesStayInSync(r.source[p].mtime, listing(p), offset, now);
      UncorrectedInSync(r.source[p].mtime, listing(p), offset, now);
    }
  }
}
