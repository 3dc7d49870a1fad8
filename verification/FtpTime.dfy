// FTP listing times: truncated, in the server's own timezone, and date-only
// for old files; and why a file whose time was set on upload still compares
// as in sync.
module FtpTime {
  import opened Options
  import opened Trees

  // Nanoseconds.
  const MINUTE := 60_000_000_000
  const QUARTER := 900_000_000_000
  const DAY := 86_400_000_000_000
  const MAX_OFFSET := 50_400_000_000_000        // 14 hours
  const OLD := 12_960_000_000_000_000           // 150 days
  const MAX_TRIES := 3

  // Dafny's % is never negative, so these floor.
  function WholeSecond(t: int): int { t - t % 1_000_000_000 }

  function WholeMinute(t: int): int { t - t % 60_000_000_000 }

  function WholeDay(t: int): int { t - t % 86_400_000_000_000 }

  // Go's remainder takes the sign of the dividend.
  function QuarterRest(d: int): int {
    if d >= 0 then d % 900_000_000_000 else -((-d) % 900_000_000_000)
  }

  // time.Duration.Round to 15 minutes: to the nearest, halves away from zero.
  function RoundToQuarter(d: int): int {
    var r := QuarterRest(d);
    if d < 0 then
      if -r + -r < QUARTER then d - r else d - QUARTER - r
    else
      if r + r < QUARTER then d - r else d + QUARTER - r
  }

  function ListTimePrecision(t: int, precise: bool, now: int): nat {
    if precise then 0 else if now - t > OLD then DAY else MINUTE
  }

  function ListOffsetFrom(listed: int, mdtm: int): Option<int> {
    var offset := RoundToQuarter(listed - mdtm);
    if offset < -MAX_OFFSET || offset > MAX_OFFSET then None else Some(offset)
  }

  // ---- The server ----

  predicate IsZone(offset: int) {
    offset % 900_000_000_000 == 0 && -MAX_OFFSET <= offset <= MAX_OFFSET
  }

  // A file as the server has it: its true time, and whether LIST shows it by
  // date only, which servers do for old files.
  datatype Listing = Listing(isFile: bool, mtime: int, dateOnly: bool)

  predicate Plausible(l: Listing, now: int) {
    l.dateOnly ==> now - l.mtime > OLD
  }

  // What LIST shows: local wall clock, truncated, parsed as if it were UTC.
  function ShownAs(l: Listing, offset: int): int {
    if l.dateOnly then WholeDay(l.mtime + offset) else WholeMinute(l.mtime + offset)
  }

  // The entry's time as the FTP library parses it; MLSD times are exact.
  function EntryTime(l: Listing, offset: int, precise: bool): int {
    if precise then l.mtime else ShownAs(l, offset)
  }

  // MDTM: true UTC, whole seconds (section 3 of RFC 3659).
  function Mdtm(l: Listing): int {
    WholeSecond(l.mtime)
  }

  // ---- Rounding finds the timezone ----

  // The nearest quarter of an hour, whichever side d is on.
  lemma RoundIsNearest(d: int, offset: int)
    requires offset % 900_000_000_000 == 0 && offset - MINUTE <= d <= offset + MINUTE
    ensures RoundToQuarter(d) == offset
  {}

  // Every whole number of quarters is found, up to fourteen hours either way.
  lemma OffsetIsExact(l: Listing, offset: int)
    requires offset % 900_000_000_000 == 0 && !l.dateOnly
    ensures ListOffsetFrom(ShownAs(l, offset), Mdtm(l)) ==
            if -50_400_000_000_000 <= offset <= 50_400_000_000_000 then Some(offset) else None
    ensures IsZone(offset) <==> -50_400_000_000_000 <= offset <= 50_400_000_000_000
  {
    RoundIsNearest(ShownAs(l, offset) - Mdtm(l), offset);
  }

  // Detection looks only at entries that cannot be listed by date alone.
  lemma DateOnlyIsNeverUsed(l: Listing, offset: int, now: int)
    requires IsZone(offset) && Plausible(l, now) && l.dateOnly
    ensures ListTimePrecision(ShownAs(l, offset), false, now + MAX_OFFSET) != MINUTE
  {}

  // ---- What a listing entry becomes ----

  datatype Remote = Remote(mtime: int, precision: nat)

  // ftpClient's memory of the server's timezone.
  class OffsetDetector {
    var listOffset: int
    var known: bool
    var tries: nat

    constructor ()
      ensures listOffset == 0 && !known && tries == 0
    {
      listOffset, known, tries := 0, false, 0;
    }

    // Once known, the offset is the server's own.
    ghost predicate Right(offset: int, precise: bool, mdtmWorks: bool)
      reads this
    {
      && (known && !precise && mdtmWorks ==> listOffset == offset)
      && (!known || precise || !mdtmWorks ==> listOffset == 0)
    }

    // detectListOffset. answers: whether the server replies to this MDTM.
    method Detect(l: Listing, offset: int, precise: bool, mdtmWorks: bool, answers: bool, now: int) returns (ok: bool)
      requires IsZone(offset) && Plausible(l, now)
      requires Right(offset, precise, mdtmWorks)
      modifies this
      ensures Right(offset, precise, mdtmWorks) && ok == known
      ensures old(known) ==> known && listOffset == old(listOffset) && tries == old(tries)
      ensures tries == old(tries) || tries == old(tries) + 1 <= 3
      ensures !known ==> !precise && mdtmWorks
      ensures !known && !Usable(l, offset, now) ==> tries == old(tries)
      ensures !old(known) && !precise && mdtmWorks && !Usable(l, offset, now) ==> !known
      ensures !known && Usable(l, offset, now) ==> !answers || old(tries) >= 3
    {
      if known { return true; }
      if precise || !mdtmWorks {
        known := true;
        return true;
      }
      var entryTime := ShownAs(l, offset);
      if !l.isFile || tries >= MAX_TRIES || ListTimePrecision(entryTime, false, now + MAX_OFFSET) != MINUTE {
        return false;
      }
      tries := tries + 1;
      if !answers { return false; }
      if l.dateOnly { DateOnlyIsNeverUsed(l, offset, now); } else { OffsetIsExact(l, offset); }
      var found := ListOffsetFrom(entryTime, Mdtm(l));
      if found.None? { return false; }
      listOffset := found.value;
      known := true;
      return true;
    }

    method ToRemote(entryTime: int, precise: bool, now: int) returns (r: Remote)
      ensures r == if precise then Remote(entryTime, 0)
                   else Remote(entryTime - listOffset, ListTimePrecision(entryTime - listOffset, false, now))
    {
      var mtime := entryTime;
      if !precise { mtime := mtime - listOffset; }
      r := Remote(mtime, ListTimePrecision(mtime, precise, now));
    }

    // ReadDir: try entries until the offset is known, then convert them all.
    method ReadDir(entries: seq<Listing>, offset: int, precise: bool, mdtmWorks: bool, answers: seq<bool>, now: int)
      returns (result: seq<Remote>)
      requires IsZone(offset) && |answers| == |entries| && forall l <- entries :: Plausible(l, now)
      requires Right(offset, precise, mdtmWorks)
      modifies this
      ensures Right(offset, precise, mdtmWorks) && |result| == |entries|
      ensures old(tries) < MAX_TRIES && (forall a <- answers :: a) ==>
                forall i | 0 <= i < |entries| && Usable(entries[i], offset, now) :: known
      ensures precise ==> forall i | 0 <= i < |entries| :: result[i] == Remote(entries[i].mtime, 0)
      ensures !precise && mdtmWorks && known ==>
                forall i | 0 <= i < |entries| :: result[i] == Seen(entries[i], offset, offset, now)
      ensures !precise && (!known || !mdtmWorks) ==>
                forall i | 0 <= i < |entries| :: result[i] == Seen(entries[i], offset, 0, now)
      ensures !old(known) && !precise && mdtmWorks && (forall l <- entries :: !Usable(l, offset, now)) ==> !known
    {
      var i := 0;
      while i < |entries| && !known
        invariant i <= |entries| && Right(offset, precise, mdtmWorks)
        invariant !known && old(tries) < MAX_TRIES && (forall a <- answers :: a) ==>
                    tries == old(tries) && forall k | 0 <= k < i :: !Usable(entries[k], offset, now)
        invariant !old(known) && !precise && mdtmWorks && (forall l <- entries :: !Usable(l, offset, now)) ==> !known
      {
        assert entries[i] in entries && answers[i] in answers;
        var _ := Detect(entries[i], offset, precise, mdtmWorks, answers[i], now);
        i := i + 1;
      }
      result := [];
      ghost var found := known;
      for k := 0 to |entries|
        invariant |result| == k && known == found && Right(offset, precise, mdtmWorks)
        invariant precise ==> forall j | 0 <= j < k :: result[j] == Remote(entries[j].mtime, 0)
        invariant !precise && mdtmWorks && known ==>
                    forall j | 0 <= j < k :: result[j] == Seen(entries[j], offset, offset, now)
        invariant !precise && (!known || !mdtmWorks) ==>
                    forall j | 0 <= j < k :: result[j] == Seen(entries[j], offset, 0, now)
      {
        var r := ToRemote(EntryTime(entries[k], offset, precise), precise, now);
        result := result + [r];
      }
    }
  }

  // An entry that lets the offset be detected when MDTM answers.
  predicate Usable(l: Listing, offset: int, now: int) {
    l.isFile && ListTimePrecision(ShownAs(l, offset), false, now + MAX_OFFSET) == MINUTE
  }

  // Those are the files listed to the minute, as far as they are sure to be
  // under 150 days old on any server's clock.
  lemma UsableExactly(l: Listing, offset: int, now: int)
    requires IsZone(offset) && Plausible(l, now)
    ensures Usable(l, offset, now) <==>
              l.isFile && !l.dateOnly &&
              now + 50_400_000_000_000 - 12_960_000_000_000_000 <= l.mtime + offset - (l.mtime + offset) % 60_000_000_000
  {}

  // The entry as the client sees it when it corrects by `used`.
  function Seen(l: Listing, offset: int, used: int, now: int): Remote {
    var mtime := ShownAs(l, offset) - used;
    Remote(mtime, ListTimePrecision(mtime, false, now))
  }

  // Corrected by the right offset, the true time lies in the entry's window: a
  // day for a time over 150 days past, a minute for any other.
  lemma TrueTimeIsInWindow(l: Listing, offset: int, now: int)
    requires IsZone(offset) && Plausible(l, now)
    ensures var r := Seen(l, offset, offset, now);
            && r.mtime <= l.mtime < r.mtime + r.precision
            && r.precision == if now > r.mtime + 12_960_000_000_000_000 then 86_400_000_000_000 else 60_000_000_000
  {}

  // ---- Setting times makes files compare as in sync ----

  // The comparison, for a file whose size agrees.
  predicate TimesDiffer(local: int, r: Remote) {
    IsDifferent(File([], local, 0), File([], r.mtime, r.precision))
  }

  // A file whose time was set on upload, to the whole second, is not uploaded
  // again, whether it is listed to the minute or by date, at any later time.
  lemma SetTimesStayInSync(local: int, l: Listing, offset: int, now: int)
    requires IsZone(offset) && Plausible(l, now) && l.mtime == WholeSecond(local)
    ensures !TimesDiffer(local, Seen(l, offset, offset, now))
  {
    TrueTimeIsInWindow(l, offset, now);
  }

  // With exact times (SFTP, MLSD) the same holds directly.
  lemma ExactTimesStayInSync(local: int)
    ensures !TimesDiffer(local, Remote(WholeSecond(local), 0))
  {}

  // Why detection is needed: left uncorrected, a recent file is in sync exactly
  // when the server lists in UTC.
  lemma UncorrectedNeedsUtc(local: int, l: Listing, offset: int, now: int)
    requires IsZone(offset) && !l.dateOnly && l.mtime == WholeSecond(local)
    requires Seen(l, offset, 0, now).precision == MINUTE
    ensures !TimesDiffer(local, Seen(l, offset, 0, now)) <==> offset == 0
  {}

  // A file whose time was not set here can drift out of sync when the server
  // goes over to listing it by date: exactly when the local time, on the
  // server's calendar, is not on that day, give or take the tolerance.
  lemma DateOnlyDrift(local: int, l: Listing, offset: int, now: int)
    requires IsZone(offset) && l.dateOnly && Plausible(l, now)
    ensures TimesDiffer(local, Seen(l, offset, offset, now)) <==>
              local + offset < WholeDay(l.mtime + offset) - SLACK || local + offset > WholeDay(l.mtime + offset) + DAY + SLACK
  {}

  // 10:00 on the server and 23 hours later here: in sync at 157 days, listed
  // to the minute but taken for a date, and not at 210 days, listed by date.
  lemma DriftHappens()
    ensures var remote, local := 36_000_000_000_000, 118_800_000_000_000;
            var early, late := remote + 157 * DAY, remote + 210 * DAY;
            && Plausible(Listing(true, remote, false), early) && Plausible(Listing(true, remote, true), late)
            && !TimesDiffer(local, Seen(Listing(true, remote, false), 0, 0, early))
            && TimesDiffer(local, Seen(Listing(true, remote, true), 0, 0, late))
  {}

  // ---- Without the offset ----

  // A file whose time was set to the whole second, seen without any correction
  // because the offset was never found, is in sync exactly: listed to the
  // minute and taken for that, if the server lists in UTC; listed to the minute
  // and taken for a date, if the server is not east of it; listed by date, if
  // the time falls in what is shown, give or take the tolerance.
  predicate AgreesUncorrected(local: int, l: Listing, offset: int, now: int) {
    var precision := ListTimePrecision(ShownAs(l, offset), false, now);
    if l.dateOnly then WholeDay(l.mtime + offset) - SLACK <= local <= WholeDay(l.mtime + offset) + precision + SLACK
    else if precision == MINUTE then offset == 0
    else offset <= 0
  }

  lemma UncorrectedInSync(local: int, l: Listing, offset: int, now: int)
    requires IsZone(offset) && Plausible(l, now) && l.mtime == WholeSecond(local)
    ensures !TimesDiffer(local, Seen(l, offset, 0, now)) <==> AgreesUncorrected(local, l, offset, now)
  {
    if !l.dateOnly && Seen(l, offset, 0, now).precision == MINUTE { UncorrectedNeedsUtc(local, l, offset, now); }
  }

  // 20:00 UTC on a server eight hours ahead, listed by date 200 days on, alone:
  // the offset stays unknown and the file just sent compares as different.
  lemma UncorrectedDateDiffers()
    ensures var local, offset := 72_000_000_000_000, 28_800_000_000_000;
            var l, now := Listing(true, local, true), local + 200 * DAY;
            IsZone(offset) && Plausible(l, now) && !Usable(l, offset, now) && TimesDiffer(local, Seen(l, offset, 0, now))
  {}
}
