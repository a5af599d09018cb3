/** A search beside a living archive: what it reads, and when, while the store goes on. */
module ArchiveQuery {
  import opened Options
  import opened ArchiveTypes
  import opened ArchiveDisk
  import opened ArchiveJournal
  import opened ArchiveStaging
  import opened ArchiveCommit
  import opened ArchiveHistory
  import opened ArchiveReaders
  import opened ArchiveRanges
  import opened ArchiveRun
  import opened ArchiveSnapshot
  import S = ArchiveSearch

  /** A search request: the history of the archive, the idle moment its snapshot was taken, the hours pinned,
      the cursor it comes with, and its limits. */
  datatype Request = Request(t: Trace, a: nat, source: string, hs: seq<int>, q: S.Query, from: Option<S.Position>, limits: S.Limits)

  function Pin(r: Request, h: nat): Key
    requires h < |r.hs|
  {
    Key(r.source, r.hs[h])
  }

  predicate Taken(z: Codec, r: Request) {
    r.a < |r.t.disks| && Readable(z, r.t.disks[r.a]) && Pinned(r.t.disks[r.a], r.source, r.hs)
  }

  /** The hours as they were when the snapshot was taken. */
  function Snapshot(z: Codec, r: Request): seq<S.Hour>
    requires Taken(z, r)
  {
    HoursAt(z, r.t.disks[r.a], r.source, r.hs)
  }

  ghost predicate Posed(z: Codec, r: Request) {
    && TraceOk(z, r.t) && Taken(z, r) && 0 < r.q.limit && S.SnapshotOk(Snapshot(z, r))
    && (r.from.Some? ==> S.Placed(Snapshot(z, r), r.from.value))
  }

  function IndexAt(r: Request, h: nat): Index
    requires r.a < |r.t.disks| && h < |r.hs| && Pin(r, h) in r.t.disks[r.a].index
  {
    r.t.disks[r.a].index[Pin(r, h)]
  }

  // ---------- what a search reads ----------

  /** A member as it is read: the bytes of its range, decoded, if they are whole lines and as many as the index
      says, with as many bytes. */
  function MemberRead(z: Codec, d: Disk, k: Key, m: Member): Option<S.Part> {
    if m.end < m.start then None
    else
      var bytes := ReadRange(d, k, m.start, m.end);
      if bytes.None? then None
      else
        var text := z.unzip(bytes.value);
        if text.None? || |text.value| != m.bytes || CountLF(text.value) != m.lineCount || Flatten(Split(text.value)) != text.value then None
        else Some(S.Part(m.start, m.lineCount, m.bytes, m.minTime, m.maxTime, m.unknown, text.value))
  }

  /** The text of a member is cut into as many lines as it has LFs. */
  lemma ReadWhole(z: Codec, d: Disk, k: Key, m: Member)
    ensures var p := MemberRead(z, d, k, m);
      p.Some? ==> S.Laid(p.value.text, Split(p.value.text)) && |Split(p.value.text)| == m.lineCount && |p.value.text| == m.bytes
  {
    hide ReadRange, CountLF, Split, Flatten;
    var p := MemberRead(z, d, k, m);
    if p.Some? {
      SplitAreLines(p.value.text);
      LinesCount(Split(p.value.text));
    }
  }

  /** Until the hour is replaced, every read of a member gives the snapshot's. */
  lemma MemberReadRight(z: Codec, r: Request, x: Moment, b: nat, h: nat, m: nat)
    requires Posed(z, r) && h < |r.hs| && Between(r.t, r.a, x, b) && SameId(r.t.disks[r.a], r.t.disks[b], Pin(r, h)) && m < |IndexAt(r, h)|
    ensures x.During? ==> StepOk(z, r.t, x.at)
    ensures MemberRead(z, DiskAt(r.t, x), Pin(r, h), IndexAt(r, h)[m]) == Some(Snapshot(z, r)[h].parts[m])
  {
    hide ReadRange, DiskAt, TraceOk, Split, Flatten, CountLF;
    var k, was := Pin(r, h), r.t.disks[r.a];
    MemberReadExact(z, r.t, r.a, x, b, k, m);
    assert Decodes(z, was.data[k], was.index[k]);
    assert S.HourOk(Snapshot(z, r)[h]) && S.PartOk(Snapshot(z, r)[h].parts[m]);
  }

  /** The hours are still the files they were. */
  predicate Unmoved(r: Request, now: nat)
    requires r.a < |r.t.disks| && now < |r.t.disks|
  {
    forall i {:trigger Pin(r, i)} :: 0 <= i < |r.hs| ==> SameId(r.t.disks[r.a], r.t.disks[now], Pin(r, i))
  }

  /** What was replaced stays replaced. */
  lemma UnmovedBefore(z: Codec, r: Request, m: nat, n: nat)
    requires TraceOk(z, r.t) && r.a <= m <= n < |r.t.disks| && Unmoved(r, n)
    ensures Unmoved(r, m)
  {
    hide TraceOk;
    forall i | 0 <= i < |r.hs| ensures SameId(r.t.disks[r.a], r.t.disks[m], Pin(r, i)) {
      FileIdDeterminesContents(z, r.t, r.a, n, Pin(r, i));
      assert SameId(r.t.disks[m], r.t.disks[n], Pin(r, i));
    }
  }

  /** The last thing a search does: every hour it pinned must still be the file it was. */
  predicate Current(r: Request, now: nat)
    requires r.a < |r.t.disks| && now < |r.t.disks|
  {
    forall i {:trigger Pin(r, i)} :: 0 <= i < |r.hs| ==>
      SameId(r.t.disks[r.a], r.t.disks[now], Pin(r, i))
      && HourEntry(r.t.disks[r.a], Pin(r, i)).value.size <= HourEntry(r.t.disks[now], Pin(r, i)).value.size
  }

  /** From here on no check of the snapshot passes. */
  predicate Stale(r: Request, now: nat)
    requires r.a < |r.t.disks|
  {
    forall e {:trigger Current(r, e)} :: now <= e < |r.t.disks| ==> !Current(r, e)
  }

  lemma StaleFrom(z: Codec, r: Request, now: nat)
    requires TraceOk(z, r.t) && r.a <= now < |r.t.disks| && !Unmoved(r, now)
    ensures Stale(r, now)
  {
    hide TraceOk;
    forall e | now <= e < |r.t.disks| ensures !Current(r, e) {
      if Current(r, e) { UnmovedBefore(z, r, now, e); }
    }
  }

  /** Growing keeps a snapshot current. */
  lemma UnmovedCurrent(z: Codec, r: Request, now: nat)
    requires TraceOk(z, r.t) && r.a <= now < |r.t.disks|
    ensures Unmoved(r, now) <==> Current(r, now)
  {
    hide TraceOk;
    if Unmoved(r, now) {
      forall i | 0 <= i < |r.hs|
        ensures SameId(r.t.disks[r.a], r.t.disks[now], Pin(r, i)) && HourEntry(r.t.disks[r.a], Pin(r, i)).value.size <= HourEntry(r.t.disks[now], Pin(r, i)).value.size
      {
        FileIdDeterminesContents(z, r.t, r.a, now, Pin(r, i));
      }
    }
  }

  // ---------- one member ----------

  /** The cursor has not got beyond the one the request came with. */
  predicate Stuck(r: Request, pos: Option<S.Position>) {
    && r.from.Some? && pos.Some? && pos.value.hour == r.from.value.hour && pos.value.memberStart == r.from.value.memberStart
    && pos.value.line == r.from.value.line && pos.value.byte <= r.from.value.byte
  }

  /** What is collected is bounded, and on course if nothing was replaced; and what advances is progress. */
  ghost predicate Fair(z: Codec, r: Request, w: S.Sweep, now: nat)
    requires Taken(z, r)
  {
    && r.a <= now < |r.t.disks| && |w.rows| <= r.q.limit && w.scanned <= r.limits.budget
    && (Unmoved(r, now) ==> S.OnCourse(r.q, Snapshot(z, r), w.rows, w.pos, r.from))
    && (Unmoved(r, now) && w.pos.Some? ==> w.progressed || Stuck(r, w.pos))
    && (Unmoved(r, now) ==> S.Paid(r.q, Snapshot(z, r), r.from, w.h, w.m, w.pos, w.scanned))
  }

  /** The page ends here because of a limit, unless something was replaced. */
  ghost predicate Full(z: Codec, r: Request, w: S.Sweep, now: nat)
    requires Taken(z, r)
  {
    r.a <= now < |r.t.disks| && (Unmoved(r, now) ==> S.Limited(r.q, Snapshot(z, r), r.limits, w.rows, w.pos, w.reason, w.scanned))
  }

  /** How a step of a search ends: it is cancelled or found expired, it ends the page, or it goes on. */
  ghost predicate Stepped(z: Codec, r: Request, ctl: S.Control, w: S.Sweep, now: nat)
    requires Taken(z, r)
  {
    match ctl
    case Failed(e) => r.a <= now < |r.t.disks|
      && ((e == S.Cancelled && r.limits.calls) || (e == S.CannotAdvance && r.limits.timed) || (e == S.Expired && Stale(r, now)))
    case Stopped => Fair(z, r, w, now) && Full(z, r, w, now)
    case Through => Fair(z, r, w, now) && S.Reading(r.q, Snapshot(z, r), w)
  }

  /** Some time goes by. */
  method Later(t: Trace, now: nat) returns (later: nat)
    requires now < |t.disks|
    ensures now <= later < |t.disks|
  {
    later :| now <= later < |t.disks|;
  }

  /** A read of a file, at an idle moment or inside a transaction. */
  method Look(z: Codec, t: Trace, now: nat) returns (x: Moment, later: nat)
    requires TraceOk(z, t) && now < |t.disks|
    ensures |t.disks| == |t.events| + 1 && Between(t, now, x, later)
    ensures x.During? ==> StepOk(z, t, x.at) && Shaped(t.events[x.at].p, t.events[x.at].blobs)
  {
    assert Idle(now).at == now;
    x :| now <= x.at < |t.disks| && (x.During? ==> x.at < |t.events| && t.events[x.at].Finished?);
    later :| (if x.During? then x.at + 1 else x.at) <= later < |t.disks|;
    if x.During? { assert StepOk(z, t, x.at); }
  }

  /** The cursor after the member before `m`. */
  function NextAt(r: Request, index: Index, h: nat, m: nat): Option<S.Position>
    requires h < |r.hs|
  {
    if m < |index| then Some(S.Position(r.hs[h], index[m].start, 0, 0))
    else if h + 1 < |r.hs| then Some(S.Position(r.hs[h + 1], 0, 0, 0)) else None
  }

  /** The index of an hour names the members of the snapshot. */
  lemma SnapshotAt(z: Codec, r: Request, h: nat)
    requires Posed(z, r) && h < |r.hs|
    ensures |Snapshot(z, r)| == |r.hs| && Snapshot(z, r)[h].hour == r.hs[h] && |Snapshot(z, r)[h].parts| == |IndexAt(r, h)| > 0
    ensures forall m {:trigger IndexAt(r, h)[m]} :: 0 <= m < |IndexAt(r, h)| ==> Describes(IndexAt(r, h)[m], Snapshot(z, r)[h].parts[m])
    ensures forall m :: 0 <= m <= |IndexAt(r, h)| ==> NextAt(r, IndexAt(r, h), h, m) == S.Spot(Snapshot(z, r), h, m, 0, 0)
  {
    hide TraceOk, Split, Flatten;
    assert S.HourOk(Snapshot(z, r)[h]);
    forall m | 0 <= m < |IndexAt(r, h)| ensures Describes(IndexAt(r, h)[m], Snapshot(z, r)[h].parts[m]) {
      assert S.PartOk(Snapshot(z, r)[h].parts[m]);
    }
  }

  predicate Describes(m: Member, p: S.Part) {
    && p.start == m.start && p.lineCount == m.lineCount && p.bytes == m.bytes && p.minTime == m.minTime && p.maxTime == m.maxTime
    && p.unknown == m.unknown && |Split(p.text)| == m.lineCount && |p.text| == m.bytes
  }

  /** What a read of a member at the moment `x` gave. */
  ghost predicate Gave(z: Codec, r: Request, x: Moment, h: nat, m: nat, read: Option<S.Part>)
    requires Taken(z, r) && TraceOk(z, r.t) && x.at < |r.t.disks| && h < |r.hs| && m < |IndexAt(r, h)|
  {
    && (x.During? ==> x.at < |r.t.events| && r.t.events[x.at].Finished? && StepOk(z, r.t, x.at))
    && MemberRead(z, DiskAt(r.t, x), Pin(r, h), IndexAt(r, h)[m]) == read
  }

  /** What a read that did not give the member can come to: the search is cancelled, the page ends with whatever
      was taken for rows, or the damage is noticed, and then it is asked whether the file was replaced. */
  method Damaged(z: Codec, r: Request, h: nat, m: nat, w0: S.Sweep, ghost x: Moment, now0: nat) returns (ctl: S.Control, w: S.Sweep, now: nat)
    requires Posed(z, r) && h < |r.hs| && m < |IndexAt(r, h)| && Between(r.t, r.a, x, now0)
    requires Gave(z, r, x, h, m, None)
    ensures !ctl.Through? && Stepped(z, r, ctl, w, now) && now0 <= now
  {
    hide MemberRead, TraceOk, SameId, DiskAt, S.OnCourse, S.SnapshotOk, S.Placed, HoursAt;
    ctl, w, now := S.Failed(S.Cancelled), w0, now0;
    var cancelled: bool := *;
    if cancelled && r.limits.calls { return; }
    var stopped: bool := *;
    if stopped {
      ghost var none := w0.(rows := [], scanned := 0);
      assert |none.rows| <= r.q.limit && none.scanned <= r.limits.budget;
      w :| |w.rows| <= r.q.limit && w.scanned <= r.limits.budget;
      if SameId(r.t.disks[r.a], r.t.disks[now], Pin(r, h)) { MemberReadRight(z, r, x, now, h, m); }
      return S.Stopped, w, now;
    }
    now := Later(r.t, now0);
    if SameId(r.t.disks[r.a], r.t.disks[now], Pin(r, h)) {
      MemberReadRight(z, r, x, now, h, m);
      ctl := S.Failed(S.Corrupt);
    } else {
      StaleFrom(z, r, now);
      ctl := S.Failed(S.Expired);
    }
  }

  lemma {:induction false} LineFits(text: Bytes, l: nat)
    requires l < |Split(text)|
    ensures |Split(text)[l]| <= |text|
    decreases l
  {
    if l > 0 { LineFits(text[FindLF(text) + 1..], l - 1); }
  }

  /** What was read is the snapshot's member, unless it was replaced meanwhile; so reading it was on course. */
  lemma ReadFair(z: Codec, r: Request, x: Moment, now0: nat, now: nat, w0: S.Sweep, read: S.Part, task: S.Task, stopped: bool, s: S.Scan)
    requires Posed(z, r) && w0.h < |r.hs| && w0.m < |IndexAt(r, w0.h)| && Between(r.t, r.a, x, now) && now0 <= now
    requires Gave(z, r, x, w0.h, w0.m, Some(read))
    requires Fair(z, r, w0, now0) && S.Reading(r.q, Snapshot(z, r), w0) && |Snapshot(z, r)| == |r.hs|
    requires w0.m < |Snapshot(z, r)[w0.h].parts| && !S.CanSkip(r.q, Snapshot(z, r)[w0.h].parts[w0.m])
    requires task == S.Task(r.hs[w0.h], IndexAt(r, w0.h)[w0.m].start, read.text, Split(read.text), w0.l, w0.b, w0.rows,
                            NextAt(r, IndexAt(r, w0.h), w0.h, w0.m + 1), r.limits, w0.scanned)
    requires (w0.progressed ==> s.progressed) && w0.scanned <= s.scanned
    requires if stopped then S.Ended(r.q, task, s)
             else S.Bounded(r.q, task, s) && s.pos == task.next && S.Owed(r.q, task, s.rows, |task.lines|) && (S.Fitting(task) ==> s.progressed)
    ensures var w := S.Sweep(w0.h, w0.m + 1, 0, 0, s.rows, s.pos, s.scanned, s.progressed, s.reason);
      Fair(z, r, w, now) && (stopped ==> Full(z, r, w, now))
  {
    hide MemberRead, TraceOk, SameId, DiskAt, S.OnCourse, S.SnapshotOk, S.Placed, HoursAt, Split, S.Owed, S.Inside, S.Laid, S.Reached, S.Limited, S.Paid;
    if Unmoved(r, now) {
      ghost var hours, h := Snapshot(z, r), w0.h;
      SnapshotAt(z, r, h);
      assert SameId(r.t.disks[r.a], r.t.disks[now], Pin(r, h));
      MemberReadRight(z, r, x, now, h, w0.m);
      UnmovedBefore(z, r, now0, now);
      assert task == S.TaskFor(hours, h, w0.m, w0.l, w0.b, w0.rows, r.limits, w0.scanned);
      S.ReadCourse(r.q, hours, h, w0.m, w0.l, w0.b, w0.rows, r.from, r.limits, w0.scanned, s.rows, s.pos);
      PaidRead(z, r, w0, task, s);
      if stopped { S.ReachedLimits(r.q, hours, h, w0.m, w0.l, w0.b, w0.rows, r.limits, w0.scanned, s); }
    }
  }

  /** Its bytes are counted, and no others. */
  lemma PaidRead(z: Codec, r: Request, w: S.Sweep, t: S.Task, s: S.Scan)
    requires Posed(z, r) && w.h < |Snapshot(z, r)| && w.m < |Snapshot(z, r)[w.h].parts| && S.Paid(r.q, Snapshot(z, r), r.from, w.h, w.m, w.pos, w.scanned)
    requires !S.CanSkip(r.q, Snapshot(z, r)[w.h].parts[w.m]) && w.scanned <= s.scanned
    requires t == S.TaskFor(Snapshot(z, r), w.h, w.m, w.l, w.b, w.rows, r.limits, w.scanned)
    requires S.Bounded(r.q, t, s) && (S.Inside(r.q, t, s.rows, s.pos) || s.pos == t.next)
    ensures S.Paid(r.q, Snapshot(z, r), r.from, w.h, w.m + 1, s.pos, s.scanned)
  {
    hide TraceOk, HoursAt, S.Paid, Split, S.Owed, S.SnapshotOk;
    S.PaidOn(r.q, Snapshot(z, r), r.from, w, s.scanned - w.scanned, s.pos);
  }

  /** Skipping or reading one member. */
  method Visit(z: Codec, r: Request, index: Index, w0: S.Sweep, now0: nat) returns (ctl: S.Control, w: S.Sweep, now: nat)
    requires Posed(z, r) && w0.h < |r.hs| && index == IndexAt(r, w0.h) && w0.m < |index|
    requires Fair(z, r, w0, now0) && S.Reading(r.q, Snapshot(z, r), w0)
    ensures Stepped(z, r, ctl, w, now) && now0 <= now && (ctl.Through? ==> w.h == w0.h && w.m == w0.m + 1)
  {
    hide MemberRead, TraceOk, SameId, DiskAt, S.OnCourse, S.SnapshotOk, S.Placed, HoursAt, Split, S.Owed, S.Inside, S.Laid, S.Ended, Unmoved, S.Paid;
    SnapshotAt(z, r, w0.h);
    ghost var hours := Snapshot(z, r);
    var h, m := w0.h, index[w0.m];
    var next := NextAt(r, index, h, w0.m + 1);
    assert Describes(m, hours[h].parts[w0.m]);
    S.EnterPart(hours, h, w0.m + 1);
    LineFits(hours[h].parts[w0.m].text, w0.l);
    ctl, w, now := S.Failed(S.Invalid), w0, now0;
    if w0.l >= m.lineCount || w0.b > m.bytes { return; }
    if S.Outside(r.q, m.unknown, m.minTime, m.maxTime) {
      if Unmoved(r, now0) {
        S.SkipCourse(r.q, hours, h, w0.m, w0.l, w0.b, w0.rows, r.from);
        S.PaidOn(r.q, hours, r.from, w0, 0, next);
      }
      return S.Through, w0.(m := w0.m + 1, l := 0, b := 0, pos := next, progressed := true), now0;
    }
    var x;
    x, now := Look(z, r.t, now0);
    var read := MemberRead(z, DiskAt(r.t, x), Pin(r, h), m);
    if read.None? {
      ctl, w, now := Damaged(z, r, h, w0.m, w0, x, now);
      return;
    }
    ReadWhole(z, DiskAt(r.t, x), Pin(r, h), m);
    var task := S.Task(r.hs[h], m.start, read.value.text, Split(read.value.text), w0.l, w0.b, w0.rows, next, r.limits, w0.scanned);
    var s;
    ctl, s := S.ScanPart(r.q, task, w0.progressed);
    w := S.Sweep(h, w0.m + 1, 0, 0, s.rows, s.pos, s.scanned, s.progressed, s.reason);
    if ctl.Failed? { return; }
    ReadFair(z, r, x, now0, now, w0, read.value, task, ctl.Stopped?, s);
    if ctl.Through? && |s.rows| >= r.q.limit {
      ctl, w := S.Stopped, w.(reason := S.Limit);
    }
  }

  // ---------- the whole request ----------

  /** The members of one hour, from member `w0.m` on. */
  method VisitAll(z: Codec, r: Request, index: Index, w0: S.Sweep, now0: nat) returns (ctl: S.Control, w: S.Sweep, now: nat)
    requires Posed(z, r) && w0.h < |r.hs| && index == IndexAt(r, w0.h) && w0.m <= |index|
    requires Fair(z, r, w0, now0) && S.Reading(r.q, Snapshot(z, r), w0)
    ensures Stepped(z, r, ctl, w, now) && now0 <= now && (ctl.Through? ==> w.h == w0.h && w.m == |index|)
  {
    hide TraceOk, Fair, S.Reading, S.SnapshotOk, S.Placed, HoursAt, Readable, Pinned;
    ctl, w, now := S.Through, w0, now0;
    while ctl.Through? && w.m < |index|
      invariant Stepped(z, r, ctl, w, now) && now0 <= now && (ctl.Through? ==> w.h == w0.h && w.m <= |index|)
      decreases ctl.Through?, |index| - w.m
    {
      ctl, w, now := Visit(z, r, index, w, now);
    }
  }

  /** readIndex, when its turn comes: the snapshot's own members, unless the hour was replaced. */
  method ReadHour(z: Codec, r: Request, h: nat, now0: nat) returns (index: Option<Index>, now: nat)
    requires Posed(z, r) && h < |r.hs| && r.a <= now0 < |r.t.disks|
    ensures now0 <= now < |r.t.disks| && if index.Some? then index.value == IndexAt(r, h) else Stale(r, now)
  {
    hide ReadIndex, Upto, SameId;
    now := Later(r.t, now0);
    assert Valid(r.t.disks[now]);
    index := ReadIndex(r.t.disks[now], Pin(r, h), HourEntry(r.t.disks[r.a], Pin(r, h)).value);
    ReadIndexExact(z, r.t, r.a, now, Pin(r, h));
    if index.None? {
      assert !SameId(r.t.disks[r.a], r.t.disks[now], Pin(r, h));
      StaleFrom(z, r, now);
    }
  }

  function FindKey(hs: seq<int>, hour: int): (h: nat)
    ensures h <= |hs| && (h < |hs| ==> hs[h] == hour) && forall i :: 0 <= i < h ==> hs[i] != hour
  {
    if hs == [] || hs[0] == hour then 0 else 1 + FindKey(hs[1..], hour)
  }

  function FindMember(ix: Index, start: nat): (m: nat)
    ensures m <= |ix| && (m < |ix| ==> ix[m].start == start) && forall i :: 0 <= i < m ==> ix[i].start != start
  {
    if ix == [] || ix[0].start == start then 0 else 1 + FindMember(ix[1..], start)
  }

  /** The member at which an hour is entered. */
  ghost function EntryAt(z: Codec, r: Request, h: nat, first: bool): nat
    requires Taken(z, r) && h < |r.hs| && (first ==> r.from.Some?)
  {
    if first then S.FindPart(Snapshot(z, r)[h].parts, r.from.value.memberStart) else 0
  }

  lemma EntryFound(z: Codec, r: Request, h: nat, first: bool)
    requires Posed(z, r) && h < |r.hs| && (first ==> r.from.Some? && r.from.value.hour == r.hs[h])
    ensures EntryAt(z, r, h, first) < |IndexAt(r, h)|
    ensures EntryAt(z, r, h, first) == if first then FindMember(IndexAt(r, h), r.from.value.memberStart) else 0
  {
    hide TraceOk, HoursAt;
    SnapshotAt(z, r, h);
    if first {
      var hours := Snapshot(z, r);
      S.Found(hours, h, 0);
      assert S.FindHour(hours, r.hs[h]) == h;
      var i, j := S.FindPart(hours[h].parts, r.from.value.memberStart), FindMember(IndexAt(r, h), r.from.value.memberStart);
      assert forall m :: 0 <= m < |IndexAt(r, h)| ==> Describes(IndexAt(r, h)[m], hours[h].parts[m]);
      assert i == j;
    }
  }

  /** One hour: its index, and its members from the one of the cursor on. */
  method VisitHour(z: Codec, r: Request, first: bool, w0: S.Sweep, now0: nat) returns (ctl: S.Control, w: S.Sweep, now: nat)
    requires Posed(z, r) && w0.h < |r.hs| && (first ==> r.from.Some? && r.from.value.hour == r.hs[w0.h])
    requires var w := w0.(m := EntryAt(z, r, w0.h, first)); Fair(z, r, w, now0) && S.Reading(r.q, Snapshot(z, r), w)
    ensures Stepped(z, r, ctl, w, now) && now0 <= now && (ctl.Through? ==> w.h == w0.h + 1 && w.m == 0)
  {
    hide TraceOk, HoursAt, S.SnapshotOk, S.Placed, S.OnCourse, Unmoved, Readable, Pinned, Describes;
    var late, gone := *, *;
    late, gone := late && r.limits.timed, gone && r.limits.calls;
    if late || gone {
      return S.Failed(if gone then S.Cancelled else S.CannotAdvance), w0, now0;
    }
    var index;
    index, now := ReadHour(z, r, w0.h, now0);
    EntryFound(z, r, w0.h, first);
    ctl, w := S.Failed(S.Expired), w0;
    if index.Some? {
      var m := if first then FindMember(index.value, r.from.value.memberStart) else 0;
      if m == |index.value| {
        ctl := S.Failed(S.Invalid);
      } else {
        FairLater(z, r, w0.(m := m), now0, now);
        ctl, w, now := VisitAll(z, r, index.value, w0.(m := m), now);
        if ctl.Through? {
          SnapshotAt(z, r, w0.h);
          S.NextHour(Snapshot(z, r), w0.h);
          S.EnterPart(Snapshot(z, r), w0.h + 1, 0);
          w := w.(h := w.h + 1, m := 0, l := 0, b := 0);
        }
      }
    }
  }

  lemma FairLater(z: Codec, r: Request, w: S.Sweep, now: nat, later: nat)
    requires Posed(z, r) && Fair(z, r, w, now) && now <= later < |r.t.disks|
    ensures Fair(z, r, w, later)
  {
    hide TraceOk, HoursAt, S.OnCourse, S.SnapshotOk, S.Placed, Unmoved;
    if Unmoved(r, later) { UnmovedBefore(z, r, now, later); }
  }

  /** The loop over hours and members. */
  method Sweep(z: Codec, r: Request) returns (ctl: S.Control, w: S.Sweep, now: nat)
    requires Posed(z, r)
    ensures Stepped(z, r, ctl, w, now) && (ctl.Through? ==> w.pos.None?)
  {
    hide TraceOk, HoursAt, S.SnapshotOk, S.Placed, Unmoved, Readable, Pinned, Fair, S.OnCourse;
    now := Later(r.t, r.a);
    var start := if r.from.None? then |r.hs| else FindKey(r.hs, r.from.value.hour);
    ctl, w := S.Through, S.Sweep(start, 0, 0, 0, [], r.from, 0, false, S.NoReason);
    Starts(z, r, start, now);
    if r.from.Some? {
      if start == |r.hs| {
        ctl := S.Failed(S.Invalid);
      } else {
        w := w.(l := r.from.value.line, b := r.from.value.byte);
        ctl, w, now := VisitHour(z, r, true, w, now);
      }
    }
    while ctl.Through? && w.h < |r.hs|
      invariant Stepped(z, r, ctl, w, now) && (ctl.Through? ==> w.m == 0)
      decreases ctl.Through?, |r.hs| - w.h
    {
      ctl, w, now := VisitHour(z, r, false, w, now);
    }
    if ctl.Through? { AtEnd(z, r, w); }
  }

  lemma AtEnd(z: Codec, r: Request, w: S.Sweep)
    requires Posed(z, r) && S.Reading(r.q, Snapshot(z, r), w) && w.h >= |r.hs|
    ensures w.pos.None?
  {
    hide TraceOk;
    HourNames(z, r.t.disks[r.a], r.source, r.hs);
  }

  /** A search starts on course. */
  lemma Starts(z: Codec, r: Request, start: nat, now: nat)
    requires Posed(z, r) && r.a <= now < |r.t.disks|
    requires start == if r.from.None? then |r.hs| else FindKey(r.hs, r.from.value.hour)
    ensures |Snapshot(z, r)| == |r.hs|
    ensures r.from.None? ==> Stepped(z, r, S.Through, S.Sweep(start, 0, 0, 0, [], None, 0, false, S.NoReason), now)
    ensures r.from.Some? ==> start < |r.hs|
    ensures r.from.Some? ==> var w := S.Sweep(start, 0, r.from.value.line, r.from.value.byte, [], r.from, 0, false, S.NoReason);
      var w' := w.(m := EntryAt(z, r, start, true)); Fair(z, r, w', now) && S.Reading(r.q, Snapshot(z, r), w')
  {
    hide TraceOk, Unmoved, Readable, Pinned;
    var hours := Snapshot(z, r);
    HourNames(z, r.t.disks[r.a], r.source, r.hs);
    if r.from.Some? {
      S.Begin(r.q, hours, r.from.value);
      assert S.FindHour(hours, r.from.value.hour) == start;
    } else {
      assert [] + S.RowsAfter(r.q, hours, None) == S.RowsAfter(r.q, hours, None);
    }
  }

  /** A limit was reached before the cursor could get any further. */
  ghost predicate Nowhere(z: Codec, r: Request, w: S.Sweep)
    requires Taken(z, r)
  {
    && S.Limited(r.q, Snapshot(z, r), r.limits, w.rows, w.pos, w.reason, w.scanned)
    && w.pos.Some? && (r.from.None? || !S.Advances(w.pos.value, r.from.value))
  }

  /** One search request beside the living store.  The index of an hour is read when its turn comes, and each of
      its members at some moment after that, perhaps in the middle of a transaction; `b` is when the search was
      last told the state of the store.  A page is right, and of a snapshot that was current at `b`.  Whatever
      became of the files that were read, the search is never found invalid or the archive corrupt: if the
      snapshot is no longer current, that is what it says, unless it is cancelled or out of time; and it says so
      only if it is.  A page ends before the snapshot does only at a limit, having counted no more bytes
      than it read, and is given up only if a limit leaves the cursor where it was. */
  method SearchArchive(z: Codec, ghost clock: Clock, r: Request) returns (res: S.Result, b: nat, ghost last: S.Sweep)
    requires Sane(z, clock, r.t) && Taken(z, r) && 0 < r.q.limit && (r.from.Some? ==> S.Placed(Snapshot(z, r), r.from.value))
    ensures r.a <= b < |r.t.disks| && (res.Page? || res == S.Expired || res == S.Cancelled || res == S.CannotAdvance)
    ensures res.Page? ==> Current(r, b) && S.PageOk(r.q, Snapshot(z, r), r.from, res.rows, res.next)
    ensures res.Page? && res.next.None? ==> res.reason == S.NoReason
    ensures res.Page? && res.next.Some? ==> S.Limited(r.q, Snapshot(z, r), r.limits, res.rows, res.next, res.reason, res.scanned)
    ensures res.Page? ==>
      res.scanned + S.BytesAfter(r.q, Snapshot(z, r), res.next, true) <= S.BytesAfter(r.q, Snapshot(z, r), r.from, false)
    ensures res == S.Cancelled ==> r.limits.calls
    ensures res == S.CannotAdvance ==> r.limits.timed || Stale(r, b) || Nowhere(z, r, last)
    ensures res == S.Expired ==> Stale(r, b)
  {
    hide TraceOk, Ranged, HoursAt, S.SnapshotOk, S.Placed, Unmoved, Readable, Pinned, S.RowsAfter, Current, Valid;
    assert Ranged(z, clock, r.t.disks[r.a]) && Valid(r.t.disks[r.a]) by { DiskValid(z, r.t, r.a); }
    SnapshotSound(z, clock, r.t.disks[r.a], r.source, r.hs);
    var ctl, w, now := Sweep(z, r);
    b := now;
    last := w;
    if ctl.Failed? { return ctl.error, b, w; }
    var gone: bool := *;
    if gone && r.limits.calls { return S.Cancelled, b, w; }
    if w.pos.Some? && (!w.progressed || r.from.None? || !S.Advances(w.pos.value, r.from.value)) {
      if !Unmoved(r, b) { StaleFrom(z, r, b); }
      return S.CannotAdvance, b, w;
    }
    var late: bool := *;
    if late && r.limits.timed { return S.CannotAdvance, b, w; }
    b := Later(r.t, now);
    UnmovedCurrent(z, r, b);
    if !Current(r, b) {
      StaleFrom(z, r, b);
      return S.Expired, b, w;
    }
    UnmovedBefore(z, r, now, b);
    res := S.Page(w.rows, w.pos, if w.pos.Some? then w.reason else S.NoReason, w.scanned);
  }

  lemma DiskValid(z: Codec, t: Trace, i: nat)
    requires TraceOk(z, t) && i < |t.disks|
    ensures Valid(t.disks[i])
  {}
}
