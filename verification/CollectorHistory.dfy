/** Exactly-once collection, over the whole life of an archive and of the files it collects. */
module CollectorHistory {
  import opened Options
  import opened ArchiveTypes
  import opened ArchiveDisk
  import opened ArchiveJournal
  import opened ArchiveCrash
  import opened ArchiveStaging
  import opened ArchiveCommit
  import opened ArchiveHistory
  import opened ArchiveReaders
  import opened ArchiveRanges
  import opened ArchiveRun
  import opened CollectorPrint
  import opened CollectorRead
  import opened CollectorFollow
  import opened CollectorTracking
  import opened CollectorWorld
  import opened CollectorOnce

  /** The cycle before a commit: the files it found, how far they had grown by its end, what it had consumed
      by then, the lines it took, and when and how much it was allowed to read. */
  datatype Note = Note(required: set<string>, files: seq<File>, world: World, seen: map<string, Bytes>, batch: seq<Took>, turn: Turn)

  /** What has been committed so far: all lines in order, the bytes consumed of each generation, the files as
      they were last seen, adopted copies, and per hour how many of its records have expired. */
  datatype Memory = Memory(log: seq<Took>, seen: map<string, Bytes>, world: World, moved: set<string>, gone: map<Key, nat>)

  function Gone(m: Memory, k: Key): nat { if k in m.gone then m.gone[k] else 0 }

  /** The records of an hour, in the order in which they were committed. */
  function HourRecords(m: Memory, k: Key): seq<Record> { RecordsOf(RecordsAll(m.log), k) }

  /** The hour holds its records, save those that have expired, each once and in order. */
  predicate HourKept(z: Codec, d: Disk, m: Memory, k: Key)
    requires Readable(z, d)
  {
    Gone(m, k) <= |HourRecords(m, k)| && HourText(z, d, k) == Flatten(Raws(HourRecords(m, k)[Gone(m, k)..]))
  }

  ghost predicate Collected(z: Codec, r: Rules, d: Disk, m: Memory) {
    && Valid(d) && Readable(z, d) && m.seen.Keys <= d.checkpoint.value.generations.Keys
    && AllAccounted(r, d.checkpoint.value.generations, m.seen) && Gained(map[], m.seen, m.log)
    && AllRooted(d.checkpoint.value.generations, m.seen, m.world) && PlacesApart(d.checkpoint.value.generations, m.moved)
    && forall k {:trigger HourText(z, d, k)} :: HourKept(z, d, m, k)
  }

  function Expired(m: Memory, keys: seq<Key>): Memory {
    m.(gone := map k | k in m.gone.Keys + (set x | x in keys) :: if k in keys then |HourRecords(m, k)| else m.gone[k])
  }

  /** Did the action take effect? */
  predicate Effective(act: Action, after: Disk)
    requires after.checkpoint.Some? && after.catalog.Some?
  {
    match act
    case Commit(_, _, txn, _, _, _) => after.checkpoint.value.txn == txn
    case Expire(keys) => forall k :: k in keys ==> k !in after.catalog.value.hours
    case Compact(_, _, _, _, _, _, _, _, _) => true
    case Beside(_) => true
  }

  /** How one action of the archive's life is remembered.  What is committed comes from a cycle, while the
      files only grow and fingerprints tell adopted copies from other files. */
  ghost predicate Remembered(r: Rules, d: Disk, act: Action, after: Disk, note: Note, m: Memory, m': Memory) {
    d.checkpoint.Some? && after.checkpoint.Some? && after.catalog.Some? &&
    match act
    case Commit(records, generations, _, _, _, _) =>
      var cps := d.checkpoint.value.generations;
      && CycleDid(r, note.required, cps, generations, note.files, m.seen, note.seen, note.batch, records, note.turn)
      && Found(m.world, note.files, note.world) && Telling(cps, generations, note.world)
      && m' == if Effective(act, after) then Memory(m.log + note.batch, note.seen, note.world, m.moved + Moved(cps, generations), m.gone)
               else m.(world := note.world)
    case Expire(keys) => m' == if Effective(act, after) then Expired(m, keys) else m
    case Compact(_, _, _, _, _, _, _, _, _) => m' == m
    case Beside(_) => m' == m
  }

  // ---------- what a cycle hands to commit ----------

  /** The times the collector reads. */
  function ClockOf(r: Rules): Clock { (source: string, raw: Bytes) => r.parse(source).time(raw) }

  lemma {:induction false} RecordsTimely(r: Rules, y: Policy, lines: seq<Bytes>)
    requires y == PolicyFor(r, y.source, y.stamp) && AllLines(lines) && forall i {:trigger lines[i]} :: 0 <= i < |lines| ==> !TooLong(lines[i])
    ensures Timely(ClockOf(r), Records(y, lines))
  {
    hide IsLine;
    if lines != [] {
      assert forall i :: 0 <= i < |lines| - 1 ==> lines[1..][i] == lines[i + 1];
      RecordsTimely(r, y, lines[1..]);
      assert IsLine(lines[0]);
    }
  }

  lemma TimelyConcat(clock: Clock, a: seq<Record>, b: seq<Record>)
    requires Timely(clock, a) && Timely(clock, b)
    ensures Timely(clock, a + b)
  {
    hide IsLine;
    forall i | 0 <= i < |a + b|
      ensures var x := (a + b)[i]; IsLine(x.raw) && |x.raw| <= ArchiveRanges.MAX_LINE && x.eventTime == clock(x.source, x.raw)
    {
      if i < |a| { assert (a + b)[i] == a[i]; } else { assert (a + b)[i] == b[i - |a|]; }
    }
  }

  predicate ShortLines(lines: seq<Bytes>) { AllLines(lines) && forall i {:trigger lines[i]} :: 0 <= i < |lines| ==> !TooLong(lines[i]) }

  lemma ShortPart(a: seq<Bytes>, b: seq<Bytes>)
    requires ShortLines(a + b)
    ensures ShortLines(a) && ShortLines(b)
  {
    AllLinesPart(a, b);
    assert forall i :: 0 <= i < |a| ==> (a + b)[i] == a[i];
    assert forall i :: 0 <= i < |b| ==> (a + b)[|a| + i] == b[i];
  }

  lemma {:induction false} KeptShort(lines: seq<Bytes>)
    requires AllLines(lines)
    ensures ShortLines(Kept(lines))
  {
    KeptLines(lines);
    if lines != [] {
      assert AllLines(lines[1..]);
      KeptShort(lines[1..]);
    }
  }

  lemma {:induction false} BatchTimely(r: Rules, cps: map<string, Generation>, batch: seq<Took>, stamp: int)
    requires ByRules(r, cps, batch, stamp) && forall n {:trigger LinesBy(batch, n)} :: ShortLines(LinesBy(batch, n))
    ensures Timely(ClockOf(r), RecordsAll(batch))
  {
    hide Timely, ShortLines;
    if batch == [] {
      NothingTimely(ClockOf(r));
    } else {
      var x, rest := batch[0], batch[1..];
      assert ByRules(r, cps, rest, stamp) by { assert forall i :: 0 <= i < |rest| ==> rest[i] == batch[i + 1]; }
      forall n ensures ShortLines(LinesBy(rest, n)) {
        assert ShortLines(LinesBy(batch, n));
        if n == x.name { ShortPart(x.lines, LinesBy(rest, n)); }
      }
      assert ShortLines(LinesBy(batch, x.name));
      ShortPart(x.lines, LinesBy(rest, x.name));
      assert x.name in cps && x.policy == PolicyFor(r, cps[x.name].source, stamp);
      ShortTimely(r, x.policy, x.lines);
      BatchTimely(r, cps, rest, stamp);
      TimelyConcat(ClockOf(r), Records(x.policy, x.lines), RecordsAll(rest));
    }
  }

  lemma NothingTimely(clock: Clock)
    ensures Timely(clock, RecordsAll([]))
  {}

  lemma ShortTimely(r: Rules, y: Policy, lines: seq<Bytes>)
    requires y == PolicyFor(r, y.source, y.stamp) && ShortLines(lines)
    ensures Timely(ClockOf(r), Records(y, lines))
  {
    RecordsTimely(r, y, lines);
  }

  /** So whatever a cycle hands over is a commit the archive's life can go on with. */
  lemma CycleCommits(z: Codec, r: Rules, t: Trace, required: set<string>, cps': map<string, Generation>, files: seq<File>,
                     seen: map<string, Bytes>, seen': map<string, Bytes>, batch: seq<Took>, records: seq<Record>, turn: Turn, txn: nat, cap: nat, fileId: nat, name: nat)
    requires Sane(z, ClockOf(r), t) && CycleDid(r, required, Now(t).checkpoint.value.generations, cps', files, seen, seen', batch, records, turn)
    requires txn != Now(t).checkpoint.value.txn && NewIds(fileId, |HoursOf(records)|, Ids(t))
    ensures Possible(z, ClockOf(r), t, Commit(records, cps', txn, cap, fileId, name))
  {
    hide LinesBy, Kept, Split, RecordsAll, Timely, HoursOf, ShortLines, ByRules, RootsKept, AllAccounted, Valid, Readable, Ranged, Collects;
    forall n ensures ShortLines(LinesBy(batch, n)) {
      var text := SeenBy(seen', n);
      SplitIsLines(text);
      KeptShort(Split(text));
      assert Kept(Split(text)) == Kept(Split(SeenBy(seen, n))) + LinesBy(batch, n);
      ShortPart(Kept(Split(SeenBy(seen, n))), LinesBy(batch, n));
    }
    BatchTimely(r, cps', batch, turn.stamp);
    OpenNow(z, ClockOf(r), t);
  }

  lemma OpenNow(z: Codec, clock: Clock, t: Trace)
    requires Sane(z, clock, t)
    ensures |t.disks| == |t.used| == |t.events| + 1 && Valid(Now(t)) && Readable(z, Now(t)) && Now(t).catalog.Some? && Now(t).checkpoint.Some?
  {}

  // ---------- one action ----------

  lemma GainedOn(a: map<string, Bytes>, b: map<string, Bytes>, c: map<string, Bytes>, log: seq<Took>, batch: seq<Took>)
    requires Gained(a, b, log) && Gained(b, c, batch)
    ensures Gained(a, c, log + batch)
  {
    hide Kept, Split, LinesBy;
    forall n ensures Kept(Split(SeenBy(c, n))) == Kept(Split(SeenBy(a, n))) + LinesBy(log + batch, n) {
      LinesByConcat(log, batch, n);
      assert Kept(Split(SeenBy(b, n))) == Kept(Split(SeenBy(a, n))) + LinesBy(log, n);
      assert Kept(Split(SeenBy(c, n))) == Kept(Split(SeenBy(b, n))) + LinesBy(batch, n);
    }
  }

  lemma HourOn(m: Memory, m': Memory, batch: seq<Took>, k: Key)
    requires m'.log == m.log + batch && m'.gone == m.gone && Gone(m, k) <= |HourRecords(m, k)|
    ensures Gone(m', k) <= |HourRecords(m', k)|
    ensures Flatten(Raws(HourRecords(m', k)[Gone(m', k)..]))
         == Flatten(Raws(HourRecords(m, k)[Gone(m, k)..])) + Flatten(Raws(RecordsOf(RecordsAll(batch), k)))
  {
    hide RecordsAll, RecordsOf, Raws, Flatten;
    var a, b := HourRecords(m, k), RecordsOf(RecordsAll(batch), k);
    RecordsAllConcat(m.log, batch);
    RecordsOfConcat(RecordsAll(m.log), RecordsAll(batch), k);
    assert (a + b)[Gone(m, k)..] == a[Gone(m, k)..] + b;
    RawsConcat(a[Gone(m, k)..], b);
    FlattenConcat(Raws(a[Gone(m, k)..]), Raws(b));
  }

  lemma CollectedOpen(z: Codec, r: Rules, d: Disk, m: Memory)
    requires Collected(z, r, d, m)
    ensures Valid(d) && d.catalog.Some? && d.checkpoint.Some?
  {}

  /** The archive is as it was; the files may have grown. */
  lemma NothingDone(z: Codec, r: Rules, d: Disk, after: Disk, m: Memory, w: World)
    requires Collected(z, r, d, m) && Valid(after) && Readable(z, after) && Grows(m.world, w)
    requires after.checkpoint.Some? && after.checkpoint.value.generations == d.checkpoint.value.generations
    requires forall k {:trigger HourText(z, after, k)} :: HourText(z, after, k) == HourText(z, d, k)
    ensures Collected(z, r, after, m.(world := w))
  {
    hide Gained, AllAccounted, Valid, Decodes, HourText, RecordsOf, RecordsAll, Rooted, PlacesApart;
    CollectedOpen(z, r, d, m);
    var cps, m' := d.checkpoint.value.generations, m.(world := w);
    forall n | n in cps ensures Rooted(cps[n], SeenBy(m.seen, n), w) { RootedGrows(cps[n], SeenBy(m.seen, n), m.world, w); }
    forall k ensures HourKept(z, after, m', k) {
      assert HourText(z, after, k) == HourText(z, d, k);
      assert HourKept(z, d, m, k);
    }
  }

  lemma SameView(z: Codec, d: Disk, after: Disk)
    requires Valid(d) && Readable(z, d) && Visible(after) == Visible(d)
    ensures Readable(z, after) && after.checkpoint == d.checkpoint && after.catalog == d.catalog
    ensures forall k {:trigger HourText(z, after, k)} :: HourText(z, after, k) == HourText(z, d, k)
  {
    assert after.data == d.data && after.index == d.index;
  }

  /** A commit that takes effect adds its batch to the archive and to the memory. */
  lemma Committed(z: Codec, r: Rules, d: Disk, act: Action, after: Disk, note: Note, m: Memory, m': Memory)
    requires Sound(z) && Collected(z, r, d, m) && act.Commit? && Remembered(r, d, act, after, note, m, m') && Effective(act, after)
    requires LineRecords(act.records) && act.txn != d.checkpoint.value.txn && Valid(after)
    requires var b := CommitBatch(z, d, act.records, act.cap, act.fileId, act.name); var p := CommitTx(d, b.changes, act.generations, act.txn);
      Shaped(p, b.blobs) && Visible(after) == AfterView(d, p, b.blobs)
    ensures Collected(z, r, after, m')
  {
    hide Gained, AllAccounted, TxOk, LineRecords, CommitTx, CommitBatch, RecordsAll, AfterView, Decodes, HourText, RecordsOf, HourRecords,
         PlacesApart, AllRooted, ByRules, Known, Injective, Telling, Found, Valid, Collects;
    CollectedOpen(z, r, d, m);
    var cps := d.checkpoint.value.generations;
    Generations(z, d, act, after);
    GainedOn(map[], m.seen, note.seen, m.log, note.batch);
    assert AllRooted(act.generations, note.seen, note.world) && PlacesApart(act.generations, m.moved + Moved(cps, act.generations));
    forall k ensures k in after.data && k in after.index ==> Decodes(z, after.data[k], after.index[k]) {
      CommitText(z, d, act.records, act.generations, act.txn, act.cap, act.fileId, act.name, after, k);
    }
    forall k ensures HourKept(z, after, m', k) {
      CommitText(z, d, act.records, act.generations, act.txn, act.cap, act.fileId, act.name, after, k);
      assert HourText(z, d, k) == HourText(z, d, k);
      HourOn(m, m', note.batch, k);
    }
  }

  lemma Generations(z: Codec, d: Disk, act: Action, after: Disk)
    requires d.catalog.Some? && d.checkpoint.Some? && act.Commit? && d.checkpoint.value.generations.Keys <= act.generations.Keys
    requires var b := CommitBatch(z, d, act.records, act.cap, act.fileId, act.name); var p := CommitTx(d, b.changes, act.generations, act.txn);
      Shaped(p, b.blobs) && Visible(after) == AfterView(d, p, b.blobs)
    ensures after.checkpoint == Some(Checkpoint(act.txn, act.generations))
  {
    hide NewData, NewIndex, NewHours, CommitBatch;
    assert d.checkpoint.value.generations + act.generations == act.generations;
  }

  /** An expiry that takes effect leaves nothing of its hours, and the rest as it was. */
  lemma Removed(z: Codec, r: Rules, d: Disk, keys: seq<Key>, after: Disk, m: Memory)
    requires Collected(z, r, d, m) && Valid(after) && Readable(z, after)
    requires after.checkpoint == d.checkpoint
    requires forall k {:trigger HourText(z, after, k)} :: HourText(z, after, k) == if k in keys then [] else HourText(z, d, k)
    ensures Collected(z, r, after, Expired(m, keys))
  {
    hide Gained, AllAccounted, Valid, Decodes, HourText, RecordsAll, RecordsOf, AllRooted, PlacesApart;
    var m' := Expired(m, keys);
    forall k ensures HourKept(z, after, m', k) {
      assert HourText(z, after, k) == if k in keys then [] else HourText(z, d, k);
      assert HourKept(z, d, m, k);
      if k in keys { assert Raws(HourRecords(m', k)[Gone(m', k)..]) == []; }
    }
  }

  lemma DeletedTexts(z: Codec, d: Disk, keys: seq<Key>, after: Disk)
    requires Valid(d) && Readable(z, d) && Readable(z, after)
    requires Visible(after) == AfterView(d, ExpireTx(d, keys), map[])
    ensures after.catalog.Some? && after.checkpoint == d.checkpoint
    ensures forall k {:trigger HourText(z, after, k)} :: HourText(z, after, k) == if k in keys then [] else HourText(z, d, k)
    ensures forall k :: k in keys ==> k !in after.catalog.value.hours
  {
    hide Decodes, TextOf, HourOk;
    var gone := set k | k in keys;
    assert after.data == d.data - gone && after.index == d.index - gone && after.catalog == Some(ExpireTx(d, keys).afterCat);
    assert after.checkpoint == d.checkpoint;
  }

  lemma AbsentTexts(z: Codec, d: Disk, keys: seq<Key>)
    requires Valid(d) && Readable(z, d) && forall k :: k in keys ==> k !in d.catalog.value.hours
    ensures forall k {:trigger HourText(z, d, k)} :: HourText(z, d, k) == if k in keys then [] else HourText(z, d, k)
  {
    hide Decodes, TextOf, HourOk;
    assert forall k :: k in keys ==> k !in d.data.Keys;
  }

  /** Whatever happens next, the archive and the memory agree again. */
  lemma OneAction(z: Codec, r: Rules, t0: Trace, act: Action, how: Ending, t: Trace, note: Note, m0: Memory, m: Memory)
    requires Sound(z) && Sane(z, ClockOf(r), t0) && Continues(z, ClockOf(r), t0, act, how, t)
    requires Collected(z, r, Now(t0), m0) && Remembered(r, Now(t0), act, Now(t), note, m0, m)
    ensures Collected(z, r, Now(t), m)
  {
    hide Collected, TxOk, AfterView, After, Valid, Readable, Ranged, CycleDid, HourText, Timely, CommitBatch, CommitTx, CompactTx, Packed, Decodes, Found,
         Reread, PiecesRead, NewIds, Telling, UsedAfter;
    var clock, d := ClockOf(r), Now(t0);
    var e := EventFor(z, clock, t0, act, how);
    var after := After(z, d, e);
    assert Now(t) == after;
    OpenNow(z, clock, t0);
    ActionOk(z, clock, t0, act, how);
    EventEffect(z, d, e, Ids(t0));
    SelfGrows(m0.world);
    assert m0.(world := m0.world) == m0;
    if Visible(after) == Visible(d) {
      SameView(z, d, after);
    }
    match act {
      case Commit(records, _, _, _, _, _) =>
        FoundGrows(m0.world, note.files, note.world);
        TimelyLines(clock, records);
        if Visible(after) == Visible(d) {
          NothingDone(z, r, d, after, m0, note.world);
        } else {
          CommittedTxn(z, d, act, after);
          Committed(z, r, d, act, after, note, m0, m);
        }
      case Expire(keys) =>
        if Effective(act, after) || Visible(after) != Visible(d) {
          if Visible(after) == Visible(d) { AbsentTexts(z, d, keys); } else { DeletedTexts(z, d, keys, after); }
          Removed(z, r, d, keys, after, m0);
        } else {
          NothingDone(z, r, d, after, m0, m0.world);
        }
      case Compact(_, _, _, _, _, _, _, _, _) =>
        if Visible(after) != Visible(d) { CompactStep(z, clock, t0, act); }
        NothingDone(z, r, d, after, m0, m0.world);
      case Beside(_) => NothingDone(z, r, d, after, m0, m0.world);
    }
  }

  lemma SelfGrows(w: World)
    ensures Grows(w, w)
  {}

  lemma FoundGrows(w: World, files: seq<File>, w': World)
    requires Found(w, files, w')
    ensures Grows(w, w')
  {}

  lemma CommittedTxn(z: Codec, d: Disk, act: Action, after: Disk)
    requires d.catalog.Some? && d.checkpoint.Some? && act.Commit? && after.catalog.Some? && after.checkpoint.Some?
    requires var b := CommitBatch(z, d, act.records, act.cap, act.fileId, act.name); var p := CommitTx(d, b.changes, act.generations, act.txn);
      Shaped(p, b.blobs) && Visible(after) == AfterView(d, p, b.blobs)
    ensures Effective(act, after)
  {
    hide NewData, NewIndex, NewHours, CommitBatch;
  }

  // ---------- runs ----------

  const Nothing := Memory([], map[], map[], {}, map[])

  /** A life of an archive, from its first opening on, with what there is to remember of it. */
  ghost predicate Watched(z: Codec, r: Rules, t: Trace, acts: seq<Action>, ends: seq<Ending>, notes: seq<Note>, m: Memory)
    decreases |acts|
  {
    |acts| == |ends| == |notes| &&
    if acts == [] then Born(z, ClockOf(r), t) && Visible(t.disks[0]) == EmptyArchive && m == Nothing
    else
      var n := |acts| - 1;
      exists t0, m0 :: Watched(z, r, t0, acts[..n], ends[..n], notes[..n], m0) && WatchedOn(z, r, t0, m0, acts[n], ends[n], notes[n], t, m)
  }

  ghost predicate WatchedOn(z: Codec, r: Rules, t0: Trace, m0: Memory, act: Action, how: Ending, note: Note, t: Trace, m: Memory) {
    t0.disks != [] && t.disks != [] && Continues(z, ClockOf(r), t0, act, how, t) && Remembered(r, Now(t0), act, Now(t), note, m0, m)
  }

  /** Exactly once.  Over any life of cycles whose commits die anywhere, compactions that read and publish
      beside them, expiries, and reopenings that die anywhere, while the log files only grow: every hour holds
      its unexpired records once and in order, and the records committed of a generation are those of the kept
      lines of its file up to its offset. */
  lemma {:induction false} ExactlyOnce(z: Codec, r: Rules, t: Trace, acts: seq<Action>, ends: seq<Ending>, notes: seq<Note>, m: Memory)
    requires Sound(z) && Watched(z, r, t, acts, ends, notes, m)
    ensures Sane(z, ClockOf(r), t) && Collected(z, r, Now(t), m)
    decreases |acts|
  {
    hide Collected, Sane, Continues, Remembered, Born;
    if acts == [] {
      BornSane(z, r, t);
    } else {
      var n := |acts| - 1;
      var t0, m0 :| Watched(z, r, t0, acts[..n], ends[..n], notes[..n], m0) && WatchedOn(z, r, t0, m0, acts[n], ends[n], notes[n], t, m);
      ExactlyOnce(z, r, t0, acts[..n], ends[..n], notes[..n], m0);
      OneAction(z, r, t0, acts[n], ends[n], t, notes[n], m0, m);
      OnSane(z, ClockOf(r), t0, acts[n], ends[n], t);
    }
  }

  lemma OnSane(z: Codec, clock: Clock, t0: Trace, act: Action, how: Ending, t: Trace)
    requires Sound(z) && Sane(z, clock, t0) && Continues(z, clock, t0, act, how, t)
    ensures Sane(z, clock, t)
  {
    hide Sane, Possible, EventFor, After, Valid, Ranged, EventOk;
    ActionOk(z, clock, t0, act, how);
    LongerSane(z, clock, t0, EventFor(z, clock, t0, act, how));
  }

  lemma BornSane(z: Codec, r: Rules, t: Trace)
    requires Born(z, ClockOf(r), t) && Visible(t.disks[0]) == EmptyArchive
    ensures Sane(z, ClockOf(r), t) && t.disks != [] && Collected(z, r, Now(t), Nothing)
  {
    var d := t.disks[0];
    assert d.checkpoint == Some(NoOffsets) && d.data == map[] && d.index == map[];
    assert Gained(map[], map[], []) by { GainedNothing(map[]); }
    forall k ensures HourKept(z, d, Nothing, k) {
      assert HourRecords(Nothing, k) == [] && Raws([]) == [];
    }
  }

  /** What a generation contributed is exactly the kept lines of its file up to its offset, in file order, and
      no file is counted under two generations unless one of them adopted it as a copy. */
  lemma EachLineOnce(z: Codec, r: Rules, d: Disk, m: Memory, n: string)
    requires Collected(z, r, d, m) && n in d.checkpoint.value.generations && d.checkpoint.value.generations[n].kind != Issue
    ensures var g := d.checkpoint.value.generations[n];
      && PlaceFor(g) in m.world && g.offset <= |m.world[PlaceFor(g)]|
      && LinesBy(m.log, n) == Kept(Split(m.world[PlaceFor(g)][..g.offset]))
    ensures forall o {:trigger d.checkpoint.value.generations[o]} ::
      o in d.checkpoint.value.generations && o != n && d.checkpoint.value.generations[o].kind != Issue && o !in m.moved && n !in m.moved ==>
        PlaceFor(d.checkpoint.value.generations[o]) != PlaceFor(d.checkpoint.value.generations[n])
  {
    hide Kept, Accounted, HourKept, Valid, Readable;
    CollectedOpen(z, r, d, m);
    var g := d.checkpoint.value.generations[n];
    assert Rooted(g, SeenBy(m.seen, n), m.world);
    assert SeenBy(m.seen, n) == m.world[PlaceFor(g)][..g.offset];
    assert LinesBy(m.log, n) == LinesBy(m.log, n);
    assert SeenBy(map[], n) == [];
    NothingKept();
    assert [] + LinesBy(m.log, n) == LinesBy(m.log, n);
  }

  /** What is waiting holds no complete line within the limit. */
  lemma WaitingLines(z: Parser, seen: Bytes, rest: Bytes, gaps: seq<Gap>, long: Option<nat>)
    requires Accounts(z, Split(seen), Partial(seen), gaps, long) && Waiting(rest, long)
    ensures Kept(Split(seen + rest)) == Kept(Split(seen))
  {
    hide Kept, Accounts;
    AppendOpen(seen, rest);
  }

  /** The checkpoints after a commit that took effect. */
  lemma CommitEffect(z: Codec, r: Rules, t0: Trace, act: Action, how: Ending, t: Trace)
    requires Sound(z) && Sane(z, ClockOf(r), t0) && Continues(z, ClockOf(r), t0, act, how, t) && act.Commit?
    requires t0.disks != [] && t.disks != [] && Now(t0).checkpoint.Some? && Now(t).checkpoint.Some? && Now(t).catalog.Some? && Effective(act, Now(t))
    requires Now(t0).checkpoint.value.generations.Keys <= act.generations.Keys
    ensures Now(t).checkpoint.value.generations == act.generations
  {
    hide TxOk, AfterView, After, Valid, Readable, Ranged, HourText, Timely, CommitBatch, CommitTx, CompactTx, Packed, Decodes, Reread, PiecesRead, NewIds, UsedAfter;
    var clock, d := ClockOf(r), Now(t0);
    var e := EventFor(z, clock, t0, act, how);
    assert Now(t) == After(z, d, e);
    OpenNow(z, clock, t0);
    ActionOk(z, clock, t0, act, how);
    EventEffect(z, d, e, Ids(t0));
    if Visible(Now(t)) != Visible(d) { Generations(z, d, act, Now(t)); }
  }

  /** The generation on the file has contributed all its complete lines within the limit. */
  ghost predicate TakenWhole(cps: map<string, Generation>, log: seq<Took>, f: File) {
    exists n {:trigger LinesBy(log, n)} :: n in cps && PlaceFor(cps[n]) == PlaceOf(f) && LinesBy(log, n) == Kept(Split(f.contents))
  }

  /** Nothing is left behind.  After a cycle whose commit took effect, every file that can be read and only grew is
      archived to its last complete line within the limit, unless the cycle took all it was allowed to, or the file
      is the tombstone of a closed generation. */
  lemma NothingLeft(z: Codec, r: Rules, t0: Trace, act: Action, how: Ending, t: Trace, note: Note, m0: Memory, m: Memory, i: nat)
    requires Sound(z) && Sane(z, ClockOf(r), t0) && Continues(z, ClockOf(r), t0, act, how, t)
    requires Collected(z, r, Now(t0), m0) && Remembered(r, Now(t0), act, Now(t), note, m0, m) && act.Commit? && Effective(act, Now(t))
    requires i < |note.files| && Calm(note.files[i]) && !Archived(act.generations, note.files[i])
    requires Spent(Now(t0).checkpoint.value.generations, act.generations, note.turn.order) < note.turn.allowance
    ensures TakenWhole(act.generations, m.log, note.files[i])
  {
    hide Archived, Spent, Kept, Split, LinesBy, Collected, Possible, EventFor, Valid, Readable, Ranged, Remembered, Effective, CaughtUp, TakenWhole;
    assert Now(t0).checkpoint.Some? && Now(t).checkpoint.Some? && Now(t).catalog.Some? by { CommitNoted(r, Now(t0), act, Now(t), note, m0, m); }
    OneAction(z, r, t0, act, how, t, note, m0, m);
    CommitNoted(r, Now(t0), act, Now(t), note, m0, m);
    CommitEffect(z, r, t0, act, how, t);
    TakenFrom(z, r, Now(t), m, note.files[i], note.world);
  }

  /** What a commit that took effect leaves in mind. */
  lemma CommitNoted(r: Rules, d: Disk, act: Action, after: Disk, note: Note, m: Memory, m': Memory)
    requires Remembered(r, d, act, after, note, m, m') && act.Commit?
    ensures d.checkpoint.Some? && after.checkpoint.Some? && after.catalog.Some?
    ensures d.checkpoint.value.generations.Keys <= act.generations.Keys && Found(m.world, note.files, note.world)
    ensures Collects(d.checkpoint.value.generations, act.generations, note.files, note.turn)
    ensures Effective(act, after) ==> m'.world == note.world
  {
    hide Found, Telling, Collects, Effective, RootsKept, AllAccounted, Gained, ByRules, Known, Injective;
  }

  lemma TakenFrom(z: Codec, r: Rules, d: Disk, m: Memory, f: File, w: World)
    requires Collected(z, r, d, m) && m.world == w && d.checkpoint.Some? && Caught(d.checkpoint.value.generations, f) && !Archived(d.checkpoint.value.generations, f)
    requires PlaceOf(f) in w && f.contents <= w[PlaceOf(f)]
    ensures TakenWhole(d.checkpoint.value.generations, m.log, f)
  {
    hide Archived, Kept, Split, LinesBy, HourKept, PlacesApart, Accounted, Rooted, CaughtUp, Valid, Readable;
    var cps := d.checkpoint.value.generations;
    var n :| n in cps && cps[n].kind != Issue && PlaceFor(cps[n]) == PlaceOf(f) && CaughtUp(f, cps[n]);
    assert Rooted(cps[n], SeenBy(m.seen, n), m.world) && Accounted(r, cps[n], SeenBy(m.seen, n));
    CaughtLines(r, cps[n], SeenBy(m.seen, n), m.world, f);
    assert LinesBy(m.log, n) == LinesBy(m.log, n);
    assert SeenBy(map[], n) == [];
    NothingKept();
    assert [] + LinesBy(m.log, n) == LinesBy(m.log, n);
  }

  lemma CaughtLines(r: Rules, g: Generation, seen: Bytes, w: World, f: File)
    requires Rooted(g, seen, w) && Accounted(r, g, seen) && CaughtUp(f, g) && PlaceFor(g) == PlaceOf(f) && g.kind != Issue
    requires PlaceOf(f) in w && f.contents <= w[PlaceOf(f)]
    ensures Kept(Split(seen)) == Kept(Split(f.contents))
  {
    hide Kept, Split, Accounts, Waiting;
    assert seen == f.contents[..g.offset];
    WaitingLines(r.parse(g.source), seen, f.contents[g.offset..], g.gaps, g.long);
    assert seen + f.contents[g.offset..] == f.contents;
  }

  lemma NothingKept()
    ensures Kept(Split([])) == []
  {}
}
