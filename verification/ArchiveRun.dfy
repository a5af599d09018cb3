/** Whole lives of an archive: commits, expiries and compactions in any order, each of which may die
    anywhere, and everything the other modules promise about its disks. */
module ArchiveRun {
  import opened Options
  import opened ArchiveTypes
  import opened ArchiveDisk
  import opened ArchiveJournal
  import opened ArchiveCrash
  import opened ArchiveStaging
  import opened ArchiveCommit
  import opened ArchiveHistory
  import opened ArchiveReaders
  import opened ArchiveRanges

  /** One use of the store.  A compaction names the moment `from` at which its hour was chosen, and when
      and with what result each group of members was read since. */
  datatype Action =
    | Commit(records: seq<Record>, generations: map<string, Generation>, txn: nat, cap: nat, fileId: nat, name: nat)
    | Expire(keys: seq<Key>)
    | Compact(key: Key, from: nat, moments: seq<Moment>, slices: seq<Bytes>, cap: nat, fileId: nat, txn: nat, temp: nat, backup: nat)
    | Beside(files: map<nat, Bytes>)

  /** An action runs to its end, or dies and is followed by reopenings that may die, too. */
  datatype Ending = Whole | Dies(fuel: nat, torn: nat, crashes: seq<Crash>)

  /** The pieces the compaction rebuilt from what it read. */
  function PiecesRead(z: Codec, t: Trace, act: Action): Option<seq<Piece>>
    requires act.Compact?
  {
    if act.from < |t.disks| && act.key in t.disks[act.from].index then
      var groups := CompactGroups(t.disks[act.from].index[act.key], act.cap);
      if NoneEmpty(groups) && |groups| == |act.slices| then Rebuild(z, groups, act.slices) else None
    else None
  }

  function Now(t: Trace): Disk
    requires t.disks != []
  {
    t.disks[|t.disks| - 1]
  }

  function Ids(t: Trace): set<nat>
    requires t.used != []
  {
    t.used[|t.used| - 1]
  }

  /** The guard of compactHour: the hour is still the file that was read. */
  predicate Unchanged(d: Disk, before: Entry, k: Key) {
    HourEntry(d, k).Some? && HourEntry(d, k).value.fileId == before.fileId && HourEntry(d, k).value.size == before.size
  }

  /** Random ids do not come up again. */
  predicate NewIds(fileId: nat, count: nat, used: set<nat>) { forall id {:trigger id in used} :: id in used ==> id < fileId || fileId + count <= id }

  /** What the callers and the environment guarantee: transaction ids and fileIds are new, records are whole
      lines dated as their text says, and a compaction publishes what it staged, if its guard passes. */
  ghost predicate Possible(z: Codec, clock: Clock, t: Trace, act: Action)
    requires |t.disks| == |t.used| == |t.events| + 1
  {
    var d := Now(t);
    d.catalog.Some? && d.checkpoint.Some? &&
    match act
    case Commit(records, _, txn, _, fileId, _) =>
      txn != d.checkpoint.value.txn && Timely(clock, records) && NewIds(fileId, |HoursOf(records)|, Ids(t))
    case Expire(keys) => true
    case Compact(k, from, moments, slices, cap, fileId, txn, temp, backup) =>
      && Reread(t, from, |t.disks| - 1, k, moments, slices, cap) && PiecesRead(z, t, act).Some?
      && temp in d.staging && d.staging[temp] == Packed(z, 6, PiecesRead(z, t, act).value)
      && temp != backup && txn != d.checkpoint.value.txn && fileId !in Ids(t)
    case Beside(_) => true
  }

  /** The transaction an action carries out. */
  function TxFor(z: Codec, t: Trace, act: Action): (Pending, map<nat, Bytes>)
    requires |t.disks| == |t.used| == |t.events| + 1 && !act.Beside? && Now(t).catalog.Some? && Now(t).checkpoint.Some?
    requires act.Compact? ==> PiecesRead(z, t, act).Some? && HourEntry(t.disks[act.from], act.key).Some?
  {
    var d := Now(t);
    match act
    case Commit(records, generations, txn, cap, fileId, name) =>
      var b := CommitBatch(z, d, records, cap, fileId, name);
      (CommitTx(d, b.changes, generations, txn), b.blobs)
    case Expire(keys) => (ExpireTx(d, keys), map[])
    case Compact(k, from, _, _, _, fileId, txn, temp, backup) =>
      var was, pieces := t.disks[from], PiecesRead(z, t, act).value;
      (CompactTx(z, d, k, HourEntry(was, k).value, was.index[k], pieces, fileId, txn, temp, backup), map[temp := Packed(z, 6, pieces)])
  }

  ghost function EventFor(z: Codec, clock: Clock, t: Trace, act: Action, how: Ending): Event
    requires |t.disks| == |t.used| == |t.events| + 1 && Possible(z, clock, t, act)
  {
    if act.Beside? then Event.Staging(act.files)
    else
      var tx := TxFor(z, t, act);
      if how.Whole? then Finished(tx.0, tx.1) else Died(tx.0, tx.1, how.fuel, how.torn, how.crashes)
  }

  /** The trace with one more event. */
  function Longer(z: Codec, t: Trace, e: Event): Trace
    requires t.disks != [] && t.used != [] && (e.Staging? || Shaped(e.p, e.blobs))
  {
    Trace(t.disks + [After(z, Now(t), e)], t.events + [e], t.used + [UsedAfter(e, Ids(t))])
  }

  /** A trace made by these actions. */
  ghost predicate Lived(z: Codec, clock: Clock, t: Trace, acts: seq<Action>, ends: seq<Ending>)
    decreases |acts|
  {
    |acts| == |ends| &&
    if acts == [] then Born(z, clock, t)
    else
      var n := |acts| - 1;
      exists t0 :: Lived(z, clock, t0, acts[..n], ends[..n]) && Continues(z, clock, t0, acts[n], ends[n], t)
  }

  ghost predicate Continues(z: Codec, clock: Clock, t0: Trace, act: Action, how: Ending, t: Trace) {
    && |t0.disks| == |t0.used| == |t0.events| + 1 && Possible(z, clock, t0, act)
    && var e := EventFor(z, clock, t0, act, how);
       (e.Staging? || Shaped(e.p, e.blobs)) && t == Longer(z, t0, e)
  }

  ghost predicate Born(z: Codec, clock: Clock, t: Trace) {
    && |t.disks| == |t.used| == 1 && t.events == [] && Valid(t.disks[0]) && Readable(z, t.disks[0]) && Ranged(z, clock, t.disks[0])
    && forall k :: k in t.disks[0].catalog.value.hours ==> t.disks[0].catalog.value.hours[k].fileId in t.used[0]
  }

  /** Every disk of the trace can be read, and its published ranges and counts are right. */
  ghost predicate Sane(z: Codec, clock: Clock, t: Trace) {
    TraceOk(z, t) && forall i {:trigger t.disks[i]} :: 0 <= i < |t.disks| ==> Readable(z, t.disks[i]) && Ranged(z, clock, t.disks[i])
  }

  // ---------- commits ----------

  lemma {:induction false} StageIds(z: Codec, hours: map<Key, Entry>, index: map<Key, Index>, records: seq<Record>, keys: seq<Key>,
                                    cap: nat, fileId: nat, name: nat, i: nat)
    requires i < |keys|
    ensures var cs := Stage(z, hours, index, records, keys, cap, fileId, name).changes;
      i < |cs| && cs[i].after.fileId == if keys[i] in hours then hours[keys[i]].fileId else fileId + i
    decreases keys
  {
    hide Flatten, Pack, PackOpen, MemberAt, PieceIndex, TimeOf, KeyOf, RecordsOf, Raws, Least, Greatest, Unknowns, PieceOf, PiecesOf, StagedPieces, Grow, Blobs, Names;
    var mine := RecordsOf(records, keys[0]);
    var e := if keys[0] in hours then hours[keys[0]] else Entry(fileId, 0, 0, 0, 0, 0, false);
    GrowKeepsId(z, e, StagedPieces(mine, cap));
    if i > 0 {
      StageIds(z, hours, index, records, keys[1..], cap, fileId + 1, name + |StagedPieces(mine, cap)|, i - 1);
    }
  }

  lemma {:induction false} PackedLong(z: Codec, pieces: seq<Piece>)
    requires Sound(z) && pieces != []
    ensures |Packed(z, 1, pieces)| > 0
  {
    if |pieces| > 1 { PackedLong(z, pieces[1..]); }
  }

  /** What a commit does to fileIds is what a history of fileIds needs: new hours get new ones, and an
      hour that is appended to keeps its own, its index and its bytes in front. */
  lemma CommitIdentified(z: Codec, d: Disk, records: seq<Record>, cap: nat, fileId: nat, name: nat, used: set<nat>, i: nat)
    requires Sound(z) && Valid(d) && LineRecords(records) && i < |HoursOf(records)|
    requires NewIds(fileId, |HoursOf(records)|, used)
    ensures var cs := CommitBatch(z, d, records, cap, fileId, name).changes; i < |cs| && Identified(cs[i], false, used)
  {
    hide HourOk, PieceIndex, Pack, Grow, Sound, CountLF, IsLine, Flatten, IndexOk, PackOpen, Packed, PieceText, TimeOf, KeyOf, RecordsOf, HoursOf, Raws, Least, Greatest, Unknowns, PieceOf, PiecesOf, LineRecords, StagedPieces, Blobs, Names, Stage;
    var keys, b := HoursOf(records), CommitBatch(z, d, records, cap, fileId, name);
    var k, hours := keys[i], d.catalog.value.hours;
    StageIds(z, hours, d.index, records, keys, cap, fileId, name, i);
    BatchOf(z, d, records, cap, fileId, name, i);
    var c, mine := b.changes[i], RecordsOf(records, k);
    if k in hours {
      assert k in d.data.Keys && k in d.index.Keys;
      RecordsOfLines(records, k);
      HoursOfExact(records);
      StagedPiecesText(mine, cap);
      StagedSome(mine, cap);
      GrowSums(z, 1, hours[k], StagedPieces(mine, cap));
      PackedLong(z, StagedPieces(mine, cap));
    }
  }

  lemma StagedSome(records: seq<Record>, cap: nat)
    requires records != []
    ensures StagedPieces(records, cap) != []
  {
    PackExact(records, LineSize, [], cap);
    assert [] + records == records;
  }

  lemma CommitStep(z: Codec, clock: Clock, d: Disk, records: seq<Record>, generations: map<string, Generation>, txn: nat,
                   cap: nat, fileId: nat, name: nat, used: set<nat>)
    requires Sound(z) && Valid(d) && Readable(z, d) && Ranged(z, clock, d) && Timely(clock, records) && txn != d.checkpoint.value.txn
    requires NewIds(fileId, |HoursOf(records)|, used)
    ensures var b := CommitBatch(z, d, records, cap, fileId, name);
      var p := CommitTx(d, b.changes, generations, txn);
      && EventOk(z, d, Finished(p, b.blobs), used)
      && forall after {:trigger Visible(after)} :: Visible(after) == AfterView(d, p, b.blobs) ==> Readable(z, after) && Ranged(z, clock, after)
  {
    hide Ranged, Timely, ChangeOk, Identified, CommitBatch, AfterView, Decodes, HourOk;
    TimelyLines(clock, records);
    CommitTxOk(z, d, records, generations, txn, cap, fileId, name);
    StagedCount(z, d, records, cap, fileId, name);
    var b := CommitBatch(z, d, records, cap, fileId, name);
    var p := CommitTx(d, b.changes, generations, txn);
    forall i | 0 <= i < |b.changes| ensures Identified(b.changes[i], false, used) {
      CommitIdentified(z, d, records, cap, fileId, name, used, i);
    }
    forall after | Visible(after) == AfterView(d, p, b.blobs) ensures Readable(z, after) && Ranged(z, clock, after) {
      forall k ensures k in after.data && k in after.index ==> Decodes(z, after.data[k], after.index[k]) {
        CommitText(z, d, records, generations, txn, cap, fileId, name, after, k);
      }
      CommitRanged(z, clock, d, records, generations, txn, cap, fileId, name, after);
    }
  }

  // ---------- expiries ----------

  lemma ExpireStep(z: Codec, clock: Clock, d: Disk, keys: seq<Key>, used: set<nat>)
    requires Valid(d) && Readable(z, d) && Ranged(z, clock, d)
    ensures var p := ExpireTx(d, keys);
      && EventOk(z, d, Finished(p, map[]), used)
      && forall after {:trigger Visible(after)} :: Visible(after) == AfterView(d, p, map[]) ==> Readable(z, after) && Ranged(z, clock, after)
  {
    hide Ranged, AfterView, HourOk;
    var p := ExpireTx(d, keys);
    forall after | Visible(after) == AfterView(d, p, map[]) ensures Readable(z, after) && Ranged(z, clock, after) {
      ExpireRanged(z, clock, d, p, after);
    }
  }

  // ---------- compactions ----------

  /** A compaction whose guard passes publishes a rebuild of exactly the hour that is there, although the
      hour was read piece by piece while the store went on: its transaction is one that crash atomicity
      covers, and it leaves every text, range and count as it was. */
  lemma CompactStep(z: Codec, clock: Clock, t: Trace, act: Action)
    requires Sound(z) && Sane(z, clock, t) && act.Compact? && Possible(z, clock, t, act)
    ensures CompactReady(z, Now(t), act.key, PiecesRead(z, t, act).value, act.temp)
    ensures HourEntry(t.disks[act.from], act.key) == HourEntry(Now(t), act.key) && t.disks[act.from].index[act.key] == Now(t).index[act.key]
    ensures var tx := TxFor(z, t, act);
      && EventOk(z, Now(t), Finished(tx.0, tx.1), Ids(t))
      && forall after {:trigger Visible(after)} :: Visible(after) == AfterView(Now(t), tx.0, tx.1) ==>
           Readable(z, after) && Ranged(z, clock, after) && (forall k :: HourText(z, after, k) == HourText(z, Now(t), k))
           && after.checkpoint.Some? && after.checkpoint.value.generations == Now(t).checkpoint.value.generations
  {
    hide Ranged, AfterView, HourOk, Decodes, TextOf, Rebuild, Packed, PieceIndex, PieceText, Tiles, Rebuilt, FileRanged, MembersRanged, NoneEmpty, Pack;
    var d, was, k, b := Now(t), t.disks[act.from], act.key, |t.disks| - 1;
    assert Compaction(z, t, act.from, b, k, act.moments, act.slices, act.cap);
    assert Readable(z, was) && Readable(z, d) && Ranged(z, clock, d);
    HourThere(t, act.from, k);
    CompactionRebuilds(z, t, act.from, b, k, act.moments, act.slices, act.cap);
    var pieces := PiecesRead(z, t, act).value;
    assert CompactReady(z, d, k, pieces, act.temp);
    HourCounting(z, clock, d, k);
    HourIn(z, clock, d, k);
    assert d.index[k] != [] by { SummedSome(z, clock, d, k); }
    RebuiltExact(z, clock, k.source, d.data[k], d.index[k], act.slices, act.cap);
    CompactionTxOk(z, d, k, pieces, act.fileId, act.txn, act.temp, act.backup);
    var tx := TxFor(z, t, act);
    forall after | Visible(after) == AfterView(d, tx.0, tx.1)
      ensures Readable(z, after) && Ranged(z, clock, after)
      ensures forall h :: HourText(z, after, h) == HourText(z, d, h)
      ensures after.checkpoint.Some? && after.checkpoint.value.generations == d.checkpoint.value.generations
    {
      CompactionFaithful(z, d, k, pieces, act.fileId, act.txn, act.temp, act.backup, after);
      CompactRanged(z, clock, d, k, pieces, act.fileId, act.txn, act.temp, act.backup, after);
    }
  }

  lemma HourThere(t: Trace, a: nat, k: Key)
    requires a < |t.disks| && Valid(t.disks[a]) && HourEntry(t.disks[a], k).Some?
    ensures k in t.disks[a].data && k in t.disks[a].index
  {
    assert HourOk(t.disks[a], k, HourEntry(t.disks[a], k).value);
  }

  lemma SummedSome(z: Codec, clock: Clock, d: Disk, k: Key)
    requires Readable(z, d) && HourEntry(d, k).Some? && HourRanged(z, clock, d, k)
    ensures d.index[k] != []
  {}

  // ---------- runs ----------

  /** Any action the store can take is an event histories of the archive allow. */
  lemma ActionOk(z: Codec, clock: Clock, t: Trace, act: Action, how: Ending)
    requires Sound(z) && Sane(z, clock, t) && Possible(z, clock, t, act)
    ensures var e := EventFor(z, clock, t, act, how); EventOk(z, Now(t), e, Ids(t)) && (e.Staging? || Shaped(e.p, e.blobs))
    ensures var after := After(z, Now(t), EventFor(z, clock, t, act, how));
      Valid(after) && Readable(z, after) && Ranged(z, clock, after)
  {
    hide Ranged, AfterView, HourOk, After, TxOk, Identified, Timely, CommitBatch, CommitTx, CompactTx, ExpireTx, Packed, PiecesRead, Reread;
    var d, e := Now(t), EventFor(z, clock, t, act, how);
    assert Valid(d) && Readable(z, d) && Ranged(z, clock, d);
    match act {
      case Commit(records, generations, txn, cap, fileId, name) => CommitStep(z, clock, d, records, generations, txn, cap, fileId, name, Ids(t));
      case Expire(keys) => ExpireStep(z, clock, d, keys, Ids(t));
      case Compact(_, _, _, _, _, _, _, _, _) => CompactStep(z, clock, t, act);
      case Beside(_) =>
    }
    EventShaped(z, d, e, Ids(t));
    EventEffect(z, d, e, Ids(t));
    if Visible(After(z, d, e)) == Visible(d) { SameRanged(z, clock, d, After(z, d, e)); }
  }

  lemma EventShaped(z: Codec, d: Disk, e: Event, used: set<nat>)
    requires Valid(d) && EventOk(z, d, e, used)
    ensures e.Staging? || Shaped(e.p, e.blobs)
  {}

  lemma LongerSane(z: Codec, clock: Clock, t: Trace, e: Event)
    requires Sane(z, clock, t) && EventOk(z, Now(t), e, Ids(t))
    requires e.Staging? || Shaped(e.p, e.blobs)
    requires var after := After(z, Now(t), e); Valid(after) && Readable(z, after) && Ranged(z, clock, after)
    ensures Sane(z, clock, Longer(z, t, e))
  {
    hide Valid, Readable, Ranged, EventOk, After, UsedAfter;
    var t' := Longer(z, t, e);
    forall i | 0 <= i < |t'.events| ensures Valid(t'.disks[i]) && StepOk(z, t', i) {
      if i < |t.events| {
        assert StepOk(z, t, i);
        assert t'.disks[i] == t.disks[i] && t'.disks[i + 1] == t.disks[i + 1] && t'.events[i] == t.events[i];
        assert t'.used[i] == t.used[i] && t'.used[i + 1] == t.used[i + 1];
      }
    }
    forall i | 0 <= i < |t'.disks| ensures Valid(t'.disks[i]) && Readable(z, t'.disks[i]) && Ranged(z, clock, t'.disks[i]) {
      if i < |t.disks| { assert t'.disks[i] == t.disks[i]; }
    }
    assert t'.disks[0] == t.disks[0] && t'.used[0] == t.used[0];
  }

  /** Every life of the store, whatever commits, expiries, compactions and deaths it is made of, is a
      history in the sense of ArchiveHistory, with right ranges and counts throughout. */
  lemma {:induction false} LivesAreSane(z: Codec, clock: Clock, t: Trace, acts: seq<Action>, ends: seq<Ending>)
    requires Sound(z) && Lived(z, clock, t, acts, ends)
    ensures Sane(z, clock, t) && |t.events| == |acts|
    decreases |acts|
  {
    hide Valid, Readable, Ranged, EventOk, After, UsedAfter, Possible, EventFor;
    if acts != [] {
      var n := |acts| - 1;
      var t0 :| Lived(z, clock, t0, acts[..n], ends[..n]) && Continues(z, clock, t0, acts[n], ends[n], t);
      LivesAreSane(z, clock, t0, acts[..n], ends[..n]);
      ActionOk(z, clock, t0, acts[n], ends[n]);
      LongerSane(z, clock, t0, EventFor(z, clock, t0, acts[n], ends[n]));
    }
  }
}
