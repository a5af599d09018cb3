/** Readers beside the publication queue: searches over a frozen snapshot, and compaction. */
module ArchiveReaders {
  import opened Options
  import opened ArchiveTypes
  import opened ArchiveDisk
  import opened ArchiveJournal
  import opened ArchiveCrash
  import opened ArchiveStaging
  import opened ArchiveHistory

  /** When a read of a file happens: between two events of a run, or inside a transaction,
      after `fuel` of its disk operations and part of the next. */
  datatype Moment = Idle(at: nat) | During(at: nat, fuel: nat, torn: nat)

  ghost predicate Between(t: Trace, a: nat, m: Moment, b: nat)
    requires |t.disks| == |t.events| + 1
  {
    a <= m.at <= b < |t.disks| && (m.During? ==> m.at < b && t.events[m.at].Finished?)
  }

  function DiskAt(t: Trace, m: Moment): Disk
    requires |t.disks| == |t.events| + 1 && m.at < |t.disks|
    requires m.During? ==> m.at < |t.events| && t.events[m.at].Finished? && Shaped(t.events[m.at].p, t.events[m.at].blobs)
  {
    match m
    case Idle(i) => t.disks[i]
    case During(i, fuel, torn) => Run(t.disks[i], TxOps(t.events[i].p, t.events[i].blobs), fuel, torn)
  }

  /** While a transaction that keeps the hour's file runs, the file keeps its old bytes in front. */
  lemma MidRead(z: Codec, d: Disk, p: Pending, blobs: map<nat, Bytes>, used: set<nat>, fuel: nat, torn: nat, k: Key, id: nat)
    requires Valid(d) && EventOk(z, d, Finished(p, blobs), used) && id in used
    requires var e := After(z, d, Finished(p, blobs)); HourEntry(e, k).Some? && HourEntry(e, k).value.fileId == id
    ensures k in d.data && k in Run(d, TxOps(p, blobs), fuel, torn).data
    ensures d.data[k] <= Run(d, TxOps(p, blobs), fuel, torn).data[k]
  {
    var e := After(z, d, Finished(p, blobs));
    EventEffect(z, d, Finished(p, blobs), used);
    ViewGrown(z, d, p, blobs, used, e, k, id);
    TransactionSettles(z, d, p, blobs, fuel, torn);
    var x := Run(d, TxOps(p, blobs), fuel, torn);
    if InFlight(x, d, p) {
      if Touches(p.changes, k) {
        var i :| 0 <= i < |p.changes| && p.changes[i].key == k;
        assert Restorable(x, d, p.changes[i], p.compact);
        assert k in d.data.Keys;
      } else {
        assert SameAt(x, d, k);
      }
    } else if Deleting(x, d, p) {
      assert SameAt(x, d, k);
    }
  }

  /** Snapshot isolation.  If the hour has at `b` the fileId it had at `a`, then whatever was
      read of it at any moment between, even inside a transaction, began with the bytes it
      had at `a`. */
  lemma SnapshotIsolation(z: Codec, t: Trace, a: nat, m: Moment, b: nat, k: Key)
    requires TraceOk(z, t) && Between(t, a, m, b) && SameId(t.disks[a], t.disks[b], k)
    ensures m.During? ==> StepOk(z, t, m.at)
    ensures k in t.disks[a].data && k in DiskAt(t, m).data && t.disks[a].data[k] <= DiskAt(t, m).data[k]
  {
    FileIdDeterminesContents(z, t, a, b, k);
    assert SameId(t.disks[m.at], t.disks[b], k);
    if m.During? {
      var e := t.events[m.at];
      assert StepOk(z, t, m.at);
      var id := HourEntry(t.disks[a], k).value.fileId;
      IdsUsed(z, t, a, k);
      UsedGrows(z, t, a, m.at);
      assert SameId(t.disks[m.at + 1], t.disks[b], k);
      MidRead(z, t.disks[m.at], e.p, e.blobs, t.used[m.at], m.fuel, m.torn, k, id);
    }
    FileIdDeterminesContents(z, t, a, m.at, k);
  }

  // ---------- readIndex ----------

  /** The members that end within the first `size` bytes. */
  function Upto(ix: Index, size: nat): Index {
    if ix == [] then [] else (if ix[0].end <= size then [ix[0]] else []) + Upto(ix[1..], size)
  }

  /** readIndex: the snapshot's members, or an expired snapshot. */
  function ReadIndex(d: Disk, k: Key, snap: Entry): Option<Index>
    requires Valid(d)
  {
    assert k in d.index.Keys <==> k in d.catalog.value.hours.Keys;
    var now := HourEntry(d, k);
    if now.None? || now.value.fileId != snap.fileId || now.value.size < snap.size then None
    else Some(Upto(d.index[k], snap.size))
  }

  lemma {:induction false} UptoBeyond(ix: Index, from: nat, size: nat)
    requires Tiles(ix, from) && size <= from
    ensures Upto(ix, size) == []
    decreases ix
  {
    if ix != [] { UptoBeyond(ix[1..], ix[0].end, size); }
  }

  lemma {:induction false} UptoPrefix(a: Index, b: Index, from: nat)
    requires Tiles(b, from) && a <= b
    ensures Upto(b, EndOf(a, from)) == a
    decreases a
  {
    if a == [] {
      UptoBeyond(b, from, from);
    } else {
      UptoPrefix(a[1..], b[1..], a[0].end);
      TilesPrefix(a, b, from);
      TilesEnd(a[1..], a[0].end);
      assert EndOf(a, from) == EndOf(a[1..], a[0].end);
      assert a == [b[0]] + a[1..];
    }
  }

  /** A search that is given an index later than its snapshot is given the snapshot's own. */
  lemma ReadIndexExact(z: Codec, t: Trace, a: nat, m: nat, k: Key)
    requires TraceOk(z, t) && a <= m < |t.disks| && HourEntry(t.disks[a], k).Some?
    ensures var r := ReadIndex(t.disks[m], k, HourEntry(t.disks[a], k).value);
      r.Some? ==> k in t.disks[a].index && r.value == t.disks[a].index[k]
    ensures SameId(t.disks[a], t.disks[m], k) ==> ReadIndex(t.disks[m], k, HourEntry(t.disks[a], k).value).Some?
  {
    if SameId(t.disks[a], t.disks[m], k) {
      FileIdDeterminesContents(z, t, a, m, k);
      assert HourOk(t.disks[a], k, HourEntry(t.disks[a], k).value) && HourOk(t.disks[m], k, HourEntry(t.disks[m], k).value);
      UptoPrefix(t.disks[a].index[k], t.disks[m].index[k], 0);
    }
  }

  /** What a reader opening the hour's file gets of a byte range; a shorter file gives less. */
  function ReadRange(d: Disk, k: Key, from: nat, to: nat): Option<Bytes>
    requires from <= to
  {
    if k !in d.data then None
    else
      var n := |d.data[k]|;
      Some(d.data[k][if from <= n then from else n..if to <= n then to else n])
  }

  /** So a search whose hours all still have their fileIds when it revalidates read nothing but
      its snapshot's members, each exactly. */
  lemma MemberReadExact(z: Codec, t: Trace, a: nat, m: Moment, b: nat, k: Key, i: nat)
    requires TraceOk(z, t) && Between(t, a, m, b) && SameId(t.disks[a], t.disks[b], k)
    requires k in t.disks[a].index && i < |t.disks[a].index[k]|
    ensures m.During? ==> StepOk(z, t, m.at)
    ensures k in t.disks[a].data
    ensures var mem := t.disks[a].index[k][i];
      && mem.start <= mem.end <= |t.disks[a].data[k]|
      && ReadRange(DiskAt(t, m), k, mem.start, mem.end) == Some(t.disks[a].data[k][mem.start..mem.end])
  {
    hide Torn, RunAll, Run, Tiles, EndOf, LinesOf, Staged, ChangesOps, StageOps, Discard, DeleteOps, Finish, CompactShape, Shaped, Prologue, Body, TxOps, NewHours, Distinct, ChangeOk, Recover, InitPlan, Restarts, After, IdsOf, Identified, UsedAfter, SameId;
    SnapshotIsolation(z, t, a, m, b, k);
    assert k in t.disks[a].index.Keys;
    assert HourOk(t.disks[a], k, HourEntry(t.disks[a], k).value);
    TilesWithin(t.disks[a].index[k], 0, i);
    var f, g := t.disks[a].data[k], DiskAt(t, m).data[k];
    var mem := t.disks[a].index[k][i];
    assert g[..|f|] == f;
    assert g[mem.start..mem.end] == g[..|f|][mem.start..mem.end];
  }

  lemma {:induction false} TilesWithin(ix: Index, from: nat, i: nat)
    requires Tiles(ix, from) && i < |ix|
    ensures from <= ix[i].start < ix[i].end <= EndOf(ix, from)
    decreases ix
  {
    TilesEnd(ix[1..], ix[0].end);
    if i > 0 { TilesWithin(ix[1..], ix[0].end, i - 1); }
  }

  // ---------- compaction ----------

  /** One group of old members re-read and decoded; the counts must be those of the index. */
  function PieceFrom(z: Codec, g: Index, slice: Bytes): Option<Piece>
    requires g != []
  {
    var text := z.unzip(slice);
    if text.Some? && |text.value| == Weigh(g, MemberSize) && CountLF(text.value) == LinesOf(g)
    then Some(Piece(text.value, LinesOf(g), LeastTime(g), GreatestTime(g), UnknownsOf(g))) else None
  }

  const MemberSize := (m: Member) => m.bytes

  function LeastTime(g: Index): int
    requires g != []
  {
    if |g| == 1 then g[0].minTime
    else var t := LeastTime(g[1..]); if g[0].minTime <= t then g[0].minTime else t
  }

  function GreatestTime(g: Index): int
    requires g != []
  {
    if |g| == 1 then g[0].maxTime
    else var t := GreatestTime(g[1..]); if g[0].maxTime >= t then g[0].maxTime else t
  }

  function UnknownsOf(g: Index): nat {
    if g == [] then 0 else g[0].unknown + UnknownsOf(g[1..])
  }

  predicate NoneEmpty(groups: seq<Index>) { forall i :: 0 <= i < |groups| ==> groups[i] != [] }

  /** The whole rebuild, or None as soon as a group does not check out. */
  function Rebuild(z: Codec, groups: seq<Index>, slices: seq<Bytes>): Option<seq<Piece>>
    requires NoneEmpty(groups) && |slices| == |groups|
    decreases groups
  {
    if groups == [] then Some([])
    else
      var p := PieceFrom(z, groups[0], slices[0]);
      assert NoneEmpty(groups[1..]) by { assert forall i :: 0 <= i < |groups[1..]| ==> groups[1..][i] == groups[i + 1]; }
      var rest := Rebuild(z, groups[1..], slices[1..]);
      if p.None? || rest.None? then None else Some([p.value] + rest.value)
  }

  lemma {:induction false} TilesSplit(a: Index, b: Index, from: nat)
    requires Tiles(a + b, from)
    ensures Tiles(a, from) && Tiles(b, EndOf(a, from)) && EndOf(a + b, from) == EndOf(b, EndOf(a, from))
  {
    TilesPrefix(a, a + b, from);
    assert (a + b)[|a|..] == b;
  }

  lemma DecodesSplit(z: Codec, content: Bytes, a: Index, b: Index)
    requires Decodes(z, content, a + b)
    ensures Decodes(z, content, a) && Decodes(z, content, b)
  {
    assert forall i :: 0 <= i < |a| ==> a[i] == (a + b)[i];
    assert forall i :: 0 <= i < |b| ==> b[i] == (a + b)[|a| + i];
  }

  /** A run of neighbouring members decodes in one go to their texts joined. */
  lemma {:induction false} GroupText(z: Codec, content: Bytes, g: Index, from: nat)
    requires Sound(z) && g != [] && Tiles(g, from) && Decodes(z, content, g)
    ensures from < EndOf(g, from) <= |content|
    ensures z.unzip(content[from..EndOf(g, from)]) == Some(TextOf(z, content, g))
    ensures |TextOf(z, content, g)| == Weigh(g, MemberSize) && CountLF(TextOf(z, content, g)) == LinesOf(g)
    ensures LinesOf(g) > 0 && Weigh(g, MemberSize) > 0
    decreases g
  {
    var m, rest := g[0], g[1..];
    assert g == [m] + rest;
    DecodesSplit(z, content, [m], rest);
    assert MemberDecodes(z, content, m);
    var head := content[m.start..m.end];
    if rest == [] {
      assert TextOf(z, content, g) == z.unzip(head).value + [] == z.unzip(head).value;
      assert content[from..EndOf(g, from)] == head;
    } else {
      GroupText(z, content, rest, m.end);
      var tail := content[m.end..EndOf(rest, m.end)];
      assert content[from..EndOf(g, from)] == head + tail;
      assert z.unzip(head + tail) == Some(z.unzip(head).value + TextOf(z, content, rest));
      CountLFConcat(z.unzip(head).value, TextOf(z, content, rest));
    }
  }

  predicate SlicesOf(content: Bytes, groups: seq<Index>, slices: seq<Bytes>) {
    |slices| == |groups| && forall i :: 0 <= i < |groups| ==> SliceOf(content, groups[i], slices[i])
  }

  predicate SliceOf(content: Bytes, g: Index, slice: Bytes) {
    g != [] && g[0].start <= EndOf(g, 0) <= |content| && slice == content[g[0].start..EndOf(g, 0)]
  }

  /** Re-reading the right bytes rebuilds the same text, whatever the grouping. */
  lemma {:induction false} RebuildExact(z: Codec, content: Bytes, groups: seq<Index>, slices: seq<Bytes>, from: nat)
    requires Sound(z) && NoneEmpty(groups) && SlicesOf(content, groups, slices)
    requires Tiles(Join(groups), from) && Decodes(z, content, Join(groups))
    ensures var r := Rebuild(z, groups, slices);
      r.Some? && (forall i :: 0 <= i < |r.value| ==> Whole(r.value[i])) && PieceText(r.value) == TextOf(z, content, Join(groups))
    decreases groups
  {
    hide LeastTime, Sound, CountLF, Tiles, LinesOf, MemberDecodes, Decodes, Weigh;
    if groups != [] {
      var g, rest := groups[0], Join(groups[1..]);
      TilesSplit(g, rest, from);
      DecodesSplit(z, content, g, rest);
      GroupText(z, content, g, from);
      assert SliceOf(content, g, slices[0]) && EndOf(g, 0) == EndOf(g, from) && g[0].start == from;
      forall i | 0 <= i < |groups[1..]| ensures SliceOf(content, groups[1..][i], slices[1..][i]) && groups[1..][i] != [] {
        assert SliceOf(content, groups[i + 1], slices[i + 1]);
      }
      RebuildExact(z, content, groups[1..], slices[1..], EndOf(g, from));
      TextConcat(z, content, g, rest);
      var r := Rebuild(z, groups, slices);
      var p := PieceFrom(z, g, slices[0]).value;
      assert r.value == [p] + Rebuild(z, groups[1..], slices[1..]).value;
      assert Whole(p);
    }
  }

  function CompactGroups(ix: Index, cap: nat): seq<Index> { Pack(ix, MemberSize, [], 0, cap) }

  /** The entry a compaction publishes. */
  function CompactEntry(z: Codec, before: Entry, pieces: seq<Piece>, fileId: nat): Entry {
    before.(fileId := fileId, size := |Packed(z, 6, pieces)|, compacted := true)
  }

  /** Its journal entry on the archive `d`. */
  function CompactTx(z: Codec, d: Disk, k: Key, before: Entry, index: Index, pieces: seq<Piece>,
                     fileId: nat, txn: nat, temp: nat, backup: nat): Pending
    requires d.catalog.Some? && d.checkpoint.Some?
  {
    var cp, cat := d.checkpoint.value, d.catalog.value;
    var after := CompactEntry(z, before, pieces, fileId);
    var c := Change(k, Some(before), index, after, PieceIndex(z, 6, pieces, 0), [temp, backup], Some(backup));
    Publish(true, cp.txn, txn, cp, cp.(txn := txn), cat, Catalog(txn, cat.hours[k := after]), [c])
  }

  /** compactHour as a run sees it: the hour chosen at `a`, each group of its members read at
      its own moment, the publication guard passed at `b`. */
  ghost predicate Compaction(z: Codec, t: Trace, a: nat, b: nat, k: Key, moments: seq<Moment>, slices: seq<Bytes>, cap: nat) {
    TraceOk(z, t) && Reread(t, a, b, k, moments, slices, cap)
  }

  ghost predicate Reread(t: Trace, a: nat, b: nat, k: Key, moments: seq<Moment>, slices: seq<Bytes>, cap: nat) {
    && |t.disks| == |t.events| + 1 && a <= b < |t.disks|
    && HourEntry(t.disks[a], k).Some? && k in t.disks[a].index
    && |moments| == |slices| == |CompactGroups(t.disks[a].index[k], cap)|
    && NoneEmpty(CompactGroups(t.disks[a].index[k], cap))
    && (forall i :: 0 <= i < |moments| ==>
         Between(t, a, moments[i], b) && ReadAt(t, moments[i], k, CompactGroups(t.disks[a].index[k], cap)[i], slices[i]))
    && HourEntry(t.disks[b], k).Some?
    && HourEntry(t.disks[b], k).value.fileId == HourEntry(t.disks[a], k).value.fileId
    && HourEntry(t.disks[b], k).value.size == HourEntry(t.disks[a], k).value.size
  }

  ghost predicate ReadAt(t: Trace, m: Moment, k: Key, g: Index, slice: Bytes)
    requires |t.disks| == |t.events| + 1 && m.at < |t.disks|
  {
    && (m.During? ==> m.at < |t.events| && t.events[m.at].Finished? && Shaped(t.events[m.at].p, t.events[m.at].blobs))
    && g != [] && g[0].start <= EndOf(g, 0) && ReadRange(DiskAt(t, m), k, g[0].start, EndOf(g, 0)) == Some(slice)
  }

  lemma GroupSlice(z: Codec, t: Trace, a: nat, b: nat, k: Key, moments: seq<Moment>, slices: seq<Bytes>, cap: nat, i: nat)
    requires Compaction(z, t, a, b, k, moments, slices, cap) && i < |slices|
    requires k in t.disks[a].data && EndOf(CompactGroups(t.disks[a].index[k], cap)[i], 0) <= |t.disks[a].data[k]|
    ensures SliceOf(t.disks[a].data[k], CompactGroups(t.disks[a].index[k], cap)[i], slices[i])
  {
    hide DiskAt, CompactGroups, Splice, Apply, Torn, Run, EndOf, Opens, Valid, Staged, ChangesOps, StageOps, Discard, DeleteOps, Finish, CompactShape, Shaped, Prologue, Body, TxOps, Pack, PackOpen, Lookup, After, EventOk, UsedAfter, TraceOk, StepOk, HourEntry, SameId;
    var g := CompactGroups(t.disks[a].index[k], cap)[i];
    SnapshotIsolation(z, t, a, moments[i], b, k);
    assert ReadAt(t, moments[i], k, g, slices[i]);
    var f, now := t.disks[a].data[k], DiskAt(t, moments[i]).data[k];
    assert now[..|f|] == f;
    assert now[g[0].start..EndOf(g, 0)] == now[..|f|][g[0].start..EndOf(g, 0)];
  }

  lemma {:induction false} GroupEnds(groups: seq<Index>, from: nat, i: nat)
    requires NoneEmpty(groups) && Tiles(Join(groups), from) && i < |groups|
    ensures EndOf(groups[i], 0) <= EndOf(Join(groups), from)
    decreases groups
  {
    TilesSplit(groups[0], Join(groups[1..]), from);
    TilesEnd(Join(groups[1..]), EndOf(groups[0], from));
    if i > 0 {
      assert forall j :: 0 <= j < |groups[1..]| ==> groups[1..][j] == groups[j + 1];
      GroupEnds(groups[1..], EndOf(groups[0], from), i - 1);
    }
  }

  /** If the guard passes, the rebuild succeeded and holds the text the hour has now, although
      the hour may have been appended to, deleted or recreated while it was being read. */
  lemma CompactionRebuilds(z: Codec, t: Trace, a: nat, b: nat, k: Key, moments: seq<Moment>, slices: seq<Bytes>, cap: nat)
    requires Sound(z) && Compaction(z, t, a, b, k, moments, slices, cap)
    requires Decodes(z, if k in t.disks[a].data then t.disks[a].data[k] else [], t.disks[a].index[k])
    ensures k in t.disks[a].data && k in t.disks[b].data && k in t.disks[b].index
    ensures t.disks[b].data[k] == t.disks[a].data[k] && t.disks[b].index[k] == t.disks[a].index[k]
    ensures HourEntry(t.disks[b], k) == HourEntry(t.disks[a], k)
    ensures Decodes(z, t.disks[b].data[k], t.disks[b].index[k])
    ensures SlicesOf(t.disks[b].data[k], CompactGroups(t.disks[b].index[k], cap), slices) && Tiles(t.disks[b].index[k], 0)
    ensures var r := Rebuild(z, CompactGroups(t.disks[a].index[k], cap), slices);
      r.Some? && (forall i :: 0 <= i < |r.value| ==> Whole(r.value[i]))
      && PieceText(r.value) == TextOf(z, t.disks[b].data[k], t.disks[b].index[k])
  {
    FileIdDeterminesContents(z, t, a, b, k);
    var content, ix := t.disks[a].data[k], t.disks[a].index[k];
    assert HourOk(t.disks[a], k, HourEntry(t.disks[a], k).value);
    var groups := CompactGroups(ix, cap);
    PackExact(ix, MemberSize, [], cap);
    assert Join(groups) == [] + ix == ix;
    forall i | 0 <= i < |groups| ensures SliceOf(content, groups[i], slices[i]) {
      GroupEnds(groups, 0, i);
      GroupSlice(z, t, a, b, k, moments, slices, cap, i);
    }
    RebuildExact(z, content, groups, slices, 0);
  }

  predicate CompactReady(z: Codec, d: Disk, k: Key, pieces: seq<Piece>, temp: nat) {
    && Valid(d) && k in d.catalog.value.hours && k in d.data && k in d.index
    && Decodes(z, d.data[k], d.index[k])
    && (forall i :: 0 <= i < |pieces| ==> Whole(pieces[i])) && PieceText(pieces) == TextOf(z, d.data[k], d.index[k])
    && temp in d.staging && d.staging[temp] == Packed(z, 6, pieces)
  }

  /** So its publication is a transaction crash atomicity covers, */
  lemma CompactionTxOk(z: Codec, d: Disk, k: Key, pieces: seq<Piece>, fileId: nat, txn: nat, temp: nat, backup: nat)
    requires Sound(z) && CompactReady(z, d, k, pieces, temp) && temp != backup && txn != d.checkpoint.value.txn
    ensures TxOk(z, d, CompactTx(z, d, k, d.catalog.value.hours[k], d.index[k], pieces, fileId, txn, temp, backup),
                 map[temp := Packed(z, 6, pieces)])
    ensures Decodes(z, Packed(z, 6, pieces), PieceIndex(z, 6, pieces, 0))
    ensures TextOf(z, Packed(z, 6, pieces), PieceIndex(z, 6, pieces, 0)) == TextOf(z, d.data[k], d.index[k])
  {
    hide Sound, CountLF, Tiles, EndOf, LinesOf, MemberDecodes, Decodes, Staged, Packed, MemberAt, PieceIndex, PieceText, Whole, TextOf;
    var before, ix := d.catalog.value.hours[k], d.index[k];
    assert HourOk(d, k, before);
    PiecesDecode(z, 6, [], pieces, []);
    PieceTiles(z, 6, pieces, 0);
    TextLines(z, d.data[k], ix);
    var blob, ix' := Packed(z, 6, pieces), PieceIndex(z, 6, pieces, 0);
    assert [] + blob + [] == blob;
    var p := CompactTx(z, d, k, before, ix, pieces, fileId, txn, temp, backup);
    assert p.changes == [p.changes[0]];
    assert ix'[0..] == ix';
    assert ChangeOk(z, d, p.changes[0], true, map[temp := blob]);
    assert NewHours(d.catalog.value.hours, p.changes) == d.catalog.value.hours[k := p.changes[0].after];
  }

  /** and it changes no line of any hour: a crash inside it leaves one encoding or the other of
      the same text. */
  lemma CompactionFaithful(z: Codec, d: Disk, k: Key, pieces: seq<Piece>, fileId: nat, txn: nat, temp: nat, backup: nat, after: Disk)
    requires Sound(z) && CompactReady(z, d, k, pieces, temp) && temp != backup && txn != d.checkpoint.value.txn
    requires var p := CompactTx(z, d, k, d.catalog.value.hours[k], d.index[k], pieces, fileId, txn, temp, backup);
      Shaped(p, map[temp := Packed(z, 6, pieces)]) && Visible(after) == AfterView(d, p, map[temp := Packed(z, 6, pieces)])
    ensures k in after.data && k in after.index && Decodes(z, after.data[k], after.index[k])
    ensures TextOf(z, after.data[k], after.index[k]) == TextOf(z, d.data[k], d.index[k])
    ensures after.data == d.data[k := after.data[k]] && after.index == d.index[k := after.index[k]]
    ensures after.checkpoint.Some? && after.checkpoint.value.generations == d.checkpoint.value.generations
    ensures HourEntry(after, k).Some? && HourEntry(after, k).value.lineCount == d.catalog.value.hours[k].lineCount
  {
    CompactionTxOk(z, d, k, pieces, fileId, txn, temp, backup);
    var p := CompactTx(z, d, k, d.catalog.value.hours[k], d.index[k], pieces, fileId, txn, temp, backup);
    var blobs := map[temp := Packed(z, 6, pieces)];
    assert p.changes == [p.changes[0]];
    assert NewData(d.data, p.changes, true, blobs) == d.data[k := Packed(z, 6, pieces)];
    assert NewIndex(d.index, p.changes) == d.index[k := PieceIndex(z, 6, pieces, 0)];
  }

  lemma {:induction false} TextLines(z: Codec, content: Bytes, ix: Index)
    requires Decodes(z, content, ix)
    ensures CountLF(TextOf(z, content, ix)) == LinesOf(ix)
    decreases ix
  {
    if ix != [] {
      assert ix == [ix[0]] + ix[1..];
      DecodesSplit(z, content, [ix[0]], ix[1..]);
      assert MemberDecodes(z, content, ix[0]);
      CountLFConcat(z.unzip(content[ix[0].start..ix[0].end]).value, TextOf(z, content, ix[1..]));
      TextLines(z, content, ix[1..]);
    }
  }
}
