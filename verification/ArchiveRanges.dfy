/** The time ranges and counts that index files and the catalog publish, and that they are right. */
module ArchiveRanges {
  import opened Options
  import opened ArchiveTypes
  import opened ArchiveDisk
  import opened ArchiveJournal
  import opened ArchiveCrash
  import opened ArchiveStaging
  import opened ArchiveCommit
  import opened ArchiveHistory
  import opened ArchiveReaders

  /** What the text of a line of a source says about its own time. */
  type Clock = (string, Bytes) -> Option<int>

  /** The lines without a time of their own. */
  function Undated(clock: Clock, source: string, lines: seq<Bytes>): nat {
    if lines == [] then 0 else (if clock(source, lines[0]).None? then 1 else 0) + Undated(clock, source, lines[1..])
  }

  predicate Within(t: Option<int>, lo: int, hi: int) { t.Some? ==> lo <= t.value <= hi }

  predicate AllWithin(clock: Clock, source: string, lines: seq<Bytes>, lo: int, hi: int) {
    forall i {:trigger lines[i]} :: 0 <= i < |lines| ==> Within(clock(source, lines[i]), lo, hi)
  }

  predicate AllShort(lines: seq<Bytes>) { forall i {:trigger lines[i]} :: 0 <= i < |lines| ==> |lines[i]| <= MAX_LINE }

  const MAX_LINE := 1048576

  /** One of the lines is dated `t`. */
  predicate Shows(clock: Clock, source: string, lines: seq<Bytes>, t: int) {
    exists i {:trigger lines[i]} :: 0 <= i < |lines| && clock(source, lines[i]) == Some(t)
  }

  /** A text of whole lines, none oversized, whose dated lines lie in the range and whose undated
      ones are counted; if there are none, the range is no wider than the lines. */
  predicate TextRanged(clock: Clock, source: string, text: Bytes, lo: int, hi: int, unknown: nat) {
    var lines := Split(text);
    && Flatten(lines) == text && lines != [] && AllShort(lines) && AllWithin(clock, source, lines, lo, hi)
    && Undated(clock, source, lines) == unknown
    && (unknown == 0 ==> Shows(clock, source, lines, lo) && Shows(clock, source, lines, hi))
  }

  function MemberText(z: Codec, content: Bytes, m: Member): Bytes
    requires MemberDecodes(z, content, m)
  {
    z.unzip(content[m.start..m.end]).value
  }

  predicate MemberRanged(z: Codec, clock: Clock, source: string, content: Bytes, m: Member)
    requires MemberDecodes(z, content, m)
  {
    TextRanged(clock, source, MemberText(z, content, m), m.minTime, m.maxTime, m.unknown)
  }

  predicate MembersRanged(z: Codec, clock: Clock, source: string, content: Bytes, ix: Index)
    requires Decodes(z, content, ix)
  {
    forall i {:trigger ix[i]} :: 0 <= i < |ix| ==> MemberRanged(z, clock, source, content, ix[i])
  }

  /** The entry sums up its index: no wider and no narrower than the members together. */
  predicate Summed(ix: Index, e: Entry) {
    ix != [] && e.minTime == LeastTime(ix) && e.maxTime == GreatestTime(ix) && e.unknown == UnknownsOf(ix)
  }

  predicate FileRanged(z: Codec, clock: Clock, source: string, content: Bytes, ix: Index, e: Entry)
    requires Decodes(z, content, ix)
  {
    Summed(ix, e) && MembersRanged(z, clock, source, content, ix)
  }

  /** The times of an hour's entry lie in the hour. */
  predicate InHour(k: Key, e: Entry) { k.hour * HOUR <= e.minTime && e.maxTime < (k.hour + 1) * HOUR }

  predicate HourRanged(z: Codec, clock: Clock, d: Disk, k: Key)
    requires Readable(z, d) && HourEntry(d, k).Some?
  {
    && k in d.data && k in d.index && FileRanged(z, clock, k.source, d.data[k], d.index[k], HourEntry(d, k).value)
    && InHour(k, HourEntry(d, k).value)
  }

  /** Every published range and count is right. */
  ghost predicate Ranged(z: Codec, clock: Clock, d: Disk)
    requires Readable(z, d)
  {
    forall k {:trigger HourEntry(d, k)} :: HourEntry(d, k).Some? ==> HourRanged(z, clock, d, k)
  }

  // ---------- records ----------

  /** What the collector hands over: whole lines within the limit, dated as their text says. */
  predicate Timely(clock: Clock, records: seq<Record>) {
    forall i {:trigger records[i]} :: 0 <= i < |records| ==>
      IsLine(records[i].raw) && |records[i].raw| <= MAX_LINE && records[i].eventTime == clock(records[i].source, records[i].raw)
  }

  predicate Of(records: seq<Record>, source: string) { forall i {:trigger records[i]} :: 0 <= i < |records| ==> records[i].source == source }

  lemma {:induction false} LeastBounds(records: seq<Record>)
    requires records != []
    ensures forall i {:trigger records[i]} :: 0 <= i < |records| ==> Least(records) <= TimeOf(records[i]) <= Greatest(records)
    ensures exists i :: 0 <= i < |records| && TimeOf(records[i]) == Least(records)
    ensures exists i :: 0 <= i < |records| && TimeOf(records[i]) == Greatest(records)
  {
    if |records| > 1 {
      var rest := records[1..];
      LeastBounds(rest);
      var i :| 0 <= i < |rest| && TimeOf(rest[i]) == Least(rest);
      var j :| 0 <= j < |rest| && TimeOf(rest[j]) == Greatest(rest);
      assert rest[i] == records[i + 1] && rest[j] == records[j + 1];
      forall n | 0 <= n < |records| ensures Least(records) <= TimeOf(records[n]) <= Greatest(records) {
        if n > 0 { assert records[n] == rest[n - 1]; }
      }
    }
  }

  lemma {:induction false} UnknownsUndated(clock: Clock, source: string, records: seq<Record>)
    requires Timely(clock, records) && Of(records, source)
    ensures Undated(clock, source, Raws(records)) == Unknowns(records)
  {
    if records != [] {
      assert Raws(records)[1..] == Raws(records[1..]);
      UnknownsUndated(clock, source, records[1..]);
    }
  }

  predicate PieceRanged(clock: Clock, source: string, p: Piece) {
    TextRanged(clock, source, p.text, p.minTime, p.maxTime, p.unknown)
  }

  predicate PiecesRanged(clock: Clock, source: string, pieces: seq<Piece>) {
    forall i {:trigger pieces[i]} :: 0 <= i < |pieces| ==> PieceRanged(clock, source, pieces[i])
  }

  /** The range staged with a batch is the tightest one that holds its lines. */
  lemma BatchRanged(clock: Clock, source: string, batch: seq<Record>)
    requires batch != [] && Timely(clock, batch) && Of(batch, source)
    ensures PieceRanged(clock, source, PieceOf(batch))
    ensures exists i :: 0 <= i < |batch| && TimeOf(batch[i]) == PieceOf(batch).minTime
    ensures exists i :: 0 <= i < |batch| && TimeOf(batch[i]) == PieceOf(batch).maxTime
  {
    hide Flatten, Least, Greatest;
    var lines := Raws(batch);
    LeastBounds(batch);
    UnknownsUndated(clock, source, batch);
    assert Split(Flatten(lines)) == lines by {
      SplitLines(lines, []);
      assert Flatten(lines) + [] == Flatten(lines) && Split([]) == [] && lines + [] == lines;
    }
    forall i | 0 <= i < |lines| ensures Within(clock(source, lines[i]), Least(batch), Greatest(batch)) && |lines[i]| <= MAX_LINE {
      assert lines[i] == batch[i].raw;
    }
    if Unknowns(batch) == 0 {
      BatchShows(clock, source, batch, Least(batch));
      BatchShows(clock, source, batch, Greatest(batch));
    }
  }

  lemma {:induction false} AllDated(clock: Clock, source: string, lines: seq<Bytes>)
    requires Undated(clock, source, lines) == 0
    ensures forall i {:trigger lines[i]} :: 0 <= i < |lines| ==> clock(source, lines[i]).Some?
  {
    if lines != [] {
      AllDated(clock, source, lines[1..]);
      forall i | 0 <= i < |lines| ensures clock(source, lines[i]).Some? {
        if i > 0 { assert lines[i] == lines[1..][i - 1]; }
      }
    }
  }

  lemma BatchShows(clock: Clock, source: string, batch: seq<Record>, t: int)
    requires Timely(clock, batch) && Of(batch, source) && Unknowns(batch) == 0
    requires exists i :: 0 <= i < |batch| && TimeOf(batch[i]) == t
    ensures Shows(clock, source, Raws(batch), t)
  {
    hide Unknowns;
    var i :| 0 <= i < |batch| && TimeOf(batch[i]) == t;
    UnknownsUndated(clock, source, batch);
    AllDated(clock, source, Raws(batch));
    assert Raws(batch)[i] == batch[i].raw;
  }

  lemma StagedRanged(clock: Clock, source: string, records: seq<Record>, cap: nat)
    requires Timely(clock, records) && Of(records, source)
    ensures PiecesRanged(clock, source, StagedPieces(records, cap)) && (records != [] ==> StagedPieces(records, cap) != [])
  {
    hide PieceRanged, Pack;
    PackExact(records, LineSize, [], cap);
    var groups := Pack(records, LineSize, [], 0, cap);
    assert [] + records == records;
    forall i | 0 <= i < |groups| ensures PieceRanged(clock, source, StagedPieces(records, cap)[i]) {
      forall j | 0 <= j < |groups[i]| ensures groups[i][j] in records { JoinParts(groups, i, j); }
      BatchRanged(clock, source, groups[i]);
    }
  }

  // ---------- sums over members ----------

  function Lower(a: int, b: int): int { if a <= b then a else b }
  function Higher(a: int, b: int): int { if a >= b then a else b }

  lemma {:induction false} SumsConcat(a: Index, b: Index)
    requires a != [] && b != []
    ensures LeastTime(a + b) == Lower(LeastTime(a), LeastTime(b)) && GreatestTime(a + b) == Higher(GreatestTime(a), GreatestTime(b))
    ensures UnknownsOf(a + b) == UnknownsOf(a) + UnknownsOf(b)
  {
    assert (a + b)[1..] == a[1..] + b;
    if |a| > 1 {
      SumsConcat(a[1..], b);
    } else {
      assert a[1..] == [] && a[1..] + b == b;
    }
  }

  /** An entry that sums up its index, or the entry of an hour that has no member yet. */
  predicate Counting(ix: Index, e: Entry) {
    if ix == [] then e.lineCount == 0 && e.unknown == 0 else Summed(ix, e) && e.lineCount > 0
  }

  function GrowOne(z: Codec, level: nat, e: Entry, p: Piece): Entry {
    e.(size := e.size + |z.zip(level, p.text)|, lineCount := e.lineCount + p.lines, unknown := e.unknown + p.unknown,
       minTime := if e.lineCount == 0 || p.minTime < e.minTime then p.minTime else e.minTime,
       maxTime := if e.lineCount == 0 || p.maxTime > e.maxTime then p.maxTime else e.maxTime)
  }

  lemma CountingOne(z: Codec, level: nat, ix: Index, e: Entry, p: Piece)
    requires Counting(ix, e) && 0 < p.lines
    ensures Counting(ix + [MemberAt(z, level, p, e.size)], GrowOne(z, level, e, p))
  {
    var m := MemberAt(z, level, p, e.size);
    assert UnknownsOf([m]) == m.unknown by { assert [m][1..] == []; }
    if ix == [] {
      assert ix + [m] == [m];
    } else {
      SumsConcat(ix, [m]);
    }
  }

  lemma {:induction false} GrowSummed(z: Codec, level: nat, ix: Index, e: Entry, pieces: seq<Piece>)
    requires Counting(ix, e) && forall i :: 0 <= i < |pieces| ==> Whole(pieces[i])
    ensures Counting(ix + PieceIndex(z, level, pieces, e.size), Grow(z, level, e, pieces))
    decreases pieces
  {
    hide Counting;
    if pieces == [] {
      assert ix + [] == ix;
    } else {
      var p, m := pieces[0], MemberAt(z, level, pieces[0], e.size);
      assert Whole(p);
      CountingOne(z, level, ix, e, p);
      GrowSummed(z, level, ix + [m], GrowOne(z, level, e, p), pieces[1..]);
      assert ix + [m] + PieceIndex(z, level, pieces[1..], m.end) == ix + ([m] + PieceIndex(z, level, pieces[1..], m.end));
    }
  }

  // ---------- appending ----------

  lemma {:induction false} PiecesMembers(z: Codec, clock: Clock, source: string, level: nat, pre: Bytes, pieces: seq<Piece>, post: Bytes)
    requires Sound(z) && PiecesRanged(clock, source, pieces) && forall i :: 0 <= i < |pieces| ==> Whole(pieces[i])
    ensures Decodes(z, pre + Packed(z, level, pieces) + post, PieceIndex(z, level, pieces, |pre|))
    ensures MembersRanged(z, clock, source, pre + Packed(z, level, pieces) + post, PieceIndex(z, level, pieces, |pre|))
    decreases pieces
  {
    hide TextRanged;
    PiecesDecode(z, level, pre, pieces, post);
    if pieces != [] {
      var p, rest := pieces[0], pieces[1..];
      var blob, m := z.zip(level, p.text), MemberAt(z, level, p, |pre|);
      var content, ix := pre + Packed(z, level, pieces) + post, PieceIndex(z, level, pieces, |pre|);
      assert PieceRanged(clock, source, p) && Whole(p);
      PiecesMembers(z, clock, source, level, pre + blob, rest, post);
      assert content == (pre + blob) + Packed(z, level, rest) + post;
      assert content[m.start..m.end] == blob;
      forall i | 0 <= i < |ix| ensures MemberRanged(z, clock, source, content, ix[i]) {
        if i > 0 { assert ix[i] == PieceIndex(z, level, rest, m.end)[i - 1]; }
      }
    }
  }

  lemma MembersConcat(z: Codec, clock: Clock, source: string, content: Bytes, a: Index, b: Index)
    requires Decodes(z, content, a) && Decodes(z, content, b)
    requires MembersRanged(z, clock, source, content, a) && MembersRanged(z, clock, source, content, b)
    ensures Decodes(z, content, a + b) && MembersRanged(z, clock, source, content, a + b)
  {
    hide MemberDecodes, MemberRanged;
    forall i | 0 <= i < |a + b|
      ensures MemberDecodes(z, content, (a + b)[i]) && MemberRanged(z, clock, source, content, (a + b)[i])
    {
      if i < |a| { assert (a + b)[i] == a[i]; } else { assert (a + b)[i] == b[i - |a|]; }
    }
  }

  lemma MembersExtend(z: Codec, clock: Clock, source: string, content: Bytes, more: Bytes, ix: Index)
    requires Decodes(z, content, ix) && MembersRanged(z, clock, source, content, ix)
    ensures Decodes(z, content + more, ix) && MembersRanged(z, clock, source, content + more, ix)
  {
    hide TextRanged;
    forall i | 0 <= i < |ix| ensures MemberDecodes(z, content + more, ix[i]) && MemberRanged(z, clock, source, content + more, ix[i]) {
      assert MemberDecodes(z, content, ix[i]);
      assert (content + more)[ix[i].start..ix[i].end] == content[ix[i].start..ix[i].end];
    }
  }

  /** Appending staged pieces keeps ranges and counts right. */
  lemma AppendRanged(z: Codec, clock: Clock, source: string, was: Bytes, ix: Index, e: Entry, pieces: seq<Piece>)
    requires Sound(z) && IndexOk(ix, e) && |was| == e.size && Decodes(z, was, ix) && MembersRanged(z, clock, source, was, ix)
    requires Counting(ix, e) && pieces != []
    requires PiecesRanged(clock, source, pieces) && forall i :: 0 <= i < |pieces| ==> Whole(pieces[i])
    ensures var content, ix' := was + Packed(z, 1, pieces), ix + PieceIndex(z, 1, pieces, e.size);
      Decodes(z, content, ix') && FileRanged(z, clock, source, content, ix', Grow(z, 1, e, pieces))
  {
    hide MembersRanged, Decodes, Counting;
    var content, ixs := was + Packed(z, 1, pieces), PieceIndex(z, 1, pieces, e.size);
    PiecesMembers(z, clock, source, 1, was, pieces, []);
    assert content + [] == content;
    MembersExtend(z, clock, source, was, Packed(z, 1, pieces), ix);
    MembersConcat(z, clock, source, content, ix, ixs);
    GrowSummed(z, 1, ix, e, pieces);
    CountingSome(ix + ixs, Grow(z, 1, e, pieces));
  }

  lemma CountingSome(ix: Index, e: Entry)
    requires Counting(ix, e) && ix != []
    ensures Summed(ix, e)
  {}

  lemma {:induction false} OfHour(clock: Clock, records: seq<Record>, k: Key)
    requires Timely(clock, records)
    ensures Timely(clock, RecordsOf(records, k)) && Of(RecordsOf(records, k), k.source)
  {
    if records != [] {
      assert forall i :: 0 <= i < |records[1..]| ==> records[1..][i] == records[i + 1];
      OfHour(clock, records[1..], k);
      var rest := RecordsOf(records[1..], k);
      assert KeyOf(records[0]) == k ==> RecordsOf(records, k) == [records[0]] + rest;
    }
  }

  lemma TimelyLines(clock: Clock, records: seq<Record>)
    requires Timely(clock, records)
    ensures LineRecords(records)
  {}

  /** The change a commit makes to one hour. */
  lemma ChangeRanged(z: Codec, clock: Clock, d: Disk, records: seq<Record>, cap: nat, fileId: nat, name: nat, i: nat)
    requires Sound(z) && Valid(d) && Readable(z, d) && Ranged(z, clock, d) && Timely(clock, records) && i < |HoursOf(records)|
    ensures var b := CommitBatch(z, d, records, cap, fileId, name);
      && i < |b.changes| && b.changes[i].key == HoursOf(records)[i] && Staged(b.changes, b.blobs)
      && Decodes(z, NewContent(d.data, b.changes[i], false, b.blobs), b.changes[i].afterIndex)
      && FileRanged(z, clock, b.changes[i].key.source, NewContent(d.data, b.changes[i], false, b.blobs), b.changes[i].afterIndex, b.changes[i].after)
      && InHour(b.changes[i].key, b.changes[i].after)
  {
    hide InHour, PiecesIn, Ranged, FileRanged, Decodes, MembersRanged, CommitBatch, Grow, PieceIndex, Packed, Pack, Summed;
    var hours, keys := d.catalog.value.hours, HoursOf(records);
    var b := CommitBatch(z, d, records, cap, fileId, name);
    var k := keys[i];
    TimelyLines(clock, records);
    CommitTxOk(z, d, records, map[], d.checkpoint.value.txn + 1, cap, fileId, name);
    BatchOf(z, d, records, cap, fileId, name, i);
    var c, mine := b.changes[i], RecordsOf(records, k);
    var pieces := StagedPieces(mine, cap);
    OfHour(clock, records, k);
    HoursOfExact(records);
    StagedRanged(clock, k.source, mine, cap);
    StagedIn(records, k, cap);
    TimelyLines(clock, mine);
    StagedPiecesText(mine, cap);
    FlatBlobs(z, 1, pieces, FirstName(c), b.blobs);
    assert (k in d.data.Keys <==> k in hours.Keys) && (k in d.index.Keys <==> k in hours.Keys);
    if k in hours {
      HourCounting(z, clock, d, k);
      HourIn(z, clock, d, k);
      GrowIn(z, k, hours[k], pieces);
      AppendRanged(z, clock, k.source, d.data[k], d.index[k], hours[k], pieces);
    } else {
      GrowIn(z, k, Entry(c.after.fileId, 0, 0, 0, 0, 0, false), pieces);
      NoMembers(z, clock, k.source, c.after.fileId);
      AppendRanged(z, clock, k.source, [], [], Entry(c.after.fileId, 0, 0, 0, 0, 0, false), pieces);
    }
  }

  /** The pieces' times lie in the hour. */
  predicate PiecesIn(k: Key, pieces: seq<Piece>) {
    forall i {:trigger pieces[i]} :: 0 <= i < |pieces| ==>
      0 < pieces[i].lines && k.hour * HOUR <= pieces[i].minTime && pieces[i].maxTime < (k.hour + 1) * HOUR
  }

  lemma {:induction false} RecordsIn(records: seq<Record>, k: Key)
    ensures forall i {:trigger RecordsOf(records, k)[i]} :: 0 <= i < |RecordsOf(records, k)| ==> KeyOf(RecordsOf(records, k)[i]) == k
  {
    if records != [] { RecordsIn(records[1..], k); }
  }

  lemma StagedIn(records: seq<Record>, k: Key, cap: nat)
    ensures PiecesIn(k, StagedPieces(RecordsOf(records, k), cap))
  {
    hide Pack;
    var mine := RecordsOf(records, k);
    RecordsIn(records, k);
    PackExact(mine, LineSize, [], cap);
    var groups := Pack(mine, LineSize, [], 0, cap);
    assert [] + mine == mine;
    forall i | 0 <= i < |groups|
      ensures var p := StagedPieces(mine, cap)[i]; 0 < p.lines && k.hour * HOUR <= p.minTime && p.maxTime < (k.hour + 1) * HOUR
    {
      forall j | 0 <= j < |groups[i]| ensures KeyOf(groups[i][j]) == k {
        JoinParts(groups, i, j);
        var n :| 0 <= n < |mine| && mine[n] == groups[i][j];
        assert KeyOf(RecordsOf(records, k)[n]) == k;
      }
      LeastBounds(groups[i]);
    }
  }

  /** What is appended to an hour keeps its times in it. */
  lemma {:induction false} GrowIn(z: Codec, k: Key, e: Entry, pieces: seq<Piece>)
    requires PiecesIn(k, pieces) && (e.lineCount > 0 ==> InHour(k, e)) && (e.lineCount > 0 || pieces != [])
    ensures InHour(k, Grow(z, 1, e, pieces))
    decreases pieces
  {
    if pieces != [] {
      assert PiecesIn(k, pieces[1..]) by { assert forall i :: 0 <= i < |pieces| - 1 ==> pieces[1..][i] == pieces[i + 1]; }
      GrowIn(z, k, GrowOne(z, 1, e, pieces[0]), pieces[1..]);
    }
  }

  lemma NoMembers(z: Codec, clock: Clock, source: string, fileId: nat)
    ensures Decodes(z, [], []) && MembersRanged(z, clock, source, [], []) && Counting([], Entry(fileId, 0, 0, 0, 0, 0, false))
    ensures IndexOk([], Entry(fileId, 0, 0, 0, 0, 0, false))
  {}

  lemma HourCounting(z: Codec, clock: Clock, d: Disk, k: Key)
    requires Valid(d) && Readable(z, d) && Ranged(z, clock, d) && k in d.catalog.value.hours
    ensures k in d.data && k in d.index && Decodes(z, d.data[k], d.index[k]) && MembersRanged(z, clock, k.source, d.data[k], d.index[k])
    ensures Counting(d.index[k], d.catalog.value.hours[k]) && IndexOk(d.index[k], d.catalog.value.hours[k])
    ensures |d.data[k]| == d.catalog.value.hours[k].size
  {
    hide MembersRanged, Decodes;
    assert HourEntry(d, k).Some?;
    assert HourRanged(z, clock, d, k) && HourOk(d, k, d.catalog.value.hours[k]);
  }

  lemma BatchOf(z: Codec, d: Disk, records: seq<Record>, cap: nat, fileId: nat, name: nat, i: nat)
    requires d.catalog.Some? && i < |HoursOf(records)|
    ensures var b := CommitBatch(z, d, records, cap, fileId, name);
      i < |b.changes| && ChangeOf(z, d.catalog.value.hours, d.index, records, HoursOf(records)[i], cap, b.changes[i], b.blobs)
  {
    hide ChangeOf;
    var b := CommitBatch(z, d, records, cap, fileId, name);
    StageHolds(z, d.catalog.value.hours, d.index, records, HoursOf(records), cap, fileId, name);
    AllOfAt(z, d.catalog.value.hours, d.index, records, HoursOf(records), cap, b.changes, b.blobs, i);
  }

  // ---------- the transactions ----------

  /** A commit keeps every range and count right. */
  lemma CommitRanged(z: Codec, clock: Clock, d: Disk, records: seq<Record>, generations: map<string, Generation>, txn: nat,
                     cap: nat, fileId: nat, name: nat, after: Disk)
    requires Sound(z) && Valid(d) && Readable(z, d) && Ranged(z, clock, d) && Timely(clock, records)
    requires var b := CommitBatch(z, d, records, cap, fileId, name);
      Shaped(CommitTx(d, b.changes, generations, txn), b.blobs) && Visible(after) == AfterView(d, CommitTx(d, b.changes, generations, txn), b.blobs)
    requires txn != d.checkpoint.value.txn && Readable(z, after)
    ensures Ranged(z, clock, after)
  {
    hide FileRanged, Decodes, CommitBatch, HourOk, Ranged;
    var b, keys := CommitBatch(z, d, records, cap, fileId, name), HoursOf(records);
    var cs, hours := b.changes, d.catalog.value.hours;
    StageNames(z, hours, d.index, records, keys, cap, fileId, name);
    StagedCount(z, d, records, cap, fileId, name);
    TimelyLines(clock, records);
    CommitTxOk(z, d, records, generations, txn, cap, fileId, name);
    assert Distinct(cs) && after.data == NewData(d.data, cs, false, b.blobs) && after.index == NewIndex(d.index, cs);
    forall k | HourEntry(after, k).Some? ensures HourRanged(z, clock, after, k) {
      if Touches(cs, k) {
        var i :| 0 <= i < |cs| && cs[i].key == k;
        ChangeRanged(z, clock, d, records, cap, fileId, name, i);
        NewHere(d.data, d.index, hours, cs, false, b.blobs, i);
      } else {
        NewElsewhere(d.data, d.index, hours, cs, false, b.blobs, k);
        HourIn(z, clock, d, k);
      }
    }
    RangedFrom(z, clock, after);
  }

  lemma StagedCount(z: Codec, d: Disk, records: seq<Record>, cap: nat, fileId: nat, name: nat)
    requires d.catalog.Some?
    ensures |CommitBatch(z, d, records, cap, fileId, name).changes| == |HoursOf(records)|
  {
    StageNames(z, d.catalog.value.hours, d.index, records, HoursOf(records), cap, fileId, name);
  }

  lemma HourIn(z: Codec, clock: Clock, d: Disk, k: Key)
    requires Readable(z, d) && Ranged(z, clock, d)
    ensures HourEntry(d, k).Some? ==> HourRanged(z, clock, d, k)
  {}

  lemma RangedFrom(z: Codec, clock: Clock, d: Disk)
    requires Readable(z, d) && forall k :: HourEntry(d, k).Some? ==> HourRanged(z, clock, d, k)
    ensures Ranged(z, clock, d)
  {}

  /** The same archive, seen again after reopening. */
  lemma SameRanged(z: Codec, clock: Clock, d: Disk, after: Disk)
    requires Readable(z, d) && Ranged(z, clock, d) && Visible(after) == Visible(d)
    ensures Readable(z, after) && Ranged(z, clock, after)
  {
    hide FileRanged, Decodes;
    assert after.data == d.data && after.index == d.index && after.catalog == d.catalog;
    forall k | HourEntry(after, k).Some? ensures HourRanged(z, clock, after, k) { assert HourEntry(d, k).Some? && HourRanged(z, clock, d, k); }
  }

  /** Deleting hours leaves the others as they are. */
  lemma ExpireRanged(z: Codec, clock: Clock, d: Disk, p: Pending, after: Disk)
    requires Valid(d) && Readable(z, d) && Ranged(z, clock, d) && p.Delete? && TxOk(z, d, p, map[]) && Visible(after) == AfterView(d, p, map[])
    ensures Readable(z, after) && Ranged(z, clock, after)
  {
    hide FileRanged, Decodes, HourOk;
    forall k | HourEntry(after, k).Some? ensures HourRanged(z, clock, after, k) {
      assert HourEntry(d, k).Some? && HourRanged(z, clock, d, k);
    }
  }

  // ---------- rebuilding ----------

  lemma {:induction false} UndatedConcat(clock: Clock, source: string, a: seq<Bytes>, b: seq<Bytes>)
    ensures Undated(clock, source, a + b) == Undated(clock, source, a) + Undated(clock, source, b)
  {
    if a == [] {
      assert a + b == b;
    } else {
      assert (a + b)[1..] == a[1..] + b;
      UndatedConcat(clock, source, a[1..], b);
    }
  }

  lemma {:induction false} SplitAreLines(text: Bytes)
    ensures forall i {:trigger IsLine(Split(text)[i])} :: 0 <= i < |Split(text)| ==> IsLine(Split(text)[i])
    decreases |text|
  {
    var n := FindLF(text);
    if n < |text| {
      SplitAreLines(text[n + 1..]);
      assert IsLine(text[..n + 1]);
    }
  }

  lemma ShowsJoined(clock: Clock, source: string, a: seq<Bytes>, b: seq<Bytes>)
    ensures forall t {:trigger Shows(clock, source, a + b, t)} :: Shows(clock, source, a, t) || Shows(clock, source, b, t) ==> Shows(clock, source, a + b, t)
  {
    forall t | Shows(clock, source, a, t) || Shows(clock, source, b, t) ensures Shows(clock, source, a + b, t) {
      if Shows(clock, source, a, t) {
        var i :| 0 <= i < |a| && clock(source, a[i]) == Some(t);
        assert (a + b)[i] == a[i];
      } else {
        var i :| 0 <= i < |b| && clock(source, b[i]) == Some(t);
        assert (a + b)[|a| + i] == b[i];
      }
    }
  }

  /** Two ranged texts one after the other. */
  lemma TextJoined(clock: Clock, source: string, a: Bytes, lo: int, hi: int, n: nat, b: Bytes, lo': int, hi': int, n': nat)
    requires TextRanged(clock, source, a, lo, hi, n) && TextRanged(clock, source, b, lo', hi', n')
    ensures TextRanged(clock, source, a + b, Lower(lo, lo'), Higher(hi, hi'), n + n')
    ensures Split(a + b) == Split(a) + Split(b)
  {
    hide Split, Flatten, Undated, Shows;
    SplitAreLines(a);
    SplitLines(Split(a), b);
    FlattenConcat(Split(a), Split(b));
    UndatedConcat(clock, source, Split(a), Split(b));
    ShowsJoined(clock, source, Split(a), Split(b));
    var lines := Split(a) + Split(b);
    forall i | 0 <= i < |lines| ensures Within(clock(source, lines[i]), Lower(lo, lo'), Higher(hi, hi')) && |lines[i]| <= MAX_LINE {
      if i < |Split(a)| { assert lines[i] == Split(a)[i]; } else { assert lines[i] == Split(b)[i - |Split(a)|]; }
    }
  }

  /** A group of neighbouring members, decoded together. */
  lemma {:induction false} GroupRanged(z: Codec, clock: Clock, source: string, content: Bytes, g: Index)
    requires g != [] && Decodes(z, content, g) && MembersRanged(z, clock, source, content, g)
    ensures TextRanged(clock, source, TextOf(z, content, g), LeastTime(g), GreatestTime(g), UnknownsOf(g))
    decreases g
  {
    hide TextRanged;
    var m, rest := g[0], g[1..];
    assert g == [m] + rest;
    DecodesSplit(z, content, [m], rest);
    assert MemberDecodes(z, content, m) && MemberRanged(z, clock, source, content, m);
    if rest == [] {
      assert TextOf(z, content, rest) == [];
      assert MemberText(z, content, m) + [] == MemberText(z, content, m);
    } else {
      forall i | 0 <= i < |rest| ensures MemberRanged(z, clock, source, content, rest[i]) { assert rest[i] == g[i + 1]; }
      GroupRanged(z, clock, source, content, rest);
      TextJoined(clock, source, MemberText(z, content, m), m.minTime, m.maxTime, m.unknown,
                 TextOf(z, content, rest), LeastTime(rest), GreatestTime(rest), UnknownsOf(rest));
    }
  }

  /** The pieces of a rebuild, against the groups they were read from. */
  ghost predicate PieceOfGroup(p: Piece, g: Index) {
    g != [] && p.minTime == LeastTime(g) && p.maxTime == GreatestTime(g) && p.unknown == UnknownsOf(g)
  }

  lemma {:induction false} RebuildRanged(z: Codec, clock: Clock, source: string, content: Bytes, groups: seq<Index>, slices: seq<Bytes>, from: nat)
    requires Sound(z) && NoneEmpty(groups) && SlicesOf(content, groups, slices)
    requires Tiles(Join(groups), from) && Decodes(z, content, Join(groups)) && MembersRanged(z, clock, source, content, Join(groups))
    ensures var r := Rebuild(z, groups, slices);
      r.Some? && |r.value| == |groups| && PiecesRanged(clock, source, r.value)
      && forall i {:trigger r.value[i]} :: 0 <= i < |groups| ==> PieceOfGroup(r.value[i], groups[i])
    decreases groups
  {
    hide TextRanged, MembersRanged;
    if groups != [] {
      var g, rest := groups[0], Join(groups[1..]);
      TilesSplit(g, rest, from);
      DecodesSplit(z, content, g, rest);
      RangedSplit(z, clock, source, content, g, rest);
      GroupText(z, content, g, from);
      GroupRanged(z, clock, source, content, g);
      assert SliceOf(content, g, slices[0]) && EndOf(g, 0) == EndOf(g, from) && g[0].start == from;
      forall i | 0 <= i < |groups[1..]| ensures SliceOf(content, groups[1..][i], slices[1..][i]) && groups[1..][i] != [] {
        assert SliceOf(content, groups[i + 1], slices[i + 1]);
      }
      RebuildRanged(z, clock, source, content, groups[1..], slices[1..], EndOf(g, from));
      var p, more := PieceFrom(z, g, slices[0]).value, Rebuild(z, groups[1..], slices[1..]).value;
      assert PieceRanged(clock, source, p) && PieceOfGroup(p, g);
      forall i | 0 <= i < |groups| ensures PieceRanged(clock, source, ([p] + more)[i]) && PieceOfGroup(([p] + more)[i], groups[i]) {
        if i > 0 { assert ([p] + more)[i] == more[i - 1]; }
      }
    }
  }

  lemma RangedSplit(z: Codec, clock: Clock, source: string, content: Bytes, a: Index, b: Index)
    requires Decodes(z, content, a + b) && MembersRanged(z, clock, source, content, a + b)
    requires Decodes(z, content, a) && Decodes(z, content, b)
    ensures MembersRanged(z, clock, source, content, a) && MembersRanged(z, clock, source, content, b)
  {
    hide MemberRanged, MemberDecodes;
    assert forall i :: 0 <= i < |a| ==> a[i] == (a + b)[i];
    assert forall i :: 0 <= i < |b| ==> b[i] == (a + b)[|a| + i];
  }

  /** Grouping members does not change what they sum up to. */
  lemma {:induction false} GroupSums(z: Codec, groups: seq<Index>, pieces: seq<Piece>, at: nat)
    requires groups != [] && |pieces| == |groups| && forall i {:trigger pieces[i]} :: 0 <= i < |groups| ==> PieceOfGroup(pieces[i], groups[i])
    ensures var ix, all := PieceIndex(z, 6, pieces, at), Join(groups);
      && ix != [] && all != [] && LeastTime(ix) == LeastTime(all) && GreatestTime(ix) == GreatestTime(all) && UnknownsOf(ix) == UnknownsOf(all)
    decreases groups
  {
    var m := MemberAt(z, 6, pieces[0], at);
    assert PieceOfGroup(pieces[0], groups[0]);
    assert LeastTime([m]) == m.minTime && GreatestTime([m]) == m.maxTime && UnknownsOf([m]) == m.unknown by { assert [m][1..] == []; }
    if |groups| == 1 {
      assert Join(groups) == groups[0] + [] == groups[0];
      assert PieceIndex(z, 6, pieces, at) == [m] + [];
    } else {
      assert forall i :: 0 <= i < |groups| - 1 ==> pieces[1..][i] == pieces[i + 1] && groups[1..][i] == groups[i + 1];
      GroupSums(z, groups[1..], pieces[1..], m.end);
      SumsConcat([m], PieceIndex(z, 6, pieces[1..], m.end));
      SumsConcat(groups[0], Join(groups[1..]));
    }
  }

  /** What the rebuild of an hour's index hands over. */
  ghost predicate Rebuilt(z: Codec, clock: Clock, source: string, pieces: seq<Piece>, ix: Index) {
    var ix' := PieceIndex(z, 6, pieces, 0);
    && PiecesRanged(clock, source, pieces) && ix != [] && ix' != []
    && LeastTime(ix') == LeastTime(ix) && GreatestTime(ix') == GreatestTime(ix) && UnknownsOf(ix') == UnknownsOf(ix)
  }

  /** Publishing a rebuilt hour keeps every range and count right. */
  lemma CompactRanged(z: Codec, clock: Clock, d: Disk, k: Key, pieces: seq<Piece>, fileId: nat, txn: nat, temp: nat, backup: nat, after: Disk)
    requires Sound(z) && Readable(z, d) && Ranged(z, clock, d) && CompactReady(z, d, k, pieces, temp) && temp != backup && txn != d.checkpoint.value.txn
    requires Rebuilt(z, clock, k.source, pieces, d.index[k])
    requires var p := CompactTx(z, d, k, d.catalog.value.hours[k], d.index[k], pieces, fileId, txn, temp, backup);
      Shaped(p, map[temp := Packed(z, 6, pieces)]) && Visible(after) == AfterView(d, p, map[temp := Packed(z, 6, pieces)])
    ensures Readable(z, after) && Ranged(z, clock, after)
  {
    hide Decodes, Ranged, MembersRanged, HourOk, TextOf, PieceText, PiecesRanged, LeastTime, GreatestTime, UnknownsOf;
    var entry, blob, ix := d.catalog.value.hours[k], Packed(z, 6, pieces), PieceIndex(z, 6, pieces, 0);
    CompactionFaithful(z, d, k, pieces, fileId, txn, temp, backup, after);
    PiecesMembers(z, clock, k.source, 6, [], pieces, []);
    assert [] + blob + [] == blob;
    var p := CompactTx(z, d, k, entry, d.index[k], pieces, fileId, txn, temp, backup);
    assert p.changes == [p.changes[0]];
    assert after.data[k] == blob && after.index[k] == ix && HourEntry(after, k) == Some(CompactEntry(z, entry, pieces, fileId)) by {
      NewHere(d.data, d.index, d.catalog.value.hours, p.changes, true, map[temp := blob], 0);
    }
    HourCounting(z, clock, d, k);
    CountingSome(d.index[k], entry);
    forall k' | HourEntry(after, k').Some? ensures HourRanged(z, clock, after, k') {
      HourIn(z, clock, d, k');
    }
    RangedFrom(z, clock, after);
  }

  /** The pieces an exact rebuild produces. */
  lemma RebuiltExact(z: Codec, clock: Clock, source: string, content: Bytes, ix: Index, slices: seq<Bytes>, cap: nat)
    requires Sound(z) && ix != [] && Tiles(ix, 0) && Decodes(z, content, ix) && MembersRanged(z, clock, source, content, ix)
    requires NoneEmpty(CompactGroups(ix, cap)) && SlicesOf(content, CompactGroups(ix, cap), slices)
    ensures var r := Rebuild(z, CompactGroups(ix, cap), slices); r.Some? && Rebuilt(z, clock, source, r.value, ix)
  {
    hide MembersRanged, Decodes, Tiles, Pack, Rebuild, PiecesRanged, PieceOfGroup;
    PackExact(ix, MemberSize, [], cap);
    var groups := CompactGroups(ix, cap);
    assert Join(groups) == [] + ix == ix;
    assert groups != [];
    RebuildRanged(z, clock, source, content, groups, slices, 0);
    GroupSums(z, groups, Rebuild(z, groups, slices).value, 0);
  }
}
