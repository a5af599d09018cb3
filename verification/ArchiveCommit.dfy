/** The transaction a commit builds, and what it does to the text of every hour. */
module ArchiveCommit {
  import opened Options
  import opened ArchiveTypes
  import opened ArchiveDisk
  import opened ArchiveJournal
  import opened ArchiveCrash
  import opened ArchiveStaging

  /** Every hour's members decode as their index says. */
  predicate Readable(z: Codec, d: Disk) {
    forall k :: k in d.data && k in d.index ==> Decodes(z, d.data[k], d.index[k])
  }

  datatype Batch = Batch(changes: seq<Change>, blobs: map<nat, Bytes>)

  /** stage: one change per hour, new hours and staging files under fresh names. */
  function Stage(z: Codec, hours: map<Key, Entry>, index: map<Key, Index>, records: seq<Record>, keys: seq<Key>,
                 cap: nat, fileId: nat, name: nat): Batch
    decreases keys
  {
    if keys == [] then Batch([], map[])
    else
      var k, mine := keys[0], RecordsOf(records, keys[0]);
      var c := AppendChange(z, k, Lookup(hours, k), if k in index then index[k] else [], mine, cap, fileId, name);
      var rest := Stage(z, hours, index, records, keys[1..], cap, fileId + 1, name + |StagedPieces(mine, cap)|);
      Batch([c] + rest.changes, rest.blobs + Blobs(z, 1, StagedPieces(mine, cap), name))
  }

  function CommitBatch(z: Codec, d: Disk, records: seq<Record>, cap: nat, fileId: nat, name: nat): Batch
    requires d.catalog.Some?
  {
    Stage(z, d.catalog.value.hours, d.index, records, HoursOf(records), cap, fileId, name)
  }

  /** The journal entry of a commit that also replaces the given generations. */
  function CommitTx(d: Disk, changes: seq<Change>, generations: map<string, Generation>, txn: nat): Pending
    requires d.catalog.Some? && d.checkpoint.Some?
  {
    var cp, cat := d.checkpoint.value, d.catalog.value;
    Publish(false, cp.txn, txn, cp, Checkpoint(txn, cp.generations + generations),
            cat, Catalog(txn, NewHours(cat.hours, changes)), changes)
  }

  /** The journal entry of an expiry. */
  function ExpireTx(d: Disk, keys: seq<Key>): Pending
    requires d.catalog.Some? && d.checkpoint.Some?
  {
    Delete(d.checkpoint.value.txn, d.catalog.value.(hours := d.catalog.value.hours - (set k | k in keys)), keys)
  }

  // ---------- hours of a batch ----------

  lemma {:induction false} HoursOfExact(records: seq<Record>)
    ensures forall i, j :: 0 <= i < j < |HoursOf(records)| ==> HoursOf(records)[i] != HoursOf(records)[j]
    ensures forall k :: k in HoursOf(records) <==> RecordsOf(records, k) != []
  {
    if records != [] {
      var front, last := records[..|records| - 1], records[|records| - 1];
      HoursOfExact(front);
      assert records == front + [last];
      forall k ensures RecordsOf(records, k) == RecordsOf(front, k) + RecordsOf([last], k) {
        RecordsOfConcat(front, [last], k);
      }
      assert forall k :: RecordsOf([last], k) != [] <==> KeyOf(last) == k;
    }
  }

  lemma {:induction false} RecordsOfConcat(a: seq<Record>, b: seq<Record>, k: Key)
    ensures RecordsOf(a + b, k) == RecordsOf(a, k) + RecordsOf(b, k)
  {
    if a == [] {
      assert a + b == b;
    } else {
      assert (a + b)[1..] == a[1..] + b;
      RecordsOfConcat(a[1..], b, k);
    }
  }

  lemma {:induction false} BlobsExact(z: Codec, pieces: seq<Piece>, name: nat, blobs: map<nat, Bytes>)
    requires forall n :: n in Blobs(z, 1, pieces, name) ==> n in blobs && blobs[n] == Blobs(z, 1, pieces, name)[n]
    ensures BlobsHold(z, 1, pieces, name, blobs)
    ensures forall n :: n in Blobs(z, 1, pieces, name) <==> name <= n < name + |pieces|
    decreases pieces
  {
    if pieces != [] {
      BlobsRange(z, pieces[1..], name + 1);
      BlobsExact(z, pieces[1..], name + 1, blobs);
      assert name in Blobs(z, 1, pieces, name);
    }
  }

  lemma {:induction false} BlobsRange(z: Codec, pieces: seq<Piece>, name: nat)
    ensures forall n :: n in Blobs(z, 1, pieces, name) <==> name <= n < name + |pieces|
    decreases pieces
  {
    if pieces != [] { BlobsRange(z, pieces[1..], name + 1); }
  }

  function FirstName(c: Change): nat { if c.stages == [] then 0 else c.stages[0] }

  /** The change is the one for its hour, and its staging files are there. */
  predicate ChangeOf(z: Codec, hours: map<Key, Entry>, index: map<Key, Index>, records: seq<Record>, k: Key, cap: nat,
                     c: Change, blobs: map<nat, Bytes>)
  {
    && c == AppendChange(z, k, Lookup(hours, k), if k in index then index[k] else [], RecordsOf(records, k), cap,
                         c.after.fileId, FirstName(c))
    && BlobsHold(z, 1, StagedPieces(RecordsOf(records, k), cap), FirstName(c), blobs)
  }

  lemma {:induction false} GrowKeepsId(z: Codec, e: Entry, pieces: seq<Piece>)
    ensures Grow(z, 1, e, pieces).fileId == e.fileId && Grow(z, 1, e, pieces).compacted == e.compacted
    decreases pieces
  {
    if pieces != [] {
      var p := pieces[0];
      GrowKeepsId(z, e.(size := e.size + |z.zip(1, p.text)|, lineCount := e.lineCount + p.lines, unknown := e.unknown + p.unknown,
                        minTime := if e.lineCount == 0 || p.minTime < e.minTime then p.minTime else e.minTime,
                        maxTime := if e.lineCount == 0 || p.maxTime > e.maxTime then p.maxTime else e.maxTime), pieces[1..]);
    }
  }

  lemma ChangeOfOwn(z: Codec, hours: map<Key, Entry>, index: map<Key, Index>, records: seq<Record>, k: Key, cap: nat,
                    fileId: nat, name: nat, blobs: map<nat, Bytes>)
    requires BlobsHold(z, 1, StagedPieces(RecordsOf(records, k), cap), name, blobs)
    ensures ChangeOf(z, hours, index, records, k, cap,
      AppendChange(z, k, Lookup(hours, k), if k in index then index[k] else [], RecordsOf(records, k), cap, fileId, name), blobs)
  {
    var pieces := StagedPieces(RecordsOf(records, k), cap);
    GrowKeepsId(z, Entry(fileId, 0, 0, 0, 0, 0, false), pieces);
    if pieces != [] {
      assert Names(name, |pieces|)[0] == name + 0;
    }
  }

  lemma {:induction false} HoldMore(z: Codec, pieces: seq<Piece>, name: nat, blobs: map<nat, Bytes>, more: map<nat, Bytes>)
    requires BlobsHold(z, 1, pieces, name, blobs) && forall n :: n in blobs ==> n in more && more[n] == blobs[n]
    ensures BlobsHold(z, 1, pieces, name, more)
    decreases pieces
  {
    if pieces != [] { HoldMore(z, pieces[1..], name + 1, blobs, more); }
  }

  predicate AllOf(z: Codec, hours: map<Key, Entry>, index: map<Key, Index>, records: seq<Record>, keys: seq<Key>, cap: nat,
                  cs: seq<Change>, blobs: map<nat, Bytes>)
    decreases keys
  {
    if keys == [] then cs == []
    else
      && cs != [] && ChangeOf(z, hours, index, records, keys[0], cap, cs[0], blobs)
      && AllOf(z, hours, index, records, keys[1..], cap, cs[1..], blobs)
  }

  lemma {:induction false} AllOfMore(z: Codec, hours: map<Key, Entry>, index: map<Key, Index>, records: seq<Record>, keys: seq<Key>,
                                     cap: nat, cs: seq<Change>, blobs: map<nat, Bytes>, more: map<nat, Bytes>)
    requires AllOf(z, hours, index, records, keys, cap, cs, blobs)
    requires forall n :: n in blobs ==> n in more && more[n] == blobs[n]
    ensures AllOf(z, hours, index, records, keys, cap, cs, more)
    decreases keys
  {
    if keys != [] {
      HoldMore(z, StagedPieces(RecordsOf(records, keys[0]), cap), FirstName(cs[0]), blobs, more);
      AllOfMore(z, hours, index, records, keys[1..], cap, cs[1..], blobs, more);
    }
  }

  lemma {:induction false} AllOfAt(z: Codec, hours: map<Key, Entry>, index: map<Key, Index>, records: seq<Record>, keys: seq<Key>,
                                   cap: nat, cs: seq<Change>, blobs: map<nat, Bytes>, i: nat)
    requires AllOf(z, hours, index, records, keys, cap, cs, blobs) && i < |keys|
    ensures |cs| == |keys| && ChangeOf(z, hours, index, records, keys[i], cap, cs[i], blobs)
    decreases keys
  {
    if i > 0 {
      AllOfAt(z, hours, index, records, keys[1..], cap, cs[1..], blobs, i - 1);
    } else if |keys| > 1 {
      AllOfAt(z, hours, index, records, keys[1..], cap, cs[1..], blobs, 0);
    }
  }

  lemma {:induction false} StageNames(z: Codec, hours: map<Key, Entry>, index: map<Key, Index>, records: seq<Record>, keys: seq<Key>,
                                      cap: nat, fileId: nat, name: nat)
    ensures var b := Stage(z, hours, index, records, keys, cap, fileId, name);
      |b.changes| == |keys| && forall n :: n in b.blobs ==> name <= n
    decreases keys
  {
    if keys != [] {
      var mine := RecordsOf(records, keys[0]);
      StageNames(z, hours, index, records, keys[1..], cap, fileId + 1, name + |StagedPieces(mine, cap)|);
      BlobsRange(z, StagedPieces(mine, cap), name);
    }
  }

  lemma AllOfCons(z: Codec, hours: map<Key, Entry>, index: map<Key, Index>, records: seq<Record>, keys: seq<Key>, cap: nat,
                  c: Change, rest: seq<Change>, blobs: map<nat, Bytes>)
    requires keys != [] && ChangeOf(z, hours, index, records, keys[0], cap, c, blobs)
    requires AllOf(z, hours, index, records, keys[1..], cap, rest, blobs)
    ensures AllOf(z, hours, index, records, keys, cap, [c] + rest, blobs)
  {
    assert ([c] + rest)[1..] == rest;
  }

  /** The batch's staging files hold what each of its changes needs. */
  lemma {:induction false} StageHolds(z: Codec, hours: map<Key, Entry>, index: map<Key, Index>, records: seq<Record>, keys: seq<Key>,
                                      cap: nat, fileId: nat, name: nat)
    ensures var b := Stage(z, hours, index, records, keys, cap, fileId, name);
      AllOf(z, hours, index, records, keys, cap, b.changes, b.blobs)
    decreases keys
  {
    if keys != [] {
      var k, mine := keys[0], RecordsOf(records, keys[0]);
      var own := Blobs(z, 1, StagedPieces(mine, cap), name);
      var next := name + |StagedPieces(mine, cap)|;
      var rest := Stage(z, hours, index, records, keys[1..], cap, fileId + 1, next);
      var c := AppendChange(z, k, Lookup(hours, k), if k in index then index[k] else [], mine, cap, fileId, name);
      assert Stage(z, hours, index, records, keys, cap, fileId, name) == Batch([c] + rest.changes, rest.blobs + own);
      assert ChangeOf(z, hours, index, records, k, cap, c, rest.blobs + own) by {
        BlobsExact(z, StagedPieces(mine, cap), name, rest.blobs + own);
        ChangeOfOwn(z, hours, index, records, k, cap, fileId, name, rest.blobs + own);
      }
      assert AllOf(z, hours, index, records, keys[1..], cap, rest.changes, rest.blobs) by {
        StageHolds(z, hours, index, records, keys[1..], cap, fileId + 1, next);
      }
      StageNames(z, hours, index, records, keys[1..], cap, fileId + 1, next);
      BlobsRange(z, StagedPieces(mine, cap), name);
      StageStep(z, hours, index, records, keys, cap, c, rest, own, next);
    }
  }

  lemma StageStep(z: Codec, hours: map<Key, Entry>, index: map<Key, Index>, records: seq<Record>, keys: seq<Key>, cap: nat,
                  c: Change, rest: Batch, own: map<nat, Bytes>, next: nat)
    requires keys != [] && ChangeOf(z, hours, index, records, keys[0], cap, c, rest.blobs + own)
    requires AllOf(z, hours, index, records, keys[1..], cap, rest.changes, rest.blobs)
    requires (forall n :: n in rest.blobs ==> next <= n) && forall n :: n in own ==> n < next
    ensures AllOf(z, hours, index, records, keys, cap, [c] + rest.changes, rest.blobs + own)
  {
    AllOfMore(z, hours, index, records, keys[1..], cap, rest.changes, rest.blobs, rest.blobs + own);
    AllOfCons(z, hours, index, records, keys, cap, c, rest.changes, rest.blobs + own);
  }

  // ---------- the commit as a transaction ----------

  lemma BatchChange(z: Codec, d: Disk, records: seq<Record>, cap: nat, fileId: nat, name: nat, i: nat)
    requires Sound(z) && Valid(d) && Readable(z, d) && LineRecords(records) && i < |HoursOf(records)|
    ensures var b := CommitBatch(z, d, records, cap, fileId, name);
      var k := HoursOf(records)[i];
      && i < |b.changes| && b.changes[i].key == k && ChangeOk(z, d, b.changes[i], false, b.blobs)
      && Decodes(z, NewContent(d.data, b.changes[i], false, b.blobs), b.changes[i].afterIndex)
      && TextOf(z, NewContent(d.data, b.changes[i], false, b.blobs), b.changes[i].afterIndex)
         == HourText(z, d, k) + Flatten(Raws(RecordsOf(records, k)))
  {
    var b := CommitBatch(z, d, records, cap, fileId, name);
    var k := HoursOf(records)[i];
    StageHolds(z, d.catalog.value.hours, d.index, records, HoursOf(records), cap, fileId, name);
    AllOfAt(z, d.catalog.value.hours, d.index, records, HoursOf(records), cap, b.changes, b.blobs, i);
    var c := b.changes[i];
    RecordsOfLines(records, k);
    AppendChangeOk(z, d, k, RecordsOf(records, k), cap, c.after.fileId, FirstName(c), b.blobs);
  }

  /** Every commit of whole lines is a transaction crash atomicity covers. */
  lemma CommitTxOk(z: Codec, d: Disk, records: seq<Record>, generations: map<string, Generation>, txn: nat,
                   cap: nat, fileId: nat, name: nat)
    requires Sound(z) && Valid(d) && Readable(z, d) && LineRecords(records) && txn != d.checkpoint.value.txn
    ensures var b := CommitBatch(z, d, records, cap, fileId, name);
      TxOk(z, d, CommitTx(d, b.changes, generations, txn), b.blobs)
  {
    var b := CommitBatch(z, d, records, cap, fileId, name);
    var keys := HoursOf(records);
    StageHolds(z, d.catalog.value.hours, d.index, records, keys, cap, fileId, name);
    StageNames(z, d.catalog.value.hours, d.index, records, keys, cap, fileId, name);
    HoursOfExact(records);
    forall i | 0 <= i < |b.changes|
      ensures b.changes[i].key == keys[i] && ChangeOk(z, d, b.changes[i], false, b.blobs)
    {
      BatchChange(z, d, records, cap, fileId, name, i);
    }
    assert Distinct(b.changes);
    assert forall i :: 0 <= i < |b.changes| ==> ChangeOk(z, d, b.changes[i], false, b.blobs);
    assert Staged(b.changes, b.blobs);
  }

  /** A committed batch appends to every hour exactly its lines of that hour, in order, and
      replaces exactly the given generations. */
  lemma CommitText(z: Codec, d: Disk, records: seq<Record>, generations: map<string, Generation>, txn: nat,
                   cap: nat, fileId: nat, name: nat, after: Disk, k: Key)
    requires Sound(z) && Valid(d) && Readable(z, d) && LineRecords(records) && txn != d.checkpoint.value.txn
    requires var b := CommitBatch(z, d, records, cap, fileId, name);
      Shaped(CommitTx(d, b.changes, generations, txn), b.blobs) && Visible(after) == AfterView(d, CommitTx(d, b.changes, generations, txn), b.blobs)
    ensures k in after.data && k in after.index ==> Decodes(z, after.data[k], after.index[k])
    ensures HourText(z, after, k) == HourText(z, d, k) + Flatten(Raws(RecordsOf(records, k)))
    ensures after.checkpoint == Some(Checkpoint(txn, d.checkpoint.value.generations + generations))
  {
    hide Stage, AllOf, Sound, CountLF, IsLine, IndexOk, Decodes, HourOk, Staged, CompactShape, NewContent, NewData, NewIndex, NewHours, Distinct, ChangeOk, TxOk, Pack, PieceIndex, TextOf, TimeOf, KeyOf, RecordsOf, HoursOf, PiecesOf, LineRecords, StagedPieces, Grow, Blobs, Names, AppendChange, Lookup, HourText;
    var b := CommitBatch(z, d, records, cap, fileId, name);
    var keys := HoursOf(records);
    StageHolds(z, d.catalog.value.hours, d.index, records, keys, cap, fileId, name);
    StageNames(z, d.catalog.value.hours, d.index, records, keys, cap, fileId, name);
    HoursOfExact(records);
    if k in keys {
      var i :| 0 <= i < |keys| && keys[i] == k;
      CommitTxOk(z, d, records, generations, txn, cap, fileId, name);
      BatchChange(z, d, records, cap, fileId, name, i);
      BusyHour(z, d, b.changes, b.blobs, after, i);
    } else {
      forall i | 0 <= i < |b.changes| ensures b.changes[i].key != k {
        BatchChange(z, d, records, cap, fileId, name, i);
      }
      assert !Touches(b.changes, k);
      QuietHour(z, d, b.changes, b.blobs, after, k);
      assert RecordsOf(records, k) == [];
      assert HourText(z, d, k) + Flatten(Raws([])) == HourText(z, d, k);
    }
  }

  lemma QuietHour(z: Codec, d: Disk, cs: seq<Change>, blobs: map<nat, Bytes>, after: Disk, k: Key)
    requires Staged(cs, blobs) && !Touches(cs, k) && Readable(z, d)
    requires after.data == NewData(d.data, cs, false, blobs) && after.index == NewIndex(d.index, cs)
    ensures k in after.data && k in after.index ==> Decodes(z, after.data[k], after.index[k])
    ensures HourText(z, after, k) == HourText(z, d, k)
  {
    NewElsewhere(d.data, d.index, map[], cs, false, blobs, k);
  }

  lemma BusyHour(z: Codec, d: Disk, cs: seq<Change>, blobs: map<nat, Bytes>, after: Disk, i: nat)
    requires Staged(cs, blobs) && Distinct(cs) && i < |cs|
    requires after.data == NewData(d.data, cs, false, blobs) && after.index == NewIndex(d.index, cs)
    requires Decodes(z, NewContent(d.data, cs[i], false, blobs), cs[i].afterIndex)
    ensures cs[i].key in after.data && cs[i].key in after.index
    ensures Decodes(z, after.data[cs[i].key], after.index[cs[i].key])
    ensures HourText(z, after, cs[i].key) == TextOf(z, NewContent(d.data, cs[i], false, blobs), cs[i].afterIndex)
  {
    NewHere(d.data, d.index, map[], cs, false, blobs, i);
  }
}
