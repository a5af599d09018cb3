/** The single writer of an archive.  Its process may die inside any disk operation: `fuel`
    is how many it will still complete, `torn` how much of the next one reaches the disk. */
module ArchiveStore {
  import opened Options
  import opened ArchiveTypes
  import opened ArchiveDisk
  import opened ArchiveJournal
  import opened ArchiveCrash
  import opened ArchiveStaging
  import opened ArchiveCommit
  import opened ArchiveHistory
  import opened ArchiveReaders
  import opened ArchiveRanges
  import opened ArchiveRun

  /** Offsets never go back. */
  predicate Advances(now: map<string, Generation>, next: map<string, Generation>) {
    forall g :: g in next && g in now ==> now[g].offset <= next[g].offset
  }

  predicate Acceptable(records: seq<Record>, sources: set<string>) {
    forall i :: 0 <= i < |records| ==> IsLine(records[i].raw) && records[i].source in sources
  }

  /** Hours whose newest line is older than their source keeps. */
  predicate Expired(retention: map<string, int>, k: Key, e: Entry, now: int) {
    k.source in retention && e.maxTime + retention[k.source] * DAY < now
  }

  /** The compaction's view of the history: the hour as it was chosen, and, while it is unchanged, the pieces it was rebuilt from. */
  ghost predicate Rebuilding(z: Codec, clock: Clock, t: Trace, act: Action, d: Disk, k: Key, before: Entry, index: Index, pieces: seq<Piece>)
    requires act.Compact?
  {
    hide Possible, PiecesRead, Unchanged, Sane;
    && Sane(z, clock, t) && |t.disks| == |t.used| == |t.events| + 1 && Now(t) == d && act.from < |t.disks| && act.key == k
    && HourEntry(t.disks[act.from], k) == Some(before) && k in t.disks[act.from].index && t.disks[act.from].index[k] == index
    && (Unchanged(d, before, k) ==> Possible(z, clock, t, act) && PiecesRead(z, t, act) == Some(pieces))
  }

  /** Publishing the rebuilt hour is a transaction the store may carry out. */
  predicate Compacts(z: Codec, d: Disk, k: Key, before: Entry, index: Index, pieces: seq<Piece>, fileId: nat, txn: nat, temp: nat, backup: nat) {
    hide TxOk, CompactTx, Valid;
    Valid(d) && d.catalog.Some? && d.checkpoint.Some?
    && TxOk(z, d, CompactTx(z, d, k, before, index, pieces, fileId, txn, temp, backup), map[temp := Packed(z, 6, pieces)])
  }

  class Store {
    const z: Codec
    const cap: nat
    const retention: map<string, int>
    const torn: nat
    var disk: Disk
    var catalog: Catalog
    var checkpoint: Checkpoint
    var failed: bool
    var fuel: nat

    constructor (z: Codec, cap: nat, retention: map<string, int>, disk: Disk, fuel: nat, torn: nat)
      ensures this.z == z && this.cap == cap && this.retention == retention && this.torn == torn
      ensures this.disk == disk && this.fuel == fuel && failed
    {
      this.z, this.cap, this.retention, this.torn := z, cap, retention, torn;
      this.disk, this.fuel, this.failed := disk, fuel, true;
      this.catalog, this.checkpoint := NoHours, NoOffsets;
    }

    /** Open, recovered, and in step with the disk. */
    ghost predicate Ready()
      reads this
    {
      !failed && Sound(z) && Valid(disk) && Readable(z, disk)
      && disk.catalog == Some(catalog) && disk.checkpoint == Some(checkpoint)
    }

    /** What is left on the disk if the process has these operations still to do. */
    ghost function Outcome(todo: seq<Op>): Disk
      reads this
    {
      Run(disk, todo, fuel, torn)
    }

    /** One disk operation; false if the process dies in it. */
    method Step(op: Op, ghost rest: seq<Op>) returns (ok: bool)
      modifies this`disk, this`fuel
      ensures ok <==> old(fuel) > 0
      ensures ok ==> disk == Apply(old(disk), op) && fuel == old(fuel) - 1
      ensures ok ==> Outcome(rest) == old(Outcome([op] + rest))
      ensures !ok ==> disk == old(Outcome([op] + rest))
    {
      assert ([op] + rest)[1..] == rest;
      if fuel == 0 {
        disk := Torn(disk, op, torn);
        return false;
      }
      disk, fuel := Apply(disk, op), fuel - 1;
      return true;
    }

    /** The method has carried out `ops`, or died inside them; `rest` is what its caller still wants. */
    twostate predicate Did(ops: seq<Op>, rest: seq<Op>, ok: bool)
      reads this
    {
      && (ok <==> old(fuel) >= |ops|)
      && (ok ==> disk == RunAll(old(disk), ops) && fuel == old(fuel) - |ops| && Outcome(rest) == old(Outcome(ops + rest)))
      && (!ok ==> disk == old(Outcome(ops + rest)))
    }

    /** Of `ops`, the operations `left` are still to be done. */
    twostate predicate Doing(left: seq<Op>, ops: seq<Op>, rest: seq<Op>)
      reads this
    {
      && fuel + |ops| == old(fuel) + |left| && RunAll(disk, left) == RunAll(old(disk), ops)
      && Outcome(left + rest) == old(Outcome(ops + rest))
    }

    /** Writing the staging files of one hour. */
    method PutStages(stages: seq<nat>, blobs: map<nat, Bytes>, ghost rest: seq<Op>) returns (ok: bool)
      requires forall n :: n in stages ==> n in blobs
      modifies this`disk, this`fuel
      ensures Did(StagePuts(stages, blobs), rest, ok)
    {
      for i := 0 to |stages|
        invariant Doing(StagePuts(stages[i..], blobs), StagePuts(stages, blobs), rest)
      {
        var n := stages[i];
        assert stages[i..][1..] == stages[i + 1..];
        ghost var later := StagePuts(stages[i + 1..], blobs);
        assert StagePuts(stages[i..], blobs) + rest == [StagePut(n, blobs[n])] + (later + rest);
        assert StagePuts(stages[i..], blobs)[1..] == later;
        ok := Step(StagePut(n, blobs[n]), later + rest);
        if !ok { return; }
      }
      assert [] + rest == rest;
      ok := true;
    }

    /** Staging everything, before the journal is written. */
    method PutAllStages(cs: seq<Change>, blobs: map<nat, Bytes>, ghost rest: seq<Op>) returns (ok: bool)
      requires Staged(cs, blobs)
      modifies this`disk, this`fuel
      ensures Did(StageOps(cs, blobs), rest, ok)
    {
      for i := 0 to |cs|
        invariant Staged(cs[i..], blobs)
        invariant Doing(StageOps(cs[i..], blobs), StageOps(cs, blobs), rest)
      {
        assert cs[i..][1..] == cs[i + 1..] && cs[i..][0] == cs[i];
        ghost var later := StageOps(cs[i + 1..], blobs);
        assert StageOps(cs[i..], blobs) + rest == StagePuts(cs[i].stages, blobs) + (later + rest);
        RunAllConcat(disk, StagePuts(cs[i].stages, blobs), later);
        ok := PutStages(cs[i].stages, blobs, later + rest);
        if !ok { return; }
      }
      assert [] + rest == rest;
      ok := true;
    }

    /** Appending an hour's staged members to its file. */
    method AppendStages(k: Key, at: nat, stages: seq<nat>, blobs: map<nat, Bytes>, ghost rest: seq<Op>) returns (ok: bool)
      requires forall n :: n in stages ==> n in blobs && n in disk.staging && disk.staging[n] == blobs[n]
      modifies this`disk, this`fuel
      ensures Did(WriteOps(k, at, stages, blobs), rest, ok) && disk.staging == old(disk.staging)
    {
      var position: nat := at;
      for i := 0 to |stages|
        invariant disk.staging == old(disk.staging)
        invariant Doing(WriteOps(k, position, stages[i..], blobs), WriteOps(k, at, stages, blobs), rest)
      {
        var chunk := disk.staging[stages[i]];
        assert stages[i..][1..] == stages[i + 1..];
        ghost var later := WriteOps(k, position + |chunk|, stages[i + 1..], blobs);
        assert WriteOps(k, position, stages[i..], blobs) + rest == [Write(k, position, chunk)] + (later + rest);
        assert WriteOps(k, position, stages[i..], blobs)[1..] == later;
        ok := Step(Write(k, position, chunk), later + rest);
        if !ok { return; }
        position := position + |chunk|;
      }
      assert [] + rest == rest;
      ok := true;
    }

    method ApplyChange(c: Change, blobs: map<nat, Bytes>, ghost rest: seq<Op>) returns (ok: bool)
      requires forall n :: n in c.stages ==> n in blobs && n in disk.staging && disk.staging[n] == blobs[n]
      modifies this`disk, this`fuel
      ensures Did(ChangeOps(c, blobs), rest, ok) && disk.staging == old(disk.staging)
    {
      hide Lead, WriteOps;
      ghost var create := if c.before.None? then [Create(c.key)] else [];
      ghost var writes := WriteOps(c.key, Lead(c), c.stages, blobs);
      ghost var last := [PutIndex(c.key, c.afterIndex)];
      assert ChangeOps(c, blobs) + rest == create + (writes + (last + rest));
      RunAllConcat(disk, create + writes, last);
      RunAllConcat(disk, create, writes);
      if c.before.None? {
        RunHead(disk, Create(c.key), []);
        ok := Step(Create(c.key), writes + (last + rest));
        if !ok { return; }
      } else {
        assert [] + (writes + (last + rest)) == writes + (last + rest);
      }
      ok := AppendStages(c.key, Lead(c), c.stages, blobs, last + rest);
      if !ok { return; }
      RunHead(disk, PutIndex(c.key, c.afterIndex), []);
      ok := Step(PutIndex(c.key, c.afterIndex), rest);
    }

    method ApplyChanges(cs: seq<Change>, blobs: map<nat, Bytes>, ghost rest: seq<Op>) returns (ok: bool)
      requires Staged(cs, blobs) && forall i, n :: 0 <= i < |cs| && n in cs[i].stages ==> n in disk.staging && disk.staging[n] == blobs[n]
      modifies this`disk, this`fuel
      ensures Did(ChangesOps(cs, blobs), rest, ok)
    {
      hide Lead, WriteOps, ChangeOps;
      for i := 0 to |cs|
        invariant disk.staging == old(disk.staging) && Staged(cs[i..], blobs)
        invariant Doing(ChangesOps(cs[i..], blobs), ChangesOps(cs, blobs), rest)
      {
        assert cs[i..][1..] == cs[i + 1..] && cs[i..][0] == cs[i];
        ghost var later := ChangesOps(cs[i + 1..], blobs);
        assert ChangesOps(cs[i..], blobs) + rest == ChangeOps(cs[i], blobs) + (later + rest);
        RunAllConcat(disk, ChangeOps(cs[i], blobs), later);
        ok := ApplyChange(cs[i], blobs, later + rest);
        if !ok { return; }
      }
      assert [] + rest == rest;
      ok := true;
    }

    method DropStages(stages: seq<nat>, ghost rest: seq<Op>) returns (ok: bool)
      modifies this`disk, this`fuel
      ensures Did(StageRms(stages), rest, ok)
    {
      for i := 0 to |stages|
        invariant Doing(StageRms(stages[i..]), StageRms(stages), rest)
      {
        assert stages[i..][1..] == stages[i + 1..];
        ghost var later := StageRms(stages[i + 1..]);
        assert StageRms(stages[i..]) == [StageRm(stages[i])] + later;
        assert StageRms(stages[i..]) + rest == [StageRm(stages[i])] + (later + rest);
        RunHead(disk, StageRm(stages[i]), later);
        ok := Step(StageRm(stages[i]), later + rest);
        if !ok { return; }
      }
      assert [] + rest == rest;
      ok := true;
    }

    /** finishPending: drop the journal, then the transaction's staging files. */
    method FinishPending(p: Pending, ghost rest: seq<Op>) returns (ok: bool)
      modifies this`disk, this`fuel
      ensures Did(Finish(p), rest, ok)
    {
      hide StageRms;
      var cs := if p.Publish? then p.changes else [];
      assert Finish(p) == [RmPending] + Discard(cs);
      assert Finish(p) + rest == [RmPending] + (Discard(cs) + rest);
      RunHead(disk, RmPending, Discard(cs));
      ok := Step(RmPending, Discard(cs) + rest);
      if !ok { return; }
      for i := 0 to |cs|
        invariant Doing(Discard(cs[i..]), Finish(p), rest)
      {
        assert cs[i..][1..] == cs[i + 1..];
        ghost var later := Discard(cs[i + 1..]);
        assert Discard(cs[i..]) == StageRms(cs[i].stages) + later;
        assert Discard(cs[i..]) + rest == StageRms(cs[i].stages) + (later + rest);
        RunAllConcat(disk, StageRms(cs[i].stages), later);
        ok := DropStages(cs[i].stages, later + rest);
        if !ok { return; }
      }
      assert [] + rest == rest;
      ok := true;
    }

    /** deleteFiles: a file that is already gone is not an error. */
    method DeleteFiles(keys: seq<Key>, ghost rest: seq<Op>) returns (ok: bool)
      modifies this`disk, this`fuel
      ensures Did(DeleteOps(keys), rest, ok)
    {
      for i := 0 to |keys|
        invariant Doing(DeleteOps(keys[i..]), DeleteOps(keys), rest)
      {
        var k := keys[i];
        assert keys[i..][1..] == keys[i + 1..];
        ghost var later := DeleteOps(keys[i + 1..]);
        assert DeleteOps(keys[i..]) == [Unlink(k)] + ([RmIndex(k)] + later);
        assert DeleteOps(keys[i..]) + rest == [Unlink(k)] + ([RmIndex(k)] + (later + rest));
        RunHead(disk, Unlink(k), [RmIndex(k)] + later);
        ok := Step(Unlink(k), [RmIndex(k)] + (later + rest));
        if !ok { return; }
        RunHead(disk, RmIndex(k), later);
        ok := Step(RmIndex(k), later + rest);
        if !ok { return; }
      }
      assert [] + rest == rest;
      ok := true;
    }
  
    // ---------- commit ----------

    method RunPrologue(p: Pending, blobs: map<nat, Bytes>, ghost rest: seq<Op>) returns (ok: bool)
      requires p.Publish? && Shaped(p, blobs)
      modifies this`disk, this`fuel
      ensures Did(Prologue(p, blobs), rest, ok)
    {
      if p.compact {
        var c := p.changes[0];
        RunHead(disk, Link(c.key, c.stages[1]), []);
        ok := Step(Link(c.key, c.stages[1]), rest);
      } else {
        ok := PutAllStages(p.changes, blobs, rest);
      }
    }

    /** The transaction's own writes, between the journal and the checkpoint. */
    method RunBody(p: Pending, blobs: map<nat, Bytes>, ghost rest: seq<Op>) returns (ok: bool)
      requires p.Publish? && Shaped(p, blobs)
      requires !p.compact ==> forall i :: 0 <= i < |p.changes| ==> Holds(disk, blobs, p.changes[i].stages)
      modifies this`disk, this`fuel
      ensures Did(Body(p, blobs), rest, ok)
    {
      ghost var last := [PutCatalog(p.afterCat)];
      if p.compact {
        var c := p.changes[0];
        ghost var first := [Rename(c.stages[0], c.key), PutIndex(c.key, c.afterIndex)];
        assert Body(p, blobs) + rest == [Rename(c.stages[0], c.key)] + ([PutIndex(c.key, c.afterIndex)] + (last + rest));
        RunAllConcat(disk, first, last);
        RunTwo(disk, Rename(c.stages[0], c.key), PutIndex(c.key, c.afterIndex));
        ok := Step(Rename(c.stages[0], c.key), [PutIndex(c.key, c.afterIndex)] + (last + rest));
        if !ok { return; }
        ok := Step(PutIndex(c.key, c.afterIndex), last + rest);
      } else {
        assert Body(p, blobs) + rest == ChangesOps(p.changes, blobs) + (last + rest);
        RunAllConcat(disk, ChangesOps(p.changes, blobs), last);
        ok := ApplyChanges(p.changes, blobs, last + rest);
      }
      if !ok { return; }
      RunHead(disk, PutCatalog(p.afterCat), []);
      ok := Step(PutCatalog(p.afterCat), rest);
    }

    /** Everything up to the commit point. */
    method Prepare(p: Pending, blobs: map<nat, Bytes>, ghost rest: seq<Op>) returns (ok: bool)
      requires p.Publish? && Shaped(p, blobs)
      modifies this`disk, this`fuel
      ensures Did(Prologue(p, blobs) + ([PutPending(p)] + Body(p, blobs)), rest, ok)
    {
      hide Splice, RunAll, Lead, WriteOps, Staged, ChangeOps, ChangesOps, StagePuts, StageOps, CompactShape, Body;
      ghost var pre, main := Prologue(p, blobs), [PutPending(p)] + Body(p, blobs);
      assert pre + main + rest == pre + (main + rest);
      assert main + rest == [PutPending(p)] + (Body(p, blobs) + rest);
      RunAllConcat(disk, pre, main);
      if !p.compact { StagedThere(disk, p.changes, blobs); }
      RunHead(RunAll(disk, pre), PutPending(p), Body(p, blobs));
      ok := RunPrologue(p, blobs, main + rest);
      if !ok { return; }
      ok := Step(PutPending(p), Body(p, blobs) + rest);
      if !ok { return; }
      ok := RunBody(p, blobs, rest);
    }

    /** A commit or a compaction's publication: staging, journal, files, catalog, checkpoint, and
        only then memory.  After any failure the store must be reopened. */
    method Publish(p: Pending, blobs: map<nat, Bytes>) returns (ok: bool)
      requires p.Publish? && Shaped(p, blobs)
      modifies this
      ensures disk == old(Outcome(TxOps(p, blobs)))
      ensures ok <==> old(fuel) >= |TxOps(p, blobs)|
      ensures if ok then !failed && catalog == p.afterCat && checkpoint == p.afterCp else failed
    {
      failed := true;
      ok := Prepare(p, blobs, [PutCheckpoint(p.afterCp)] + Finish(p));
      if !ok { return; }
      ok := Step(PutCheckpoint(p.afterCp), Finish(p));
      if !ok { return; }
      catalog, checkpoint := p.afterCat, p.afterCp;
      assert Finish(p) + [] == Finish(p);
      ok := FinishPending(p, []);
      failed := !ok;
    }
  
    // ---------- staging a batch ----------

    /** One pass over the records: the hours in order of appearance, and each hour's records. */
    method Group(records: seq<Record>) returns (keys: seq<Key>, groups: map<Key, seq<Record>>)
      ensures keys == HoursOf(records)
      ensures forall k :: k in keys ==> k in groups && groups[k] == RecordsOf(records, k)
    {
      keys, groups := [], map[];
      for i := 0 to |records|
        invariant keys == HoursOf(records[..i]) && forall k :: k in groups <==> k in keys
        invariant forall k :: k in groups ==> groups[k] == RecordsOf(records[..i], k)
      {
        var k := KeyOf(records[i]);
        assert records[..i + 1] == records[..i] + [records[i]];
        forall k' ensures RecordsOf(records[..i + 1], k') == RecordsOf(records[..i], k') + if k' == k then [records[i]] else [] {
          RecordsOfConcat(records[..i], [records[i]], k');
          assert RecordsOf([records[i]], k') == if k' == k then [records[i]] else [];
        }
        HoursOfExact(records[..i]);
        assert records[..i + 1][..i] == records[..i];
        if k !in groups {
          keys, groups := keys + [k], groups[k := []];
        }
        groups := groups[k := groups[k] + [records[i]]];
      }
      assert records[..|records|] == records;
    }

    /** The members one hour's records become, flushed one after the other. */
    static method StageHour(z: Codec, hours: map<Key, Entry>, index: map<Key, Index>, k: Key, records: seq<Record>, cap: nat,
                            fileId: nat, name: nat) returns (c: Change, own: map<nat, Bytes>)
      ensures c == AppendChange(z, k, Lookup(hours, k), if k in index then index[k] else [], records, cap, fileId, name)
      ensures own == Blobs(z, 1, StagedPieces(records, cap), name)
      ensures |c.stages| == |StagedPieces(records, cap)|
    {
      hide Pack, PieceOf, StagedLeft, Grow, PieceIndex;
      var groups := PackLoop(records, LineSize, cap);
      PackExact(records, LineSize, [], cap);
      ghost var pieces := PiecesOf(groups);
      var before := Lookup(hours, k);
      var was := if before.Some? && k in index then index[k] else [];
      var after := if before.Some? then before.value else Entry(fileId, 0, 0, 0, 0, 0, false);
      ghost var first := after;
      var members := was;
      var stages: seq<nat> := [];
      own := map[];
      StagedFirst(z, pieces, first, was, name);
      for i := 0 to |groups|
        invariant StagedLeft(z, pieces, first, was, name, i, after, members, stages, own)
      {
        var piece := PieceOf(groups[i]);
        StagedMore(z, pieces, first, was, name, i, after, members, stages, own);
        var member := MemberAt(z, 1, piece, after.size);
        after, members := GrowOne(z, 1, after, piece), members + [member];
        stages, own := stages + [name + i], own[name + i := z.zip(1, piece.text)];
      }
      StagedLast(z, pieces, first, was, name, after, members, stages, own);
      c := Change(k, before, was, after, members, stages, None);
    }

    static method StageNext(z: Codec, hours: map<Key, Entry>, index: map<Key, Index>, mine: seq<Record>, ghost records: seq<Record>,
                            ghost keys: seq<Key>, cap: nat, fileId: nat, next: nat, ghost rest: Batch, k: Key)
      returns (c: Change, own: map<nat, Bytes>, ghost later: Batch)
      requires keys != [] && rest == Stage(z, hours, index, records, keys, cap, fileId, next)
      requires k == keys[0] && mine == RecordsOf(records, k)
      ensures later == Stage(z, hours, index, records, keys[1..], cap, fileId + 1, next + |c.stages|)
      ensures rest == Batch([c] + later.changes, later.blobs + own)
    {
      c, own := StageHour(z, hours, index, k, mine, cap, fileId, next);
      later := StageFrom(z, hours, index, records, keys, cap, fileId, next, rest, c, own);
    }

    static method StageGroups(z: Codec, hours: map<Key, Entry>, index: map<Key, Index>, keys: seq<Key>,
                              groups: map<Key, seq<Record>>, ghost records: seq<Record>, cap: nat, fileId: nat, name: nat)
      returns (b: Batch)
      requires forall i :: 0 <= i < |keys| ==> keys[i] in groups && groups[keys[i]] == RecordsOf(records, keys[i])
      ensures b == Stage(z, hours, index, records, keys, cap, fileId, name)
    {
      hide Prepend, Pack, PackOpen, MemberAt, PieceIndex, PieceOf, PiecesOf, Grow, Blobs, Names;
      var id: nat, next: nat := fileId, name;
      b := Batch([], map[]);
      ghost var all := Stage(z, hours, index, records, keys, cap, fileId, name);
      ghost var rest, left := all, keys;
      PrependNone(all);
      for i := 0 to |keys|
        invariant left == keys[i..] && rest == Stage(z, hours, index, records, left, cap, id, next)
        invariant all == Prepend(b, rest)
      {
        var c, own;
        ghost var later;
        c, own, later := StageNext(z, hours, index, groups[keys[i]], records, left, cap, id, next, rest, keys[i]);
        PrependMore(b, c, own, later);
        b, id, next := Batch(b.changes + [c], own + b.blobs), id + 1, next + |c.stages|;
        rest, left := later, left[1..];
      }
      PrependNone(b);
    }

    method StageBatch(records: seq<Record>, fileId: nat, name: nat) returns (b: Batch)
      requires disk.catalog == Some(catalog)
      ensures b == CommitBatch(z, disk, records, cap, fileId, name)
    {
      var hours, index := catalog.hours, disk.index;
      var keys, groups := Group(records);
      b := StageGroups(z, hours, index, keys, groups, records, cap, fileId, name);
    }

    /** A commit: refused if an offset would go back, failed for good if a record is not one
        line of a known source or the process dies, otherwise done. */
    method Commit(records: seq<Record>, generations: map<string, Generation>, txn: nat, fileId: nat, name: nat) returns (r: Ending)
      requires Ready() && txn != checkpoint.txn
      modifies this
      ensures r.Refused? <==> !Advances(old(checkpoint).generations, generations)
      ensures r.Refused? ==> Ready() && disk == old(disk) && checkpoint == old(checkpoint)
      ensures !r.Refused? && !Acceptable(records, retention.Keys) ==> r.Died? && disk == old(disk)
      ensures !r.Refused? && Acceptable(records, retention.Keys) ==>
                var b := CommitBatch(z, old(disk), records, cap, fileId, name);
                var p := CommitTx(old(disk), b.changes, generations, txn);
                && TxOk(z, old(disk), p, b.blobs) && disk == old(Outcome(TxOps(p, b.blobs)))
                && (r.Done? <==> old(fuel) >= |TxOps(p, b.blobs)|)
      ensures r.Done? ==> Ready() && checkpoint == Checkpoint(txn, old(checkpoint).generations + generations)
      ensures r.Done? ==> forall k :: HourText(z, disk, k) == old(HourText(z, disk, k)) + Flatten(Raws(RecordsOf(records, k)))
      ensures r.Died? ==> failed
    {
      if !Advances(checkpoint.generations, generations) {
        return Refused;
      }
      failed := true;
      if !Acceptable(records, retention.Keys) {
        return Ending.Died;
      }
      CommitTxOk(z, disk, records, generations, txn, cap, fileId, name);
      ghost var before := disk;
      var b := StageBatch(records, fileId, name);
      var p := CommitTx(disk, b.changes, generations, txn);
      var ok := Publish(p, b.blobs);
      if !ok {
        return Ending.Died;
      }
      RunToEnd(before, TxOps(p, b.blobs), old(fuel), torn);
      FinishedEffect(z, before, p, b.blobs);
      forall k
        ensures k in disk.data && k in disk.index ==> Decodes(z, disk.data[k], disk.index[k])
        ensures HourText(z, disk, k) == HourText(z, before, k) + Flatten(Raws(RecordsOf(records, k)))
      {
        CommitText(z, before, records, generations, txn, cap, fileId, name, disk, k);
      }
      return Done;
    }

    // ---------- expiry ----------

    method ExpiredKeys(now: int) returns (keys: seq<Key>)
      ensures forall k :: k in keys <==> k in catalog.hours && Expired(retention, k, catalog.hours[k], now)
    {
      keys := [];
      var todo := catalog.hours.Keys;
      while todo != {}
        invariant todo <= catalog.hours.Keys
        invariant forall k :: k in keys <==> k in catalog.hours && k !in todo && Expired(retention, k, catalog.hours[k], now)
        decreases todo
      {
        var k :| k in todo;
        todo := todo - {k};
        if Expired(retention, k, catalog.hours[k], now) {
          keys := keys + [k];
        }
      }
    }

    method RunExpiry(p: Pending) returns (ok: bool)
      requires p.Delete?
      modifies this
      ensures disk == old(Outcome(TxOps(p, map[])))
      ensures ok <==> old(fuel) >= |TxOps(p, map[])|
      ensures if ok then !failed && catalog == p.afterCat else failed
      ensures checkpoint == old(checkpoint)
    {
      failed := true;
      ghost var tail := DeleteOps(p.keys) + (Finish(p) + []);
      assert TxOps(p, map[]) == [PutPending(p)] + ([PutCatalog(p.afterCat)] + tail);
      ok := Step(PutPending(p), [PutCatalog(p.afterCat)] + tail);
      if !ok { return; }
      ok := Step(PutCatalog(p.afterCat), tail);
      if !ok { return; }
      catalog := p.afterCat;
      ok := DeleteFiles(p.keys, Finish(p) + []);
      if !ok { return; }
      ok := FinishPending(p, []);
      failed := !ok;
    }

    /** The hours whose newest line has outlived its retention are deleted, and no others. */
    method Expire(now: int) returns (ok: bool, keys: seq<Key>)
      requires Ready()
      modifies this
      ensures forall k :: k in keys <==> k in old(catalog).hours && Expired(retention, k, old(catalog).hours[k], now)
      ensures keys == [] ==> ok && disk == old(disk)
      ensures keys != [] ==> TxOk(z, old(disk), ExpireTx(old(disk), keys), map[])
      ensures keys != [] ==> disk == old(Outcome(TxOps(ExpireTx(disk, keys), map[])))
      ensures keys != [] ==> (ok <==> old(fuel) >= |TxOps(ExpireTx(old(disk), keys), map[])|)
      ensures ok ==> Ready() && catalog.hours == old(catalog).hours - (set k | k in keys) && checkpoint == old(checkpoint)
      ensures ok ==> forall k :: HourText(z, disk, k) == if k in keys then [] else old(HourText(z, disk, k))
      ensures !ok ==> failed
    {
      keys := ExpiredKeys(now);
      if keys == [] {
        assert catalog.hours - (set k | k in keys) == catalog.hours;
        return true, keys;
      }
      ghost var before := disk;
      var p := ExpireTx(disk, keys);
      ok := RunExpiry(p);
      if ok {
        RunToEnd(before, TxOps(p, map[]), old(fuel), torn);
        FinishedEffect(z, before, p, map[]);
      }
    }

    // ---------- publishing a compaction ----------

    /** The disk once the rebuilt hour has been published, or as far as the process gets with it. */
    ghost function Compacted(k: Key, before: Entry, index: Index, pieces: seq<Piece>, fileId: nat, txn: nat, temp: nat, backup: nat): Disk
      requires Compacts(z, disk, k, before, index, pieces, fileId, txn, temp, backup)
      reads this
    {
      hide TxOps, TxOk, Outcome;
      Outcome(TxOps(CompactTx(z, disk, k, before, index, pieces, fileId, txn, temp, backup), map[temp := Packed(z, 6, pieces)]))
    }

    /** The disk operations of the publication. */
    ghost function CompactingOps(k: Key, before: Entry, index: Index, pieces: seq<Piece>, fileId: nat, txn: nat, temp: nat, backup: nat): nat
      requires Compacts(z, disk, k, before, index, pieces, fileId, txn, temp, backup)
      reads this
    {
      hide TxOps, TxOk;
      |TxOps(CompactTx(z, disk, k, before, index, pieces, fileId, txn, temp, backup), map[temp := Packed(z, 6, pieces)])|
    }

    /** The guarded publication: only an hour that is still the one that was read is replaced.  `t` is the
        history of the archive so far, and `act` the compaction: what it chose and read in that history. */
    method PublishCompaction(ghost clock: Clock, ghost t: Trace, ghost act: Action, k: Key, before: Entry, index: Index, pieces: seq<Piece>,
                             fileId: nat, txn: nat, temp: nat, backup: nat)
      returns (ok: bool, replaced: bool)
      requires Ready() && act.Compact? && Rebuilding(z, clock, t, act, disk, k, before, index, pieces)
      requires act.fileId == fileId && act.txn == txn && act.temp == temp && act.backup == backup
      modifies this
      ensures replaced <==> Unchanged(old(disk), before, k)
      ensures !replaced ==> ok && disk == old(disk)
      ensures replaced ==> Compacts(z, old(disk), k, before, index, pieces, fileId, txn, temp, backup)
      ensures replaced ==> disk == old(Compacted(k, before, index, pieces, fileId, txn, temp, backup))
      ensures replaced ==> (ok <==> old(fuel) >= old(CompactingOps(k, before, index, pieces, fileId, txn, temp, backup)))
      ensures ok ==> Ready() && Ranged(z, clock, disk) && forall k' :: HourText(z, disk, k') == old(HourText(z, disk, k'))
      ensures !ok ==> failed
    {
      hide Ranged, AfterView, Decodes, TextOf, Rebuild, Packed, PieceIndex, PieceText, TxOps, Reread, Run, RunAll, HourText, TxOk, Shaped, Valid;
      replaced := k in catalog.hours && catalog.hours[k].fileId == before.fileId && catalog.hours[k].size == before.size;
      assert replaced <==> Unchanged(disk, before, k);
      assert Ranged(z, clock, disk) by { assert t.disks[|t.disks| - 1] == disk; }
      if !replaced {
        return true, false;
      }
      ghost var d := disk;
      CompactStep(z, clock, t, act);
      var p := CompactTx(z, disk, k, before, index, pieces, fileId, txn, temp, backup);
      var blobs := map[temp := Packed(z, 6, pieces)];
      assert TxFor(z, t, act) == (p, blobs);
      EventTx(z, d, p, blobs, Ids(t));
      ok := Publish(p, blobs);
      if ok {
        RunToEnd(d, TxOps(p, blobs), old(fuel), torn);
        FinishedEffect(z, d, p, blobs);
        ViewOf(d, p, blobs, disk);
      }
    }

    // ---------- reopening ----------

    /** The method has followed the plan to its end, to a refusal, or to the process's death. */
    twostate predicate Followed(plan: Plan, rest: seq<Op>, r: Ending)
      reads this
    {
      && (r.Died? <==> old(fuel) < |plan.ops|) && (r.Done? ==> plan.ok) && (r.Refused? ==> !plan.ok)
      && (!r.Died? ==> disk == RunAll(old(disk), plan.ops) && fuel == old(fuel) - |plan.ops|)
      && (r.Done? ==> Outcome(rest) == old(Outcome(plan.ops + rest)))
      && (r.Died? ==> disk == old(Outcome(plan.ops + rest)))
    }

    /** Two operations in a row. */
    method StepTwo(a: Op, b: Op, ghost rest: seq<Op>) returns (ok: bool)
      modifies this`disk, this`fuel
      ensures Did([a, b], rest, ok)
    {
      assert [a, b] + rest == [a] + ([b] + rest);
      RunTwo(disk, a, b);
      ok := Step(a, [b] + rest);
      if ok {
        ok := Step(b, rest);
      }
    }

    /** Taking one hour back to its old version. */
    method Undo(c: Change, compact: bool, ghost rest: seq<Op>) returns (r: Ending)
      modifies this`disk, this`fuel
      ensures Followed(UndoChange(old(disk), c, compact), rest, r)
    {
      assert [] + rest == rest;
      var ok;
      if compact {
        if c.backup.None? || c.backup.value !in disk.staging { return Refused; }
        ok := StepTwo(Restore(c.backup.value, c.key), PutIndex(c.key, c.beforeIndex), rest);
      } else if c.before.Some? {
        if c.key !in disk.data || |disk.data[c.key]| < c.before.value.size { return Refused; }
        ok := StepTwo(Truncate(c.key, c.before.value.size), PutIndex(c.key, c.beforeIndex), rest);
      } else {
        ok := StepTwo(Unlink(c.key), RmIndex(c.key), rest);
      }
      return if ok then Ending.Done else Ending.Died;
    }

    /** Of the rollback `all`, planned when the method began, `left` is still to be done. */
    twostate predicate Undoing(left: Plan, all: Plan, rest: seq<Op>)
      reads this
    {
      && left.ok == all.ok && fuel + |all.ops| == old(fuel) + |left.ops|
      && RunAll(disk, left.ops) == RunAll(old(disk), all.ops)
      && Outcome(left.ops + rest) == old(Outcome(all.ops + rest))
    }

    method UndoAll(cs: seq<Change>, compact: bool, ghost rest: seq<Op>) returns (r: Ending)
      modifies this`disk, this`fuel
      ensures Followed(Rollback(old(disk), cs, compact), rest, r)
    {
      hide Rollback, UndoChange, RunAll, Opens;
      ghost var all := Rollback(disk, cs, compact);
      assert cs[0..] == cs;
      for i := 0 to |cs|
        invariant Undoing(Rollback(disk, cs[i..], compact), all, rest)
      {
        ghost var u := UndoChange(disk, cs[i], compact);
        ghost var later := Rollback(RunAll(disk, u.ops), cs[i + 1..], compact);
        RollbackStep(disk, cs, i, compact, u, later, rest);
        r := Undo(cs[i], compact, later.ops + rest);
        if !r.Done? { return; }
      }
      assert [] + rest == rest && cs[|cs|..] == [];
      RunNone(disk, compact);
      r := Done;
    }

    /** The size, index and decoding checks before rolling forward. */
    method VerifyChanges(cs: seq<Change>) returns (ok: bool)
      ensures ok <==> forall i :: 0 <= i < |cs| ==> Verified(z, disk, cs[i])
    {
      for i := 0 to |cs|
        invariant forall j :: 0 <= j < i ==> Verified(z, disk, cs[j])
      {
        if !Verified(z, disk, cs[i]) { return false; }
      }
      return true;
    }

    method Recover(p: Pending, ghost rest: seq<Op>) returns (r: Ending)
      requires disk.checkpoint.Some?
      modifies this`disk, this`fuel
      ensures Followed(ArchiveJournal.Recover(z, old(disk), p), rest, r)
    {
      assert [] + rest == rest;
      var ok;
      if p.Delete? {
        if disk.checkpoint.value.txn != p.txn { return Refused; }
        ok := RecoverDelete(p, rest);
      } else if disk.checkpoint.value.txn == p.txn {
        if disk.catalog != Some(p.afterCat) || disk.checkpoint != Some(p.afterCp) { return Refused; }
        var verified := VerifyChanges(p.changes);
        if !verified { return Refused; }
        ok := FinishPending(p, rest);
      } else if disk.checkpoint.value.txn == p.previous {
        if disk.checkpoint != Some(p.beforeCp) { return Refused; }
        r := RecoverBack(p, rest);
        return;
      } else {
        return Refused;
      }
      return if ok then Ending.Done else Ending.Died;
    }

    method RecoverDelete(p: Pending, ghost rest: seq<Op>) returns (ok: bool)
      requires p.Delete?
      modifies this`disk, this`fuel
      ensures Did(([PutCatalog(p.afterCat)] + DeleteOps(p.keys)) + Finish(p), rest, ok)
    {
      ghost var put := [PutCatalog(p.afterCat)];
      assert ((put + DeleteOps(p.keys)) + Finish(p)) + rest == put + (DeleteOps(p.keys) + (Finish(p) + rest));
      RunAllConcat(disk, put + DeleteOps(p.keys), Finish(p));
      RunHead(disk, PutCatalog(p.afterCat), DeleteOps(p.keys));
      ok := Step(PutCatalog(p.afterCat), DeleteOps(p.keys) + (Finish(p) + rest));
      if !ok { return; }
      ok := DeleteFiles(p.keys, Finish(p) + rest);
      if !ok { return; }
      ok := FinishPending(p, rest);
    }

    method RecoverBack(p: Pending, ghost rest: seq<Op>) returns (r: Ending)
      requires p.Publish?
      modifies this`disk, this`fuel
      ensures var u := Rollback(old(disk), p.changes, p.compact);
        Followed(if u.ok then Plan((u.ops + [PutCatalog(p.beforeCat)]) + Finish(p), true) else u, rest, r)
    {
      ghost var u := Rollback(disk, p.changes, p.compact);
      ghost var put := [PutCatalog(p.beforeCat)];
      ghost var want := if u.ok then put + (Finish(p) + rest) else rest;
      assert ((u.ops + put) + Finish(p)) + rest == u.ops + (put + (Finish(p) + rest));
      RunAllConcat(disk, u.ops + put, Finish(p));
      RunAllConcat(disk, u.ops, put);
      RunHead(RunAll(disk, u.ops), PutCatalog(p.beforeCat), []);
      r := UndoAll(p.changes, p.compact, want);
      if !r.Done? { return; }
      var ok := Step(PutCatalog(p.beforeCat), Finish(p) + rest);
      if !ok { return Ending.Died; }
      ok := FinishPending(p, rest);
      return if ok then Ending.Done else Ending.Died;
    }

    method CheckHours(c: Catalog) returns (ok: bool)
      ensures ok <==> forall k :: k in c.hours ==> HourOk(disk, k, c.hours[k])
    {
      var todo := c.hours.Keys;
      while todo != {}
        invariant todo <= c.hours.Keys
        invariant forall k :: k in c.hours && k !in todo ==> HourOk(disk, k, c.hours[k])
        decreases todo
      {
        var k :| k in todo;
        todo := todo - {k};
        if !HourOk(disk, k, c.hours[k]) { return false; }
      }
      return true;
    }

    /** init. */
    method Init() returns (r: Ending)
      modifies this
      ensures Followed(InitPlan(z, old(disk)), [], r)
      ensures if r.Done? then !failed && disk.catalog == Some(catalog) && disk.checkpoint == Some(checkpoint) && Opens(disk) else failed
    {
      failed := true;
      if (disk.catalog.None? || disk.catalog == Some(NoHours)) && disk.checkpoint.None? && disk.pending.None? {
        if disk.data != map[] { return Refused; }
        r := InitEmpty();
      } else if disk.checkpoint.None? {
        return Refused;
      } else {
        r := Reopen();
      }
      if r.Done? {
        failed, catalog, checkpoint := false, disk.catalog.value, disk.checkpoint.value;
      }
    }

    method InitEmpty() returns (r: Ending)
      modifies this`disk, this`fuel
      ensures Followed(Plan([PutCatalog(NoHours), PutCheckpoint(NoOffsets), Sweep(old(disk).staging.Keys)], true), [], r)
      ensures r.Done? ==> Opens(disk)
    {
      ghost var names := disk.staging.Keys;
      assert [PutCatalog(NoHours), PutCheckpoint(NoOffsets), Sweep(names)] + []
          == [PutCatalog(NoHours), PutCheckpoint(NoOffsets)] + [Sweep(names)];
      RunAllConcat(disk, [PutCatalog(NoHours), PutCheckpoint(NoOffsets)], [Sweep(names)]);
      RunTwo(disk, PutCatalog(NoHours), PutCheckpoint(NoOffsets));
      RunHead(RunAll(disk, [PutCatalog(NoHours), PutCheckpoint(NoOffsets)]), Sweep(names), []);
      var ok := StepTwo(PutCatalog(NoHours), PutCheckpoint(NoOffsets), [Sweep(names)]);
      if !ok { return Ending.Died; }
      assert [Sweep(names)] + [] == [Sweep(names)];
      ok := Step(Sweep(disk.staging.Keys), []);
      return if ok then Ending.Done else Ending.Died;
    }

    method Reopen() returns (r: Ending)
      requires disk.checkpoint.Some?
      requires !((disk.catalog.None? || disk.catalog == Some(NoHours)) && disk.checkpoint.None? && disk.pending.None?)
      modifies this`disk, this`fuel
      ensures Followed(InitPlan(z, old(disk)), [], r)
      ensures r.Done? ==> Opens(disk)
    {
      hide Splice, Tiles, EndOf, LinesOf, IndexOk, Decodes, StageRms, DeleteOps, Unverified, Verified, Rollback;
      ghost var plan := if disk.pending.Some? then ArchiveJournal.Recover(z, disk, disk.pending.value) else Plan([], true);
      ghost var d := RunAll(disk, plan.ops);
      ghost var last := if plan.ok && Opens(d) then [Sweep(d.staging.Keys)] else [];
      assert InitPlan(z, disk).ops == plan.ops + last;
      assert plan.ops + last + [] == plan.ops + last && last + [] == last && [] + last == last;
      RunAllConcat(disk, plan.ops, last);
      r := Done;
      if disk.pending.Some? {
        r := Recover(disk.pending.value, last);
        if !r.Done? { return; }
      }
      assert disk == d;
      if disk.catalog.None? || disk.checkpoint.None? || disk.catalog.value.txn != disk.checkpoint.value.txn { return Refused; }
      var ok := CheckHours(disk.catalog.value);
      if !ok { return Refused; }
      RunHead(disk, Sweep(disk.staging.Keys), []);
      ok := Step(Sweep(disk.staging.Keys), []);
      return if ok then Ending.Done else Ending.Died;
    }
  }

  /** A rollback is the undoing of its first change, and the rollback of the others. */
  lemma RollbackStep(d: Disk, cs: seq<Change>, i: nat, compact: bool, u: Plan, later: Plan, rest: seq<Op>)
    requires i < |cs| && u == UndoChange(d, cs[i], compact) && later == Rollback(RunAll(d, u.ops), cs[i + 1..], compact)
    ensures Rollback(d, cs[i..], compact) == if u.ok then Plan(u.ops + later.ops, later.ok) else u
    ensures (u.ops + later.ops) + rest == u.ops + (later.ops + rest) && RunAll(d, u.ops + later.ops) == RunAll(RunAll(d, u.ops), later.ops)
    ensures !u.ok ==> u.ops == [] && RunAll(d, []) == d
  {
    hide Apply;
    assert cs[i..][1..] == cs[i + 1..] && cs[i..][0] == cs[i];
    RunAllConcat(d, u.ops, later.ops);
  }

  lemma RunNone(d: Disk, compact: bool)
    ensures RunAll(d, []) == d && Rollback(d, [], compact) == Plan([], true)
  {}

  datatype Ending = Done | Died | Refused

  lemma ViewOf(d: Disk, p: Pending, blobs: map<nat, Bytes>, after: Disk)
    requires p.Publish? && Shaped(p, blobs) && Visible(after) == AfterView(d, p, blobs)
    ensures after.catalog == Some(p.afterCat) && after.checkpoint == Some(p.afterCp)
  {}

  lemma EventTx(z: Codec, d: Disk, p: Pending, blobs: map<nat, Bytes>, used: set<nat>)
    requires Valid(d) && EventOk(z, d, Finished(p, blobs), used)
    ensures TxOk(z, d, p, blobs) && Shaped(p, blobs) && (p.Publish? ==> d.checkpoint == Some(p.beforeCp) && d.catalog == Some(p.beforeCat))
  {}

  /** An hour is deleted only when every dated line in it has outlived its retention. */
  lemma ExpiredIsOld(z: Codec, clock: Clock, d: Disk, retention: map<string, int>, k: Key, now: int, i: nat, j: nat)
    requires Readable(z, d) && HourEntry(d, k).Some? && HourRanged(z, clock, d, k) && Expired(retention, k, HourEntry(d, k).value, now)
    requires i < |d.index[k]| && MemberDecodes(z, d.data[k], d.index[k][i]) && j < |Split(MemberText(z, d.data[k], d.index[k][i]))|
    ensures var t := clock(k.source, Split(MemberText(z, d.data[k], d.index[k][i]))[j]); t.Some? ==> t.value + retention[k.source] * DAY < now
  {
    GreatestBounds(d.index[k], i);
    assert MemberRanged(z, clock, k.source, d.data[k], d.index[k][i]);
  }

  const DAY := 86400000

  /** An hour without undated lines goes exactly when all of its lines have outlived their retention; and whatever is
      in it, it goes at the latest when the end of the hour has. */
  lemma ExpiresExactly(z: Codec, clock: Clock, d: Disk, retention: map<string, int>, k: Key, now: int)
    requires Readable(z, d) && HourEntry(d, k).Some? && HourRanged(z, clock, d, k) && k.source in retention
    ensures var lines := Split(HourText(z, d, k)); HourEntry(d, k).value.unknown == 0 ==>
      (Expired(retention, k, HourEntry(d, k).value, now) <==> AllOutlived(clock, k.source, lines, retention[k.source] * DAY, now))
    ensures (k.hour + 1) * HOUR + retention[k.source] * DAY <= now ==> Expired(retention, k, HourEntry(d, k).value, now)
  {
    hide TextOf, Split, Decodes, MembersRanged, LeastTime, GreatestTime, UnknownsOf, Undated, Flatten;
    GroupRanged(z, clock, k.source, d.data[k], d.index[k]);
    var e, lines := HourEntry(d, k).value, Split(HourText(z, d, k));
    if e.unknown == 0 {
      AllDated(clock, k.source, lines);
      var i :| 0 <= i < |lines| && clock(k.source, lines[i]) == Some(e.maxTime);
      assert forall j :: 0 <= j < |lines| ==> Within(clock(k.source, lines[j]), e.minTime, e.maxTime);
      LatestOutlived(clock, k.source, lines, e.minTime, e.maxTime, i, retention[k.source] * DAY, now);
    }
  }

  /** Every line shows a time, and that is longer ago than it is to be kept. */
  predicate AllOutlived(clock: Clock, source: string, lines: seq<Bytes>, keep: int, now: int) {
    forall j {:trigger lines[j]} :: 0 <= j < |lines| ==> clock(source, lines[j]).Some? && clock(source, lines[j]).value + keep < now
  }

  lemma LatestOutlived(clock: Clock, source: string, lines: seq<Bytes>, lo: int, hi: int, i: nat, keep: int, now: int)
    requires i < |lines| && clock(source, lines[i]) == Some(hi)
    requires forall j {:trigger lines[j]} :: 0 <= j < |lines| ==> clock(source, lines[j]).Some? && Within(clock(source, lines[j]), lo, hi)
    ensures AllOutlived(clock, source, lines, keep, now) <==> hi + keep < now
  {}

  lemma {:induction false} GreatestBounds(ix: Index, i: nat)
    requires i < |ix|
    ensures ix[i].maxTime <= GreatestTime(ix) && LeastTime(ix) <= ix[i].minTime
  {
    if |ix| > 1 {
      GreatestBounds(ix[1..], if i > 0 then i - 1 else 0);
    }
  }

  /** After `i` members of an hour were flushed: what they add up to, and that the others will complete it. */
  predicate StagedLeft(z: Codec, pieces: seq<Piece>, first: Entry, was: Index, name: nat, i: nat,
                       after: Entry, members: Index, stages: seq<nat>, own: map<nat, Bytes>)
  {
    && i <= |pieces| && stages == Names(name, i) && (forall n {:trigger n in own} :: n in own ==> n < name + i)
    && Grow(z, 1, after, pieces[i..]) == Grow(z, 1, first, pieces)
    && members + PieceIndex(z, 1, pieces[i..], after.size) == was + PieceIndex(z, 1, pieces, first.size)
    && Blobs(z, 1, pieces[i..], name + i) + own == Blobs(z, 1, pieces, name)
  }

  lemma StagedFirst(z: Codec, pieces: seq<Piece>, first: Entry, was: Index, name: nat)
    ensures StagedLeft(z, pieces, first, was, name, 0, first, was, [], map[])
  {
    assert pieces[0..] == pieces;
  }

  lemma StagedMore(z: Codec, pieces: seq<Piece>, first: Entry, was: Index, name: nat, i: nat,
                   after: Entry, members: Index, stages: seq<nat>, own: map<nat, Bytes>)
    requires StagedLeft(z, pieces, first, was, name, i, after, members, stages, own) && i < |pieces|
    ensures StagedLeft(z, pieces, first, was, name, i + 1, GrowOne(z, 1, after, pieces[i]), members + [MemberAt(z, 1, pieces[i], after.size)],
                       stages + [name + i], own[name + i := z.zip(1, pieces[i].text)])
  {
    var m, rest := MemberAt(z, 1, pieces[i], after.size), pieces[i + 1..];
    assert pieces[i..][1..] == rest;
    assert members + ([m] + PieceIndex(z, 1, rest, m.end)) == members + [m] + PieceIndex(z, 1, rest, m.end);
    var b, blob := Blobs(z, 1, rest, name + i + 1), z.zip(1, pieces[i].text);
    assert b[name + i := blob] + own == b + own[name + i := blob];
  }

  lemma StagedLast(z: Codec, pieces: seq<Piece>, first: Entry, was: Index, name: nat, after: Entry, members: Index, stages: seq<nat>, own: map<nat, Bytes>)
    requires StagedLeft(z, pieces, first, was, name, |pieces|, after, members, stages, own)
    ensures after == Grow(z, 1, first, pieces) && members == was + PieceIndex(z, 1, pieces, first.size)
    ensures stages == Names(name, |pieces|) && own == Blobs(z, 1, pieces, name)
  {
    assert pieces[|pieces|..] == [];
    assert members + [] == members && map[] + own == own;
  }

  /** The staged changes so far, in front of those still to come. */
  function Prepend(b: Batch, later: Batch): Batch { Batch(b.changes + later.changes, later.blobs + b.blobs) }

  lemma PrependMore(b: Batch, c: Change, own: map<nat, Bytes>, later: Batch)
    ensures Prepend(b, Batch([c] + later.changes, later.blobs + own)) == Prepend(Batch(b.changes + [c], own + b.blobs), later)
  {
    assert b.changes + ([c] + later.changes) == b.changes + [c] + later.changes;
    assert (later.blobs + own) + b.blobs == later.blobs + (own + b.blobs);
  }

  lemma PrependNone(b: Batch)
    ensures Prepend(Batch([], map[]), b) == b == Prepend(b, Batch([], map[]))
  {
    assert [] + b.changes == b.changes == b.changes + [];
    assert b.blobs + map[] == b.blobs == map[] + b.blobs;
  }

  lemma StageFrom(z: Codec, hours: map<Key, Entry>, index: map<Key, Index>, records: seq<Record>, keys: seq<Key>,
                  cap: nat, fileId: nat, next: nat, rest: Batch, c: Change, own: map<nat, Bytes>) returns (later: Batch)
    requires keys != [] && rest == Stage(z, hours, index, records, keys, cap, fileId, next)
    requires c == AppendChange(z, keys[0], Lookup(hours, keys[0]), if keys[0] in index then index[keys[0]] else [],
                               RecordsOf(records, keys[0]), cap, fileId, next)
    requires own == Blobs(z, 1, StagedPieces(RecordsOf(records, keys[0]), cap), next)
    requires |c.stages| == |StagedPieces(RecordsOf(records, keys[0]), cap)|
    ensures later == Stage(z, hours, index, records, keys[1..], cap, fileId + 1, next + |c.stages|)
    ensures rest.changes == [c] + later.changes && rest.blobs == later.blobs + own
  {
    hide Flatten, Pack, PackOpen, MemberAt, PieceIndex, TimeOf, KeyOf, RecordsOf, Raws, Least, Greatest, Unknowns, PieceOf, PiecesOf, StagedPieces, Grow, Blobs, Names, AppendChange, Lookup;
    later := Stage(z, hours, index, records, keys[1..], cap, fileId + 1, next + |c.stages|);
  }

  predicate Holds(d: Disk, blobs: map<nat, Bytes>, stages: seq<nat>) {
    forall n :: n in stages ==> n in blobs && n in d.staging && d.staging[n] == blobs[n]
  }

  lemma {:induction false} StagePutsThere(d: Disk, stages: seq<nat>, blobs: map<nat, Bytes>)
    requires forall n :: n in stages ==> n in blobs
    ensures var e := RunAll(d, StagePuts(stages, blobs));
      && Holds(e, blobs, stages)
      && forall n :: n in d.staging && n in blobs && d.staging[n] == blobs[n] ==> n in e.staging && e.staging[n] == blobs[n]
    decreases stages
  {
    if stages != [] {
      StagePutsThere(Apply(d, StagePut(stages[0], blobs[stages[0]])), stages[1..], blobs);
      assert StagePuts(stages, blobs)[1..] == StagePuts(stages[1..], blobs);
    }
  }

  /** Once staged, every change's files are there. */
  lemma {:induction false} StagedThere(d: Disk, cs: seq<Change>, blobs: map<nat, Bytes>)
    requires Staged(cs, blobs)
    ensures var e := RunAll(d, StageOps(cs, blobs));
      && (forall i :: 0 <= i < |cs| ==> Holds(e, blobs, cs[i].stages))
      && forall n :: n in d.staging && n in blobs && d.staging[n] == blobs[n] ==> n in e.staging && e.staging[n] == blobs[n]
    decreases cs
  {
    if cs != [] {
      var ops := StagePuts(cs[0].stages, blobs);
      assert Staged(cs[1..], blobs);
      StagePutsThere(d, cs[0].stages, blobs);
      RunAllConcat(d, ops, StageOps(cs[1..], blobs));
      StagedThere(RunAll(d, ops), cs[1..], blobs);
      assert forall i :: 0 < i < |cs| ==> cs[i] == cs[1..][i - 1];
    }
  }
}
