/** Crash atomicity: however often the process dies, reopening gives the archive as it was
    before the transaction or as it was meant to be after it. */
module ArchiveCrash {
  import opened Options
  import opened ArchiveTypes
  import opened ArchiveDisk
  import opened ArchiveJournal

  // ---------- phases of an interrupted transaction ----------

  predicate Touches(cs: seq<Change>, k: Key) {
    exists i :: 0 <= i < |cs| && cs[i].key == k
  }

  /** The old version of the hour can still be brought back. */
  predicate Restorable(d: Disk, base: Disk, c: Change, compact: bool) {
    if compact then
      c.before.Some? && c.key in base.data && c.backup.Some? && c.backup.value in d.staging && d.staging[c.backup.value] == base.data[c.key]
    else if c.before.Some? then
      c.key in d.data && c.key in base.data && |base.data[c.key]| == c.before.value.size <= |d.data[c.key]|
      && d.data[c.key][..c.before.value.size] == base.data[c.key]
    else c.key !in base.data && c.key !in base.index
  }

  predicate SameAt(d: Disk, base: Disk, k: Key) {
    && (k in d.data <==> k in base.data) && (k in d.data ==> d.data[k] == base.data[k])
    && (k in d.index <==> k in base.index) && (k in d.index ==> d.index[k] == base.index[k])
  }

  /** Journalled, not committed. */
  ghost predicate InFlight(d: Disk, base: Disk, p: Pending) {
    && p.Publish? && d.pending == Some(p)
    && d.checkpoint == base.checkpoint == Some(p.beforeCp) && base.catalog == Some(p.beforeCat)
    && (d.catalog == Some(p.beforeCat) || d.catalog == Some(p.afterCat))
    && (forall k :: !Touches(p.changes, k) ==> SameAt(d, base, k))
    && (forall i :: 0 <= i < |p.changes| ==> Restorable(d, base, p.changes[i], p.compact))
  }

  /** A journalled expiry: it can only go forward. */
  ghost predicate Deleting(d: Disk, base: Disk, p: Pending) {
    && p.Delete? && d.pending == Some(p) && d.checkpoint == base.checkpoint
    && (forall k :: k !in p.keys ==> SameAt(d, base, k))
  }

  /** Operations that keep an uncommitted transaction restorable. */
  predicate Harmless(op: Op, p: Pending)
    requires p.Publish?
  {
    match op
    case Create(k) => !p.compact && Touches(p.changes, k) && forall i :: 0 <= i < |p.changes| && p.changes[i].key == k ==> p.changes[i].before.None?
    case Write(k, at, _) => !p.compact && Touches(p.changes, k) && forall i :: 0 <= i < |p.changes| && p.changes[i].key == k ==> Lead(p.changes[i]) <= at
    case Truncate(k, n) => !p.compact && Touches(p.changes, k) && forall i :: 0 <= i < |p.changes| && p.changes[i].key == k ==> Lead(p.changes[i]) <= n
    case Unlink(k) => Touches(p.changes, k) && !p.compact && forall i :: 0 <= i < |p.changes| && p.changes[i].key == k ==> p.changes[i].before.None?
    case PutIndex(k, _) => Touches(p.changes, k)
    case RmIndex(k) => Touches(p.changes, k)
    case PutCatalog(c) => c == p.beforeCat || c == p.afterCat
    case Rename(n, k) => p.compact && Touches(p.changes, k) && forall i :: 0 <= i < |p.changes| ==> p.changes[i].backup != Some(n)
    case Restore(_, k) => p.compact && Touches(p.changes, k)
    case _ => false
  }

  predicate AllHarmless(ops: seq<Op>, p: Pending)
    requires p.Publish?
  {
    forall i :: 0 <= i < |ops| ==> Harmless(ops[i], p)
  }

  lemma HarmlessElsewhere(d: Disk, base: Disk, p: Pending, op: Op, k: Key)
    requires p.Publish? && Harmless(op, p) && !Touches(p.changes, k) && SameAt(d, base, k)
    ensures SameAt(Apply(d, op), base, k)
  {
    match op
    case Write(k', _, _) => assert k != k';
    case Truncate(k', _) => assert k != k';
    case Rename(_, k') => assert k != k';
    case Restore(_, k') => assert k != k';
    case _ =>
  }

  lemma HarmlessHere(d: Disk, base: Disk, p: Pending, op: Op, i: nat)
    requires p.Publish? && Harmless(op, p) && i < |p.changes| && Restorable(d, base, p.changes[i], p.compact)
    ensures Restorable(Apply(d, op), base, p.changes[i], p.compact)
  {
    var c := p.changes[i];
    match op
    case Write(k, at, b) =>
      if k == c.key && k in d.data && at <= |d.data[k]| {
        assert Lead(c) <= at;
        var f := Splice(d.data[k], at, b);
        assert f[..at] == d.data[k][..at];
        if c.before.Some? {
          assert f[..Lead(c)] == f[..at][..Lead(c)] == d.data[k][..Lead(c)];
        }
      }
    case Truncate(k, n) =>
      if k == c.key && k in d.data && n <= |d.data[k]| {
        assert Lead(c) <= n;
        assert c.before.Some? ==> d.data[k][..n][..Lead(c)] == d.data[k][..Lead(c)];
      }
    case _ =>
  }

  lemma HarmlessApply(d: Disk, base: Disk, p: Pending, op: Op)
    requires InFlight(d, base, p) && Harmless(op, p)
    ensures InFlight(Apply(d, op), base, p)
  {
    forall k | !Touches(p.changes, k) ensures SameAt(Apply(d, op), base, k) {
      HarmlessElsewhere(d, base, p, op, k);
    }
    forall i | 0 <= i < |p.changes| ensures Restorable(Apply(d, op), base, p.changes[i], p.compact) {
      HarmlessHere(d, base, p, op, i);
    }
  }

  lemma HarmlessStep(d: Disk, base: Disk, p: Pending, op: Op, torn: nat)
    requires InFlight(d, base, p) && Harmless(op, p)
    ensures InFlight(Apply(d, op), base, p) && InFlight(Torn(d, op, torn), base, p)
  {
    HarmlessApply(d, base, p, op);
    if op.Write? {
      HarmlessApply(d, base, p, Write(op.key, op.at, if torn <= |op.bytes| then op.bytes[..torn] else op.bytes));
    }
  }

  lemma {:induction false} HarmlessRun(d: Disk, base: Disk, p: Pending, ops: seq<Op>, fuel: nat, torn: nat)
    requires InFlight(d, base, p) && AllHarmless(ops, p)
    ensures InFlight(RunAll(d, ops), base, p) && InFlight(Run(d, ops, fuel, torn), base, p)
    decreases ops
  {
    if ops != [] {
      HarmlessStep(d, base, p, ops[0], torn);
      HarmlessRun(Apply(d, ops[0]), base, p, ops[1..], if fuel > 0 then fuel - 1 else 0, torn);
    }
  }

  /** Operations on staging alone. */
  predicate Private(op: Op) { op.StagePut? || op.StageRm? || op.Link? || op.Sweep? }

  lemma {:induction false} PrivateRun(d: Disk, ops: seq<Op>, fuel: nat, torn: nat)
    requires forall i :: 0 <= i < |ops| ==> Private(ops[i])
    ensures Visible(RunAll(d, ops)) == Visible(d) && RunAll(d, ops).pending == d.pending
    ensures Visible(Run(d, ops, fuel, torn)) == Visible(d) && Run(d, ops, fuel, torn).pending == d.pending
    decreases ops
  {
    if ops != [] {
      assert Private(ops[0]);
      PrivateRun(Apply(d, ops[0]), ops[1..], if fuel > 0 then fuel - 1 else 0, torn);
    }
  }

  // ---------- the archive a transaction produces ----------

  predicate Publishable(cs: seq<Change>, compact: bool, blobs: map<nat, Bytes>) {
    if compact then forall i :: 0 <= i < |cs| ==> |cs[i].stages| > 0 && cs[i].stages[0] in blobs
    else Staged(cs, blobs)
  }

  lemma TouchesRest(cs: seq<Change>, k: Key)
    requires |cs| > 0
    ensures Touches(cs, k) <==> cs[0].key == k || Touches(cs[1..], k)
  {
    if Touches(cs[1..], k) {
      var i :| 0 <= i < |cs[1..]| && cs[1..][i].key == k;
      assert cs[i + 1].key == k;
    }
  }

  lemma FirstKeyUnique(cs: seq<Change>)
    requires |cs| > 0 && Distinct(cs)
    ensures !Touches(cs[1..], cs[0].key)
  {
    forall j | 0 <= j < |cs[1..]| ensures cs[1..][j].key != cs[0].key {
      assert cs[1..][j] == cs[j + 1];
    }
  }

  /** Hours the transaction does not name are as before. */
  lemma {:induction false} NewElsewhere(data: map<Key, Bytes>, index: map<Key, Index>, hours: map<Key, Entry>,
                                        cs: seq<Change>, compact: bool, blobs: map<nat, Bytes>, k: Key)
    requires Publishable(cs, compact, blobs) && !Touches(cs, k)
    ensures (k in NewData(data, cs, compact, blobs) <==> k in data)
         && (k in data ==> NewData(data, cs, compact, blobs)[k] == data[k])
    ensures (k in NewIndex(index, cs) <==> k in index) && (k in index ==> NewIndex(index, cs)[k] == index[k])
    ensures (k in NewHours(hours, cs) <==> k in hours) && (k in hours ==> NewHours(hours, cs)[k] == hours[k])
    decreases cs
  {
    if cs != [] {
      var c := cs[0];
      TouchesRest(cs, k);
      NewElsewhere(data[c.key := NewContent(data, c, compact, blobs)], index[c.key := c.afterIndex],
                   hours[c.key := c.after], cs[1..], compact, blobs, k);
    }
  }

  /** Hours it names get the new content, index and entry. */
  lemma {:induction false} NewHere(data: map<Key, Bytes>, index: map<Key, Index>, hours: map<Key, Entry>,
                                   cs: seq<Change>, compact: bool, blobs: map<nat, Bytes>, i: nat)
    requires Publishable(cs, compact, blobs) && Distinct(cs) && i < |cs|
    ensures cs[i].key in NewData(data, cs, compact, blobs)
         && NewData(data, cs, compact, blobs)[cs[i].key] == NewContent(data, cs[i], compact, blobs)
    ensures cs[i].key in NewIndex(index, cs) && NewIndex(index, cs)[cs[i].key] == cs[i].afterIndex
    ensures cs[i].key in NewHours(hours, cs) && NewHours(hours, cs)[cs[i].key] == cs[i].after
    decreases cs
  {
    var c := cs[0];
    var data' := data[c.key := NewContent(data, c, compact, blobs)];
    if i == 0 {
      FirstKeyUnique(cs);
      NewElsewhere(data', index[c.key := c.afterIndex], hours[c.key := c.after], cs[1..], compact, blobs, c.key);
    } else {
      NewHere(data', index[c.key := c.afterIndex], hours[c.key := c.after], cs[1..], compact, blobs, i - 1);
      assert cs[1..][i - 1] == cs[i] && cs[0].key != cs[i].key;
    }
  }

  /** A finished transaction leaves an archive that opens. */
  lemma AfterValid(z: Codec, base: Disk, p: Pending, blobs: map<nat, Bytes>, d: Disk)
    requires Valid(base) && TxOk(z, base, p, blobs)
    requires d.pending.None? && Visible(d) == AfterView(base, p, blobs)
    ensures Valid(d)
  {
    hide Publishable, CountLF, Tiles, EndOf, LinesOf, IndexOk, MemberDecodes, Decodes, Flat, Staged, NewContent, NewData, NewHours, Distinct, Unverified;
    if p.Publish? {
      var cs := p.changes;
      forall k
        ensures (k in d.data <==> k in p.afterCat.hours) && (k in d.index <==> k in p.afterCat.hours)
        ensures k in p.afterCat.hours ==> HourOk(d, k, p.afterCat.hours[k])
      {
        if Touches(cs, k) {
          var i :| 0 <= i < |cs| && cs[i].key == k;
          NewHere(base.data, base.index, p.beforeCat.hours, cs, p.compact, blobs, i);
          assert ChangeOk(z, base, cs[i], p.compact, blobs);
        } else {
          NewElsewhere(base.data, base.index, p.beforeCat.hours, cs, p.compact, blobs, k);
          assert k in base.data <==> k in base.data.Keys;
          assert k in base.data ==> HourOk(base, k, base.catalog.value.hours[k]);
        }
      }
    } else {
      forall k | k in d.catalog.value.hours ensures HourOk(d, k, d.catalog.value.hours[k]) {
        assert HourOk(base, k, base.catalog.value.hours[k]);
      }
      assert d.data.Keys == d.index.Keys == d.catalog.value.hours.Keys;
    }
  }

  // ---------- running a transaction to its end ----------

  lemma {:induction false} AppendRun(d: Disk, k: Key, at: nat, stages: seq<nat>, blobs: map<nat, Bytes>)
    requires forall n :: n in stages ==> n in blobs
    requires k in d.data && |d.data[k]| == at
    ensures RunAll(d, WriteOps(k, at, stages, blobs)) == d.(data := d.data[k := d.data[k] + Flat(stages, blobs)])
    decreases stages
  {
    var ops := WriteOps(k, at, stages, blobs);
    if stages == [] {
      assert d.data[k] + Flat(stages, blobs) == d.data[k];
      assert d.data[k := d.data[k]] == d.data;
    } else {
      var b := blobs[stages[0]];
      var d' := Apply(d, ops[0]);
      assert Splice(d.data[k], at, b) == d.data[k] + b;
      AppendRun(d', k, at + |b|, stages[1..], blobs);
      assert ops[1..] == WriteOps(k, at + |b|, stages[1..], blobs);
      assert (d.data[k] + b) + Flat(stages[1..], blobs) == d.data[k] + Flat(stages, blobs);
    }
  }

  predicate Fits(d: Disk, c: Change) {
    if c.before.Some? then c.key in d.data && |d.data[c.key]| == c.before.value.size else c.key !in d.data
  }

  lemma ChangeRun(d: Disk, c: Change, blobs: map<nat, Bytes>)
    requires (forall n :: n in c.stages ==> n in blobs) && Fits(d, c)
    ensures RunAll(d, ChangeOps(c, blobs))
         == d.(data := d.data[c.key := NewContent(d.data, c, false, blobs)], index := d.index[c.key := c.afterIndex])
  {
    var create := if c.before.None? then [Create(c.key)] else [];
    var writes := WriteOps(c.key, Lead(c), c.stages, blobs);
    RunAllConcat(d, create + writes, [PutIndex(c.key, c.afterIndex)]);
    RunAllConcat(d, create, writes);
    AppendRun(RunAll(d, create), c.key, Lead(c), c.stages, blobs);
  }

  lemma {:induction false} ChangesRun(d: Disk, cs: seq<Change>, blobs: map<nat, Bytes>)
    requires Staged(cs, blobs) && Distinct(cs)
    requires forall i :: 0 <= i < |cs| ==> Fits(d, cs[i])
    ensures RunAll(d, ChangesOps(cs, blobs))
         == d.(data := NewData(d.data, cs, false, blobs), index := NewIndex(d.index, cs))
    decreases cs
  {
    if cs != [] {
      var c, rest := cs[0], cs[1..];
      var d' := d.(data := d.data[c.key := NewContent(d.data, c, false, blobs)], index := d.index[c.key := c.afterIndex]);
      RunAllConcat(d, ChangeOps(c, blobs), ChangesOps(rest, blobs));
      ChangeRun(d, c, blobs);
      forall i | 0 <= i < |rest| ensures Fits(d', rest[i]) {
        assert rest[i] == cs[i + 1] && cs[0].key != cs[i + 1].key;
        assert Fits(d, cs[i + 1]);
      }
      ChangesRun(d', rest, blobs);
    }
  }

  /** Where a transaction starts writing: the archive untouched, its staging files in place. */
  ghost predicate Poised(d: Disk, base: Disk, p: Pending, blobs: map<nat, Bytes>) {
    && Visible(d) == Visible(base)
    && (p.Publish? && p.compact ==>
         CompactShape(p) && SpareIn(d, base, p.changes[0].key, p.changes[0].stages, blobs))
  }

  /** The compacted file is staged, and so is a second name of the old one. */
  predicate SpareIn(d: Disk, base: Disk, k: Key, stages: seq<nat>, blobs: map<nat, Bytes>)
    requires |stages| == 2
  {
    && stages[0] in d.staging && stages[0] in blobs && d.staging[stages[0]] == blobs[stages[0]]
    && stages[1] in d.staging && k in base.data && d.staging[stages[1]] == base.data[k]
  }

  lemma CompactBodyRun(base: Disk, p: Pending, blobs: map<nat, Bytes>, d: Disk)
    requires p.Publish? && p.compact && Shaped(p, blobs) && Poised(d, base, p, blobs)
    ensures RunAll(d, Body(p, blobs)).pending == d.pending
    ensures RunAll(d, Body(p, blobs)).checkpoint == d.checkpoint
    ensures Visible(RunAll(d, Body(p, blobs))).(checkpoint := Some(p.afterCp)) == AfterView(base, p, blobs)
  {
    var c := p.changes[0];
    assert p.changes == [c];
    RunAllConcat(d, [Rename(c.stages[0], c.key), PutIndex(c.key, c.afterIndex)], [PutCatalog(p.afterCat)]);
    RunTwo(d, Rename(c.stages[0], c.key), PutIndex(c.key, c.afterIndex));
    RunHead(Apply(Apply(d, Rename(c.stages[0], c.key)), PutIndex(c.key, c.afterIndex)), PutCatalog(p.afterCat), []);
    assert NewData(base.data, p.changes, true, blobs) == base.data[c.key := blobs[c.stages[0]]];
    assert NewIndex(base.index, p.changes) == base.index[c.key := c.afterIndex];
  }

  lemma CommitBodyRun(z: Codec, base: Disk, p: Pending, blobs: map<nat, Bytes>, d: Disk)
    requires Valid(base) && TxOk(z, base, p, blobs) && p.Publish? && !p.compact && Visible(d) == Visible(base)
    ensures RunAll(d, Body(p, blobs)).pending == d.pending
    ensures RunAll(d, Body(p, blobs)).checkpoint == d.checkpoint
    ensures Visible(RunAll(d, Body(p, blobs))).(checkpoint := Some(p.afterCp)) == AfterView(base, p, blobs)
  {
    var cs := p.changes;
    forall i | 0 <= i < |cs| ensures Fits(d, cs[i]) {
      assert ChangeOk(z, base, cs[i], false, blobs);
      var hours := base.catalog.value.hours;
      assert cs[i].key in base.data.Keys <==> cs[i].key in hours.Keys;
      if cs[i].before.Some? {
        assert HourOk(base, cs[i].key, hours[cs[i].key]);
      }
    }
    RunAllConcat(d, ChangesOps(cs, blobs), [PutCatalog(p.afterCat)]);
    ChangesRun(d, cs, blobs);
    RunHead(RunAll(d, ChangesOps(cs, blobs)), PutCatalog(p.afterCat), []);
  }

  lemma BodyRun(z: Codec, base: Disk, p: Pending, blobs: map<nat, Bytes>, d: Disk)
    requires Valid(base) && TxOk(z, base, p, blobs) && p.Publish? && Poised(d, base, p, blobs)
    ensures RunAll(d, [PutPending(p)] + Body(p, blobs)).pending == Some(p)
    ensures RunAll(d, [PutPending(p)] + Body(p, blobs)).checkpoint == base.checkpoint
    ensures Visible(RunAll(d, [PutPending(p)] + Body(p, blobs))).(checkpoint := Some(p.afterCp))
         == AfterView(base, p, blobs)
  {
    var start := d.(pending := Some(p));
    RunHead(d, PutPending(p), Body(p, blobs));
    if p.compact {
      CompactBodyRun(base, p, blobs, start);
    } else {
      CommitBodyRun(z, base, p, blobs, start);
    }
  }

  /** Every step between pending.json and checkpoint.json keeps the old archive restorable. */
  lemma {:induction false} WritesHarmless(p: Pending, i: nat, at: nat, stages: seq<nat>, blobs: map<nat, Bytes>)
    requires p.Publish? && !p.compact && Distinct(p.changes) && i < |p.changes| && Lead(p.changes[i]) <= at
    requires forall n :: n in stages ==> n in blobs
    ensures AllHarmless(WriteOps(p.changes[i].key, at, stages, blobs), p)
    decreases stages
  {
    if stages != [] {
      WritesHarmless(p, i, at + |blobs[stages[0]]|, stages[1..], blobs);
    }
  }

  lemma ChangeHarmless(p: Pending, i: nat, blobs: map<nat, Bytes>)
    requires p.Publish? && !p.compact && Distinct(p.changes) && i < |p.changes|
    requires forall n :: n in p.changes[i].stages ==> n in blobs
    ensures AllHarmless(ChangeOps(p.changes[i], blobs), p)
  {
    WritesHarmless(p, i, Lead(p.changes[i]), p.changes[i].stages, blobs);
  }

  lemma {:induction false} ChangesHarmless(p: Pending, j: nat, blobs: map<nat, Bytes>)
    requires p.Publish? && !p.compact && Distinct(p.changes) && j <= |p.changes|
    requires Staged(p.changes, blobs)
    ensures Staged(p.changes[j..], blobs) && AllHarmless(ChangesOps(p.changes[j..], blobs), p)
    decreases |p.changes| - j
  {
    if j < |p.changes| {
      ChangeHarmless(p, j, blobs);
      ChangesHarmless(p, j + 1, blobs);
      assert p.changes[j..][1..] == p.changes[j + 1..];
    }
  }

  lemma BodyHarmless(p: Pending, blobs: map<nat, Bytes>)
    requires p.Publish? && Shaped(p, blobs) && Distinct(p.changes)
    ensures AllHarmless(Body(p, blobs), p)
  {
    if !p.compact {
      ChangesHarmless(p, 0, blobs);
      assert p.changes[0..] == p.changes;
    }
  }

  lemma PoisedInFlight(z: Codec, base: Disk, p: Pending, blobs: map<nat, Bytes>, d: Disk)
    requires Valid(base) && TxOk(z, base, p, blobs) && p.Publish? && Poised(d, base, p, blobs)
    ensures InFlight(d.(pending := Some(p)), base, p)
  {
    var d' := d.(pending := Some(p));
    forall i | 0 <= i < |p.changes| ensures Restorable(d', base, p.changes[i], p.compact) {
      var c := p.changes[i];
      assert ChangeOk(z, base, c, p.compact, blobs);
      assert c.key in base.data.Keys <==> c.key in base.catalog.value.hours.Keys;
      assert c.key in base.index.Keys <==> c.key in base.catalog.value.hours.Keys;
      if c.before.Some? {
        assert HourOk(base, c.key, base.catalog.value.hours[c.key]);
      }
    }
  }

  // ---------- recovery ----------

  lemma UndoRestores(d: Disk, base: Disk, p: Pending, j: nat)
    requires InFlight(d, base, p) && j < |p.changes| && BeforeMatches(base, p.changes[j])
    ensures var u := UndoChange(d, p.changes[j], p.compact);
      u.ok && AllHarmless(u.ops, p) && SameAt(RunAll(d, u.ops), base, p.changes[j].key)
      && forall k :: k != p.changes[j].key && SameAt(d, base, k) ==> SameAt(RunAll(d, u.ops), base, k)
  {
    hide Splice, RunAll;
    var c := p.changes[j];
    assert Restorable(d, base, c, p.compact) && Touches(p.changes, c.key);
    var u := UndoChange(d, c, p.compact);
    assert u.ops == [u.ops[0], u.ops[1]];
    RunTwo(d, u.ops[0], u.ops[1]);
  }

  /** Undoing the changes from number j on brings their hours back, and the others stay. */
  lemma {:induction false} RollbackRestores(d: Disk, base: Disk, p: Pending, j: nat)
    requires InFlight(d, base, p) && Distinct(p.changes) && j <= |p.changes|
    requires forall i :: 0 <= i < |p.changes| ==> BeforeMatches(base, p.changes[i])
    requires forall i :: 0 <= i < j ==> SameAt(d, base, p.changes[i].key)
    ensures var r := Rollback(d, p.changes[j..], p.compact);
      r.ok && AllHarmless(r.ops, p) && forall k :: SameAt(RunAll(d, r.ops), base, k)
    decreases |p.changes| - j
  {
    if j == |p.changes| {
      forall k ensures SameAt(d, base, k) {
        if Touches(p.changes, k) {
          var i :| 0 <= i < |p.changes| && p.changes[i].key == k;
        }
      }
    } else {
      UndoRestores(d, base, p, j);
      var u := UndoChange(d, p.changes[j], p.compact);
      HarmlessRun(d, base, p, u.ops, 0, 0);
      var d' := RunAll(d, u.ops);
      forall i | 0 <= i < j + 1 ensures SameAt(d', base, p.changes[i].key) {
        if i < j {
          assert p.changes[i].key != p.changes[j].key;
        }
      }
      RollbackRestores(d', base, p, j + 1);
      RollbackSplit(d, p, j, u);
    }
  }

  lemma RollbackSplit(d: Disk, p: Pending, j: nat, u: Plan)
    requires p.Publish? && j < |p.changes| && u == UndoChange(d, p.changes[j], p.compact) && u.ok
    ensures var r, rest := Rollback(d, p.changes[j..], p.compact), Rollback(RunAll(d, u.ops), p.changes[j + 1..], p.compact);
      r == Plan(u.ops + rest.ops, rest.ok) && RunAll(d, r.ops) == RunAll(RunAll(d, u.ops), rest.ops)
  {
    assert p.changes[j..][1..] == p.changes[j + 1..];
    RunAllConcat(d, u.ops, Rollback(RunAll(d, u.ops), p.changes[j + 1..], p.compact).ops);
  }

  predicate BeforeMatches(base: Disk, c: Change)
  {
    (c.before.Some? <==> c.key in base.index) && (c.before.Some? ==> c.beforeIndex == base.index[c.key])
  }

  lemma {:induction false} DeleteRun(d: Disk, keys: seq<Key>)
    ensures RunAll(d, DeleteOps(keys))
         == d.(data := d.data - (set k | k in keys), index := d.index - (set k | k in keys))
    decreases keys
  {
    if keys == [] {
      assert d.data - (set k | k in keys) == d.data && d.index - (set k | k in keys) == d.index;
    } else {
      var k0 := keys[0];
      var d' := d.(data := d.data - {k0}, index := d.index - {k0});
      assert DeleteOps(keys)[1..][1..] == DeleteOps(keys[1..]);
      assert RunAll(d, DeleteOps(keys)) == RunAll(Apply(d, Unlink(k0)), DeleteOps(keys)[1..]);
      assert RunAll(d, DeleteOps(keys)) == RunAll(d', DeleteOps(keys[1..]));
      DeleteRun(d', keys[1..]);
      assert d'.data - (set k | k in keys[1..]) == d.data - (set k | k in keys);
      assert d'.index - (set k | k in keys[1..]) == d.index - (set k | k in keys);
    }
  }

  predicate Removal(op: Op, p: Pending)
    requires p.Delete?
  {
    op == PutCatalog(p.afterCat) || (op.Unlink? && op.key in p.keys) || (op.RmIndex? && op.key in p.keys)
  }

  lemma {:induction false} DeletingRun(d: Disk, base: Disk, p: Pending, ops: seq<Op>, fuel: nat, torn: nat)
    requires Deleting(d, base, p) && forall i :: 0 <= i < |ops| ==> Removal(ops[i], p)
    ensures Deleting(Run(d, ops, fuel, torn), base, p)
    decreases ops
  {
    if ops != [] && fuel > 0 {
      assert Removal(ops[0], p);
      DeletingRun(Apply(d, ops[0]), base, p, ops[1..], fuel - 1, torn);
    } else if ops != [] {
      assert Removal(ops[0], p);
    }
  }

  lemma {:induction false} DeleteOpsRemove(p: Pending, j: nat)
    requires p.Delete? && j <= |p.keys|
    ensures forall i :: 0 <= i < |DeleteOps(p.keys[j..])| ==> Removal(DeleteOps(p.keys[j..])[i], p)
    decreases |p.keys| - j
  {
    if j < |p.keys| {
      DeleteOpsRemove(p, j + 1);
      assert p.keys[j..][1..] == p.keys[j + 1..] && p.keys[j..][0] == p.keys[j];
    }
  }

  lemma DeletingEnds(z: Codec, base: Disk, p: Pending, blobs: map<nat, Bytes>, d: Disk)
    requires Valid(base) && p.Delete? && TxOk(z, base, p, blobs) && Deleting(d, base, p)
    ensures Visible(RunAll(d, [PutCatalog(p.afterCat)] + DeleteOps(p.keys))) == AfterView(base, p, blobs)
    ensures RunAll(d, [PutCatalog(p.afterCat)] + DeleteOps(p.keys)).pending == Some(p)
  {
    hide Tiles, EndOf, LinesOf, IndexOk, MemberDecodes, Decodes, HourOk, Opens, Valid, Flat, Staged, DeleteOps, CompactShape, Shaped, NewContent, NewData, NewIndex, NewHours, Distinct, ChangeOk, Unverified, TxOk;
    var ops := [PutCatalog(p.afterCat)] + DeleteOps(p.keys);
    var d' := Apply(d, ops[0]);
    assert ops[1..] == DeleteOps(p.keys);
    DeleteRun(d', p.keys);
    var gone := set k | k in p.keys;
    var e := RunAll(d', DeleteOps(p.keys));
    forall k | k !in p.keys ensures SameAt(e, base, k) {
      assert SameAt(d, base, k);
    }
    assert e.data == base.data - gone;
    assert e.index == base.index - gone;
  }

  // ---------- what reopening leads to ----------

  /** `d` is on its way to the archive `v`, and reopening will get it there. */
  ghost predicate Settles(d: Disk, base: Disk, p: Pending, blobs: map<nat, Bytes>, v: View)
    requires Shaped(p, blobs)
  {
    || (Valid(d) && Visible(d) == v)
    || (InFlight(d, base, p) && v == Visible(base))
    || (p.Publish? && d.pending == Some(p) && Visible(d) == v == AfterView(base, p, blobs))
    || (Deleting(d, base, p) && v == AfterView(base, p, blobs))
  }

  lemma FinishPrivate(p: Pending)
    requires p.Publish?
    ensures forall i :: 0 <= i < |Discard(p.changes)| ==> Private(Discard(p.changes)[i])
  {
    DiscardPrivate(p.changes);
  }

  lemma {:induction false} StageRmsPrivate(stages: seq<nat>)
    ensures forall i :: 0 <= i < |StageRms(stages)| ==> Private(StageRms(stages)[i])
  {
    if stages != [] { StageRmsPrivate(stages[1..]); }
  }

  lemma {:induction false} DiscardPrivate(cs: seq<Change>)
    ensures forall i :: 0 <= i < |Discard(cs)| ==> Private(Discard(cs)[i])
  {
    if cs != [] {
      StageRmsPrivate(cs[0].stages);
      DiscardPrivate(cs[1..]);
    }
  }

  /** Once the visible archive is right and only the journal and staging are left to clear. */
  lemma FinishSettles(d: Disk, base: Disk, p: Pending, blobs: map<nat, Bytes>, v: View, tail: seq<Op>, fuel: nat, torn: nat)
    requires Shaped(p, blobs) && Settles(d, base, p, blobs, v)
    requires Visible(d) == v && Valid(d.(pending := None))
    requires forall i :: 0 <= i < |tail| ==> Private(tail[i])
    ensures Settles(Run(d, [RmPending] + tail, fuel, torn), base, p, blobs, v)
    ensures Valid(RunAll(d, [RmPending] + tail)) && Visible(RunAll(d, [RmPending] + tail)) == v
  {
    var d' := d.(pending := None);
    assert ([RmPending] + tail)[1..] == tail;
    PrivateRun(d', tail, if fuel > 0 then fuel - 1 else 0, torn);
  }

  // ---------- main results ----------

  lemma MatchesAll(z: Codec, base: Disk, p: Pending, blobs: map<nat, Bytes>)
    requires Valid(base) && TxOk(z, base, p, blobs) && p.Publish?
    ensures forall i :: 0 <= i < |p.changes| ==> BeforeMatches(base, p.changes[i])
  {
    forall i | 0 <= i < |p.changes| ensures BeforeMatches(base, p.changes[i]) {
      assert ChangeOk(z, base, p.changes[i], p.compact, blobs);
      assert p.changes[i].key in base.index.Keys <==> p.changes[i].key in base.catalog.value.hours.Keys;
    }
  }

  lemma VerifiedAll(z: Codec, base: Disk, p: Pending, blobs: map<nat, Bytes>, d: Disk)
    requires Valid(base) && TxOk(z, base, p, blobs) && p.Publish? && Visible(d) == AfterView(base, p, blobs)
    ensures forall i :: 0 <= i < |p.changes| ==> Verified(z, d, p.changes[i])
  {
    forall i | 0 <= i < |p.changes| ensures Verified(z, d, p.changes[i]) {
      assert ChangeOk(z, base, p.changes[i], p.compact, blobs);
      NewHere(base.data, base.index, p.beforeCat.hours, p.changes, p.compact, blobs, i);
    }
  }

  /** One attempt at recovery, cut short anywhere or not, stays on course; a complete one arrives. */
  lemma RecoverSettles(z: Codec, base: Disk, p: Pending, blobs: map<nat, Bytes>, d: Disk, v: View, fuel: nat, torn: nat)
    requires Valid(base) && TxOk(z, base, p, blobs) && Settles(d, base, p, blobs, v) && d.pending.Some?
    ensures d.pending == Some(p) && d.checkpoint.Some? && Recover(z, d, p).ok
    ensures Settles(Run(d, Recover(z, d, p).ops, fuel, torn), base, p, blobs, v)
    ensures Valid(RunAll(d, Recover(z, d, p).ops)) && Visible(RunAll(d, Recover(z, d, p).ops)) == v
  {
    if InFlight(d, base, p) && v == Visible(base) {
      RollbackSettles(z, base, p, blobs, d, fuel, torn);
    } else if p.Publish? {
      VerifiedAll(z, base, p, blobs, d);
      AfterValid(z, base, p, blobs, d.(pending := None));
      FinishPrivate(p);
      FinishSettles(d, base, p, blobs, v, Discard(p.changes), fuel, torn);
    } else {
      RemovalSettles(z, base, p, blobs, d, fuel, torn);
    }
  }

  lemma SameEverywhere(d: Disk, base: Disk)
    requires forall k :: SameAt(d, base, k)
    ensures d.data == base.data && d.index == base.index
  {
    forall k
      ensures (k in d.data <==> k in base.data) && (k in d.index <==> k in base.index)
      ensures (k in d.data ==> d.data[k] == base.data[k]) && (k in d.index ==> d.index[k] == base.index[k])
    {
      assert SameAt(d, base, k);
    }
  }

  lemma RollbackSettles(z: Codec, base: Disk, p: Pending, blobs: map<nat, Bytes>, d: Disk, fuel: nat, torn: nat)
    requires Valid(base) && TxOk(z, base, p, blobs) && InFlight(d, base, p)
    ensures Recover(z, d, p).ok
    ensures Settles(Run(d, Recover(z, d, p).ops, fuel, torn), base, p, blobs, Visible(base))
    ensures Valid(RunAll(d, Recover(z, d, p).ops)) && Visible(RunAll(d, Recover(z, d, p).ops)) == Visible(base)
  {
    MatchesAll(z, base, p, blobs);
    assert p.changes[0..] == p.changes;
    RollbackRestores(d, base, p, 0);
    var r := Rollback(d, p.changes, p.compact);
    var undo := r.ops + [PutCatalog(p.beforeCat)];
    var d' := RunAll(d, undo);
    RunAllConcat(d, r.ops, [PutCatalog(p.beforeCat)]);
    RunHead(RunAll(d, r.ops), PutCatalog(p.beforeCat), []);
    HarmlessRun(d, base, p, undo, fuel, torn);
    SameEverywhere(RunAll(d, r.ops), base);
    FinishPrivate(p);
    FinishSettles(d', base, p, blobs, Visible(base), Discard(p.changes), if fuel >= |undo| then fuel - |undo| else 0, torn);
    RunConcat(d, undo, Finish(p), fuel, torn);
    RunAllConcat(d, undo, Finish(p));
  }

  lemma RemovalSettles(z: Codec, base: Disk, p: Pending, blobs: map<nat, Bytes>, d: Disk, fuel: nat, torn: nat)
    requires Valid(base) && TxOk(z, base, p, blobs) && Deleting(d, base, p)
    ensures Recover(z, d, p).ok
    ensures Settles(Run(d, Recover(z, d, p).ops, fuel, torn), base, p, blobs, AfterView(base, p, blobs))
    ensures Valid(RunAll(d, Recover(z, d, p).ops)) && Visible(RunAll(d, Recover(z, d, p).ops)) == AfterView(base, p, blobs)
  {
    var v := AfterView(base, p, blobs);
    var remove := [PutCatalog(p.afterCat)] + DeleteOps(p.keys);
    var d' := RunAll(d, remove);
    DeletingEnds(z, base, p, blobs, d);
    DeleteOpsRemove(p, 0);
    assert p.keys[0..] == p.keys;
    DeletingRun(d, base, p, remove, fuel, torn);
    DeletingRun(d, base, p, remove, |remove|, torn);
    RunToEnd(d, remove, |remove|, torn);
    AfterValid(z, base, p, blobs, d'.(pending := None));
    FinishSettles(d', base, p, blobs, v, [], if fuel >= |remove| then fuel - |remove| else 0, torn);
    assert Finish(p) == [RmPending] + [];
    RunConcat(d, remove, Finish(p), fuel, torn);
    RunAllConcat(d, remove, Finish(p));
  }

  /** The same for a whole reopening. */
  lemma InitSettles(z: Codec, base: Disk, p: Pending, blobs: map<nat, Bytes>, d: Disk, v: View, fuel: nat, torn: nat)
    requires Valid(base) && TxOk(z, base, p, blobs) && Settles(d, base, p, blobs, v)
    ensures InitPlan(z, d).ok
    ensures Settles(Run(d, InitPlan(z, d).ops, fuel, torn), base, p, blobs, v)
    ensures Valid(RunAll(d, InitPlan(z, d).ops)) && Visible(RunAll(d, InitPlan(z, d).ops)) == v
  {
    var r := Plan([], true);
    if d.pending.Some? {
      RecoverSettles(z, base, p, blobs, d, v, fuel, torn);
      r := Recover(z, d, p);
    }
    var d' := RunAll(d, r.ops);
    var sweep := [Sweep(d'.staging.Keys)];
    RunConcat(d, r.ops, sweep, fuel, torn);
    RunAllConcat(d, r.ops, sweep);
    PrivateRun(d', sweep, if fuel >= |r.ops| then fuel - |r.ops| else 0, torn);
  }

  lemma {:induction false} RestartsSettle(z: Codec, base: Disk, p: Pending, blobs: map<nat, Bytes>, d: Disk, v: View, crashes: seq<Crash>)
    requires Valid(base) && TxOk(z, base, p, blobs) && Settles(d, base, p, blobs, v)
    ensures Settles(Restarts(z, d, crashes), base, p, blobs, v)
    decreases crashes
  {
    if crashes != [] {
      var c := crashes[0];
      InitSettles(z, base, p, blobs, d, v, c.fuel, c.torn);
      RestartsSettle(z, base, p, blobs, Run(d, InitPlan(z, d).ops, c.fuel, c.torn), v, crashes[1..]);
    }
  }

  lemma {:induction false} StagePutsPrivate(stages: seq<nat>, blobs: map<nat, Bytes>)
    requires forall n :: n in stages ==> n in blobs
    ensures forall i :: 0 <= i < |StagePuts(stages, blobs)| ==> Private(StagePuts(stages, blobs)[i])
  {
    if stages != [] { StagePutsPrivate(stages[1..], blobs); }
  }

  lemma {:induction false} StageOpsPrivate(cs: seq<Change>, blobs: map<nat, Bytes>)
    requires Staged(cs, blobs)
    ensures forall i :: 0 <= i < |StageOps(cs, blobs)| ==> Private(StageOps(cs, blobs)[i])
  {
    if cs != [] {
      assert Staged(cs[1..], blobs);
      StagePutsPrivate(cs[0].stages, blobs);
      StageOpsPrivate(cs[1..], blobs);
    }
  }

  lemma PrologueRun(z: Codec, base: Disk, p: Pending, blobs: map<nat, Bytes>, fuel: nat, torn: nat)
    requires Valid(base) && TxOk(z, base, p, blobs) && p.Publish?
    ensures Valid(Run(base, Prologue(p, blobs), fuel, torn)) && Visible(Run(base, Prologue(p, blobs), fuel, torn)) == Visible(base)
    ensures Poised(RunAll(base, Prologue(p, blobs)), base, p, blobs)
  {
    if p.compact {
      var c := p.changes[0];
      assert ChangeOk(z, base, c, true, blobs);
      assert c.key in base.data.Keys <==> c.key in base.catalog.value.hours.Keys;
      RunHead(base, Link(c.key, c.stages[1]), []);
    } else {
      StageOpsPrivate(p.changes, blobs);
    }
    PrivateRun(base, Prologue(p, blobs), fuel, torn);
  }

  /** A transaction cut short at operation `fuel` is on its way to the new archive if it
      passed its commit point, and back to the old one otherwise. */
  lemma TransactionSettles(z: Codec, base: Disk, p: Pending, blobs: map<nat, Bytes>, fuel: nat, torn: nat)
    requires Valid(base) && TxOk(z, base, p, blobs)
    ensures Settles(Run(base, TxOps(p, blobs), fuel, torn), base, p, blobs,
                    if fuel >= CommitPoint(p, blobs) then AfterView(base, p, blobs) else Visible(base))
  {
    if p.Publish? {
      PublishSettles(z, base, p, blobs, fuel, torn);
    } else {
      assert TxOps(p, blobs)[1..] == ([PutCatalog(p.afterCat)] + DeleteOps(p.keys)) + Finish(p);
      if fuel > 0 {
        RemovalSettles(z, base, p, blobs, base.(pending := Some(p)), fuel - 1, torn);
      }
    }
  }

  lemma PublishSettles(z: Codec, base: Disk, p: Pending, blobs: map<nat, Bytes>, fuel: nat, torn: nat)
    requires Valid(base) && TxOk(z, base, p, blobs) && p.Publish?
    ensures Settles(Run(base, TxOps(p, blobs), fuel, torn), base, p, blobs,
                    if fuel >= CommitPoint(p, blobs) then AfterView(base, p, blobs) else Visible(base))
  {
    hide Touches, Restorable, SameAt, InFlight, Deleting, Poised, Visible, Splice, Apply, Torn, RunAll, Run, Tiles, EndOf, LinesOf, IndexOk, MemberDecodes, Decodes, HourOk, Opens, Valid, Lead, Flat, WriteOps, Staged, ChangeOps, ChangesOps, StagePuts, StageOps, StageRms, Discard, DeleteOps, Finish, CompactShape, Shaped, Prologue, Body, NewContent, NewData, NewIndex, NewHours, AfterView, Distinct, ChangeOk, Unverified;
    var pre, main, post := Prologue(p, blobs), [PutPending(p)] + Body(p, blobs), [PutCheckpoint(p.afterCp)] + Finish(p);
    RunConcat(base, pre + main, post, fuel, torn);
    RunConcat(base, pre, main, fuel, torn);
    RunAllConcat(base, pre, main);
    PrologueRun(z, base, p, blobs, fuel, torn);
    if |pre| <= fuel < |pre + main| {
      PrologueRun(z, base, p, blobs, |pre|, torn);
      RunToEnd(base, pre, |pre|, torn);
      BodySettles(z, base, p, blobs, RunAll(base, pre), fuel - |pre|, torn);
    } else if |pre + main| <= fuel {
      CommittedSettles(z, base, p, blobs, RunAll(base, pre), fuel - |pre + main|, torn);
    }
  }

  lemma BodySettles(z: Codec, base: Disk, p: Pending, blobs: map<nat, Bytes>, poised: Disk, fuel: nat, torn: nat)
    requires Valid(base) && TxOk(z, base, p, blobs) && p.Publish? && Poised(poised, base, p, blobs) && Valid(poised)
    ensures Settles(Run(poised, [PutPending(p)] + Body(p, blobs), fuel, torn), base, p, blobs, Visible(base))
  {
    PoisedInFlight(z, base, p, blobs, poised);
    BodyHarmless(p, blobs);
    assert ([PutPending(p)] + Body(p, blobs))[1..] == Body(p, blobs);
    if fuel > 0 {
      HarmlessRun(poised.(pending := Some(p)), base, p, Body(p, blobs), fuel - 1, torn);
    }
  }

  lemma CommittedSettles(z: Codec, base: Disk, p: Pending, blobs: map<nat, Bytes>, poised: Disk, fuel: nat, torn: nat)
    requires Valid(base) && TxOk(z, base, p, blobs) && p.Publish? && Poised(poised, base, p, blobs)
    ensures Settles(Run(RunAll(poised, [PutPending(p)] + Body(p, blobs)), [PutCheckpoint(p.afterCp)] + Finish(p), fuel, torn),
                    base, p, blobs, if fuel > 0 then AfterView(base, p, blobs) else Visible(base))
  {
    BodyRun(z, base, p, blobs, poised);
    var done := RunAll(poised, [PutPending(p)] + Body(p, blobs));
    assert ([PutCheckpoint(p.afterCp)] + Finish(p))[1..] == Finish(p);
    if fuel == 0 {
      PoisedInFlight(z, base, p, blobs, poised);
      BodyHarmless(p, blobs);
      HarmlessRun(poised.(pending := Some(p)), base, p, Body(p, blobs), 0, torn);
      RunHead(poised, PutPending(p), Body(p, blobs));
    } else {
      var marked := Apply(done, PutCheckpoint(p.afterCp));
      AfterValid(z, base, p, blobs, marked.(pending := None));
      FinishPrivate(p);
      FinishSettles(marked, base, p, blobs, AfterView(base, p, blobs), Discard(p.changes), fuel - 1, torn);
    }
  }

  /** Crash atomicity.  A commit, compaction or expiry of a valid archive dies inside any disk
      operation, and so does every one of any number of reopenings; then the next reopening
      succeeds and shows the old archive or the new one, the new one exactly when the
      operation at the commit point completed. */
  lemma CrashAtomicity(z: Codec, base: Disk, p: Pending, blobs: map<nat, Bytes>, fuel: nat, torn: nat, crashes: seq<Crash>)
    requires Valid(base) && TxOk(z, base, p, blobs)
    ensures var d := Restarts(z, Run(base, TxOps(p, blobs), fuel, torn), crashes);
      && InitPlan(z, d).ok && Valid(RunAll(d, InitPlan(z, d).ops))
      && Visible(RunAll(d, InitPlan(z, d).ops))
         == if fuel >= CommitPoint(p, blobs) then AfterView(base, p, blobs) else Visible(base)
  {
    var v := if fuel >= CommitPoint(p, blobs) then AfterView(base, p, blobs) else Visible(base);
    var d := Run(base, TxOps(p, blobs), fuel, torn);
    TransactionSettles(z, base, p, blobs, fuel, torn);
    RestartsSettle(z, base, p, blobs, d, v, crashes);
    InitSettles(z, base, p, blobs, Restarts(z, d, crashes), v, 0, 0);
  }

  /** A directory in which no archive has been opened to the end yet. */
  predicate Blank(d: Disk) {
    d.pending.None? && d.checkpoint.None? && (d.catalog.None? || d.catalog == Some(NoHours)) && d.data == map[] && d.index == map[]
  }

  const EmptyArchive := View(Some(NoHours), Some(NoOffsets), map[], map[])

  /** The very first opening may die anywhere, too. */
  lemma {:induction false} FirstOpening(z: Codec, d: Disk, crashes: seq<Crash>)
    requires Blank(d) || (Valid(d) && Visible(d) == EmptyArchive)
    ensures var e := Restarts(z, d, crashes);
      InitPlan(z, e).ok && Valid(RunAll(e, InitPlan(z, e).ops)) && Visible(RunAll(e, InitPlan(z, e).ops)) == EmptyArchive
    decreases crashes
  {
    if crashes == [] {
      OpeningStep(z, d, 0, 0);
    } else {
      OpeningStep(z, d, crashes[0].fuel, crashes[0].torn);
      FirstOpening(z, Run(d, InitPlan(z, d).ops, crashes[0].fuel, crashes[0].torn), crashes[1..]);
    }
  }

  lemma OpeningStep(z: Codec, d: Disk, fuel: nat, torn: nat)
    requires Blank(d) || (Valid(d) && Visible(d) == EmptyArchive)
    ensures InitPlan(z, d).ok
    ensures var e := Run(d, InitPlan(z, d).ops, fuel, torn); Blank(e) || (Valid(e) && Visible(e) == EmptyArchive)
    ensures Valid(RunAll(d, InitPlan(z, d).ops)) && Visible(RunAll(d, InitPlan(z, d).ops)) == EmptyArchive
  {
    var ops := InitPlan(z, d).ops;
    if Blank(d) {
      var puts, sweep := [PutCatalog(NoHours), PutCheckpoint(NoOffsets)], [Sweep(d.staging.Keys)];
      assert ops == puts + sweep;
      RunConcat(d, puts, sweep, fuel, torn);
      RunAllConcat(d, puts, sweep);
      RunTwo(d, puts[0], puts[1]);
      PrivateRun(RunAll(d, puts), sweep, if fuel >= 2 then fuel - 2 else 0, torn);
      assert puts[1..] == [puts[1]];
    } else {
      PrivateRun(d, ops, fuel, torn);
    }
  }
}
