/** Runs of the archive: what a fileId stands for, what a concurrent reader sees, and why a
    compaction computed outside the queue can be published. */
module ArchiveHistory {
  import opened Options
  import opened ArchiveTypes
  import opened ArchiveDisk
  import opened ArchiveJournal
  import opened ArchiveCrash
  import opened ArchiveStaging

  /** What can happen between two moments at which the publication queue is idle. */
  datatype Event =
    | Finished(p: Pending, blobs: map<nat, Bytes>)
    | Died(p: Pending, blobs: map<nat, Bytes>, fuel: nat, torn: nat, crashes: seq<Crash>)
    | Staging(files: map<nat, Bytes>)   // compression working beside the queue

  function After(z: Codec, d: Disk, e: Event): Disk
    requires e.Staging? || Shaped(e.p, e.blobs)
  {
    match e
    case Finished(p, blobs) => RunAll(d, TxOps(p, blobs))
    case Died(p, blobs, fuel, torn, crashes) =>
      var stopped := Restarts(z, Run(d, TxOps(p, blobs), fuel, torn), crashes);
      RunAll(stopped, InitPlan(z, stopped).ops)
    case Staging(files) => d.(staging := files)
  }

  function IdsOf(cs: seq<Change>): set<nat> { set i | 0 <= i < |cs| :: cs[i].after.fileId }

  /** fileIds are random: new hours and compacted hours get ones never used before, while
      appending keeps the id and extends the index. */
  predicate Identified(c: Change, compact: bool, used: set<nat>) {
    if compact || c.before.None? then c.after.fileId !in used
    else
      && c.after.fileId == c.before.value.fileId && c.beforeIndex <= c.afterIndex
      && (c.after.size == c.before.value.size ==> c.after == c.before.value)
  }

  predicate EventOk(z: Codec, d: Disk, e: Event, used: set<nat>)
    requires Valid(d)
  {
    e.Staging? ||
    (TxOk(z, d, e.p, e.blobs) && (e.p.Publish? ==> forall i :: 0 <= i < |e.p.changes| ==> Identified(e.p.changes[i], e.p.compact, used)))
  }

  function UsedAfter(e: Event, used: set<nat>): set<nat> {
    if e.Staging? || e.p.Delete? then used else used + IdsOf(e.p.changes)
  }

  /** A run: archives at idle moments, the events between them, and the fileIds used so far. */
  datatype Trace = Trace(disks: seq<Disk>, events: seq<Event>, used: seq<set<nat>>)

  ghost predicate TraceOk(z: Codec, t: Trace) {
    && |t.disks| == |t.used| == |t.events| + 1
    && (forall i :: 0 <= i < |t.disks| ==> Valid(t.disks[i]))
    && (forall k :: k in t.disks[0].catalog.value.hours ==> t.disks[0].catalog.value.hours[k].fileId in t.used[0])
    && (forall i :: 0 <= i < |t.events| ==> StepOk(z, t, i))
  }

  ghost predicate StepOk(z: Codec, t: Trace, i: nat)
    requires i < |t.events| && |t.disks| == |t.used| == |t.events| + 1 && Valid(t.disks[i])
  {
    EventOk(z, t.disks[i], t.events[i], t.used[i])
    && t.disks[i + 1] == After(z, t.disks[i], t.events[i]) && t.used[i + 1] == UsedAfter(t.events[i], t.used[i])
  }

  /** Whatever happens, the next idle archive is valid, and is the old one or the transaction's. */
  lemma EventEffect(z: Codec, d: Disk, e: Event, used: set<nat>)
    requires Valid(d) && EventOk(z, d, e, used)
    ensures Valid(After(z, d, e))
    ensures Visible(After(z, d, e)) == Visible(d) || (!e.Staging? && Visible(After(z, d, e)) == AfterView(d, e.p, e.blobs))
    ensures e.Finished? ==> Visible(After(z, d, e)) == AfterView(d, e.p, e.blobs)
  {
    match e
    case Finished(p, blobs) =>
      var ops := TxOps(p, blobs);
      FinishedEffect(z, d, p, blobs);
    case Died(p, blobs, fuel, torn, crashes) =>
      CrashAtomicity(z, d, p, blobs, fuel, torn, crashes);
    case Staging(files) =>
  }

  lemma FinishedEffect(z: Codec, d: Disk, p: Pending, blobs: map<nat, Bytes>)
    requires Valid(d) && TxOk(z, d, p, blobs)
    ensures Valid(RunAll(d, TxOps(p, blobs))) && Visible(RunAll(d, TxOps(p, blobs))) == AfterView(d, p, blobs)
  {
    var ops := TxOps(p, blobs);
    if p.Publish? {
      var pre, main, post := Prologue(p, blobs), [PutPending(p)] + Body(p, blobs), [PutCheckpoint(p.afterCp)] + Finish(p);
      RunAllConcat(d, pre + main, post);
      RunAllConcat(d, pre, main);
      PrologueRun(z, d, p, blobs, 0, 0);
      BodyRun(z, d, p, blobs, RunAll(d, pre));
      var marked := Apply(RunAll(d, pre + main), PutCheckpoint(p.afterCp));
      RunHead(RunAll(d, pre + main), PutCheckpoint(p.afterCp), Finish(p));
      AfterValid(z, d, p, blobs, marked.(pending := None));
      FinishPrivate(p);
      FinishSettles(marked, d, p, blobs, AfterView(d, p, blobs), Discard(p.changes), 0, 0);
    } else {
      RunHead(d, PutPending(p), ([PutCatalog(p.afterCat)] + DeleteOps(p.keys)) + Finish(p));
      RemovalSettles(z, d, p, blobs, d.(pending := Some(p)), 0, 0);
    }
  }

  // ---------- what a fileId stands for ----------

  function HourEntry(d: Disk, k: Key): Option<Entry>
  {
    if d.catalog.Some? then Lookup(d.catalog.value.hours, k) else None
  }

  /** The hour exists in both archives under one fileId, and has only grown. */
  predicate Grown(a: Disk, b: Disk, k: Key) {
    && k in a.data && k in b.data && k in a.index && k in b.index
    && a.data[k] <= b.data[k] && a.index[k] <= b.index[k]
    && HourEntry(a, k).Some? && HourEntry(b, k).Some? && HourEntry(a, k).value.size <= HourEntry(b, k).value.size
    && (HourEntry(a, k).value.size == HourEntry(b, k).value.size ==> HourEntry(a, k) == HourEntry(b, k))
  }

  predicate SameId(a: Disk, b: Disk, k: Key) {
    HourEntry(a, k).Some? && HourEntry(b, k).Some? && HourEntry(a, k).value.fileId == HourEntry(b, k).value.fileId
  }

  lemma ViewGrown(z: Codec, d: Disk, p: Pending, blobs: map<nat, Bytes>, used: set<nat>, d': Disk, k: Key, id: nat)
    requires Valid(d) && TxOk(z, d, p, blobs) && Visible(d') == AfterView(d, p, blobs)
    requires p.Publish? ==> forall i :: 0 <= i < |p.changes| ==> Identified(p.changes[i], p.compact, used)
    requires HourEntry(d', k).Some? && HourEntry(d', k).value.fileId == id && id in used
    ensures SameId(d, d', k) && Grown(d, d', k)
    ensures p.Delete? ==> k !in p.keys
    ensures p.Publish? && Touches(p.changes, k) ==> !p.compact
  {
    hide CountLF, EndOf, LinesOf, IndexOk, MemberDecodes, Flat, Staged, CompactShape, NewIndex, Publishable;
    assert (k in d.data.Keys <==> k in d.catalog.value.hours.Keys) && (k in d.index.Keys <==> k in d.catalog.value.hours.Keys);
    if p.Publish? {
      var cs := p.changes;
      if Touches(cs, k) {
        var i :| 0 <= i < |cs| && cs[i].key == k;
        NewHere(d.data, d.index, p.beforeCat.hours, cs, p.compact, blobs, i);
        assert ChangeOk(z, d, cs[i], p.compact, blobs) && Identified(cs[i], p.compact, used);
      } else {
        NewElsewhere(d.data, d.index, p.beforeCat.hours, cs, p.compact, blobs, k);
      }
    }
  }

  lemma EventGrown(z: Codec, d: Disk, e: Event, used: set<nat>, k: Key, id: nat)
    requires Valid(d) && EventOk(z, d, e, used) && id in used
    requires HourEntry(After(z, d, e), k).Some? && HourEntry(After(z, d, e), k).value.fileId == id
    ensures SameId(d, After(z, d, e), k) && Grown(d, After(z, d, e), k)
  {
    EventEffect(z, d, e, used);
    if Visible(After(z, d, e)) == Visible(d) {
      assert (k in d.data.Keys <==> k in d.catalog.value.hours.Keys) && (k in d.index.Keys <==> k in d.catalog.value.hours.Keys);
    } else {
      ViewGrown(z, d, e.p, e.blobs, used, After(z, d, e), k, id);
    }
  }

  lemma {:induction false} UsedGrows(z: Codec, t: Trace, i: nat, j: nat)
    requires TraceOk(z, t) && i <= j < |t.disks|
    ensures t.used[i] <= t.used[j]
    decreases j - i
  {
    if i < j {
      UsedGrows(z, t, i, j - 1);
      assert StepOk(z, t, j - 1);
    }
  }

  /** Every fileId in a catalog has been used. */
  lemma {:induction false} IdsUsed(z: Codec, t: Trace, j: nat, k: Key)
    requires TraceOk(z, t) && j < |t.disks| && HourEntry(t.disks[j], k).Some?
    ensures HourEntry(t.disks[j], k).value.fileId in t.used[j]
    decreases j
  {
    hide After, Identified, Apply, Torn, RunAll, Run, HourOk, DeleteOps, Finish, CompactShape, Shaped, Prologue, Body, TxOps, NewData, Recover, InitPlan, Restarts;
    if j > 0 {
      var d, e := t.disks[j - 1], t.events[j - 1];
      assert StepOk(z, t, j - 1);
      EventEffect(z, d, e, t.used[j - 1]);
      if Visible(t.disks[j]) == Visible(d) {
        IdsUsed(z, t, j - 1, k);
      } else if e.p.Publish? && Touches(e.p.changes, k) {
        var i :| 0 <= i < |e.p.changes| && e.p.changes[i].key == k;
        NewHere(d.data, d.index, e.p.beforeCat.hours, e.p.changes, e.p.compact, e.blobs, i);
        assert e.p.changes[i].after.fileId in IdsOf(e.p.changes);
      } else {
        if e.p.Publish? {
          NewElsewhere(d.data, d.index, e.p.beforeCat.hours, e.p.changes, e.p.compact, e.blobs, k);
        }
        IdsUsed(z, t, j - 1, k);
      }
    }
  }

  lemma GrownTrans(a: Disk, b: Disk, c: Disk, k: Key)
    requires Grown(a, b, k) && Grown(b, c, k)
    ensures Grown(a, c, k)
  {}

  lemma {:induction false} FileIdGrown(z: Codec, t: Trace, i: nat, j: nat, k: Key)
    requires TraceOk(z, t) && i <= j < |t.disks| && SameId(t.disks[i], t.disks[j], k)
    ensures Grown(t.disks[i], t.disks[j], k)
    ensures forall m :: i <= m <= j ==> SameId(t.disks[m], t.disks[j], k)
    decreases j - i
  {
    hide After, IdsOf, Identified, EventOk, UsedAfter, Apply, Torn, RunAll, Run, HourOk, Opens, Staged, DeleteOps, Finish, CompactShape, Shaped, Prologue, Body, TxOps, NewHours, Distinct, ChangeOk, TxOk, Recover, InitPlan, Restarts;
    var a := t.disks[i];
    if i == j {
      assert (k in a.data.Keys <==> k in a.catalog.value.hours.Keys) && (k in a.index.Keys <==> k in a.catalog.value.hours.Keys);
    } else {
      assert StepOk(z, t, j - 1);
      IdsUsed(z, t, i, k);
      UsedGrows(z, t, i, j - 1);
      EventGrown(z, t.disks[j - 1], t.events[j - 1], t.used[j - 1], k, HourEntry(a, k).value.fileId);
      FileIdGrown(z, t, i, j - 1, k);
      GrownTrans(a, t.disks[j - 1], t.disks[j], k);
    }
  }

  /** In every reachable state an hour's fileId determines its contents up to appending, so
      (fileId, size) determines its bytes: across commits, expiries, compactions, crashes and
      recoveries, deletions and recreations of the hour. */
  lemma FileIdDeterminesContents(z: Codec, t: Trace, i: nat, j: nat, k: Key)
    requires TraceOk(z, t) && i <= j < |t.disks| && SameId(t.disks[i], t.disks[j], k)
    ensures Grown(t.disks[i], t.disks[j], k)
    ensures forall m :: i <= m <= j ==> SameId(t.disks[m], t.disks[j], k)
    ensures HourEntry(t.disks[i], k).value.size == HourEntry(t.disks[j], k).value.size ==>
              t.disks[i].data[k] == t.disks[j].data[k] && t.disks[i].index[k] == t.disks[j].index[k]
              && HourEntry(t.disks[i], k) == HourEntry(t.disks[j], k)
  {
    FileIdGrown(z, t, i, j, k);
    var a, b := t.disks[i], t.disks[j];
    if HourEntry(a, k).value.size == HourEntry(b, k).value.size {
      SameSize(a, b, k);
    }
  }

  lemma SameSize(a: Disk, b: Disk, k: Key)
    requires Valid(a) && Valid(b) && Grown(a, b, k) && HourEntry(a, k).value.size == HourEntry(b, k).value.size
    ensures a.data[k] == b.data[k] && a.index[k] == b.index[k]
  {
    assert HourOk(a, k, HourEntry(a, k).value) && HourOk(b, k, HourEntry(b, k).value);
    SameEnd(a.index[k], b.index[k]);
  }

  /** A longer index ends later. */
  lemma {:induction false} TilesEnd(ix: Index, from: nat)
    requires Tiles(ix, from)
    ensures from <= EndOf(ix, from) && (ix != [] ==> from < EndOf(ix, from))
    decreases ix
  {
    if ix != [] {
      TilesEnd(ix[1..], ix[0].end);
    }
  }

  lemma {:induction false} TilesPrefix(a: Index, b: Index, from: nat)
    requires Tiles(b, from) && a <= b
    ensures Tiles(a, from) && Tiles(b[|a|..], EndOf(a, from)) && EndOf(b, from) == EndOf(b[|a|..], EndOf(a, from))
    decreases a
  {
    if a != [] {
      TilesPrefix(a[1..], b[1..], a[0].end);
      assert b[1..][|a| - 1..] == b[|a|..];
    }
  }

  lemma SameEnd(a: Index, b: Index)
    requires Tiles(b, 0) && a <= b && EndOf(a, 0) == EndOf(b, 0)
    ensures a == b
  {
    TilesPrefix(a, b, 0);
    TilesEnd(b[|a|..], EndOf(a, 0));
  }
}
