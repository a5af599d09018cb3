/** Transactions of the archive as lists of disk operations, and what reopening does with
    whatever a crash left of them. */
module ArchiveJournal {
  import opened Options
  import opened ArchiveTypes
  import opened ArchiveDisk

  // ---------- index files ----------

  /** Members follow each other without a hole, and none is empty. */
  predicate Tiles(ix: Index, from: nat) {
    ix == [] ||
    (ix[0].start == from && from < ix[0].end && 1 <= ix[0].lineCount && 1 <= ix[0].bytes && Tiles(ix[1..], ix[0].end))
  }

  function EndOf(ix: Index, from: nat): nat {
    if ix == [] then from else ix[|ix| - 1].end
  }

  function LinesOf(ix: Index): nat {
    if ix == [] then 0 else ix[0].lineCount + LinesOf(ix[1..])
  }

  predicate IndexOk(ix: Index, e: Entry) {
    Tiles(ix, 0) && EndOf(ix, 0) == e.size && LinesOf(ix) == e.lineCount
  }

  predicate MemberDecodes(z: Codec, content: Bytes, m: Member) {
    m.start <= m.end <= |content| &&
    var text := z.unzip(content[m.start..m.end]);
    text.Some? && |text.value| == m.bytes && CountLF(text.value) == m.lineCount
  }

  predicate Decodes(z: Codec, content: Bytes, ix: Index) {
    forall i :: 0 <= i < |ix| ==> MemberDecodes(z, content, ix[i])
  }

  // ---------- archives at rest ----------

  predicate HourOk(d: Disk, k: Key, e: Entry) {
    k in d.data && |d.data[k]| == e.size && k in d.index && IndexOk(d.index[k], e)
  }

  /** What init insists on once recovery is over. */
  predicate Opens(d: Disk) {
    && d.catalog.Some? && d.checkpoint.Some? && d.catalog.value.txn == d.checkpoint.value.txn
    && (forall k :: k in d.catalog.value.hours ==> HourOk(d, k, d.catalog.value.hours[k]))
  }

  /** An archive between transactions: the files of the catalog's hours and no others. */
  predicate Valid(d: Disk) {
    d.pending.None? && Opens(d) && d.data.Keys == d.index.Keys == d.catalog.value.hours.Keys
  }

  // ---------- transactions ----------

  function Lead(c: Change): nat { if c.before.Some? then c.before.value.size else 0 }

  function Flat(stages: seq<nat>, blobs: map<nat, Bytes>): Bytes
    requires forall n :: n in stages ==> n in blobs
  {
    if stages == [] then [] else blobs[stages[0]] + Flat(stages[1..], blobs)
  }

  function WriteOps(k: Key, at: nat, stages: seq<nat>, blobs: map<nat, Bytes>): seq<Op>
    requires forall n :: n in stages ==> n in blobs
    decreases stages
  {
    if stages == [] then []
    else [Write(k, at, blobs[stages[0]])] + WriteOps(k, at + |blobs[stages[0]]|, stages[1..], blobs)
  }

  predicate Staged(cs: seq<Change>, blobs: map<nat, Bytes>) {
    forall i, n :: 0 <= i < |cs| && n in cs[i].stages ==> n in blobs
  }

  function ChangeOps(c: Change, blobs: map<nat, Bytes>): seq<Op>
    requires forall n :: n in c.stages ==> n in blobs
  {
    (if c.before.None? then [Create(c.key)] else [])
    + WriteOps(c.key, Lead(c), c.stages, blobs) + [PutIndex(c.key, c.afterIndex)]
  }

  function ChangesOps(cs: seq<Change>, blobs: map<nat, Bytes>): seq<Op>
    requires Staged(cs, blobs)
  {
    if cs == [] then []
    else assert forall n :: n in cs[0].stages ==> n in blobs;
         assert Staged(cs[1..], blobs);
         ChangeOps(cs[0], blobs) + ChangesOps(cs[1..], blobs)
  }

  function StagePuts(stages: seq<nat>, blobs: map<nat, Bytes>): seq<Op>
    requires forall n :: n in stages ==> n in blobs
  {
    if stages == [] then [] else [StagePut(stages[0], blobs[stages[0]])] + StagePuts(stages[1..], blobs)
  }

  function StageOps(cs: seq<Change>, blobs: map<nat, Bytes>): seq<Op>
    requires Staged(cs, blobs)
  {
    if cs == [] then []
    else assert forall n :: n in cs[0].stages ==> n in blobs;
         assert Staged(cs[1..], blobs);
         StagePuts(cs[0].stages, blobs) + StageOps(cs[1..], blobs)
  }

  function StageRms(stages: seq<nat>): seq<Op> {
    if stages == [] then [] else [StageRm(stages[0])] + StageRms(stages[1..])
  }

  function Discard(cs: seq<Change>): seq<Op> {
    if cs == [] then [] else StageRms(cs[0].stages) + Discard(cs[1..])
  }

  function DeleteOps(keys: seq<Key>): seq<Op> {
    if keys == [] then [] else [Unlink(keys[0]), RmIndex(keys[0])] + DeleteOps(keys[1..])
  }

  /** finishPending. */
  function Finish(p: Pending): seq<Op> {
    [RmPending] + (if p.Publish? then Discard(p.changes) else [])
  }

  predicate CompactShape(p: Pending) {
    p.Publish? && p.compact && |p.changes| == 1 &&
    var c := p.changes[0];
    c.before.Some? && c.backup.Some? && |c.stages| == 2 && c.stages[1] == c.backup.value && c.stages[0] != c.stages[1]
  }

  /** The transaction can be written down: every staging file it names has contents. */
  predicate Shaped(p: Pending, blobs: map<nat, Bytes>) {
    p.Publish? ==> if p.compact then CompactShape(p) && p.changes[0].stages[0] in blobs else Staged(p.changes, blobs)
  }

  /** Everything before pending.json is published. */
  function Prologue(p: Pending, blobs: map<nat, Bytes>): seq<Op>
    requires p.Publish? && Shaped(p, blobs)
  {
    if p.compact then [Link(p.changes[0].key, p.changes[0].stages[1])] else StageOps(p.changes, blobs)
  }

  /** From pending.json to the checkpoint, both excluded. */
  function Body(p: Pending, blobs: map<nat, Bytes>): seq<Op>
    requires p.Publish? && Shaped(p, blobs)
  {
    (if p.compact then
       var c := p.changes[0];
       [Rename(c.stages[0], c.key), PutIndex(c.key, c.afterIndex)]
     else ChangesOps(p.changes, blobs))
    + [PutCatalog(p.afterCat)]
  }

  /** All disk operations of a commit, a compaction's publication or an expiry, in order. */
  function TxOps(p: Pending, blobs: map<nat, Bytes>): seq<Op>
    requires Shaped(p, blobs)
  {
    match p
    case Publish(_, _, _, _, _, _, _, _) =>
      (Prologue(p, blobs) + ([PutPending(p)] + Body(p, blobs))) + ([PutCheckpoint(p.afterCp)] + Finish(p))
    case Delete(_, cat, keys) => [PutPending(p)] + (([PutCatalog(cat)] + DeleteOps(keys)) + Finish(p))
  }

  /** The number of operations that must complete for the transaction to take effect: up to
      checkpoint.json for a commit or compaction, up to pending.json for an expiry. */
  function CommitPoint(p: Pending, blobs: map<nat, Bytes>): nat
    requires Shaped(p, blobs)
  {
    if p.Publish? then |Prologue(p, blobs)| + |Body(p, blobs)| + 2 else 1
  }

  // ---------- what a transaction is for ----------

  function NewContent(data: map<Key, Bytes>, c: Change, compact: bool, blobs: map<nat, Bytes>): Bytes
    requires compact ==> |c.stages| > 0 && c.stages[0] in blobs
    requires !compact ==> forall n :: n in c.stages ==> n in blobs
  {
    if compact then blobs[c.stages[0]]
    else (if c.before.Some? && c.key in data then data[c.key] else []) + Flat(c.stages, blobs)
  }

  function NewData(data: map<Key, Bytes>, cs: seq<Change>, compact: bool, blobs: map<nat, Bytes>): map<Key, Bytes>
    requires compact ==> forall i :: 0 <= i < |cs| ==> |cs[i].stages| > 0 && cs[i].stages[0] in blobs
    requires !compact ==> Staged(cs, blobs)
    decreases cs
  {
    if cs == [] then data
    else NewData(data[cs[0].key := NewContent(data, cs[0], compact, blobs)], cs[1..], compact, blobs)
  }

  function NewIndex(index: map<Key, Index>, cs: seq<Change>): map<Key, Index>
    decreases cs
  {
    if cs == [] then index else NewIndex(index[cs[0].key := cs[0].afterIndex], cs[1..])
  }

  function NewHours(hours: map<Key, Entry>, cs: seq<Change>): map<Key, Entry>
    decreases cs
  {
    if cs == [] then hours else NewHours(hours[cs[0].key := cs[0].after], cs[1..])
  }

  /** The archive the transaction is meant to produce. */
  function AfterView(d: Disk, p: Pending, blobs: map<nat, Bytes>): View
    requires Shaped(p, blobs)
  {
    match p
    case Publish(compact, _, _, _, afterCp, _, afterCat, cs) =>
      View(Some(afterCat), Some(afterCp), NewData(d.data, cs, compact, blobs), NewIndex(d.index, cs))
    case Delete(_, cat, keys) =>
      var gone := set k | k in keys;
      View(Some(cat), d.checkpoint, d.data - gone, d.index - gone)
  }

  predicate Distinct(cs: seq<Change>) {
    forall i, j :: 0 <= i < j < |cs| ==> cs[i].key != cs[j].key
  }

  predicate ChangeOk(z: Codec, d: Disk, c: Change, compact: bool, blobs: map<nat, Bytes>)
    requires Valid(d)
  {
    var hours := d.catalog.value.hours;
    && c.before == (if c.key in hours then Some(hours[c.key]) else None)
    && (c.before.Some? ==> c.beforeIndex == d.index[c.key])
    && IndexOk(c.afterIndex, c.after) && (c.backup.Some? <==> compact)
    && (if compact then |c.stages| > 0 && c.stages[0] in blobs else forall n :: n in c.stages ==> n in blobs)
    && |NewContent(d.data, c, compact, blobs)| == c.after.size
    && Unverified(c, compact) <= |c.afterIndex|
    && Decodes(z, NewContent(d.data, c, compact, blobs), c.afterIndex[Unverified(c, compact)..])
  }

  /** How many leading members of the new index the transaction carries over unread. */
  function Unverified(c: Change, compact: bool): nat {
    if compact || c.before.None? then 0 else |c.beforeIndex|
  }

  /** The transactions the store builds on the archive `d`. */
  predicate TxOk(z: Codec, d: Disk, p: Pending, blobs: map<nat, Bytes>)
    requires Valid(d)
  {
    Shaped(p, blobs) &&
    match p
    case Publish(compact, previous, txn, beforeCp, afterCp, beforeCat, afterCat, cs) =>
      && d.catalog == Some(beforeCat) && d.checkpoint == Some(beforeCp)
      && previous == beforeCp.txn && txn != previous && afterCp.txn == txn && afterCat.txn == txn
      && Distinct(cs) && afterCat.hours == NewHours(beforeCat.hours, cs)
      && (forall i :: 0 <= i < |cs| ==> ChangeOk(z, d, cs[i], compact, blobs))
      && (compact ==> cs[0].stages[0] in d.staging && d.staging[cs[0].stages[0]] == blobs[cs[0].stages[0]])
    case Delete(txn, cat, keys) =>
      && txn == d.checkpoint.value.txn && cat.txn == txn
      && cat.hours == d.catalog.value.hours - (set k | k in keys)
  }

  // ---------- reopening ----------

  datatype Plan = Plan(ops: seq<Op>, ok: bool)

  /** verifyMembers, size and index checks of one change when rolling forward. */
  predicate Verified(z: Codec, d: Disk, c: Change) {
    && c.key in d.data && |d.data[c.key]| == c.after.size
    && c.key in d.index && d.index[c.key] == c.afterIndex && IndexOk(c.afterIndex, c.after)
    && (Unverified(c, c.backup.Some?) <= |c.afterIndex| ==>
         Decodes(z, d.data[c.key], c.afterIndex[Unverified(c, c.backup.Some?)..]))
  }

  function UndoChange(d: Disk, c: Change, compact: bool): Plan {
    if compact then
      if c.backup.Some? && c.backup.value in d.staging
      then Plan([Restore(c.backup.value, c.key), PutIndex(c.key, c.beforeIndex)], true) else Plan([], false)
    else if c.before.Some? then
      if c.key in d.data && c.before.value.size <= |d.data[c.key]|
      then Plan([Truncate(c.key, c.before.value.size), PutIndex(c.key, c.beforeIndex)], true) else Plan([], false)
    else Plan([Unlink(c.key), RmIndex(c.key)], true)
  }

  function Rollback(d: Disk, cs: seq<Change>, compact: bool): Plan
    decreases cs
  {
    if cs == [] then Plan([], true)
    else
      var u := UndoChange(d, cs[0], compact);
      if !u.ok then u
      else
        var rest := Rollback(RunAll(d, u.ops), cs[1..], compact);
        Plan(u.ops + rest.ops, rest.ok)
  }

  function Recover(z: Codec, d: Disk, p: Pending): Plan
    requires d.checkpoint.Some?
  {
    match p
    case Delete(txn, cat, keys) =>
      if d.checkpoint.value.txn != txn then Plan([], false)
      else Plan(([PutCatalog(cat)] + DeleteOps(keys)) + Finish(p), true)
    case Publish(compact, previous, txn, beforeCp, afterCp, beforeCat, afterCat, cs) =>
      if d.checkpoint.value.txn == txn then
        if d.catalog == Some(afterCat) && d.checkpoint == Some(afterCp) && forall i :: 0 <= i < |cs| ==> Verified(z, d, cs[i])
        then Plan(Finish(p), true) else Plan([], false)
      else if d.checkpoint.value.txn == previous then
        if d.checkpoint != Some(beforeCp) then Plan([], false)
        else
          var r := Rollback(d, cs, compact);
          if !r.ok then r else Plan((r.ops + [PutCatalog(beforeCat)]) + Finish(p), true)
      else Plan([], false)
  }

  const NoHours := Catalog(0, map[])
  const NoOffsets := Checkpoint(0, map[])

  /** init: publish an empty archive, or recover, then check everything and clear staging. */
  function InitPlan(z: Codec, d: Disk): Plan {
    if (d.catalog.None? || d.catalog == Some(NoHours)) && d.checkpoint.None? && d.pending.None? then
      if d.data != map[] then Plan([], false)
      else Plan([PutCatalog(NoHours), PutCheckpoint(NoOffsets), Sweep(d.staging.Keys)], true)
    else if d.checkpoint.None? then Plan([], false)
    else
      var r := if d.pending.Some? then Recover(z, d, d.pending.value) else Plan([], true);
      if !r.ok then r
      else
        var d' := RunAll(d, r.ops);
        if Opens(d') then Plan(r.ops + [Sweep(d'.staging.Keys)], true) else Plan(r.ops, false)
  }

  datatype Crash = Crash(fuel: nat, torn: nat)

  /** Reopening again and again, each time dying part way. */
  function Restarts(z: Codec, d: Disk, crashes: seq<Crash>): Disk
    decreases crashes
  {
    if crashes == [] then d
    else Restarts(z, Run(d, InitPlan(z, d).ops, crashes[0].fuel, crashes[0].torn), crashes[1..])
  }
}
