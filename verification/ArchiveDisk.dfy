/** The archive directory as a value, the disk operations the store issues, and crashes. */
module ArchiveDisk {
  import opened Options
  import opened ArchiveTypes

  /** `data` and `index` hold the two files of each hour, `staging` the private temporaries. */
  datatype Disk = Disk(pending: Option<Pending>, catalog: Option<Catalog>, checkpoint: Option<Checkpoint>,
                       data: map<Key, Bytes>, index: map<Key, Index>, staging: map<nat, Bytes>)

  /** What a reader of the archive can observe: everything but staging and the journal. */
  datatype View = View(catalog: Option<Catalog>, checkpoint: Option<Checkpoint>,
                       data: map<Key, Bytes>, index: map<Key, Index>)

  function Visible(d: Disk): View { View(d.catalog, d.checkpoint, d.data, d.index) }

  /** Every operation is atomic (JSON files are replaced by rename) except the two that
      write file contents, and Sweep, which removes many files. */
  datatype Op =
    | PutPending(p: Pending) | RmPending
    | PutCatalog(c: Catalog) | PutCheckpoint(cp: Checkpoint)
    | Create(key: Key) | Write(key: Key, at: nat, bytes: Bytes) | Truncate(key: Key, size: nat) | Unlink(key: Key)
    | PutIndex(key: Key, index: Index) | RmIndex(key: Key)
    | StagePut(name: nat, bytes: Bytes) | StageRm(name: nat)
    | Link(key: Key, name: nat)     // hour file -> extra staging name
    | Rename(name: nat, key: Key)   // staging file replaces the hour file
    | Restore(name: nat, key: Key)  // link to a throw-away name, then rename that over the hour file
    | Sweep(names: set<nat>)

  /** A positioned write. */
  function Splice(f: Bytes, at: nat, b: Bytes): Bytes
    requires at <= |f|
  {
    f[..at] + b + (if at + |b| <= |f| then f[at + |b|..] else [])
  }

  function Apply(d: Disk, op: Op): Disk {
    match op
    case PutPending(p) => d.(pending := Some(p))
    case RmPending => d.(pending := None)
    case PutCatalog(c) => d.(catalog := Some(c))
    case PutCheckpoint(c) => d.(checkpoint := Some(c))
    case Create(k) => d.(data := d.data[k := []])
    case Write(k, at, b) =>
      if k in d.data && at <= |d.data[k]| then d.(data := d.data[k := Splice(d.data[k], at, b)]) else d
    case Truncate(k, n) =>
      if k in d.data && n <= |d.data[k]| then d.(data := d.data[k := d.data[k][..n]]) else d
    case Unlink(k) => d.(data := d.data - {k})
    case PutIndex(k, ix) => d.(index := d.index[k := ix])
    case RmIndex(k) => d.(index := d.index - {k})
    case StagePut(n, b) => d.(staging := d.staging[n := b])
    case StageRm(n) => d.(staging := d.staging - {n})
    case Link(k, n) => if k in d.data then d.(staging := d.staging[n := d.data[k]]) else d
    case Rename(n, k) =>
      if n in d.staging then d.(data := d.data[k := d.staging[n]], staging := d.staging - {n}) else d
    case Restore(n, k) => if n in d.staging then d.(data := d.data[k := d.staging[n]]) else d
    case Sweep(names) => d.(staging := d.staging - names)
  }

  /** What a crash inside `op` leaves: `torn` says how much of it reached the disk. */
  function Torn(d: Disk, op: Op, torn: nat): Disk {
    match op
    case Write(k, at, b) => Apply(d, Write(k, at, if torn <= |b| then b[..torn] else b))
    case StagePut(n, b) => Apply(d, StagePut(n, if torn <= |b| then b[..torn] else b))
    case Sweep(names) => Apply(d, Sweep(set n | n in names && n < torn))
    case _ => d
  }

  function RunAll(d: Disk, ops: seq<Op>): Disk
    decreases ops
  {
    if ops == [] then d else RunAll(Apply(d, ops[0]), ops[1..])
  }

  /** The process dies inside operation number `fuel`, if there are that many. */
  function Run(d: Disk, ops: seq<Op>, fuel: nat, torn: nat): Disk
    decreases ops
  {
    if ops == [] then d
    else if fuel == 0 then Torn(d, ops[0], torn)
    else Run(Apply(d, ops[0]), ops[1..], fuel - 1, torn)
  }

  lemma {:induction false} RunAllConcat(d: Disk, a: seq<Op>, b: seq<Op>)
    ensures RunAll(d, a + b) == RunAll(RunAll(d, a), b)
    decreases a
  {
    if a == [] {
      assert a + b == b;
    } else {
      assert (a + b)[1..] == a[1..] + b;
      RunAllConcat(Apply(d, a[0]), a[1..], b);
    }
  }

  /** A crash hits the first part or the second. */
  lemma {:induction false} RunConcat(d: Disk, a: seq<Op>, b: seq<Op>, fuel: nat, torn: nat)
    ensures Run(d, a + b, fuel, torn)
         == if fuel < |a| then Run(d, a, fuel, torn) else Run(RunAll(d, a), b, fuel - |a|, torn)
    decreases a
  {
    if a == [] {
      assert a + b == b;
    } else if fuel > 0 {
      assert (a + b)[1..] == a[1..] + b;
      RunConcat(Apply(d, a[0]), a[1..], b, fuel - 1, torn);
    }
  }

  lemma {:induction false} RunToEnd(d: Disk, ops: seq<Op>, fuel: nat, torn: nat)
    requires |ops| <= fuel
    ensures Run(d, ops, fuel, torn) == RunAll(d, ops)
    decreases ops
  {
    if ops != [] {
      RunToEnd(Apply(d, ops[0]), ops[1..], fuel - 1, torn);
    }
  }

  lemma RunHead(d: Disk, op: Op, rest: seq<Op>)
    ensures RunAll(d, [op] + rest) == RunAll(Apply(d, op), rest)
    ensures RunAll(d, [op]) == Apply(d, op)
  {
    assert ([op] + rest)[1..] == rest;
  }

  lemma RunTwo(d: Disk, a: Op, b: Op)
    ensures RunAll(d, [a, b]) == Apply(Apply(d, a), b)
  {
    assert [a, b] == [a] + [b];
    RunHead(d, a, [b]);
    RunHead(Apply(d, a), b, []);
  }
}
