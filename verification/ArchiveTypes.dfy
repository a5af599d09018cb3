/** The records the log archive keeps on disk. */
module ArchiveTypes {
  import opened Options

  type Byte = bv8
  type Bytes = seq<Byte>

  const LF: Byte := 10

  /** One hour of one source; the paths of its data and index files are functions of it. */
  datatype Key = Key(source: string, hour: int)

  /** One gzip member of an hour file. */
  datatype Member = Member(start: nat, end: nat, lineCount: nat, bytes: nat,
                           minTime: int, maxTime: int, unknown: nat)

  type Index = seq<Member>

  datatype Entry = Entry(fileId: nat, size: nat, lineCount: nat,
                         minTime: int, maxTime: int, unknown: nat, compacted: bool)

  datatype Catalog = Catalog(txn: nat, hours: map<Key, Entry>)

  datatype Gap = Gap(reason: string, from: nat, to: Option<nat>)

  datatype Kind = Docker | Access | Issue

  /** What the collector persists about one followed file.  Hashes are injective,
      so a fingerprint is the fingerprinted bytes themselves. */
  datatype Generation = Generation(source: string, instance: string, kind: Kind, identity: nat,
                                   offset: nat, observed: nat, prefix: Bytes, tail: Bytes,
                                   closed: bool, active: bool, stable: nat, partial: nat,
                                   long: Option<nat>, gaps: seq<Gap>)

  datatype Checkpoint = Checkpoint(txn: nat, generations: map<string, Generation>)

  /** One hour touched by a transaction; `stages` and `backup` name staging files. */
  datatype Change = Change(key: Key, before: Option<Entry>, beforeIndex: Index,
                           after: Entry, afterIndex: Index,
                           stages: seq<nat>, backup: Option<nat>)

  /** pending.json. */
  datatype Pending =
    | Publish(compact: bool, previous: nat, txn: nat,
              beforeCp: Checkpoint, afterCp: Checkpoint,
              beforeCat: Catalog, afterCat: Catalog, changes: seq<Change>)
    | Delete(txn: nat, afterCat: Catalog, keys: seq<Key>)

  /** gzip, seen only through what the archive relies on: members are never empty, decode
      to what was written, and a file of complete members decodes member by member. */
  datatype Codec = Codec(zip: (nat, Bytes) -> Bytes, unzip: Bytes -> Option<Bytes>)

  ghost predicate Sound(z: Codec) {
    && (forall level: nat, text: Bytes :: |z.zip(level, text)| > 0 && z.unzip(z.zip(level, text)) == Some(text))
    && (forall a: Bytes, b: Bytes {:trigger z.unzip(a + b)} :: z.unzip(a).Some? && z.unzip(b).Some? ==>
         z.unzip(a + b) == Some(z.unzip(a).value + z.unzip(b).value))
  }

  function CountLF(text: Bytes): nat {
    if text == [] then 0 else (if text[0] == LF then 1 else 0) + CountLF(text[1..])
  }

  lemma {:induction false} CountLFConcat(a: Bytes, b: Bytes)
    ensures CountLF(a + b) == CountLF(a) + CountLF(b)
  {
    if a == [] {
      assert a + b == b;
    } else {
      assert (a + b)[1..] == a[1..] + b;
      CountLFConcat(a[1..], b);
    }
  }

  // ---------- physical lines ----------

  /** One complete physical line: its only LF is its last byte. */
  predicate IsLine(raw: Bytes) {
    |raw| > 0 && raw[|raw| - 1] == LF && forall i :: 0 <= i < |raw| - 1 ==> raw[i] != LF
  }

  function Flatten(parts: seq<Bytes>): Bytes {
    if parts == [] then [] else parts[0] + Flatten(parts[1..])
  }

  lemma {:induction false} FlattenConcat(a: seq<Bytes>, b: seq<Bytes>)
    ensures Flatten(a + b) == Flatten(a) + Flatten(b)
  {
    if a == [] {
      assert a + b == b;
    } else {
      assert (a + b)[1..] == a[1..] + b;
      FlattenConcat(a[1..], b);
    }
  }

  lemma {:induction false} NoLF(text: Bytes)
    requires forall i :: 0 <= i < |text| ==> text[i] != LF
    ensures CountLF(text) == 0
  {
    if text != [] { NoLF(text[1..]); }
  }

  lemma LineCounts(raw: Bytes)
    requires IsLine(raw)
    ensures CountLF(raw) == 1
  {
    var body := raw[..|raw| - 1];
    assert raw == body + [LF];
    NoLF(body);
    CountLFConcat(body, [LF]);
  }

  lemma {:induction false} LinesCount(lines: seq<Bytes>)
    requires forall i :: 0 <= i < |lines| ==> IsLine(lines[i])
    ensures CountLF(Flatten(lines)) == |lines| && |Flatten(lines)| >= |lines|
  {
    if lines != [] {
      LineCounts(lines[0]);
      CountLFConcat(lines[0], Flatten(lines[1..]));
      LinesCount(lines[1..]);
    }
  }

  /** The position of the first LF, or the length of the text. */
  function FindLF(text: Bytes): (n: nat)
    ensures n <= |text| && (n < |text| ==> text[n] == LF) && forall i :: 0 <= i < n ==> text[i] != LF
  {
    if text == [] || text[0] == LF then 0 else 1 + FindLF(text[1..])
  }

  /** The complete lines of a text; an unfinished last line is not one. */
  function Split(text: Bytes): seq<Bytes>
    decreases |text|
  {
    var n := FindLF(text);
    if n == |text| then [] else [text[..n + 1]] + Split(text[n + 1..])
  }

  lemma SplitFirst(raw: Bytes, rest: Bytes)
    requires IsLine(raw)
    ensures Split(raw + rest) == [raw] + Split(rest)
  {
    var text := raw + rest;
    var n := FindLF(text);
    assert text[|raw| - 1] == LF;
    assert forall i :: 0 <= i < |raw| - 1 ==> text[i] == raw[i];
    assert text[..n + 1] == raw && text[n + 1..] == rest;
  }

  lemma {:induction false} SplitLines(lines: seq<Bytes>, rest: Bytes)
    requires forall i :: 0 <= i < |lines| ==> IsLine(lines[i])
    ensures Split(Flatten(lines) + rest) == lines + Split(rest)
  {
    if lines == [] {
      assert Flatten(lines) + rest == rest;
    } else {
      assert Flatten(lines) + rest == lines[0] + (Flatten(lines[1..]) + rest);
      SplitFirst(lines[0], Flatten(lines[1..]) + rest);
      SplitLines(lines[1..], rest);
    }
  }
}
