/** Building gzip members from records, and rebuilding them when an hour is compacted. */
module ArchiveStaging {
  import opened Options
  import opened ArchiveTypes
  import opened ArchiveDisk
  import opened ArchiveJournal

  // ---------- cutting a list into members ----------

  /** The flush loop of stage and compactHour: `cur` is the open batch, `bytes` its weight. */
  function Pack<T>(items: seq<T>, weight: T -> nat, cur: seq<T>, bytes: nat, cap: nat): seq<seq<T>>
    decreases items
  {
    if items == [] then (if cur == [] then [] else [cur])
    else
      var x := items[0];
      if bytes + weight(x) > cap && cur != [] then [cur] + PackOpen(items, weight, [], 0, cap)
      else PackOpen(items, weight, cur, bytes, cap)
  }

  function PackOpen<T>(items: seq<T>, weight: T -> nat, cur: seq<T>, bytes: nat, cap: nat): seq<seq<T>>
    requires items != []
    decreases items, 0
  {
    var cur', bytes' := cur + [items[0]], bytes + weight(items[0]);
    if bytes' >= cap then [cur'] + Pack(items[1..], weight, [], 0, cap)
    else Pack(items[1..], weight, cur', bytes', cap)
  }

  function Join<T>(groups: seq<seq<T>>): seq<T> {
    if groups == [] then [] else groups[0] + Join(groups[1..])
  }

  function Weigh<T>(items: seq<T>, weight: T -> nat): nat {
    if items == [] then 0 else weight(items[0]) + Weigh(items[1..], weight)
  }

  lemma {:induction false} WeighConcat<T>(a: seq<T>, b: seq<T>, weight: T -> nat)
    ensures Weigh(a + b, weight) == Weigh(a, weight) + Weigh(b, weight)
  {
    if a == [] {
      assert a + b == b;
    } else {
      assert (a + b)[1..] == a[1..] + b;
      WeighConcat(a[1..], b, weight);
    }
  }

  /** The groups make up the items; none is empty, and only a group of one item outweighs the cap. */
  predicate Batched<T(==)>(groups: seq<seq<T>>, items: seq<T>, weight: T -> nat, cap: nat) {
    Join(groups) == items && forall i :: 0 <= i < |groups| ==> groups[i] != [] && (Weigh(groups[i], weight) <= cap || |groups[i]| == 1)
  }

  /** Batching neither drops, repeats nor reorders anything; no batch is empty, and only a
      batch of one item outweighs the cap. */
  lemma {:induction false} PackExact<T>(items: seq<T>, weight: T -> nat, cur: seq<T>, cap: nat)
    requires |cur| > 0 ==> Weigh(cur, weight) < cap
    ensures Batched(Pack(items, weight, cur, Weigh(cur, weight), cap), cur + items, weight, cap)
    decreases items
  {
    hide Weigh, Join, Batched, Pack;
    NoneBatched(weight, cap);
    if items == [] {
      var none: seq<T> := [];
      assert items == none && cur + items == cur + none && (cur == [] ==> cur + items == none);
      if cur != [] { BatchInFront(cur, [], none, weight, cap); }
      PackEnd(weight, cur, Weigh(cur, weight), cap);
    } else {
      var x, rest, bytes := items[0], items[1..], Weigh(cur, weight);
      assert items == [x] + rest;
      if bytes + weight(x) > cap && cur != [] {
        WeighNone(weight);
        PackOne(items, weight, [], cap);
        assert [] + items == items;
        BatchInFront(cur, PackOpen(items, weight, [], 0, cap), items, weight, cap);
      } else {
        PackOne(items, weight, cur, cap);
      }
      PackStep(items, weight, cur, bytes, cap);
    }
  }

  /** The next item joins the open batch. */
  lemma {:induction false} PackOne<T>(items: seq<T>, weight: T -> nat, cur: seq<T>, cap: nat)
    requires items != [] && (cur != [] ==> Weigh(cur, weight) + weight(items[0]) <= cap)
    ensures Batched(PackOpen(items, weight, cur, Weigh(cur, weight), cap), cur + items, weight, cap)
    decreases items, 0
  {
    hide Weigh, Join, Batched, Pack;
    var x, rest, cur' := items[0], items[1..], cur + [items[0]];
    WeighConcat(cur, [x], weight);
    WeighOne(x, weight);
    assert cur + items == cur' + rest;
    if Weigh(cur', weight) >= cap {
      WeighNone(weight);
      PackExact(rest, weight, [], cap);
      assert [] + rest == rest;
      BatchInFront(cur', Pack(rest, weight, [], 0, cap), rest, weight, cap);
    } else {
      PackExact(rest, weight, cur', cap);
    }
  }

  /** No batch could have taken the next item: it is full, or the item would have been too much. */
  predicate Full<T>(groups: seq<seq<T>>, weight: T -> nat, cap: nat) {
    forall i {:trigger groups[i]} :: 0 <= i < |groups| - 1 ==>
      Weigh(groups[i], weight) >= cap || (groups[i + 1] != [] && Weigh(groups[i], weight) + weight(groups[i + 1][0]) > cap)
  }

  lemma FullInFront<T>(g: seq<T>, groups: seq<seq<T>>, all: seq<T>, weight: T -> nat, cap: nat)
    requires Full(groups, weight, cap) && Batched(groups, all, weight, cap)
    requires Weigh(g, weight) >= cap || (all != [] && Weigh(g, weight) + weight(all[0]) > cap)
    ensures Full([g] + groups, weight, cap)
  {
    hide Weigh;
    var more := [g] + groups;
    forall i | 0 <= i < |more| - 1
      ensures Weigh(more[i], weight) >= cap || (more[i + 1] != [] && Weigh(more[i], weight) + weight(more[i + 1][0]) > cap)
    {
      if i == 0 { assert more[1] == groups[0] && all == groups[0] + Join(groups[1..]); } else { assert more[i] == groups[i - 1] && more[i + 1] == groups[i]; }
    }
  }

  /** Nor is any cut off too early. */
  lemma {:induction false} PackFull<T>(items: seq<T>, weight: T -> nat, cur: seq<T>, cap: nat)
    requires |cur| > 0 ==> Weigh(cur, weight) < cap
    ensures Full(Pack(items, weight, cur, Weigh(cur, weight), cap), weight, cap)
    decreases items, 1
  {
    hide Weigh, Join, Batched, Pack, PackOpen, Full;
    if items == [] {
      PackEnd(weight, cur, Weigh(cur, weight), cap);
      FewFull(cur, weight, cap);
    } else {
      var bytes := Weigh(cur, weight);
      PackStep(items, weight, cur, bytes, cap);
      if bytes + weight(items[0]) > cap && cur != [] {
        WeighNone(weight);
        PackOne(items, weight, [], cap);
        PackOneFull(items, weight, [], cap);
        assert [] + items == items;
        FullInFront(cur, PackOpen(items, weight, [], 0, cap), items, weight, cap);
      } else {
        PackOneFull(items, weight, cur, cap);
      }
    }
  }

  lemma FewFull<T>(cur: seq<T>, weight: T -> nat, cap: nat)
    ensures Full([], weight, cap) && Full([cur] + [], weight, cap)
  {}

  lemma {:induction false} PackOneFull<T>(items: seq<T>, weight: T -> nat, cur: seq<T>, cap: nat)
    requires items != [] && (|cur| > 0 ==> Weigh(cur, weight) < cap)
    ensures Full(PackOpen(items, weight, cur, Weigh(cur, weight), cap), weight, cap)
    decreases items, 0
  {
    hide Weigh, Join, Batched, Pack, Full;
    var cur', rest := cur + [items[0]], items[1..];
    WeighConcat(cur, [items[0]], weight);
    WeighOne(items[0], weight);
    WeighNone(weight);
    if Weigh(cur', weight) >= cap {
      PackExact(rest, weight, [], cap);
      PackFull(rest, weight, [], cap);
      assert [] + rest == rest;
      FullInFront(cur', Pack(rest, weight, [], 0, cap), rest, weight, cap);
    } else {
      PackFull(rest, weight, cur', cap);
    }
  }

  lemma PackEnd<T>(weight: T -> nat, cur: seq<T>, bytes: nat, cap: nat)
    ensures Pack([], weight, cur, bytes, cap) == if cur == [] then [] else [cur] + []
  {}

  lemma PackStep<T>(items: seq<T>, weight: T -> nat, cur: seq<T>, bytes: nat, cap: nat)
    requires items != []
    ensures Pack(items, weight, cur, bytes, cap)
         == if bytes + weight(items[0]) > cap && cur != [] then [cur] + PackOpen(items, weight, [], 0, cap) else PackOpen(items, weight, cur, bytes, cap)
  {
    hide PackOpen;
  }

  lemma NoneBatched<T>(weight: T -> nat, cap: nat)
    ensures Batched([], [], weight, cap)
  {}

  lemma WeighNone<T>(weight: T -> nat)
    ensures Weigh([], weight) == 0
  {}

  lemma WeighOne<T>(x: T, weight: T -> nat)
    ensures Weigh([x], weight) == weight(x)
  {
    assert [x][1..] == [];
  }

  lemma BatchInFront<T>(group: seq<T>, groups: seq<seq<T>>, items: seq<T>, weight: T -> nat, cap: nat)
    requires group != [] && (Weigh(group, weight) <= cap || |group| == 1) && Batched(groups, items, weight, cap)
    ensures Batched([group] + groups, group + items, weight, cap)
  {
    hide Weigh;
    assert ([group] + groups)[1..] == groups;
  }

  /** The loop itself. */
  method PackLoop<T>(items: seq<T>, weight: T -> nat, cap: nat) returns (groups: seq<seq<T>>)
    ensures groups == Pack(items, weight, [], 0, cap)
  {
    groups := [];
    var batch: seq<T>, bytes: nat := [], 0;
    for i := 0 to |items|
      invariant batch == [] ==> bytes == 0
      invariant groups + Pack(items[i..], weight, batch, bytes, cap) == Pack(items, weight, [], 0, cap)
    {
      var x := items[i];
      assert items[i..][1..] == items[i + 1..];
      if bytes + weight(x) > cap && batch != [] {
        groups, batch, bytes := groups + [batch], [], 0;
      }
      batch, bytes := batch + [x], bytes + weight(x);
      if bytes >= cap {
        groups, batch, bytes := groups + [batch], [], 0;
      }
    }
    if batch != [] {
      groups := groups + [batch];
    }
  }

  // ---------- members from pieces ----------

  /** What one gzip member is made from. */
  datatype Piece = Piece(text: Bytes, lines: nat, minTime: int, maxTime: int, unknown: nat)

  function Packed(z: Codec, level: nat, pieces: seq<Piece>): Bytes {
    if pieces == [] then [] else z.zip(level, pieces[0].text) + Packed(z, level, pieces[1..])
  }

  function MemberAt(z: Codec, level: nat, p: Piece, at: nat): Member {
    Member(at, at + |z.zip(level, p.text)|, p.lines, |p.text|, p.minTime, p.maxTime, p.unknown)
  }

  function PieceIndex(z: Codec, level: nat, pieces: seq<Piece>, at: nat): Index
    decreases pieces
  {
    if pieces == [] then []
    else
      var m := MemberAt(z, level, pieces[0], at);
      [m] + PieceIndex(z, level, pieces[1..], m.end)
  }

  function PieceText(pieces: seq<Piece>): Bytes {
    if pieces == [] then [] else pieces[0].text + PieceText(pieces[1..])
  }

  predicate Whole(p: Piece) { 0 < |p.text| && 0 < p.lines && CountLF(p.text) == p.lines }

  /** The decoded text of an hour file. */
  function TextOf(z: Codec, content: Bytes, ix: Index): Bytes
    requires Decodes(z, content, ix)
  {
    if ix == [] then []
    else
      assert MemberDecodes(z, content, ix[0]);
      assert forall i :: 0 <= i < |ix[1..]| ==> ix[1..][i] == ix[i + 1];
      z.unzip(content[ix[0].start..ix[0].end]).value + TextOf(z, content, ix[1..])
  }

  lemma {:induction false} PieceTiles(z: Codec, level: nat, pieces: seq<Piece>, at: nat)
    requires Sound(z) && forall i :: 0 <= i < |pieces| ==> Whole(pieces[i])
    ensures var ix := PieceIndex(z, level, pieces, at);
      Tiles(ix, at) && EndOf(ix, at) == at + |Packed(z, level, pieces)| && LinesOf(ix) == CountLF(PieceText(pieces))
    decreases pieces
  {
    if pieces != [] {
      var m := MemberAt(z, level, pieces[0], at);
      assert Whole(pieces[0]);
      PieceTiles(z, level, pieces[1..], m.end);
      CountLFConcat(pieces[0].text, PieceText(pieces[1..]));
    }
  }

  /** New members written after `pre` decode to the pieces they were made from. */
  lemma {:induction false} PiecesDecode(z: Codec, level: nat, pre: Bytes, pieces: seq<Piece>, post: Bytes)
    requires Sound(z) && forall i :: 0 <= i < |pieces| ==> Whole(pieces[i])
    ensures Decodes(z, pre + Packed(z, level, pieces) + post, PieceIndex(z, level, pieces, |pre|))
    ensures TextOf(z, pre + Packed(z, level, pieces) + post, PieceIndex(z, level, pieces, |pre|)) == PieceText(pieces)
    decreases pieces
  {
    if pieces != [] {
      var p, rest := pieces[0], pieces[1..];
      var blob, m := z.zip(level, p.text), MemberAt(z, level, p, |pre|);
      var content := pre + Packed(z, level, pieces) + post;
      assert Whole(p);
      PiecesDecode(z, level, pre + blob, rest, post);
      assert content == (pre + blob) + Packed(z, level, rest) + post;
      assert content[m.start..m.end] == blob;
      FirstMember(z, content, m, PieceIndex(z, level, rest, m.end));
    }
  }

  lemma FirstMember(z: Codec, content: Bytes, m: Member, rest: Index)
    requires MemberDecodes(z, content, m) && Decodes(z, content, rest)
    ensures Decodes(z, content, [m] + rest)
    ensures TextOf(z, content, [m] + rest) == z.unzip(content[m.start..m.end]).value + TextOf(z, content, rest)
  {
    assert ([m] + rest)[1..] == rest;
  }

  /** Bytes appended after an hour's end do not change what its members decode to. */
  lemma {:induction false} TextExtends(z: Codec, content: Bytes, more: Bytes, ix: Index)
    requires Decodes(z, content, ix)
    ensures Decodes(z, content + more, ix) && TextOf(z, content + more, ix) == TextOf(z, content, ix)
  {
    forall i | 0 <= i < |ix| ensures MemberDecodes(z, content + more, ix[i]) {
      assert MemberDecodes(z, content, ix[i]);
      assert (content + more)[ix[i].start..ix[i].end] == content[ix[i].start..ix[i].end];
    }
    if ix != [] {
      assert MemberDecodes(z, content, ix[0]);
      assert forall i :: 0 <= i < |ix[1..]| ==> ix[1..][i] == ix[i + 1];
      assert Decodes(z, content, ix[1..]);
      assert (content + more)[ix[0].start..ix[0].end] == content[ix[0].start..ix[0].end];
      TextExtends(z, content, more, ix[1..]);
    }
  }

  lemma {:induction false} TextConcat(z: Codec, content: Bytes, a: Index, b: Index)
    requires Decodes(z, content, a) && Decodes(z, content, b)
    ensures Decodes(z, content, a + b) && TextOf(z, content, a + b) == TextOf(z, content, a) + TextOf(z, content, b)
    decreases a
  {
    if a == [] {
      assert a + b == b;
    } else {
      assert MemberDecodes(z, content, a[0]);
      assert forall i :: 0 <= i < |a[1..]| ==> a[1..][i] == a[i + 1];
      assert Decodes(z, content, a[1..]);
      assert (a + b)[1..] == a[1..] + b;
      TextConcat(z, content, a[1..], b);
    }
  }

  lemma {:induction false} TilesConcat(a: Index, b: Index, from: nat)
    requires Tiles(a, from) && Tiles(b, EndOf(a, from))
    ensures Tiles(a + b, from) && EndOf(a + b, from) == EndOf(b, EndOf(a, from))
    ensures LinesOf(a + b) == LinesOf(a) + LinesOf(b)
    decreases a
  {
    if a == [] {
      assert a + b == b;
    } else {
      assert (a + b)[1..] == a[1..] + b;
      assert EndOf(a, from) == EndOf(a[1..], a[0].end);
      TilesConcat(a[1..], b, a[0].end);
    }
  }

  // ---------- staging records ----------

  /** One line handed to commit; lines without a time of their own use the time of reading. */
  datatype Record = Record(source: string, raw: Bytes, eventTime: Option<int>, observedAt: int)

  const HOUR := 3600000

  function TimeOf(r: Record): int { if r.eventTime.Some? then r.eventTime.value else r.observedAt }

  function KeyOf(r: Record): Key { Key(r.source, TimeOf(r) / HOUR) }

  function RecordsOf(records: seq<Record>, k: Key): seq<Record> {
    if records == [] then []
    else (if KeyOf(records[0]) == k then [records[0]] else []) + RecordsOf(records[1..], k)
  }

  /** The hours of the records, in order of first appearance. */
  function HoursOf(records: seq<Record>): seq<Key> {
    if records == [] then []
    else
      var before, k := HoursOf(records[..|records| - 1]), KeyOf(records[|records| - 1]);
      if k in before then before else before + [k]
  }

  function Raws(records: seq<Record>): seq<Bytes> {
    seq(|records|, i requires 0 <= i < |records| => records[i].raw)
  }

  function Least(records: seq<Record>): int
    requires records != []
  {
    if |records| == 1 then TimeOf(records[0])
    else var t := Least(records[1..]); if TimeOf(records[0]) <= t then TimeOf(records[0]) else t
  }

  function Greatest(records: seq<Record>): int
    requires records != []
  {
    if |records| == 1 then TimeOf(records[0])
    else var t := Greatest(records[1..]); if TimeOf(records[0]) >= t then TimeOf(records[0]) else t
  }

  function Unknowns(records: seq<Record>): nat {
    if records == [] then 0 else (if records[0].eventTime.None? then 1 else 0) + Unknowns(records[1..])
  }

  function PieceOf(batch: seq<Record>): Piece
    requires batch != []
  {
    Piece(Flatten(Raws(batch)), |batch|, Least(batch), Greatest(batch), Unknowns(batch))
  }

  function PiecesOf(groups: seq<seq<Record>>): seq<Piece>
    requires forall i :: 0 <= i < |groups| ==> groups[i] != []
  {
    seq(|groups|, i requires 0 <= i < |groups| => PieceOf(groups[i]))
  }

  predicate LineRecords(records: seq<Record>) {
    forall i :: 0 <= i < |records| ==> IsLine(records[i].raw)
  }

  lemma RawsConcat(a: seq<Record>, b: seq<Record>)
    ensures Raws(a + b) == Raws(a) + Raws(b)
  {}

  /** Every staged member is a run of whole lines, and together they are the records in order. */
  lemma {:induction false} PiecesText(groups: seq<seq<Record>>)
    requires forall i :: 0 <= i < |groups| ==> groups[i] != [] && LineRecords(groups[i])
    ensures forall i :: 0 <= i < |groups| ==> Whole(PiecesOf(groups)[i])
    ensures PieceText(PiecesOf(groups)) == Flatten(Raws(Join(groups)))
  {
    if groups != [] {
      PiecesText(groups[1..]);
      assert PiecesOf(groups) == [PieceOf(groups[0])] + PiecesOf(groups[1..]);
      LinesCount(Raws(groups[0]));
      RawsConcat(groups[0], Join(groups[1..]));
      FlattenConcat(Raws(groups[0]), Raws(Join(groups[1..])));
      forall i | 0 <= i < |groups| ensures Whole(PiecesOf(groups)[i]) {
        if i > 0 { assert PiecesOf(groups)[i] == PiecesOf(groups[1..])[i - 1]; }
      }
    }
  }

  const LineSize := (r: Record) => |r.raw|

  function StagedPieces(records: seq<Record>, cap: nat): seq<Piece> {
    PackExact(records, LineSize, [], cap);
    PiecesOf(Pack(records, LineSize, [], 0, cap))
  }

  /** The entry after appending the pieces; an hour without lines has no times yet. */
  function Grow(z: Codec, level: nat, e: Entry, pieces: seq<Piece>): Entry
    decreases pieces
  {
    if pieces == [] then e
    else
      var p := pieces[0];
      var e' := e.(size := e.size + |z.zip(level, p.text)|, lineCount := e.lineCount + p.lines, unknown := e.unknown + p.unknown,
                   minTime := if e.lineCount == 0 || p.minTime < e.minTime then p.minTime else e.minTime,
                   maxTime := if e.lineCount == 0 || p.maxTime > e.maxTime then p.maxTime else e.maxTime);
      Grow(z, level, e', pieces[1..])
  }

  lemma {:induction false} GrowSums(z: Codec, level: nat, e: Entry, pieces: seq<Piece>)
    requires forall i :: 0 <= i < |pieces| ==> Whole(pieces[i])
    ensures var g := Grow(z, level, e, pieces);
      g.size == e.size + |Packed(z, level, pieces)| && g.lineCount == e.lineCount + CountLF(PieceText(pieces))
      && g.fileId == e.fileId && g.compacted == e.compacted
    decreases pieces
  {
    if pieces != [] {
      assert Whole(pieces[0]);
      CountLFConcat(pieces[0].text, PieceText(pieces[1..]));
      var p := pieces[0];
      var e' := e.(size := e.size + |z.zip(level, p.text)|, lineCount := e.lineCount + p.lines, unknown := e.unknown + p.unknown,
                   minTime := if e.lineCount == 0 || p.minTime < e.minTime then p.minTime else e.minTime,
                   maxTime := if e.lineCount == 0 || p.maxTime > e.maxTime then p.maxTime else e.maxTime);
      GrowSums(z, level, e', pieces[1..]);
    }
  }

  /** The staging files of the pieces, under consecutive names. */
  function Blobs(z: Codec, level: nat, pieces: seq<Piece>, name: nat): map<nat, Bytes>
    decreases pieces
  {
    if pieces == [] then map[] else Blobs(z, level, pieces[1..], name + 1)[name := z.zip(level, pieces[0].text)]
  }

  predicate BlobsHold(z: Codec, level: nat, pieces: seq<Piece>, name: nat, blobs: map<nat, Bytes>)
    decreases pieces
  {
    pieces == [] ||
    (name in blobs && blobs[name] == z.zip(level, pieces[0].text) && BlobsHold(z, level, pieces[1..], name + 1, blobs))
  }

  function Names(name: nat, count: nat): seq<nat> { seq(count, i => name + i) }

  /** The change that appends the hour's records, given the hour as it stands. */
  function AppendChange(z: Codec, k: Key, before: Option<Entry>, beforeIndex: Index, records: seq<Record>, cap: nat,
                        fileId: nat, name: nat): Change
  {
    var pieces := StagedPieces(records, cap);
    var e := if before.Some? then before.value else Entry(fileId, 0, 0, 0, 0, 0, false);
    var ix := if before.Some? then beforeIndex else [];
    Change(k, before, ix, Grow(z, 1, e, pieces), ix + PieceIndex(z, 1, pieces, e.size), Names(name, |pieces|), None)
  }

  lemma {:induction false} FlatBlobs(z: Codec, level: nat, pieces: seq<Piece>, name: nat, blobs: map<nat, Bytes>)
    requires BlobsHold(z, level, pieces, name, blobs)
    ensures forall n :: n in Names(name, |pieces|) ==> n in blobs
    ensures Flat(Names(name, |pieces|), blobs) == Packed(z, level, pieces)
    decreases pieces
  {
    if pieces != [] {
      assert Names(name, |pieces|)[1..] == Names(name + 1, |pieces[1..]|);
      assert Names(name, |pieces|)[0] == name + 0;
      FlatBlobs(z, level, pieces[1..], name + 1, blobs);
    }
  }

  lemma {:induction false} RecordsOfLines(records: seq<Record>, k: Key)
    requires LineRecords(records)
    ensures LineRecords(RecordsOf(records, k))
    ensures forall i :: 0 <= i < |RecordsOf(records, k)| ==> KeyOf(RecordsOf(records, k)[i]) == k
  {
    if records != [] { RecordsOfLines(records[1..], k); }
  }

  lemma {:induction false} JoinParts<T>(groups: seq<seq<T>>, i: nat, j: nat)
    requires i < |groups| && j < |groups[i]|
    ensures groups[i][j] in Join(groups)
  {
    if i > 0 { JoinParts(groups[1..], i - 1, j); }
  }

  lemma StagedPiecesText(records: seq<Record>, cap: nat)
    requires LineRecords(records)
    ensures forall i :: 0 <= i < |StagedPieces(records, cap)| ==> Whole(StagedPieces(records, cap)[i])
    ensures PieceText(StagedPieces(records, cap)) == Flatten(Raws(records))
  {
    PackExact(records, LineSize, [], cap);
    var groups := Pack(records, LineSize, [], 0, cap);
    forall i | 0 <= i < |groups| ensures LineRecords(groups[i]) {
      forall j | 0 <= j < |groups[i]| ensures IsLine(groups[i][j].raw) {
        JoinParts(groups, i, j);
      }
    }
    PiecesText(groups);
    assert [] + records == records;
  }

  /** Appending the pieces to an hour gives an hour whose text is the old one followed by theirs. */
  predicate Appended(z: Codec, was: Bytes, ix: Index, e: Entry, pieces: seq<Piece>) {
    var content, ix', e' := was + Packed(z, 1, pieces), ix + PieceIndex(z, 1, pieces, e.size), Grow(z, 1, e, pieces);
    && IndexOk(ix', e') && |content| == e'.size
    && Decodes(z, content, PieceIndex(z, 1, pieces, e.size)) && Decodes(z, was, ix)
    && Decodes(z, content, ix') && TextOf(z, content, ix') == TextOf(z, was, ix) + PieceText(pieces)
  }

  lemma AppendFacts(z: Codec, was: Bytes, ix: Index, e: Entry, pieces: seq<Piece>)
    requires Sound(z) && IndexOk(ix, e) && |was| == e.size && Decodes(z, was, ix)
    requires forall i :: 0 <= i < |pieces| ==> Whole(pieces[i])
    ensures Appended(z, was, ix, e, pieces)
  {
    var content, ixs := was + Packed(z, 1, pieces), PieceIndex(z, 1, pieces, e.size);
    GrowSums(z, 1, e, pieces);
    PieceTiles(z, 1, pieces, e.size);
    TilesConcat(ix, ixs, 0);
    PiecesDecode(z, 1, was, pieces, []);
    assert content + [] == content;
    TextExtends(z, was, Packed(z, 1, pieces), ix);
    TextConcat(z, content, ix, ixs);
  }

  /** What stage builds for an hour is a change the store may publish, and the hour's text
      grows by exactly the records' lines, in order. */
  lemma AppendChangeOk(z: Codec, d: Disk, k: Key, records: seq<Record>, cap: nat, fileId: nat, name: nat, blobs: map<nat, Bytes>)
    requires Sound(z) && Valid(d) && LineRecords(records)
    requires BlobsHold(z, 1, StagedPieces(records, cap), name, blobs)
    requires k in d.data && k in d.index ==> Decodes(z, d.data[k], d.index[k])
    ensures var c := AppendChange(z, k, Lookup(d.catalog.value.hours, k), IndexAt(d, k), records, cap, fileId, name);
      && ChangeOk(z, d, c, false, blobs)
      && Decodes(z, NewContent(d.data, c, false, blobs), c.afterIndex)
      && TextOf(z, NewContent(d.data, c, false, blobs), c.afterIndex)
         == HourText(z, d, k) + Flatten(Raws(records))
  {
    var hours := d.catalog.value.hours;
    assert (k in d.data.Keys <==> k in hours.Keys) && (k in d.index.Keys <==> k in hours.Keys);
    var pieces := StagedPieces(records, cap);
    StagedPiecesText(records, cap);
    FlatBlobs(z, 1, pieces, name, blobs);
    if k in hours {
      assert HourOk(d, k, hours[k]);
      AppendFacts(z, d.data[k], d.index[k], hours[k], pieces);
      AppendOld(z, d, k, records, cap, fileId, name, blobs);
    } else {
      AppendFacts(z, [], [], Entry(fileId, 0, 0, 0, 0, 0, false), pieces);
      AppendNew(z, d, k, records, cap, fileId, name, blobs);
    }
  }

  lemma AppendOld(z: Codec, d: Disk, k: Key, records: seq<Record>, cap: nat, fileId: nat, name: nat, blobs: map<nat, Bytes>)
    requires Valid(d) && k in d.catalog.value.hours && k in d.data && k in d.index
    requires var pieces := StagedPieces(records, cap);
      && (forall n :: n in Names(name, |pieces|) ==> n in blobs) && Flat(Names(name, |pieces|), blobs) == Packed(z, 1, pieces)
      && Appended(z, d.data[k], d.index[k], d.catalog.value.hours[k], pieces)
      && PieceText(pieces) == Flatten(Raws(records))
    ensures var c := AppendChange(z, k, Lookup(d.catalog.value.hours, k), IndexAt(d, k), records, cap, fileId, name);
      && ChangeOk(z, d, c, false, blobs)
      && Decodes(z, NewContent(d.data, c, false, blobs), c.afterIndex)
      && TextOf(z, NewContent(d.data, c, false, blobs), c.afterIndex) == HourText(z, d, k) + Flatten(Raws(records))
  {
    var c := AppendChange(z, k, Lookup(d.catalog.value.hours, k), IndexAt(d, k), records, cap, fileId, name);
    assert c.afterIndex[|d.index[k]|..] == PieceIndex(z, 1, StagedPieces(records, cap), d.catalog.value.hours[k].size);
  }

  lemma AppendNew(z: Codec, d: Disk, k: Key, records: seq<Record>, cap: nat, fileId: nat, name: nat, blobs: map<nat, Bytes>)
    requires Valid(d) && k !in d.catalog.value.hours && k !in d.data && k !in d.index
    requires var pieces := StagedPieces(records, cap);
      && (forall n :: n in Names(name, |pieces|) ==> n in blobs) && Flat(Names(name, |pieces|), blobs) == Packed(z, 1, pieces)
      && Appended(z, [], [], Entry(fileId, 0, 0, 0, 0, 0, false), pieces)
      && PieceText(pieces) == Flatten(Raws(records))
    ensures var c := AppendChange(z, k, Lookup(d.catalog.value.hours, k), IndexAt(d, k), records, cap, fileId, name);
      && ChangeOk(z, d, c, false, blobs)
      && Decodes(z, NewContent(d.data, c, false, blobs), c.afterIndex)
      && TextOf(z, NewContent(d.data, c, false, blobs), c.afterIndex) == HourText(z, d, k) + Flatten(Raws(records))
  {
    hide PieceIndex, PieceText, Raws, StagedPieces, Grow, CountLF, Flatten, Tiles, EndOf, LinesOf, IndexOk, MemberDecodes, Decodes, HourOk, Flat;
    var c := AppendChange(z, k, Lookup(d.catalog.value.hours, k), IndexAt(d, k), records, cap, fileId, name);
    var content := NewContent(d.data, c, false, blobs);
    assert content == [] + Packed(z, 1, StagedPieces(records, cap));
    assert c.afterIndex == [] + PieceIndex(z, 1, StagedPieces(records, cap), 0);
    assert IndexOk(c.afterIndex, c.after) && |content| == c.after.size && Decodes(z, content, c.afterIndex);
    assert c.afterIndex[0..] == c.afterIndex;
    assert ChangeOk(z, d, c, false, blobs);
    assert TextOf(z, content, c.afterIndex) == TextOf(z, [], []) + Flatten(Raws(records));
  }

  function Lookup<K, V>(m: map<K, V>, k: K): Option<V> { if k in m then Some(m[k]) else None }

  function IndexAt(d: Disk, k: Key): Index { if k in d.index then d.index[k] else [] }

  /** Everything an hour of the archive decodes to; nothing if there is no such hour. */
  function HourText(z: Codec, d: Disk, k: Key): Bytes
    requires k in d.data && k in d.index ==> Decodes(z, d.data[k], d.index[k])
  {
    if k in d.data && k in d.index then TextOf(z, d.data[k], d.index[k]) else []
  }
}
