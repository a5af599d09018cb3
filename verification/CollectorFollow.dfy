/** Reading one followed file: chunk by chunk, under a budget, checking that it only grew. */
module CollectorFollow {
  import opened Options
  import opened ArchiveTypes
  import opened ArchiveStaging
  import opened CollectorPrint
  import opened CollectorRead

  /** What turns a complete line into a record. */
  datatype Policy = Policy(z: Parser, source: string, stamp: int, cutoff: int)

  /** A line is kept unless its own time is older than the cutoff. */
  predicate Fresh(y: Policy, raw: Bytes) { y.z.time(raw).None? || y.cutoff <= y.z.time(raw).value }

  function RecordFor(y: Policy, raw: Bytes): Record { Record(y.source, raw, y.z.time(raw), y.stamp) }

  function Records(y: Policy, lines: seq<Bytes>): seq<Record> {
    if lines == [] then []
    else if Fresh(y, lines[0]) then [RecordFor(y, lines[0])] + Records(y, lines[1..])
    else Records(y, lines[1..])
  }

  lemma {:induction false} RecordsSnoc(y: Policy, lines: seq<Bytes>, raw: Bytes)
    ensures Records(y, lines + [raw]) == Records(y, lines) + if Fresh(y, raw) then [RecordFor(y, raw)] else []
  {
    if lines == [] {
      assert lines + [raw] == [raw];
    } else {
      assert (lines + [raw])[1..] == lines[1..] + [raw];
      RecordsSnoc(y, lines[1..], raw);
    }
  }

  /** The lines within the limit that `more` completes after `seen`. */
  function Since(seen: Bytes, more: Bytes): seq<Bytes> {
    var before, all := Kept(Split(seen)), Kept(Split(seen + more));
    if |before| <= |all| then all[|before|..] else []
  }

  /** A generation that had accounted for `seen` and then took `taken`, with these lines. */
  predicate Stands(z: Parser, seen: Bytes, taken: Bytes, lines: seq<Bytes>, gaps: seq<Gap>, long: Option<nat>) {
    && Accounts(z, Split(seen + taken), Partial(seen + taken), gaps, long)
    && Kept(Split(seen + taken)) == Kept(Split(seen)) + lines
  }

  lemma StandsStart(z: Parser, seen: Bytes, gaps: seq<Gap>, long: Option<nat>)
    requires Accounts(z, Split(seen), Partial(seen), gaps, long)
    ensures Stands(z, seen, [], [], gaps, long)
  {
    assert seen + [] == seen;
  }

  lemma StandsSince(z: Parser, seen: Bytes, taken: Bytes, lines: seq<Bytes>, gaps: seq<Gap>, long: Option<nat>)
    requires Stands(z, seen, taken, lines, gaps, long)
    ensures Since(seen, taken) == lines
  {
    assert (Kept(Split(seen)) + lines)[|Kept(Split(seen))|..] == lines;
  }

  /** What one more line does to the split of a text. */
  lemma SplitMore(text: Bytes, raw: Bytes)
    requires Partial(text) == [] && raw != [] && FindLF(raw) == |raw| - 1
    ensures |Flatten(Split(text))| == |text| && Split(text + raw) == Split(text) + [raw] && Partial(text + raw) == []
  {
    SplitAll(text);
    AppendClose(text, raw);
    assert [] + raw == raw;
  }

  lemma KeptMore(kept: seq<Bytes>, lines: seq<Bytes>, raw: Bytes)
    ensures (kept + lines) + [raw] == kept + (lines + [raw])
  {}

  /** A complete line within the limit. */
  lemma StandsLine(z: Parser, seen: Bytes, taken: Bytes, raw: Bytes, lines: seq<Bytes>, gaps: seq<Gap>)
    requires Stands(z, seen, taken, lines, gaps, None) && 0 < |raw| <= MAX_LINE && FindLF(raw) == |raw| - 1
    ensures Stands(z, seen, taken + raw, lines + [raw], GapsAfter(z, gaps, |seen + taken|, raw), None)
  {
    Assoc(seen, taken, raw);
    LineOn(z, seen + taken, raw, gaps);
    KeptMore(Kept(Split(seen)), lines, raw);
  }

  lemma LineOn(z: Parser, text: Bytes, raw: Bytes, gaps: seq<Gap>)
    requires Accounts(z, Split(text), Partial(text), gaps, None) && 0 < |raw| <= MAX_LINE && FindLF(raw) == |raw| - 1
    ensures Accounts(z, Split(text + raw), Partial(text + raw), GapsAfter(z, gaps, |text|, raw), None)
    ensures Kept(Split(text + raw)) == Kept(Split(text)) + [raw]
  {
    SplitMore(text, raw);
    StepLine(z, Split(text), raw, gaps);
  }

  /** More of an oversized line; `closes` says that it ends here. */
  lemma StandsLong(z: Parser, seen: Bytes, taken: Bytes, bytes: Bytes, closes: bool, lines: seq<Bytes>, gaps: seq<Gap>, long: Option<nat>)
    requires Stands(z, seen, taken, lines, gaps, long) && bytes != [] && FindLF(bytes) == (if closes then |bytes| - 1 else |bytes|)
    requires long.Some? || TooLong(bytes)
    ensures var from := if long.Some? then long.value else |seen + taken|;
      Stands(z, seen, taken + bytes, lines, GrowGap(gaps, from, |seen + taken| + |bytes|), if closes then None else Some(from))
  {
    hide Accounts, Split, Partial, Kept, GrowGap;
    Assoc(seen, taken, bytes);
    if closes {
      LongCloses(z, seen + taken, bytes, gaps, long);
    } else {
      LongGoesOn(z, seen + taken, bytes, gaps, long);
    }
  }

  /** Where the range of an oversized line starts, and how long the line is so far. */
  lemma LongFrom(z: Parser, text: Bytes, bytes: Bytes, gaps: seq<Gap>, long: Option<nat>)
    requires Accounts(z, Split(text), Partial(text), gaps, long) && (long.Some? || TooLong(bytes))
    ensures TooLong(Partial(text) + bytes) && |Flatten(Split(text))| == if long.Some? then long.value else |text|
    ensures |Flatten(Split(text))| + |Partial(text) + bytes| == |text| + |bytes|
  {
    SplitAll(text);
  }

  lemma LongGoesOn(z: Parser, text: Bytes, bytes: Bytes, gaps: seq<Gap>, long: Option<nat>)
    requires Accounts(z, Split(text), Partial(text), gaps, long) && bytes != [] && FindLF(bytes) == |bytes| && (long.Some? || TooLong(bytes))
    ensures var from := if long.Some? then long.value else |text|;
      Accounts(z, Split(text + bytes), Partial(text + bytes), GrowGap(gaps, from, |text| + |bytes|), Some(from))
    ensures Kept(Split(text + bytes)) == Kept(Split(text))
  {
    hide *;
    ghost var lines, line := Split(text), Partial(text) + bytes;
    LongFrom(z, text, bytes, gaps, long);
    StepOpen(z, lines, Partial(text), line, gaps, long);
    AppendOpen(text, bytes);
  }

  lemma LongCloses(z: Parser, text: Bytes, bytes: Bytes, gaps: seq<Gap>, long: Option<nat>)
    requires Accounts(z, Split(text), Partial(text), gaps, long) && bytes != [] && FindLF(bytes) == |bytes| - 1 && (long.Some? || TooLong(bytes))
    ensures var from := if long.Some? then long.value else |text|;
      Accounts(z, Split(text + bytes), Partial(text + bytes), GrowGap(gaps, from, |text| + |bytes|), None)
    ensures Kept(Split(text + bytes)) == Kept(Split(text))
  {
    hide *;
    ghost var lines, line := Split(text), Partial(text) + bytes;
    LongFrom(z, text, bytes, gaps, long);
    StepClose(z, lines, Partial(text), line, gaps, long);
    AppendClose(text, bytes);
  }

  /** Bytes read but not consumed: an unfinished line within the limit, none inside an oversized line. */
  predicate Waiting(pending: Bytes, long: Option<nat>) {
    FindLF(pending) == |pending| && |pending| <= MAX_LINE && (long.Some? ==> pending == [])
  }

  lemma Joined(taken: Bytes, pending: Bytes, bytes: Bytes, piece: Bytes)
    requires bytes == pending + piece
    ensures (taken + bytes) + [] == (taken + pending) + piece && taken + bytes == (taken + pending) + piece
  {}

  /** A piece of a chunk holds no LF before its last byte. */
  lemma PieceFound(chunk: Bytes, begin: nat, n: nat)
    requires begin < |chunk| && n == begin + FindLF(chunk[begin..])
    ensures n <= |chunk|
    ensures n == |chunk| ==> FindLF(chunk[begin..n]) == n - begin
    ensures n < |chunk| ==> FindLF(chunk[begin..n + 1]) == n - begin
    ensures n < |chunk| ==> chunk[..begin] + chunk[begin..n + 1] == chunk[..n + 1]
    ensures chunk[..begin] + chunk[begin..n] == chunk[..n]
  {
    var rest := chunk[begin..];
    assert rest[..n - begin] == chunk[begin..n];
    FirstIs(chunk[begin..n], n - begin);
    if n < |chunk| {
      assert rest[n - begin] == chunk[n] && chunk[begin..n + 1] == chunk[begin..n] + [chunk[n]];
      FirstIs(chunk[begin..n + 1], n - begin);
    }
  }

  lemma ChunkAt(f: Bytes, position: nat, size: nat, limit: nat)
    requires position < limit && position <= |f| && 0 < size
    ensures |At(f, position, Smaller(size, limit - position))| <= size
    ensures var chunk := At(f, position, Smaller(size, limit - position));
      && position + |chunk| <= Smaller(limit, |f|) && chunk == f[position..position + |chunk|]
      && (chunk == [] ==> position == |f|)
  {}

  /** The bytes up to the observed size that are not consumed yet. */
  function Rest(f: Bytes, limit: nat, offset: nat): Bytes {
    if offset <= limit then At(f, offset, limit - offset) else []
  }

  lemma SliceMore(f: Bytes, o: nat, c: nat, e: nat)
    requires o <= c <= e <= |f|
    ensures f[o..c] + f[c..e] == f[o..e] && f[..e] == f[0..e]
  {}

  lemma PrefixOfSlice(f: Bytes, start: nat, position: nat, taken: Bytes, pending: Bytes)
    requires start <= position <= |f| && taken + pending <= f[start..position]
    ensures start + |taken| <= |f| && taken == f[start..start + |taken|]
    ensures taken + pending == f[start..position] ==> pending == f[start + |taken|..position]
  {
    var all, n, whole := taken + pending, |taken|, f[start..position];
    forall i | 0 <= i < |all| ensures all[i] == f[start + i] { assert all[i] == whole[i]; }
    forall i | 0 <= i < n ensures taken[i] == f[start + i] { assert taken[i] == all[i]; }
    forall i | 0 <= i < |pending| ensures pending[i] == f[start + n + i] { assert pending[i] == all[n + i]; }
  }

  lemma RestAtEnd(f: Bytes, limit: nat, start: nat, position: nat, offset: nat, pending: Bytes)
    requires start <= offset <= position <= |f| && pending == f[offset..position]
    requires if position < limit then position == |f| else position == limit || position == start
    ensures Rest(f, limit, offset) == pending
  {}

  /** One read of one file: the checkpoint's fields, and what the loop keeps beside them. */
  /** The most that is read from a file at once. */
  const CHUNK := 65536

  /** What a read may take beyond its budget. */
  const OVERSHOOT := MAX_LINE + CHUNK

  lemma NotLong(pending: Bytes, long: Option<nat>)
    requires Waiting(pending, long)
    ensures |pending| <= MAX_LINE
  {}

  class Reading {
    const y: Policy
    const start: nat
    var offset: nat
    var long: Option<nat>
    var gaps: seq<Gap>
    var records: seq<Record>
    var pending: Bytes
    var rolling: Print
    var partial: nat

    ghost const seen: Bytes
    ghost const fore: Bytes
    ghost const base: seq<Record>
    ghost var taken: Bytes
    ghost var lines: seq<Bytes>

    /** `seen` was accounted for before; `taken` has been consumed since, after the bytes `fore`. */
    ghost predicate Valid()
      reads this
    {
      && start == |seen| && offset == start + |taken|
      && Stands(y.z, seen, taken, lines, gaps, long)
      && records == base + Records(y, lines)
      && rolling == Ends(fore + taken)
      && Waiting(pending, long)
    }

    constructor (y: Policy, g: Generation, records: seq<Record>, rolling: Print, ghost seen: Bytes, ghost fore: Bytes)
      requires g.offset == |seen| && Accounts(y.z, Split(seen), Partial(seen), g.gaps, g.long) && rolling == Ends(fore)
      ensures Valid() && this.y == y && this.seen == seen && this.fore == fore && this.base == records
      ensures taken == [] && lines == [] && pending == [] && offset == g.offset && long == g.long && gaps == g.gaps
      ensures this.records == records && this.rolling == rolling
    {
      this.y, offset, long, gaps, this.records, pending, this.rolling, partial := y, g.offset, g.long, g.gaps, records, [], rolling, 0;
      start := g.offset;
      this.seen, this.fore, base, taken, lines := seen, fore, records, [], [];
      new;
      StandsStart(y.z, seen, gaps, long);
      assert fore + [] == fore;
      assert base + Records(y, []) == base;
    }

    /** consume. */
    method Consume(bytes: Bytes)
      requires rolling == Ends(fore + taken) && offset == |seen| + |taken|
      modifies this`offset, this`rolling, this`taken
      ensures taken == old(taken) + bytes && offset == |seen| + |taken| && rolling == Ends(fore + taken)
    {
      RollEnds(fore + taken, bytes);
      Assoc(fore, taken, bytes);
      rolling := Roll(rolling, bytes);
      taken := taken + bytes;
      offset := offset + |bytes|;
    }

    method TakeLine(raw: Bytes)
      requires Valid() && long == None && 0 < |raw| <= MAX_LINE && FindLF(raw) == |raw| - 1
      modifies this
      ensures Valid() && taken == old(taken) + raw && pending == []
    {
      hide Stands, Ends, Records, Roll;
      StandsLine(y.z, seen, taken, raw, lines, gaps);
      RecordsSnoc(y, lines, raw);
      if !y.z.valid(raw) {
        gaps := AddGap(gaps, Gap(BAD_TIME, offset, Some(offset + |raw|)));
      }
      if y.z.time(raw).None? || y.z.time(raw).value >= y.cutoff {
        records := records + [RecordFor(y, raw)];
      }
      Consume(raw);
      pending := [];
      lines := lines + [raw];
    }

    method TakeLong(bytes: Bytes, closes: bool)
      requires Valid() && bytes != [] && FindLF(bytes) == (if closes then |bytes| - 1 else |bytes|)
      requires long.Some? || TooLong(bytes)
      modifies this
      ensures Valid() && taken == old(taken) + bytes && pending == []
    {
      hide Stands, Ends, Records, Roll, GrowGap;
      StandsLong(y.z, seen, taken, bytes, closes, lines, gaps, long);
      if long.None? {
        long := Some(offset);
      }
      Consume(bytes);
      gaps := GrowGap(gaps, long.value, offset);
      pending := [];
      if closes {
        long := None;
      }
    }

    /** One piece of a chunk. */
    method Take(piece: Bytes)
      requires Valid() && piece != [] && FindLF(piece) >= |piece| - 1
      modifies this
      ensures Valid() && taken + pending == old(taken + pending) + piece
    {
      hide Stands, Ends, Records, Roll, Split, Partial, Kept;
      var closes := FindLF(piece) < |piece|;
      var bytes := pending + piece;
      Joined(taken, pending, bytes, piece);
      assert FindLF(bytes) == if closes then |bytes| - 1 else |bytes| by { FindInConcat(pending, piece); }
      if long.Some? || |pending| + |piece| > MAX_LINE {
        TakeLong(bytes, closes);
      } else if closes {
        TakeLine(bytes);
      } else {
        pending := bytes;
      }
    }

    /** The pieces of one chunk, until the budget is spent. */
    method TakeChunk(chunk: Bytes, budget: nat)
      requires Valid() && |taken| < budget
      modifies this
      ensures |taken| < budget + MAX_LINE + |chunk|
      ensures Valid() && taken + pending <= old(taken + pending) + chunk
      ensures |taken| < budget ==> taken + pending == old(taken + pending) + chunk
    {
      hide Stands, Ends, Records, Split, Partial, Kept, Waiting, FindLF;
      var begin: nat := 0;
      assert old(taken + pending) + chunk[..0] == old(taken + pending);
      while begin < |chunk|
        invariant begin <= |chunk| && Valid()
        invariant taken + pending == old(taken + pending) + chunk[..begin] && |taken| < budget
      {
        var n := begin + FindLF(chunk[begin..]);
        var next := if n == |chunk| then n else n + 1;
        PieceFound(chunk, begin, n);
        Assoc(old(taken + pending), chunk[..begin], chunk[begin..next]);
        NotLong(pending, long);
        Take(chunk[begin..next]);
        begin := next;
        if offset - start >= budget {
          return;
        }
      }
      assert chunk[..begin] == chunk;
    }

    /** The reading loop: chunks of any size up to the observed size, until the budget is spent. */
    method Loop(f: Bytes, limit: nat, budget: nat)
      requires Valid() && taken == [] && pending == [] && start <= |f| && 0 < budget
      modifies this
      ensures Valid() && offset <= |f| && taken == f[start..offset] && |taken| < budget + MAX_LINE + CHUNK
      ensures |taken| < budget ==> Rest(f, limit, offset) == pending && partial == |pending|
    {
      hide Stands, Ends, Records, Split, Partial, Kept, Waiting, FindLF, At;
      var position: nat := start;
      partial := 0;
      assert f[start..start] == [];
      while position < limit
        invariant Valid() && position <= |f| && start <= position && (position <= limit || position == start)
        invariant taken + pending == f[start..position]
        invariant |taken| < budget
      {
        var size: nat :| 0 < size <= CHUNK;
        var chunk := At(f, position, Smaller(size, limit - position));
        ChunkAt(f, position, size, limit);
        if chunk == [] {
          break;
        }
        SliceMore(f, start, position, position + |chunk|);
        position := position + |chunk|;
        TakeChunk(chunk, budget);
        if offset - start >= budget {
          PrefixOfSlice(f, start, position, taken, pending);
          return;
        }
      }
      partial := |pending|;
      PrefixOfSlice(f, start, position, taken, pending);
      RestAtEnd(f, limit, start, position, offset, pending);
    }
  }

  /** Collector.read.  `f` is what the file holds while it is read, `later` what it holds when the
      rolling fingerprint is checked; `seen` is all this generation has consumed before. */
  method Read(y: Policy, g: Generation, f: Bytes, limit: nat, later: Bytes, budget: nat, records: seq<Record>, ghost seen: Bytes)
    returns (ok: bool, g': Generation, records': seq<Record>, partial: nat)
    requires g.offset == |seen| && Accounts(y.z, Split(seen), Partial(seen), g.gaps, g.long)
    requires Sized(Print(g.prefix, g.tail), g.offset) && 0 < budget
    ensures g.offset <= g'.offset && g' == g.(offset := g'.offset, long := g'.long, gaps := g'.gaps)
    ensures Consumed(y, g, f, seen, g', records, records') && (g.offset <= |f| ==> g'.offset <= |f|)
    ensures ok <==> (g.offset == 0 || PrintOf(f, g.offset) == Print(g.prefix, g.tail)) && PrintOf(later, g'.offset) == PrintOf(f, g'.offset)
    ensures g'.offset - g.offset < budget + OVERSHOOT
    ensures ok && g'.offset - g.offset < budget ==>
      Waiting(Rest(f, limit, g'.offset), g'.long) && partial == |Rest(f, limit, g'.offset)|
  {
    hide Stands, Ends, Records, Split, Partial, Kept, FindLF, At, Waiting, Accounts;
    var p := PrintOf(f, g.offset);
    if g.offset > 0 && p != Print(g.prefix, g.tail) {
      NothingConsumed(y, g, f, seen, records);
      return false, g, records, 0;
    }
    PrintSized(f, g.offset);
    PrintOfEnds(f, g.offset);
    var r := new Reading(y, g, records, p, seen, f[..g.offset]);
    r.Loop(f, limit, budget);
    SliceMore(f, 0, g.offset, r.offset);
    PrintOfEnds(f, r.offset);
    ConsumedAll(y, g, f, seen, r.taken, r.lines, r.gaps, r.long, records);
    ok := PrintOf(later, r.offset) == r.rolling;
    g', records', partial := g.(offset := r.offset, long := r.long, gaps := r.gaps), r.records, r.partial;
  }

  /** The checkpoint accounts for everything seen before and the bytes up to the new offset, and
      exactly the kept lines completed in between became records, in order. */
  predicate Consumed(y: Policy, g: Generation, f: Bytes, seen: Bytes, g': Generation, records: seq<Record>, records': seq<Record>)
    requires g.offset <= g'.offset
  {
    var more := At(f, g.offset, g'.offset - g.offset);
    && |more| == g'.offset - g.offset
    && Accounts(y.z, Split(seen + more), Partial(seen + more), g'.gaps, g'.long)
    && Kept(Split(seen + more)) == Kept(Split(seen)) + Since(seen, more)
    && records' == records + Records(y, Since(seen, more))
  }

  lemma NothingConsumed(y: Policy, g: Generation, f: Bytes, seen: Bytes, records: seq<Record>)
    requires g.offset == |seen| && Accounts(y.z, Split(seen), Partial(seen), g.gaps, g.long)
    ensures Consumed(y, g, f, seen, g, records, records)
  {
    StandsStart(y.z, seen, g.gaps, g.long);
    StandsSince(y.z, seen, [], [], g.gaps, g.long);
    assert At(f, g.offset, 0) == [];
    assert records + Records(y, []) == records;
  }

  lemma ConsumedAll(y: Policy, g: Generation, f: Bytes, seen: Bytes, taken: Bytes, lines: seq<Bytes>, gaps: seq<Gap>, long: Option<nat>,
                    records: seq<Record>)
    requires g.offset == |seen| && g.offset + |taken| <= |f| && taken == f[g.offset..g.offset + |taken|]
    requires Stands(y.z, seen, taken, lines, gaps, long)
    ensures Consumed(y, g, f, seen, g.(offset := g.offset + |taken|, long := long, gaps := gaps), records, records + Records(y, lines))
  {
    StandsSince(y.z, seen, taken, lines, gaps, long);
    assert At(f, g.offset, |taken|) == taken;
  }
}
