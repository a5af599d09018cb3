/** Mail counts per five minutes, collected from the log archive, and the windows summed from them. */
module MonitorWindows {
  import opened Options
  import opened MonitorCounts

  const BUCKET := 300000
  const HOUR := 3600000
  const KEPT := 12

  // ---------- the collection ----------

  datatype Bin = Bin(end: int, complete: bool, counts: Counts)

  datatype Collection = Collection(startedAt: int, watermark: int, success: Option<int>, bins: seq<Bin>, seen: map<Key, int>)

  function Empty(at: int): Collection { Collection(at, at, None, [], map[]) }

  predicate Aligned(t: int) { t % BUCKET == 0 }

  /** Buckets stand in order on five-minute ends, none beyond the watermark, at most an hour of them. */
  predicate Regular(c: Collection) {
    Aligned(c.watermark) && Ordered(c.bins) && |c.bins| <= KEPT && (c.bins != [] ==> c.bins[|c.bins| - 1].end <= c.watermark)
  }

  predicate Ordered(bins: seq<Bin>) {
    (forall i {:trigger bins[i]} :: 0 <= i < |bins| ==> Aligned(bins[i].end))
    && forall i, j {:trigger bins[i], bins[j]} :: 0 <= i < j < |bins| ==> bins[i].end < bins[j].end
  }

  /** Nothing older than an hour, nothing from the future. */
  predicate Recent(c: Collection, T: int) {
    c.watermark <= T && forall i {:trigger c.bins[i]} :: 0 <= i < |c.bins| ==> T - HOUR < c.bins[i].end <= T
  }

  function Later(bins: seq<Bin>, t: int): seq<Bin> {
    if bins == [] then [] else if bins[0].end > t then [bins[0]] + Later(bins[1..], t) else Later(bins[1..], t)
  }

  lemma {:induction false} LaterIn(bins: seq<Bin>, t: int, b: Bin)
    ensures b in Later(bins, t) <==> b in bins && b.end > t
  {
    if bins != [] {
      assert bins == [bins[0]] + bins[1..];
      LaterIn(bins[1..], t, b);
    }
  }

  lemma TailOrdered(bins: seq<Bin>)
    requires Ordered(bins) && bins != []
    ensures Ordered(bins[1..]) && Aligned(bins[0].end) && forall b {:trigger b in bins[1..]} :: b in bins[1..] ==> bins[0].end < b.end
  {
    assert forall i :: 0 <= i < |bins| - 1 ==> bins[1..][i] == bins[i + 1];
  }

  lemma ConsOrdered(b: Bin, rest: seq<Bin>)
    requires Ordered(rest) && Aligned(b.end) && forall i {:trigger rest[i]} :: 0 <= i < |rest| ==> b.end < rest[i].end
    ensures Ordered([b] + rest)
  {}

  lemma {:induction false} LaterOrdered(bins: seq<Bin>, t: int)
    requires Ordered(bins)
    ensures Ordered(Later(bins, t)) && |Later(bins, t)| <= |bins|
  {
    hide Ordered, Aligned;
    if bins == [] {
      assert Ordered([]) by { NothingOrdered(); }
    } else {
      TailOrdered(bins);
      var rest := Later(bins[1..], t);
      LaterOrdered(bins[1..], t);
      forall i | 0 <= i < |rest| ensures bins[0].end < rest[i].end {
        assert rest[i] in rest;
        LaterIn(bins[1..], t, rest[i]);
      }
      ConsOrdered(bins[0], rest);
    }
  }

  lemma NothingOrdered()
    ensures Ordered([])
  {}

  /** The later buckets are the ones that end later, in order. */
  lemma LaterExact(bins: seq<Bin>, t: int)
    requires Ordered(bins)
    ensures Ordered(Later(bins, t)) && |Later(bins, t)| <= |bins|
    ensures forall i {:trigger Later(bins, t)[i]} :: 0 <= i < |Later(bins, t)| ==> Later(bins, t)[i] in bins && Later(bins, t)[i].end > t
  {
    hide Ordered;
    LaterOrdered(bins, t);
    var kept := Later(bins, t);
    forall i | 0 <= i < |kept| ensures kept[i] in bins && kept[i].end > t {
      assert kept[i] in kept;
      LaterIn(bins, t, kept[i]);
    }
  }

  /** prune, when the clock is not behind the watermark. */
  function Pruned(c: Collection, T: int): Collection {
    c.(bins := Later(c.bins, T - HOUR), seen := map k | k in c.seen && c.seen[k] > T - HOUR :: c.seen[k])
  }

  lemma Below(bins: seq<Bin>, b: Bin)
    requires Ordered(bins) && b in bins
    ensures b.end <= bins[|bins| - 1].end && Aligned(b.end)
  {
    var i :| 0 <= i < |bins| && bins[i] == b;
    assert i < |bins| - 1 ==> bins[i].end < bins[|bins| - 1].end;
  }

  lemma PrunedRegular(c: Collection, T: int)
    requires Regular(c) && c.watermark <= T
    ensures Regular(Pruned(c, T)) && Recent(Pruned(c, T), T) && forall b {:trigger b in Pruned(c, T).bins} :: b in Pruned(c, T).bins ==> b in c.bins
  {
    hide Ordered, Later;
    LaterExact(c.bins, T - HOUR);
    var bins := Pruned(c, T).bins;
    forall b | b in bins ensures b in c.bins { LaterIn(c.bins, T - HOUR, b); }
    forall i | 0 <= i < |bins| ensures T - HOUR < bins[i].end <= c.watermark {
      assert bins[i] == Later(c.bins, T - HOUR)[i] && bins[i] in c.bins;
      Below(c.bins, bins[i]);
    }
  }

  /** The checkpoint after one bucket; no bucket with the same end is there to be replaced. */
  function Extended(c: Collection, b: Bin, seen: map<Key, int>): Collection {
    c.(watermark := b.end, bins := Newest(c.bins + [b]), seen := seen)
  }

  lemma SnocOrdered(bins: seq<Bin>, b: Bin, w: int)
    requires Ordered(bins) && (bins != [] ==> bins[|bins| - 1].end <= w) && w < b.end && Aligned(b.end)
    ensures Ordered(bins + [b])
  {
    forall i | 0 <= i < |bins| ensures bins[i].end < b.end { Below(bins, bins[i]); }
  }

  lemma SuffixOrdered(bins: seq<Bin>, n: nat)
    requires Ordered(bins) && n <= |bins|
    ensures Ordered(bins[n..])
  {
    assert forall i :: 0 <= i < |bins| - n ==> bins[n..][i] == bins[n + i];
  }

  function Newest(bins: seq<Bin>): seq<Bin> { if |bins| > KEPT then bins[|bins| - KEPT..] else bins }

  lemma NewestIn(bins: seq<Bin>)
    requires Ordered(bins) && bins != []
    ensures Ordered(Newest(bins)) && 0 < |Newest(bins)| <= KEPT && Newest(bins)[|Newest(bins)| - 1] == bins[|bins| - 1]
    ensures forall i {:trigger Newest(bins)[i]} :: 0 <= i < |Newest(bins)| ==> Newest(bins)[i] in bins
  {
    if |bins| > KEPT { SuffixOrdered(bins, |bins| - KEPT); }
  }

  lemma ExtendedRegular(c: Collection, b: Bin, seen: map<Key, int>, T: int)
    requires Regular(c) && Recent(c, T) && c.watermark < b.end <= T && Aligned(b.end) && T - HOUR < b.end
    ensures var next := Extended(c, b, seen);
      && Regular(next) && Recent(next, T) && next.watermark == b.end && next.success == c.success
      && forall x {:trigger x in next.bins} :: x in next.bins ==> x == b || x in c.bins
  {
    hide Ordered, Aligned, Newest;
    var bins := c.bins + [b];
    SnocOrdered(c.bins, b, c.watermark);
    NewestIn(bins);
    var kept := Newest(bins);
    forall i | 0 <= i < |kept| ensures T - HOUR < kept[i].end <= T && (kept[i] == b || kept[i] in c.bins) {
      assert kept[i] in bins;
    }
  }

  lemma EmptyRegular(T: int)
    requires Aligned(T)
    ensures Regular(Empty(T))
  {}

  // ---------- reading the archive ----------

  /** Lines the archive may have missed; without ends, nobody knows when. */
  datatype Gap = Gap(from: Option<int>, to: Option<int>)

  /** A log row: whether it came whole, its time in nanoseconds, and what it tells. */
  datatype Row = Row(id: string, whole: bool, time: int, event: Event)

  /** The answer to one search request; Failed is any other error, an end of the time or a limit. */
  datatype Reply = Page(rows: seq<Row>, next: Option<string>, partial: bool, gaps: seq<Gap>) | Gone | Failed

  const NS := 1000000

  predicate RowOk(r: Row, from: int, to: int) { r.whole && from * NS <= r.time < to * NS && r.event != Unparseable }

  function EventsOf(rows: seq<Row>): (events: seq<Event>)
    ensures |events| == |rows| && forall i {:trigger events[i]} :: 0 <= i < |rows| ==> events[i] == rows[i].event
  {
    if rows == [] then [] else [rows[0].event] + EventsOf(rows[1..])
  }

  function RowsOf(pages: seq<Reply>): seq<Row> {
    if pages == [] then [] else RowsOf(pages[..|pages| - 1]) + if pages[|pages| - 1].Page? then pages[|pages| - 1].rows else []
  }

  /** Every row is fit to be counted, and none comes twice, nor is one of `ids`. */
  predicate Fit(rows: seq<Row>, ids: set<string>, from: int, to: int) {
    && (forall i {:trigger rows[i]} :: 0 <= i < |rows| ==> RowOk(rows[i], from, to) && rows[i].id !in ids)
    && forall i, j {:trigger rows[i], rows[j]} :: 0 <= i < j < |rows| ==> rows[i].id != rows[j].id
  }

  function IdsOf(rows: seq<Row>): set<string> { set i | 0 <= i < |rows| :: rows[i].id }

  function CursorsOf(pages: seq<Reply>): set<string> { set i | 0 <= i < |pages| && pages[i].Page? && pages[i].next.Some? :: pages[i].next.value }

  /** Replies that are pages of one unchanged archive, without a fault in any row and without a cursor given twice. */
  predicate Clean(pages: seq<Reply>, from: int, to: int) {
    && (forall i {:trigger pages[i]} :: 0 <= i < |pages| ==> pages[i].Page? && pages[0].Page? && pages[i].gaps == pages[0].gaps)
    && Fit(RowsOf(pages), {}, from, to) && Onward(pages)
  }

  predicate Onward(pages: seq<Reply>) {
    forall i, j {:trigger pages[i], pages[j]} :: 0 <= i < j < |pages| && pages[i].Page? && pages[j].Page? && pages[i].next.Some? ==> pages[i].next != pages[j].next
  }

  predicate Ongoing(pages: seq<Reply>) { forall i {:trigger pages[i]} :: 0 <= i < |pages| ==> pages[i].Page? && pages[i].next.Some? }

  /** The pages of a bucket to the end. */
  predicate Read(pages: seq<Reply>, from: int, to: int) {
    pages != [] && Clean(pages, from, to) && Ongoing(pages[..|pages| - 1]) && pages[|pages| - 1].next.None? && !pages[|pages| - 1].partial
  }

  /** Pages, and a reply after them that does not do. */
  predicate Spoilt(pages: seq<Reply>, from: int, to: int) {
    && pages != [] && Clean(pages[..|pages| - 1], from, to) && Ongoing(pages[..|pages| - 1])
    && !(Clean(pages, from, to) && (pages[|pages| - 1].next.Some? || !pages[|pages| - 1].partial))
  }

  lemma RowsSnoc(pages: seq<Reply>, p: Reply)
    ensures RowsOf(pages + [p]) == RowsOf(pages) + if p.Page? then p.rows else []
  {
    assert (pages + [p])[..|pages|] == pages;
  }

  lemma FitOn(a: seq<Row>, b: seq<Row>, from: int, to: int)
    ensures Fit(a + b, {}, from, to) <==> Fit(a, {}, from, to) && Fit(b, IdsOf(a), from, to)
  {
    hide RowOk;
    var all := a + b;
    assert forall i :: 0 <= i < |a| ==> all[i] == a[i];
    assert forall i :: 0 <= i < |b| ==> all[|a| + i] == b[i];
    if Fit(a, {}, from, to) && Fit(b, IdsOf(a), from, to) {
      forall i, j | 0 <= i < j < |all| ensures all[i].id != all[j].id {
        if i < |a| <= j { assert all[j] == b[j - |a|] && all[i].id in IdsOf(a); }
        if |a| <= i { assert all[i] == b[i - |a|] && all[j] == b[j - |a|]; }
      }
      forall i | 0 <= i < |all| ensures RowOk(all[i], from, to) {
        if |a| <= i { assert all[i] == b[i - |a|]; }
      }
    }
    if Fit(all, {}, from, to) {
      forall i | 0 <= i < |b| ensures RowOk(b[i], from, to) && b[i].id !in IdsOf(a) {
        assert all[|a| + i] == b[i];
        assert forall k :: 0 <= k < |a| ==> all[k].id != all[|a| + i].id;
      }
      forall i, j | 0 <= i < j < |b| ensures b[i].id != b[j].id { assert all[|a| + i].id != all[|a| + j].id; }
      forall i | 0 <= i < |a| ensures RowOk(a[i], from, to) { assert all[i] == a[i]; }
      forall i, j | 0 <= i < j < |a| ensures a[i].id != a[j].id { assert all[i].id != all[j].id; }
    }
  }

  /** The page fits to those before it. */
  predicate GoesOn(pages: seq<Reply>, p: Reply, from: int, to: int)
    requires p.Page? && forall i {:trigger pages[i]} :: 0 <= i < |pages| ==> pages[i].Page?
  {
    && (pages == [] || p.gaps == pages[0].gaps) && Fit(p.rows, IdsOf(RowsOf(pages)), from, to)
    && (p.next.Some? ==> p.next.value !in CursorsOf(pages))
  }

  lemma OnwardOn(pages: seq<Reply>, p: Reply)
    requires p.Page? && forall i {:trigger pages[i]} :: 0 <= i < |pages| ==> pages[i].Page?
    ensures Onward(pages + [p]) <==> Onward(pages) && (p.next.Some? ==> p.next.value !in CursorsOf(pages))
    ensures CursorsOf(pages + [p]) == CursorsOf(pages) + (if p.next.Some? then {p.next.value} else {})
  {
    var all := pages + [p];
    assert all[|pages|] == p && forall i :: 0 <= i < |pages| ==> all[i] == pages[i];
    if Onward(all) {
      forall i, j | 0 <= i < j < |pages| && pages[i].next.Some? ensures pages[i].next != pages[j].next { assert all[i].next != all[j].next; }
      if p.next.Some? { assert forall i :: 0 <= i < |pages| ==> all[i].next != all[|pages|].next || all[i].next.None?; }
    }
  }

  lemma CleanOn(pages: seq<Reply>, p: Reply, from: int, to: int)
    requires Clean(pages, from, to) && Ongoing(pages)
    ensures Clean(pages + [p], from, to) <==> p.Page? && GoesOn(pages, p, from, to)
    ensures p.Page? ==> IdsOf(RowsOf(pages + [p])) == IdsOf(RowsOf(pages)) + IdsOf(p.rows)
    ensures p.Page? ==> CursorsOf(pages + [p]) == CursorsOf(pages) + (if p.next.Some? then {p.next.value} else {})
    ensures (pages + [p])[..|pages|] == pages
  {
    hide Fit, RowsOf, IdsOf, Onward, CursorsOf;
    var all, a := pages + [p], RowsOf(pages);
    RowsSnoc(pages, p);
    assert all[|pages|] == p && forall i :: 0 <= i < |pages| ==> all[i] == pages[i];
    if p.Page? {
      FitOn(a, p.rows, from, to);
      IdsOn(a, p.rows);
      OnwardOn(pages, p);
    }
  }

  lemma IdsOn(a: seq<Row>, b: seq<Row>)
    ensures IdsOf(a + b) == IdsOf(a) + IdsOf(b)
  {
    var all := a + b;
    forall id ensures id in IdsOf(all) <==> id in IdsOf(a) || id in IdsOf(b) {
      if id in IdsOf(all) {
        var i :| 0 <= i < |all| && all[i].id == id;
        assert if i < |a| then a[i].id == id else b[i - |a|].id == id;
      }
      if id in IdsOf(a) {
        var i :| 0 <= i < |a| && a[i].id == id;
        assert all[i].id == id;
      }
      if id in IdsOf(b) {
        var i :| 0 <= i < |b| && b[i].id == id;
        assert all[|a| + i].id == id;
      }
    }
  }

  lemma EventsSnoc(rows: seq<Row>, i: nat)
    requires i < |rows|
    ensures EventsOf(rows[..i + 1]) == EventsOf(rows[..i]) + [rows[i].event] && EventsOf(rows[..0]) == []
  {
    assert forall j :: 0 <= j < i ==> EventsOf(rows[..i + 1])[j] == EventsOf(rows[..i])[j];
  }

  lemma EventsOn(a: seq<Row>, b: seq<Row>)
    ensures EventsOf(a + b) == EventsOf(a) + EventsOf(b)
  {}

  /** The rows of one page; `events` are those of the pages before it. */
  method ReadRows(rows: seq<Row>, ids0: set<string>, from: int, to: int, pass0: Pass, ghost events: seq<Event>, ghost seen0: map<Key, int>)
    returns (ok: bool, ids: set<string>, pass: Pass)
    requires pass0 == Count(events, seen0, to)
    ensures ok <==> Fit(rows, ids0, from, to)
    ensures ok ==> ids == ids0 + IdsOf(rows) && pass == Count(events + EventsOf(rows), seen0, to)
  {
    hide RowOk, Counted, CountOne, See, Count;
    ids := ids0;
    var counts, seen := pass0.counts, pass0.seen;
    assert EventsOf(rows[..0]) == [] && events + [] == events;
    for i := 0 to |rows|
      invariant Fit(rows[..i], ids0, from, to) && ids == ids0 + IdsOf(rows[..i])
      invariant Pass(counts, seen) == Count(events + EventsOf(rows[..i]), seen0, to)
    {
      var row := rows[i];
      FitNext(rows, i, ids0, from, to);
      if !RowOk(row, from, to) || row.id in ids {
        return false, ids, Pass(counts, seen);
      }
      ids := ids + {row.id};
      EventsSnoc(rows, i);
      CountSnoc(events + EventsOf(rows[..i]), row.event, seen0, to);
      assert events + EventsOf(rows[..i]) + [row.event] == events + EventsOf(rows[..i + 1]);
      if Counted(row.event, seen) {
        counts := CountOne(counts, row.event);
      }
      seen := See(seen, row.event, to);
    }
    assert rows[..|rows|] == rows;
    ok, pass := true, Pass(counts, seen);
  }

  lemma FitNext(rows: seq<Row>, i: nat, ids: set<string>, from: int, to: int)
    requires i < |rows| && Fit(rows[..i], ids, from, to)
    ensures Fit(rows[..i + 1], ids, from, to) <==> RowOk(rows[i], from, to) && rows[i].id !in ids + IdsOf(rows[..i])
    ensures Fit(rows, ids, from, to) ==> Fit(rows[..i + 1], ids, from, to)
    ensures IdsOf(rows[..i + 1]) == IdsOf(rows[..i]) + {rows[i].id}
  {
    hide RowOk;
    var more := rows[..i + 1];
    assert more[i] == rows[i] && forall j :: 0 <= j < i ==> more[j] == rows[..i][j];
    assert Fit(more, ids, from, to) ==> rows[i].id !in IdsOf(rows[..i]) by {
      if Fit(more, ids, from, to) { assert forall j :: 0 <= j < i ==> more[j].id != more[i].id; }
    }
  }

  /** One attempt at a bucket: it starts from nothing and reads page after page.  It finishes exactly if the replies
      are the pages of the bucket to the end; it ends before only with a reply that does not do, or if there is none. */
  method ReadPass(seen0: map<Key, int>, from: int, to: int, replies: seq<Reply>, at: nat)
    returns (ok: bool, gone: bool, pass: Pass, gaps: seq<Gap>, at': nat)
    requires at <= |replies|
    ensures at <= at' <= |replies| && (gone <==> !ok && at' > at && replies[at' - 1].Gone?)
    ensures ok ==> at < at' && replies[at].Page? && gaps == replies[at].gaps && Read(replies[at..at'], from, to) && pass == Count(EventsOf(RowsOf(replies[at..at'])), seen0, to)
    ensures !ok ==> Spoilt(replies[at..at'], from, to) || (at' == |replies| && Clean(replies[at..at'], from, to) && Ongoing(replies[at..at']))
  {
    hide Fit, RowsOf, EventsOf, Count, IdsOf, CursorsOf, Onward;
    ok, gone, gaps, at', pass := false, false, [], at, Pass(NoCounts, seen0);
    var ids, cursors: set<string>, coverage, more := {}, {}, None, true;
    ghost var tried: seq<Reply> := [];
    NothingRead(from, to, seen0);
    while more
      invariant at <= at' <= |replies| && tried == replies[at..at'] && Clean(tried, from, to)
      invariant ids == IdsOf(RowsOf(tried)) && cursors == CursorsOf(tried) && pass == Count(EventsOf(RowsOf(tried)), seen0, to)
      invariant if tried == [] then coverage == None else coverage == Some(gaps) && gaps == tried[0].gaps
      invariant if more then Ongoing(tried) else Read(tried, from, to)
      decreases |replies| - at', more
    {
      if at' == |replies| {
        return;
      }
      var p := replies[at'];
      CleanOn(tried, p, from, to);
      RowsSnoc(tried, p);
      assert replies[at..at' + 1] == tried + [p];
      at' := at' + 1;
      if !p.Page? || (coverage.Some? && p.gaps != coverage.value) {
        gone := p.Gone?;
        return;
      }
      coverage, gaps := Some(p.gaps), p.gaps;
      var fit;
      EventsOn(RowsOf(tried), p.rows);
      fit, ids, pass := ReadRows(p.rows, ids, from, to, pass, EventsOf(RowsOf(tried)), seen0);
      if !fit || (if p.next.Some? then p.next.value in cursors else p.partial) {
        return;
      }
      cursors := cursors + if p.next.Some? then {p.next.value} else {};
      tried, more := tried + [p], p.next.Some?;
    }
    ok := true;
  }

  lemma NothingRead(from: int, to: int, seen: map<Key, int>)
    ensures Clean([], from, to) && Ongoing([]) && IdsOf(RowsOf([])) == {} && CursorsOf([]) == {}
    ensures Count(EventsOf(RowsOf([])), seen, to) == Pass(NoCounts, seen)
  {}

  // ---------- the runs ----------

  /** Some line of the bucket may be missing. */
  predicate Missed(gaps: seq<Gap>, from: int, to: int) {
    exists i {:trigger gaps[i]} :: 0 <= i < |gaps| && (gaps[i].from.None? || gaps[i].to.None? || (gaps[i].from.value < to && gaps[i].to.value > from))
  }

  /** A finished pass: the pages of one bucket, where they begin among the replies of its run, and what was known before. */
  datatype Finished = Finished(end: int, at: nat, pages: seq<Reply>, seen: map<Key, int>)

  predicate Sound(f: Finished) { Read(f.pages, f.end - BUCKET, f.end) }

  /** What one finished pass counted. */
  function CountedBy(f: Finished): Pass { Count(EventsOf(RowsOf(f.pages)), f.seen, f.end) }

  /** Its bucket. */
  function BinOf(f: Finished): Bin
    requires Sound(f)
  {
    Bin(f.end, !Missed(f.pages[0].gaps, f.end - BUCKET, f.end), CountedBy(f).counts)
  }

  /** The bucket holds what one finished pass counted. */
  predicate From(b: Bin, f: Finished) { Sound(f) && b == BinOf(f) }

  /** Every bucket holds what some finished pass counted. */
  ghost predicate Traced(bins: seq<Bin>, passes: seq<Finished>) {
    forall b {:trigger b in bins} :: b in bins ==> exists k :: 0 <= k < |passes| && From(b, passes[k])
  }

  lemma TracedMore(bins: seq<Bin>, passes: seq<Finished>, f: Finished)
    requires Traced(bins, passes)
    ensures Traced(bins, passes + [f])
  {
    hide From;
    var more := passes + [f];
    forall x | x in bins ensures exists k :: 0 <= k < |more| && From(x, more[k]) {
      var k :| 0 <= k < |passes| && From(x, passes[k]);
      assert more[k] == passes[k];
    }
  }

  lemma TracedNext(bins: seq<Bin>, passes: seq<Finished>, b: Bin, f: Finished, bins': seq<Bin>)
    requires Traced(bins, passes) && From(b, f) && forall x {:trigger x in bins'} :: x in bins' ==> x == b || x in bins
    ensures Traced(bins', passes + [f])
  {
    hide From;
    TracedMore(bins, passes, f);
    var more := passes + [f];
    assert more[|passes|] == f;
  }

  lemma TracedFewer(bins: seq<Bin>, passes: seq<Finished>, bins': seq<Bin>)
    requires Traced(bins, passes) && forall x {:trigger x in bins'} :: x in bins' ==> x in bins
    ensures Traced(bins', passes)
  {}

  /** What a collection that may be read back later looks like. */
  ghost predicate Kept(c: Collection, passes: seq<Finished>) { Regular(c) && Traced(c.bins, passes) }

  /** What the caller hands to a run: nothing, no saved collection, or a saved one. */
  datatype Input = Omitted | Absent | Saved(collection: Collection)

  /** What a run meets: the archive may be off or not answer, it has collected up to `success`, it replies to the
      searches in order, and the collections may be too large or not be saved. */
  datatype World = World(enabled: bool, answered: bool, success: Option<int>, replies: seq<Reply>, fits: Collection -> bool, saved: nat -> bool)

  datatype Result = Result(complete: bool, collection: Collection, success: Option<int>)

  /** The collection a run begins with: what it was handed or has kept, unless that is from the future; without what
      is older than an hour; and begun anew if the archive's success is unknown or has gone back. */
  function Opening(retained: Option<Collection>, input: Input, T: int, w: World): Collection {
    var found := if input.Saved? then input.collection else if input.Omitted? && retained.Some? then retained.value else Empty(T);
    var c := Pruned(if T < found.watermark then Empty(T) else found, T);
    if !w.enabled || !w.answered then c
    else
      var back := w.success.None? || (c.success.Some? && w.success.value < c.success.value);
      c.(startedAt := if back then T else c.startedAt, success := w.success)
  }

  /** Where the first bucket to be read begins. */
  function Base(start: Collection, T: int): int { if start.watermark > T - HOUR then start.watermark else T - HOUR }

  /** Where the buckets of a run end, one after the other. */
  function Mark(start: Collection, T: int, n: nat): int { Base(start, T) + n * BUCKET }

  lemma MarkNext(start: Collection, T: int, n: nat)
    ensures Mark(start, T, 0) == Base(start, T) && Mark(start, T, n + 1) == Mark(start, T, n) + BUCKET
  {}

  /** The replies before `f` were for the pass before it, or for one attempt more that found the archive changed. */
  predicate Follows(replies: seq<Reply>, before: nat, f: Finished) {
    && before <= f.at <= f.at + |f.pages| <= |replies| && replies[f.at..f.at + |f.pages|] == f.pages
    && (f.at == before || (replies[f.at - 1].Gone? && Spoilt(replies[before..f.at], f.end - BUCKET, f.end)))
  }

  function End(news: seq<Finished>): nat { if news == [] then 0 else news[|news| - 1].at + |news[|news| - 1].pages| }

  /** The passes of a run: bucket by bucket, each with what was known after the one before, from the replies in order. */
  ghost predicate Linked(start: Collection, T: int, replies: seq<Reply>, news: seq<Finished>) {
    forall i {:trigger news[i]} :: 0 <= i < |news| ==> Link(start, T, replies, news[..i], news[i])
  }

  predicate Link(start: Collection, T: int, replies: seq<Reply>, before: seq<Finished>, f: Finished) {
    && f.end == Mark(start, T, |before| + 1) && Sound(f)
    && f.seen == (if before == [] then start.seen else CountedBy(before[|before| - 1]).seen)
    && Follows(replies, End(before), f)
  }

  lemma ItLinks(start: Collection, T: int, replies: seq<Reply>, before: seq<Finished>, f: Finished)
    requires f.end == Mark(start, T, |before| + 1) && Sound(f) && Follows(replies, End(before), f)
    requires f.seen == if before == [] then start.seen else CountedBy(before[|before| - 1]).seen
    ensures Link(start, T, replies, before, f)
  {}

  lemma LinkedMore(start: Collection, T: int, replies: seq<Reply>, news: seq<Finished>, f: Finished)
    requires Linked(start, T, replies, news) && Link(start, T, replies, news, f)
    ensures Linked(start, T, replies, news + [f])
  {
    hide Link;
    var more := news + [f];
    forall i | 0 <= i < |more| ensures Link(start, T, replies, more[..i], more[i]) {
      assert more[..i] == news[..i];
      if i == |news| { assert news[..i] == news; } else { assert more[i] == news[i]; }
    }
  }

  /** The collection holds these passes, and what it began with. */
  ghost predicate Holds(start: Collection, news: seq<Finished>, c: Collection) {
    && c.startedAt == start.startedAt && c.success == start.success
    && c.watermark == (if news == [] then start.watermark else news[|news| - 1].end)
    && c.seen == (if news == [] then start.seen else CountedBy(news[|news| - 1]).seen)
    && forall b {:trigger b in c.bins} :: b in c.bins <==> b in start.bins || exists i {:trigger news[i]} :: 0 <= i < |news| && From(b, news[i])
  }

  lemma HoldsMore(start: Collection, news: seq<Finished>, c: Collection, f: Finished, T: int)
    requires Holds(start, news, c) && Regular(c) && Recent(c, T) && Aligned(T) && Sound(f) && c.watermark < f.end <= T && Aligned(f.end) && T - HOUR < f.end
    ensures Holds(start, news + [f], Extended(c, BinOf(f), CountedBy(f).seen))
  {
    hide Sound, CountedBy, Missed, From;
    var b, more := BinOf(f), news + [f];
    var next := Extended(c, b, CountedBy(f).seen);
    SnocOrdered(c.bins, b, c.watermark);
    FitHour(c.bins + [b], T);
    assert forall x {:trigger From(x, f)} :: From(x, f) <==> x == b by { OnlyBin(f); }
    assert more[|news|] == f;
    forall x ensures x in next.bins <==> x in start.bins || exists i {:trigger more[i]} :: 0 <= i < |more| && From(x, more[i]) {
      assert x in next.bins <==> x in c.bins || x == b;
      if exists i :: 0 <= i < |news| && From(x, news[i]) {
        var i :| 0 <= i < |news| && From(x, news[i]);
        assert more[i] == news[i];
      }
    }
  }

  lemma OnlyBin(f: Finished)
    requires Sound(f)
    ensures forall x {:trigger From(x, f)} :: From(x, f) <==> x == BinOf(f)
  {}

  /** An hour has no more than twelve buckets. */
  lemma FitHour(bins: seq<Bin>, T: int)
    requires Ordered(bins) && Aligned(T) && forall i {:trigger bins[i]} :: 0 <= i < |bins| ==> T - HOUR < bins[i].end <= T
    ensures |bins| <= KEPT
  {
    if bins != [] {
      assert Aligned(T - HOUR);
      AtLeast(bins, T - HOUR, |bins| - 1);
    }
  }

  /** An attempt that does not finish. */
  predicate Quits(replies: seq<Reply>, a: nat, b: nat, from: int, to: int) {
    a <= b <= |replies| && (Spoilt(replies[a..b], from, to) || (b == |replies| && Clean(replies[a..b], from, to) && Ongoing(replies[a..b])))
  }

  /** The bucket cannot be read: the attempt did not finish, or the archive had changed and the second one did not. */
  ghost predicate Unread(replies: seq<Reply>, a: nat, from: int, to: int) {
    || (exists b: nat {:trigger Quits(replies, a, b, from, to)} :: Quits(replies, a, b, from, to) && !(b > a && replies[b - 1].Gone?))
    || (exists m: nat, b: nat {:trigger Quits(replies, a, m, from, to), Quits(replies, m, b, from, to)} ::
          a < m && Quits(replies, a, m, from, to) && replies[m - 1].Gone? && Quits(replies, m, b, from, to))
  }

  /** The collection with all passes is too large, or is not saved. */
  ghost predicate Unsaved(w: World, start: Collection, news: seq<Finished>) {
    exists c {:trigger w.fits(c)} :: Holds(start, news, c) && Regular(c) && (!w.fits(c) || !w.saved(|news|))
  }

  /** Why a run is not complete: the archive is off, does not answer or has not come so far; or the last pass could
      not be saved, or the bucket after it not be read. */
  ghost predicate Excused(w: World, T: int, start: Collection, news: seq<Finished>, kept: nat) {
    || !w.enabled || !w.answered || w.success.None? || w.success.value < T
    || (Unsaved(w, start, news) && (news == [] || kept == |news| - 1))
    || (kept == |news| && Unread(w.replies, End(news), Mark(start, T, |news|), Mark(start, T, |news| + 1)))
  }

  /** Up to two attempts at a bucket, the second if the archive has changed. */
  method ReadBucket(seen: map<Key, int>, from: int, to: int, replies: seq<Reply>, at: nat)
    returns (done: bool, pass: Pass, gaps: seq<Gap>, ghost a: nat, at': nat)
    requires at <= |replies|
    ensures at <= at' <= |replies|
    ensures done ==> at <= a < at' && Read(replies[a..at'], from, to) && pass == Count(EventsOf(RowsOf(replies[a..at'])), seen, to)
    ensures done ==> replies[a].Page? && gaps == replies[a].gaps
    ensures done ==> a == at || (replies[a - 1].Gone? && Spoilt(replies[at..a], from, to))
    ensures !done ==> Unread(replies, at, from, to)
  {
    hide Count, EventsOf, RowsOf, Clean, Ongoing;
    var gone;
    a := at;
    done, gone, pass, gaps, at' := ReadPass(seen, from, to, replies, at);
    assert !done ==> Quits(replies, at, at', from, to);
    if gone {
      a := at';
      done, gone, pass, gaps, at' := ReadPass(seen, from, to, replies, at');
      assert !done ==> Quits(replies, a, at', from, to);
    }
  }

  lemma Begins(start: Collection, T: int, replies: seq<Reply>)
    ensures Linked(start, T, replies, []) && Holds(start, [], start)
  {}

  lemma NotSaved(w: World, start: Collection, news: seq<Finished>, c: Collection)
    requires Holds(start, news, c) && Regular(c) && (!w.fits(c) || !w.saved(|news|))
    ensures Unsaved(w, start, news)
  {}

  lemma EmptyTraced(T: int, passes: seq<Finished>)
    ensures Traced(Empty(T).bins, passes)
  {}

  lemma IsBin(f: Finished, b: Bin, pass: Pass, gaps: seq<Gap>)
    requires Read(f.pages, f.end - BUCKET, f.end) && f.pages[0].Page? && gaps == f.pages[0].gaps && pass == Count(EventsOf(RowsOf(f.pages)), f.seen, f.end)
    requires b == Bin(f.end, !Missed(gaps, f.end - BUCKET, f.end), pass.counts)
    ensures Sound(f) && b == BinOf(f) && pass == CountedBy(f) && From(b, f)
  {}

  lemma OfPass(b: Bin, f: Finished)
    requires From(b, f)
    ensures b.counts == CountedBy(f).counts && b.end == f.end
  {
    hide CountedBy;
  }

  /** The collection with one pass more. */
  lemma PassHeld(start: Collection, T: int, replies: seq<Reply>, news: seq<Finished>, state: Collection, f: Finished, from: int, at: nat)
    requires Regular(state) && Recent(state, T) && Aligned(T) && Aligned(f.end) && T - HOUR < f.end && f.end == from + BUCKET <= T
    requires T - HOUR <= from && state.watermark <= from == Mark(start, T, |news|)
    requires Linked(start, T, replies, news) && Holds(start, news, state) && Sound(f) && f.seen == state.seen && at == End(news) && Follows(replies, at, f)
    ensures var next := Extended(state, BinOf(f), CountedBy(f).seen);
      && Regular(next) && Recent(next, T) && next.watermark == f.end && next.success == state.success
      && Holds(start, news + [f], next) && Linked(start, T, replies, news + [f]) && End(news + [f]) == f.at + |f.pages|
      && forall x {:trigger x in next.bins} :: x in next.bins ==> x == BinOf(f) || x in state.bins
  {
    hide Ordered, Linked, Link, CountedBy, Aligned, Sound, Missed, Recent, Extended, Follows, Mark;
    MarkNext(start, T, |news|);
    ExtendedRegular(state, BinOf(f), CountedBy(f).seen, T);
    HoldsMore(start, news, state, f, T);
    ItLinks(start, T, replies, news, f);
    LinkedMore(start, T, replies, news, f);
  }

  lemma OneMark(from: int, T: int)
    requires Aligned(from) && Aligned(T) && from + BUCKET <= T
    ensures Aligned(from + BUCKET)
  {}

  /** The hour and the order do not depend on the other fields. */
  lemma SameBins(c: Collection, c': Collection, T: int, passes: seq<Finished>)
    requires c'.bins == c.bins && c'.watermark == c.watermark && Regular(c) && Recent(c, T) && Traced(c.bins, passes)
    ensures Regular(c') && Recent(c', T) && Kept(c, passes) && Kept(c', passes)
  {}

  lemma BaseAligned(start: Collection, T: int)
    requires Aligned(T) && Aligned(start.watermark)
    ensures Aligned(Base(start, T)) && T - HOUR <= Base(start, T) && start.watermark <= Base(start, T)
  {}

  class MonitorCollector {
    /** What the next run starts from when it is given nothing. */
    var retained: Option<Collection>

    /** Every pass that was ever finished, before and after restarts. */
    ghost var passes: seq<Finished>

    /** Every collection that may have been saved. */
    ghost var written: set<Collection>

    ghost predicate Valid()
      reads this
    {
      && (retained.Some? ==> retained.value in written)
      && forall c {:trigger c in written} :: c in written ==> Kept(c, passes)
    }

    constructor ()
      ensures Valid() && retained == None && passes == [] && written == {}
    {
      retained, passes, written := None, [], {};
    }

    /** A new process remembers nothing; what was saved stays saved. */
    method Restart()
      requires Valid()
      modifies this
      ensures Valid() && retained == None && passes == old(passes) && written == old(written)
    {
      retained := None;
    }

    /** checkpoint: state too large to keep is refused; a save that fails may have been written. */
    method Checkpoint(c: Collection, w: World, n: nat) returns (ok: bool)
      requires Valid() && Kept(c, passes)
      modifies this`retained, this`written
      ensures Valid() && old(written) <= written
      ensures (ok <==> w.fits(c) && w.saved(n)) && retained == if ok then Some(c) else old(retained)
    {
      hide Kept;
      ok := false;
      if w.fits(c) {
        written := written + {c};
        ok := w.saved(n);
        if ok {
          retained := Some(c);
        }
      }
    }

    ghost method Finish(f: Finished)
      requires Valid()
      modifies this`passes
      ensures Valid() && passes == old(passes) + [f]
    {
      hide Regular;
      forall c | c in written ensures Kept(c, passes + [f]) { TracedMore(c.bins, passes, f); }
      passes := passes + [f];
    }

    /** readArchive at the five-minute mark T.  However earlier runs ended, whatever was saved and
        wherever the clock stood, each bucket of the collection is one finished pass.  The run reads bucket after
        bucket, each with what was known after the one before; it stops before T only for a reason. */
    method ReadArchive(T: int, input: Input, w: World) returns (r: Result, ghost news: seq<Finished>, ghost kept: nat)
      requires Valid() && Aligned(T) && (input.Saved? ==> input.collection in written)
      modifies this
      ensures Valid() && passes == old(passes) + news && old(written) <= written
      ensures Regular(r.collection) && Recent(r.collection, T) && Traced(r.collection.bins, passes)
      ensures var start := Opening(old(retained), input, T, w);
        kept <= |news| && Linked(start, T, w.replies, news) && Holds(start, news[..kept], r.collection)
        && (r.complete || Excused(w, T, start, news, kept))
      ensures r.success == if w.enabled && w.answered then w.success else None
      ensures r.complete ==> r.collection.watermark == T && r.success.Some? && T <= r.success.value && r.collection.success == r.success
      ensures r.complete ==> kept == |news| && retained == Some(r.collection)
    {
      hide Ordered, Traced, Later, Aligned, Linked, Holds, Unread, Unsaved, Regular, Recent, Pruned;
      news, kept := [], 0;
      EmptyRegular(T);
      EmptyTraced(T, passes);
      var state := if input.Saved? then input.collection else if input.Omitted? && retained.Some? then retained.value else Empty(T);
      if T < state.watermark {
        state := Empty(T);
      }
      PrunedRegular(state, T);
      TracedFewer(state.bins, passes, Pruned(state, T).bins);
      state := Pruned(state, T);
      ghost var start := Opening(retained, input, T, w);
      Begins(start, T, w.replies);
      SameBins(state, state, T, passes);
      SameBins(state, start, T, passes);
      if !w.enabled {
        var ok := Checkpoint(state, w, 0);
        return Result(false, state, None), [], 0;
      }
      if !w.answered {
        return Result(false, state, None), [], 0;
      }
      var success := w.success;
      if success.None? || (state.success.Some? && success.value < state.success.value) {
        state := state.(startedAt := T);
      }
      state := state.(success := success);
      var ok := Checkpoint(state, w, 0);
      if !ok || success.None? {
        if success.Some? { NotSaved(w, start, [], state); }
        return Result(false, state, success), [], 0;
      }
      r, news, kept := Collect(state, T, w);
    }

    /** Where a run stands between two buckets: the collection is saved and holds all passes of the run. */
    ghost predicate Going(start: Collection, T: int, w: World, news: seq<Finished>, state: Collection, from: int, at: nat, n: nat)
      reads this
    {
      && Valid() && retained == Some(state) && Regular(state) && Recent(state, T) && Traced(state.bins, passes)
      && Aligned(from) && T - HOUR <= from && state.watermark <= from && (state.watermark == from || from == T - HOUR)
      && from == Mark(start, T, |news|) && at == End(news) <= |w.replies| && n == |news|
      && Linked(start, T, w.replies, news) && Holds(start, news, state)
    }

    /** Bucket after bucket, from where the collection ends. */
    method Collect(start: Collection, T: int, w: World) returns (r: Result, ghost news: seq<Finished>, ghost kept: nat)
      requires Valid() && retained == Some(start) && Regular(start) && Recent(start, T) && Traced(start.bins, passes) && Aligned(T)
      requires w.success.Some? && start.success == w.success
      modifies this
      ensures Valid() && passes == old(passes) + news && old(written) <= written
      ensures Regular(r.collection) && Recent(r.collection, T) && Traced(r.collection.bins, passes)
      ensures kept <= |news| && Linked(start, T, w.replies, news) && Holds(start, news[..kept], r.collection)
      ensures r.complete || Excused(w, T, start, news, kept)
      ensures r.success == w.success && r.collection.success == w.success
      ensures r.complete ==> r.collection.watermark == T <= w.success.value && kept == |news| && retained == Some(r.collection)
    {
      hide Ordered, Traced, Aligned, Linked, Holds, Sound, Unread, Unsaved, Mark;
      MarkNext(start, T, 0);
      Begins(start, T, w.replies);
      news, kept := [], 0;
      var success := w.success.value;
      var upTo := (if T < success then T else success) / BUCKET * BUCKET;
      UpToMark(T, success);
      AlignedBack(T, KEPT);
      var state, from, at, n := start, Base(start, T), 0, 0;
      BaseAligned(start, T);
      while from < upTo
        invariant Going(start, T, w, news, state, from, at, n) && passes == old(passes) + news && old(written) <= written
        invariant state.success == w.success && kept == n && Aligned(upTo) && upTo <= T
        decreases upTo - from
      {
        var to := from + BUCKET;
        AlignedNext(from, upTo);
        ghost var before := news;
        MarkNext(start, T, |news|);
        var read, saved, next;
        read, saved, next, at, news := Bucket(start, T, w, news, state, from, at, n);
        if !read || !saved {
          assert before[..kept] == before && news[..kept] == before;
          return Result(false, state, w.success), news, kept;
        }
        state, from, n, kept := next, to, n + 1, n + 1;
      }
      assert news[..kept] == news;
      r := Result(success >= T, state, w.success);
    }

    /** One bucket: read, counted on what is known, and saved. */
    method Bucket(ghost start: Collection, T: int, w: World, ghost news0: seq<Finished>, state: Collection, from: int, at: nat, n: nat)
      returns (read: bool, saved: bool, next: Collection, at': nat, ghost news: seq<Finished>)
      requires Going(start, T, w, news0, state, from, at, n) && Aligned(T) && from + BUCKET <= T
      modifies this
      ensures Valid() && old(written) <= written && news0 <= news && passes == old(passes) + news[|news0|..]
      ensures Traced(state.bins, passes) && Linked(start, T, w.replies, news)
      ensures !read ==> news == news0 && Unread(w.replies, End(news0), from, from + BUCKET)
      ensures read ==> |news| == |news0| + 1
      ensures read && !saved ==> Unsaved(w, start, news)
      ensures read && saved ==> Going(start, T, w, news, next, from + BUCKET, at', n + 1) && next.success == state.success
    {
      hide Count, Ordered, Traced, Later, Aligned, Newest, Linked, Holds, Sound, Read, Spoilt, Clean, Ongoing, RowsOf, EventsOf, Unread, Unsaved, Missed, Recent, Regular, From, CountedBy, BinOf, Link, Mark;
      news, saved, next := news0, false, state;
      var to := from + BUCKET;
      MarkNext(start, T, |news0|);
      OneMark(from, T);
      var pass, gaps;
      ghost var a;
      read, pass, gaps, a, at' := ReadBucket(state.seen, from, to, w.replies, at);
      if !read {
        return;
      }
      ghost var f := Finished(to, a, w.replies[a..at'], state.seen);
      var bin := Bin(to, !Missed(gaps, from, to), pass.counts);
      IsBin(f, bin, pass, gaps);
      next := Extended(state, bin, pass.seen);
      PassHeld(start, T, w.replies, news0, state, f, from, at);
      TracedMore(state.bins, passes, f);
      TracedNext(state.bins, passes, bin, f, next.bins);
      Finish(f);
      news := news0 + [f];
      saved := Checkpoint(next, w, n + 1);
      if !saved {
        NotSaved(w, start, news, next);
      }
    }
  }

  lemma UpToMark(T: int, success: int)
    requires Aligned(T)
    ensures var upTo := (if T < success then T else success) / BUCKET * BUCKET; Aligned(upTo) && upTo <= T && (success >= T ==> upTo == T)
  {}

  lemma AlignedNext(from: int, upTo: int)
    requires Aligned(from) && Aligned(upTo) && from < upTo
    ensures from + BUCKET <= upTo && Aligned(from + BUCKET)
  {}

  // ---------- windows ----------

  /** A window is shown as a value only when nothing is missing from it. */
  predicate Shown(c: Collection, complete: bool, T: int, window: int) {
    var bins := Later(c.bins, T - window);
    && complete && (forall i {:trigger bins[i]} :: 0 <= i < |bins| ==> bins[i].complete)
    && T - c.startedAt >= window && |bins| == window / BUCKET && exists i :: 0 <= i < |bins| && bins[i].end == T
  }

  /** A shown window is made of every five-minute bucket in it, each once, all complete. */
  lemma WindowTiled(c: Collection, complete: bool, T: int, n: nat)
    requires Regular(c) && Recent(c, T) && Aligned(T) && Shown(c, complete, T, n * BUCKET)
    ensures var bins := Later(c.bins, T - n * BUCKET);
      |bins| == n && forall i {:trigger bins[i]} :: 0 <= i < n ==> bins[i].end == T - (n - 1 - i) * BUCKET && bins[i].complete && bins[i] in c.bins
  {
    var bins := Later(c.bins, T - n * BUCKET);
    LaterExact(c.bins, T - n * BUCKET);
    assert n * BUCKET / BUCKET == n && Aligned(T - n * BUCKET) by { AlignedBack(T, n); }
    hide Ordered, Later, Aligned;
    forall j | 0 <= j < |bins| ensures T - n * BUCKET < bins[j].end <= T && bins[j] in c.bins {
      assert bins[j] == Later(c.bins, T - n * BUCKET)[j];
      Below(c.bins, bins[j]);
    }
    forall i | 0 <= i < n ensures bins[i].end == T - (n - 1 - i) * BUCKET && bins[i] in c.bins {
      AtLeast(bins, T - n * BUCKET, i);
      AtMost(bins, T, i);
    }
  }

  lemma AlignedBack(T: int, n: nat)
    requires Aligned(T)
    ensures n * BUCKET / BUCKET == n && Aligned(T - n * BUCKET)
  {}

  lemma {:induction false} AtLeast(bins: seq<Bin>, t: int, i: nat)
    requires Ordered(bins) && Aligned(t) && i < |bins| && forall j {:trigger bins[j]} :: 0 <= j < |bins| ==> bins[j].end > t
    ensures bins[i].end >= t + (i + 1) * BUCKET
  {
    if i > 0 { AtLeast(bins, t, i - 1); }
    AlignedStep(if i > 0 then bins[i - 1].end else t, bins[i].end);
  }

  lemma {:induction false} AtMost(bins: seq<Bin>, T: int, i: nat)
    requires Ordered(bins) && i < |bins| && forall j {:trigger bins[j]} :: 0 <= j < |bins| ==> bins[j].end <= T
    ensures bins[i].end <= T - (|bins| - 1 - i) * BUCKET
    decreases |bins| - i
  {
    if i + 1 < |bins| {
      AtMost(bins, T, i + 1);
      AlignedStep(bins[i].end, bins[i + 1].end);
    }
  }

  lemma AlignedStep(a: int, b: int)
    requires Aligned(a) && Aligned(b) && a < b
    ensures a + BUCKET <= b
  {}

  function Sum(bins: seq<Bin>, count: Counts -> nat): nat {
    if bins == [] then 0 else count(bins[0].counts) + Sum(bins[1..], count)
  }

  /** The sums of a window, bucket by bucket. */
  method SumWindow(c: Collection, T: int, window: int, count: Counts -> nat) returns (value: nat)
    ensures value == Sum(Later(c.bins, T - window), count)
  {
    var bins := Later(c.bins, T - window);
    value := 0;
    assert bins[0..] == bins;
    for i := 0 to |bins|
      invariant value + Sum(bins[i..], count) == Sum(bins, count)
    {
      assert bins[i..][1..] == bins[i + 1..];
      value := value + count(bins[i].counts);
    }
  }

  /** The passes behind the buckets of a window, in order. */
  ghost predicate Behind(bins: seq<Bin>, passes: seq<Finished>, chosen: seq<nat>) {
    |chosen| == |bins| && forall i {:trigger chosen[i]} :: 0 <= i < |bins| ==> chosen[i] < |passes| && From(bins[i], passes[chosen[i]])
  }

  ghost function SumPasses(passes: seq<Finished>, chosen: seq<nat>, count: Counts -> nat): nat
    requires forall i {:trigger chosen[i]} :: 0 <= i < |chosen| ==> chosen[i] < |passes|
  {
    if chosen == [] then 0 else count(CountedBy(passes[chosen[0]]).counts) + SumPasses(passes, chosen[1..], count)
  }

  lemma {:induction false} PassesBehind(bins: seq<Bin>, passes: seq<Finished>, count: Counts -> nat) returns (chosen: seq<nat>)
    requires Traced(bins, passes)
    ensures Behind(bins, passes, chosen) && Sum(bins, count) == SumPasses(passes, chosen, count)
  {
    hide CountedBy, From;
    if bins == [] {
      chosen := [];
    } else {
      assert bins[0] in bins;
      var k :| 0 <= k < |passes| && From(bins[0], passes[k]);
      OfPass(bins[0], passes[k]);
      assert bins == [bins[0]] + bins[1..];
      TracedFewer(bins, passes, bins[1..]);
      var rest := PassesBehind(bins[1..], passes, count);
      chosen := [k] + rest;
      assert chosen[1..] == rest;
      forall i | 0 <= i < |bins| ensures chosen[i] < |passes| && From(bins[i], passes[chosen[i]]) {
        if i > 0 { assert chosen[i] == rest[i - 1] && bins[i] == bins[1..][i - 1]; }
      }
    }
  }

  /** A shown window is the sum of as many different finished passes as it has buckets, one ending
      on each five-minute mark of it. */
  lemma WindowPasses(c: Collection, passes: seq<Finished>, complete: bool, T: int, n: nat, count: Counts -> nat) returns (chosen: seq<nat>)
    requires Regular(c) && Recent(c, T) && Aligned(T) && Traced(c.bins, passes) && Shown(c, complete, T, n * BUCKET)
    ensures var bins := Later(c.bins, T - n * BUCKET);
      |bins| == n && Behind(bins, passes, chosen) && Sum(bins, count) == SumPasses(passes, chosen, count)
    ensures forall i {:trigger chosen[i]} :: 0 <= i < n ==> chosen[i] < |passes| && passes[chosen[i]].end == T - (n - 1 - i) * BUCKET
    ensures forall i, j {:trigger chosen[i], chosen[j]} :: 0 <= i < j < n ==> chosen[i] != chosen[j]
  {
    hide CountedBy, From, Ordered, Later, Aligned, Recent, Sum, SumPasses, Shown;
    var bins := Later(c.bins, T - n * BUCKET);
    WindowTiled(c, complete, T, n);
    forall b | b in bins ensures b in c.bins { LaterIn(c.bins, T - n * BUCKET, b); }
    TracedFewer(c.bins, passes, bins);
    chosen := PassesBehind(bins, passes, count);
    forall i | 0 <= i < n ensures chosen[i] < |passes| && passes[chosen[i]].end == T - (n - 1 - i) * BUCKET {
      OfPass(bins[i], passes[chosen[i]]);
    }
    forall i, j | 0 <= i < j < n ensures chosen[i] != chosen[j] {
      assert passes[chosen[i]].end == T - (n - 1 - i) * BUCKET && passes[chosen[j]].end == T - (n - 1 - j) * BUCKET;
    }
  }
}
