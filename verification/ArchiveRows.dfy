/** What the pages of a search amount to: the matching lines of the archive, but for those that a member was
    skipped with. */
module ArchiveRows {
  import opened Options
  import opened ArchiveTypes
  import opened ArchiveDisk
  import opened ArchiveJournal
  import opened ArchiveStaging
  import opened ArchiveCommit
  import opened ArchiveHistory
  import opened ArchiveReaders
  import opened ArchiveRanges
  import opened ArchiveSnapshot
  import S = ArchiveSearch

  // ---------- the rows of a snapshot and the matching lines of its hours ----------

  function Matching(q: S.Query, lines: seq<Bytes>): seq<Bytes> {
    if lines == [] then [] else (if S.Matches(q, lines[0]) then [lines[0]] else []) + Matching(q, lines[1..])
  }

  function RawsOf(rows: seq<S.Row>): seq<Bytes> { seq(|rows|, i requires 0 <= i < |rows| => rows[i].raw) }

  lemma {:induction false} MatchingConcat(q: S.Query, a: seq<Bytes>, b: seq<Bytes>)
    ensures Matching(q, a + b) == Matching(q, a) + Matching(q, b)
  {
    if a == [] {
      assert a + b == b;
    } else {
      assert (a + b)[1..] == a[1..] + b;
      MatchingConcat(q, a[1..], b);
    }
  }

  lemma RawsOfConcat(a: seq<S.Row>, b: seq<S.Row>)
    ensures RawsOf(a + b) == RawsOf(a) + RawsOf(b)
  {}

  lemma {:induction false} PartMatching(q: S.Query, hour: int, start: nat, lines: seq<Bytes>, l: nat)
    requires AllShort(lines) && l <= |lines|
    ensures RawsOf(S.PartRows(q, hour, start, lines, l)) == Matching(q, lines[l..])
    decreases |lines| - l
  {
    if l < |lines| {
      PartMatching(q, hour, start, lines, l + 1);
      RawsOfConcat(S.LineRows(q, hour, start, l, lines[l]), S.PartRows(q, hour, start, lines, l + 1));
      assert lines[l..][1..] == lines[l + 1..];
    }
  }

  /** The lines of an hour are those of its members, one after the other. */
  lemma {:induction false} TextSplit(z: Codec, clock: Clock, source: string, content: Bytes, ix: Index)
    requires ix != [] && Decodes(z, content, ix) && MembersRanged(z, clock, source, content, ix)
    ensures Decodes(z, content, ix[1..]) && MemberDecodes(z, content, ix[0])
    ensures Split(TextOf(z, content, ix)) == Split(MemberText(z, content, ix[0])) + Split(TextOf(z, content, ix[1..]))
  {
    hide TextRanged, Split, MemberDecodes;
    assert ix == [ix[0]] + ix[1..];
    DecodesSplit(z, content, [ix[0]], ix[1..]);
    RangedSplit(z, clock, source, content, [ix[0]], ix[1..]);
    assert MemberDecodes(z, content, ix[0]) && MemberRanged(z, clock, source, content, ix[0]);
    var m, rest := ix[0], ix[1..];
    if rest == [] {
      assert MemberText(z, content, m) + [] == MemberText(z, content, m);
      SplitNothing();
      assert Split(MemberText(z, content, m)) + [] == Split(MemberText(z, content, m));
    } else {
      GroupRanged(z, clock, source, content, rest);
      TextJoined(clock, source, MemberText(z, content, m), m.minTime, m.maxTime, m.unknown,
                 TextOf(z, content, rest), LeastTime(rest), GreatestTime(rest), UnknownsOf(rest));
    }
  }

  lemma SplitNothing()
    ensures Split([]) == []
  {}

  /** How many matching lines the members skipped from member `m` of hour `h` on hold. */
  function Missed(q: S.Query, hours: seq<S.Hour>, h: nat, m: nat): nat
    decreases |hours| - h, if h < |hours| then |hours[h].parts| - m else 0
  {
    if h >= |hours| then 0
    else if m >= |hours[h].parts| then Missed(q, hours, h + 1, 0)
    else (if S.CanSkip(q, hours[h].parts[m]) then |Matching(q, Split(hours[h].parts[m].text))| else 0) + Missed(q, hours, h, m + 1)
  }

  /** These rows are those lines, all but `missed` of them. */
  predicate AllBut(rows: seq<S.Row>, lines: seq<Bytes>, missed: nat) {
    |rows| + missed == |lines| && (missed == 0 ==> RawsOf(rows) == lines)
  }

  lemma AllButMore(a: seq<S.Row>, x: seq<Bytes>, n: nat, b: seq<S.Row>, y: seq<Bytes>, m: nat)
    requires AllBut(a, x, n) && AllBut(b, y, m)
    ensures AllBut(a + b, x + y, n + m)
  {
    RawsOfConcat(a, b);
  }

  /** The rows of an hour from member `m` on, and its matching lines. */
  lemma {:induction false} HourLines(z: Codec, clock: Clock, source: string, content: Bytes, ix: Index, hours: seq<S.Hour>, h: nat, q: S.Query,
                                     m: nat, later: seq<Bytes>)
    requires Decodes(z, content, ix) && MembersRanged(z, clock, source, content, ix)
    requires h < |hours| && hours[h] == HourFor(z, hours[h].hour, content, ix) && m <= |ix|
    requires AllBut(S.RowsFrom(q, hours, h + 1, 0, 0), later, Missed(q, hours, h + 1, 0))
    ensures Decodes(z, content, ix[m..])
    ensures AllBut(S.RowsFrom(q, hours, h, m, 0), Matching(q, Split(TextOf(z, content, ix[m..]))) + later, Missed(q, hours, h, m))
    decreases |ix| - m
  {
    hide Split, MemberDecodes, MembersRanged, S.PartRows, Matching, TextOf, AllBut;
    assert ix == ix[..m] + ix[m..];
    DecodesSplit(z, content, ix[..m], ix[m..]);
    if m == |ix| {
      NoLines(z, q, content, ix[m..]);
      assert [] + later == later;
    } else {
      RangedSplit(z, clock, source, content, ix[..m], ix[m..]);
      TextSplit(z, clock, source, content, ix[m..]);
      assert ix[m..][1..] == ix[m + 1..] && ix[m..][0] == ix[m];
      HourLines(z, clock, source, content, ix, hours, h, q, m + 1, later);
      var p, rest := hours[h].parts[m], Split(TextOf(z, content, ix[m + 1..]));
      MemberShort(z, clock, source, content, ix[m..]);
      assert p == PartFor(z, content, ix[m]);
      PartLines(q, hours[h].hour, p);
      MatchingConcat(q, Split(p.text), rest);
      AllButMore(S.PartDue(q, hours[h].hour, p, 0), Matching(q, Split(p.text)), if S.CanSkip(q, p) then |Matching(q, Split(p.text))| else 0,
                 S.RowsFrom(q, hours, h, m + 1, 0), Matching(q, rest) + later, Missed(q, hours, h, m + 1));
      assert Matching(q, Split(p.text)) + (Matching(q, rest) + later) == Matching(q, Split(p.text)) + Matching(q, rest) + later;
    }
  }

  lemma PartLines(q: S.Query, hour: int, p: S.Part)
    requires AllShort(Split(p.text))
    ensures AllBut(S.PartDue(q, hour, p, 0), Matching(q, Split(p.text)), if S.CanSkip(q, p) then |Matching(q, Split(p.text))| else 0)
    ensures RawsOf(S.PartRows(q, hour, p.start, Split(p.text), 0)) == Matching(q, Split(p.text))
  {
    PartMatching(q, hour, p.start, Split(p.text), 0);
    assert Split(p.text)[0..] == Split(p.text);
    assert |RawsOf(S.PartRows(q, hour, p.start, Split(p.text), 0))| == |S.PartRows(q, hour, p.start, Split(p.text), 0)|;
  }

  /** All rows of a snapshot, hour by hour, are the matching lines of what its hours decode to, but for those missed. */
  lemma {:induction false} RowsAreLines(z: Codec, clock: Clock, d: Disk, source: string, hs: seq<int>, q: S.Query, h: nat)
    requires Readable(z, d) && Ranged(z, clock, d) && Pinned(d, source, hs) && h <= |hs|
    ensures AllBut(S.RowsFrom(q, HoursAt(z, d, source, hs), h, 0, 0), LinesFrom(z, d, source, hs, q, h), Missed(q, HoursAt(z, d, source, hs), h, 0))
    decreases |hs| - h
  {
    hide Split, Decodes, MembersRanged, Matching, TextOf, Ranged, HourFor;
    if h < |hs| {
      var k := Key(source, hs[h]);
      HourIn(z, clock, d, k);
      HourNames(z, d, source, hs);
      RowsAreLines(z, clock, d, source, hs, q, h + 1);
      HourLines(z, clock, source, d.data[k], d.index[k], HoursAt(z, d, source, hs), h, q, 0, LinesFrom(z, d, source, hs, q, h + 1));
      assert d.index[k][0..] == d.index[k];
    }
  }

  lemma MemberShort(z: Codec, clock: Clock, source: string, content: Bytes, ix: Index)
    requires ix != [] && Decodes(z, content, ix) && MembersRanged(z, clock, source, content, ix)
    ensures MemberDecodes(z, content, ix[0]) && AllShort(Split(MemberText(z, content, ix[0])))
  {
    assert MemberRanged(z, clock, source, content, ix[0]);
  }

  lemma NoLines(z: Codec, q: S.Query, content: Bytes, ix: Index)
    requires ix == []
    ensures Decodes(z, content, ix) && Matching(q, Split(TextOf(z, content, ix))) == []
  {}

  /** The matching lines of the hours from `h` on. */
  function LinesFrom(z: Codec, d: Disk, source: string, hs: seq<int>, q: S.Query, h: nat): seq<Bytes>
    requires Readable(z, d) && Pinned(d, source, hs)
    decreases |hs| - h
  {
    if h >= |hs| then []
    else Matching(q, Split(HourText(z, d, Key(source, hs[h])))) + LinesFrom(z, d, source, hs, q, h + 1)
  }

  // ---------- members that are skipped ----------

  /** By the collector's dates all lines lie on one side of the window; by the search's a line of them matches. */
  predicate Misled(q: S.Query, clock: Clock, source: string, lines: seq<Bytes>) {
    && (forall i {:trigger lines[i]} :: 0 <= i < |lines| ==> clock(source, lines[i]).Some?)
    && ((forall i {:trigger lines[i]} :: 0 <= i < |lines| ==> clock(source, lines[i]).value < q.start)
        || (forall i {:trigger lines[i]} :: 0 <= i < |lines| ==> q.end <= clock(source, lines[i]).value))
    && exists i {:trigger lines[i]} :: 0 <= i < |lines| && S.Matches(q, lines[i])
  }

  lemma {:induction false} SomeMatching(q: S.Query, lines: seq<Bytes>)
    ensures Matching(q, lines) != [] <==> exists i {:trigger lines[i]} :: 0 <= i < |lines| && S.Matches(q, lines[i])
  {
    if lines != [] {
      SomeMatching(q, lines[1..]);
      assert forall i :: 1 <= i < |lines| ==> lines[i] == lines[1..][i - 1];
      if exists i :: 0 <= i < |lines[1..]| && S.Matches(q, lines[1..][i]) {
        var i :| 0 <= i < |lines[1..]| && S.Matches(q, lines[1..][i]);
        assert S.Matches(q, lines[i + 1]);
      }
    }
  }

  /** A line without a date is counted. */
  lemma {:induction false} NoneUndated(clock: Clock, source: string, lines: seq<Bytes>)
    ensures Undated(clock, source, lines) == 0 <==> forall i {:trigger lines[i]} :: 0 <= i < |lines| ==> clock(source, lines[i]).Some?
  {
    if lines != [] {
      NoneUndated(clock, source, lines[1..]);
      assert forall i :: 1 <= i < |lines| ==> lines[i] == lines[1..][i - 1];
      if forall i :: 0 <= i < |lines| ==> clock(source, lines[i]).Some? {
        assert forall i :: 0 <= i < |lines[1..]| ==> lines[1..][i] == lines[i + 1];
      }
    }
  }

  /** A member is skipped with a matching line in it exactly if the collector dated all of its lines on one side
      of the window and the search reads one of them differently. */
  lemma MissedExactly(q: S.Query, clock: Clock, source: string, hour: int, p: S.Part)
    requires TextRanged(clock, source, p.text, p.minTime, p.maxTime, p.unknown)
    ensures S.CanSkip(q, p) && S.PartRows(q, hour, p.start, Split(p.text), 0) != [] <==> Misled(q, clock, source, Split(p.text))
  {
    hide Split, Flatten, Undated, S.Matches, S.PartRows, Matching;
    var lines := Split(p.text);
    NoneUndated(clock, source, lines);
    SomeMatching(q, lines);
    PartLines(q, hour, p);
    assert |RawsOf(S.PartRows(q, hour, p.start, lines, 0))| == |S.PartRows(q, hour, p.start, lines, 0)|;
    if p.unknown == 0 {
      var i :| 0 <= i < |lines| && clock(source, lines[i]) == Some(p.minTime);
      var j :| 0 <= j < |lines| && clock(source, lines[j]) == Some(p.maxTime);
      assert forall n :: 0 <= n < |lines| ==> Within(clock(source, lines[n]), p.minTime, p.maxTime);
    }
  }

  /** The query for the times from `lo` up to `hi`, whatever the text. */
  function WindowOf(timeOf: Bytes -> Option<int>, lo: int, hi: int): S.Query { S.Query(lo, hi, lo, 1, timeOf, _ => true, true) }

  lemma MissedAt(timeOf: Bytes -> Option<int>, lo: int, hi: int, hour: int, p: S.Part, i: nat)
    requires i < |Split(p.text)| && S.Matches(WindowOf(timeOf, lo, hi), Split(p.text)[i]) && AllShort(Split(p.text))
    ensures S.PartRows(WindowOf(timeOf, lo, hi), hour, p.start, Split(p.text), 0) != []
  {
    hide S.PartRows, Split, S.Matches, Matching, S.PartDue;
    SomeMatching(WindowOf(timeOf, lo, hi), Split(p.text));
    PartLines(WindowOf(timeOf, lo, hi), hour, p);
    assert |RawsOf(S.PartRows(WindowOf(timeOf, lo, hi), hour, p.start, Split(p.text), 0))| == |S.PartRows(WindowOf(timeOf, lo, hi), hour, p.start, Split(p.text), 0)|;
  }

  /** Skipping a member of dated lines is right for every window and text exactly if the search reads of each of
      its lines a time within the range that the collector staged. */
  lemma SkipsRight(timeOf: Bytes -> Option<int>, clock: Clock, source: string, hour: int, p: S.Part)
    requires TextRanged(clock, source, p.text, p.minTime, p.maxTime, p.unknown) && p.unknown == 0
    ensures (forall q: S.Query :: q.timeOf == timeOf && S.CanSkip(q, p) ==> S.PartRows(q, hour, p.start, Split(p.text), 0) == [])
       <==> forall i {:trigger Split(p.text)[i]} :: 0 <= i < |Split(p.text)| ==>
              timeOf(Split(p.text)[i]).Some? && p.minTime <= timeOf(Split(p.text)[i]).value <= p.maxTime
  {
    hide S.PartRows, Split, Undated;
    var lines := Split(p.text);
    if forall i :: 0 <= i < |lines| ==> timeOf(lines[i]).Some? && p.minTime <= timeOf(lines[i]).value <= p.maxTime {
      forall q: S.Query | q.timeOf == timeOf && S.CanSkip(q, p) ensures S.PartRows(q, hour, p.start, lines, 0) == [] {
        assert S.AllTimed(q, p);
        S.SkipIsSound(q, hour, p, 0);
      }
    } else {
      var i :| 0 <= i < |lines| && !(timeOf(lines[i]).Some? && p.minTime <= timeOf(lines[i]).value <= p.maxTime);
      var t := if timeOf(lines[i]).Some? then timeOf(lines[i]).value else p.maxTime + 1;
      MissedAt(timeOf, t, t + 1, hour, p, i);
      assert S.CanSkip(WindowOf(timeOf, t, t + 1), p);
    }
  }

  // ---------- a line that is not found ----------

  /** An access line with a time in front and another in brackets: 10:05 and 10:30 on 5 March 2025. */
  const TWO_TIMES: Bytes := FRONT + REST + [LF]
  const FRONT: Bytes := [
    50, 48, 50, 53, 45, 48, 51, 45, 48, 53, 84, 49, 48, 58, 48, 53, 58, 48, 48, 90, 32]
  const REST: Bytes := [
    71, 69, 84, 32, 47, 32, 91, 48, 53, 47, 77, 97, 114, 47, 50, 48, 50, 53, 58, 49, 48, 58, 51, 48, 58, 48, 48,
    32, 43, 48, 48, 48, 48, 93]

  const LEADING := 1741169100000
  const BRACKETED := 1741170600000
  const WINDOW_START := 1741165200000
  const WINDOW_END := 1741169700000

  /** The collector dates access lines by the brackets. */
  function ByBrackets(line: Bytes): Clock { (source: string, raw: Bytes) => if raw == line then Some(BRACKETED) else None }

  /** The search goes by a time in front of the line, if there is one. */
  function ByFront(line: Bytes): Bytes -> Option<int> { (raw: Bytes) => if raw == line then Some(LEADING) else None }

  /** A search from 9:00 to 10:15. */
  function Morning(line: Bytes): S.Query { WindowOf(ByFront(line), WINDOW_START, WINDOW_END) }

  /** A member of this one line, as the collector stages it. */
  function Alone(line: Bytes): S.Part { S.Part(0, 1, |line|, BRACKETED, BRACKETED, 0, line) }

  /** The member is ranged as it should be and lies in an hour the search pins; its line matches, and is skipped. */
  predicate MatchSkipped(line: Bytes) {
    var p, q := Alone(line), Morning(line);
    && TextRanged(ByBrackets(line), "npmplus", line, p.minTime, p.maxTime, p.unknown) && Overlaps(q, p.minTime / HOUR)
    && S.CanSkip(q, p) && S.PartRows(q, p.minTime / HOUR, 0, Split(line), 0) != []
  }

  lemma AloneSkipped(line: Bytes)
    requires Split(line) == [line] && |line| <= MAX_LINE
    ensures MatchSkipped(line)
  {
    hide Split, S.PartRows;
    assert [line][0] == line && [line][1..] == [];
    assert Flatten([line]) == line + [] == line;
    assert Shows(ByBrackets(line), "npmplus", [line], BRACKETED);
    assert Undated(ByBrackets(line), "npmplus", [line]) == 0;
    assert AllWithin(ByBrackets(line), "npmplus", [line], BRACKETED, BRACKETED);
    assert TextRanged(ByBrackets(line), "npmplus", line, BRACKETED, BRACKETED, 0);
    assert Overlaps(Morning(line), BRACKETED / HOUR);
    assert S.CanSkip(Morning(line), Alone(line));
    MissedAt(ByFront(line), WINDOW_START, WINDOW_END, BRACKETED / HOUR, Alone(line), 0);
  }

  /** Such a line exists. */
  lemma SkippedMatch()
    ensures MatchSkipped(TWO_TIMES)
  {
    hide MatchSkipped;
    OneLine();
    AloneSkipped(TWO_TIMES);
  }

  predicate NoneLF(text: Bytes) { forall i {:trigger text[i]} :: 0 <= i < |text| ==> text[i] != LF }

  lemma Literals()
    ensures NoneLF(FRONT) && |FRONT| == 21 && NoneLF(REST) && |REST| == 34
  {}

  lemma OneLine()
    ensures Split(TWO_TIMES) == [TWO_TIMES] && |TWO_TIMES| == 56
  {
    Literals();
    var text, n := FRONT + REST, |FRONT| + |REST|;
    LineOf(FRONT, REST);
    SplitFirst(TWO_TIMES, []);
    assert TWO_TIMES + [] == TWO_TIMES;
  }

  lemma LineOf(a: Bytes, b: Bytes)
    requires NoneLF(a) && NoneLF(b)
    ensures IsLine(a + b + [LF])
  {}

  // ---------- the pages of a search ----------

  /** Member `j` of the `i`th hour is skipped with a match in it. */
  predicate MisledBy(z: Codec, clock: Clock, d: Disk, source: string, hs: seq<int>, q: S.Query, i: nat, j: nat)
    requires Readable(z, d) && Pinned(d, source, hs)
  {
    i < |hs| && var k := Key(source, hs[i]); j < |d.index[k]| && Misled(q, clock, source, Split(MemberText(z, d.data[k], d.index[k][j])))
  }

  /** Neither member `m` of the `h`th hour nor a later one is skipped with a match in it. */
  ghost predicate NoneMisled(z: Codec, clock: Clock, d: Disk, source: string, hs: seq<int>, q: S.Query, h: nat, m: nat)
    requires Readable(z, d) && Pinned(d, source, hs)
  {
    forall i: nat, j: nat {:trigger MisledBy(z, clock, d, source, hs, q, i, j)} ::
      h < i || (h == i && m <= j) ==> !MisledBy(z, clock, d, source, hs, q, i, j)
  }

  lemma NoneLater(z: Codec, clock: Clock, d: Disk, source: string, hs: seq<int>, q: S.Query, h: nat, m: nat)
    requires Readable(z, d) && Pinned(d, source, hs)
    ensures h >= |hs| ==> NoneMisled(z, clock, d, source, hs, q, h, m)
    ensures h < |hs| && m >= |d.index[Key(source, hs[h])]| ==>
      (NoneMisled(z, clock, d, source, hs, q, h, m) <==> NoneMisled(z, clock, d, source, hs, q, h + 1, 0))
    ensures NoneMisled(z, clock, d, source, hs, q, h, m) <==>
      !MisledBy(z, clock, d, source, hs, q, h, m) && NoneMisled(z, clock, d, source, hs, q, h, m + 1)
  {
    hide Misled, Readable;
    if h < |hs| && m >= |d.index[Key(source, hs[h])]| {
      assert forall j: nat :: m <= j ==> !MisledBy(z, clock, d, source, hs, q, h, j);
    }
  }

  /** The members that are skipped hold no match exactly if none of them misleads the search. */
  lemma {:induction false} MissedNone(z: Codec, clock: Clock, d: Disk, source: string, hs: seq<int>, q: S.Query, h: nat, m: nat)
    requires Readable(z, d) && Ranged(z, clock, d) && Pinned(d, source, hs)
    requires h < |hs| ==> m <= |d.index[Key(source, hs[h])]|
    ensures Missed(q, HoursAt(z, d, source, hs), h, m) == 0 <==> NoneMisled(z, clock, d, source, hs, q, h, m)
    decreases |hs| - h, if h < |hs| then |d.index[Key(source, hs[h])]| - m else 0
  {
    hide Ranged, NoneMisled, Misled, Split, TextRanged, Matching, S.PartRows, MemberDecodes, S.CanSkip;
    NoneLater(z, clock, d, source, hs, q, h, m);
    if h < |hs| {
      var k := Key(source, hs[h]);
      var hour := HoursAt(z, d, source, hs)[h];
      if m == |d.index[k]| {
        MissedNone(z, clock, d, source, hs, q, h + 1, 0);
      } else {
        MissedNone(z, clock, d, source, hs, q, h, m + 1);
        HourIn(z, clock, d, k);
        assert MemberDecodes(z, d.data[k], d.index[k][m]) && MemberRanged(z, clock, source, d.data[k], d.index[k][m]);
        var p := PartFor(z, d.data[k], d.index[k][m]);
        assert hour.parts[m] == p;
        MissedExactly(q, clock, source, hs[h], p);
        PartLines(q, hs[h], p) by { RangedShort(clock, source, p.text, p.minTime, p.maxTime, p.unknown); }
      }
    }
  }

  lemma RangedShort(clock: Clock, source: string, text: Bytes, lo: int, hi: int, unknown: nat)
    requires TextRanged(clock, source, text, lo, hi, unknown)
    ensures AllShort(Split(text))
  {}

  /** Pages followed to the end, each of them checked against its own later archive, hold exactly the
      matching lines of the hours as they were when the search began, in order, if and only if no member
      that was skipped misled the search. */
  lemma ArchivePages(z: Codec, clock: Clock, d: Disk, source: string, hs: seq<int>, q: S.Query, pages: seq<S.PageData>)
    requires Valid(d) && Readable(z, d) && Ranged(z, clock, d) && Pinned(d, source, hs) && hs != []
    requires var hours := HoursAt(z, d, source, hs); var from := S.Spot(hours, 0, 0, 0, 0);
      S.Followed(q, hours, from, pages) && S.LastCursor(from, pages).None?
    ensures RawsOf(S.AllRows(pages)) == LinesFrom(z, d, source, hs, q, 0) <==> NoneMisled(z, clock, d, source, hs, q, 0, 0)
  {
    hide S.Followed, S.RowsFrom, S.SnapshotOk, S.AllRows, Valid, Readable, Ranged, S.Spot, S.RowsAfter, NoneMisled, Missed, LinesFrom;
    var hours := HoursAt(z, d, source, hs);
    SnapshotSound(z, clock, d, source, hs);
    S.FirstCursor(q, hours);
    S.PagesEqualFilter(q, hours, S.Spot(hours, 0, 0, 0, 0), pages);
    RowsAreLines(z, clock, d, source, hs, q, 0);
    MissedNone(z, clock, d, source, hs, q, 0, 0);
    assert |RawsOf(S.AllRows(pages))| == |S.AllRows(pages)|;
  }

  lemma {:induction false} InMatching(q: S.Query, lines: seq<Bytes>, j: nat)
    requires j < |lines| && S.Matches(q, lines[j])
    ensures lines[j] in Matching(q, lines)
  {
    if j > 0 {
      assert lines[1..][j - 1] == lines[j];
      InMatching(q, lines[1..], j - 1);
    }
  }

  lemma {:induction false} InLines(z: Codec, d: Disk, source: string, hs: seq<int>, q: S.Query, h: nat, i: nat, raw: Bytes)
    requires Readable(z, d) && Pinned(d, source, hs) && h <= i < |hs| && raw in Matching(q, Split(HourText(z, d, Key(source, hs[i]))))
    ensures raw in LinesFrom(z, d, source, hs, q, h)
    decreases i - h
  {
    hide Matching, Split, HourText;
    if h < i { InLines(z, d, source, hs, q, h + 1, i, raw); }
  }

  /** The line was dated in the window and has the text asked for; the time the search reads in it, if any, is in the
      window and not older than the source keeps. */
  predicate Wanted(q: S.Query, clock: Clock, source: string, raw: Bytes) {
    && |raw| <= MAX_LINE && q.hit(raw) && clock(source, raw).Some? && q.start <= clock(source, raw).value < q.end
    && (q.timeOf(raw).Some? ==> q.cutoff <= q.timeOf(raw).value && q.start <= q.timeOf(raw).value && q.timeOf(raw).value < q.end)
  }

  /** So every line of the source that was dated in the window and matches is on one of the pages. */
  lemma NothingOverlooked(z: Codec, clock: Clock, d: Disk, source: string, hs: seq<int>, q: S.Query, pages: seq<S.PageData>, hour: int, j: nat)
    requires Valid(d) && Readable(z, d) && Ranged(z, clock, d) && Chosen(d, source, q, hs)
    requires var hours := HoursAt(z, d, source, hs); var from := S.Spot(hours, 0, 0, 0, 0);
      S.Followed(q, hours, from, pages) && S.LastCursor(from, pages).None?
    requires NoneMisled(z, clock, d, source, hs, q, 0, 0)
    requires HourEntry(d, Key(source, hour)).Some? && j < |Split(HourText(z, d, Key(source, hour)))|
    requires Wanted(q, clock, source, Split(HourText(z, d, Key(source, hour)))[j])
    ensures Split(HourText(z, d, Key(source, hour)))[j] in RawsOf(S.AllRows(pages))
  {
    hide Ranged, Valid, HoursAt, S.Spot, S.Followed, S.LastCursor, S.AllRows, NoneMisled, Matching, LinesFrom, Split;
    WindowCovered(z, clock, d, source, q, hs, hour, j);
    ArchivePages(z, clock, d, source, hs, q, pages);
    var i :| 0 <= i < |hs| && hs[i] == hour;
    InMatching(q, Split(HourText(z, d, Key(source, hour))), j);
    InLines(z, d, source, hs, q, 0, i, Split(HourText(z, d, Key(source, hour)))[j]);
  }
}
