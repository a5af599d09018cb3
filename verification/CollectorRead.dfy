/** Following one log file: what a generation reports is a function of the bytes it has consumed. */
module CollectorRead {
  import opened Options
  import opened ArchiveTypes
  import opened ArchiveStaging

  const MAX_LINE := 1048576
  const PRINT := 256
  const TOO_LONG := "line-too-long"
  const BAD_TIME := "unparseable-record-time"

  /** What a line's text says about its time: the parsed time, and whether it could be parsed. */
  datatype Parser = Parser(time: Bytes -> Option<int>, valid: Bytes -> bool)

  // ---------- the reference: one split of the text at LF ----------

  /** What follows the last LF. */
  function Partial(text: Bytes): Bytes
    decreases |text|
  {
    var n := FindLF(text);
    if n == |text| then text else Partial(text[n + 1..])
  }

  predicate TooLong(line: Bytes) { |line| > MAX_LINE }

  /** The lines within the limit whose time could not be parsed. */
  function Untimed(z: Parser): Bytes -> bool { line => |line| <= MAX_LINE && !z.valid(line) }

  function Kept(lines: seq<Bytes>): seq<Bytes> {
    if lines == [] then [] else if TooLong(lines[0]) then Kept(lines[1..]) else [lines[0]] + Kept(lines[1..])
  }

  datatype Range = Range(from: int, to: int)

  /** Where the picked lines lie, when the first line starts at `at`. */
  function Report(lines: seq<Bytes>, at: nat, pick: Bytes -> bool): seq<Range>
    decreases lines
  {
    if lines == [] then []
    else if pick(lines[0]) then [Range(at, at + |lines[0]|)] + Report(lines[1..], at + |lines[0]|, pick)
    else Report(lines[1..], at + |lines[0]|, pick)
  }

  predicate Open(piece: Bytes) { forall i :: 0 <= i < |piece| ==> piece[i] != LF }

  lemma {:induction false} FirstIs(text: Bytes, n: nat)
    requires n <= |text| && (n < |text| ==> text[n] == LF) && forall i :: 0 <= i < n ==> text[i] != LF
    ensures FindLF(text) == n
  {}

  lemma FindInConcat(a: Bytes, b: Bytes)
    ensures FindLF(a + b) == if FindLF(a) < |a| then FindLF(a) else |a| + FindLF(b)
  {
    var n := if FindLF(a) < |a| then FindLF(a) else |a| + FindLF(b);
    assert n < |a + b| ==> (a + b)[n] == LF;
    forall i | 0 <= i < n ensures (a + b)[i] != LF {
      if i >= |a| { assert (a + b)[i] == b[i - |a|]; }
    }
    FirstIs(a + b, n);
  }

  lemma Assoc(a: Bytes, b: Bytes, c: Bytes)
    ensures (a + b) + c == a + (b + c)
  {}

  lemma SplitStep(text: Bytes, line: Bytes, rest: Bytes)
    requires text == line + rest && line != [] && FindLF(text) == |line| - 1
    ensures Split(text) == [line] + Split(rest) && Partial(text) == Partial(rest)
  {
    assert text[..|line|] == line && text[|line|..] == rest;
  }

  lemma {:induction false} SplitAll(text: Bytes)
    ensures |Flatten(Split(text))| + |Partial(text)| == |text|
    ensures Flatten(Split(text)) + Partial(text) == text
    decreases |text|
  {
    var n := FindLF(text);
    if n < |text| {
      var line, rest := text[..n + 1], text[n + 1..];
      assert text == line + rest;
      SplitStep(text, line, rest);
      SplitAll(rest);
      FlattenCons(line, Split(rest), Partial(rest));
    }
  }

  lemma FlattenCons(line: Bytes, lines: seq<Bytes>, partial: Bytes)
    ensures Flatten([line] + lines) + partial == line + (Flatten(lines) + partial)
  {
    assert ([line] + lines)[1..] == lines;
  }

  /** Text without an LF only lengthens the unfinished line. */
  lemma {:induction false} AppendOpen(text: Bytes, piece: Bytes)
    requires FindLF(piece) == |piece|
    ensures Split(text + piece) == Split(text) && Partial(text + piece) == Partial(text) + piece
    decreases |text|
  {
    FindInConcat(text, piece);
    var n := FindLF(text);
    if n < |text| {
      var line, rest := text[..n + 1], text[n + 1..];
      assert text == line + rest;
      Assoc(line, rest, piece);
      SplitStep(text, line, rest);
      SplitStep(text + piece, line, rest + piece);
      AppendOpen(rest, piece);
      assert Split(text + piece) == [line] + Split(rest) == Split(text);
    } else {
      assert Split(text) == [] && Split(text + piece) == [];
    }
  }

  /** Text whose only LF is its last byte completes it. */
  lemma {:induction false} AppendClose(text: Bytes, piece: Bytes)
    requires piece != [] && FindLF(piece) == |piece| - 1
    ensures Split(text + piece) == Split(text) + [Partial(text) + piece] && Partial(text + piece) == []
    decreases |text|
  {
    FindInConcat(text, piece);
    var n, all := FindLF(text), text + piece;
    if n < |text| {
      var line, rest := text[..n + 1], text[n + 1..];
      assert text == line + rest;
      Assoc(line, rest, piece);
      SplitStep(text, line, rest);
      SplitStep(all, line, rest + piece);
      AppendClose(rest, piece);
      assert [line] + (Split(rest) + [Partial(rest) + piece]) == ([line] + Split(rest)) + [Partial(rest) + piece];
    } else {
      assert all == all + [];
      SplitStep(all, all, []);
    }
  }

  lemma {:induction false} KeptConcat(a: seq<Bytes>, b: seq<Bytes>)
    ensures Kept(a + b) == Kept(a) + Kept(b)
  {
    if a == [] {
      assert a + b == b;
    } else {
      assert (a + b)[1..] == a[1..] + b;
      KeptConcat(a[1..], b);
    }
  }

  lemma {:induction false} ReportConcat(a: seq<Bytes>, b: seq<Bytes>, at: nat, pick: Bytes -> bool)
    ensures Report(a + b, at, pick) == Report(a, at, pick) + Report(b, at + |Flatten(a)|, pick)
    decreases a
  {
    if a == [] {
      assert a + b == b;
    } else {
      assert (a + b)[1..] == a[1..] + b && (a + b)[0] == a[0];
      assert |Flatten(a)| == |a[0]| + |Flatten(a[1..])|;
      ReportConcat(a[1..], b, at + |a[0]|, pick);
    }
  }

  lemma {:induction false} ReportBelow(lines: seq<Bytes>, at: nat, pick: Bytes -> bool)
    requires forall l :: pick(l) ==> l != []
    ensures forall r :: r in Report(lines, at, pick) ==> r.from < at + |Flatten(lines)|
    decreases lines
  {
    if lines != [] { ReportBelow(lines[1..], at + |lines[0]|, pick); }
  }

  lemma ReportSnoc(lines: seq<Bytes>, line: Bytes, pick: Bytes -> bool)
    ensures Report(lines + [line], 0, pick)
         == Report(lines, 0, pick) + if pick(line) then [Range(|Flatten(lines)|, |Flatten(lines)| + |line|)] else []
  {
    ReportConcat(lines, [line], 0, pick);
    assert Report([line][1..], |Flatten(lines)| + |line|, pick) == [];
  }

  // ---------- recorded gaps ----------

  /** The ranges recorded under one reason. */
  function Ranges(gaps: seq<Gap>, reason: string): seq<Range> {
    if gaps == [] then []
    else if gaps[0].reason == reason && gaps[0].to.Some? then [Range(gaps[0].from, gaps[0].to.value)] + Ranges(gaps[1..], reason)
    else Ranges(gaps[1..], reason)
  }

  /** gap(): a fault that is already recorded is not recorded again. */
  function AddGap(gaps: seq<Gap>, g: Gap): seq<Gap> { if g in gaps then gaps else gaps + [g] }

  /** The range of an oversized line grows while more of it is dropped. */
  function GrowGap(gaps: seq<Gap>, from: nat, to: nat): seq<Gap> {
    if gaps == [] then [Gap(TOO_LONG, from, Some(to))]
    else if gaps[0].reason == TOO_LONG && gaps[0].from == from then [gaps[0].(to := Some(to))] + gaps[1..]
    else [gaps[0]] + GrowGap(gaps[1..], from, to)
  }

  /** Every dropped range has an end. */
  predicate Ended(gaps: seq<Gap>) {
    gaps == [] || ((gaps[0].reason == TOO_LONG ==> gaps[0].to.Some?) && Ended(gaps[1..]))
  }

  lemma {:induction false} EndedSnoc(gaps: seq<Gap>, g: Gap)
    requires Ended(gaps) && g.to.Some?
    ensures Ended(gaps + [g])
  {
    if gaps != [] {
      assert (gaps + [g])[1..] == gaps[1..] + [g];
      EndedSnoc(gaps[1..], g);
    }
  }

  lemma {:induction false} RangesConcat(a: seq<Gap>, b: seq<Gap>, reason: string)
    ensures Ranges(a + b, reason) == Ranges(a, reason) + Ranges(b, reason)
  {
    if a == [] {
      assert a + b == b;
    } else {
      assert (a + b)[1..] == a[1..] + b;
      RangesConcat(a[1..], b, reason);
    }
  }

  lemma {:induction false} RangesHas(gaps: seq<Gap>, g: Gap)
    requires g in gaps && g.to.Some?
    ensures Range(g.from, g.to.value) in Ranges(gaps, g.reason)
  {
    if gaps[0] != g { RangesHas(gaps[1..], g); }
  }

  lemma AddGapRange(gaps: seq<Gap>, g: Gap, reason: string)
    requires g.to.Some? && Range(g.from, g.to.value) !in Ranges(gaps, g.reason) && Ended(gaps)
    ensures Ranges(AddGap(gaps, g), reason) == Ranges(gaps, reason) + (if reason == g.reason then [Range(g.from, g.to.value)] else [])
    ensures Ended(AddGap(gaps, g))
  {
    if g in gaps { RangesHas(gaps, g); }
    EndedSnoc(gaps, g);
    RangesConcat(gaps, [g], reason);
    assert Ranges([g][1..], reason) == [];
  }

  function GrowRange(rs: seq<Range>, from: nat, to: nat): seq<Range> {
    if rs == [] then [Range(from, to)]
    else if rs[0].from == from then [Range(from, to)] + rs[1..]
    else [rs[0]] + GrowRange(rs[1..], from, to)
  }

  lemma RangesCons(g: Gap, rest: seq<Gap>, reason: string)
    ensures Ranges([g] + rest, reason)
         == if g.reason == reason && g.to.Some? then [Range(g.from, g.to.value)] + Ranges(rest, reason) else Ranges(rest, reason)
  {
    assert ([g] + rest)[1..] == rest;
  }

  lemma {:induction false} GrowGapRange(gaps: seq<Gap>, from: nat, to: nat)
    requires Ended(gaps)
    ensures Ranges(GrowGap(gaps, from, to), TOO_LONG) == GrowRange(Ranges(gaps, TOO_LONG), from, to)
    ensures Ranges(GrowGap(gaps, from, to), BAD_TIME) == Ranges(gaps, BAD_TIME)
    ensures Ended(GrowGap(gaps, from, to))
  {
    if gaps != [] {
      var g, rest := gaps[0], gaps[1..];
      assert gaps == [g] + rest;
      RangesCons(g, rest, TOO_LONG);
      RangesCons(g, rest, BAD_TIME);
      if g.reason == TOO_LONG && g.from == from {
        RangesCons(g.(to := Some(to)), rest, TOO_LONG);
        RangesCons(g.(to := Some(to)), rest, BAD_TIME);
        assert ([g.(to := Some(to))] + rest)[1..] == rest;
      } else {
        GrowGapRange(rest, from, to);
        RangesCons(g, GrowGap(rest, from, to), TOO_LONG);
        RangesCons(g, GrowGap(rest, from, to), BAD_TIME);
        assert ([g] + GrowGap(rest, from, to))[1..] == GrowGap(rest, from, to);
        if g.reason == TOO_LONG {
          var r := Range(g.from, g.to.value);
          assert ([r] + Ranges(rest, TOO_LONG))[1..] == Ranges(rest, TOO_LONG);
        }
      }
    }
  }

  /** Growing the range that starts at `from` appends it, or stretches the last one. */
  lemma {:induction false} GrowLast(before: seq<Range>, last: seq<Range>, from: nat, to: nat)
    requires (forall r :: r in before ==> r.from != from) && (last == [] || (|last| == 1 && last[0].from == from))
    ensures GrowRange(before + last, from, to) == before + [Range(from, to)]
    decreases before
  {
    if before == [] {
      assert before + last == last;
    } else {
      assert (before + last)[1..] == before[1..] + last;
      GrowLast(before[1..], last, from, to);
    }
  }

  // ---------- what a checkpoint must say ----------

  function Unfinished(at: nat, partial: Bytes): seq<Range> {
    if partial == [] then [] else [Range(at, at + |partial|)]
  }

  /** The checkpoint of a text with these complete lines and this unfinished one: the dropped ranges
      are the oversized lines, the untimed ranges the lines whose time could not be parsed, and an
      unfinished line is consumed only when it is oversized already. */
  predicate Accounts(z: Parser, lines: seq<Bytes>, partial: Bytes, gaps: seq<Gap>, long: Option<nat>) {
    && Ended(gaps)
    && Ranges(gaps, TOO_LONG) == Report(lines, 0, TooLong) + Unfinished(|Flatten(lines)|, partial)
    && Ranges(gaps, BAD_TIME) == Report(lines, 0, Untimed(z))
    && long == (if partial == [] then None else Some(|Flatten(lines)|))
    && (partial != [] ==> TooLong(partial))
  }

  function GapsAfter(z: Parser, gaps: seq<Gap>, at: nat, raw: Bytes): seq<Gap> {
    if z.valid(raw) then gaps else AddGap(gaps, Gap(BAD_TIME, at, Some(at + |raw|)))
  }

  lemma {:induction false} ReportUpTo(lines: seq<Bytes>, at: nat, pick: Bytes -> bool)
    ensures forall r :: r in Report(lines, at, pick) ==> r.to <= at + |Flatten(lines)|
    decreases lines
  {
    if lines != [] { ReportUpTo(lines[1..], at + |lines[0]|, pick); }
  }

  /** A complete line within the limit. */
  lemma StepLine(z: Parser, lines: seq<Bytes>, raw: Bytes, gaps: seq<Gap>)
    requires Accounts(z, lines, [], gaps, None) && 0 < |raw| <= MAX_LINE
    ensures Accounts(z, lines + [raw], [], GapsAfter(z, gaps, |Flatten(lines)|, raw), None)
    ensures Kept(lines + [raw]) == Kept(lines) + [raw]
  {
    hide Report, Ranges, AddGap, Ended;
    var at := |Flatten(lines)|;
    KeptConcat(lines, [raw]);
    assert Kept([raw][1..]) == [];
    ReportSnoc(lines, raw, TooLong);
    ReportSnoc(lines, raw, Untimed(z));
    ReportUpTo(lines, 0, Untimed(z));
    if !z.valid(raw) {
      var g := Gap(BAD_TIME, at, Some(at + |raw|));
      AddGapRange(gaps, g, BAD_TIME);
      AddGapRange(gaps, g, TOO_LONG);
    }
  }

  /** The range an oversized piece leaves behind. */
  lemma LongGrows(z: Parser, lines: seq<Bytes>, partial: Bytes, gaps: seq<Gap>, long: Option<nat>, to: nat)
    requires Accounts(z, lines, partial, gaps, long)
    ensures var grown := GrowGap(gaps, |Flatten(lines)|, to);
      && Ended(grown) && Ranges(grown, TOO_LONG) == Report(lines, 0, TooLong) + [Range(|Flatten(lines)|, to)]
      && Ranges(grown, BAD_TIME) == Ranges(gaps, BAD_TIME)
  {
    var at := |Flatten(lines)|;
    ReportBelow(lines, 0, TooLong);
    GrowGapRange(gaps, at, to);
    GrowLast(Report(lines, 0, TooLong), Unfinished(at, partial), at, to);
  }

  /** More of an oversized line. */
  lemma StepOpen(z: Parser, lines: seq<Bytes>, partial: Bytes, more: Bytes, gaps: seq<Gap>, long: Option<nat>)
    requires Accounts(z, lines, partial, gaps, long) && TooLong(more)
    ensures Accounts(z, lines, more, GrowGap(gaps, |Flatten(lines)|, |Flatten(lines)| + |more|), Some(|Flatten(lines)|))
  {
    LongGrows(z, lines, partial, gaps, long, |Flatten(lines)| + |more|);
  }

  /** The rest of an oversized line. */
  lemma StepClose(z: Parser, lines: seq<Bytes>, partial: Bytes, line: Bytes, gaps: seq<Gap>, long: Option<nat>)
    requires Accounts(z, lines, partial, gaps, long) && TooLong(line)
    ensures Accounts(z, lines + [line], [], GrowGap(gaps, |Flatten(lines)|, |Flatten(lines)| + |line|), None)
    ensures Kept(lines + [line]) == Kept(lines)
  {
    LongGrows(z, lines, partial, gaps, long, |Flatten(lines)| + |line|);
    LongReported(z, lines, line);
  }

  lemma LongReported(z: Parser, lines: seq<Bytes>, line: Bytes)
    requires TooLong(line)
    ensures Report(lines + [line], 0, Untimed(z)) == Report(lines, 0, Untimed(z))
    ensures Report(lines + [line], 0, TooLong) + [] == Report(lines, 0, TooLong) + [Range(|Flatten(lines)|, |Flatten(lines)| + |line|)]
    ensures Kept(lines + [line]) == Kept(lines)
  {
    ReportSnoc(lines, line, Untimed(z));
    ReportSnoc(lines, line, TooLong);
    KeptConcat(lines, [line]);
    assert Kept([line][1..]) == [];
  }
}
