/** Paged search over a frozen snapshot.  Members are taken as their decoded text; chunk
    boundaries, deadlines and response sizes are whatever they turn out to be. */
module ArchiveSearch {
  import opened Options
  import opened ArchiveTypes

  const MAX_LINE := 1048576

  /** A member as its index describes it, and what it decodes to. */
  datatype Part = Part(start: nat, lineCount: nat, bytes: nat, minTime: int, maxTime: int, unknown: nat, text: Bytes)

  datatype Hour = Hour(hour: int, parts: seq<Part>)

  /** `timeOf` and `hit` are the projection of a line: its own time if it shows one, and whether
      its text matches; a line over the limit is shown as a fixed placeholder. */
  datatype Query = Query(start: int, end: int, cutoff: int, limit: nat,
                         timeOf: Bytes -> Option<int>, hit: Bytes -> bool, hitLong: bool)

  datatype Position = Position(hour: int, memberStart: nat, line: nat, byte: nat)

  /** A result line; its id is the first three fields, `raw` is empty for a placeholder. */
  datatype Row = Row(hour: int, memberStart: nat, line: nat, raw: Bytes)

  datatype Reason = NoReason | Limit | ResponseBytes | ScanBytes | Timeout

  datatype Result =
    | Page(rows: seq<Row>, next: Option<Position>, reason: Reason, scanned: nat)
    | Invalid | CannotAdvance | Corrupt | Cancelled | Expired

  /** What may end a page before its time: the bytes it may scan, whether its deadline can pass while it is made, whether
      it can be called off, and whether an answer of these rows, this cursor and this many scanned bytes is small enough. */
  datatype Limits = Limits(budget: nat, timed: bool, calls: bool, fits: (seq<Row>, Option<Position>, nat) -> bool)

  // ---------- snapshots ----------

  predicate InWindow(q: Query, t: int) { q.cutoff <= t && q.start <= t < q.end }

  predicate Matches(q: Query, raw: Bytes) {
    if |raw| > MAX_LINE then q.hitLong
    else (q.timeOf(raw).None? || InWindow(q, q.timeOf(raw).value)) && q.hit(raw)
  }

  /** The part is what its index describes: whole lines, counted and measured right. */
  predicate PartOk(p: Part) {
    p.text == Flatten(Split(p.text)) && p.lineCount == |Split(p.text)| > 0 && p.bytes == |p.text|
  }

  predicate HourOk(h: Hour) {
    && h.parts != []
    && (forall i {:trigger PartOk(h.parts[i])} :: 0 <= i < |h.parts| ==> PartOk(h.parts[i]))
    && h.parts[0].start == 0 && forall i, j :: 0 <= i < j < |h.parts| ==> h.parts[i].start < h.parts[j].start
  }

  predicate SnapshotOk(hours: seq<Hour>) {
    && (forall i {:trigger HourOk(hours[i])} :: 0 <= i < |hours| ==> HourOk(hours[i]))
    && forall i, j :: 0 <= i < j < |hours| ==> hours[i].hour < hours[j].hour
  }

  // ---------- the direct filter ----------

  function LineRows(q: Query, hour: int, start: nat, line: nat, raw: Bytes): seq<Row> {
    if Matches(q, raw) then [Row(hour, start, line, if |raw| > MAX_LINE then [] else raw)] else []
  }

  /** The matching lines of one member, from line `l` on. */
  function PartRows(q: Query, hour: int, start: nat, lines: seq<Bytes>, l: nat): seq<Row>
    decreases |lines| - l
  {
    if l >= |lines| then [] else LineRows(q, hour, start, l, lines[l]) + PartRows(q, hour, start, lines, l + 1)
  }

  /** A member is not read if all its lines are dated and its time range misses the window. */
  predicate Outside(q: Query, unknown: nat, lo: int, hi: int) { unknown == 0 && (hi < q.start || lo >= q.end) }

  predicate CanSkip(q: Query, p: Part) { Outside(q, p.unknown, p.minTime, p.maxTime) }

  /** The matching lines from line `l` on of a member that is read. */
  function PartDue(q: Query, hour: int, p: Part, l: nat): seq<Row> {
    if CanSkip(q, p) then [] else PartRows(q, hour, p.start, Split(p.text), l)
  }

  /** The matching lines, in order, of the members that are read, from line `l` of member `m` of hour `h` on. */
  function RowsFrom(q: Query, hours: seq<Hour>, h: nat, m: nat, l: nat): seq<Row>
    decreases |hours| - h, if h < |hours| then |hours[h].parts| - m else 0
  {
    if h >= |hours| then []
    else if m >= |hours[h].parts| then RowsFrom(q, hours, h + 1, 0, 0)
    else
      var p := hours[h].parts[m];
      PartDue(q, hours[h].hour, p, l) + RowsFrom(q, hours, h, m + 1, 0)
  }

  function FindHour(hours: seq<Hour>, hour: int): (h: nat)
    ensures h <= |hours| && (h < |hours| ==> hours[h].hour == hour) && forall i :: 0 <= i < h ==> hours[i].hour != hour
  {
    if hours == [] || hours[0].hour == hour then 0 else 1 + FindHour(hours[1..], hour)
  }

  function FindPart(parts: seq<Part>, start: nat): (m: nat)
    ensures m <= |parts| && (m < |parts| ==> parts[m].start == start) && forall i :: 0 <= i < m ==> parts[i].start != start
  {
    if parts == [] || parts[0].start == start then 0 else 1 + FindPart(parts[1..], start)
  }

  /** The cursor names a member of the snapshot and a line of it. */
  predicate Placed(hours: seq<Hour>, p: Position) {
    var h := FindHour(hours, p.hour);
    h < |hours| && var m := FindPart(hours[h].parts, p.memberStart);
    m < |hours[h].parts| && p.line < |Split(hours[h].parts[m].text)| && p.byte < |Split(hours[h].parts[m].text)[p.line]|
  }

  /** What is still to be delivered at a cursor. */
  function RowsAfter(q: Query, hours: seq<Hour>, p: Option<Position>): seq<Row> {
    if p.None? then []
    else
      var h := FindHour(hours, p.value.hour);
      if h == |hours| then [] else RowsFrom(q, hours, h, FindPart(hours[h].parts, p.value.memberStart), p.value.line)
  }

  /** Strictly later in (hour, member, line, byte). */
  predicate Advances(p: Position, prev: Position) {
    if p.hour != prev.hour then p.hour > prev.hour
    else if p.memberStart != prev.memberStart then p.memberStart > prev.memberStart
    else if p.line != prev.line then p.line > prev.line
    else p.byte > prev.byte
  }

  // ---------- positions of lines in a member ----------

  function Off(lines: seq<Bytes>, l: nat): nat
    requires l <= |lines|
  {
    if l == 0 then 0 else Off(lines, l - 1) + |lines[l - 1]|
  }

  lemma {:induction false} OffText(lines: seq<Bytes>, l: nat)
    requires l <= |lines|
    ensures Off(lines, l) == |Flatten(lines[..l])| && Flatten(lines) == Flatten(lines[..l]) + Flatten(lines[l..])
  {
    FlattenConcat(lines[..l], lines[l..]);
    assert lines == lines[..l] + lines[l..];
    if l > 0 {
      OffText(lines, l - 1);
      assert lines[..l] == lines[..l - 1] + [lines[l - 1]];
      FlattenConcat(lines[..l - 1], [lines[l - 1]]);
    }
  }

  /** Where line `l` lies in the text, and that its LF is the next one after its start. */
  lemma LineAt(lines: seq<Bytes>, l: nat)
    requires l < |lines| && forall i :: 0 <= i < |lines| ==> IsLine(lines[i])
    ensures Off(lines, l + 1) == Off(lines, l) + |lines[l]| <= |Flatten(lines)|
    ensures Flatten(lines)[Off(lines, l)..Off(lines, l) + |lines[l]|] == lines[l]
    ensures forall i :: 0 <= i < |lines[l]| ==> Flatten(lines)[Off(lines, l) + i] == lines[l][i]
  {
    OffText(lines, l);
    OffText(lines, l + 1);
    var text, rest := Flatten(lines), Flatten(lines[l..]);
    assert rest == lines[l] + Flatten(lines[l..][1..]);
    assert text[Off(lines, l)..] == rest;
    assert text[Off(lines, l)..Off(lines, l) + |lines[l]|] == rest[..|lines[l]|];
  }

  lemma {:induction false} SplitAreLines(text: Bytes)
    ensures forall i {:trigger IsLine(Split(text)[i])} :: 0 <= i < |Split(text)| ==> IsLine(Split(text)[i])
    decreases |text|
  {
    var n := FindLF(text);
    if n < |text| {
      SplitAreLines(text[n + 1..]);
      assert IsLine(text[..n + 1]);
    }
  }

  predicate Timed(q: Query, raw: Bytes, lo: int, hi: int) {
    |raw| <= MAX_LINE && q.timeOf(raw).Some? && lo <= q.timeOf(raw).value <= hi
  }

  /** Every line is short and shows a time in the member's range. */
  predicate AllTimed(q: Query, p: Part) {
    forall i {:trigger Split(p.text)[i]} :: 0 <= i < |Split(p.text)| ==> Timed(q, Split(p.text)[i], p.minTime, p.maxTime)
  }

  /** A member skipped by its time range holds no matching line if its lines show times in that range. */
  lemma {:induction false} SkipIsSound(q: Query, hour: int, p: Part, l: nat)
    requires AllTimed(q, p) && CanSkip(q, p)
    ensures PartRows(q, hour, p.start, Split(p.text), l) == []
    decreases |Split(p.text)| - l
  {
    if l < |Split(p.text)| {
      assert Timed(q, Split(p.text)[l], p.minTime, p.maxTime);
      SkipIsSound(q, hour, p, l + 1);
    }
  }

  // ---------- reading one member ----------

  datatype Control = Through | Stopped | Failed(error: Result)

  function From(l: nat, resume: nat): nat { if l < resume then resume else l }

  /** The variables of the chunk loop: what has been found, and the scan after `c` bytes, which
      are `ln` whole lines and `lb` bytes of the next. */
  datatype Scan = Scan(rows: seq<Row>, pos: Option<Position>, scanned: nat, progressed: bool, reason: Reason,
                       ln: nat, lb: nat, c: nat, line: Bytes, stopped: bool)

  /** The member being read, where it was resumed, and what there was before it. */
  datatype Task = Task(hour: int, start: nat, text: Bytes, lines: seq<Bytes>, resume: nat, resumeByte: nat,
                       rows0: seq<Row>, next: Option<Position>, limits: Limits, scanned: nat)

  /** `rows` and the lines from `l` on are what was to be delivered from the resume line on. */
  predicate Owed(q: Query, t: Task, rows: seq<Row>, l: nat) {
    rows + PartRows(q, t.hour, t.start, t.lines, l) == t.rows0 + PartRows(q, t.hour, t.start, t.lines, t.resume)
  }

  /** A cursor inside the member at which the rest is still owed. */
  predicate Inside(q: Query, t: Task, rows: seq<Row>, pos: Option<Position>) {
    && pos.Some? && pos.value.hour == t.hour && pos.value.memberStart == t.start
    && pos.value.line < |t.lines| && (pos.value.byte < |t.lines[pos.value.line]| || pos == Resumed(t)) && Owed(q, t, rows, pos.value.line)
  }

  lemma NextLine(q: Query, t: Task, rows: seq<Row>, l: nat)
    requires l < |t.lines| && Owed(q, t, rows, l)
    ensures Owed(q, t, rows + LineRows(q, t.hour, t.start, l, t.lines[l]), l + 1)
  {
    var found, rest := LineRows(q, t.hour, t.start, l, t.lines[l]), PartRows(q, t.hour, t.start, t.lines, l + 1);
    assert rows + (found + rest) == rows + found + rest;
  }

  /** The text, line by line. */
  predicate Laid(text: Bytes, lines: seq<Bytes>) {
    text == Flatten(lines) && forall i {:trigger IsLine(lines[i])} :: 0 <= i < |lines| ==> IsLine(lines[i])
  }

  predicate TaskOk(q: Query, t: Task) {
    Laid(t.text, t.lines) && t.resume < |t.lines| && |t.rows0| < q.limit
  }

  function Resumed(t: Task): Option<Position> { Some(Position(t.hour, t.start, t.resume, t.resumeByte)) }

  predicate At(lines: seq<Bytes>, s: Scan) {
    s.ln <= |lines| && (if s.ln < |lines| then s.lb < |lines[s.ln]| else s.lb == 0) && s.c == Off(lines, s.ln) + s.lb
  }

  predicate Scanning(q: Query, t: Task, s: Scan) {
    && At(t.lines, s) && Owed(q, t, s.rows, From(s.ln, t.resume))
    && (t.resume <= s.ln < |t.lines| && s.lb <= MAX_LINE ==> s.line == t.lines[s.ln][..s.lb])
    && (if s.ln == |t.lines| then s.pos == t.next else Inside(q, t, s.rows, s.pos) && |s.rows| < q.limit)
    && (s.ln < t.resume ==> s.pos == Resumed(t))
  }

  predicate Bounded(q: Query, t: Task, s: Scan) {
    |t.rows0| <= |s.rows| <= q.limit && s.scanned <= t.limits.budget && s.scanned <= t.scanned + |t.text|
  }

  /** The limit that is given as the reason was reached: there are as many rows as were asked for, the last byte that
      may be scanned was, the time is up, or the row that comes next does not fit into the answer. */
  ghost predicate Reached(q: Query, t: Task, s: Scan) {
    match s.reason
    case NoReason => false
    case Limit => |s.rows| == q.limit
    case ScanBytes => s.scanned == t.limits.budget
    case Timeout => t.limits.timed
    case ResponseBytes => s.pos.Some? && s.pos.value == Position(t.hour, t.start, s.pos.value.line, 0) && Overfull(q, t, s.rows, s.pos.value.line)
  }

  /** The line matches, and its row would make the answer too large. */
  ghost predicate Overfull(q: Query, t: Task, rows: seq<Row>, l: nat) {
    l < |t.lines| && var found := LineRows(q, t.hour, t.start, l, t.lines[l]);
    found != [] && exists p, n :: !t.limits.fits(rows + found, p, n)
  }

  /** The cursor is not beyond where the member was resumed. */
  predicate Behind(t: Task, pos: Option<Position>) {
    pos.Some? && pos.value.hour == t.hour && pos.value.memberStart == t.start && pos.value.line == t.resume && pos.value.byte <= t.resumeByte
  }

  /** The member was resumed within a line. */
  predicate Fitting(t: Task) { t.resume < |t.lines| && t.resumeByte < |t.lines[t.resume]| }

  /** Without progress the cursor has not moved, and what was read of the resume line and more is progress. */
  predicate Moving(t: Task, s: Scan) {
    t.resume < |t.lines| && (Fitting(t) ==> (s.progressed || Behind(t, s.pos)) && (s.ln > t.resume ==> s.progressed))
  }

  ghost predicate ScanOk(q: Query, t: Task, s: Scan) {
    Bounded(q, t, s) && Moving(t, s) &&
    if s.stopped then Reached(q, t, s) && Inside(q, t, s.rows, s.pos) else Scanning(q, t, s) && s.reason == NoReason && s.scanned == t.scanned + s.c
  }

  /** A page may end here. */
  ghost predicate Ended(q: Query, t: Task, s: Scan) {
    && Bounded(q, t, s) && Reached(q, t, s) && (Fitting(t) ==> s.progressed || Behind(t, s.pos))
    && (Inside(q, t, s.rows, s.pos)
        || (s.pos == t.next && Owed(q, t, s.rows, |t.lines|)))
  }

  /** A deadline or an exhausted budget: rows of the unfinished member are taken back. */
  function GiveUp(t: Task, s: Scan, reason: Reason): Scan {
    (if |s.rows| > |t.rows0| then s.(rows := t.rows0, pos := Resumed(t)) else s).(reason := reason)
  }

  lemma GiveUpEnds(q: Query, t: Task, s: Scan, reason: Reason)
    requires TaskOk(q, t) && ScanOk(q, t, s)
    requires (reason == ScanBytes && s.scanned == t.limits.budget) || (reason == Timeout && t.limits.timed)
    ensures Ended(q, t, GiveUp(t, s, reason)) && Ended(q, t, s.(rows := t.rows0, pos := Resumed(t), reason := reason))
  {}

  /** How many bytes the next piece takes: up to the LF, the end of the chunk or of the budget. */
  function PieceLength(text: Bytes, c: nat, end: nat, left: nat): nat
    requires c < end <= |text|
  {
    var lf := c + FindLF(text[c..end]);
    var to := if lf < end then lf + 1 else end;
    if to - c <= left then to - c else left
  }

  lemma PieceFacts(text: Bytes, lines: seq<Bytes>, ln: nat, lb: nat, c: nat, end: nat, left: nat)
    requires Laid(text, lines) && ln <= |lines| && (if ln < |lines| then lb < |lines[ln]| else lb == 0)
    requires c == Off(lines, ln) + lb && c < end <= |text| && left > 0
    ensures var n := PieceLength(text, c, end, left);
      ln < |lines| && 0 < n <= left && c + n <= end && lb + n <= |lines[ln]|
      && lines[ln][..lb] + text[c..c + n] == lines[ln][..lb + n]
      && (lb + n == |lines[ln]| <==> text[c + n - 1] == LF)
  {
    AllRead(lines, ln, lb);
    Ahead(text, lines, ln, lb, c);
    PieceInLine(text, lines[ln], lb, c, end, left);
  }

  /** The piece of a line that this chunk and the scan budget allow. */
  method TakePiece(q: Query, t: Task, s0: Scan, end: nat) returns (s: Scan, ended: bool)
    requires TaskOk(q, t) && ScanOk(q, t, s0) && !s0.stopped && s0.c < end <= |t.text| && s0.scanned < t.limits.budget
    ensures if ended then Ended(q, t, s) else ScanOk(q, t, s) && s0.c < s.c <= end && s.scanned == t.scanned + s.c
    ensures s0.scanned <= s.scanned && (s0.progressed ==> s.progressed)
  {
    var n := PieceLength(t.text, s0.c, end, t.limits.budget - s0.scanned);
    var piece := t.text[s0.c..s0.c + n];
    NextPiece(t, s0, end);
    TakenKeeps(q, t, s0, piece);
    s := Taken(t, s0, piece);
    if piece[|piece| - 1] == LF {
      s, ended := FinishLine(q, t, s);
    } else {
      ended := false;
    }
  }

  lemma NextPiece(t: Task, s: Scan, end: nat)
    requires Laid(t.text, t.lines) && At(t.lines, s) && s.c < end <= |t.text| && s.scanned < t.limits.budget
    ensures var n := PieceLength(t.text, s.c, end, t.limits.budget - s.scanned);
      0 < n <= t.limits.budget - s.scanned && s.c + n <= end && Continues(t, s, t.text[s.c..s.c + n])
  {
    PieceFacts(t.text, t.lines, s.ln, s.lb, s.c, end, t.limits.budget - s.scanned);
  }

  /** The piece comes next in the current line, and ends it exactly if it ends in LF. */
  predicate Continues(t: Task, s: Scan, piece: Bytes) {
    && s.ln < |t.lines| && s.lb + |piece| <= |t.lines[s.ln]| && piece != []
    && t.lines[s.ln][..s.lb] + piece == t.lines[s.ln][..s.lb + |piece|]
    && (s.lb + |piece| == |t.lines[s.ln]| <==> piece[|piece| - 1] == LF)
  }

  /** The scan after one more piece of the current line. */
  function Taken(t: Task, s: Scan, piece: Bytes): Scan {
    var lb := s.lb + |piece|;
    var line := if lb > MAX_LINE then [] else if s.ln >= t.resume then s.line + piece else s.line;
    var s' := s.(scanned := s.scanned + |piece|, lb := lb, line := line, c := s.c + |piece|);
    if s.ln > t.resume || (s.ln == t.resume && lb > t.resumeByte)
    then s'.(progressed := true, pos := Some(Position(t.hour, t.start, s.ln, lb))) else s'
  }

  lemma TakenKeeps(q: Query, t: Task, s: Scan, piece: Bytes)
    requires t.resume < |t.lines| && ScanOk(q, t, s) && !s.stopped && Continues(t, s, piece)
    requires |piece| <= t.limits.budget - s.scanned && s.c + |piece| <= |t.text|
    ensures var s' := Taken(t, s, piece);
      && !s'.stopped && s'.c == s.c + |piece| && s'.scanned == s.scanned + |piece| && Bounded(q, t, s')
      && if piece[|piece| - 1] == LF then LineRead(q, t, s') else ScanOk(q, t, s')
  {
    if s.ln >= t.resume {
      assert Owed(q, t, s.rows, s.ln);
    }
    assert t.lines[s.ln][..|t.lines[s.ln]|] == t.lines[s.ln];
  }

  /** The current line has been read up to its LF. */
  predicate LineRead(q: Query, t: Task, s: Scan) {
    && s.ln < |t.lines| && s.lb == |t.lines[s.ln]| && s.c == Off(t.lines, s.ln) + s.lb && |s.rows| < q.limit
    && (t.resume <= s.ln && s.lb <= MAX_LINE ==> s.line == t.lines[s.ln])
    && Owed(q, t, s.rows, From(s.ln, t.resume)) && Moving(t, s) && s.reason == NoReason && s.scanned == t.scanned + s.c
    && (s.ln < t.resume ==> s.pos == Resumed(t)) && (s.ln >= t.resume && Fitting(t) ==> s.progressed)
  }

  /** The LF of line `ln` has been read: deliver the line, unless it is one to skip. */
  method FinishLine(q: Query, t: Task, s0: Scan) returns (s: Scan, ended: bool)
    requires TaskOk(q, t) && !s0.stopped && Bounded(q, t, s0) && LineRead(q, t, s0)
    ensures if ended then Ended(q, t, s) else ScanOk(q, t, s)
    ensures s.c == s0.c && s.scanned == s0.scanned && s.progressed == s0.progressed
  {
    hide InWindow, Matches, PartRows, Off, Owed, Resumed, Behind, Fitting, Flatten;
    s := s0;
    if s.ln >= t.resume {
      var found := LineRows(q, t.hour, t.start, s.ln, if s.lb > MAX_LINE then t.lines[s.ln] else s.line);
      if found != [] {
        assert IsLine(t.lines[s.ln]);
        if !t.limits.fits(s.rows + found, s.pos, s.scanned) {
          s := s.(pos := Some(Position(t.hour, t.start, s.ln, 0)), reason := ResponseBytes, stopped := true);
          return s, |s.rows| == |t.rows0|;
        }
      }
      NextLine(q, t, s.rows, s.ln);
      s := s.(rows := s.rows + found);
    }
    MovedOk(q, t, s);
    s, ended := Moved(q, t, s), false;
  }

  /** On to the next line, or out of the member; enough rows stop the page. */
  function Moved(q: Query, t: Task, s: Scan): Scan {
    var s' := s.(ln := s.ln + 1, lb := 0, line := [],
                 pos := if s.ln + 1 < t.resume then s.pos else if s.ln + 1 == |t.lines| then t.next
                        else Some(Position(t.hour, t.start, s.ln + 1, 0)));
    if |s.rows| >= q.limit && s.ln + 1 < |t.lines| then s'.(reason := Limit, stopped := true) else s'
  }

  lemma MovedOk(q: Query, t: Task, s: Scan)
    requires !s.stopped && Bounded(q, t, s) && s.ln < |t.lines| && s.c == Off(t.lines, s.ln) + |t.lines[s.ln]|
    requires t.resume < |t.lines| && forall i :: 0 <= i < |t.lines| ==> IsLine(t.lines[i])
    requires Owed(q, t, s.rows, From(s.ln + 1, t.resume))
    requires s.ln + 1 < t.resume ==> s.pos == Resumed(t) && |s.rows| < q.limit
    requires Moving(t, s) && s.reason == NoReason && s.scanned == t.scanned + s.c && (s.ln >= t.resume && Fitting(t) ==> s.progressed)
    ensures ScanOk(q, t, Moved(q, t, s))
  {
    if s.ln + 1 < |t.lines| { assert IsLine(t.lines[s.ln + 1]); }
  }

  /** One decoded chunk, up to byte `end` of the member. */
  method ScanChunk(q: Query, t: Task, s0: Scan, end: nat) returns (s: Scan, ended: bool, cancelled: bool)
    requires TaskOk(q, t) && ScanOk(q, t, s0) && !s0.stopped && s0.c < end <= |t.text|
    ensures cancelled ==> t.limits.calls
    ensures !cancelled && ended ==> Ended(q, t, s)
    ensures !cancelled && !ended ==> ScanOk(q, t, s) && (!s.stopped ==> s.c == end) && s.scanned == t.scanned + end
    ensures s0.scanned <= s.scanned && (s0.progressed ==> s.progressed)
  {
    s, ended, cancelled := s0, false, false;
    while !s.stopped && s.c < end
      invariant ScanOk(q, t, s) && s.c <= end && s.scanned == t.scanned + s.c && s0.scanned <= s.scanned && (s0.progressed ==> s.progressed)
      decreases end - s.c
    {
      cancelled := *;
      cancelled := cancelled && t.limits.calls;
      if cancelled { return; }
      var late: bool := *;
      late := late && t.limits.timed;
      if late || s.scanned >= t.limits.budget {
        GiveUpEnds(q, t, s, if s.scanned >= t.limits.budget then ScanBytes else Timeout);
        return GiveUp(t, s, if s.scanned >= t.limits.budget then ScanBytes else Timeout), true, false;
      }
      s, ended := TakePiece(q, t, s, end);
      if ended { return; }
    }
    if s.stopped {
      s, ended := DrainChunk(q, t, s, end - s.c);
    }
  }

  /** A stopped member is still read to its end, so that its check sum is verified. */
  method DrainChunk(q: Query, t: Task, s0: Scan, length: nat) returns (s: Scan, ended: bool)
    requires TaskOk(q, t) && ScanOk(q, t, s0) && s0.stopped && s0.scanned + length <= t.scanned + |t.text|
    ensures if ended then Ended(q, t, s) else ScanOk(q, t, s) && s.stopped
    ensures s0.scanned <= s.scanned && s.progressed == s0.progressed && (!ended ==> s.scanned == s0.scanned + length)
  {
    var late: bool := *;
    if late && t.limits.timed {
      s := s0.(rows := t.rows0, pos := Resumed(t), reason := Timeout);
      GiveUpEnds(q, t, s0, Timeout);
      return s, true;
    }
    if s0.scanned + length > t.limits.budget {
      s := s0.(scanned := t.limits.budget, rows := t.rows0, pos := Resumed(t), reason := ScanBytes);
      GiveUpEnds(q, t, s0.(scanned := t.limits.budget), ScanBytes);
      return s, true;
    }
    return s0.(scanned := s0.scanned + length), false;
  }

  /** Reading one member: decode from its start in chunks of any size, emit lines from the
      resume line on. */
  method ScanPart(q: Query, t: Task, progressed0: bool) returns (ctl: Control, s: Scan)
    requires TaskOk(q, t) && t.scanned <= t.limits.budget
    ensures ctl.Through? ==> Bounded(q, t, s) && s.pos == t.next && Owed(q, t, s.rows, |t.lines|)
    ensures ctl.Stopped? ==> Ended(q, t, s)
    ensures ctl.Through? ==> s.reason == NoReason && (Fitting(t) ==> s.progressed)
    ensures !ctl.Failed? ==> t.scanned <= s.scanned && (ctl.Through? ==> s.scanned == t.scanned + |t.text|)
    ensures ctl.Failed? ==> ctl.error == Cancelled && t.limits.calls
    ensures progressed0 ==> s.progressed
  {
    var text := t.text;
    assert IsLine(t.lines[0]);
    s := Scan(t.rows0, Resumed(t), t.scanned, progressed0, NoReason, 0, 0, 0, [], false);
    var decoded: nat := 0;
    while decoded < |text|
      invariant decoded <= |text| && ScanOk(q, t, s) && (!s.stopped ==> s.c == decoded) && s.scanned == t.scanned + decoded && (progressed0 ==> s.progressed)
      decreases |text| - decoded
    {
      var late: bool := *;
      if late && t.limits.timed {
        GiveUpEnds(q, t, s, Timeout);
        return Stopped, GiveUp(t, s, Timeout);
      }
      var end :| decoded < end <= |text|;
      var ended, cancelled := false, false;
      if s.stopped {
        s, ended := DrainChunk(q, t, s, end - decoded);
      } else {
        s, ended, cancelled := ScanChunk(q, t, s, end);
      }
      if cancelled { return Failed(Cancelled), s; }
      if ended { return Stopped, s; }
      decoded := end;
    }
    if s.stopped { return Stopped, s; }
    AllRead(t.lines, s.ln, s.lb);
    return Through, s.(pos := t.next);
  }

  /** All bytes are read exactly when all lines are. */
  lemma AllRead(lines: seq<Bytes>, ln: nat, lb: nat)
    requires ln <= |lines| && (if ln < |lines| then lb < |lines[ln]| else lb == 0)
    requires forall i :: 0 <= i < |lines| ==> IsLine(lines[i])
    ensures Off(lines, ln) + lb == |Flatten(lines)| <==> ln == |lines|
  {
    if ln < |lines| {
      LineAt(lines, ln);
    } else {
      OffText(lines, ln);
      assert lines[..ln] == lines;
    }
  }

  /** The rest of the current line is what comes next. */
  lemma Ahead(text: Bytes, lines: seq<Bytes>, ln: nat, lb: nat, c: nat)
    requires Laid(text, lines) && ln < |lines| && lb < |lines[ln]| && c == Off(lines, ln) + lb
    ensures c + |lines[ln][lb..]| <= |text| && text[c..c + |lines[ln][lb..]|] == lines[ln][lb..]
    ensures IsLine(lines[ln][lb..])
  {
    LineAt(lines, ln);
    var raw := lines[ln];
    assert IsLine(raw);
    var whole := text[Off(lines, ln)..Off(lines, ln) + |raw|];
    assert whole[lb..] == text[c..c + |raw[lb..]|];
  }

  /** A piece stays within the line, and reaches its end exactly when it ends in LF. */
  lemma PieceInLine(text: Bytes, raw: Bytes, lb: nat, c: nat, end: nat, left: nat)
    requires lb < |raw| && IsLine(raw[lb..]) && c + |raw[lb..]| <= |text| && text[c..c + |raw[lb..]|] == raw[lb..]
    requires c < end <= |text| && left > 0
    ensures var n := PieceLength(text, c, end, left);
      && 0 < n <= left && lb + n <= |raw| && c + n <= end && raw[..lb] + text[c..c + n] == raw[..lb + n]
      && (lb + n == |raw| <==> text[c + n - 1] == LF)
  {
    var r, chunk := raw[lb..], text[c..end];
    forall i | 0 <= i < |chunk| && i < |r| ensures chunk[i] == r[i] {
      assert text[c..c + |r|][i] == text[c + i];
    }
    if |r| <= |chunk| {
      assert chunk[|r| - 1] == LF;
    }
    var n := PieceLength(text, c, end, left);
    assert text[c..c + |r|][..n] == text[c..c + n];
    assert raw[..lb] + r[..n] == raw[..lb + n];
  }

  // ---------- pages ----------

  /** The cursor at line `l` of member `m` of hour `h`; past the last member, the next hour's
      start, and nothing past the last hour. */
  function Spot(hours: seq<Hour>, h: nat, m: nat, l: nat, b: nat): Option<Position> {
    if h >= |hours| then None
    else if m < |hours[h].parts| then Some(Position(hours[h].hour, hours[h].parts[m].start, l, b))
    else if h + 1 < |hours| then Some(Position(hours[h + 1].hour, 0, 0, 0))
    else None
  }

  lemma Found(hours: seq<Hour>, h: nat, m: nat)
    requires SnapshotOk(hours) && h < |hours| && m < |hours[h].parts|
    ensures FindHour(hours, hours[h].hour) == h && FindPart(hours[h].parts, hours[h].parts[m].start) == m
  {
    assert forall i :: 0 <= i < h ==> hours[i].hour < hours[h].hour;
    assert HourOk(hours[h]);
    assert forall i :: 0 <= i < m ==> hours[h].parts[i].start < hours[h].parts[m].start;
  }

  /** What is owed at a cursor made by Spot, and that it names a line. */
  lemma SpotRows(q: Query, hours: seq<Hour>, h: nat, m: nat, l: nat, b: nat)
    requires SnapshotOk(hours) && h < |hours| && m <= |hours[h].parts|
    requires m < |hours[h].parts| ==> l < |Split(hours[h].parts[m].text)| && b < |Split(hours[h].parts[m].text)[l]|
    requires m == |hours[h].parts| ==> l == 0
    ensures RowsAfter(q, hours, Spot(hours, h, m, l, b)) == RowsFrom(q, hours, h, m, l)
    ensures Spot(hours, h, m, l, b).Some? ==> Placed(hours, Spot(hours, h, m, l, b).value)
  {
    assert HourOk(hours[h]);
    if m < |hours[h].parts| {
      Found(hours, h, m);
    } else if h + 1 < |hours| {
      assert HourOk(hours[h + 1]);
      Found(hours, h + 1, 0);
      assert PartOk(hours[h + 1].parts[0]);
    }
  }

  /** A page delivers the next rows of the direct filter, and its cursor, strictly later than
      the one it came from, stands for exactly the rest. */
  predicate PageOk(q: Query, hours: seq<Hour>, from: Option<Position>, rows: seq<Row>, next: Option<Position>) {
    && rows + RowsAfter(q, hours, next) == RowsAfter(q, hours, from) && |rows| <= q.limit
    && (next.Some? ==> from.Some? && Placed(hours, next.value) && Advances(next.value, from.value))
  }

  function TaskFor(hours: seq<Hour>, h: nat, m: nat, l: nat, b: nat, rows: seq<Row>, limits: Limits, scanned: nat): Task
    requires h < |hours| && m < |hours[h].parts|
  {
    var p := hours[h].parts[m];
    Task(hours[h].hour, p.start, p.text, Split(p.text), l, b, rows, Spot(hours, h, m + 1, 0, 0), limits, scanned)
  }

  /** All rows owed at `pos` come after those already collected. */
  predicate OnCourse(q: Query, hours: seq<Hour>, rows: seq<Row>, pos: Option<Position>, from: Option<Position>) {
    rows + RowsAfter(q, hours, pos) == RowsAfter(q, hours, from) && (pos.Some? ==> Placed(hours, pos.value))
  }

  /** Skipping a member by its time range stays on course. */
  lemma SkipCourse(q: Query, hours: seq<Hour>, h: nat, m: nat, l: nat, b: nat, rows: seq<Row>, from: Option<Position>)
    requires SnapshotOk(hours) && h < |hours| && m < |hours[h].parts| && CanSkip(q, hours[h].parts[m])
    requires l < |Split(hours[h].parts[m].text)| && b < |Split(hours[h].parts[m].text)[l]|
    requires OnCourse(q, hours, rows, Spot(hours, h, m, l, b), from)
    ensures OnCourse(q, hours, rows, Spot(hours, h, m + 1, 0, 0), from)
  {
    assert RowsAfter(q, hours, Spot(hours, h, m, l, b)) == RowsFrom(q, hours, h, m, l) by { SpotRows(q, hours, h, m, l, b); }
    assert [] + RowsFrom(q, hours, h, m + 1, 0) == RowsFrom(q, hours, h, m + 1, 0);
    NextSpot(q, hours, h, m);
  }

  lemma NextSpot(q: Query, hours: seq<Hour>, h: nat, m: nat)
    requires SnapshotOk(hours) && h < |hours| && m < |hours[h].parts|
    ensures RowsAfter(q, hours, Spot(hours, h, m + 1, 0, 0)) == RowsFrom(q, hours, h, m + 1, 0)
    ensures Spot(hours, h, m + 1, 0, 0).Some? ==> Placed(hours, Spot(hours, h, m + 1, 0, 0).value)
  {
    assert HourOk(hours[h]);
    if m + 1 < |hours[h].parts| {
      assert PartOk(hours[h].parts[m + 1]);
    }
    SpotRows(q, hours, h, m + 1, 0, 0);
  }

  /** So does reading it, to its end or not. */
  lemma ReadCourse(q: Query, hours: seq<Hour>, h: nat, m: nat, l: nat, b: nat, rows: seq<Row>, from: Option<Position>,
                   limits: Limits, scanned: nat, rows': seq<Row>, pos': Option<Position>)
    requires SnapshotOk(hours) && h < |hours| && m < |hours[h].parts|
    requires l < |Split(hours[h].parts[m].text)| && b < |Split(hours[h].parts[m].text)[l]|
    requires OnCourse(q, hours, rows, Spot(hours, h, m, l, b), from) && !CanSkip(q, hours[h].parts[m])
    requires var t := TaskFor(hours, h, m, l, b, rows, limits, scanned);
      Inside(q, t, rows', pos') || (pos' == t.next && Owed(q, t, rows', |t.lines|))
    ensures OnCourse(q, hours, rows', pos', from)
  {
    var t := TaskFor(hours, h, m, l, b, rows, limits, scanned);
    var later, all := RowsFrom(q, hours, h, m + 1, 0), PartRows(q, t.hour, t.start, t.lines, l);
    assert RowsAfter(q, hours, Spot(hours, h, m, l, b)) == all + later by { SpotRows(q, hours, h, m, l, b); }
    if pos' == t.next && Owed(q, t, rows', |t.lines|) {
      NextSpot(q, hours, h, m);
      assert rows' + [] == rows' && [] + later == later;
      Regroup(rows', [], later, rows, all);
    } else {
      InsideRows(q, hours, h, m, t, rows', pos'.value);
      Regroup(rows', PartRows(q, t.hour, t.start, t.lines, pos'.value.line), later, rows, all);
    }
  }

  lemma InsideRows(q: Query, hours: seq<Hour>, h: nat, m: nat, t: Task, rows: seq<Row>, pos: Position)
    requires SnapshotOk(hours) && h < |hours| && m < |hours[h].parts|
    requires t.hour == hours[h].hour && t.start == hours[h].parts[m].start && t.lines == Split(hours[h].parts[m].text)
    requires t.resume < |t.lines| && t.resumeByte < |t.lines[t.resume]| && !CanSkip(q, hours[h].parts[m])
    requires Inside(q, t, rows, Some(pos))
    ensures RowsAfter(q, hours, Some(pos)) == PartRows(q, t.hour, t.start, t.lines, pos.line) + RowsFrom(q, hours, h, m + 1, 0)
    ensures Placed(hours, pos)
  {
    SpotRows(q, hours, h, m, pos.line, pos.byte);
    assert Spot(hours, h, m, pos.line, pos.byte) == Some(pos);
  }

  /** A page that does not come to the end of the snapshot has reached a limit, the one it names: it holds as many rows as
      were asked for, all bytes that may be scanned were, its time is up, or the next row does not fit. */
  ghost predicate Limited(q: Query, hours: seq<Hour>, limits: Limits, rows: seq<Row>, next: Option<Position>, reason: Reason, scanned: nat) {
    match reason
    case NoReason => false
    case Limit => |rows| == q.limit
    case ScanBytes => scanned == limits.budget
    case Timeout => limits.timed
    case ResponseBytes => TooMuch(limits, rows, RowsAfter(q, hours, next))
  }

  /** There is a next row, and it does not fit. */
  ghost predicate TooMuch(limits: Limits, rows: seq<Row>, later: seq<Row>) { later != [] && exists p, n :: !limits.fits(rows + [later[0]], p, n) }

  /** What a member's limit means for the page. */
  lemma ReachedLimits(q: Query, hours: seq<Hour>, h: nat, m: nat, l: nat, b: nat, rows: seq<Row>, limits: Limits, scanned: nat, s: Scan)
    requires SnapshotOk(hours) && h < |hours| && m < |hours[h].parts| && !CanSkip(q, hours[h].parts[m])
    requires l < |Split(hours[h].parts[m].text)| && b < |Split(hours[h].parts[m].text)[l]|
    requires var t := TaskFor(hours, h, m, l, b, rows, limits, scanned);
      Reached(q, t, s) && (Inside(q, t, s.rows, s.pos) || (s.pos == t.next && Owed(q, t, s.rows, |t.lines|)))
    ensures Limited(q, hours, limits, s.rows, s.pos, s.reason, s.scanned)
  {
    var t := TaskFor(hours, h, m, l, b, rows, limits, scanned);
    if s.reason == ResponseBytes {
      var pos := s.pos.value;
      var found := LineRows(q, t.hour, t.start, pos.line, t.lines[pos.line]);
      assert found == [found[0]];
      ToBeNext(q, hours, h, m, l, b, rows, limits, scanned, s);
    }
  }

  lemma ToBeNext(q: Query, hours: seq<Hour>, h: nat, m: nat, l: nat, b: nat, rows: seq<Row>, limits: Limits, scanned: nat, s: Scan)
    requires SnapshotOk(hours) && h < |hours| && m < |hours[h].parts| && !CanSkip(q, hours[h].parts[m])
    requires l < |Split(hours[h].parts[m].text)| && b < |Split(hours[h].parts[m].text)[l]|
    requires var t := TaskFor(hours, h, m, l, b, rows, limits, scanned);
      && s.pos.Some? && s.pos.value.line < |t.lines| && s.pos.value.byte == 0 && LineRows(q, t.hour, t.start, s.pos.value.line, t.lines[s.pos.value.line]) != []
      && s.pos.value.hour == t.hour && s.pos.value.memberStart == t.start
    ensures var t := TaskFor(hours, h, m, l, b, rows, limits, scanned); var later := RowsAfter(q, hours, s.pos);
      later != [] && later[0] == LineRows(q, t.hour, t.start, s.pos.value.line, t.lines[s.pos.value.line])[0]
  {
    var t, line := TaskFor(hours, h, m, l, b, rows, limits, scanned), s.pos.value.line;
    SplitAreLines(t.text);
    assert IsLine(t.lines[line]);
    SpotRows(q, hours, h, m, line, 0);
    assert Spot(hours, h, m, line, 0) == s.pos;
  }

  lemma Regroup(a: seq<Row>, b: seq<Row>, rest: seq<Row>, c: seq<Row>, d: seq<Row>)
    requires a + b == c + d
    ensures a + (b + rest) == c + (d + rest)
  {
    assert a + (b + rest) == (a + b) + rest;
    assert c + (d + rest) == (c + d) + rest;
  }

  lemma EnterPart(hours: seq<Hour>, h: nat, m: nat)
    requires SnapshotOk(hours) && (h < |hours| ==> m <= |hours[h].parts|)
    ensures InPart(hours, h, m, 0, 0)
  {
    if h < |hours| && m < |hours[h].parts| {
      assert HourOk(hours[h]) && PartOk(hours[h].parts[m]);
    }
  }

  /** Between two hours nothing is lost: the cursor past one hour is the start of the next. */
  lemma NextHour(hours: seq<Hour>, h: nat)
    requires SnapshotOk(hours) && h < |hours|
    ensures Spot(hours, h, |hours[h].parts|, 0, 0) == Spot(hours, h + 1, 0, 0, 0)
  {
    if h + 1 < |hours| { assert HourOk(hours[h + 1]); }
  }

  /** Where the loop over hours and members stands, and what the page holds so far. */
  datatype Sweep = Sweep(h: nat, m: nat, l: nat, b: nat, rows: seq<Row>, pos: Option<Position>,
                         scanned: nat, progressed: bool, reason: Reason)

  predicate Reading(q: Query, hours: seq<Hour>, w: Sweep) {
    |w.rows| < q.limit && w.h <= |hours| && w.pos == Spot(hours, w.h, w.m, w.l, w.b) && InPart(hours, w.h, w.m, w.l, w.b)
  }

  // ---------- the bytes that are scanned ----------

  /** The bytes of the members that are read, from member `m` of hour `h` on. */
  function BytesFrom(q: Query, hours: seq<Hour>, h: nat, m: nat): nat
    decreases |hours| - h, if h < |hours| then |hours[h].parts| - m else 0
  {
    if h >= |hours| then 0
    else if m >= |hours[h].parts| then BytesFrom(q, hours, h + 1, 0)
    else
      var p := hours[h].parts[m];
      (if CanSkip(q, p) then 0 else |p.text|) + BytesFrom(q, hours, h, m + 1)
  }

  /** The bytes of the members to be read at a cursor, with those of its own member, or without. */
  function BytesAfter(q: Query, hours: seq<Hour>, p: Option<Position>, beyond: bool): nat {
    if p.None? then 0
    else
      var h := FindHour(hours, p.value.hour);
      if h == |hours| then 0 else BytesFrom(q, hours, h, FindPart(hours[h].parts, p.value.memberStart) + if beyond then 1 else 0)
  }

  /** No more bytes have been counted than the members from `from` on hold, up to the one of the cursor. */
  predicate Paid(q: Query, hours: seq<Hour>, from: Option<Position>, h: nat, m: nat, pos: Option<Position>, scanned: nat) {
    && scanned + BytesFrom(q, hours, h, m) <= BytesAfter(q, hours, from, false)
    && BytesAfter(q, hours, pos, true) <= BytesFrom(q, hours, h, m)
  }

  lemma BeyondSpot(q: Query, hours: seq<Hour>, h: nat, m: nat, l: nat, b: nat)
    requires SnapshotOk(hours) && h < |hours| && m <= |hours[h].parts|
    ensures BytesAfter(q, hours, Spot(hours, h, m, l, b), true) <= BytesFrom(q, hours, h, m)
    ensures m < |hours[h].parts| ==> BytesAfter(q, hours, Spot(hours, h, m, l, b), true) == BytesFrom(q, hours, h, m + 1)
  {
    assert HourOk(hours[h]);
    if m < |hours[h].parts| {
      Found(hours, h, m);
    } else if h + 1 < |hours| {
      assert HourOk(hours[h + 1]);
      Found(hours, h + 1, 0);
    }
  }

  /** Skipping or reading a member, from which `n` bytes are counted, and stopping in it or not. */
  lemma PaidOn(q: Query, hours: seq<Hour>, from: Option<Position>, w: Sweep, n: nat, pos: Option<Position>)
    requires SnapshotOk(hours) && w.h < |hours| && w.m < |hours[w.h].parts| && Paid(q, hours, from, w.h, w.m, w.pos, w.scanned)
    requires n <= if CanSkip(q, hours[w.h].parts[w.m]) then 0 else |hours[w.h].parts[w.m].text|
    requires pos == Spot(hours, w.h, w.m + 1, 0, 0)
      || (pos.Some? && pos.value.hour == hours[w.h].hour && pos.value.memberStart == hours[w.h].parts[w.m].start)
    ensures Paid(q, hours, from, w.h, w.m + 1, pos, w.scanned + n)
  {
    BeyondSpot(q, hours, w.h, w.m + 1, 0, 0);
    if pos.Some? {
      BeyondSpot(q, hours, w.h, w.m, pos.value.line, pos.value.byte);
    }
  }

  lemma Begin(q: Query, hours: seq<Hour>, p: Position)
    requires SnapshotOk(hours) && Placed(hours, p)
    ensures var h := FindHour(hours, p.hour);
      h < |hours| && var m := FindPart(hours[h].parts, p.memberStart);
      InPart(hours, h, m, p.line, p.byte) && Spot(hours, h, m, p.line, p.byte) == Some(p)
      && OnCourse(q, hours, [], Some(p), Some(p))
  {
    assert [] + RowsAfter(q, hours, Some(p)) == RowsAfter(q, hours, Some(p));
  }

  predicate InPart(hours: seq<Hour>, h: nat, m: nat, l: nat, b: nat) {
    h < |hours| ==>
      && m <= |hours[h].parts| && (m == |hours[h].parts| ==> l == 0 && b == 0)
      && (m < |hours[h].parts| ==> l < |Split(hours[h].parts[m].text)| && b < |Split(hours[h].parts[m].text)[l]|)
  }

  // ---------- following the cursors ----------

  datatype PageData = PageData(rows: seq<Row>, next: Option<Position>)

  /** Pages requested one after another, each from the cursor of the one before. */
  predicate Followed(q: Query, hours: seq<Hour>, from: Option<Position>, pages: seq<PageData>)
    decreases pages
  {
    pages == [] ||
    (PageOk(q, hours, from, pages[0].rows, pages[0].next) && (|pages| > 1 ==> pages[0].next.Some?)
     && Followed(q, hours, pages[0].next, pages[1..]))
  }

  function AllRows(pages: seq<PageData>): seq<Row> {
    if pages == [] then [] else pages[0].rows + AllRows(pages[1..])
  }

  function LastCursor(from: Option<Position>, pages: seq<PageData>): Option<Position> {
    if pages == [] then from else pages[|pages| - 1].next
  }

  /** However the pages were cut, their rows joined are the direct filter's, in order, up to the
      last cursor: all of them if that is the end. */
  lemma {:induction false} PagesEqualFilter(q: Query, hours: seq<Hour>, from: Option<Position>, pages: seq<PageData>)
    requires Followed(q, hours, from, pages)
    ensures AllRows(pages) + RowsAfter(q, hours, LastCursor(from, pages)) == RowsAfter(q, hours, from)
    ensures LastCursor(from, pages).None? ==> AllRows(pages) == RowsAfter(q, hours, from)
    decreases pages
  {
    var tail := RowsAfter(q, hours, LastCursor(from, pages));
    if pages == [] {
      assert AllRows(pages) + tail == tail;
    } else {
      PagesEqualFilter(q, hours, pages[0].next, pages[1..]);
      assert LastCursor(from, pages) == LastCursor(pages[0].next, pages[1..]);
      Assoc(pages[0].rows, AllRows(pages[1..]), tail);
    }
    assert AllRows(pages) + [] == AllRows(pages);
  }

  lemma Assoc(a: seq<Row>, b: seq<Row>, c: seq<Row>)
    ensures a + b + c == a + (b + c)
  {}

  /** The first cursor of a snapshot, and with it the whole of what a search must return. */
  lemma FirstCursor(q: Query, hours: seq<Hour>)
    requires SnapshotOk(hours) && hours != []
    ensures Spot(hours, 0, 0, 0, 0).Some? && Placed(hours, Spot(hours, 0, 0, 0, 0).value)
    ensures RowsAfter(q, hours, Spot(hours, 0, 0, 0, 0)) == RowsFrom(q, hours, 0, 0, 0)
  {
    assert HourOk(hours[0]) && PartOk(hours[0].parts[0]);
    SpotRows(q, hours, 0, 0, 0, 0);
  }

  // ---------- what is delivered ----------

  /** The row is line `row.line` of the member and hour it names: it has the text asked for, and shows no time, or one
      that is neither outside the window nor older than the source keeps; a line over the limit is a placeholder. */
  predicate Shows(q: Query, row: Row, raw: Bytes) {
    if |raw| > MAX_LINE then row.raw == [] && q.hitLong
    else
      && row.raw == raw && q.hit(raw)
      && (q.timeOf(raw).Some? ==> q.cutoff <= q.timeOf(raw).value && q.start <= q.timeOf(raw).value && q.timeOf(raw).value < q.end)
  }

  predicate Genuine(q: Query, hours: seq<Hour>, row: Row) {
    exists h, m {:trigger hours[h].parts[m]} :: 0 <= h < |hours| && 0 <= m < |hours[h].parts| && row.hour == hours[h].hour && row.memberStart == hours[h].parts[m].start
      && row.line < |Split(hours[h].parts[m].text)| && Shows(q, row, Split(hours[h].parts[m].text)[row.line])
  }

  predicate AllGenuine(q: Query, hours: seq<Hour>, rows: seq<Row>) { forall i {:trigger rows[i]} :: 0 <= i < |rows| ==> Genuine(q, hours, rows[i]) }

  lemma GenuineConcat(q: Query, hours: seq<Hour>, a: seq<Row>, b: seq<Row>)
    ensures AllGenuine(q, hours, a + b) <==> AllGenuine(q, hours, a) && AllGenuine(q, hours, b)
  {
    hide Genuine;
    assert forall i :: 0 <= i < |a| ==> (a + b)[i] == a[i];
    assert forall i :: 0 <= i < |b| ==> (a + b)[|a| + i] == b[i];
  }

  lemma {:induction false} PartGenuine(q: Query, hours: seq<Hour>, h: nat, m: nat, l: nat)
    requires h < |hours| && m < |hours[h].parts|
    ensures AllGenuine(q, hours, PartRows(q, hours[h].hour, hours[h].parts[m].start, Split(hours[h].parts[m].text), l))
    decreases |Split(hours[h].parts[m].text)| - l
  {
    hide Split;
    var p := hours[h].parts[m];
    if l < |Split(p.text)| {
      PartGenuine(q, hours, h, m, l + 1);
      GenuineConcat(q, hours, LineRows(q, hours[h].hour, p.start, l, Split(p.text)[l]), PartRows(q, hours[h].hour, p.start, Split(p.text), l + 1));
    }
  }

  lemma {:induction false} RowsGenuine(q: Query, hours: seq<Hour>, h: nat, m: nat, l: nat)
    ensures AllGenuine(q, hours, RowsFrom(q, hours, h, m, l))
    decreases |hours| - h, if h < |hours| then |hours[h].parts| - m else 0
  {
    hide Genuine, PartRows;
    if h < |hours| {
      if m >= |hours[h].parts| {
        RowsGenuine(q, hours, h + 1, 0, 0);
      } else {
        RowsGenuine(q, hours, h, m + 1, 0);
        PartGenuine(q, hours, h, m, l);
        GenuineConcat(q, hours, PartDue(q, hours[h].hour, hours[h].parts[m], l), RowsFrom(q, hours, h, m + 1, 0));
      }
    }
  }

  /** Every row of a page is a line of the snapshot that was asked for. */
  lemma PageGenuine(q: Query, hours: seq<Hour>, from: Option<Position>, rows: seq<Row>, next: Option<Position>)
    requires PageOk(q, hours, from, rows, next)
    ensures AllGenuine(q, hours, rows)
  {
    hide Genuine, RowsFrom;
    GenuineConcat(q, hours, rows, RowsAfter(q, hours, next));
    if from.Some? {
      var h := FindHour(hours, from.value.hour);
      if h < |hours| { RowsGenuine(q, hours, h, FindPart(hours[h].parts, from.value.memberStart), from.value.line); }
    }
  }

  // ---------- cursors come to an end ----------

  /** Bytes and lines before a place, counting each line's start as a place of its own. */
  function LineWeight(lines: seq<Bytes>, l: nat): nat
    requires l <= |lines|
  {
    if l == 0 then 0 else LineWeight(lines, l - 1) + |lines[l - 1]| + 1
  }

  function PartWeight(parts: seq<Part>, m: nat): nat
    requires m <= |parts|
  {
    if m == 0 then 0 else PartWeight(parts, m - 1) + LineWeight(Split(parts[m - 1].text), |Split(parts[m - 1].text)|)
  }

  function HourWeight(hours: seq<Hour>, h: nat): nat
    requires h <= |hours|
  {
    if h == 0 then 0 else HourWeight(hours, h - 1) + PartWeight(hours[h - 1].parts, |hours[h - 1].parts|)
  }

  function WeightAt(hours: seq<Hour>, h: nat, m: nat, l: nat, b: nat): nat
    requires h < |hours| && m < |hours[h].parts| && l <= |Split(hours[h].parts[m].text)|
  {
    HourWeight(hours, h) + PartWeight(hours[h].parts, m) + LineWeight(Split(hours[h].parts[m].text), l) + b
  }

  function Weight(hours: seq<Hour>, p: Position): nat
    requires Placed(hours, p)
  {
    var h := FindHour(hours, p.hour);
    WeightAt(hours, h, FindPart(hours[h].parts, p.memberStart), p.line, p.byte)
  }

  lemma {:induction false} LineWeightUp(lines: seq<Bytes>, a: nat, b: nat)
    requires a < b <= |lines|
    ensures LineWeight(lines, a) + |lines[a]| < LineWeight(lines, b)
    decreases b
  {
    if a < b - 1 { LineWeightUp(lines, a, b - 1); }
  }

  lemma {:induction false} PartWeightUp(parts: seq<Part>, a: nat, b: nat)
    requires a < b <= |parts|
    ensures PartWeight(parts, a + 1) <= PartWeight(parts, b)
    decreases b
  {
    if a < b - 1 { PartWeightUp(parts, a, b - 1); }
  }

  lemma {:induction false} HourWeightUp(hours: seq<Hour>, a: nat, b: nat)
    requires a < b <= |hours|
    ensures HourWeight(hours, a + 1) <= HourWeight(hours, b)
    decreases b
  {
    if a < b - 1 { HourWeightUp(hours, a, b - 1); }
  }

  /** Weight of a place inside a member, an hour, the snapshot. */
  lemma WeightBounds(hours: seq<Hour>, h: nat, m: nat, l: nat, b: nat)
    requires h < |hours| && m < |hours[h].parts| && l < |Split(hours[h].parts[m].text)| && b < |Split(hours[h].parts[m].text)[l]|
    ensures WeightAt(hours, h, m, l, b) < HourWeight(hours, h) + PartWeight(hours[h].parts, m + 1)
    ensures HourWeight(hours, h) + PartWeight(hours[h].parts, m + 1) <= HourWeight(hours, h + 1)
    ensures HourWeight(hours, h + 1) <= HourWeight(hours, |hours|)
  {
    var lines := Split(hours[h].parts[m].text);
    LineWeightUp(lines, l, |lines|);
    PartWeightUp(hours[h].parts, m, |hours[h].parts|);
    HourWeightUp(hours, h, |hours|);
  }

  lemma HourOrder(hours: seq<Hour>, a: nat, b: nat)
    requires SnapshotOk(hours) && a < |hours| && b < |hours| && hours[a].hour < hours[b].hour
    ensures a < b
  {}

  lemma PartOrder(h: Hour, a: nat, b: nat)
    requires HourOk(h) && a < |h.parts| && b < |h.parts| && h.parts[a].start < h.parts[b].start
    ensures a < b
  {}

  lemma AdvancesUp(hours: seq<Hour>, p: Position, prev: Position)
    requires SnapshotOk(hours) && Placed(hours, p) && Placed(hours, prev) && Advances(p, prev)
    ensures Weight(hours, prev) < Weight(hours, p)
  {
    var h, h' := FindHour(hours, p.hour), FindHour(hours, prev.hour);
    var m, m' := FindPart(hours[h].parts, p.memberStart), FindPart(hours[h'].parts, prev.memberStart);
    WeightBounds(hours, h', m', prev.line, prev.byte);
    if h != h' {
      HourOrder(hours, h', h);
      HourWeightUp(hours, h', h);
    } else if m != m' {
      assert HourOk(hours[h]);
      PartOrder(hours[h], m', m);
      PartWeightUp(hours[h].parts, m', m);
    } else if p.line != prev.line {
      LineWeightUp(Split(hours[h].parts[m].text), prev.line, p.line);
    }
  }

  /** Following cursors over a snapshot ends: there are at most as many pages as places. */
  lemma {:induction false} PagesEnd(q: Query, hours: seq<Hour>, from: Position, pages: seq<PageData>)
    requires SnapshotOk(hours) && Placed(hours, from) && Followed(q, hours, Some(from), pages)
    ensures Weight(hours, from) + |pages| <= HourWeight(hours, |hours|)
    decreases pages
  {
    var h := FindHour(hours, from.hour);
    WeightBounds(hours, h, FindPart(hours[h].parts, from.memberStart), from.line, from.byte);
    if |pages| > 1 {
      var next := pages[0].next.value;
      AdvancesUp(hours, next, from);
      PagesEnd(q, hours, next, pages[1..]);
    }
  }
}
