/** Adding a member and then removing it. */
module SieveUndo {
  import opened Options
  import opened SieveLex
  import opened SieveCommands
  import opened SieveAnalysis
  import opened SieveEdits
  import opened SieveTeam
  import opened SieveAdd
  import opened SieveRemove
  import opened SieveCollapse
  import opened SieveRename

  lemma OneItem(s: string, n: nat)
    requires s != "" && Step(s) != Bad && Step(s).n == n && 0 < n <= |s|
    ensures Hits(s, n) && Front(s, n) == if Step(s).Take? then [Step(s).word] else []
  {
    hide Step;
    assert Hits(s[n..], 0) && Front(s[n..], 0) == [];
  }

  lemma OneMore(s: string, a: nat, n: nat)
    requires Hits(s, a) && a < |s| && Step(s[a..]) != Bad && Step(s[a..]).n == n && 0 < n <= |s| - a
    ensures Hits(s, a + n) && |Front(s, a + n)| == |Front(s, a)| + if Step(s[a..]).Take? then 1 else 0
  {
    hide Step, Hits, Front;
    OneItem(s[a..], n);
    HitsConcat(s, a, n);
  }

  lemma IdStep(w: string, rest: string)
    requires w != "" && IdStart(w[0]) && (forall i :: 0 <= i < |w| ==> IdChar(w[i])) && rest != "" && !IdChar(rest[0]) && rest[0] != ':'
    ensures Step(w + rest).Take? && Step(w + rest).n == |w|
  {
    IdEndIs(w + rest, 0, |w|);
    assert (w + rest)[0] == w[0];
  }

  lemma TagStep(w: string, rest: string)
    requires w != "" && IdStart(w[0]) && (forall i :: 0 <= i < |w| ==> IdChar(w[i])) && rest != "" && !IdChar(rest[0])
    ensures Step([':'] + w + rest).Take? && Step([':'] + w + rest).n == |w| + 1
  {
    var s := [':'] + w + rest;
    assert s[1] == w[0] && forall i :: 0 <= i < |w| ==> s[i + 1] == w[i];
    IdEndIs(s, 1, |w| + 1);
  }

  lemma StrStep(a: string, rest: string)
    requires Plain(a)
    ensures Step(['"'] + a + ['"'] + rest).Take? && Step(['"'] + a + ['"'] + rest).n == |a| + 2
  {
    var s := ['"'] + a + ['"'] + rest;
    assert forall j :: 1 <= j < |a| + 1 ==> s[j] == a[j - 1];
    QuotePlain(s, 1, |a| + 1);
  }

  const TEAM_HEAD := 15

  lemma Behind(p: string, x: string, y: string)
    ensures (p + (x + y))[|p|..] == x + y && (p + (x + y))[|p| + |x|..] == y
  {}

  function Rest3(a: string, rest: string): string { ['"'] + a + ['"'] + ([';'] + rest) }
  function Rest2(a: string, rest: string): string { [' '] + Rest3(a, rest) }
  function Rest1(a: string, rest: string): string { [':'] + COPY + Rest2(a, rest) }
  function Rest0(a: string, rest: string): string { [' '] + Rest1(a, rest) }

  lemma TeamRests(a: string, rest: string)
    ensures TeamText("", a) + rest == REDIRECT + Rest0(a, rest) && |TeamText("", a)| == TEAM_HEAD + |a| + 3 && TeamText("", a)[0] == 'r'
  {}

  lemma TeamSlices(p: string, a: string, rest: string)
    ensures var s, q := p + (REDIRECT + Rest0(a, rest)), |p|;
      && s[q..] == REDIRECT + Rest0(a, rest) && s[q + 8..] == Rest0(a, rest) && s[q + 9..] == Rest1(a, rest)
      && s[q + 14..] == Rest2(a, rest) && s[q + 15..] == Rest3(a, rest) && s[q + 15 + |a| + 2..] == [';'] + rest
  {
    var s, q := p + (REDIRECT + Rest0(a, rest)), |p|;
    Behind(p, REDIRECT, Rest0(a, rest));
    assert s[q + 9..] == s[q + 8..][1..] && Rest0(a, rest)[1..] == Rest1(a, rest);
    assert s[q + 14..] == s[q + 9..][5..] && Rest1(a, rest)[5..] == Rest2(a, rest);
    assert s[q + 15..] == s[q + 14..][1..] && Rest2(a, rest)[1..] == Rest3(a, rest);
    assert s[q + 15 + |a| + 2..] == s[q + 15..][|a| + 2..] && Rest3(a, rest)[|a| + 2..] == [';'] + rest;
  }

  /** Inside a script, the four tokens of a team line are read one after the other. */
  lemma TeamHits(p: string, a: string, rest: string)
    requires Plain(a) && Hits(p + (TeamText("", a) + rest), |p|)
    ensures var s, q := p + (TeamText("", a) + rest), |p|;
      && Step(s[q..]).Take? && Hits(s, q + TEAM_HEAD + |a| + 2) && Step(s[q + TEAM_HEAD + |a| + 2..]).Take?
      && |Front(s, q + TEAM_HEAD + |a| + 2)| == |Front(s, q)| + 3
  {
    hide Plain, Hits, Front, TeamText, Step;
    var s, q := p + (TeamText("", a) + rest), |p|;
    TeamRests(a, rest);
    TeamSlices(p, a, rest);
    IdStep(REDIRECT, Rest0(a, rest));
    OneMore(s, q, 8);
    assert Step(Rest0(a, rest)) == Skip(1) && Step(Rest2(a, rest)) == Skip(1) && Step([';'] + rest) == Take(Sym(';'), 1) by { PlainSteps(a, rest); }
    OneMore(s, q + 8, 1);
    TagStep(COPY, Rest2(a, rest));
    OneMore(s, q + 9, 5);
    OneMore(s, q + 14, 1);
    StrStep(a, [';'] + rest);
    OneMore(s, q + 15, |a| + 2);
  }

  lemma PlainSteps(a: string, rest: string)
    ensures Step(Rest0(a, rest)) == Skip(1) && Step(Rest2(a, rest)) == Skip(1) && Step([';'] + rest) == Take(Sym(';'), 1)
  {}

  /** Tokens that finish no command leave one unfinished. */
  lemma {:induction false} QuietRun(ws: seq<Word>, st: State)
    requires Run(ws, st).Fed? && Run(ws, st).done == [] && (st.current != [] || (st.depth == 0 && ws != []))
    ensures Run(ws, st).st.current != []
    decreases ws
  {
    if ws != [] {
      var f := Feed(st, ws[0]);
      assert f.done == [] && f.st.current != [];
      QuietRun(ws[1..], f.st);
    }
  }

  /** Two places where a token starts and the same commands have just been finished are one place. */
  lemma SameStop(s: string, a: nat, b: nat, before: seq<Entry>)
    requires a <= b < |s| && Hits(s, a) && Hits(s, b) && Step(s[a..]).Take? && Step(s[b..]).Take?
    requires Run(Front(s, a), Start) == Fed(Start, before) && Run(Front(s, b), Start) == Fed(Start, before)
    ensures a == b
  {
    hide Hits, Front, Step, Run;
    if a < b {
      FrontPrefix(s, a, b);
      TokenBefore(s, a, b);
      var mid := Front(s, b)[|Front(s, a)|..];
      assert Front(s, b) == Front(s, a) + mid;
      RunConcat(Front(s, a), mid, Start);
      assert |before + Run(mid, Start).done| == |before| + |Run(mid, Start).done|;
      QuietRun(mid, Start);
    }
  }

  lemma SameEnd(s: string, a: nat, b: nat)
    requires a < |s| && b < |s| && Hits(s, a) && Hits(s, b) && Step(s[a..]).Take? && Step(s[b..]).Take? && |Front(s, a)| == |Front(s, b)|
    ensures a == b
  {
    hide Hits, Front, Step;
    if a < b { TokenBefore(s, a, b); }
    if b < a { TokenBefore(s, b, a); }
  }

  lemma IndentSplit(p: string, indent: string, a: string, rest: string)
    ensures p + (TeamText(indent, a) + rest) == (p + indent) + (TeamText("", a) + rest)
  {
    assert TeamText(indent, a) == indent + TeamText("", a);
  }

  /** A row for the new line can only stand where the line was put. */
  lemma NewRowPlace(p: string, indent: string, a: string, rest: string, es: seq<Entry>, row: Row)
    requires Plain(a) && (forall i :: 0 <= i < |indent| ==> Blank(indent[i]))
    requires RowOk(p + (TeamText(indent, a) + rest), es, row) && Boundary(p + (TeamText(indent, a) + rest), |p|, es[..row.entry])
    ensures row.start == |p| + |indent| && row.end == |p| + |indent| + TEAM_HEAD + |a| + 3
  {
    hide Plain, Hits, Front, Step, Run, TeamText, Blank, LineInfo;
    var s, q := p + (TeamText(indent, a) + rest), |p| + |indent|;
    IndentSplit(p, indent, a, rest);
    assert Hits(s, q) && Front(s, q) == Front(s, |p|) by {
      IndentSkips(p, indent, TeamText("", a) + rest);
      HitsConcat(s, |p|, |indent|);
      assert Front(s, |p|) + [] == Front(s, |p|);
    }
    assert |p + indent| == q;
    TeamRests(a, rest);
    TeamHits(p + indent, a, rest);
    if q <= row.start { SameStop(s, q, row.start, es[..row.entry]); } else { SameStop(s, row.start, q, es[..row.entry]); }
    SameEnd(s, row.end - 1, q + TEAM_HEAD + |a| + 2);
  }

  lemma IndentSkips(p: string, indent: string, u: string)
    requires forall i :: 0 <= i < |indent| ==> Blank(indent[i])
    ensures var s := (p + indent) + u; Hits(s[|p|..], |indent|) && Front(s[|p|..], |indent|) == []
  {
    var s := (p + indent) + u;
    assert forall i :: 0 <= i < |indent| ==> s[|p|..][i] == indent[i];
    SpacesSkip(s[|p|..], |indent|);
  }

  lemma NoNewline(indent: string, a: string)
    requires AddressOk(a) && forall i :: 0 <= i < |indent| ==> Space(indent[i])
    ensures forall i :: 0 <= i < |TeamText(indent, a)| ==> TeamText(indent, a)[i] != '\n'
    ensures |TeamText(indent, a)| == |indent| + TEAM_HEAD + |a| + 3 && TeamText(indent, a)[..|indent|] == indent
  {
    assert forall i :: 0 <= i < |a| ==> a[i] != '\n';
  }

  lemma {:induction false} LineStartIs(s: string, i: nat, n: nat)
    requires n <= i <= |s| && (n == 0 || s[n - 1] == '\n') && forall j :: n <= j < i ==> s[j] != '\n'
    ensures LineStart(s, i) == n
  {
    if n < i { LineStartIs(s, i - 1, n); }
  }

  lemma {:induction false} SkipSpacesIs(s: string, i: nat, end: nat)
    requires i <= end <= |s| && forall j :: i <= j < end ==> Space(s[j])
    ensures SkipSpaces(s, i, end) == end
    decreases end - i
  {
    if i < end { SkipSpacesIs(s, i + 1, end); }
  }

  /** The new line is a simple one, with the line end it was given. */
  lemma NewLine(p: string, text: string, indent: nat, term: string, tail: string)
    requires p != "" && p[|p| - 1] == '\n' && (forall i :: 0 <= i < |text| ==> text[i] != '\n') && indent < |text|
    requires forall i :: 0 <= i < indent ==> Space(text[i])
    requires term == "\n" || term == "\r\n" || (term == "" && tail == "")
    ensures LineInfo(p + (text + (term + tail)), |p| + indent, |p| + |text|) == Line(true, |p|, |p| + |text| + |term|, term)
  {
    hide LineStart, SkipSpaces, Find;
    var s, q, e := p + (text + (term + tail)), |p| + indent, |p| + |text|;
    NewLineChars(p, text, term, tail);
    LineStartIs(s, q, |p|);
    SkipSpacesIs(s, |p|, q);
    var nl := if term == "\r\n" then e + 1 else e;
    FindIs(s, '\n', e, nl);
    FindIs(s, '\n', q, nl);
    SkipSpacesIs(s, e, e);
  }

  lemma NewLineChars(p: string, text: string, term: string, tail: string)
    requires p != ""
    ensures var s := p + (text + (term + tail));
      && (forall i {:trigger text[i]} {:trigger s[|p| + i]} :: 0 <= i < |text| ==> s[|p| + i] == text[i])
      && (forall i {:trigger term[i]} :: 0 <= i < |term| ==> s[|p| + |text| + i] == term[i])
      && s[|p| - 1] == p[|p| - 1] && (forall j {:trigger s[j]} :: |p| <= j < |p| + |text| ==> s[j] == text[j - |p|])
      && |s| == |p| + |text| + |term| + |tail|
  {}

  lemma TermShape(s: string, start: nat, end: nat)
    requires start <= end <= |s|
    ensures var t := LineInfo(s, start, end).term; t == "\n" || t == "\r\n" || t == ""
  {}

  lemma MembersGrow(es: seq<Entry>, a: nat, b: nat)
    requires a <= b <= |es|
    ensures |Members(es[..a])| <= |Members(es[..b])|
  {
    assert es[..b] == es[..a] + es[a..b];
    MembersConcat(es[..a], es[a..b]);
  }

  /** The row of the added member is the last one, and stands at its command. */
  lemma LastIsNew(s: string, es: seq<Entry>, rows: seq<Row>, k: nat, old': seq<string>, address: string)
    requires RowsOk(s, es, rows) && k < |es| && es[k] == Listed(address) && Members(es) == old' + [address] && Members(es[..k]) == old'
    ensures |rows| == |old'| + 1 && rows[|old'|].address == address && rows[|old'|].entry == k
    ensures forall i {:trigger rows[i]} :: 0 <= i < |old'| ==> rows[i].address == old'[i]
  {
    hide RowsOk, RowOk, Members;
    AllRows(s, es, rows);
    var h := |old'|;
    assert |rows| == h + 1 && forall i :: 0 <= i < |rows| ==> rows[i].address == Addresses(rows)[i];
    RowFacts(s, es, rows, h);
    UpToRow(s, es, rows, h);
    var e := rows[h].entry;
    assert es[..k + 1] == es[..k] + [es[k]];
    MembersSnoc(es[..k], es[k]);
    if e < k { MembersGrow(es, e + 1, k); }
    if e > k { MembersGrow(es, k + 1, e); }
  }

  lemma {:induction false} RemoveOnly(fold: string -> string, target: string, s: string, rows: seq<Row>, i: nat)
    requires i < |rows| && fold(rows[|rows| - 1].address) == target && rows[|rows| - 1].line.lineStart <= |s|
    requires forall j {:trigger rows[j]} :: 0 <= j < |rows| - 1 ==> fold(rows[j].address) != target
    ensures var line := rows[|rows| - 1].line; RemoveText(fold, target, s, rows, i) == s[..RemoveFrom(s, line)] + After(s, line.termEnd)
    decreases |rows| - i
  {
    if i < |rows| - 1 {
      RemoveOnly(fold, target, s, rows, i + 1);
    } else {
      assert RemoveText(fold, target, s, rows, i + 1) == s;
    }
  }

  lemma {:induction false} StopperBehind(a: seq<Entry>, b: seq<Entry>)
    requires Members(b) == []
    ensures StopperFirst(a + b) == StopperFirst(a)
    decreases b
  {
    if b == [] {
      assert a + b == a;
    } else {
      var front, last := b[..|b| - 1], b[|b| - 1];
      assert b == front + [last] && a + b == (a + front) + [last];
      MembersSnoc(front, last);
      StopperSnoc(a + front, last);
      StopperBehind(a, front);
    }
  }

  /** Nothing before the new member stops delivery that did not do so before the old last one. */
  lemma NoStopper(es: seq<Entry>, k: nat, address: string)
    requires 0 < k <= |es| && es[k - 1].Listed? && Members(es[k..]) == [] && !StopperFirst(es)
    ensures !StopperFirst(es[..k] + [Listed(address)] + es[k..])
  {
    hide StopperFirst;
    assert es == es[..k] + es[k..] && es[..k] == es[..k - 1] + [es[k - 1]];
    StopperBehind(es[..k], es[k..]);
    StopperSnoc(es[..k - 1], es[k - 1]);
    StopperSnoc(es[..k], Listed(address));
    StopperBehind(es[..k] + [Listed(address)], es[k..]);
  }

  /** Where addMember puts a line: the text before it, and what it puts behind it. */
  function AddHead(s: string, line: Line): string
    requires line.termEnd <= |s|
  {
    if line.term != "" then s[..line.termEnd] else s + ['\n']
  }

  function AddTail(s: string, line: Line): string
    requires line.termEnd <= |s|
  {
    if line.term != "" then s[line.termEnd..] else ""
  }

  lemma AddTextIs(s: string, row: Row, address: string)
    requires row.line.lineStart <= row.start <= |s| && row.line.termEnd <= |s|
    ensures AddText(s, row, address)
         == AddHead(s, row.line) + (TeamText(s[row.line.lineStart..row.start], address) + (row.line.term + AddTail(s, row.line)))
  {
    hide TeamText;
    if row.line.term == "" {
      var text := TeamText(s[row.line.lineStart..row.start], address);
      assert text + ("" + "") == text;
    }
  }

  lemma AddBoundary(s: string, es: seq<Entry>, row: Row, u: string)
    requires Parsed(s) == Some(es) && RowOk(s, es, row) && row.line.simple
    ensures row.line.termEnd <= |s| && AddHead(s, row.line) != "" && AddHead(s, row.line)[|AddHead(s, row.line)| - 1] == '\n'
    ensures Boundary(AddHead(s, row.line) + u, |AddHead(s, row.line)|, es[..row.entry + 1])
  {
    hide Parsed, Hits, Front, Run, LineInfo, Step;
    SimpleRow(s, es, row);
    RowEntry(s, es, row);
    var at := row.line.termEnd;
    if row.line.term != "" {
      Replace(s, at, es[..row.entry + 1], u);
    } else {
      var t := s + ['\n'];
      ParsedMore(s, '\n');
      WholeBoundary(t, es);
      assert t[..|t|] == t && es[..row.entry + 1] == es;
      Replace(t, |t|, es, u);
    }
  }

  /** What the removal of the added line gives back. */
  function GivenBack(s: string, line: Line): string {
    if line.term == "" && s != "" && s[|s| - 1] == '\r' then s[..|s| - 1] else s
  }

  lemma RemoveGivesBack(s: string, line: Line, text: string, next: string, made: Line)
    requires line.termEnd <= |s| && (line.term == "" ==> line.termEnd == |s|) && AddHead(s, line) != ""
    requires next == AddHead(s, line) + (text + (line.term + AddTail(s, line)))
    requires made == Line(true, |AddHead(s, line)|, |AddHead(s, line)| + |text| + |line.term|, line.term)
    ensures next[..RemoveFrom(next, made)] + After(next, made.termEnd) == GivenBack(s, line)
  {
    var p, tail := AddHead(s, line), AddTail(s, line);
    assert next[..|p|] == p;
    assert next[|p| + |text| + |line.term|..] == tail by {
      assert next == (p + text + line.term) + tail;
    }
    if line.term == "" {
      assert next[..|s|] == s && next[|s|] == '\n';
      if |s| >= 1 {
        assert next[|p| - 2..|p|] == [s[|s| - 1], '\n'];
      }
    }
  }

  lemma InsertedAt(es: seq<Entry>, k: nat, address: string)
    requires k <= |es|
    ensures var es' := es[..k] + [Listed(address)] + es[k..]; k < |es'| && es'[k] == Listed(address) && es'[..k] == es[..k]
  {}

  lemma PlaceOfAdded(s: string, es: seq<Entry>, row: Row, address: string, es': seq<Entry>, made: Row)
    requires Parsed(s) == Some(es) && RowOk(s, es, row) && row.line.simple && AddressOk(address)
    requires row.line.lineStart <= row.start <= |s| && row.line.termEnd <= |s|
    requires RowOk(AddText(s, row, address), es', made) && made.entry <= |es'| && row.entry < |es| && es'[..made.entry] == es[..row.entry + 1]
    ensures var p, text := AddHead(s, row.line), TeamText(s[row.line.lineStart..row.start], address);
      made.line == Line(true, |p|, |p| + |text| + |row.line.term|, row.line.term)
  {
    hide Parsed, Hits, Front, Run, LineInfo, Step, AddressOk, TeamText, AddHead, AddTail, AddText, Boundary;
    var p, indent, term, tail := AddHead(s, row.line), s[row.line.lineStart..row.start], row.line.term, AddTail(s, row.line);
    var text := TeamText(indent, address);
    AddTextIs(s, row, address);
    AddBoundary(s, es, row, text + (term + tail));
    IndentBlank(s, row);
    IndentSpaces(s, row);
    AddressPlain(address);
    NewRowPlace(p, indent, address, term + tail, es', made);
    NoNewline(indent, address);
    TermShape(s, row.start, row.end);
    NoTail(s, row.line);
    assert forall i :: 0 <= i < |indent| ==> text[i] == text[..|indent|][i];
    NewLine(p, text, |indent|, term, tail);
  }

  lemma NoTail(s: string, line: Line)
    requires line.termEnd <= |s|
    ensures line.term == "" ==> AddTail(s, line) == ""
  {}

  lemma IndentSpaces(s: string, row: Row)
    requires row.start <= row.end <= |s| && row.line == LineInfo(s, row.start, row.end) && row.line.simple
    ensures row.line.lineStart <= row.start && forall i :: 0 <= i < row.start - row.line.lineStart ==> Space(s[row.line.lineStart..row.start][i])
  {}

  lemma OthersStay(fold: string -> string, rows: seq<Row>, rows': seq<Row>, address: string)
    requires fold(address) !in FoldAll(fold, Addresses(rows)) && |rows'| == |rows| + 1
    requires forall i {:trigger rows'[i]} :: 0 <= i < |rows| ==> rows'[i].address == Addresses(rows)[i]
    ensures forall i {:trigger rows'[i]} :: 0 <= i < |rows| ==> fold(rows'[i].address) != fold(address)
  {
    assert forall i :: 0 <= i < |rows| ==> FoldAll(fold, Addresses(rows))[i] == fold(Addresses(rows)[i]);
  }

  lemma Answer(fold: string -> string, s: string, es: seq<Entry>, rows: seq<Row>, address: string, h: nat)
    requires 0 < h && |rows| == h + 1 && rows[h].address == address && address != "" && rows[h].line.simple && !StopperFirst(es)
    requires forall i {:trigger rows[i]} :: 0 <= i < h ==> fold(rows[i].address) != fold(address)
    ensures RemoveAnswer(fold, s, es, rows, address) == Done(RemoveText(fold, fold(address), s, rows, 0), true)
  {
    hide StopperFirst, RemoveText;
    var current := FoldAll(fold, Addresses(rows));
    assert current[h] == fold(address) && current[0] == fold(rows[0].address);
  }

  lemma NotEmpty(address: string)
    requires AddressOk(address)
    ensures address != ""
  {}

  /** The last member's line is not ended, and the script's last character is a CR on its own. */
  predicate LoneCr(s: string, rows: seq<Row>) {
    rows != [] && rows[|rows| - 1].line.term == "" && s != "" && s[|s| - 1] == '\r'
  }

  lemma WhenGivenBack(s: string, rows: seq<Row>)
    requires rows != []
    ensures GivenBack(s, rows[|rows| - 1].line) == s <==> !LoneCr(s, rows)
  {
    if s != "" { assert |s[..|s| - 1]| != |s|; }
  }

  /** The rows of a script are fixed by its commands. */
  lemma RowsUnique(s: string, es: seq<Entry>, a: seq<Row>, b: seq<Row>)
    requires RowsOk(s, es, a) && RowsOk(s, es, b)
    ensures a == b
  {
    hide RowsOk, RowOk, Members;
    AllRows(s, es, a);
    AllRows(s, es, b);
    assert |a| == |Addresses(a)| == |b|;
    forall i | 0 <= i < |a| ensures a[i] == b[i] { RowUnique(s, es, a, b, i); }
  }

  lemma RowUnique(s: string, es: seq<Entry>, a: seq<Row>, b: seq<Row>, i: nat)
    requires RowsOk(s, es, a) && RowsOk(s, es, b) && i < |a| && i < |b|
    ensures a[i] == b[i]
  {
    hide RowsOk, RowOk, Members;
    RowFacts(s, es, a, i);
    RowFacts(s, es, b, i);
    UpToRow(s, es, a, i);
    UpToRow(s, es, b, i);
    if a[i].entry < b[i].entry { MembersGrow(es, a[i].entry + 1, b[i].entry); }
    if b[i].entry < a[i].entry { MembersGrow(es, b[i].entry + 1, a[i].entry); }
    SameRow(s, es, a[i], b[i]);
  }

  lemma SameRow(s: string, es: seq<Entry>, a: Row, b: Row)
    requires RowOk(s, es, a) && RowOk(s, es, b) && a.entry == b.entry
    ensures a == b
  {
    hide Hits, Front, Run, Step, LineInfo;
    if a.start <= b.start { SameStop(s, a.start, b.start, es[..a.entry]); } else { SameStop(s, b.start, a.start, es[..a.entry]); }
    SameEnd(s, a.end - 1, b.end - 1);
  }

  /** What removing the address answers for the script that adding it gave. */
  lemma RemoveAdded(fold: string -> string, s: string, es: seq<Entry>, rows: seq<Row>, address: string, es': seq<Entry>, rows': seq<Row>)
    requires Parsed(s) == Some(es) && RowsOk(s, es, rows) && rows != [] && AddressOk(address) && rows[|rows| - 1].line.simple
    requires fold(address) !in FoldAll(fold, Addresses(rows)) && !StopperFirst(es)
    requires LastPlaced(s, rows[|rows| - 1])
    requires Parsed(AddText(s, rows[|rows| - 1], address)) == Some(es') && RowsOk(AddText(s, rows[|rows| - 1], address), es', rows')
    ensures RemoveAnswer(fold, AddText(s, rows[|rows| - 1], address), es', rows', address) == Done(GivenBack(s, rows[|rows| - 1].line), true)
  {
    hide Parsed, RowsOk, RowOk, Members, LineInfo, StopperFirst, AddressOk, TeamText, Boundary, AddHead, AddTail, AddText, GivenBack, RemoveText, RemoveFrom, After;
    var row := rows[|rows| - 1];
    var k, next, indent := row.entry + 1, AddText(s, row, address), s[row.line.lineStart..row.start];
    RowFacts(s, es, rows, |rows| - 1);
    RowEntry(s, es, row);
    AddParsed(s, es, row, address);
    AddedMembers(es, rows, s, address);
    LastRow(s, es, rows);
    NoStopper(es, k, address);
    var old' := Members(es);
    AllRows(s, es, rows);
    assert es'[k] == Listed(address) && es'[..k] == es[..k] by { InsertedAt(es, k, address); }
    LastIsNew(next, es', rows', k, old', address);
    var made := rows'[|old'|];
    RowFacts(next, es', rows', |old'|);
    AddTextIs(s, row, address);
    PlaceOfAdded(s, es, row, address, es', made);
    assert made.line == Line(true, |AddHead(s, row.line)|, |AddHead(s, row.line)| + |TeamText(indent, address)| + |row.line.term|, row.line.term);
    SimpleRow(s, es, row);
    AddBoundary(s, es, row, "");
    RemoveGivesBack(s, row.line, TeamText(indent, address), next, made.line);
    OthersStay(fold, rows, rows', address);
    assert made.line.lineStart <= |next|;
    RemoveOnly(fold, fold(address), next, rows', 0);
    assert address != "" by { NotEmpty(address); }
    Answer(fold, next, es', rows', address, |old'|);
  }

  /** Adding a member and removing it again gives back the script, byte for byte, unless the last
      member's line is not ended and the script's last character is a lone CR, which is lost. */
  lemma AddThenRemove(fold: string -> string, s: string, rows: seq<Row>, address: string, added: Outcome, removed: Outcome)
    requires Parsed(s).Some? && RowsOk(s, Parsed(s).value, rows)
    requires AddAnswered(fold, s, Parsed(s).value, address, added) && added.Done? && added.changed && Parsed(added.script).Some?
    requires RemoveAnswered(fold, added.script, Parsed(added.script).value, address, removed)
    ensures removed.Done? && removed.changed
    ensures removed.script == s <==> !LoneCr(s, rows)
    ensures LoneCr(s, rows) ==> removed.script == s[..|s| - 1]
  {
    hide Parsed, RowsOk, FoldAll, AddressOk, StopperFirst, AddText, RemoveAnswer, LastPlaced, Addresses;
    var es := Parsed(s).value;
    var old' :| RowsOk(s, es, old') && (old' != [] ==> LastPlaced(s, old'[|old'| - 1])) && added == AddAnswer(fold, s, es, old', address);
    RowsUnique(s, es, old', rows);
    var es' := Parsed(added.script).value;
    var rows' :| RowsOk(added.script, es', rows') && removed == RemoveAnswer(fold, added.script, es', rows', address);
    RemoveAdded(fold, s, es, rows, address, es', rows');
    WhenGivenBack(s, rows);
  }

  /** The excluded case exists: one member, a comment behind it and a lone CR at the end. */
  function BareCr(a: string): string { TeamText("", a) + "#\r" }

  lemma CommentParsed()
    ensures Parsed("#\r") == Some([])
  {
    var s := "#\r";
    assert Step(s) == Skip(2);
    assert s[2..] == "";
  }

  lemma BareCrParsed(a: string)
    requires AddressOk(a)
    ensures Parsed(BareCr(a)) == Some([Listed(a)])
  {
    hide Parsed, TeamText;
    AddressPlain(a);
    CommentParsed();
    TeamParsed("", a, "#\r");
    assert [Listed(a)] + [] == [Listed(a)];
  }

  lemma BareCrRows(a: string, rows: seq<Row>)
    requires AddressOk(a) && RowsOk(BareCr(a), [Listed(a)], rows)
    ensures |rows| == 1 && rows[0].address == a && rows[0].line == Line(true, 0, |BareCr(a)|, "")
  {
    hide Parsed, TeamText, RowOk, RowsOk, LineInfo, Boundary;
    var s, es := BareCr(a), [Listed(a)];
    assert Members(es) == [a] by { assert es[1..] == []; }
    AllRows(s, es, rows);
    assert |rows| == 1 && rows[0].address == Addresses(rows)[0];
    RowFacts(s, es, rows, 0);
    AddressPlain(a);
    assert "" + (TeamText("", a) + "#\r") == s;
    assert es[..rows[0].entry] == [];
    StartBoundary(s);
    NewRowPlace("", "", a, "#\r", es, rows[0]);
    RowEntry(s, es, rows[0]);
    BareCrLine(a);
  }

  lemma StartBoundary(s: string)
    ensures Boundary(s, 0, [])
  {}

  lemma BareCrLine(a: string)
    requires AddressOk(a)
    ensures |TeamText("", a)| == TEAM_HEAD + |a| + 3 && LineInfo(BareCr(a), 0, TEAM_HEAD + |a| + 3) == Line(true, 0, |BareCr(a)|, "")
  {
    hide TeamText, LineStart, SkipSpaces, Find;
    NoNewline("", a);
    var s, e := BareCr(a), TEAM_HEAD + |a| + 3;
    assert forall i :: 0 <= i < |s| ==> s[i] != '\n';
    LineStartIs(s, 0, 0);
    SkipSpacesIs(s, 0, 0);
    FindIs(s, '\n', e, |s|);
    FindIs(s, '\n', 0, |s|);
    assert s[e] == '#';
    assert SkipSpaces(s, e, |s|) == e by { NoSpaces(s, e); }
  }

  lemma NoSpaces(s: string, e: nat)
    requires e < |s| && s[e] == '#'
    ensures SkipSpaces(s, e, |s|) == e
  {}

  /** On such a script the CR is lost. */
  lemma BareCrIsLost(fold: string -> string, a: string, b: string, added: Outcome, removed: Outcome)
    requires AddressOk(a) && AddressOk(b) && fold(a) != fold(b)
    requires AddAnswered(fold, BareCr(a), [Listed(a)], b, added)
    requires added.Done? ==> Parsed(added.script).Some? && RemoveAnswered(fold, added.script, Parsed(added.script).value, b, removed)
    ensures added.Done? && removed == Done(TeamText("", a) + "#", true) && removed.script != BareCr(a)
  {
    hide Parsed, RowsOk, AddressOk, TeamText, RemoveAnswered, AddAnswer, AddText, StopperFirst, Addresses, FoldAll, BareCr, LastPlaced;
    var s, es := BareCr(a), [Listed(a)];
    BareCrParsed(a);
    var rows :| RowsOk(s, es, rows) && (rows != [] ==> LastPlaced(s, rows[|rows| - 1])) && added == AddAnswer(fold, s, es, rows, b);
    BareCrRows(a, rows);
    AddsToOne(fold, s, a, rows, b);
    BareCrEnd(a);
    assert LoneCr(s, rows);
    AddThenRemove(fold, s, rows, b, added, removed);
  }

  lemma AddsToOne(fold: string -> string, s: string, a: string, rows: seq<Row>, b: string)
    requires |rows| == 1 && rows[0].address == a && rows[0].line.simple && LastPlaced(s, rows[0]) && AddressOk(b) && fold(a) != fold(b)
    ensures var r := AddAnswer(fold, s, [Listed(a)], rows, b); r.Done? && r.changed
  {
    hide AddressOk, AddText, LastPlaced;
    assert [Listed(a)][..0] == [];
    assert Addresses(rows) == [a];
    FoldOne(fold, a);
  }

  lemma BareCrEnd(a: string)
    ensures var s := BareCr(a); s != "" && s[|s| - 1] == '\r' && s[..|s| - 1] == TeamText("", a) + "#"
  {}
}
