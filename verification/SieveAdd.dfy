/** Adding a member. */
module SieveAdd {
  import opened Options
  import opened SieveLex
  import opened SieveCommands
  import opened SieveAnalysis
  import opened SieveEdits
  import opened SieveTeam

  function AddText(script: string, row: Row, address: string): string
    requires row.line.lineStart <= row.start <= |script| && row.line.termEnd <= |script|
  {
    var text := TeamText(script[row.line.lineStart..row.start], address);
    if row.line.term != "" then script[..row.line.termEnd] + (text + (row.line.term + script[row.line.termEnd..]))
    else script + ['\n'] + text
  }

  /** The term of a line is a line end. */
  lemma TermBlank(s: string, start: nat, end: nat)
    requires start <= end <= |s|
    ensures forall i :: 0 <= i < |LineInfo(s, start, end).term| ==> Blank(LineInfo(s, start, end).term[i])
  {}

  lemma ParsedSpaces(b: string, rest: string)
    requires forall i :: 0 <= i < |b| ==> Blank(b[i])
    ensures Parsed(b + rest) == Parsed(rest)
  {
    WordsSpaces(b, rest);
  }

  lemma IndentBlank(s: string, row: Row)
    requires row.start <= row.end <= |s| && row.line == LineInfo(s, row.start, row.end) && row.line.simple
    ensures row.line.lineStart <= row.start && forall i :: 0 <= i < row.start - row.line.lineStart ==> Blank(s[row.line.lineStart..row.start][i])
  {}

  /** A line added behind the last member becomes the member after it; nothing else changes. */
  lemma AddParsed(s: string, es: seq<Entry>, row: Row, address: string)
    requires Parsed(s) == Some(es) && RowOk(s, es, row) && row.line.simple && AddressOk(address)
    ensures row.line.lineStart <= row.start && row.line.termEnd <= |s|
    ensures Parsed(AddText(s, row, address)) == Some(es[..row.entry + 1] + [Listed(address)] + es[row.entry + 1..])
  {
    hide Boundary, Parsed, LineInfo, Hits, Front, Run, AddressOk, TeamText;
    SimpleRow(s, es, row);
    IndentBlank(s, row);
    AddressPlain(address);
    var k, indent, at := row.entry + 1, s[row.line.lineStart..row.start], row.line.termEnd;
    if row.line.term != "" {
      var rest := row.line.term + s[at..];
      TermBlank(s, row.start, row.end);
      ParsedSpaces(row.line.term, s[at..]);
      TeamParsed(indent, address, rest);
      ParsedBehind(s, at, es[..k]);
      assert es == es[..k] + es[k..];
      CatCancel(es[..k], es[k..], Parsed(s[at..]));
      Replace(s, at, es[..k], TeamText(indent, address) + rest);
      CatCat(es[..k], [Listed(address)], Parsed(rest));
    } else {
      var t := s + ['\n'];
      ParsedMore(s, '\n');
      assert t[|t| - 1] == '\n' && t[..|t|] == t;
      WholeBoundary(t, es);
      NoCommands();
      assert TeamText(indent, address) + "" == TeamText(indent, address);
      TeamParsed(indent, address, "");
      Replace(t, |t|, es, TeamText(indent, address));
      assert es[..k] + [Listed(address)] + es[k..] == es + ([Listed(address)] + []);
    }
  }

  lemma RowFacts(s: string, es: seq<Entry>, rows: seq<Row>, i: nat)
    requires RowsOk(s, es, rows) && i < |rows|
    ensures RowOk(s, es, rows[i]) && rows[i].entry < |es| && es[rows[i].entry] == Listed(rows[i].address)
    ensures Members(es[..rows[i].entry]) == Addresses(rows[..i])
  {
    hide Members, Addresses, InOrder, Hits, Front, Run, Step, LineInfo;
  }

  lemma UpToRow(s: string, es: seq<Entry>, rows: seq<Row>, i: nat)
    requires RowsOk(s, es, rows) && i < |rows|
    ensures rows[i].entry < |es| && es[rows[i].entry] == Listed(rows[i].address)
    ensures Members(es[..rows[i].entry]) == Addresses(rows[..i]) && Members(es[..rows[i].entry + 1]) == Addresses(rows[..i + 1])
  {
    hide Members, RowsOk, RowOk, Addresses;
    RowFacts(s, es, rows, i);
    var e := rows[i].entry;
    assert es[..e + 1] == es[..e] + [es[e]] && rows[..i + 1] == rows[..i] + [rows[i]];
    MembersSnoc(es[..e], es[e]);
    AddressesSnoc(rows[..i], rows[i]);
  }

  lemma AllRows(s: string, es: seq<Entry>, rows: seq<Row>)
    requires RowsOk(s, es, rows)
    ensures Addresses(rows) == Members(es)
  {
    hide Members, Addresses, InOrder, RowOk;
  }

  lemma NoMembers(a: seq<string>, b: seq<string>)
    requires a == a + b
    ensures b == []
  {
    assert |b| == 0;
  }

  lemma AddedMembers(es: seq<Entry>, rows: seq<Row>, s: string, address: string)
    requires RowsOk(s, es, rows) && rows != []
    ensures var k := rows[|rows| - 1].entry + 1;
      k <= |es| && Members(es[..k] + [Listed(address)] + es[k..]) == Members(es) + [address] && Members(es[k..]) == []
  {
    LastRow(s, es, rows);
    hide RowsOk, Members;
    var k := rows[|rows| - 1].entry + 1;
    InsertMember(es[..k], es[k..], address);
    assert (Members(es) + [address]) + [] == Members(es) + [address];
  }

  lemma LastRow(s: string, es: seq<Entry>, rows: seq<Row>)
    requires RowsOk(s, es, rows) && rows != []
    ensures var k := rows[|rows| - 1].entry + 1; k <= |es| && Members(es[..k]) == Members(es) && Members(es[k..]) == []
  {
    hide Members, RowsOk, Addresses;
    UpToRow(s, es, rows, |rows| - 1);
    AllRows(s, es, rows);
    var k := rows[|rows| - 1].entry + 1;
    assert rows[..|rows| - 1 + 1] == rows;
    assert es == es[..k] + es[k..];
    MembersConcat(es[..k], es[k..]);
    NoMembers(Members(es), Members(es[k..]));
  }

  lemma InsertMember(a: seq<Entry>, b: seq<Entry>, address: string)
    ensures Members(a + [Listed(address)] + b) == Members(a) + [address] + Members(b)
  {
    hide Members;
    MembersConcat(a + [Listed(address)], b);
    MembersSnoc(a, Listed(address));
  }

  lemma RowEntry(s: string, es: seq<Entry>, row: Row)
    requires RowOk(s, es, row)
    ensures row.entry < |es| && es[row.entry] == Listed(row.address) && row.start < row.end <= |s| && row.line == LineInfo(s, row.start, row.end)
  {}

  /** The member is new, comes last, and no other command changed. */
  predicate Added(fold: string -> string, es: seq<Entry>, es': seq<Entry>, address: string) {
    Members(es') == Members(es) + [address] && fold(address) !in FoldAll(fold, Members(es))
    && exists k :: 0 <= k <= |es| && es' == es[..k] + [Listed(address)] + es[k..]
  }

  /** What addMember answers for an analysed script: the line goes behind the last member's. */
  function AddAnswer(fold: string -> string, s: string, es: seq<Entry>, rows: seq<Row>, address: string): Outcome
    requires rows != [] ==> LastPlaced(s, rows[|rows| - 1])
  {
    if !AddressOk(address) then Refused(InvalidAddress)
    else if rows == [] then Refused(NotTeam)
    else if fold(address) in FoldAll(fold, Addresses(rows)) then Done(s, false)
    else if StopperFirst(es) then Refused(StopperBeforeMember)
    else if !rows[|rows| - 1].line.simple then Refused(LineNotSimple)
    else Done(AddText(s, rows[|rows| - 1], address), true)
  }

  ghost predicate AddAnswered(fold: string -> string, s: string, es: seq<Entry>, address: string, r: Outcome) {
    exists rows: seq<Row> :: RowsOk(s, es, rows) && (rows != [] ==> LastPlaced(s, rows[|rows| - 1])) && r == AddAnswer(fold, s, es, rows, address)
  }

  predicate LastPlaced(s: string, row: Row) { row.line.lineStart <= row.start <= |s| && row.line.termEnd <= |s| }

  lemma RowsPlaced(s: string, es: seq<Entry>, rows: seq<Row>)
    requires RowsOk(s, es, rows)
    ensures rows != [] ==> LastPlaced(s, rows[|rows| - 1])
  {
    hide RowsOk, Hits, Front, Run, Step, Addresses, Members;
    if rows != [] { RowFacts(s, es, rows, |rows| - 1); }
  }

  lemma FoldOne(fold: string -> string, address: string)
    ensures FoldAll(fold, [address]) == [fold(address)]
  {}

  /** addMember never fails its own check: it adds the address behind the last member. */
  method AddMember(fold: string -> string, script: string, address: string) returns (r: Outcome)
    ensures r != Refused(SelfCheckFailed)
    ensures r.Done? && !r.changed ==> r.script == script
    ensures r.Done? ==> AddressOk(address) && Parsed(script).Some? && Parsed(r.script).Some?
    ensures r.Done? && r.changed ==> Added(fold, Parsed(script).value, Parsed(r.script).value, address)
    ensures if !AddressOk(address) then r == Refused(InvalidAddress) else if Parsed(script).None? then r == Refused(Unparseable)
            else AddAnswered(fold, script, Parsed(script).value, address, r)
  {
    hide Parsed, RowOk, RowsOk, Members, LineInfo, AddressOk, AddText, StopperFirst, FoldAll, Addresses;
    if !AddressOk(address) {
      return Refused(InvalidAddress);
    }
    var analysis := Analyze(script);
    if !analysis.parsed {
      return Refused(Unparseable);
    }
    var rows := analysis.rows;
    RowsPlaced(script, Parsed(script).value, rows);
    AllRows(script, Parsed(script).value, rows);
    if rows == [] {
      return Refused(NotTeam);
    }
    var current := FoldAll(fold, Addresses(rows));
    if fold(address) in current {
      return Done(script, false);
    }
    if analysis.stopperBeforeMember {
      return Refused(StopperBeforeMember);
    }
    var last := rows[|rows| - 1];
    if !last.line.simple {
      return Refused(LineNotSimple);
    }
    ghost var es := Parsed(script).value;
    RowFacts(script, es, rows, |rows| - 1);
    AddParsed(script, es, last, address);
    AddedMembers(es, rows, script, address);
    var next := AddText(script, last, address);
    FoldConcat(fold, Members(es), [address]);
    FoldOne(fold, address);
    var ok := Check(fold, next, current + [fold(address)]);
    if !ok {
      return Refused(SelfCheckFailed);
    }
    r := Done(next, true);
  }
}
