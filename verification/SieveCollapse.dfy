/** Putting an alias in the place of its members. */
module SieveCollapse {
  import opened Options
  import opened SieveLex
  import opened SieveCommands
  import opened SieveAnalysis
  import opened SieveEdits
  import opened SieveTeam
  import opened SieveAdd
  import opened SieveRemove

  /** The text with one line written anew. */
  function CollapseText(s: string, row: Row, next: string, alias: string): string
    requires row.line.lineStart <= row.start <= |s| && row.line.lineStart <= |next|
  {
    next[..row.line.lineStart] + (TeamText(s[row.line.lineStart..row.start], alias) + row.line.term + After(next, row.line.termEnd))
  }

  /** The first line is written anew with the alias; nothing is left to do after it. */
  lemma Collapsed(fold: string -> string, gone: set<string>, s: string, es: seq<Entry>, rows: seq<Row>, i: nat, next: string, cut: nat, k: nat, alias: string)
    requires i < |rows| && Parsed(s) == Some(es) && RowsOk(s, es, rows) && Pruned(fold, gone, s, es, rows, i + 1, next, cut, k)
    requires rows[i].line.simple && AddressOk(alias)
    ensures rows[i].line.lineStart <= rows[i].start <= |s| && rows[i].line.lineStart <= |next| && rows[i].entry < |es|
    ensures Parsed(CollapseText(s, rows[i], next, alias)) == Some(es[..rows[i].entry] + [Listed(alias)] + Drop(fold, gone, es[rows[i].entry + 1..]))
  {
    hide Parsed, RowsOk, Members, Drop, RowOk, Boundary, Pruned, LineInfo, AddressOk, TeamText;
    var a := rows[i];
    PrunedReady(fold, gone, s, es, rows, i, next, cut, k);
    RowFacts(s, es, rows, i);
    RowEntry(s, es, a);
    IndentBlank(s, a);
    Head(fold, gone, s, es, rows, i, next, cut, k);
    AddressPlain(alias);
    var u, text := After(next, a.line.termEnd), TeamText(s[a.line.lineStart..a.start], alias);
    TeamParsed(s[a.line.lineStart..a.start], alias, a.line.term + u);
    TermBlank(s, a.start, a.end);
    ParsedSpaces(a.line.term, u);
    assert (text + a.line.term) + u == text + (a.line.term + u);
    ReplaceLine(s, es, a, next, k, Drop(fold, gone, es[k..]), text + a.line.term, [Listed(alias)]);
  }

  /** The chosen members have become one, where the first of them was; no other command changed. */
  predicate CollapsedTo(fold: string -> string, gone: set<string>, es: seq<Entry>, es': seq<Entry>, alias: string) {
    exists e :: 0 <= e < |es| && es[e].Listed? && fold(es[e].address) in gone && Drop(fold, gone, es[..e]) == es[..e]
      && es' == es[..e] + [Listed(alias)] + Drop(fold, gone, es[e + 1..])
  }

  lemma FoldSplit(fold: string -> string, a: seq<Entry>, alias: string, b: seq<Entry>, rest: seq<string>)
    requires FoldAll(fold, Members(b)) == rest
    ensures FoldAll(fold, Members(a + [Listed(alias)] + b)) == FoldAll(fold, Members(a)) + [fold(alias)] + rest
  {
    InsertMember(a, b, alias);
    FoldConcat(fold, Members(a) + [alias], Members(b));
    FoldConcat(fold, Members(a), [alias]);
    assert FoldAll(fold, [alias]) == [fold(alias)];
  }

  lemma MembersBehind(s: string, es: seq<Entry>, rows: seq<Row>, i: nat)
    requires RowsOk(s, es, rows) && i < |rows|
    ensures rows[i].entry < |es| && Members(es[..rows[i].entry]) == Addresses(rows[..i])
    ensures Members(es[rows[i].entry + 1..]) == Addresses(rows[i + 1..])
  {
    hide Members, RowsOk, Addresses, RowOk;
    UpToRow(s, es, rows, i);
    AllRows(s, es, rows);
    var k := rows[i].entry + 1;
    assert es == es[..k] + es[k..] && rows == rows[..i + 1] + rows[i + 1..];
    MembersConcat(es[..k], es[k..]);
    AddressesConcat(rows[..i + 1], rows[i + 1..]);
    Cancel(Addresses(rows[..i + 1]), Members(es[k..]), Addresses(rows[i + 1..]));
  }

  lemma AddressesConcat(a: seq<Row>, b: seq<Row>)
    ensures Addresses(a + b) == Addresses(a) + Addresses(b)
  {}

  lemma Cancel(a: seq<string>, b: seq<string>, c: seq<string>)
    requires a + b == a + c
    ensures b == c
  {
    assert (a + b)[|a|..] == b && (a + c)[|a|..] == c;
  }

  /** The first row whose folded address is wanted, if there is one. */
  method FirstHit(fold: string -> string, gone: set<string>, rows: seq<Row>) returns (at: Option<nat>)
    ensures at.Some? ==> at.value < |rows| && fold(rows[at.value].address) in gone
    ensures at.Some? ==> forall i {:trigger rows[i]} :: 0 <= i < at.value ==> fold(rows[i].address) !in gone
    ensures at.None? ==> forall i {:trigger rows[i]} :: 0 <= i < |rows| ==> fold(rows[i].address) !in gone
  {
    for i := 0 to |rows|
      invariant forall j {:trigger rows[j]} :: 0 <= j < i ==> fold(rows[j].address) !in gone
    {
      if fold(rows[i].address) in gone {
        return Some(i);
      }
    }
    at := None;
  }

  /** Where the first of the members stands. */
  function First(fold: string -> string, gone: set<string>, rows: seq<Row>): (i: nat)
    ensures i <= |rows| && (i < |rows| ==> fold(rows[i].address) in gone) && forall j :: 0 <= j < i ==> fold(rows[j].address) !in gone
  {
    if rows == [] || fold(rows[0].address) in gone then 0 else 1 + First(fold, gone, rows[1..])
  }

  lemma FirstIs(fold: string -> string, gone: set<string>, rows: seq<Row>, i: nat)
    requires i <= |rows| && (i < |rows| ==> fold(rows[i].address) in gone) && forall j {:trigger rows[j]} :: 0 <= j < i ==> fold(rows[j].address) !in gone
    ensures First(fold, gone, rows) == i
  {
    var n := First(fold, gone, rows);
    assert !(n < i);
  }

  /** The text after the lines of the members from the i-th on have been taken out. */
  function DropText(fold: string -> string, gone: set<string>, s: string, rows: seq<Row>, i: nat): string
    requires i <= |rows|
    decreases |rows| - i
  {
    if i == |rows| then s
    else
      var next, line := DropText(fold, gone, s, rows, i + 1), rows[i].line;
      if fold(rows[i].address) in gone && line.lineStart <= |next| then next[..line.lineStart] + After(next, line.termEnd) else next
  }

  /** The members among the addresses. */
  function Hit(fold: string -> string, gone: set<string>, rows: seq<Row>): set<string> {
    set i | 0 <= i < |rows| && fold(rows[i].address) in gone :: fold(rows[i].address)
  }

  predicate SimpleHits(fold: string -> string, gone: set<string>, rows: seq<Row>) {
    forall i {:trigger rows[i]} :: 0 <= i < |rows| && fold(rows[i].address) in gone ==> rows[i].line.simple
  }

  /** What collapseMembers answers for an analysed script and addresses that are well-formed. */
  function CollapseAnswer(fold: string -> string, s: string, es: seq<Entry>, rows: seq<Row>, gone: set<string>, alias: string): Outcome {
    var first := First(fold, gone, rows);
    if rows == [] then Refused(NotTeam)
    else if StopperFirst(es) then Refused(StopperBeforeMember)
    else if Hit(fold, gone, rows) != gone || first == |rows| then Refused(NotMember)
    else if !SimpleHits(fold, gone, rows) then Refused(LineNotSimple)
    else
      var next, line := DropText(fold, gone, s, rows, first + 1), rows[first].line;
      if line.lineStart <= rows[first].start <= |s| && line.lineStart <= |next| then Done(CollapseText(s, rows[first], next, alias), true)
      else Refused(SelfCheckFailed)
  }

  ghost predicate CollapseAnswered(fold: string -> string, s: string, es: seq<Entry>, gone: set<string>, alias: string, r: Outcome) {
    exists rows: seq<Row> :: RowsOk(s, es, rows) && r == CollapseAnswer(fold, s, es, rows, gone, alias)
  }

  lemma DropNone(fold: string -> string, gone: set<string>, s: string, rows: seq<Row>)
    ensures DropText(fold, gone, s, rows, |rows|) == s
  {}

  lemma DropOne(fold: string -> string, gone: set<string>, s: string, rows: seq<Row>, i: nat)
    requires i < |rows|
    ensures var next, line := DropText(fold, gone, s, rows, i + 1), rows[i].line;
      DropText(fold, gone, s, rows, i)
      == if fold(rows[i].address) in gone && line.lineStart <= |next| then next[..line.lineStart] + After(next, line.termEnd) else next
  {}

  lemma CollapseSays(fold: string -> string, s: string, es: seq<Entry>, rows: seq<Row>, gone: set<string>, alias: string)
    requires RowsOk(s, es, rows)
    ensures CollapseAnswered(fold, s, es, gone, alias, CollapseAnswer(fold, s, es, rows, gone, alias))
  {
    hide CollapseAnswer, RowsOk;
  }

  lemma HitSize(fold: string -> string, gone: set<string>, rows: seq<Row>)
    ensures |Hit(fold, gone, rows)| == |gone| <==> Hit(fold, gone, rows) == gone
  {
    SameSets(Hit(fold, gone, rows), gone);
  }

  lemma SameSets(found: set<string>, gone: set<string>)
    requires found <= gone
    ensures |found| == |gone| <==> found == gone
  {
    if |found| == |gone| {
      assert gone == found + (gone - found);
      assert |gone| == |found| + |gone - found|;
    }
  }

  /** The lines taken out from the last one up, and the first one written anew. */
  method CollapseLines(fold: string -> string, script: string, ghost es: seq<Entry>, rows: seq<Row>, gone: set<string>, first: nat, alias: string)
    returns (next: string)
    requires Parsed(script) == Some(es) && RowsOk(script, es, rows) && AddressOk(alias)
    requires first < |rows| && fold(rows[first].address) in gone
    requires forall i {:trigger rows[i]} :: 0 <= i < first ==> fold(rows[i].address) !in gone
    requires SimpleHits(fold, gone, rows)
    ensures rows[first].line.lineStart <= rows[first].start <= |script|
    ensures rows[first].line.lineStart <= |DropText(fold, gone, script, rows, first + 1)|
    ensures next == CollapseText(script, rows[first], DropText(fold, gone, script, rows, first + 1), alias)
    ensures Parsed(next).Some? && CollapsedTo(fold, gone, es, Parsed(next).value, alias)
    ensures FoldAll(fold, Members(Parsed(next).value))
         == FoldAll(fold, Addresses(rows[..first])) + [fold(alias)] + Without(gone, FoldAll(fold, Addresses(rows[first + 1..])))
  {
    hide Parsed, RowOk, Members, LineInfo, Drop, Without, RowsOk, Addresses, Pruned, AddressOk, TeamText, FoldAll, CollapsedTo, DropText, CollapseText;
    ghost var cut: nat, k: nat := |script|, |es|;
    next := script;
    var i: nat := |rows|;
    PrunedStart(fold, gone, script, es, rows);
    DropNone(fold, gone, script, rows);
    while i > first + 1
      invariant first < i <= |rows| && Pruned(fold, gone, script, es, rows, i, next, cut, k)
      invariant next == DropText(fold, gone, script, rows, i)
    {
      i := i - 1;
      var row := rows[i];
      DropOne(fold, gone, script, rows, i);
      if fold(row.address) in gone {
        PrunedDrop(fold, gone, script, es, rows, i, next, cut, k);
        next := next[..row.line.lineStart] + After(next, row.line.termEnd);
        cut, k := row.line.lineStart, row.entry;
      } else {
        PrunedKeep(fold, gone, script, es, rows, i, next, cut, k);
      }
    }
    var row := rows[first];
    Collapsed(fold, gone, script, es, rows, first, next, cut, k, alias);
    next := CollapseText(script, row, next, alias);
    MembersBehind(script, es, rows, first);
    DropMembers(fold, gone, es[row.entry + 1..]);
    FoldSplit(fold, es[..row.entry], alias, Drop(fold, gone, es[row.entry + 1..]), Without(gone, FoldAll(fold, Addresses(rows[first + 1..]))));
    NoHitBefore(fold, gone, script, es, rows, first);
    IsCollapsed(fold, gone, es, Parsed(next).value, alias, row.entry);
  }

  /** collapseMembers never fails its own check; apart from addresses it refuses at once, its answer is that
      of CollapseAnswer. */
  method CollapseMembers(fold: string -> string, script: string, addresses: seq<string>, alias: string) returns (r: Outcome)
    ensures r != Refused(SelfCheckFailed)
    ensures r.Done? ==> r.changed && Parsed(script).Some? && Parsed(r.script).Some?
    ensures r.Done? ==> CollapsedTo(fold, set i | 0 <= i < |addresses| :: fold(addresses[i]), Parsed(script).value, Parsed(r.script).value, alias)
    ensures r == Refused(InvalidAddress) <==> addresses == [] || !(forall i :: 0 <= i < |addresses| ==> AddressOk(addresses[i])) || !AddressOk(alias)
    ensures r != Refused(InvalidAddress) ==> if Parsed(script).None? then r == Refused(Unparseable) else
      CollapseAnswered(fold, script, Parsed(script).value, set i | 0 <= i < |addresses| :: fold(addresses[i]), alias, r)
  {
    hide First, Hit, SimpleHits, DropText, CollapseText, CollapseAnswered, Parsed, Members, StopperFirst, Without, RowsOk, Addresses, AddressOk, FoldAll, CollapsedTo, TeamText;
    if addresses == [] || !(forall i :: 0 <= i < |addresses| ==> AddressOk(addresses[i])) || !AddressOk(alias) {
      return Refused(InvalidAddress);
    }
    var analysis := Analyze(script);
    if !analysis.parsed {
      return Refused(Unparseable);
    }
    var rows := analysis.rows;
    var gone := set i | 0 <= i < |addresses| :: fold(addresses[i]);
    CollapseSays(fold, script, Parsed(script).value, rows, gone, alias);
    if rows == [] {
      return Refused(NotTeam);
    }
    if analysis.stopperBeforeMember {
      return Refused(StopperBeforeMember);
    }
    var first := FirstHit(fold, gone, rows);
    HitSize(fold, gone, rows);
    FirstIs(fold, gone, rows, if first.Some? then first.value else |rows|);
    if |Hit(fold, gone, rows)| != |gone| || first.None? {
      return Refused(NotMember);
    }
    if !SimpleHits(fold, gone, rows) {
      return Refused(LineNotSimple);
    }
    var next := CollapseLines(fold, script, Parsed(script).value, rows, gone, first.value, alias);
    var expected := FoldAll(fold, Addresses(rows[..first.value])) + [fold(alias)] + Without(gone, FoldAll(fold, Addresses(rows[first.value + 1..])));
    var ok := Check(fold, next, expected);
    if !ok {
      return Refused(SelfCheckFailed);
    }
    r := Done(next, true);
  }

  lemma IsCollapsed(fold: string -> string, gone: set<string>, es: seq<Entry>, es': seq<Entry>, alias: string, e: nat)
    requires e < |es| && es[e].Listed? && fold(es[e].address) in gone && Drop(fold, gone, es[..e]) == es[..e]
    requires es' == es[..e] + [Listed(alias)] + Drop(fold, gone, es[e + 1..])
    ensures CollapsedTo(fold, gone, es, es', alias)
  {}

  lemma {:induction false} DropFree(fold: string -> string, gone: set<string>, es: seq<Entry>)
    requires forall i {:trigger Members(es)[i]} :: 0 <= i < |Members(es)| ==> fold(Members(es)[i]) !in gone
    ensures Drop(fold, gone, es) == es
  {
    if es != [] {
      var rest := Members(es[1..]);
      forall i | 0 <= i < |rest| ensures fold(rest[i]) !in gone {
        assert rest[i] == if es[0].Listed? then Members(es)[i + 1] else Members(es)[i];
      }
      if es[0].Listed? { assert Members(es)[0] == es[0].address; }
      DropFree(fold, gone, es[1..]);
    }
  }

  lemma NoHitBefore(fold: string -> string, gone: set<string>, s: string, es: seq<Entry>, rows: seq<Row>, first: nat)
    requires RowsOk(s, es, rows) && first < |rows| && forall i {:trigger rows[i]} :: 0 <= i < first ==> fold(rows[i].address) !in gone
    ensures rows[first].entry < |es| && es[rows[first].entry] == Listed(rows[first].address) && Drop(fold, gone, es[..rows[first].entry]) == es[..rows[first].entry]
  {
    hide Members, RowsOk, RowOk, Drop;
    RowFacts(s, es, rows, first);
    var xs := Members(es[..rows[first].entry]);
    assert forall i :: 0 <= i < |xs| ==> xs[i] == rows[i].address;
    DropFree(fold, gone, es[..rows[first].entry]);
  }

}
