/** Team editing: the analysis of a script and the edits built on it. */
module SieveTeam {
  import opened Options
  import opened SieveLex
  import opened SieveCommands
  import opened SieveAnalysis
  import opened SieveEdits

  function Members(es: seq<Entry>): seq<string> {
    if es == [] then [] else if es[0].Listed? then [es[0].address] + Members(es[1..]) else Members(es[1..])
  }

  lemma {:induction false} MembersConcat(a: seq<Entry>, b: seq<Entry>)
    ensures Members(a + b) == Members(a) + Members(b)
  {
    if a == [] {
      assert a + b == b;
    } else {
      assert (a + b)[1..] == a[1..] + b;
      MembersConcat(a[1..], b);
    }
  }

  /** A member with its place; `entry` is its command's number. */
  datatype Row = Row(address: string, start: nat, end: nat, line: Line, entry: nat)

  function Addresses(rows: seq<Row>): seq<string> { seq(|rows|, i requires 0 <= i < |rows| => rows[i].address) }

  /** The member's command stands where the row says, and nothing is open before or after it. */
  predicate RowOk(s: string, es: seq<Entry>, row: Row) {
    hide Hits, Front, Run, Step, LineInfo, TeamWords;
    && row.start < row.end <= |s| && row.line == LineInfo(s, row.start, row.end) && row.address != ""
    && row.entry < |es| && es[row.entry] == Listed(row.address)
    && Hits(s, row.start) && Run(Front(s, row.start), Start) == Fed(Start, es[..row.entry])
    && Hits(s, row.end) && Run(Front(s, row.end), Start) == Fed(Start, es[..row.entry + 1])
    && Step(s[row.start..]).Take? && Front(s, row.end) == Front(s, row.start) + TeamWords(row.address)
    && Hits(s, row.end - 1) && Step(s[row.end - 1..]).Take? && |Front(s, row.end - 1)| == |Front(s, row.start)| + 3
  }

  /** The rows are the members, all of them, in order. */
  predicate RowsOk(s: string, es: seq<Entry>, rows: seq<Row>) {
    && Addresses(rows) == Members(es)
    && (forall i {:trigger rows[i]} :: 0 <= i < |rows| ==> RowOk(s, es, rows[i]) && Members(es[..rows[i].entry]) == Addresses(rows[..i]))
    && InOrder(rows)
  }

  /** Something that ends or bypasses delivery comes before the last member. */
  function StopperFirst(es: seq<Entry>): bool {
    es != [] && if es[|es| - 1].Listed? then Stopper in es else StopperFirst(es[..|es| - 1])
  }

  datatype Analysis = Analysis(parsed: bool, rows: seq<Row>, stopperBeforeMember: bool)

  lemma CommandRow(script: string, toks: seq<Token>, cmds: seq<Command>, c: nat)
    requires Tokens(script, 0) == Some(toks) && AllPlaced(toks, cmds) && c < |cmds| && !cmds[c].block && TeamLine(cmds[c].words)
    requires Run(WordsOf(toks), Start).Fed?
    ensures cmds[c].start < cmds[c].end <= |script|
    ensures var a := cmds[c].words[2].value;
      && RowOk(script, EntriesOf(cmds), Row(a, cmds[c].start, cmds[c].end, LineInfo(script, cmds[c].start, cmds[c].end), c))
      && EntriesOf(cmds)[c] == Listed(a)
  {
    hide Run, Tokens, WordsOf, LineInfo, Placed, TeamWords, RowOk, Hits, Front, Step;
    TeamPlaced(toks, cmds, c);
    TeamEntryAt(toks, cmds, c);
    TeamWordsAt(toks, cmds, c);
    hide EntriesOf;
    TokenRow(script, toks, EntriesOf(cmds), cmds[c].at, c, cmds[c].words[2].value);
  }

  lemma TokenRow(script: string, toks: seq<Token>, es: seq<Entry>, at: nat, c: nat, a: string)
    requires Tokens(script, 0) == Some(toks) && at + 3 < |toks| && c < |es| && es[c] == Listed(a) && a != ""
    requires Run(WordsOf(toks[..at]), Start) == Fed(Start, es[..c]) && Run(WordsOf(toks[..at + 4]), Start) == Fed(Start, es[..c + 1])
    requires WordsOf(toks[..at + 4]) == WordsOf(toks[..at]) + TeamWords(a)
    ensures var start, end := toks[at].start, toks[at + 3].end;
      start < end <= |script| && RowOk(script, es, Row(a, start, end, LineInfo(script, start, end), c))
  {
    hide Run, Tokens, WordsOf, Hits, Front, LineInfo, Step, TeamWords, Stands, RowOk;
    TokenFacts(script, toks, at);
    TokenFacts(script, toks, at + 3);
    TokensOrdered(script, 0, at, at + 3);
    TokenStands(script, 0, at + 3);
    SemicolonAt(script, toks, at, a);
    assert toks[at + 3].start == toks[at + 3].end - 1;
    MakeRow(script, es, toks[at].start, toks[at + 3].end, c, a);
  }

  lemma MakeRow(s: string, es: seq<Entry>, start: nat, end: nat, c: nat, a: string)
    requires start < end <= |s| && c < |es| && es[c] == Listed(a) && a != ""
    requires Hits(s, start) && Run(Front(s, start), Start) == Fed(Start, es[..c]) && Step(s[start..]).Take?
    requires Hits(s, end) && Run(Front(s, end), Start) == Fed(Start, es[..c + 1]) && Front(s, end) == Front(s, start) + TeamWords(a)
    requires Hits(s, end - 1) && Step(s[end - 1..]).Take? && |Front(s, end - 1)| == |Front(s, start)| + 3
    ensures RowOk(s, es, Row(a, start, end, LineInfo(s, start, end), c))
  {
    hide Run, Hits, Front, LineInfo, Step, TeamWords;
  }

  lemma WordsLength(toks: seq<Token>, h: nat)
    requires h < |toks|
    ensures |WordsOf(toks[..h])| == h
  {}

  lemma TokenFacts(s: string, toks: seq<Token>, k: nat)
    requires Tokens(s, 0) == Some(toks) && k < |toks|
    ensures toks[k].start < toks[k].end <= |s|
    ensures Hits(s, toks[k].start) && Front(s, toks[k].start) == WordsOf(toks[..k]) && |Front(s, toks[k].start)| == k
    ensures Hits(s, toks[k].end) && Front(s, toks[k].end) == WordsOf(toks[..k + 1]) && Step(s[toks[k].start..]).Take?
  {
    hide Tokens, WordsOf, Hits, Front, Step;
    TokenStands(s, 0, k);
    WordsLength(toks, k);
  }

  lemma SemicolonAt(s: string, toks: seq<Token>, at: nat, a: string)
    requires at + 3 < |toks| && Stands(s, 0, toks, at + 3) && WordsOf(toks[..at + 4]) == WordsOf(toks[..at]) + TeamWords(a)
    ensures toks[at + 3].start == toks[at + 3].end - 1
  {
    hide Hits, Front;
    assert WordsOf(toks[..at + 4])[at + 3] == toks[at + 3].word && |WordsOf(toks[..at])| == at;
    assert toks[at + 3].word == TeamWords(a)[3];
  }

  lemma TeamWordsAt(toks: seq<Token>, cmds: seq<Command>, c: nat)
    requires AllPlaced(toks, cmds) && c < |cmds| && !cmds[c].block && TeamLine(cmds[c].words)
    ensures var at := cmds[c].at; at + 3 < |toks| && WordsOf(toks[..at + 4]) == WordsOf(toks[..at]) + TeamWords(cmds[c].words[2].value)
  {
    var at := cmds[c].at;
    assert Placed(toks, cmds[c], EntriesOf(cmds[..c]));
    assert toks[..at + 4] == toks[..at] + toks[at..at + 3] + [toks[at + 3]];
    assert WordsOf(toks[..at + 4]) == WordsOf(toks[..at]) + (WordsOf(toks[at..at + 3]) + [toks[at + 3].word]);
    var a := cmds[c].words[2].value;
    assert cmds[c].words == [Id(REDIRECT), Tag(COPY), Str(a, a)];
  }

  lemma TeamEntryAt(toks: seq<Token>, cmds: seq<Command>, c: nat)
    requires AllPlaced(toks, cmds) && c < |cmds| && !cmds[c].block && TeamLine(cmds[c].words)
    ensures c < |EntriesOf(cmds)| && EntriesOf(cmds)[c] == Listed(cmds[c].words[2].value) && cmds[c].words[2].value != ""
    ensures EntriesOf(cmds[..c]) == EntriesOf(cmds)[..c]
    ensures EntriesOf(cmds)[..c + 1] == EntriesOf(cmds[..c]) + [Listed(cmds[c].words[2].value)]
  {}

  lemma StandsAfter(s: string, at: nat, toks: seq<Token>, k: nat)
    requires k < |toks| && Stands(s, at, toks, k)
    ensures at <= toks[k].start < toks[k].end
  {
    hide Hits, Front, Step;
  }

  lemma {:induction false} TokensOrdered(s: string, at: nat, i: nat, j: nat)
    requires Tokens(s, at).Some? && i < j < |Tokens(s, at).value|
    ensures Tokens(s, at).value[i].end <= Tokens(s, at).value[j].start
    decreases |s|
  {
    hide Step, Stands;
    StepLength(s);
    var n := Step(s).n;
    var rest := Tokens(s[n..], at + n).value;
    if Step(s).Take? {
      if i == 0 {
        TokenStands(s[n..], at + n, j - 1);
        StandsAfter(s[n..], at + n, rest, j - 1);
      } else {
        TokensOrdered(s[n..], at + n, i - 1, j - 1);
      }
    } else {
      TokensOrdered(s[n..], at + n, i, j);
    }
  }

  predicate RowOf(cmd: Command, row: Row) { row.end == cmd.end && !cmd.block && TeamLine(cmd.words) }

  lemma NotTokenized(script: string)
    requires Tokenized(script).None?
    ensures Parsed(script).None?
  {
    TokensWords(script, 0);
    hide Run, StackRun, Tokens, Words;
    if Words(script).Some? && Run(Words(script).value, Start).Fed? { RunStack(Words(script).value, Start); }
  }

  lemma EmptyStart(es: seq<Entry>)
    ensures es[..0] == [] && Members([]) == [] && !StopperFirst([]) && Addresses([]) == []
  {}

  lemma EntryAt(toks: seq<Token>, cmds: seq<Command>, c: nat)
    requires AllPlaced(toks, cmds) && c < |cmds|
    ensures cmds[c].words != [] && cmds[c].words[0].Id? && |EntriesOf(cmds)| == |cmds|
    ensures EntriesOf(cmds)[c] == EntryOf(cmds[c].words, cmds[c].block)
  {}

  lemma MembersSnoc(es: seq<Entry>, e: Entry)
    ensures Members(es + [e]) == if e.Listed? then Members(es) + [e.address] else Members(es)
  {
    MembersConcat(es, [e]);
    assert Members([e][1..]) == [];
  }

  lemma StopperSnoc(es: seq<Entry>, e: Entry)
    ensures StopperFirst(es + [e]) == if e.Listed? then Stopper in es else StopperFirst(es)
    ensures Stopper in es + [e] <==> Stopper in es || e == Stopper
  {
    assert (es + [e])[..|es|] == es;
  }

  lemma ListedIsTeam(words: seq<Word>, block: bool)
    requires words != [] && words[0].Id? && EntryOf(words, block).Listed?
    ensures !block && TeamLine(words) && EntryOf(words, block).address == words[2].value
  {}

  lemma CommandsOrdered(script: string, toks: seq<Token>, cmds: seq<Command>, i: nat, c: nat)
    requires Tokens(script, 0) == Some(toks) && AllPlaced(toks, cmds) && i < c < |cmds| && Run(WordsOf(toks), Start).Fed?
    requires !cmds[i].block && TeamLine(cmds[i].words) && !cmds[c].block && TeamLine(cmds[c].words)
    ensures cmds[i].end <= cmds[c].start
  {
    hide Run, Tokens, AllPlaced, Hits, Front, Step, TeamLine;
    TeamPlaced(toks, cmds, i);
    TeamPlaced(toks, cmds, c);
    var a, b := cmds[i].at, cmds[c].at;
    EntryAt(toks, cmds, i);
    TeamAt(toks, cmds, i);
    TeamEntryAt(toks, cmds, c);
    TeamEntryAt(toks, cmds, i);
    if b <= a + 3 {
      assert WordsOf(toks[..a + 3]) == WordsOf(toks[..b]) + WordsOf(toks[b..a + 3]);
      RunConcat(WordsOf(toks[..b]), WordsOf(toks[b..a + 3]), Start);
    }
    assert b > a + 3;
    TokensOrdered(script, 0, a + 3, b);
  }

  lemma TeamAt(toks: seq<Token>, cmds: seq<Command>, i: nat)
    requires AllPlaced(toks, cmds) && i < |cmds| && !cmds[i].block && TeamLine(cmds[i].words) && Run(WordsOf(toks), Start).Fed?
    ensures var a := cmds[i].at; a + 3 < |toks| && Run(WordsOf(toks[..a + 3]), Start).Fed? && |Run(WordsOf(toks[..a + 3]), Start).done| == i
  {
    hide Run;
    TeamPlaced(toks, cmds, i);
    var a := cmds[i].at;
    assert Placed(toks, cmds[i], EntriesOf(cmds[..i]));
    TeamEntry(cmds[i].words);
    assert WordsOf(toks[..a + 3]) == WordsOf(toks[..a]) + cmds[i].words by { assert toks[..a + 3] == toks[..a] + toks[a..a + 3]; }
    RunConcat(WordsOf(toks[..a]), cmds[i].words, Start);
    ThreePlain(cmds[i].words, Start);
  }

  /** The members among the first `c` commands. */
  predicate Collected(script: string, es: seq<Entry>, cmds: seq<Command>, c: nat, rows: seq<Row>)
    requires c <= |cmds| == |es|
  {
    && Addresses(rows) == Members(es[..c])
    && (forall i {:trigger rows[i]} :: 0 <= i < |rows| ==> Entered(script, es, cmds, c, rows, i))
    && InOrder(rows)
  }

  predicate Entered(script: string, es: seq<Entry>, cmds: seq<Command>, c: nat, rows: seq<Row>, i: nat)
    requires c <= |cmds| == |es| && i < |rows|
  {
    rows[i].entry < c && RowOf(cmds[rows[i].entry], rows[i]) && RowOk(script, es, rows[i]) && Members(es[..rows[i].entry]) == Addresses(rows[..i])
  }

  predicate InOrder(rows: seq<Row>) {
    forall i, j {:trigger rows[i], rows[j]} :: 0 <= i < j < |rows| ==> rows[i].end <= rows[j].start && rows[i].entry < rows[j].entry
  }

  lemma CollectedAll(script: string, es: seq<Entry>, cmds: seq<Command>, rows: seq<Row>)
    requires |cmds| == |es| && Collected(script, es, cmds, |cmds|, rows)
    ensures RowsOk(script, es, rows)
  {
    hide RowOk, RowOf, Members, Addresses, InOrder;
    assert es[..|cmds|] == es;
    forall i | 0 <= i < |rows| ensures RowOk(script, es, rows[i]) && rows[i].entry <= |es| && Members(es[..rows[i].entry]) == Addresses(rows[..i]) {
      assert rows[i] == rows[i] && Entered(script, es, cmds, |cmds|, rows, i);
    }
  }

  lemma CollectOther(script: string, es: seq<Entry>, cmds: seq<Command>, c: nat, rows: seq<Row>)
    requires c < |cmds| == |es| && Collected(script, es, cmds, c, rows) && !es[c].Listed?
    ensures Collected(script, es, cmds, c + 1, rows)
  {
    hide RowOk, RowOf, Members, Addresses, InOrder;
    assert es[..c + 1] == es[..c] + [es[c]];
    MembersSnoc(es[..c], es[c]);
    var next := c + 1;
    forall i | 0 <= i < |rows| ensures Entered(script, es, cmds, next, rows, i) {
      assert rows[i] == rows[i] && Entered(script, es, cmds, c, rows, i);
    }
  }

  lemma CollectMember(script: string, toks: seq<Token>, cmds: seq<Command>, c: nat, rows: seq<Row>, row: Row)
    requires Tokens(script, 0) == Some(toks) && AllPlaced(toks, cmds) && Run(WordsOf(toks), Start).Fed? && c < |cmds| == |EntriesOf(cmds)|
    requires Collected(script, EntriesOf(cmds), cmds, c, rows)
    requires RowOk(script, EntriesOf(cmds), row) && row.start == cmds[c].start && row.entry == c && RowOf(cmds[c], row)
    ensures Collected(script, EntriesOf(cmds), cmds, c + 1, rows + [row])
  {
    hide Run, Tokens, Placed, TeamLine, EntriesOf, Members, Addresses, RowOk;
    RowsBelow(script, EntriesOf(cmds), cmds, c, rows);
    forall i | 0 <= i < |rows| ensures rows[i].end <= row.start {
      CommandsOrdered(script, toks, cmds, rows[i].entry, c);
    }
    hide AllPlaced, WordsOf;
    AppendRow(script, EntriesOf(cmds), cmds, c, rows, row);
  }

  lemma AppendRow(script: string, es: seq<Entry>, cmds: seq<Command>, c: nat, rows: seq<Row>, row: Row)
    requires c < |cmds| == |es| && Collected(script, es, cmds, c, rows)
    requires RowOk(script, es, row) && row.entry == c && RowOf(cmds[c], row) && forall i {:trigger rows[i]} :: 0 <= i < |rows| ==> rows[i].end <= row.start
    ensures Collected(script, es, cmds, c + 1, rows + [row])
  {
    hide Members, RowOf, Addresses, Entered, InOrder, Collected, RowOk;
    var more := rows + [row];
    CollectedParts(script, es, cmds, c, rows);
    RowListed(script, es, row);
    assert es[..c + 1] == es[..c] + [es[c]];
    MembersSnoc(es[..c], es[c]);
    AddressesSnoc(rows, row);
    var next := c + 1;
    forall i | 0 <= i < |more| ensures Entered(script, es, cmds, next, more, i) {
      if i < |rows| {
        assert more[i] == rows[i];
        EnteredStill(script, es, cmds, c, rows, row, i);
      } else {
        EnteredLast(script, es, cmds, c, rows, row);
      }
    }
    RowsBelow(script, es, cmds, c, rows);
    InOrderSnoc(rows, row);
    CollectedMade(script, es, cmds, next, more);
  }

  lemma CollectedParts(script: string, es: seq<Entry>, cmds: seq<Command>, c: nat, rows: seq<Row>)
    requires c <= |cmds| == |es| && Collected(script, es, cmds, c, rows)
    ensures Addresses(rows) == Members(es[..c]) && InOrder(rows)
    ensures forall i {:trigger rows[i]} :: 0 <= i < |rows| ==> Entered(script, es, cmds, c, rows, i)
  {
    hide Members, Addresses, RowOk, RowOf, InOrder;
    forall i | 0 <= i < |rows| ensures Entered(script, es, cmds, c, rows, i) { assert rows[i] == rows[i]; }
  }

  lemma CollectedMade(script: string, es: seq<Entry>, cmds: seq<Command>, c: nat, rows: seq<Row>)
    requires c <= |cmds| == |es| && Addresses(rows) == Members(es[..c]) && InOrder(rows)
    requires forall i {:trigger rows[i]} :: 0 <= i < |rows| ==> Entered(script, es, cmds, c, rows, i)
    ensures Collected(script, es, cmds, c, rows)
  {
    hide Members, Addresses, RowOk, RowOf, InOrder;
    forall i | 0 <= i < |rows| ensures Entered(script, es, cmds, c, rows, i) { assert rows[i] == rows[i]; }
  }

  lemma RowListed(script: string, es: seq<Entry>, row: Row)
    requires RowOk(script, es, row)
    ensures row.entry < |es| && es[row.entry] == Listed(row.address)
  {}

  lemma InOrderSnoc(rows: seq<Row>, row: Row)
    requires InOrder(rows) && forall i {:trigger rows[i]} :: 0 <= i < |rows| ==> rows[i].end <= row.start && rows[i].entry < row.entry
    ensures InOrder(rows + [row])
  {
    var more := rows + [row];
    assert more[|rows|] == row && forall i :: 0 <= i < |rows| ==> more[i] == rows[i];
  }

  lemma RowsBelow(script: string, es: seq<Entry>, cmds: seq<Command>, c: nat, rows: seq<Row>)
    requires c <= |cmds| == |es| && Collected(script, es, cmds, c, rows)
    ensures forall i {:trigger rows[i]} :: 0 <= i < |rows| ==> rows[i].entry < c && RowOf(cmds[rows[i].entry], rows[i])
  {
    hide RowOk, RowOf, Members, Addresses;
    forall i | 0 <= i < |rows| ensures rows[i].entry < c && RowOf(cmds[rows[i].entry], rows[i]) {
      assert rows[i] == rows[i] && Entered(script, es, cmds, c, rows, i);
    }
  }

  lemma AddressesSnoc(rows: seq<Row>, row: Row)
    ensures Addresses(rows + [row]) == Addresses(rows) + [row.address]
  {}

  lemma EnteredStill(script: string, es: seq<Entry>, cmds: seq<Command>, c: nat, rows: seq<Row>, row: Row, i: nat)
    requires c < |cmds| == |es| && i < |rows| && Entered(script, es, cmds, c, rows, i)
    ensures Entered(script, es, cmds, c + 1, rows + [row], i)
  {
    hide RowOk, RowOf, Members, Addresses;
    assert (rows + [row])[i] == rows[i] && (rows + [row])[..i] == rows[..i];
  }

  lemma EnteredLast(script: string, es: seq<Entry>, cmds: seq<Command>, c: nat, rows: seq<Row>, row: Row)
    requires c < |cmds| == |es| && Addresses(rows) == Members(es[..c]) && row.entry == c && RowOf(cmds[c], row) && RowOk(script, es, row)
    ensures Entered(script, es, cmds, c + 1, rows + [row], |rows|)
  {
    hide RowOk, RowOf, Members, Addresses;
    assert (rows + [row])[|rows|] == row && (rows + [row])[..|rows|] == rows;
  }

  /** analyze: which commands are members, and where. */
  method Analyze(script: string) returns (r: Analysis)
    ensures r.parsed <==> Parsed(script).Some?
    ensures r.parsed ==> RowsOk(script, Parsed(script).value, r.rows) && r.stopperBeforeMember == StopperFirst(Parsed(script).value)
    ensures !r.parsed ==> r.rows == []
  {
    hide Run, Tokens, WordsOf, Words, LineInfo, Placed, RowOk, StopperFirst, StackRun;
    var toks := Tokenize(script);
    TokensWords(script, 0);
    if toks.None? {
      NotTokenized(script);
      return Analysis(false, [], false);
    }
    var cmds := Commands(toks.value);
    if cmds.None? {
      return Analysis(false, [], false);
    }
    ghost var es := EntriesOf(cmds.value);
    var rows: seq<Row> := [];
    var stopped, before := false, false;
    EmptyStart(es);
    hide EntriesOf, Members, Addresses;
    for c := 0 to |cmds.value|
      invariant |es| == |cmds.value| && Collected(script, es, cmds.value, c, rows)
      invariant stopped == (Stopper in es[..c]) && before == StopperFirst(es[..c])
    {
      var cmd := cmds.value[c];
      EntryAt(toks.value, cmds.value, c);
      assert es[..c + 1] == es[..c] + [es[c]];
      StopperSnoc(es[..c], es[c]);
      var entry := EntryOf(cmd.words, cmd.block);
      if entry.Listed? {
        ListedIsTeam(cmd.words, cmd.block);
        CommandRow(script, toks.value, cmds.value, c);
        var row := Row(entry.address, cmd.start, cmd.end, LineInfo(script, cmd.start, cmd.end), c);
        CollectMember(script, toks.value, cmds.value, c, rows, row);
        before := stopped;
        rows := rows + [row];
      } else {
        CollectOther(script, es, cmds.value, c, rows);
        if entry == Stopper {
          stopped := true;
        }
      }
    }
    assert es[..|cmds.value|] == es;
    CollectedAll(script, es, cmds.value, rows);
    r := Analysis(true, rows, before);
  }

  // ---------- simple lines ----------

  /** On a simple member line everything before the line and after it can be kept. */
  lemma SimpleRow(s: string, es: seq<Entry>, row: Row)
    requires RowOk(s, es, row) && row.line.simple && Parsed(s) == Some(es)
    ensures row.line.lineStart <= row.start && row.end <= row.line.termEnd <= |s|
    ensures Boundary(s, row.line.lineStart, es[..row.entry])
    ensures row.line.term != "" ==> Boundary(s, row.line.termEnd, es[..row.entry + 1])
    ensures row.line.term == "" ==> row.line.termEnd == |s| && row.entry + 1 == |es|
  {
    hide Hits, Front, Run, Words, LineInfo;
    LineStops(s, row.start, row.end);
    if row.line.term == "" {
      WordsSplit(s, |s|);
      assert s[|s|..] == "";
      NothingLeft(s, es, es[..row.entry + 1]);
    }
  }

  lemma NothingLeft(s: string, es: seq<Entry>, read: seq<Entry>)
    requires Parsed(s) == Some(es) && Hits(s, |s|) && Run(Front(s, |s|), Start) == Fed(Start, read)
    ensures es == read
  {
    hide Run;
    WordsHits(s);
  }

  lemma {:induction false} FrontGrows(s: string, a: nat, b: nat)
    requires Hits(s, a) && Hits(s, b) && a <= b
    ensures |Front(s, a)| <= |Front(s, b)|
    decreases a
  {
    hide Step;
    if a > 0 { FrontGrows(s[Step(s).n..], a - Step(s).n, b - Step(s).n); }
  }

  /** Simple member lines do not overlap with later members. */
  lemma RowsApart(s: string, es: seq<Entry>, a: Row, b: Row)
    requires RowOk(s, es, a) && RowOk(s, es, b) && a.line.simple && a.end <= b.start
    ensures a.line.term != "" && a.line.termEnd <= b.line.lineStart
  {
    hide Hits, Front, Run;
    LineStops(s, a.start, a.end);
    if b.start < a.line.termEnd {
      TokenBefore(s, b.start, a.line.termEnd);
      FrontGrows(s, a.end, b.start);
    }
  }

  // ---------- replacing lines ----------

  /** What is left of the edited text behind an original position. */
  function After(next: string, at: nat): string { if at <= |next| then next[at..] else "" }

  /** An edit of a simple line, with everything behind it edited already. */
  lemma ReplaceLine(s: string, es: seq<Entry>, row: Row, next: string, k: nat, tail: seq<Entry>, text: string, put: seq<Entry>)
    requires Parsed(s) == Some(es) && RowOk(s, es, row) && row.line.simple && row.entry < k <= |es|
    requires Parsed(next) == Some(es[..k] + tail)
    requires if row.line.termEnd <= |next| then next[..row.line.termEnd] == s[..row.line.termEnd] else row.entry + 1 == k && tail == []
    requires row.line.term == "" ==> next == s && k == |es| && tail == []
    requires Parsed(text + After(next, row.line.termEnd)) == Cat(put, Parsed(After(next, row.line.termEnd)))
    ensures row.line.lineStart <= |s|
    ensures Parsed(s[..row.line.lineStart] + (text + After(next, row.line.termEnd))) == Some(es[..row.entry] + put + (es[row.entry + 1..k] + tail))
  {
    hide Boundary, Parsed, LineInfo, Hits, Front, Run;
    var u, e := After(next, row.line.termEnd), row.entry;
    SimpleRow(s, es, row);
    assert Parsed(u) == Some(es[e + 1..k] + tail) by { RestParsed(s, es, row, next, k, tail); }
    Replace(s, row.line.lineStart, es[..e], text + u);
    CatCat(es[..e], put, Parsed(u));
  }

  lemma RestParsed(s: string, es: seq<Entry>, row: Row, next: string, k: nat, tail: seq<Entry>)
    requires row.entry < k <= |es| && Parsed(next) == Some(es[..k] + tail) && row.line.termEnd <= |s|
    requires row.line.term != "" ==> Boundary(s, row.line.termEnd, es[..row.entry + 1])
    requires row.line.term == "" ==> row.line.termEnd == |s| && row.entry + 1 == |es| && next == s && k == |es| && tail == []
    requires if row.line.termEnd <= |next| then next[..row.line.termEnd] == s[..row.line.termEnd] else row.entry + 1 == k && tail == []
    ensures Parsed(After(next, row.line.termEnd)) == Some(es[row.entry + 1..k] + tail)
  {
    hide Boundary, Parsed;
    var at, e := row.line.termEnd, row.entry;
    NoCommands();
    if at > |next| || row.line.term == "" {
      assert After(next, at) == "" && es[e + 1..k] + tail == [];
    } else {
      var u := next[at..];
      assert next == s[..at] + u;
      Replace(s, at, es[..e + 1], u);
      assert es[..k] + tail == es[..e + 1] + (es[e + 1..k] + tail);
      CatCancel(es[..e + 1], es[e + 1..k] + tail, Parsed(u));
    }
  }

  lemma NoCommands()
    ensures Parsed("") == Some([])
  {}

  lemma CatCancel<T>(a: seq<T>, b: seq<T>, c: Option<seq<T>>)
    requires Cat(a, c) == Some(a + b)
    ensures c == Some(b)
  {
    assert (a + c.value)[|a|..] == c.value && (a + b)[|a|..] == b;
  }

  // ---------- addresses ----------

  predicate LocalChar(c: char) { Letter(c) || Digit(c) || c == '.' || c == '_' || c == '%' || c == '+' || c == '-' }

  predicate DomainChar(c: char) { Letter(c) || Digit(c) || c == '.' || c == '-' }

  /** addressPattern: the only addresses the editor writes. */
  predicate AddressOk(a: string) {
    var at := Find(a, '@', 0);
    0 < at < |a| - 1 && (forall i :: 0 <= i < at ==> LocalChar(a[i])) && forall i :: at < i < |a| ==> DomainChar(a[i])
  }

  lemma AddressPlain(a: string)
    requires AddressOk(a)
    ensures Plain(a)
  {}

  function FoldAll(fold: string -> string, xs: seq<string>): seq<string> { seq(|xs|, i requires 0 <= i < |xs| => fold(xs[i])) }

  lemma FoldConcat(fold: string -> string, a: seq<string>, b: seq<string>)
    ensures FoldAll(fold, a + b) == FoldAll(fold, a) + FoldAll(fold, b)
  {}

  datatype Why = InvalidAddress | Unparseable | NotTeam | StopperBeforeMember | LineNotSimple | LastMember | NotMember
               | UnsupportedRedirect | SelfCheckFailed

  datatype Outcome = Refused(why: Why) | Done(script: string, changed: bool)

  /** check: re-analyse the edited script and compare its member list. */
  method Check(fold: string -> string, script: string, expected: seq<string>) returns (ok: bool)
    ensures ok <==> Parsed(script).Some? && FoldAll(fold, Members(Parsed(script).value)) == expected
  {
    hide Parsed, RowOk, Members;
    var analysis := Analyze(script);
    ok := analysis.parsed && FoldAll(fold, Addresses(analysis.rows)) == expected;
  }
}
