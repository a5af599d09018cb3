/** Removing members. */
module SieveRemove {
  import opened Options
  import opened SieveLex
  import opened SieveCommands
  import opened SieveAnalysis
  import opened SieveEdits
  import opened SieveTeam
  import opened SieveAdd

  /** The commands without the members whose folded address is in `gone`. */
  function Drop(fold: string -> string, gone: set<string>, es: seq<Entry>): seq<Entry> {
    if es == [] then []
    else if es[0].Listed? && fold(es[0].address) in gone then Drop(fold, gone, es[1..])
    else [es[0]] + Drop(fold, gone, es[1..])
  }

  lemma {:induction false} DropConcat(fold: string -> string, gone: set<string>, a: seq<Entry>, b: seq<Entry>)
    ensures Drop(fold, gone, a + b) == Drop(fold, gone, a) + Drop(fold, gone, b)
  {
    if a == [] {
      assert a + b == b;
    } else {
      assert (a + b)[1..] == a[1..] + b;
      DropConcat(fold, gone, a[1..], b);
    }
  }

  lemma {:induction false} DropNothing(fold: string -> string, gone: set<string>, es: seq<Entry>)
    requires Members(es) == []
    ensures Drop(fold, gone, es) == es
  {
    if es != [] { DropNothing(fold, gone, es[1..]); }
  }

  /** Removing members filters the member list. */
  function Without(gone: set<string>, xs: seq<string>): seq<string> {
    if xs == [] then [] else if xs[0] in gone then Without(gone, xs[1..]) else [xs[0]] + Without(gone, xs[1..])
  }

  lemma {:induction false} DropMembers(fold: string -> string, gone: set<string>, es: seq<Entry>)
    ensures FoldAll(fold, Members(Drop(fold, gone, es))) == Without(gone, FoldAll(fold, Members(es)))
  {
    if es != [] {
      DropMembers(fold, gone, es[1..]);
      var rest := Drop(fold, gone, es[1..]);
      if es[0].Listed? {
        FoldCons(fold, es[0].address, Members(es[1..]));
        if fold(es[0].address) !in gone {
          assert ([es[0]] + rest)[1..] == rest;
          FoldCons(fold, es[0].address, Members(rest));
        }
      } else {
        assert ([es[0]] + rest)[1..] == rest;
      }
    }
  }

  lemma FoldCons(fold: string -> string, x: string, xs: seq<string>)
    ensures FoldAll(fold, [x] + xs) == [fold(x)] + FoldAll(fold, xs) && ([x] + xs)[1..] == xs
    ensures ([fold(x)] + FoldAll(fold, xs))[1..] == FoldAll(fold, xs)
  {}

  function EntryFrom(es: seq<Entry>, rows: seq<Row>, i: nat): nat
    requires i <= |rows|
  {
    if i < |rows| then rows[i].entry else |es|
  }

  /** Between two members there is none. */
  lemma Gap(s: string, es: seq<Entry>, rows: seq<Row>, i: nat)
    requires RowsOk(s, es, rows) && i < |rows|
    ensures rows[i].entry + 1 <= EntryFrom(es, rows, i + 1) <= |es|
    ensures Members(es[rows[i].entry + 1..EntryFrom(es, rows, i + 1)]) == []
  {
    hide Members, RowsOk, Addresses;
    UpToRow(s, es, rows, i);
    var e, q := rows[i].entry, EntryFrom(es, rows, i + 1);
    if i + 1 < |rows| {
      RowFacts(s, es, rows, i + 1);
      EntriesGrow(s, es, rows, i);
      assert es[..q] == es[..e + 1] + es[e + 1..q];
      MembersConcat(es[..e + 1], es[e + 1..q]);
      NoMembers(Addresses(rows[..i + 1]), Members(es[e + 1..q]));
    } else {
      LastRow(s, es, rows);
      assert es[e + 1..q] == es[e + 1..];
    }
  }

  lemma EntriesGrow(s: string, es: seq<Entry>, rows: seq<Row>, i: nat)
    requires RowsOk(s, es, rows) && i + 1 < |rows|
    ensures rows[i].entry < rows[i + 1].entry
  {
    hide Members, Addresses, RowOk;
  }

  /** How the edited text still agrees with the script in front of `cut`, where the line of the last
      edited member started; or the line end before it has gone, too. */
  predicate Agrees(s: string, es: seq<Entry>, next: string, cut: nat, k: nat, tail: seq<Entry>) {
    k <= |es| && ((next == s && k == |es| && tail == [] && cut == |s|) || (Boundary(s, cut, es[..k]) && (Intact(s, next, cut) || (Chopped(s, next, cut) && tail == []))))
  }

  predicate Intact(s: string, next: string, cut: nat) { cut <= |next| && cut <= |s| && next[..cut] == s[..cut] }

  predicate Chopped(s: string, next: string, cut: nat) {
    cut <= |s| && |next| <= |s| && next == s[..|next|] && (|next| + 1 == cut || (|next| + 2 == cut && s[|next|] == '\r'))
  }

  /** The members from the i-th on have been dealt with; up to the k-th command nothing was changed. */
  ghost predicate Pruned(fold: string -> string, gone: set<string>, s: string, es: seq<Entry>, rows: seq<Row>, i: nat, next: string, cut: nat, k: nat)
    requires i <= |rows|
  {
    && EntryFrom(es, rows, i) <= k <= |es|
    && Parsed(next) == Some(es[..k] + Drop(fold, gone, es[k..]))
    && Drop(fold, gone, es[EntryFrom(es, rows, i)..k]) == es[EntryFrom(es, rows, i)..k]
    && Agrees(s, es, next, cut, k, Drop(fold, gone, es[k..]))
    && ((next == s && k == |es| && cut == |s|) || exists j :: i <= j < |rows| && cut == rows[j].line.lineStart && k == rows[j].entry)
  }

  lemma PrunedStart(fold: string -> string, gone: set<string>, s: string, es: seq<Entry>, rows: seq<Row>)
    requires Parsed(s) == Some(es)
    ensures Pruned(fold, gone, s, es, rows, |rows|, s, |s|, |es|)
  {
    hide Parsed, Boundary;
    assert es[..|es|] == es && es[|es|..] == [] && es + [] == es;
  }

  /** A member that stays. */
  lemma PrunedKeep(fold: string -> string, gone: set<string>, s: string, es: seq<Entry>, rows: seq<Row>, i: nat, next: string, cut: nat, k: nat)
    requires i < |rows| && RowsOk(s, es, rows) && Pruned(fold, gone, s, es, rows, i + 1, next, cut, k) && fold(rows[i].address) !in gone
    ensures Pruned(fold, gone, s, es, rows, i, next, cut, k)
  {
    hide Parsed, Agrees, RowsOk, Members, Drop;
    Gap(s, es, rows, i);
    UpToRow(s, es, rows, i);
    KeepEntries(fold, gone, es, rows[i].entry, EntryFrom(es, rows, i + 1), k);
  }

  lemma KeepEntries(fold: string -> string, gone: set<string>, es: seq<Entry>, e: nat, q: nat, k: nat)
    requires e < q <= k <= |es| && Members(es[e + 1..q]) == [] && Drop(fold, gone, es[q..k]) == es[q..k]
    ensures Drop(fold, gone, es[e + 1..k]) == es[e + 1..k]
    ensures !(es[e].Listed? && fold(es[e].address) in gone) ==> Drop(fold, gone, es[e..k]) == es[e..k]
  {
    DropNothing(fold, gone, es[e + 1..q]);
    assert es[e + 1..k] == es[e + 1..q] + es[q..k];
    DropConcat(fold, gone, es[e + 1..q], es[q..k]);
    assert es[e..k][0] == es[e] && es[e..k][1..] == es[e + 1..k];
  }

  /** A member that goes: what ReplaceLine needs, and what the commands become. */
  lemma PrunedReady(fold: string -> string, gone: set<string>, s: string, es: seq<Entry>, rows: seq<Row>, i: nat, next: string, cut: nat, k: nat)
    requires i < |rows| && Parsed(s) == Some(es) && RowsOk(s, es, rows) && Pruned(fold, gone, s, es, rows, i + 1, next, cut, k) && rows[i].line.simple
    ensures rows[i].entry < k <= |es| && rows[i].line.termEnd <= |s| && Parsed(next) == Some(es[..k] + Drop(fold, gone, es[k..]))
    ensures Drop(fold, gone, es[rows[i].entry + 1..]) == es[rows[i].entry + 1..k] + Drop(fold, gone, es[k..])
    ensures if rows[i].line.termEnd <= |next| then next[..rows[i].line.termEnd] == s[..rows[i].line.termEnd]
            else rows[i].entry + 1 == k && Drop(fold, gone, es[k..]) == []
    ensures rows[i].line.term == "" ==> next == s && k == |es| && Drop(fold, gone, es[k..]) == []
  {
    hide Parsed, RowsOk, Members, Drop, RowOk, Boundary;
    var a := rows[i];
    Gap(s, es, rows, i);
    RowFacts(s, es, rows, i);
    KeepEntries(fold, gone, es, a.entry, EntryFrom(es, rows, i + 1), k);
    assert es[a.entry + 1..] == es[a.entry + 1..k] + es[k..];
    DropConcat(fold, gone, es[a.entry + 1..k], es[k..]);
    SimpleRow(s, es, a);
    RowEntry(s, es, a);
    if next == s && k == |es| && cut == |s| {
      assert es[k..] == [] && Drop(fold, gone, []) == [] by { DropNone(fold, gone); }
    } else {
      var j :| i + 1 <= j < |rows| && cut == rows[j].line.lineStart && k == rows[j].entry;
      RowFacts(s, es, rows, j);
      RowsInOrder(s, es, rows, i, j);
      RowsApart(s, es, a, rows[j]);
      Cutting(s, es, a, next, cut, k, Drop(fold, gone, es[k..]));
    }
  }

  lemma DropNone(fold: string -> string, gone: set<string>)
    ensures Drop(fold, gone, []) == []
  {}

  lemma RowsInOrder(s: string, es: seq<Entry>, rows: seq<Row>, i: nat, j: nat)
    requires RowsOk(s, es, rows) && i < j < |rows|
    ensures rows[i].end <= rows[j].start && rows[i].entry < rows[j].entry
  {
    hide Members, Addresses, RowOk;
  }

  lemma Cutting(s: string, es: seq<Entry>, a: Row, next: string, cut: nat, k: nat, tail: seq<Entry>)
    requires Agrees(s, es, next, cut, k, tail) && a.line.termEnd <= cut && a.entry < k && Boundary(s, a.line.termEnd, es[..a.entry + 1]) && a.line.termEnd > 0
    requires next == s || Boundary(s, cut, es[..k])
    ensures if a.line.termEnd <= |next| then next[..a.line.termEnd] == s[..a.line.termEnd] else a.entry + 1 == k && tail == []
  {
    hide Hits, Front, Run;
    var at := a.line.termEnd;
    assert s[at - 1] == '\n';
    if Intact(s, next, cut) {
      assert next[..at] == next[..cut][..at] && s[..at] == s[..cut][..at];
    } else if next != s {
      assert Chopped(s, next, cut) && tail == [];
      if at > |next| {
        assert at == cut;
        assert es[..a.entry + 1] == es[..k];
        assert |es[..a.entry + 1]| == a.entry + 1;
      } else {
        assert next[..at] == s[..at];
      }
    }
  }

  /** Where the removal of a line starts: the last line takes the line end before it along. */
  function RemoveFrom(next: string, line: Line): nat
    requires line.lineStart <= |next|
  {
    var at := line.lineStart;
    if line.term != "" || at == 0 then at
    else if at >= 2 && next[at - 2..at] == "\r\n" then at - 2 else at - 1
  }

  lemma TermBehind(s: string, start: nat, end: nat)
    requires start <= end <= |s| && LineInfo(s, start, end).term != ""
    ensures end < LineInfo(s, start, end).termEnd
  {}

  /** In front of a line still to be edited the text is the original one. */
  lemma Head(fold: string -> string, gone: set<string>, s: string, es: seq<Entry>, rows: seq<Row>, i: nat, next: string, cut: nat, k: nat)
    requires i < |rows| && Parsed(s) == Some(es) && RowsOk(s, es, rows) && Pruned(fold, gone, s, es, rows, i + 1, next, cut, k) && rows[i].line.simple
    ensures rows[i].line.lineStart <= |next| && next[..rows[i].line.lineStart] == s[..rows[i].line.lineStart]
  {
    hide Parsed, RowsOk, Members, Drop, RowOk, Boundary;
    var a := rows[i];
    PrunedReady(fold, gone, s, es, rows, i, next, cut, k);
    RowFacts(s, es, rows, i);
    RowEntry(s, es, a);
    SimpleRow(s, es, a);
    if a.line.termEnd <= |next| {
      assert next[..a.line.lineStart] == next[..a.line.termEnd][..a.line.lineStart];
    } else {
      TermBehind(s, a.start, a.end);
      var j :| i + 1 <= j < |rows| && cut == rows[j].line.lineStart && k == rows[j].entry;
      RowFacts(s, es, rows, j);
      RowsInOrder(s, es, rows, i, j);
      RowsApart(s, es, a, rows[j]);
    }
  }

  lemma BoundaryLine(s: string, at: nat, before: seq<Entry>)
    requires Boundary(s, at, before)
    ensures at <= |s| && (at > 0 ==> s[at - 1] == '\n')
  {}

  lemma PrunedMade(fold: string -> string, gone: set<string>, s: string, es: seq<Entry>, rows: seq<Row>, i: nat, next: string)
    requires i < |rows| && rows[i].entry <= |es| && Parsed(next) == Some(es[..rows[i].entry] + Drop(fold, gone, es[rows[i].entry..]))
    requires Boundary(s, rows[i].line.lineStart, es[..rows[i].entry])
    requires Intact(s, next, rows[i].line.lineStart) || (Chopped(s, next, rows[i].line.lineStart) && Drop(fold, gone, es[rows[i].entry..]) == [])
    ensures Pruned(fold, gone, s, es, rows, i, next, rows[i].line.lineStart, rows[i].entry)
  {
    hide Parsed, Boundary;
    assert es[rows[i].entry..rows[i].entry] == [];
  }

  /** Dropping a line end and what it closes keeps the commands. */
  lemma ChopParsed(s: string, at: nat)
    requires 0 < at <= |s| && s[at - 1] == '\n'
    ensures Parsed(s[..at - 1]) == Parsed(s[..at])
    ensures at >= 2 && s[at - 2] == '\r' ==> Parsed(s[..at - 2]) == Parsed(s[..at])
  {
    hide Parsed;
    assert s[..at] == s[..at - 1] + ['\n'];
    ParsedMore(s[..at - 1], '\n');
    if at >= 2 && s[at - 2] == '\r' {
      assert s[..at - 1] == s[..at - 2] + ['\r'];
      ParsedMore(s[..at - 2], '\r');
    }
  }

  lemma DropHit(fold: string -> string, gone: set<string>, es: seq<Entry>, e: nat)
    requires e < |es| && es[e].Listed? && fold(es[e].address) in gone
    ensures Drop(fold, gone, es[e..]) == Drop(fold, gone, es[e + 1..]) && Drop(fold, gone, es[e..e]) == es[e..e]
  {
    assert es[e..][0] == es[e] && es[e..][1..] == es[e + 1..];
  }

  /** The line of a member is taken out, the line end in front of it left alone. */
  lemma PrunedDrop(fold: string -> string, gone: set<string>, s: string, es: seq<Entry>, rows: seq<Row>, i: nat, next: string, cut: nat, k: nat)
    requires i < |rows| && Parsed(s) == Some(es) && RowsOk(s, es, rows) && Pruned(fold, gone, s, es, rows, i + 1, next, cut, k)
    requires rows[i].line.simple && fold(rows[i].address) in gone
    ensures rows[i].line.lineStart <= |next|
    ensures Pruned(fold, gone, s, es, rows, i, next[..rows[i].line.lineStart] + After(next, rows[i].line.termEnd), rows[i].line.lineStart, rows[i].entry)
  {
    hide Parsed, RowsOk, Members, Drop, RowOk, Boundary, Agrees, Pruned, LineInfo;
    var a := rows[i];
    var at, e := a.line.lineStart, a.entry;
    PrunedReady(fold, gone, s, es, rows, i, next, cut, k);
    RowFacts(s, es, rows, i);
    RowEntry(s, es, a);
    SimpleRow(s, es, a);
    Head(fold, gone, s, es, rows, i, next, cut, k);
    assert "" + After(next, a.line.termEnd) == After(next, a.line.termEnd);
    CatNone(Parsed(After(next, a.line.termEnd)));
    ReplaceLine(s, es, a, next, k, Drop(fold, gone, es[k..]), "", []);
    DropHit(fold, gone, es, e);
    assert es[..e] + [] + (es[e + 1..k] + Drop(fold, gone, es[k..])) == es[..e] + Drop(fold, gone, es[e..]);
    var next' := next[..at] + After(next, a.line.termEnd);
    assert next' == s[..at] + After(next, a.line.termEnd) && next'[..at] == s[..at];
    PrunedMade(fold, gone, s, es, rows, i, next');
  }

  lemma PrunedRemove(fold: string -> string, gone: set<string>, s: string, es: seq<Entry>, rows: seq<Row>, i: nat, next: string, cut: nat, k: nat)
    requires i < |rows| && Parsed(s) == Some(es) && RowsOk(s, es, rows) && Pruned(fold, gone, s, es, rows, i + 1, next, cut, k)
    requires rows[i].line.simple && fold(rows[i].address) in gone
    ensures rows[i].line.lineStart <= |next| && RemoveFrom(next, rows[i].line) <= |next|
    ensures Pruned(fold, gone, s, es, rows, i, next[..RemoveFrom(next, rows[i].line)] + After(next, rows[i].line.termEnd), rows[i].line.lineStart, rows[i].entry)
  {
    hide Parsed, RowsOk, Members, Drop, RowOk, Boundary, Agrees, Pruned, LineInfo;
    var a := rows[i];
    var at, e := a.line.lineStart, a.entry;
    PrunedDrop(fold, gone, s, es, rows, i, next, cut, k);
    if a.line.term == "" && at > 0 {
      PrunedReady(fold, gone, s, es, rows, i, next, cut, k);
      RowFacts(s, es, rows, i);
      SimpleRow(s, es, a);
      DropHit(fold, gone, es, e);
      assert s[at - 1] == '\n' by { BoundaryLine(s, at, es[..e]); }
      assert After(next, a.line.termEnd) == "" && next[..at] + After(next, a.line.termEnd) == s[..at];
      PrunedParsed(fold, gone, s, es, rows, i, s[..at]);
      ChopParsed(s, at);
      assert at >= 2 ==> (next[at - 2..at] == "\r\n" <==> s[at - 2] == '\r');
      var next' := next[..RemoveFrom(next, a.line)] + After(next, a.line.termEnd);
      assert next' == s[..RemoveFrom(next, a.line)];
      assert es[e + 1..k] == [] && Drop(fold, gone, es[e..]) == [];
      PrunedMade(fold, gone, s, es, rows, i, next');
    }
  }

  lemma PrunedParsed(fold: string -> string, gone: set<string>, s: string, es: seq<Entry>, rows: seq<Row>, i: nat, next: string)
    requires i < |rows| && Pruned(fold, gone, s, es, rows, i, next, rows[i].line.lineStart, rows[i].entry)
    ensures rows[i].entry <= |es| && Parsed(next) == Some(es[..rows[i].entry] + Drop(fold, gone, es[rows[i].entry..]))
  {
    hide Parsed, Agrees, Drop;
  }

  /** The text after the members from the i-th on have been dealt with. */
  function RemoveText(fold: string -> string, target: string, s: string, rows: seq<Row>, i: nat): string
    requires i <= |rows|
    decreases |rows| - i
  {
    if i == |rows| then s
    else
      var next, line := RemoveText(fold, target, s, rows, i + 1), rows[i].line;
      if fold(rows[i].address) == target && line.lineStart <= |next| then next[..RemoveFrom(next, line)] + After(next, line.termEnd) else next
  }

  /** What removeMember answers for an analysed script. */
  function RemoveAnswer(fold: string -> string, s: string, es: seq<Entry>, rows: seq<Row>, address: string): Outcome {
    var current, target := FoldAll(fold, Addresses(rows)), fold(address);
    if address == "" then Refused(InvalidAddress)
    else if rows == [] then Refused(NotTeam)
    else if target !in current then Done(s, false)
    else if forall i :: 0 <= i < |current| ==> current[i] == target then Refused(LastMember)
    else if StopperFirst(es) then Refused(StopperBeforeMember)
    else if exists i :: 0 <= i < |rows| && fold(rows[i].address) == target && !rows[i].line.simple then Refused(LineNotSimple)
    else Done(RemoveText(fold, target, s, rows, 0), true)
  }

  ghost predicate RemoveAnswered(fold: string -> string, s: string, es: seq<Entry>, address: string, r: Outcome) {
    exists rows: seq<Row> :: RowsOk(s, es, rows) && r == RemoveAnswer(fold, s, es, rows, address)
  }

  /** A member list without some of its members, and no other command changed. */
  predicate Removed(fold: string -> string, es: seq<Entry>, es': seq<Entry>, address: string) {
    es' == Drop(fold, {fold(address)}, es) && FoldAll(fold, Members(es')) == Without({fold(address)}, FoldAll(fold, Members(es)))
  }

  /** removeMember never fails its own check: it removes every line of the address, and nothing else. */
  method RemoveMember(fold: string -> string, script: string, address: string) returns (r: Outcome)
    ensures r != Refused(SelfCheckFailed)
    ensures r.Done? && !r.changed ==> r.script == script
    ensures r.Done? ==> Parsed(script).Some? && Parsed(r.script).Some?
    ensures r.Done? && r.changed ==> Removed(fold, Parsed(script).value, Parsed(r.script).value, address)
    ensures if address == "" then r == Refused(InvalidAddress) else if Parsed(script).None? then r == Refused(Unparseable)
            else RemoveAnswered(fold, script, Parsed(script).value, address, r)
  {
    hide Parsed, RowOk, Members, LineInfo, StopperFirst, Drop, Without, RowsOk, Addresses, Pruned;
    if address == "" {
      return Refused(InvalidAddress);
    }
    var analysis := Analyze(script);
    if !analysis.parsed {
      return Refused(Unparseable);
    }
    var rows := analysis.rows;
    if rows == [] {
      return Refused(NotTeam);
    }
    var current, target := FoldAll(fold, Addresses(rows)), fold(address);
    if target !in current {
      return Done(script, false);
    }
    if forall i :: 0 <= i < |current| ==> current[i] == target {
      return Refused(LastMember);
    }
    if analysis.stopperBeforeMember {
      return Refused(StopperBeforeMember);
    }
    if exists i :: 0 <= i < |rows| && fold(rows[i].address) == target && !rows[i].line.simple {
      return Refused(LineNotSimple);
    }
    ghost var es := Parsed(script).value;
    ghost var gone := {target};
    ghost var cut: nat, k: nat := |script|, |es|;
    var next := script;
    var i: nat := |rows|;
    PrunedStart(fold, gone, script, es, rows);
    while i > 0
      invariant i <= |rows| && Pruned(fold, gone, script, es, rows, i, next, cut, k)
      invariant next == RemoveText(fold, target, script, rows, i)
    {
      i := i - 1;
      var row := rows[i];
      if fold(row.address) == target {
        PrunedRemove(fold, gone, script, es, rows, i, next, cut, k);
        next := next[..RemoveFrom(next, row.line)] + After(next, row.line.termEnd);
        cut, k := row.line.lineStart, row.entry;
      } else {
        PrunedKeep(fold, gone, script, es, rows, i, next, cut, k);
      }
    }
    PrunedAll(fold, gone, script, es, rows, next, cut, k);
    DropMembers(fold, gone, es);
    AllRows(script, es, rows);
    var ok := Check(fold, next, Without({target}, current));
    if !ok {
      return Refused(SelfCheckFailed);
    }
    r := Done(next, true);
  }

  lemma PrunedAll(fold: string -> string, gone: set<string>, s: string, es: seq<Entry>, rows: seq<Row>, next: string, cut: nat, k: nat)
    requires RowsOk(s, es, rows) && Pruned(fold, gone, s, es, rows, 0, next, cut, k)
    ensures Parsed(next) == Some(Drop(fold, gone, es))
  {
    hide Parsed, Agrees, RowsOk, Members, Drop;
    var p := EntryFrom(es, rows, 0);
    FirstRow(s, es, rows);
    DropNothing(fold, gone, es[..p]);
    assert es[..k] == es[..p] + es[p..k] && es == es[..k] + es[k..];
    DropConcat(fold, gone, es[..p], es[p..k]);
    DropConcat(fold, gone, es[..k], es[k..]);
  }

  lemma FirstRow(s: string, es: seq<Entry>, rows: seq<Row>)
    requires RowsOk(s, es, rows)
    ensures EntryFrom(es, rows, 0) <= |es| && Members(es[..EntryFrom(es, rows, 0)]) == []
  {
    hide RowOk, Members;
    if rows == [] {
      assert es[..|es|] == es;
    } else {
      RowFacts(s, es, rows, 0);
    }
  }
}
