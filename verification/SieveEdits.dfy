/** What an edit at a line boundary does to the commands of a script. */
module SieveEdits {
  import opened Options
  import opened SieveLex
  import opened SieveCommands
  import opened SieveAnalysis

  // ---------- the text of a team line ----------

  predicate Plain(a: string) { a != "" && forall i :: 0 <= i < |a| ==> a[i] != '"' && a[i] != '\\' }

  lemma Slice(a: string, b: string)
    ensures (a + b)[|a|..] == b && (a + b)[..|a|] == a
  {}

  lemma WordsId(w: string, rest: string)
    requires w != "" && IdStart(w[0]) && (forall i :: 0 <= i < |w| ==> IdChar(w[i])) && rest != "" && !IdChar(rest[0]) && rest[0] != ':'
    ensures Words(w + rest) == Cat([Id(Lower(w))], Words(rest))
  {
    hide Lower;
    Slice(w, rest);
    IdEndIs(w + rest, 0, |w|);
    assert (w + rest)[0] == w[0] && Step(w + rest) == Take(Id(Lower(w)), |w|);
  }

  lemma WordsTag(w: string, rest: string)
    requires w != "" && IdStart(w[0]) && (forall i :: 0 <= i < |w| ==> IdChar(w[i])) && rest != "" && !IdChar(rest[0])
    ensures Words([':'] + w + rest) == Cat([Tag(Lower(w))], Words(rest))
  {
    hide Lower;
    var s := [':'] + w + rest;
    assert s[1] == w[0] && s[1..|w| + 1] == w && s[|w| + 1..] == rest;
    IdEndIs(s, 1, |w| + 1);
    assert Step(s) == Take(Tag(Lower(w)), |w| + 1);
  }

  lemma {:induction false} QuotePlain(s: string, i: nat, n: nat)
    requires i <= n < |s| && s[n] == '"' && forall j :: i <= j < n ==> s[j] != '"' && s[j] != '\\'
    ensures Quote(s, i) == n
    decreases n - i
  {
    if i < n { QuotePlain(s, i + 1, n); }
  }

  lemma {:induction false} UnescapePlain(a: string)
    requires forall i :: 0 <= i < |a| ==> a[i] != '\\'
    ensures Unescape(a) == a
  {
    if a != "" { UnescapePlain(a[1..]); }
  }

  lemma WordsStr(a: string, rest: string)
    requires Plain(a)
    ensures Words(['"'] + a + ['"'] + rest) == Cat([Str(a, a)], Words(rest))
  {
    var s := ['"'] + a + ['"'] + rest;
    assert s[1..|a| + 1] == a && s[|a| + 2..] == rest;
    assert forall j :: 1 <= j < |a| + 1 ==> s[j] == a[j - 1];
    QuotePlain(s, 1, |a| + 1);
    UnescapePlain(a);
    assert Step(s) == Take(Str(a, a), |a| + 2);
  }

  lemma WordsSym(c: char, rest: string)
    requires Symbol(c)
    ensures Words([c] + rest) == Cat([Sym(c)], Words(rest))
  {
    assert ([c] + rest)[1..] == rest;
    assert Step([c] + rest) == Take(Sym(c), 1);
  }

  lemma {:induction false} WordsSpaces(b: string, rest: string)
    requires forall i :: 0 <= i < |b| ==> Blank(b[i])
    ensures Words(b + rest) == Words(rest)
  {
    if b == "" {
      assert b + rest == rest;
    } else {
      assert (b + rest)[1..] == b[1..] + rest;
      assert Step(b + rest) == Skip(1);
      WordsSpaces(b[1..], rest);
    }
  }

  const REDIRECT := "redirect"
  const COPY := "copy"

  /** A new team line. */
  function TeamText(indent: string, a: string): string {
    indent + (REDIRECT + ([' '] + ([':'] + COPY + ([' '] + (['"'] + a + ['"'] + [';'])))))
  }

  function TeamWords(a: string): seq<Word> { [Id(REDIRECT), Tag(COPY), Str(a, a), Sym(';')] }

  lemma Lowered()
    ensures Lower(REDIRECT) == REDIRECT && Lower(COPY) == COPY
  {}

  /** Whatever follows it, a team line reads as one. */
  lemma TeamTextWords(indent: string, a: string, rest: string)
    requires (forall i :: 0 <= i < |indent| ==> Blank(indent[i])) && Plain(a)
    ensures Words(TeamText(indent, a) + rest) == Cat(TeamWords(a), Words(rest))
  {
    hide Words, Lower, Plain, Blank, Cat;
    var r4 := [';'] + rest;
    var r3 := ['"'] + a + ['"'] + r4;
    var r2 := [' '] + r3;
    var r1 := [':'] + COPY + r2;
    var r0 := [' '] + r1;
    assert TeamText(indent, a) + rest == indent + (REDIRECT + r0);
    Lowered();
    assert Blank(' ') && IdStart('r') && IdStart('c') by { BlankSpace(); }
    WordsSpaces(indent, REDIRECT + r0);
    WordsId(REDIRECT, r0);
    WordsSpaces([' '], r1);
    WordsTag(COPY, r2);
    WordsSpaces([' '], r3);
    WordsStr(a, r4);
    WordsSym(';', rest);
    CatCat([Str(a, a)], [Sym(';')], Words(rest));
    CatCat([Tag(COPY)], [Str(a, a)] + [Sym(';')], Words(rest));
    CatCat([Id(REDIRECT)], [Tag(COPY)] + ([Str(a, a)] + [Sym(';')]), Words(rest));
    assert [Id(REDIRECT)] + ([Tag(COPY)] + ([Str(a, a)] + [Sym(';')])) == TeamWords(a);
  }

  lemma BlankSpace()
    ensures Blank(' ') && IdStart('r') && IdStart('c')
  {}

  // ---------- parsing behind a boundary ----------

  /** After `m` characters nothing is open, and these commands have been read. */
  predicate Boundary(s: string, m: nat, before: seq<Entry>) {
    m <= |s| && Hits(s, m) && Run(Front(s, m), Start) == Fed(Start, before) && (m == 0 || s[m - 1] == '\n')
  }

  function ParsedWords(ws: Option<seq<Word>>): Option<seq<Entry>> {
    if ws.None? then None
    else
      var f := Run(ws.value, Start);
      if f.Fed? && f.st.current == [] && f.st.stack == [] then Some(f.done) else None
  }

  lemma ParsedAfter(front: seq<Word>, before: seq<Entry>, rest: Option<seq<Word>>)
    requires Run(front, Start) == Fed(Start, before)
    ensures ParsedWords(Cat(front, rest)) == Cat(before, ParsedWords(rest))
  {
    hide Run;
    if rest.Some? { RunConcat(front, rest.value, Start); }
  }

  /** Whatever replaces the text behind a boundary, the commands before it stay. */
  lemma Replace(s: string, m: nat, before: seq<Entry>, u: string)
    requires Boundary(s, m, before)
    ensures Parsed(s[..m] + u) == Cat(before, Parsed(u))
    ensures Boundary(s[..m] + u, m, before)
  {
    hide Hits, Front, Run, Words;
    var b := s[..m] + u;
    assert b[..m] == s[..m] && b[m..] == u;
    assert m > 0 ==> b[m - 1] == s[m - 1];
    HitsLocal(s, b, m);
    WordsSplit(b, m);
    ParsedAfter(Front(s, m), before, Words(u));
  }

  lemma ParsedBehind(s: string, m: nat, before: seq<Entry>)
    requires Boundary(s, m, before)
    ensures Parsed(s) == Cat(before, Parsed(s[m..]))
  {
    hide Hits, Front, Run, Words;
    assert s[..m] + s[m..] == s;
    Replace(s, m, before, s[m..]);
  }

  lemma TeamRuns(a: string)
    requires Plain(a)
    ensures Run(TeamWords(a), Start) == Fed(Start, [Listed(a)])
  {
    hide Plain;
    var ws := TeamWords(a)[..3];
    assert TeamLine(ws) by { assert a != "" by { PlainSome(a); } }
    TeamEntry(ws);
    ThreePlain(ws, Start);
    assert TeamWords(a) == ws + [Sym(';')] && [] + ws == ws;
    RunSnoc(ws, Sym(';'), Start);
  }

  lemma PlainSome(a: string)
    requires Plain(a)
    ensures a != ""
  {}

  /** A new team line adds exactly its own entry. */
  lemma TeamParsed(indent: string, a: string, rest: string)
    requires (forall i :: 0 <= i < |indent| ==> Blank(indent[i])) && Plain(a)
    ensures Parsed(TeamText(indent, a) + rest) == Cat([Listed(a)], Parsed(rest))
  {
    hide Words, Run, TeamText;
    TeamTextWords(indent, a, rest);
    TeamRuns(a);
    ParsedAfter(TeamWords(a), [Listed(a)], Words(rest));
  }

  lemma ParsedMore(s: string, c: char)
    requires LineEnd(c)
    ensures Parsed(s + [c]) == Parsed(s)
  {
    WordsMore(s, c);
  }

  lemma {:induction false} WordsHits(s: string)
    requires Words(s).Some?
    ensures Hits(s, |s|) && Front(s, |s|) == Words(s).value
    decreases |s|
  {
    hide Step;
    if s != "" {
      StepLength(s);
      WordsHits(s[Step(s).n..]);
    }
  }

  /** A script that ends its last line ends at a boundary. */
  lemma WholeBoundary(s: string, entries: seq<Entry>)
    requires Parsed(s) == Some(entries) && s != "" && s[|s| - 1] == '\n'
    ensures Boundary(s, |s|, entries)
  {
    hide Hits, Front, Run, Words;
    WordsHits(s);
    var f := Run(Words(s).value, Start);
    assert Nested(Start);
    RunNested(Words(s).value, Start);
    hide Nested, Braces;
    assert f.st == Start by { EmptyStack(f.st); }
  }

  lemma EmptyStack(st: State)
    requires Nested(st) && st.stack == []
    ensures st.depth == 0 && st.paren == 0
  {}
}
