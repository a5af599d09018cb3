/** Renaming an address. */
module SieveRename {
  import opened Options
  import opened SieveLex
  import opened SieveCommands
  import opened SieveAnalysis
  import opened SieveEdits
  import opened SieveTeam
  import opened SieveAdd
  import opened SieveRemove
  import opened SieveCollapse

  predicate Contains(s: string, part: string) { part <= s || (s != "" && Contains(s[1..], part)) }

  lemma ContainsSelf(s: string)
    ensures Contains(s, s)
  {}

  /** A string token that mentions the address. */
  predicate Mentions(fold: string -> string, w: Word, old': string) { w.Str? && Contains(fold(w.value), old') }

  /** A mention that the edit accepts: exactly the address, written plainly. */
  predicate Exact(fold: string -> string, w: Word, old': string) {
    Mentions(fold, w, old') ==> fold(w.value) == old' && w.raw == w.value && w.value != ""
  }

  function Renamed(fold: string -> string, w: Word, old': string, new': string): Word {
    if Mentions(fold, w, old') then Str(new', new') else w
  }

  function RenamedAll(fold: string -> string, ws: seq<Word>, old': string, new': string): seq<Word> {
    seq(|ws|, i requires 0 <= i < |ws| => Renamed(fold, ws[i], old', new'))
  }

  function RenamedEntry(fold: string -> string, e: Entry, old': string, new': string): Entry {
    if e.Listed? && fold(e.address) == old' then Listed(new') else e
  }

  function RenamedEntries(fold: string -> string, es: seq<Entry>, old': string, new': string): seq<Entry> {
    seq(|es|, i requires 0 <= i < |es| => RenamedEntry(fold, es[i], old', new'))
  }

  predicate AllExact(fold: string -> string, ws: seq<Word>, old': string) { forall i {:trigger ws[i]} :: 0 <= i < |ws| ==> Exact(fold, ws[i], old') }

  lemma RenamedCommand(fold: string -> string, ws: seq<Word>, block: bool, old': string, new': string)
    requires AllExact(fold, ws, old') && ws != [] && ws[0].Id? && new' != ""
    ensures var ws' := RenamedAll(fold, ws, old', new');
      ws'[0].Id? && EntryOf(ws', block) == RenamedEntry(fold, EntryOf(ws, block), old', new')
  {
    var ws' := RenamedAll(fold, ws, old', new');
    if |ws| == 3 && ws[2].Str? && fold(ws[2].value) == old' { ContainsSelf(old'); }
    assert TeamLine(ws) ==> Exact(fold, ws[2], old');
    assert Tag("copy") in ws'[1..] <==> Tag("copy") in ws[1..] by { TagsStay(fold, ws, old', new'); }
  }

  lemma TagsStay(fold: string -> string, ws: seq<Word>, old': string, new': string)
    requires ws != []
    ensures Tag("copy") in RenamedAll(fold, ws, old', new')[1..] <==> Tag("copy") in ws[1..]
  {
    var ws' := RenamedAll(fold, ws, old', new');
    assert forall i :: 0 < i < |ws| ==> (ws'[i] == Tag("copy") <==> ws[i] == Tag("copy"));
    assert forall i :: 0 <= i < |ws| - 1 ==> ws'[1..][i] == ws'[i + 1] && ws[1..][i] == ws[i + 1];
  }

  function RenamedState(fold: string -> string, st: State, old': string, new': string): State {
    st.(current := RenamedAll(fold, st.current, old', new'))
  }

  lemma RenamedSnoc(fold: string -> string, ws: seq<Word>, w: Word, old': string, new': string)
    ensures RenamedAll(fold, ws + [w], old', new') == RenamedAll(fold, ws, old', new') + [Renamed(fold, w, old', new')]
    ensures AllExact(fold, ws, old') && Exact(fold, w, old') ==> AllExact(fold, ws + [w], old')
  {}

  lemma RenamedFeed(fold: string -> string, st: State, w: Word, old': string, new': string)
    requires AllExact(fold, st.current, old') && Exact(fold, w, old') && new' != ""
    ensures var f, g := Feed(st, w), Feed(RenamedState(fold, st, old', new'), Renamed(fold, w, old', new'));
      && (f.Stuck? <==> g.Stuck?)
      && (f.Fed? ==> g.st == RenamedState(fold, f.st, old', new') && g.done == RenamedEntries(fold, f.done, old', new') && AllExact(fold, f.st.current, old'))
  {
    hide RenamedEntry, EntryOf, Exact, Contains;
    RenamedSnoc(fold, st.current, w, old', new');
    if st.current != [] && st.current[0].Id? {
      RenamedCommand(fold, st.current, true, old', new');
      RenamedCommand(fold, st.current, false, old', new');
    }
    hide RenamedAll, AllExact;
  }

  /** Renaming the mentions renames the members, and leaves every other command what it was. */
  lemma {:induction false} RenamedRun(fold: string -> string, ws: seq<Word>, st: State, old': string, new': string)
    requires AllExact(fold, st.current, old') && AllExact(fold, ws, old') && new' != ""
    ensures var f, g := Run(ws, st), Run(RenamedAll(fold, ws, old', new'), RenamedState(fold, st, old', new'));
      && (f.Stuck? <==> g.Stuck?)
      && (f.Fed? ==> g.st == RenamedState(fold, f.st, old', new') && g.done == RenamedEntries(fold, f.done, old', new'))
    decreases ws
  {
    hide Feed, Exact, Renamed, RenamedEntry, RenamedState;
    if ws != [] {
      assert Exact(fold, ws[0], old');
      RenamedFeed(fold, st, ws[0], old', new');
      var ws' := RenamedAll(fold, ws, old', new');
      assert ws'[0] == Renamed(fold, ws[0], old', new') && ws'[1..] == RenamedAll(fold, ws[1..], old', new');
      assert AllExact(fold, ws[1..], old') by { assert forall i :: 0 <= i < |ws| - 1 ==> ws[1..][i] == ws[i + 1]; }
      var f := Feed(st, ws[0]);
      if f.Fed? {
        RenamedRun(fold, ws[1..], f.st, old', new');
        if Run(ws[1..], f.st).Fed? { RenamedConcat(fold, f.done, Run(ws[1..], f.st).done, old', new'); }
      }
    }
  }

  lemma RenamedConcat(fold: string -> string, a: seq<Entry>, b: seq<Entry>, old': string, new': string)
    ensures RenamedEntries(fold, a + b, old', new') == RenamedEntries(fold, a, old', new') + RenamedEntries(fold, b, old', new')
  {}

  lemma RenamedParsed(fold: string -> string, ws: seq<Word>, es: seq<Entry>, old': string, new': string)
    requires ParsedWords(Some(ws)) == Some(es) && AllExact(fold, ws, old') && new' != ""
    ensures ParsedWords(Some(RenamedAll(fold, ws, old', new'))) == Some(RenamedEntries(fold, es, old', new'))
  {
    hide Run, Exact, Renamed, RenamedEntry;
    assert RenamedState(fold, Start, old', new') == Start;
    RenamedRun(fold, ws, Start, old', new');
  }

  /** The member list with the address replaced. */
  function RenamedMembers(fold: string -> string, xs: seq<string>, old': string, new': string): seq<string> {
    seq(|xs|, i requires 0 <= i < |xs| => if fold(xs[i]) == old' then fold(new') else fold(xs[i]))
  }

  lemma {:induction false} RenamedList(fold: string -> string, es: seq<Entry>, old': string, new': string)
    ensures FoldAll(fold, Members(RenamedEntries(fold, es, old', new'))) == RenamedMembers(fold, Members(es), old', new')
  {
    if es == [] {
      assert RenamedEntries(fold, es, old', new') == [];
    } else {
      var e, rest := RenamedEntry(fold, es[0], old', new'), RenamedEntries(fold, es[1..], old', new');
      assert RenamedEntries(fold, es, old', new') == [e] + rest && ([e] + rest)[1..] == rest;
      RenamedList(fold, es[1..], old', new');
      if es[0].Listed? {
        assert Members(es) == [es[0].address] + Members(es[1..]) && Members([e] + rest) == [e.address] + Members(rest);
        FoldCons(fold, e.address, Members(rest));
        assert RenamedMembers(fold, [es[0].address] + Members(es[1..]), old', new') == [fold(e.address)] + RenamedMembers(fold, Members(es[1..]), old', new');
      }
    }
  }

  // ---------- the text of a rename ----------

  lemma {:induction false} UnescapeShort(raw: string)
    ensures |Unescape(raw)| <= |raw| && (Unescape(raw) == raw ==> forall i :: 0 <= i < |raw| ==> raw[i] != '\\')
    decreases |raw|
  {
    if raw != "" {
      if raw[0] == '\\' {
        if |raw| > 1 { UnescapeShort(raw[2..]); }
      } else {
        UnescapeShort(raw[1..]);
        assert Unescape(raw) == raw ==> Unescape(raw)[1..] == raw[1..];
      }
    }
  }

  lemma {:induction false} QuoteFirst(s: string, i: nat)
    requires i <= |s| && forall j :: i <= j < Quote(s, i) ==> s[j] != '\\'
    ensures forall j :: i <= j < Quote(s, i) ==> s[j] != '"'
    decreases |s| - i
  {
    if i < |s| && s[i] != '"' && s[i] != '\\' { QuoteFirst(s, i + 1); }
  }

  /** A plainly written string token is its value between two quotes. */
  lemma PlainToken(s: string, w: Word, n: nat)
    requires s != "" && Step(s) == Take(w, n) && w.Str? && w.raw == w.value && w.value != ""
    ensures Plain(w.value) && n == |w.value| + 2 && n <= |s| && s[..n] == ['"'] + w.value + ['"'] && s[0] == '"'
  {
    var q := Quote(s, 1);
    assert s[0] == '"' && w.raw == s[1..q] && n == q + 1;
    UnescapeShort(w.raw);
    assert forall j :: 1 <= j < q ==> s[j] == w.raw[j - 1];
    QuoteFirst(s, 1);
  }

  lemma QuotedPiece(s: string, next: string, start: nat, end: nat, v: string, new': string)
    requires start < end <= |s| && end <= |next| && next[..end] == s[..end] && s[start..][..end - start] == ['"'] + v + ['"']
    ensures start + 1 <= end - 1 && next[..start] == s[..start]
    ensures next == s[..start] + (['"'] + v + ['"'] + next[end..])
    ensures next[..start + 1] + new' + next[end - 1..] == s[..start] + (['"'] + new' + ['"'] + next[end..])
  {
    var q := ['"'] + v + ['"'];
    assert |q| == |v| + 2 == end - start;
    assert forall i :: 0 <= i < |q| ==> q[i] == s[start..][..end - start][i];
    assert forall i :: 0 <= i < end ==> next[i] == next[..end][i] && s[i] == s[..end][i];
    assert forall i :: 0 <= i < |q| ==> next[start + i] == q[i];
    assert next[..start] == s[..start];
    assert next[start..end] == q;
    assert next == next[..start] + (next[start..end] + next[end..]);
    assert next[end - 1..] == ['"'] + next[end..];
    assert next[..start + 1] == s[..start] + ['"'];
  }

  /** Putting another plain text between the quotes of a token changes that token only. */
  lemma RenameToken(s: string, toks: seq<Token>, k: nat, next: string, new': string, rest: seq<Word>)
    requires k < |toks| && Stands(s, 0, toks, k) && toks[k].word.Str? && toks[k].word.raw == toks[k].word.value && toks[k].word.value != ""
    requires Plain(new') && toks[k].end <= |next| && toks[k].end <= |s| && next[..toks[k].end] == s[..toks[k].end]
    requires Words(next) == Some(WordsOf(toks[..k + 1]) + rest)
    ensures toks[k].start + 1 <= toks[k].end - 1
    ensures Words(next[..toks[k].start + 1] + new' + next[toks[k].end - 1..]) == Some(WordsOf(toks[..k]) + ([Str(new', new')] + rest))
    ensures next[..toks[k].start] == s[..toks[k].start]
  {
    hide Step, Hits, Front, Words, WordsOf, Plain;
    var t := toks[k];
    var v, u := t.word.value, next[t.end..];
    PlainToken(s[t.start..], t.word, t.end - t.start);
    var p := s[..t.start];
    QuotedPiece(s, next, t.start, t.end, v, new');
    FrontWith(s, p, ['"'] + v + ['"'] + u);
    FrontWith(s, p, ['"'] + new' + ['"'] + u);
    WordsStr(v, u);
    WordsStr(new', u);
    WordsOfSnoc(toks, k);
    CatCat(WordsOf(toks[..k]), [Str(v, v)], Words(u));
    CatCat(WordsOf(toks[..k]), [Str(new', new')], Words(u));
    CatCancel(WordsOf(toks[..k + 1]), rest, Words(u));
    assert WordsOf(toks[..k]) + [Str(new', new')] + rest == WordsOf(toks[..k]) + ([Str(new', new')] + rest);
  }

  /** In front of a quote the tokens do not depend on what is behind it. */
  lemma FrontWith(s: string, p: string, u: string)
    requires p <= s && |p| < |s| && u != "" && s[|p|] == u[0] && Hits(s, |p|)
    ensures Words(p + u) == Cat(Front(s, |p|), Words(u))
  {
    hide Hits, Front, Words;
    assert (p + u)[..|p|] == p == s[..|p|] && (p + u)[|p|..] == u && (p + u)[|p|] == u[0];
    HitsLocal(s, p + u, |p|);
    WordsSplit(p + u, |p|);
  }

  lemma {:induction false} FrontPrefix(s: string, a: nat, b: nat)
    requires Hits(s, a) && Hits(s, b) && a <= b
    ensures Front(s, a) <= Front(s, b)
    decreases a
  {
    hide Step;
    if a > 0 { FrontPrefix(s[Step(s).n..], a - Step(s).n, b - Step(s).n); }
  }

  /** A string token inside a member's command is the member's address, plainly written. */
  lemma HitExact(s: string, es: seq<Entry>, row: Row, toks: seq<Token>, h: nat)
    requires RowOk(s, es, row) && h < |toks| && Stands(s, 0, toks, h) && toks[h].word.Str?
    requires row.start <= toks[h].start && toks[h].end <= row.end
    ensures toks[h].word.raw == toks[h].word.value == row.address && row.address != ""
  {
    hide Step, Hits, Front, Run, WordsOf, LineInfo;
    var a, b := Front(s, row.start), Front(s, row.end);
    FrontPrefix(s, row.start, toks[h].start);
    FrontPrefix(s, toks[h].end, row.end);
    WordsOfSnoc(toks, h);
    WordsLength(toks, h);
    assert b[h] == Front(s, toks[h].end)[h] == toks[h].word;
    assert b == a + TeamWords(row.address) && |a| <= h < |a| + 4;
    assert b[h] == TeamWords(row.address)[h - |a|];
  }

  predicate InMember(rows: seq<Row>, t: Token) {
    exists i :: 0 <= i < |rows| && rows[i].start <= t.start && t.end <= rows[i].end && t.word.Str? && rows[i].address == t.word.value
  }

  lemma AllHitsExact(fold: string -> string, s: string, es: seq<Entry>, rows: seq<Row>, toks: seq<Token>, old': string)
    requires Tokens(s, 0) == Some(toks) && RowsOk(s, es, rows)
    requires forall h {:trigger toks[h]} :: 0 <= h < |toks| && Mentions(fold, toks[h].word, old') ==> fold(toks[h].word.value) == old' && InMember(rows, toks[h])
    ensures AllExact(fold, WordsOf(toks), old')
  {
    hide Contains, Tokens, Stands, RowOk, RowsOk, Mentions;
    forall h | 0 <= h < |toks| ensures Exact(fold, WordsOf(toks)[h], old') {
      var w := toks[h].word;
      assert WordsOf(toks)[h] == w;
      if Mentions(fold, w, old') {
        var i :| 0 <= i < |rows| && rows[i].start <= toks[h].start && toks[h].end <= rows[i].end && w.Str? && rows[i].address == w.value;
        TokenStands(s, 0, h);
        RowFacts(s, es, rows, i);
        HitExact(s, es, rows[i], toks, h);
      }
    }
  }

  /** The tokens from the i-th on are renamed, the text in front of them is untouched. */
  predicate Renaming(fold: string -> string, s: string, toks: seq<Token>, i: nat, next: string, old': string, new': string)
    requires i <= |toks|
  {
    Words(next) == Some(WordsOf(toks[..i]) + RenamedAll(fold, WordsOf(toks[i..]), old', new'))
    && (i > 0 ==> toks[i - 1].end <= |next| && toks[i - 1].end <= |s| && next[..toks[i - 1].end] == s[..toks[i - 1].end])
  }

  lemma RenamingStart(fold: string -> string, s: string, toks: seq<Token>, old': string, new': string)
    requires Tokens(s, 0) == Some(toks)
    ensures Renaming(fold, s, toks, |toks|, s, old', new')
  {
    hide Tokens, Words;
    TokensWords(s, 0);
    assert toks[..|toks|] == toks && toks[|toks|..] == [];
    assert WordsOf(toks) + RenamedAll(fold, WordsOf([]), old', new') == WordsOf(toks);
    if |toks| > 0 {
      TokenStands(s, 0, |toks| - 1);
      hide Stands;
    }
  }

  lemma RenamedCons(fold: string -> string, toks: seq<Token>, k: nat, old': string, new': string)
    requires k < |toks|
    ensures RenamedAll(fold, WordsOf(toks[k..]), old', new') == [Renamed(fold, toks[k].word, old', new')] + RenamedAll(fold, WordsOf(toks[k + 1..]), old', new')
  {}

  lemma RenamingStep(fold: string -> string, s: string, toks: seq<Token>, k: nat, next: string, old': string, new': string)
    requires k < |toks| && Tokens(s, 0) == Some(toks) && AllExact(fold, WordsOf(toks), old') && Plain(new')
    requires Renaming(fold, s, toks, k + 1, next, old', new')
    ensures toks[k].start + 1 <= |next| && toks[k].end >= 1 && (Mentions(fold, toks[k].word, old') ==> toks[k].end - 1 <= |next|)
    ensures Mentions(fold, toks[k].word, old') ==> Renaming(fold, s, toks, k, next[..toks[k].start + 1] + new' + next[toks[k].end - 1..], old', new')
    ensures !Mentions(fold, toks[k].word, old') ==> Renaming(fold, s, toks, k, next, old', new')
  {
    hide Tokens, Words, RenamedAll, Contains, Plain, Mentions, AllExact;
    var t, rest := toks[k], RenamedAll(fold, WordsOf(toks[k + 1..]), old', new');
    RenamedCons(fold, toks, k, old', new');
    WordsOfSnoc(toks, k);
    TokenStands(s, 0, k);
    if k > 0 { TokensOrdered(s, 0, k - 1, k); }
    if Mentions(fold, t.word, old') {
      assert t.word.Str? && t.word.raw == t.word.value && t.word.value != "" by { ExactAt(fold, toks, k, old'); }
      RenameToken(s, toks, k, next, new', rest);
      hide Stands, WordsOf;
      assert k > 0 ==> next[..t.start][..toks[k - 1].end] == s[..t.start][..toks[k - 1].end];
      var made := next[..t.start + 1] + new' + next[t.end - 1..];
      assert made[..t.start] == next[..t.start];
      assert k > 0 ==> made[..toks[k - 1].end] == made[..t.start][..toks[k - 1].end];
      assert k > 0 ==> s[..toks[k - 1].end] == s[..t.start][..toks[k - 1].end];
    } else {
      hide Stands, WordsOf;
      assert WordsOf(toks[..k]) + [t.word] + rest == WordsOf(toks[..k]) + ([t.word] + rest);
      assert k > 0 ==> next[..toks[k - 1].end] == next[..t.end][..toks[k - 1].end] && s[..toks[k - 1].end] == s[..t.end][..toks[k - 1].end];
    }
  }

  lemma ExactAt(fold: string -> string, toks: seq<Token>, k: nat, old': string)
    requires k < |toks| && AllExact(fold, WordsOf(toks), old') && Mentions(fold, toks[k].word, old')
    ensures var w := toks[k].word; w.Str? && w.raw == w.value && w.value != ""
  {
    assert WordsOf(toks)[k] == toks[k].word;
  }

  /** The text with one piece exchanged. */
  function Put(next: string, from: nat, to: int, text: string): string {
    if from <= |next| && 0 <= to <= |next| then next[..from] + text + next[to..] else next
  }

  /** The text after the mentions from the i-th token on have been exchanged, between their quotes. */
  function RenameText(fold: string -> string, s: string, toks: seq<Token>, i: nat, old': string, new': string): string
    requires i <= |toks|
    decreases |toks| - i
  {
    if i == |toks| then s
    else
      var next := RenameText(fold, s, toks, i + 1, old', new');
      if Mentions(fold, toks[i].word, old') then Put(next, toks[i].start + 1, toks[i].end - 1, new') else next
  }

  predicate Unsupported(fold: string -> string, rows: seq<Row>, t: Token, old': string) {
    Mentions(fold, t.word, old') && (!t.word.Str? || fold(t.word.value) != old' || !InMember(rows, t))
  }

  /** What renameMember answers for a script that can be read token by token. */
  function RenameAnswer(fold: string -> string, s: string, toks: seq<Token>, rows: seq<Row>, old': string, new': string): Outcome {
    if forall h :: 0 <= h < |toks| ==> !Mentions(fold, toks[h].word, old') then Done(s, false)
    else if Parsed(s).None? then Refused(Unparseable)
    else if exists h :: 0 <= h < |toks| && Unsupported(fold, rows, toks[h], old') then Refused(UnsupportedRedirect)
    else Done(RenameText(fold, s, toks, 0, old', new'), RenameText(fold, s, toks, 0, old', new') != s)
  }

  ghost predicate RenameAnswered(fold: string -> string, s: string, old': string, new': string, r: Outcome) {
    if Tokenized(s).None? then r == if Contains(fold(s), old') then Refused(Unparseable) else Done(s, false)
    else exists rows: seq<Row> :: (Parsed(s).Some? ==> RowsOk(s, Parsed(s).value, rows)) && r == RenameAnswer(fold, s, Tokenized(s).value, rows, old', new')
  }

  lemma AnsweredBy(fold: string -> string, s: string, toks: seq<Token>, rows: seq<Row>, old': string, new': string)
    requires Tokenized(s) == Some(toks) && (Parsed(s).Some? ==> RowsOk(s, Parsed(s).value, rows))
    ensures RenameAnswered(fold, s, old', new', RenameAnswer(fold, s, toks, rows, old', new'))
  {
    hide RenameAnswer, Parsed, RowsOk, Tokenized;
  }

  lemma RenameNone(fold: string -> string, s: string, toks: seq<Token>, old': string, new': string)
    ensures RenameText(fold, s, toks, |toks|, old', new') == s
  {}

  lemma RenameOne(fold: string -> string, s: string, toks: seq<Token>, i: nat, old': string, new': string)
    requires i < |toks|
    ensures var next := RenameText(fold, s, toks, i + 1, old', new');
      RenameText(fold, s, toks, i, old', new')
      == if Mentions(fold, toks[i].word, old') then Put(next, toks[i].start + 1, toks[i].end - 1, new') else next
  {}

  /** The mentions exchanged, from the last one up. */
  method RenameTokens(fold: string -> string, script: string, ghost es: seq<Entry>, ghost rows: seq<Row>, toks: seq<Token>, old': string, newAddress: string)
    returns (next: string)
    requires Tokens(script, 0) == Some(toks) && Parsed(script) == Some(es) && RowsOk(script, es, rows) && AddressOk(newAddress)
    requires forall h {:trigger toks[h]} :: 0 <= h < |toks| ==> !Unsupported(fold, rows, toks[h], old')
    ensures next == RenameText(fold, script, toks, 0, old', newAddress)
    ensures Parsed(next) == Some(RenamedEntries(fold, es, old', newAddress))
  {
    hide RenameText, Parsed, RowOk, Members, RowsOk, Addresses, AddressOk, Contains, Tokens, Words, WordsOf, RenamedEntries, Renaming, StackRun, ParsedWords;
    AllHitsExact(fold, script, es, rows, toks, old');
    AddressPlain(newAddress);
    RenamingStart(fold, script, toks, old', newAddress);
    RenameNone(fold, script, toks, old', newAddress);
    next := script;
    var k: nat := |toks|;
    while k > 0
      invariant k <= |toks| && Renaming(fold, script, toks, k, next, old', newAddress)
      invariant next == RenameText(fold, script, toks, k, old', newAddress)
    {
      k := k - 1;
      RenamingStep(fold, script, toks, k, next, old', newAddress);
      RenameOne(fold, script, toks, k, old', newAddress);
      if Mentions(fold, toks[k].word, old') {
        next := next[..toks[k].start + 1] + newAddress + next[toks[k].end - 1..];
      }
    }
    RenamingDone(fold, script, toks, es, next, old', newAddress);
  }

  /** renameMember never fails its own check: exactly the members with the old address are renamed. */
  method RenameMember(fold: string -> string, script: string, oldAddress: string, newAddress: string) returns (r: Outcome)
    ensures r != Refused(SelfCheckFailed)
    ensures r.Done? && r.script == script ==> !r.changed
    ensures r.Done? && r.changed ==> Parsed(script).Some? && Parsed(r.script).Some?
    ensures r.Done? && r.changed ==>
      Parsed(r.script).value == RenamedEntries(fold, Parsed(script).value, fold(oldAddress), newAddress)
    ensures r.Done? && !r.changed ==> r.script == script
    ensures r == Refused(InvalidAddress) <==> !AddressOk(oldAddress) || !AddressOk(newAddress)
    ensures r != Refused(InvalidAddress) ==> RenameAnswered(fold, script, fold(oldAddress), newAddress, r)
  {
    hide Mentions, Unsupported, RenameText, Parsed, Members, RowsOk, Addresses, AddressOk, Contains, Tokens, Words, WordsOf, RenamedEntries, StackRun, ParsedWords;
    if !AddressOk(oldAddress) || !AddressOk(newAddress) {
      return Refused(InvalidAddress);
    }
    var analysis := Analyze(script);
    var old' := fold(oldAddress);
    var tokens := Tokenize(script);
    if tokens.None? {
      return if Contains(fold(script), old') then Refused(Unparseable) else Done(script, false);
    }
    var toks := tokens.value;
    if forall h :: 0 <= h < |toks| ==> !Mentions(fold, toks[h].word, old') {
      AnsweredBy(fold, script, toks, analysis.rows, old', newAddress);
      return Done(script, false);
    }
    AnsweredBy(fold, script, toks, analysis.rows, old', newAddress);
    if !analysis.parsed {
      return Refused(Unparseable);
    }
    if exists h :: 0 <= h < |toks| && Unsupported(fold, analysis.rows, toks[h], old') {
      return Refused(UnsupportedRedirect);
    }
    ghost var es := Parsed(script).value;
    var next := RenameTokens(fold, script, es, analysis.rows, toks, old', newAddress);
    RenamedList(fold, es, old', newAddress);
    AllRows(script, es, analysis.rows);
    var ok := Check(fold, next, RenamedMembers(fold, Addresses(analysis.rows), old', newAddress));
    if !ok {
      return Refused(SelfCheckFailed);
    }
    r := Done(next, next != script);
  }

  lemma RenamingDone(fold: string -> string, s: string, toks: seq<Token>, es: seq<Entry>, next: string, old': string, new': string)
    requires Tokens(s, 0) == Some(toks) && Parsed(s) == Some(es) && AllExact(fold, WordsOf(toks), old') && Plain(new')
    requires Renaming(fold, s, toks, 0, next, old', new')
    ensures Parsed(next) == Some(RenamedEntries(fold, es, old', new'))
  {
    hide Tokens, Words, RenamedAll, Contains, Run, Exact, RenamedEntries;
    TokensWords(s, 0);
    assert toks[0..] == toks && WordsOf(toks[..0]) == [];
    assert [] + RenamedAll(fold, WordsOf(toks), old', new') == RenamedAll(fold, WordsOf(toks), old', new');
    RenamedParsed(fold, WordsOf(toks), es, old', new');
  }
}
