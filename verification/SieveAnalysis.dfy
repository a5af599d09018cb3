/** The analysis of a script: its team lines, and where they stand. */
module SieveAnalysis {
  import opened Options
  import opened SieveLex
  import opened SieveCommands

  /** A command with its place; `at` is the index of its first token. */
  datatype Command = Command(words: seq<Word>, start: nat, end: nat, block: bool, at: nat)

  function EntriesOf(cmds: seq<Command>): seq<Entry>
    requires forall c {:trigger cmds[c]} :: 0 <= c < |cmds| ==> cmds[c].words != [] && cmds[c].words[0].Id?
  {
    seq(|cmds|, c requires 0 <= c < |cmds| => EntryOf(cmds[c].words, cmds[c].block))
  }

  /** The command starts where the grouper had nothing in hand, after the earlier commands. */
  predicate Placed(toks: seq<Token>, cmd: Command, before: seq<Entry>) {
    && cmd.words != [] && cmd.words[0].Id? && cmd.at + |cmd.words| < |toks|
    && cmd.start == toks[cmd.at].start
    && (!cmd.block ==> cmd.words == WordsOf(toks[cmd.at..cmd.at + |cmd.words|]) && toks[cmd.at + |cmd.words|].word == Sym(';')
                       && cmd.end == toks[cmd.at + |cmd.words|].end)
    && Idle(WordsOf(toks[..cmd.at]), before)
  }

  predicate Idle(ws: seq<Word>, before: seq<Entry>) {
    var f := Run(ws, Start);
    f.Fed? && f.st.current == [] && f.st.depth == 0 && f.done == before
  }

  predicate AllPlaced(toks: seq<Token>, cmds: seq<Command>) {
    (forall c {:trigger cmds[c]} :: 0 <= c < |cmds| ==> cmds[c].words != [] && cmds[c].words[0].Id?)
    && forall c {:trigger cmds[c]} :: 0 <= c < |cmds| ==> Placed(toks, cmds[c], EntriesOf(cmds[..c]))
  }

  lemma RunSnoc(ws: seq<Word>, w: Word, st: State)
    ensures Run(ws + [w], st) ==
      (var f := Run(ws, st);
       if f.Stuck? || Feed(f.st, w).Stuck? then Stuck else Fed(Feed(f.st, w).st, f.done + Feed(f.st, w).done))
  {
    hide Feed;
    RunConcat(ws, [w], st);
    assert [w][1..] == [];
    assert forall e: seq<Entry> :: e + [] == e;
  }

  lemma WordsOfSnoc(toks: seq<Token>, i: nat)
    requires i < |toks|
    ensures WordsOf(toks[..i + 1]) == WordsOf(toks[..i]) + [toks[i].word] && WordsOf(toks)[..i] == WordsOf(toks[..i])
  {}

  lemma PlacedMore(toks: seq<Token>, cmds: seq<Command>, cmd: Command)
    requires AllPlaced(toks, cmds) && Placed(toks, cmd, EntriesOf(cmds))
    ensures AllPlaced(toks, cmds + [cmd]) && EntriesOf(cmds + [cmd]) == EntriesOf(cmds) + [EntryOf(cmd.words, cmd.block)]
  {
    hide Placed, EntryOf;
    var more := cmds + [cmd];
    assert cmd.words != [] && cmd.words[0].Id? by { PlacedHead(toks, cmd, EntriesOf(cmds)); }
    assert more[..|cmds|] == cmds;
    forall c | 0 <= c < |more| ensures Placed(toks, more[c], EntriesOf(more[..c])) {
      if c < |cmds| { assert more[c] == cmds[c] && more[..c] == cmds[..c]; }
    }
  }

  lemma PlacedHead(toks: seq<Token>, cmd: Command, before: seq<Entry>)
    requires Placed(toks, cmd, before)
    ensures cmd.words != [] && cmd.words[0].Id?
  {}

  /** The state after the tokens so far, and where the command in hand started. */
  predicate Reading(toks: seq<Token>, i: nat, st: State, cmds: seq<Command>, from: nat)
    requires i <= |toks| && AllPlaced(toks, cmds)
  {
    && Run(WordsOf(toks[..i]), Start) == Fed(st, EntriesOf(cmds))
    && from <= i && Idle(WordsOf(toks[..from]), EntriesOf(cmds))
    && (if st.depth == 0 then st.current == WordsOf(toks[from..i])
        else from + |st.current| <= i && st.current != [] && st.current[|st.current| - 1] == Sym('{') && st.current == WordsOf(toks[from..from + |st.current|]))
  }

  // ---------- tokenize ----------

  /** The tokenizer's own bracket check. */
  function StackFeed(stack: seq<char>, w: Word): Option<seq<char>> {
    if !w.Sym? then Some(stack)
    else if Opens(w.c) then Some(stack + [Closer(w.c)])
    else if !Closes(w.c) then Some(stack)
    else if stack == [] || stack[|stack| - 1] != w.c then None
    else Some(stack[..|stack| - 1])
  }

  function StackRun(ws: seq<Word>, stack: seq<char>): Option<seq<char>>
    decreases ws
  {
    if ws == [] then Some(stack)
    else
      var next := StackFeed(stack, ws[0]);
      if next.None? then None else StackRun(ws[1..], next.value)
  }

  lemma {:induction false} StackConcat(a: seq<Word>, b: seq<Word>, stack: seq<char>)
    ensures StackRun(a + b, stack) == if StackRun(a, stack).None? then None else StackRun(b, StackRun(a, stack).value)
    decreases a
  {
    hide StackFeed;
    if a == [] {
      assert a + b == b;
    } else {
      assert (a + b)[1..] == a[1..] + b && (a + b)[0] == a[0];
      if StackFeed(stack, a[0]).Some? { StackConcat(a[1..], b, StackFeed(stack, a[0]).value); }
    }
  }

  lemma StackSnoc(a: seq<Word>, w: Word, stack: seq<char>)
    ensures StackRun(a + [w], stack) == if StackRun(a, stack).None? then None else StackFeed(StackRun(a, stack).value, w)
  {
    hide StackFeed;
    StackConcat(a, [w], stack);
    assert [w][1..] == [];
  }

  /** What the tokenizer accepts: every item readable, every bracket matched. */
  function Tokenized(script: string): Option<seq<Token>> {
    var toks := Tokens(script, 0);
    if toks.Some? && StackRun(WordsOf(toks.value), []) == Some([]) then toks else None
  }

  method Tokenize(script: string) returns (r: Option<seq<Token>>)
    ensures r == Tokenized(script)
  {
    hide Step, StackFeed, WordsOf;
    var i: nat := 0;
    var toks: seq<Token>, stack: seq<char> := [], [];
    assert script[0..] == script;
    assert WordsOf([]) == [] by { NoWords(); }
    CatNone<Token>(Tokens(script, 0));
    while i < |script|
      invariant i <= |script| && Tokens(script, 0) == Cat(toks, Tokens(script[i..], i))
      invariant StackRun(WordsOf(toks), []) == Some(stack)
    {
      var rest := script[i..];
      var item := Step(rest);
      if item == Bad {
        return None;
      }
      StepLength(rest);
      assert rest[item.n..] == script[i + item.n..];
      if item.Take? {
        var t := Token(item.word, i, i + item.n);
        CatMore(toks, t, Tokens(script[i + item.n..], i + item.n));
        SnocWords(toks, t);
        StackSnoc(WordsOf(toks), t.word, []);
        var next := StackFeed(stack, t.word);
        if next.None? {
          Unmatched(toks + [t], Tokens(script[i + item.n..], i + item.n));
          return None;
        }
        toks, stack := toks + [t], next.value;
      }
      i := i + item.n;
    }
    assert script[i..] == "";
    assert Tokens("", i) == Some([]) && toks + [] == toks;
    r := if stack == [] then Some(toks) else None;
  }

  lemma NoWords()
    ensures WordsOf([]) == []
  {}

  lemma CatNone<T>(b: Option<seq<T>>)
    ensures Cat([], b) == b
  {
    if b.Some? { assert [] + b.value == b.value; }
  }

  lemma CatMore(toks: seq<Token>, t: Token, rest: Option<seq<Token>>)
    ensures Cat(toks + [t], rest) == Cat(toks, if rest.None? then None else Some([t] + rest.value))
  {
    if rest.Some? { assert (toks + [t]) + rest.value == toks + ([t] + rest.value); }
  }

  lemma SnocWords(toks: seq<Token>, t: Token)
    ensures WordsOf(toks + [t]) == WordsOf(toks) + [t.word]
  {}

  lemma Unmatched(toks: seq<Token>, rest: Option<seq<Token>>)
    requires StackRun(WordsOf(toks), []).None?
    ensures Cat(toks, rest).Some? ==> StackRun(WordsOf(Cat(toks, rest).value), []).None?
  {
    if rest.Some? {
      assert WordsOf(toks + rest.value) == WordsOf(toks) + WordsOf(rest.value);
      StackConcat(WordsOf(toks), WordsOf(rest.value), []);
    }
  }

  // ---------- commands ----------

  /** The grouper's state carries the tokenizer's stack. */
  lemma FeedStack(st: State, w: Word)
    requires Feed(st, w).Fed?
    ensures StackFeed(st.stack, w) == Some(Feed(st, w).st.stack)
  {
    hide EntryOf;
  }

  lemma {:induction false} RunStack(ws: seq<Word>, st: State)
    requires Run(ws, st).Fed?
    ensures StackRun(ws, st.stack) == Some(Run(ws, st).st.stack)
    decreases ws
  {
    hide Feed, StackFeed;
    if ws != [] {
      FeedStack(st, ws[0]);
      RunStack(ws[1..], Feed(st, ws[0]).st);
    }
  }

  /** command(): a command must start with an identifier. */
  function CommandOf(words: seq<Word>, start: nat, end: nat, block: bool, at: nat): Option<Command> {
    if words == [] || !words[0].Id? then None else Some(Command(words, start, end, block, at))
  }

  lemma ReadingStart(toks: seq<Token>)
    ensures AllPlaced(toks, []) && Reading(toks, 0, Start, [], 0) && Nested(Start)
  {
    assert WordsOf(toks[..0]) == [] && WordsOf(toks[0..0]) == [];
  }

  lemma Prefix(toks: seq<Token>, i: nat)
    requires i <= |toks|
    ensures WordsOf(toks) == WordsOf(toks[..i]) + WordsOf(toks[i..])
  {}

  /** What the tokenizer has matched, the grouper finds matched. */
  lemma FeedFits(toks: seq<Token>, i: nat, st: State, cmds: seq<Command>, from: nat)
    requires StackRun(WordsOf(toks), []) == Some([]) && i < |toks| && AllPlaced(toks, cmds) && Reading(toks, i, st, cmds, from)
    ensures StackFeed(st.stack, toks[i].word).Some?
  {
    hide StackFeed, Feed, WordsOf, AllPlaced, Run, StackRun;
    RunStack(WordsOf(toks[..i]), Start);
    Prefix(toks, i + 1);
    WordsOfSnoc(toks, i);
    StackSnoc(WordsOf(toks[..i]), toks[i].word, []);
    StackConcat(WordsOf(toks[..i + 1]), WordsOf(toks[i + 1..]), []);
  }

  /** Feed, as the grouper sees it. */
  predicate Grouped(st: State, w: Word, f: Fed) {
    match w
    case Sym(c) =>
      if c == '{' then Moved(st, f, if st.depth == 0 then st.current + [w] else st.current, st.depth + 1, st.paren)
      else if c == '}' then
        st.depth > 0 && if st.depth > 1 then Moved(st, f, st.current, st.depth - 1, st.paren) else Finished(st, f, true)
      else if st.depth > 0 then Moved(st, f, st.current, st.depth, st.paren)
      else if c == ';' then if st.paren > 0 then f.Stuck? else Finished(st, f, false)
      else if c == '(' || c == '[' then Moved(st, f, st.current + [w], 0, st.paren + 1)
      else if c == ')' || c == ']' then st.paren > 0 && Moved(st, f, st.current + [w], 0, st.paren - 1)
      else Moved(st, f, st.current + [w], 0, st.paren)
    case _ => Moved(st, f, if st.depth == 0 then st.current + [w] else st.current, st.depth, st.paren)
  }

  predicate Moved(st: State, f: Fed, current: seq<Word>, depth: nat, paren: nat) {
    f.Fed? && f.done == [] && f.st.current == current && f.st.depth == depth && f.st.paren == paren
  }

  predicate Finished(st: State, f: Fed, block: bool) {
    if st.current == [] || !st.current[0].Id? then f.Stuck?
    else f.Fed? && f.st.current == [] && f.st.depth == 0 && f.st.paren == st.paren && f.done == [EntryOf(st.current, block)]
  }

  lemma TopOfStack(st: State)
    requires Nested(st) && st.stack != []
    ensures st.stack[|st.stack| - 1] == '}' ==> st.depth > 0
    ensures st.depth == 0 ==> st.paren > 0
  {
    AllBraces(st.stack);
  }

  lemma FeedOpens(st: State, c: char)
    requires Opens(c)
    ensures Grouped(st, Sym(c), Feed(st, Sym(c)))
  {
    hide EntryOf, Finish;
  }

  lemma FeedCloses(st: State, c: char)
    requires Closes(c) && st.stack != [] && st.stack[|st.stack| - 1] == c && (c == '}' ==> st.depth > 0) && (st.depth == 0 ==> st.paren > 0)
    ensures Grouped(st, Sym(c), Feed(st, Sym(c)))
  {
    hide EntryOf;
  }

  lemma FeedOther(st: State, w: Word)
    requires w.Sym? ==> !Opens(w.c) && !Closes(w.c)
    ensures Grouped(st, w, Feed(st, w))
  {
    hide EntryOf;
  }

  lemma FeedGrouped(st: State, w: Word)
    requires Nested(st) && StackFeed(st.stack, w).Some?
    ensures Grouped(st, w, Feed(st, w)) && (Feed(st, w).Fed? ==> Nested(Feed(st, w).st))
  {
    hide Nested, Braces, Grouped, Feed;
    if Feed(st, w).Fed? { FeedNested(st, w); }
    if st.stack != [] { TopOfStack(st); }
    if w.Sym? && Opens(w.c) {
      FeedOpens(st, w.c);
    } else if w.Sym? && Closes(w.c) {
      FeedCloses(st, w.c);
    } else {
      FeedOther(st, w);
    }
  }

  lemma StuckAt(toks: seq<Token>, i: nat, st: State, cmds: seq<Command>, from: nat)
    requires i < |toks| && AllPlaced(toks, cmds) && Reading(toks, i, st, cmds, from) && Feed(st, toks[i].word).Stuck?
    ensures Run(WordsOf(toks), Start).Stuck?
  {
    hide Feed, WordsOf, AllPlaced, Run;
    WordsOfSnoc(toks, i);
    RunSnoc(WordsOf(toks[..i]), toks[i].word, Start);
    Prefix(toks, i + 1);
    RunConcat(WordsOf(toks[..i + 1]), WordsOf(toks[i + 1..]), Start);
  }

  lemma StepRun(toks: seq<Token>, i: nat, st: State, cmds: seq<Command>, from: nat)
    requires i < |toks| && AllPlaced(toks, cmds) && Reading(toks, i, st, cmds, from) && Feed(st, toks[i].word).Fed?
    ensures var f := Feed(st, toks[i].word); Run(WordsOf(toks[..i + 1]), Start) == Fed(f.st, EntriesOf(cmds) + f.done)
  {
    hide Feed, WordsOf, AllPlaced, Run;
    WordsOfSnoc(toks, i);
    RunSnoc(WordsOf(toks[..i]), toks[i].word, Start);
  }

  lemma GoesOn(toks: seq<Token>, i: nat, st: State, cmds: seq<Command>, from: nat)
    requires i < |toks| && AllPlaced(toks, cmds) && Reading(toks, i, st, cmds, from)
    requires Grouped(st, toks[i].word, Feed(st, toks[i].word)) && Feed(st, toks[i].word).Fed? && Feed(st, toks[i].word).done == []
    ensures Reading(toks, i + 1, Feed(st, toks[i].word).st, cmds, from)
  {
    hide Feed, Placed, Run, Idle, EntriesOf;
    StepRun(toks, i, st, cmds, from);
    assert EntriesOf(cmds) + [] == EntriesOf(cmds);
    if st.depth == 0 {
      assert toks[from..i + 1] == toks[from..i] + [toks[i]];
      assert WordsOf(toks[from..i + 1]) == WordsOf(toks[from..i]) + [toks[i].word];
    }
  }

  lemma Ended(toks: seq<Token>, i: nat, st: State, cmds: seq<Command>, from: nat, cmd: Command)
    requires i < |toks| && AllPlaced(toks, cmds) && Reading(toks, i, st, cmds, from)
    requires Feed(st, toks[i].word).Fed? && Finished(st, Feed(st, toks[i].word), cmd.block)
    requires from <= i && cmd == Command(st.current, toks[from].start, toks[i].end, cmd.block, from) && cmd.words != [] && cmd.words[0].Id?
    requires if cmd.block then st.depth > 0 else st.depth == 0 && toks[i].word == Sym(';')
    ensures AllPlaced(toks, cmds + [cmd]) && Reading(toks, i + 1, Feed(st, toks[i].word).st, cmds + [cmd], i + 1)
  {
    hide Feed, Run, EntriesOf, EntryOf;
    StepRun(toks, i, st, cmds, from);
    assert Placed(toks, cmd, EntriesOf(cmds)) by {
      if !cmd.block { assert toks[from..from + (i - from)] == toks[from..i]; }
    }
    PlacedMore(toks, cmds, cmd);
    assert WordsOf(toks[i + 1..i + 1]) == [];
  }

  lemma AllRead(toks: seq<Token>, st: State, cmds: seq<Command>, from: nat)
    requires StackRun(WordsOf(toks), []) == Some([]) && AllPlaced(toks, cmds) && Reading(toks, |toks|, st, cmds, from)
    ensures Run(WordsOf(toks), Start) == Fed(st, EntriesOf(cmds)) && st.stack == []
  {
    hide Feed, AllPlaced, EntriesOf;
    assert toks[..|toks|] == toks;
    RunStack(WordsOf(toks), Start);
  }

  /** Top-level commands; a brace or bracket the tokenizer has matched needs no second look. */
  method Commands(toks: seq<Token>) returns (r: Option<seq<Command>>)
    requires StackRun(WordsOf(toks), []) == Some([])
    ensures r.Some? ==> AllPlaced(toks, r.value)
    ensures var f := Run(WordsOf(toks), Start);
      if f.Fed? && f.st.current == [] then r.Some? && f.st.stack == [] && EntriesOf(r.value) == f.done else r.None?
  {
    hide Feed, StackFeed, WordsOf, Nested, EntryOf, AllPlaced, Run, Idle, EntriesOf;
    var cmds: seq<Command>, current: seq<Word> := [], [];
    var depth: nat, paren: nat, from: nat := 0, 0, 0;
    ghost var st := Start;
    ReadingStart(toks);
    assert toks[..|toks|] == toks;
    for i := 0 to |toks|
      invariant AllPlaced(toks, cmds) && Reading(toks, i, st, cmds, from) && Nested(st)
      invariant st.current == current && st.depth == depth && st.paren == paren
    {
      var w := toks[i].word;
      FeedFits(toks, i, st, cmds, from);
      ghost var next := Feed(st, w);
      var command: Option<Command> := None;
      var ends := false;
      FeedGrouped(st, w);
      if w == Sym('{') {
        depth := depth + 1;
        if depth == 1 { current := current + [w]; }
      } else if w == Sym('}') {
        depth := depth - 1;
        if depth == 0 { ends, command := true, CommandOf(current, toks[from].start, toks[i].end, true, from); }
      } else if depth == 0 {
        if w == Sym('(') || w == Sym('[') {
          paren := paren + 1;
        } else if w == Sym(')') || w == Sym(']') {
          paren := paren - 1;
        }
        if w == Sym(';') {
          if paren > 0 {
            StuckAt(toks, i, st, cmds, from);
            return None;
          }
          ends, command := true, CommandOf(current, toks[from].start, toks[i].end, false, from);
        } else {
          current := current + [w];
        }
      }
      if ends {
        if command.None? {
          StuckAt(toks, i, st, cmds, from);
          return None;
        }
        Ended(toks, i, st, cmds, from, command.value);
        cmds, current, from := cmds + [command.value], [], i + 1;
      } else {
        GoesOn(toks, i, st, cmds, from);
      }
      st := next.st;
    }
    AllRead(toks, st, cmds, from);
    r := if current == [] then Some(cmds) else None;
  }

  // ---------- team lines ----------

  lemma {:induction false} ThreePlain(ws: seq<Word>, st: State)
    requires |ws| == 3 && st.depth == 0 && !ws[0].Sym? && !ws[1].Sym? && !ws[2].Sym?
    ensures Run(ws, st) == Fed(st.(current := st.current + ws), [])
  {
    var a, b := st.(current := st.current + [ws[0]]), st.(current := st.current + [ws[0]] + [ws[1]]);
    assert ws[1..][0] == ws[1] && ws[1..][1..][0] == ws[2] && ws[1..][1..][1..] == [];
    assert Run(ws[1..][1..], b) == Fed(b.(current := b.current + [ws[2]]), []);
    assert Run(ws[1..], a) == Run(ws[1..][1..], b);
    assert st.current + [ws[0]] + [ws[1]] + [ws[2]] == st.current + ws;
  }

  /** A team line starts and ends where nothing is open, or its semicolon would have been refused. */
  lemma TeamRun(before: seq<Word>, team: seq<Word>, done: seq<Entry>)
    requires TeamLine(team) && Idle(before, done)
    requires Run(before + team + [Sym(';')], Start).Fed?
    ensures Run(before, Start) == Fed(Start, done) && Run(before + team + [Sym(';')], Start) == Fed(Start, done + [Listed(team[2].value)])
  {
    hide TeamLine, Run, EntryOf, Feed;
    var st := Run(before, Start).st;
    assert Nested(st) by { assert Nested(Start); RunNested(before, Start); }
    TeamEntry(team);
    RunConcat(before, team, Start);
    ThreePlain(team, st);
    assert [] + team == team && done + [] == done;
    RunSnoc(before + team, Sym(';'), Start);
    Semicolon(st, team);
    assert st.stack == [] && st == Start;
  }

  /** A semicolon is refused inside brackets, and ends a command elsewhere. */
  lemma Semicolon(st: State, words: seq<Word>)
    requires Feed(st.(current := words), Sym(';')).Fed? && st.depth == 0
    ensures st.paren == 0 && Feed(st.(current := words), Sym(';')) == Fed(State([], 0, 0, st.stack), [EntryOf(words, false)])
  {}

  lemma TeamEntry(team: seq<Word>)
    requires TeamLine(team)
    ensures |team| == 3 && team[0].Id? && team[1].Tag? && team[2].Str? && EntryOf(team, false) == Listed(team[2].value)
  {}

  /** The token places of the c-th command, when it is a team line. */
  lemma TeamPlaced(toks: seq<Token>, cmds: seq<Command>, c: nat)
    requires AllPlaced(toks, cmds) && c < |cmds| && !cmds[c].block && TeamLine(cmds[c].words) && Run(WordsOf(toks), Start).Fed?
    ensures var at := cmds[c].at;
      && at + 3 < |toks| && cmds[c].start == toks[at].start && cmds[c].end == toks[at + 3].end
      && Run(WordsOf(toks[..at]), Start) == Fed(Start, EntriesOf(cmds[..c]))
      && Run(WordsOf(toks[..at + 4]), Start) == Fed(Start, EntriesOf(cmds[..c]) + [Listed(cmds[c].words[2].value)])
  {
    hide Run, EntriesOf;
    var at := cmds[c].at;
    assert Placed(toks, cmds[c], EntriesOf(cmds[..c]));
    assert |cmds[c].words| == 3 by { TeamEntry(cmds[c].words); }
    assert WordsOf(toks[..at + 4]) == WordsOf(toks[..at]) + cmds[c].words + [Sym(';')] by {
      assert toks[..at + 4] == toks[..at] + toks[at..at + 3] + [toks[at + 3]];
    }
    assert Run(WordsOf(toks[..at + 4]), Start).Fed? by {
      Prefix(toks, at + 4);
      RunConcat(WordsOf(toks[..at + 4]), WordsOf(toks[at + 4..]), Start);
    }
    TeamRun(WordsOf(toks[..at]), cmds[c].words, EntriesOf(cmds[..c]));
  }

  // ---------- lineInfo ----------

  /** The start of the line that position `i` is on. */
  function LineStart(s: string, i: nat): (n: nat)
    requires i <= |s|
    ensures n <= i && (n == 0 || s[n - 1] == '\n') && forall j :: n <= j < i ==> s[j] != '\n'
  {
    if i == 0 || s[i - 1] == '\n' then i else LineStart(s, i - 1)
  }

  /** The first character from `i` that is no blank, or `end`. */
  function SkipSpaces(s: string, i: nat, end: nat): (n: nat)
    requires i <= end <= |s|
    ensures i <= n <= end && (n < end ==> !Space(s[n])) && forall j :: i <= j < n ==> Space(s[j])
    decreases end - i
  {
    if i == end || !Space(s[i]) then i else SkipSpaces(s, i + 1, end)
  }

  datatype Line = Line(simple: bool, lineStart: nat, termEnd: nat, term: string)

  function LineInfo(s: string, start: nat, end: nat): Line
    requires start <= end <= |s|
  {
    var lineStart, nl := LineStart(s, start), Find(s, '\n', end);
    var crlf := nl < |s| && nl > end && s[nl - 1] == '\r';
    var lineEnd := if crlf then nl - 1 else nl;
    var j := SkipSpaces(s, end, lineEnd);
    Line(Find(s, '\n', start) >= end && SkipSpaces(s, lineStart, start) == start && (j == lineEnd || s[j] == '#'),
         lineStart, if nl < |s| then nl + 1 else nl, if crlf then "\r\n" else if nl < |s| then "\n" else "")
  }

  lemma SpacesSkipAt(s: string, from: nat, to: nat)
    requires from <= to <= |s| && forall k :: from <= k < to ==> Blank(s[k])
    ensures Hits(s[from..], to - from) && Front(s[from..], to - from) == []
  {
    assert forall k :: 0 <= k < to - from ==> s[from..][k] == s[from + k];
    SpacesSkip(s[from..], to - from);
  }

  lemma CommentSkips(s: string, j: nat, end: nat, nl: nat)
    requires end <= j <= nl <= |s| && j < |s| && s[j] == '#' && nl == Find(s, '\n', end)
    ensures var n := if nl < |s| then nl + 1 - j else nl - j;
      Hits(s[j..], n) && Front(s[j..], n) == []
  {
    FindIs(s[j..], '\n', 0, nl - j);
    var n := if nl < |s| then nl + 1 - j else nl - j;
    assert s[j..][0] == '#' && Step(s[j..]) == Skip(n);
    assert Hits(s[j..][n..], 0) && Front(s[j..][n..], 0) == [];
  }

  /** What follows a command on a simple line is skipped up to the end of the line. */
  lemma RestSkips(s: string, end: nat, termEnd: nat, j: nat, nl: nat)
    requires end <= j <= nl <= |s| && nl == Find(s, '\n', end) && termEnd == (if nl < |s| then nl + 1 else nl)
    requires forall k :: end <= k < j ==> Space(s[k])
    requires (forall k :: j <= k < termEnd ==> Blank(s[k])) || (j < |s| && s[j] == '#')
    ensures end <= termEnd && Hits(s[end..], termEnd - end) && Front(s[end..], termEnd - end) == []
  {
    hide Hits, Front, Step;
    if j < |s| && s[j] == '#' {
      SpacesSkipAt(s, end, j);
      CommentSkips(s, j, end, nl);
      assert s[end..][j - end..] == s[j..];
      HitsConcat(s[end..], j - end, termEnd - j);
      assert (j - end) + (termEnd - j) == termEnd - end;
    } else {
      SpacesSkipAt(s, end, termEnd);
    }
  }

  /** On a simple line the tokenizer stops where the line starts and where the next one does. */
  lemma LineStops(s: string, start: nat, end: nat)
    requires start < end <= |s| && Hits(s, start) && Hits(s, end) && LineInfo(s, start, end).simple
    ensures var l := LineInfo(s, start, end);
      && l.lineStart <= start && end <= l.termEnd <= |s| && (l.lineStart == 0 || s[l.lineStart - 1] == '\n')
      && (l.term == "" <==> Find(s, '\n', end) == |s|) && (if l.term == "" then l.termEnd == |s| else s[l.termEnd - 1] == '\n')
      && Hits(s, l.lineStart) && Front(s, l.lineStart) == Front(s, start)
      && Hits(s, l.termEnd) && Front(s, l.termEnd) == Front(s, end)
  {
    hide Hits, Front;
    var l := LineInfo(s, start, end);
    HitsLineStart(s, l.lineStart, start);
    var nl := Find(s, '\n', end);
    var crlf := nl < |s| && nl > end && s[nl - 1] == '\r';
    var lineEnd := if crlf then nl - 1 else nl;
    RestSkips(s, end, l.termEnd, SkipSpaces(s, end, lineEnd), nl);
    HitsConcat(s, end, l.termEnd - end);
    assert Front(s, end) + [] == Front(s, end);
  }
}
