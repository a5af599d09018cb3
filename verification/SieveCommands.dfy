/** Top-level commands of a Sieve script, grouped from its tokens. */
module SieveCommands {
  import opened Options
  import opened SieveLex

  /** What the analysis keeps of a command: a team member, something that ends or bypasses the team
      lines, or anything else. */
  datatype Entry = Listed(address: string) | Stopper | Other

  /** Tokens of the command being read, open braces and brackets, and the closers still expected. */
  datatype State = State(current: seq<Word>, depth: nat, paren: nat, stack: seq<char>)

  const Start := State([], 0, 0, [])

  function Closer(c: char): char { if c == '{' then '}' else if c == '(' then ')' else ']' }

  predicate Opens(c: char) { c == '{' || c == '(' || c == '[' }

  predicate Closes(c: char) { c == '}' || c == ')' || c == ']' }

  /** A team line redirects a copy to one plainly written address. */
  predicate TeamLine(ws: seq<Word>) {
    |ws| == 3 && ws[0] == Id("redirect") && ws[1] == Tag("copy") && ws[2].Str? && ws[2].value != "" && ws[2].raw == ws[2].value
  }

  /** One finished command; a block is never a member or a stopper. */
  function EntryOf(ws: seq<Word>, block: bool): Entry
    requires ws != [] && ws[0].Id?
  {
    if block then Other
    else if TeamLine(ws) then Listed(ws[2].value)
    else if ws[0].name == "stop" || ws[0].name == "discard" then Stopper
    else if (ws[0].name == "redirect" || ws[0].name == "fileinto") && Tag("copy") !in ws[1..] then Stopper
    else Other
  }

  datatype Fed = Stuck | Fed(st: State, done: seq<Entry>)

  function Finish(st: State, stack: seq<char>, block: bool): Fed {
    if st.current == [] || !st.current[0].Id? then Stuck
    else Fed(State([], 0, st.paren, stack), [EntryOf(st.current, block)])
  }

  /** One token: the tokenizer matches brackets, the grouper looks at top-level tokens only. */
  function Feed(st: State, w: Word): Fed {
    if !w.Sym? then Fed(if st.depth > 0 then st else st.(current := st.current + [w]), [])
    else if Opens(w.c) then
      var stack := st.stack + [Closer(w.c)];
      if w.c == '{' then Fed(State(if st.depth == 0 then st.current + [w] else st.current, st.depth + 1, st.paren, stack), [])
      else if st.depth > 0 then Fed(st.(stack := stack), [])
      else Fed(State(st.current + [w], 0, st.paren + 1, stack), [])
    else if Closes(w.c) then
      if st.stack == [] || st.stack[|st.stack| - 1] != w.c then Stuck
      else
        var stack := st.stack[..|st.stack| - 1];
        if w.c == '}' then
          if st.depth == 0 then Stuck else if st.depth == 1 then Finish(st, stack, true) else Fed(State(st.current, st.depth - 1, st.paren, stack), [])
        else if st.depth > 0 then Fed(st.(stack := stack), [])
        else if st.paren == 0 then Stuck
        else Fed(State(st.current + [w], 0, st.paren - 1, stack), [])
    else if w.c == ';' && st.depth == 0 then if st.paren > 0 then Stuck else Finish(st, st.stack, false)
    else Fed(if st.depth > 0 then st else st.(current := st.current + [w]), [])
  }

  /** All tokens in order: the state they lead to and the commands they finish. */
  function Run(ws: seq<Word>, st: State): Fed
    decreases ws
  {
    if ws == [] then Fed(st, [])
    else
      var f := Feed(st, ws[0]);
      if f.Stuck? then Stuck
      else
        var rest := Run(ws[1..], f.st);
        if rest.Stuck? then Stuck else Fed(rest.st, f.done + rest.done)
  }

  /** The commands of a script, or nothing when it cannot be read. */
  function Parsed(s: string): Option<seq<Entry>> {
    var ws := Words(s);
    if ws.None? then None
    else
      var f := Run(ws.value, Start);
      if f.Fed? && f.st.current == [] && f.st.stack == [] then Some(f.done) else None
  }

  lemma {:induction false} RunConcat(a: seq<Word>, b: seq<Word>, st: State)
    ensures Run(a + b, st) ==
      (var f := Run(a, st);
       if f.Stuck? then Stuck else var g := Run(b, f.st); if g.Stuck? then Stuck else Fed(g.st, f.done + g.done))
    decreases a
  {
    hide Feed;
    if a == [] {
      assert a + b == b;
      assert forall e: seq<Entry> :: [] + e == e;
    } else {
      assert (a + b)[1..] == a[1..] + b && (a + b)[0] == a[0];
      var f := Feed(st, a[0]);
      if f.Fed? {
        RunConcat(a[1..], b, f.st);
        assert forall x: seq<Entry>, y: seq<Entry>, z: seq<Entry> {:trigger (x + y) + z} :: (x + y) + z == x + (y + z);
      }
    }
  }

  // ---------- brackets ----------

  function Braces(stack: seq<char>): nat { if stack == [] then 0 else (if stack[|stack| - 1] == '}' then 1 else 0) + Braces(stack[..|stack| - 1]) }

  /** The braces among the expected closers are the grouper's depth, and what is below the first of
      them is its bracket count. */
  predicate Nested(st: State) {
    && Braces(st.stack) == st.depth && st.paren <= |st.stack|
    && (forall i :: 0 <= i < st.paren ==> st.stack[i] != '}')
    && (if st.depth == 0 then |st.stack| == st.paren else st.paren < |st.stack| && st.stack[st.paren] == '}')
  }

  lemma BracesSnoc(stack: seq<char>, c: char)
    ensures Braces(stack + [c]) == Braces(stack) + if c == '}' then 1 else 0
  {
    assert (stack + [c])[..|stack|] == stack;
  }

  lemma PushNested(depth: nat, paren: nat, stack: seq<char>, c: char, current: seq<Word>)
    requires Nested(State(current, depth, paren, stack)) && (c == '}' || depth > 0)
    ensures Nested(State(current, if c == '}' then depth + 1 else depth, paren, stack + [c]))
  {
    BracesSnoc(stack, c);
  }

  lemma PopNested(depth: nat, paren: nat, front: seq<char>, c: char, current: seq<Word>)
    requires Nested(State(current, depth, paren, front + [c])) && depth > 0
    ensures Nested(State(current, if c == '}' then depth - 1 else depth, paren, front))
  {
    var stack := front + [c];
    BracesSnoc(front, c);
    AllBraces(front);
    assert forall i :: 0 <= i < |front| ==> stack[i] == front[i];
  }

  lemma FlatNested(paren: nat, stack: seq<char>, current: seq<Word>)
    requires (forall i :: 0 <= i < |stack| ==> stack[i] != '}') && |stack| == paren
    ensures Nested(State(current, 0, paren, stack))
  {
    AllBraces(stack);
  }

  lemma FeedNested(st: State, w: Word)
    requires Nested(st) && Feed(st, w).Fed?
    ensures Nested(Feed(st, w).st)
  {
    hide Braces, EntryOf;
    if w.Sym? && Opens(w.c) {
      if w.c == '{' || st.depth > 0 {
        PushNested(st.depth, st.paren, st.stack, Closer(w.c), Feed(st, w).st.current);
      } else {
        FlatNested(st.paren + 1, st.stack + [Closer(w.c)], st.current + [w]);
      }
    } else if w.Sym? && Closes(w.c) {
      var front := st.stack[..|st.stack| - 1];
      assert st.stack == front + [w.c];
      if st.depth > 0 {
        PopNested(st.depth, st.paren, front, w.c, Feed(st, w).st.current);
      } else {
        FlatNested(st.paren - 1, front, st.current + [w]);
      }
    }
  }

  lemma {:induction false} AllBraces(stack: seq<char>)
    ensures Braces(stack) == 0 <==> forall i :: 0 <= i < |stack| ==> stack[i] != '}'
  {
    if stack != [] {
      var front := stack[..|stack| - 1];
      AllBraces(front);
      assert forall i :: 0 <= i < |front| ==> front[i] == stack[i];
    }
  }

  /** The two bracket checks agree: the grouper never sees a brace or bracket it did not open. */
  lemma {:induction false} RunNested(ws: seq<Word>, st: State)
    requires Nested(st) && Run(ws, st).Fed?
    ensures Nested(Run(ws, st).st)
    decreases ws
  {
    hide Feed, Nested;
    if ws != [] {
      FeedNested(st, ws[0]);
      RunNested(ws[1..], Feed(st, ws[0]).st);
    }
  }
}
