/** Search text: its tokens, and the tokenizer's loop. */
module GmailQuery {
  import opened Options
  import opened SieveLex
  import opened GmailTree
  import opened GmailSieve

  datatype Tok = LP | RP | OR | AND | NEG | FIELD(field: Field) | STR(v: string) | WORD(v: string)

  predicate Stop(c: char) { White(c) || c == '(' || c == ')' || c == '"' || c == '|' || c == '{' || c == '}' }

  function WordEnd(s: string, i: nat): (n: nat)
    requires i <= |s|
    ensures i <= n <= |s|
    decreases |s| - i
  {
    if i == |s| || Stop(s[i]) then i else WordEnd(s, i + 1)
  }

  function ColonEnd(s: string, i: nat): (n: nat)
    requires i <= |s|
    ensures i <= n <= |s|
    decreases |s| - i
  {
    if i < |s| && s[i] == ':' then ColonEnd(s, i + 1) else i
  }

  function FieldNamed(name: string): Option<Field> {
    if name == "from" then Some(From) else if name == "to" then Some(To)
    else if name == "cc" then Some(Cc) else if name == "subject" then Some(Subject) else None
  }

  const OTHER_OPERATORS: set<string> := {
    "bcc", "after", "before", "older", "newer", "older_than", "newer_than", "label", "category", "has", "list",
    "filename", "in", "is", "deliveredto", "size", "larger", "smaller", "rfc822msgid", "header"
  }

  /** The lower-case operator name in front of a colon, if there is one. */
  function Operator(s: string): Option<string> {
    var n := IdEnd(s, 0);
    if 0 < n < |s| && s[n] == ':' then Some(Lower(s[..n])) else None
  }

  /** The tokens of one word: operators in front, then a search word. */
  function Split(w: string): Out<seq<Tok>>
    decreases |w|
  {
    var op := Operator(w);
    if op.Some? && op.value in OTHER_OPERATORS then Err(Unsupported)
    else if op.None? || FieldNamed(op.value).None? then
      if w == "" then Ok([]) else if w[0] == '+' then Err(Unsupported) else Ok([WORD(w)])
    else Put([FIELD(FieldNamed(op.value).value)], Split(w[ColonEnd(w, IdEnd(w, 0) + 1)..]))
  }

  function Put(front: seq<Tok>, rest: Out<seq<Tok>>): Out<seq<Tok>> { if rest.Err? then rest else Ok(front + rest.value) }

  function Both(front: Out<seq<Tok>>, rest: Out<seq<Tok>>): Out<seq<Tok>> { if front.Err? then front else Put(front.value, rest) }

  function Single(c: char): seq<Tok> {
    if c == '(' then [LP] else if c == ')' then [RP] else if c == '|' then [OR] else if c == '-' then [NEG] else []
  }

  function WordToks(w: string): Out<seq<Tok>> {
    if w == "OR" then Ok([OR]) else if w == "AND" then Ok([AND]) else if w == "AROUND" then Err(Unsupported) else Split(w)
  }

  datatype Chunk = Chunk(toks: seq<Tok>, n: nat)

  /** The tokens read at the start of a text, and how much of it they take. */
  function Head(s: string): (r: Out<Chunk>)
    requires s != ""
    ensures r.Ok? ==> 0 < r.value.n <= |s|
  {
    if White(s[0]) || Single(s[0]) != [] then Ok(Chunk(Single(s[0]), 1))
    else if s[0] == '{' || s[0] == '}' || s[0] == '+' then Err(Unsupported)
    else if s[0] == '"' then
      var j := Find(s, '"', 1);
      if j == |s| then Err(ParseError) else Ok(Chunk([STR(s[1..j])], j + 1))
    else
      var j := WordEnd(s, 1);
      var w := WordToks(s[..j]);
      if w.Err? then Err(w.error) else Ok(Chunk(w.value, j))
  }

  /** The tokens of a search text; the first fault decides. */
  function Lex(s: string): Out<seq<Tok>>
    decreases |s|
  {
    if s == "" then Ok([])
    else
      var h := Head(s);
      if h.Err? then Err(h.error) else Put(h.value.toks, Lex(s[h.value.n..]))
  }

  lemma PutPut(a: seq<Tok>, b: seq<Tok>, r: Out<seq<Tok>>)
    ensures Put(a, Put(b, r)) == Put(a + b, r)
  {
    if r.Ok? { assert a + (b + r.value) == (a + b) + r.value; }
  }

  /** The operators of one word, taken off one by one. */
  method SplitWord(w: string, toks: seq<Tok>) returns (r: Out<seq<Tok>>)
    ensures r == Put(toks, Split(w))
  {
    hide Operator, Lower, FieldNamed;
    var rest, out := w, toks;
    while true
      invariant Put(toks, Split(w)) == Put(out, Split(rest))
      decreases |rest|
    {
      var op := Operator(rest);
      if op.Some? && op.value in OTHER_OPERATORS { return Err(Unsupported); }
      if op.None? || FieldNamed(op.value).None? {
        if rest != "" && rest[0] == '+' { return Err(Unsupported); }
        if rest != "" { out := out + [WORD(rest)]; }
        assert rest == "" ==> out + [] == out;
        return Ok(out);
      }
      var f := FIELD(FieldNamed(op.value).value);
      OperatorEnds(rest);
      var next := rest[ColonEnd(rest, IdEnd(rest, 0) + 1)..];
      PutPut(out, [f], Split(next));
      out := out + [f];
      rest := next;
    }
  }

  lemma OperatorEnds(s: string)
    requires Operator(s).Some?
    ensures IdEnd(s, 0) < |s|
  {}

  /** The tokenizer reads a text from left to right. */
  method Tokenize(src: string) returns (r: Out<seq<Tok>>)
    ensures r == Lex(src)
  {
    hide WordToks, White, Split, Single, Head, Put;
    var toks: seq<Tok>, i := [], 0;
    PutNothing(src);
    while i < |src|
      invariant i <= |src| && Lex(src) == Put(toks, Lex(src[i..]))
    {
      var h := ReadHead(src, i);
      if h.Err? {
        PutFault(toks, h.error);
        return Err(h.error);
      }
      PutPut(toks, h.value.toks, Lex(src[i..][h.value.n..]));
      assert src[i..][h.value.n..] == src[i + h.value.n..];
      toks := toks + h.value.toks;
      i := i + h.value.n;
    }
    assert src[i..] == "";
    PutEnd(toks);
    r := Ok(toks);
  }

  lemma PutNothing(s: string)
    ensures s[0..] == s && Lex(s) == Put([], Lex(s[0..]))
  {
    hide Head, Lex;
    assert s[0..] == s;
    PutZero(Lex(s));
  }

  lemma PutZero(r: Out<seq<Tok>>)
    ensures Put([], r) == r
  {
    if r.Ok? { assert [] + r.value == r.value; }
  }

  lemma PutFault(toks: seq<Tok>, e: Error)
    ensures Put(toks, Err(e)) == Err(e)
  {}

  lemma PutEnd(toks: seq<Tok>)
    ensures Put(toks, Ok([])) == Ok(toks)
  {
    assert toks + [] == toks;
  }

  /** One round of the loop: what stands at a place of the text. */
  method ReadHead(src: string, i: nat) returns (r: Out<Chunk>)
    requires i < |src|
    ensures r == Head(src[i..])
  {
    hide WordToks, White;
    var c := src[i];
    ghost var s := src[i..];
    assert forall k :: i <= k < |src| ==> s[k - i] == src[k];
    if White(c) || Single(c) != [] { return Ok(Chunk(Single(c), 1)); }
    if c == '{' || c == '}' || c == '+' { return Err(Unsupported); }
    var j := i + 1;
    if c == '"' {
      while j < |src| && src[j] != '"'
        invariant i < j <= |src| && Find(s, '"', 1) == Find(s, '"', j - i)
      {
        j := j + 1;
      }
      if j == |src| { return Err(ParseError); }
      assert s[1..j - i] == src[i + 1..j];
      return Ok(Chunk([STR(src[i + 1..j])], j + 1 - i));
    }
    while j < |src| && !Stop(src[j])
      invariant i < j <= |src| && WordEnd(s, 1) == WordEnd(s, j - i)
    {
      j := j + 1;
    }
    assert s[..j - i] == src[i..j];
    var w := OneWord(src[i..j], []);
    PutZero(WordToks(src[i..j]));
    if w.Err? { return Err(w.error); }
    return Ok(Chunk(w.value, j - i));
  }

  method OneWord(w: string, toks: seq<Tok>) returns (r: Out<seq<Tok>>)
    ensures r == Put(toks, WordToks(w))
  {
    if w == "OR" {
      r := Ok(toks + [OR]);
    } else if w == "AND" {
      r := Ok(toks + [AND]);
    } else if w == "AROUND" {
      r := Err(Unsupported);
    } else {
      r := SplitWord(w, toks);
    }
  }

  // ---------- writing tokens down ----------

  function FieldName(f: Field): string {
    match f case From => "from" case To => "to" case Cc => "cc" case Subject => "subject" case Anywhere => ""
  }

  /** Tokens that can be written down: values without quotes, operators in front of their value. */
  predicate Spellable(toks: seq<Tok>) {
    if toks == [] then true
    else
      && Spellable(toks[1..])
      && match toks[0]
         case STR(v) => '"' !in v
         case FIELD(f) => !f.Anywhere? && |toks| > 1 && toks[1].STR?
         case WORD(_) => false
         case AND => false
         case _ => true
  }

  function Spelling(t: Tok): string {
    match t
    case LP => "("
    case RP => ")"
    case OR => "|"
    case AND => " AND "
    case NEG => "-"
    case FIELD(f) => FieldName(f) + ":"
    case STR(v) => "\"" + v + "\""
    case WORD(v) => v
  }

  function Spell(toks: seq<Tok>): string { if toks == [] then "" else Spelling(toks[0]) + Spell(toks[1..]) }

  lemma {:induction false} SpellableConcat(a: seq<Tok>, b: seq<Tok>)
    requires Spellable(a) && Spellable(b)
    ensures Spellable(a + b)
  {
    if a == [] {
      assert a + b == b;
    } else {
      SpellableConcat(a[1..], b);
      assert (a + b)[1..] == a[1..] + b;
    }
  }

  lemma FieldHead(f: Field, rest: string)
    requires !f.Anywhere? && rest != "" && rest[0] == '"'
    ensures Head(FieldName(f) + ":" + rest) == Ok(Chunk([FIELD(f)], |FieldName(f)| + 1))
  {
    hide WordToks;
    var w := FieldName(f) + ":";
    var s := w + rest;
    assert forall i :: 0 <= i < |w| ==> s[i] == w[i];
    assert s[|w|] == '"';
    WordEndIs(s, 1, |w|);
    assert s[..|w|] == w;
    FieldSplits(f);
  }

  lemma {:induction false} WordEndIs(s: string, i: nat, n: nat)
    requires i <= n < |s| && (forall j :: i <= j < n ==> !Stop(s[j])) && Stop(s[n])
    ensures WordEnd(s, i) == n
    decreases n - i
  {
    hide Stop;
    if i < n { WordEndIs(s, i + 1, n); }
  }

  lemma FieldSplits(f: Field)
    requires !f.Anywhere?
    ensures WordToks(FieldName(f) + ":") == Ok([FIELD(f)])
  {
    var n, w := FieldName(f), FieldName(f) + ":";
    OperatorNamed(n);
    assert FieldNamed(n) == Some(f);
    assert n !in OTHER_OPERATORS;
    assert Split("") == Ok([]);
    assert w[|n|] == ':';
    assert w != "OR" && w != "AND" && w != "AROUND";
    assert [FIELD(f)] + [] == [FIELD(f)];
  }

  lemma OperatorNamed(n: string)
    requires n != "" && forall i :: 0 <= i < |n| ==> IdChar(n[i]) && !Upper(n[i])
    ensures var w := n + ":"; Operator(w) == Some(n) && IdEnd(w, 0) == |n| && ColonEnd(w, |n| + 1) == |n| + 1 && w[|n| + 1..] == ""
  {
    var w := n + ":";
    IdEndIs(w, 0, |n|);
    assert w[..|n|] == n && Lower(n) == n;
  }

  /** Tokens written down are read back. */
  lemma {:induction false} SpellLexes(toks: seq<Tok>)
    requires Spellable(toks)
    ensures Lex(Spell(toks)) == Ok(toks)
  {
    hide Head, Spelling;
    if toks != [] {
      SpellLexes(toks[1..]);
      SpellHead(toks);
      var t, rest := toks[0], Spell(toks[1..]);
      assert (Spelling(t) + rest)[|Spelling(t)|..] == rest;
      assert toks == [t] + toks[1..];
    }
  }

  lemma StrHead(v: string, rest: string)
    requires '"' !in v
    ensures Head("\"" + v + "\"" + rest) == Ok(Chunk([STR(v)], |v| + 2))
  {
    hide WordToks;
    var s, j := "\"" + v + "\"" + rest, 1 + |v|;
    assert s[0] == '"' && s[j] == '"';
    assert forall i :: 1 <= i < j ==> s[i] == v[i - 1];
    FindIs(s, '"', 1, j);
    assert s[1..j] == v;
  }

  lemma MarkHead(t: Tok, rest: string)
    requires t.LP? || t.RP? || t.OR? || t.NEG?
    ensures Head(Spelling(t) + rest) == Ok(Chunk([t], 1)) && |Spelling(t)| == 1
  {
    hide WordToks;
    assert (Spelling(t) + rest)[0] == Spelling(t)[0];
  }

  lemma SpellHead(toks: seq<Tok>)
    requires Spellable(toks) && toks != []
    ensures Spelling(toks[0]) != "" && Head(Spell(toks)) == Ok(Chunk([toks[0]], |Spelling(toks[0])|))
  {
    hide Spell, WordToks, Head;
    SpellCons(toks);
    var t, rest := toks[0], Spell(toks[1..]);
    if t.STR? {
      StrHead(t.v, rest);
    } else if t.FIELD? {
      SpellCons(toks[1..]);
      FieldHead(t.field, rest);
    } else {
      MarkHead(t, rest);
    }
  }

  lemma SpellCons(toks: seq<Tok>)
    requires toks != []
    ensures Spell(toks) == Spelling(toks[0]) + Spell(toks[1..])
  {}
}
