/** The tokenizer of the Sieve team editor, item by item. */
module SieveLex {
  import opened Options

  predicate Blank(c: char) { c == ' ' || c == '\t' || c == '\r' || c == '\n' }
  predicate Upper(c: char) { 'A' <= c <= 'Z' }
  predicate Letter(c: char) { Upper(c) || 'a' <= c <= 'z' }
  predicate Digit(c: char) { '0' <= c <= '9' }
  predicate IdStart(c: char) { Letter(c) || c == '_' }
  predicate IdChar(c: char) { IdStart(c) || Digit(c) }
  predicate Scale(c: char) { c == 'K' || c == 'k' || c == 'M' || c == 'm' || c == 'G' || c == 'g' }
  predicate Symbol(c: char) { c == '{' || c == '}' || c == '(' || c == ')' || c == '[' || c == ']' || c == ',' || c == ';' }

  function LowerChar(c: char): char { if Upper(c) then (c as int + 32) as char else c }

  function Lower(s: string): string { seq(|s|, i requires 0 <= i < |s| => LowerChar(s[i])) }

  /** A token without its place; a string keeps the text between its quotes. */
  datatype Word = Str(value: string, raw: string) | Tag(name: string) | Id(name: string) | Num(text: string) | Sym(c: char)

  /** What the tokenizer does at one place: skip, take a token, or give up. */
  datatype Item = Bad | Skip(n: nat) | Take(word: Word, n: nat)

  // ---------- scanning ----------

  function Find(s: string, c: char, i: nat): (n: nat)
    requires i <= |s|
    ensures i <= n <= |s| && (n < |s| ==> s[n] == c) && forall j :: i <= j < n ==> s[j] != c
    decreases |s| - i
  {
    if i == |s| || s[i] == c then i else Find(s, c, i + 1)
  }

  /** The end of a block comment's text, or the end of the script. */
  function Close(s: string, i: nat): (n: nat)
    requires i <= |s|
    ensures i <= n <= |s| && (n < |s| ==> n + 1 < |s| && s[n] == '*' && s[n + 1] == '/')
    ensures forall j :: i <= j < n && j + 1 < |s| ==> s[j] != '*' || s[j + 1] != '/'
    decreases |s| - i
  {
    if i == |s| then i else if i + 1 < |s| && s[i] == '*' && s[i + 1] == '/' then i else Close(s, i + 1)
  }

  function IdEnd(s: string, i: nat): (n: nat)
    requires i <= |s|
    ensures i <= n <= |s| && (n < |s| ==> !IdChar(s[n])) && forall j :: i <= j < n ==> IdChar(s[j])
    decreases |s| - i
  {
    if i == |s| || !IdChar(s[i]) then i else IdEnd(s, i + 1)
  }

  function DigitEnd(s: string, i: nat): (n: nat)
    requires i <= |s|
    ensures i <= n <= |s| && (n < |s| ==> !Digit(s[n])) && forall j :: i <= j < n ==> Digit(s[j])
    decreases |s| - i
  {
    if i == |s| || !Digit(s[i]) then i else DigitEnd(s, i + 1)
  }

  /** The closing quote, or the end of the script. */
  function Quote(s: string, i: nat): (n: nat)
    requires i <= |s|
    ensures i <= n <= |s| && (n < |s| ==> s[n] == '"')
    decreases |s| - i
  {
    if i == |s| then i
    else if s[i] == '\\' then if i + 1 == |s| then |s| else Quote(s, i + 2)
    else if s[i] == '"' then i else Quote(s, i + 1)
  }

  function Unescape(raw: string): string {
    if raw == "" then ""
    else if raw[0] == '\\' then if |raw| == 1 then "" else [raw[1]] + Unescape(raw[2..])
    else [raw[0]] + Unescape(raw[1..])
  }

  function Step(s: string): Item
    requires s != ""
  {
    var c := s[0];
    if Blank(c) then Skip(1)
    else if c == '#' then var n := Find(s, '\n', 0); Skip(if n == |s| then n else n + 1)
    else if c == '/' then
      if |s| == 1 || s[1] != '*' then Bad
      else var n := Close(s, 2); if n == |s| then Bad else Skip(n + 2)
    else if c == '"' then
      var n := Quote(s, 1); if n == |s| then Bad else Take(Str(Unescape(s[1..n]), s[1..n]), n + 1)
    else if c == ':' then
      if |s| == 1 || !IdStart(s[1]) then Bad else var n := IdEnd(s, 1); Take(Tag(Lower(s[1..n])), n)
    else if IdStart(c) then
      var n := IdEnd(s, 0); if n < |s| && s[n] == ':' then Bad else Take(Id(Lower(s[..n])), n)
    else if Digit(c) then
      var d := DigitEnd(s, 0);
      var n := if d < |s| && Scale(s[d]) then d + 1 else d;
      Take(Num(s[..n]), n)
    else if Symbol(c) then Take(Sym(c), 1)
    else Bad
  }

  lemma StepLength(s: string)
    requires s != "" && Step(s) != Bad
    ensures 0 < Step(s).n <= |s|
  {}

  /** The tokens of a text; brackets are not matched here. */
  function Words(s: string): Option<seq<Word>>
    decreases |s|
  {
    if s == "" then Some([])
    else if Step(s) == Bad then None
    else
      StepLength(s);
      var rest := Words(s[Step(s).n..]);
      if rest.None? then None else if Step(s).Take? then Some([Step(s).word] + rest.value) else rest
  }

  /** Reading the text item by item stops at `m`. */
  predicate Hits(s: string, m: nat)
    decreases m
  {
    m == 0 || (s != "" && Step(s) != Bad && 0 < Step(s).n <= m && Step(s).n <= |s| && Hits(s[Step(s).n..], m - Step(s).n))
  }

  function Front(s: string, m: nat): seq<Word>
    requires Hits(s, m)
    decreases m
  {
    if m == 0 then []
    else if Step(s).Take? then [Step(s).word] + Front(s[Step(s).n..], m - Step(s).n)
    else Front(s[Step(s).n..], m - Step(s).n)
  }

  function Cat<T>(a: seq<T>, b: Option<seq<T>>): Option<seq<T>> { if b.None? then None else Some(a + b.value) }

  lemma CatCat<T>(a: seq<T>, b: seq<T>, c: Option<seq<T>>)
    ensures Cat(a, Cat(b, c)) == Cat(a + b, c)
  {
    if c.Some? { assert a + (b + c.value) == (a + b) + c.value; }
  }

  lemma {:induction false} WordsSplit(s: string, m: nat)
    requires Hits(s, m)
    ensures m <= |s| && Words(s) == Cat(Front(s, m), Words(s[m..]))
    decreases m
  {
    hide Step;
    if m == 0 {
      assert s[0..] == s;
      assert forall w: seq<Word> :: [] + w == w;
    } else {
      var n := Step(s).n;
      WordsSplit(s[n..], m - n);
      assert s[n..][m - n..] == s[m..];
      if Step(s).Take? && Words(s[m..]).Some? {
        assert [Step(s).word] + (Front(s[n..], m - n) + Words(s[m..]).value) == ([Step(s).word] + Front(s[n..], m - n)) + Words(s[m..]).value;
      }
    }
  }

  // ---------- what an item depends on ----------

  predicate Agree(a: string, b: string, m: nat) { m <= |a| && m <= |b| && a[..m] == b[..m] }

  lemma AgreeAt(a: string, b: string, m: nat)
    requires Agree(a, b, m)
    ensures forall j {:trigger a[j]} {:trigger b[j]} :: 0 <= j < m ==> a[j] == b[j]
  {
    assert forall j :: 0 <= j < m ==> a[j] == a[..m][j] && b[j] == b[..m][j];
  }

  /** The two texts go on after `m` in a way no item before can tell apart. */
  predicate Seam(a: string, b: string, m: nat)
    requires m <= |a| && m <= |b|
  {
    m == 0 || a[m - 1] == '\n' || |a| == |b| == m || (m < |a| && m < |b| && a[m] == b[m])
  }

  lemma {:induction false} QuoteLocal(a: string, b: string, m: nat, i: nat)
    requires Agree(a, b, m) && i <= m && Quote(a, i) < m
    ensures Quote(b, i) == Quote(a, i)
    decreases m - i
  {
    AgreeAt(a, b, m);
    if a[i] == '\\' {
      QuoteLocal(a, b, m, i + 2);
    } else if a[i] != '"' {
      QuoteLocal(a, b, m, i + 1);
    }
  }

  lemma {:induction false} IdEndIs(s: string, i: nat, n: nat)
    requires i <= n <= |s| && (forall j :: i <= j < n ==> IdChar(s[j])) && (n < |s| ==> !IdChar(s[n]))
    ensures IdEnd(s, i) == n
  {}

  lemma {:induction false} DigitEndIs(s: string, i: nat, n: nat)
    requires i <= n <= |s| && (forall j :: i <= j < n ==> Digit(s[j])) && (n < |s| ==> !Digit(s[n]))
    ensures DigitEnd(s, i) == n
  {}

  lemma {:induction false} FindIs(s: string, c: char, i: nat, n: nat)
    requires i <= n <= |s| && (forall j :: i <= j < n ==> s[j] != c) && (n < |s| ==> s[n] == c)
    ensures Find(s, c, i) == n
  {}

  lemma CloseIs(s: string, i: nat, n: nat)
    requires i <= n && n + 1 < |s| && s[n] == '*' && s[n + 1] == '/'
    requires forall j :: i <= j < n ==> s[j] != '*' || s[j + 1] != '/'
    ensures Close(s, i) == n
  {}

  /** An item before a seam is the same in both texts. */
  lemma StepLocal(a: string, b: string, m: nat)
    requires Agree(a, b, m) && 0 < m && Step(a) != Bad && 0 < Step(a).n <= m && Seam(a, b, m)
    ensures Step(b) == Step(a)
  {
    AgreeAt(a, b, m);
    var c, n := a[0], Step(a).n;
    assert a[..n] == b[..n] by { assert forall j :: 0 <= j < n ==> a[j] == b[j]; }
    if !Blank(c) {
      if c == '#' {
        SkipLocal(a, b, m);
      } else if c == '/' {
        CloseIs(b, 2, n - 2);
      } else if c == '"' {
        QuoteLocal(a, b, m, 1);
        assert a[1..n - 1] == a[..n][1..n - 1] == b[1..n - 1];
      } else if !Symbol(c) {
        WordLocal(a, b, m);
      }
    }
  }

  lemma WordLocal(a: string, b: string, m: nat)
    requires Agree(a, b, m) && 0 < m && Step(a) != Bad && 0 < Step(a).n <= m && Seam(a, b, m) && (a[0] == ':' || IdChar(a[0]))
    ensures Step(b) == Step(a)
  {
    AgreeAt(a, b, m);
    var c, n := a[0], Step(a).n;
    assert a[..n] == b[..n] by { assert forall j :: 0 <= j < n ==> a[j] == b[j]; }
    if c == ':' {
      IdEndIs(b, 1, n);
      assert a[1..n] == a[..n][1..] == b[1..n];
    } else if IdStart(c) {
      IdEndIs(b, 0, n);
    } else {
      DigitEndIs(b, 0, DigitEnd(a, 0));
    }
  }

  lemma SkipLocal(a: string, b: string, m: nat)
    requires Agree(a, b, m) && 0 < m && a[0] == '#' && Step(a).n <= m && Seam(a, b, m)
    ensures Step(b) == Step(a)
  {
    AgreeAt(a, b, m);
    var n := Find(a, '\n', 0);
    if n == |a| {
      assert a == a[..m] && b[..m] == a;
      assert |b| == m;
      assert b == b[..m];
    } else {
      FindIs(b, '\n', 0, n);
    }
  }

  lemma {:induction false} HitsLocal(a: string, b: string, m: nat)
    requires Hits(a, m) && Agree(a, b, m) && Seam(a, b, m)
    ensures Hits(b, m) && Front(b, m) == Front(a, m)
    decreases m
  {
    hide Step;
    if m > 0 {
      var n := Step(a).n;
      StepLocal(a, b, m);
      assert a[n..][..m - n] == a[..m][n..] && b[n..][..m - n] == b[..m][n..];
      assert m - n > 0 ==> a[n..][m - n - 1] == a[m - 1];
      assert m < |a| ==> a[n..][m - n] == a[m];
      assert m < |b| ==> b[n..][m - n] == b[m];
      HitsLocal(a[n..], b[n..], m - n);
    }
  }

  // ---------- a line end at the end of the script ----------

  predicate LineEnd(c: char) { c == '\n' || c == '\r' }

  predicate OpenComment(s: string) { s != "" && s[0] == '#' && Find(s, '\n', 0) == |s| }

  lemma {:induction false} QuoteMore(s: string, c: char, i: nat)
    requires i <= |s| && LineEnd(c)
    ensures Quote(s + [c], i) == if Quote(s, i) < |s| then Quote(s, i) else |s| + 1
    decreases |s| - i
  {
    var t := s + [c];
    assert forall j :: 0 <= j < |s| ==> t[j] == s[j];
    if i < |s| {
      if s[i] == '\\' {
        if i + 1 < |s| { QuoteMore(s, c, i + 2); }
      } else if s[i] != '"' {
        QuoteMore(s, c, i + 1);
      }
    }
  }

  lemma {:induction false} CloseMore(s: string, c: char, i: nat)
    requires i <= |s| && LineEnd(c)
    ensures Close(s + [c], i) == if Close(s, i) < |s| then Close(s, i) else |s| + 1
    decreases |s| - i
  {
    var t := s + [c];
    assert forall j :: 0 <= j < |s| ==> t[j] == s[j];
    if i < |s| && Close(s, i) != i { CloseMore(s, c, i + 1); }
  }

  lemma WordMore(s: string, c: char)
    requires s != "" && LineEnd(c) && (s[0] == ':' || IdChar(s[0]))
    ensures Step(s + [c]) == Step(s)
  {
    var t, h := s + [c], s[0];
    assert forall j :: 0 <= j < |s| ==> t[j] == s[j];
    if h == ':' {
      if |s| > 1 && IdStart(s[1]) {
        IdEndIs(t, 1, IdEnd(s, 1));
        assert t[1..IdEnd(s, 1)] == s[1..IdEnd(s, 1)];
      }
    } else if IdStart(h) {
      IdEndIs(t, 0, IdEnd(s, 0));
      assert t[..IdEnd(s, 0)] == s[..IdEnd(s, 0)];
    } else {
      var d := DigitEnd(s, 0);
      DigitEndIs(t, 0, d);
      assert t[..d] == s[..d] && (d < |s| ==> t[..d + 1] == s[..d + 1]);
    }
  }

  /** A final line end is a blank, or the end of a comment that would have ended there anyway. */
  lemma StepMore(s: string, c: char)
    requires s != "" && LineEnd(c)
    ensures if OpenComment(s) then Step(s) == Skip(|s|) && Step(s + [c]) == Skip(|s| + 1) else Step(s + [c]) == Step(s)
  {
    var t := s + [c];
    assert forall j :: 0 <= j < |s| ==> t[j] == s[j];
    var h := s[0];
    if !Blank(h) {
      if h == '#' {
        if Find(s, '\n', 0) < |s| { FindIs(t, '\n', 0, Find(s, '\n', 0)); }
      } else if h == '/' {
        if |s| > 1 { CloseMore(s, c, 2); }
      } else if h == '"' {
        QuoteMore(s, c, 1);
        var n := Quote(s, 1);
        if n < |s| { assert t[1..n] == s[1..n]; }
      } else if h == ':' || IdChar(h) {
        WordMore(s, c);
      }
    }
  }

  lemma {:induction false} WordsMore(s: string, c: char)
    requires LineEnd(c)
    ensures Words(s + [c]) == Words(s)
    decreases |s|
  {
    if s == "" {
      assert s + [c] == [c] && [c][1..] == "";
    } else {
      StepMore(s, c);
      hide Step, OpenComment;
      if Step(s) != Bad {
        StepLength(s);
        var n := Step(s).n;
        if Step(s + [c]) == Step(s) {
          assert (s + [c])[n..] == s[n..] + [c];
          WordsMore(s[n..], c);
        } else {
          assert (s + [c])[|s| + 1..] == "" && s[|s|..] == "";
        }
      }
    }
  }

  // ---------- tokens with their places ----------

  datatype Token = Token(word: Word, start: nat, end: nat)

  /** The tokens of a text that stands at `at` of the script. */
  function Tokens(s: string, at: nat): Option<seq<Token>>
    decreases |s|
  {
    if s == "" then Some([])
    else if Step(s) == Bad then None
    else
      StepLength(s);
      var rest := Tokens(s[Step(s).n..], at + Step(s).n);
      if rest.None? then None
      else if Step(s).Take? then Some([Token(Step(s).word, at, at + Step(s).n)] + rest.value) else rest
  }

  function WordsOf(toks: seq<Token>): seq<Word> { seq(|toks|, i requires 0 <= i < |toks| => toks[i].word) }

  lemma {:induction false} TokensWords(s: string, at: nat)
    ensures Tokens(s, at).None? <==> Words(s).None?
    ensures Tokens(s, at).Some? ==> Words(s) == Some(WordsOf(Tokens(s, at).value))
    decreases |s|
  {
    hide Step;
    if s == "" {
      assert WordsOf([]) == [];
    } else if Step(s) != Bad {
      StepLength(s);
      var n := Step(s).n;
      TokensWords(s[n..], at + n);
      var rest := Tokens(s[n..], at + n);
      if rest.Some? && Step(s).Take? {
        var t := Token(Step(s).word, at, at + n);
        assert WordsOf([t] + rest.value) == [t.word] + WordsOf(rest.value);
      }
    }
  }

  /** Where a token stands in the text, and what was read before it and with it. */
  predicate Stands(s: string, at: nat, toks: seq<Token>, k: nat)
    requires k < |toks|
  {
    var t := toks[k];
    && at <= t.start < t.end <= at + |s|
    && Hits(s, t.start - at) && Front(s, t.start - at) == WordsOf(toks[..k])
    && Hits(s, t.end - at) && Front(s, t.end - at) == WordsOf(toks[..k + 1])
    && Step(s[t.start - at..]) == Take(t.word, t.end - t.start)
  }

  lemma {:induction false} TokenStands(s: string, at: nat, k: nat)
    requires Tokens(s, at).Some? && k < |Tokens(s, at).value|
    ensures Stands(s, at, Tokens(s, at).value, k)
    decreases |s|
  {
    hide Step, WordsOf, Stands;
    StepLength(s);
    var toks, n := Tokens(s, at).value, Step(s).n;
    var rest := Tokens(s[n..], at + n).value;
    if Step(s).Take? {
      var t := Token(Step(s).word, at, at + n);
      assert toks == [t] + rest;
      if k == 0 {
        FirstStands(s, at, t, rest);
      } else {
        TokenStands(s[n..], at + n, k - 1);
        ConsStands(s, at, t, rest, k - 1);
      }
    } else {
      TokenStands(s[n..], at + n, k);
      SkipStands(s, at, rest, k);
    }
  }

  lemma ConsStands(s: string, at: nat, t: Token, rest: seq<Token>, k: nat)
    requires s != "" && Step(s).Take? && 0 < Step(s).n <= |s| && t == Token(Step(s).word, at, at + Step(s).n)
    requires k < |rest| && Stands(s[Step(s).n..], at + Step(s).n, rest, k)
    ensures Stands(s, at, [t] + rest, k + 1)
  {
    hide Step, WordsOf;
    Consed(s, at, rest, k, Step(s).n);
    ConsWords(t, rest, k);
    ConsWords(t, rest, k + 1);
  }

  lemma SkipStands(s: string, at: nat, rest: seq<Token>, k: nat)
    requires s != "" && Step(s).Skip? && 0 < Step(s).n <= |s|
    requires k < |rest| && Stands(s[Step(s).n..], at + Step(s).n, rest, k)
    ensures Stands(s, at, rest, k)
  {
    hide Step, WordsOf;
    Consed(s, at, rest, k, Step(s).n);
    assert [] + WordsOf(rest[..k]) == WordsOf(rest[..k]) && [] + WordsOf(rest[..k + 1]) == WordsOf(rest[..k + 1]);
  }

  lemma ConsWords(t: Token, rest: seq<Token>, k: nat)
    requires k <= |rest|
    ensures WordsOf(([t] + rest)[..k + 1]) == [t.word] + WordsOf(rest[..k])
  {
    assert ([t] + rest)[..k + 1] == [t] + rest[..k];
  }

  lemma FirstStands(s: string, at: nat, t: Token, rest: seq<Token>)
    requires s != "" && Step(s).Take? && 0 < Step(s).n <= |s| && t == Token(Step(s).word, at, at + Step(s).n)
    ensures Stands(s, at, [t] + rest, 0)
  {
    hide Step;
    var toks := [t] + rest;
    assert WordsOf(toks[..0]) == [] && WordsOf(toks[..1]) == [t.word];
    assert s[0..] == s;
    assert Hits(s[t.end - at..], 0) && Front(s[t.end - at..], 0) == [];
    assert toks[..0] == [] && toks[..0 + 1] == toks[..1];
  }

  lemma Consed(s: string, at: nat, rest: seq<Token>, k: nat, n: nat)
    requires s != "" && Step(s) != Bad && n == Step(s).n && 0 < n <= |s| && k < |rest| && Stands(s[n..], at + n, rest, k)
    ensures var t, head := rest[k], if Step(s).Take? then [Step(s).word] else [];
      && Hits(s, t.start - at) && Front(s, t.start - at) == head + WordsOf(rest[..k])
      && Hits(s, t.end - at) && Front(s, t.end - at) == head + WordsOf(rest[..k + 1])
      && s[t.start - at..] == s[n..][t.start - at - n..]
  {
    hide Step, WordsOf;
    assert forall w: seq<Word> :: [] + w == w;
  }

  // ---------- positions ----------

  lemma FrontCons(s: string, m: nat)
    requires s != "" && Step(s) != Bad && 0 < Step(s).n <= m && Step(s).n <= |s| && Hits(s[Step(s).n..], m - Step(s).n)
    ensures Hits(s, m) && Front(s, m) == (if Step(s).Take? then [Step(s).word] else []) + Front(s[Step(s).n..], m - Step(s).n)
  {
    hide Step;
    assert forall w: seq<Word> :: [] + w == w;
  }

  lemma HitsCons(s: string, m: nat)
    requires Hits(s, m) && m > 0
    ensures s != "" && Step(s) != Bad && 0 < Step(s).n <= m && Step(s).n <= |s| && Hits(s[Step(s).n..], m - Step(s).n)
  {}

  lemma HitsHere(s: string)
    ensures s[0..] == s && Hits(s, 0) && Front(s, 0) == []
  {}

  lemma {:induction false} HitsConcat(s: string, a: nat, b: nat)
    requires Hits(s, a) && a <= |s| && Hits(s[a..], b)
    ensures Hits(s, a + b) && Front(s, a + b) == Front(s, a) + Front(s[a..], b)
    decreases a
  {
    hide Step, Hits, Front;
    if a == 0 {
      HitsHere(s);
      assert [] + Front(s, b) == Front(s, b);
    } else {
      HitsCons(s, a);
      var n := Step(s).n;
      assert s[a..] == s[n..][a - n..];
      HitsWithin(s[n..], a - n);
      HitsConcat(s[n..], a - n, b);
      FrontCons(s, a);
      FrontCons(s, a + b);
      var head := if Step(s).Take? then [Step(s).word] else [];
      assert head + (Front(s[n..], a - n) + Front(s[a..], b)) == (head + Front(s[n..], a - n)) + Front(s[a..], b);
    }
  }

  lemma {:induction false} HitsWithin(s: string, m: nat)
    requires Hits(s, m)
    ensures m <= |s|
    decreases m
  {
    hide Step;
    if m > 0 { HitsWithin(s[Step(s).n..], m - Step(s).n); }
  }

  /** A token that starts before a stop lies wholly before it. */
  lemma {:induction false} TokenBefore(s: string, a: nat, b: nat)
    requires Hits(s, a) && Hits(s, b) && a < b && a < |s| && Step(s[a..]).Take?
    ensures |Front(s, b)| > |Front(s, a)|
    decreases a
  {
    hide Step;
    if a == 0 {
      assert s[0..] == s;
    } else {
      var n := Step(s).n;
      assert s[a..] == s[n..][a - n..];
      TokenBefore(s[n..], a - n, b - n);
    }
  }

  predicate Space(c: char) { c == ' ' || c == '\t' }

  lemma ItemEnds(s: string)
    requires s != "" && Step(s) != Bad && 1 < Step(s).n < |s|
    ensures !Space(s[Step(s).n - 1])
  {}

  /** The start of a line that leads up to a token with blanks only is a stop of the tokenizer. */
  lemma {:induction false} HitsLineStart(s: string, line: nat, start: nat)
    requires Hits(s, start) && line <= start < |s| && (forall j :: line <= j < start ==> Space(s[j]))
    requires line == 0 || s[line - 1] == '\n'
    ensures Hits(s, line) && Front(s, line) == Front(s, start)
    decreases start
  {
    hide Step;
    if line == 0 {
      if start > 0 { SpacesSkip(s, start); }
    } else if start > 0 {
      var n := Step(s).n;
      if n > line {
        ItemEnds(s);
      } else {
        assert forall j :: line - n <= j < start - n ==> s[n..][j] == s[n + j];
        assert line - n > 0 ==> s[n..][line - n - 1] == s[line - 1];
        if n < line {
          HitsLineStart(s[n..], line - n, start - n);
        } else {
          if start - n > 0 { SpacesSkip(s[n..], start - n); }
        }
      }
    }
  }

  /** Leading blanks are skipped one by one. */
  lemma {:induction false} SpacesSkip(s: string, m: nat)
    requires m <= |s| && forall j :: 0 <= j < m ==> Blank(s[j])
    ensures Hits(s, m) && Front(s, m) == []
    decreases m
  {
    if m > 0 {
      assert forall j :: 0 <= j < m - 1 ==> s[1..][j] == s[j + 1];
      SpacesSkip(s[1..], m - 1);
    }
  }
}
