/** The words a piece of script text stands for, wherever it is put. */
module SieveText {
  import opened Options
  import opened SieveLex
  import opened SieveTests

  /** No identifier, tag or number in front can run on into the rest, and no label can arise. */
  predicate Ends(rest: string) { rest == "" || (!IdChar(rest[0]) && rest[0] != ':') }

  /** The text reads as these words before every rest that cannot prolong its last word. */
  ghost predicate Firm(text: string, words: seq<Word>) {
    forall rest: string :: Ends(rest) ==> Words(text + rest) == Cat(words, Words(rest))
  }

  /** The text reads as these words before every rest. */
  ghost predicate Loose(text: string, words: seq<Word>) {
    forall rest: string :: Words(text + rest) == Cat(words, Words(rest))
  }

  lemma FirmAlone(text: string, words: seq<Word>)
    requires Firm(text, words)
    ensures Words(text) == Some(words)
  {
    assert text + "" == text && words + [] == words;
  }

  lemma LooseLoose(a: string, wa: seq<Word>, b: string, wb: seq<Word>)
    requires Loose(a, wa) && Loose(b, wb)
    ensures Loose(a + b, wa + wb)
  {
    hide Words;
    forall rest: string ensures Words((a + b) + rest) == Cat(wa + wb, Words(rest)) {
      assert (a + b) + rest == a + (b + rest);
      CatCat(wa, wb, Words(rest));
    }
  }

  lemma LooseFirm(a: string, wa: seq<Word>, b: string, wb: seq<Word>)
    requires Loose(a, wa) && Firm(b, wb)
    ensures Firm(a + b, wa + wb)
  {
    hide Words;
    forall rest: string | Ends(rest) ensures Words((a + b) + rest) == Cat(wa + wb, Words(rest)) {
      assert (a + b) + rest == a + (b + rest);
      CatCat(wa, wb, Words(rest));
    }
  }

  lemma FirmLoose(a: string, wa: seq<Word>, b: string, wb: seq<Word>)
    requires Firm(a, wa) && Loose(b, wb) && b != "" && Ends(b)
    ensures Loose(a + b, wa + wb)
  {
    hide Words;
    forall rest: string ensures Words((a + b) + rest) == Cat(wa + wb, Words(rest)) {
      assert (a + b) + rest == a + (b + rest) && (b + rest)[0] == b[0];
      CatCat(wa, wb, Words(rest));
    }
  }

  // ---------- single words ----------

  predicate Name(s: string) { s != "" && IdStart(s[0]) && (forall i :: 0 <= i < |s| ==> IdChar(s[i]) && !Upper(s[i])) }

  lemma NameLower(s: string)
    requires Name(s)
    ensures Lower(s) == s
  {}

  lemma IdFirm(name: string)
    requires Name(name)
    ensures Firm(name, [Id(name)])
  {
    forall rest: string | Ends(rest) ensures Words(name + rest) == Cat([Id(name)], Words(rest)) {
      var s := name + rest;
      assert forall j :: 0 <= j < |name| ==> s[j] == name[j];
      IdEndIs(s, 0, |name|);
      NameLower(name);
      assert s[..|name|] == name && s[|name|..] == rest;
      assert Step(s) == Take(Id(name), |name|);
    }
  }

  lemma TagFirm(name: string)
    requires Name(name)
    ensures Firm(":" + name, [Tag(name)])
  {
    forall rest: string | Ends(rest) ensures Words((":" + name) + rest) == Cat([Tag(name)], Words(rest)) {
      var s := (":" + name) + rest;
      var n := 1 + |name|;
      assert forall j :: 1 <= j < n ==> s[j] == name[j - 1];
      IdEndIs(s, 1, n);
      NameLower(name);
      assert s[1..n] == name && s[n..] == rest;
      assert Step(s) == Take(Tag(name), n);
    }
  }

  lemma NumFirm(digits: string, suffix: string)
    requires digits != "" && (forall i :: 0 <= i < |digits| ==> Digit(digits[i]))
    requires suffix == "" || (|suffix| == 1 && Scale(suffix[0]))
    ensures Firm(digits + suffix, [Num(digits + suffix)])
  {
    var num := digits + suffix;
    forall rest: string | Ends(rest) ensures Words(num + rest) == Cat([Num(num)], Words(rest)) {
      var s, d := num + rest, |digits|;
      assert forall j :: 0 <= j < d ==> s[j] == digits[j];
      assert suffix != "" ==> s[d] == suffix[0];
      assert suffix == "" && rest != "" ==> s[d] == rest[0];
      DigitEndIs(s, 0, d);
      assert s[..|num|] == num && s[|num|..] == rest;
      assert Step(s) == Take(Num(num), |num|);
    }
  }

  /** A text that starts with one word and goes on. */
  lemma StepWords(s: string, w: Word, n: nat, rest: string)
    requires 0 < n <= |s| && Step(s) == Take(w, n) && s[n..] == rest
    ensures Words(s) == Cat([w], Words(rest))
  {
    hide Step;
  }

  lemma SymLoose(c: char)
    requires Symbol(c)
    ensures Loose([c], [Sym(c)])
  {
    hide Words, Cat;
    forall rest: string ensures Words([c] + rest) == Cat([Sym(c)], Words(rest)) {
      StepWords([c] + rest, Sym(c), 1, rest);
    }
  }

  lemma {:induction false} GapLoose(gap: string)
    requires forall i :: 0 <= i < |gap| ==> Blank(gap[i])
    ensures Loose(gap, [])
  {
    forall rest: string ensures Words(gap + rest) == Cat([], Words(rest)) {
      SpacesSkip(gap + rest, |gap|);
      WordsSplit(gap + rest, |gap|);
      assert (gap + rest)[|gap|..] == rest;
    }
  }

  // ---------- strings ----------

  lemma {:induction false} EscapeShape(v: string, rest: string, at: nat, s: string)
    requires at <= |s| && s[at..] == Escape(v) + ("\"" + rest)
    ensures Quote(s, at) == at + |Escape(v)|
    decreases |v|
  {
    assert forall j :: at <= j < |s| ==> s[j] == s[at..][j - at];
    if v != "" {
      var n := if v[0] == '\\' || v[0] == '"' then 2 else 1;
      assert s[at + n..] == s[at..][n..] == Escape(v[1..]) + ("\"" + rest);
      EscapeShape(v[1..], rest, at + n, s);
    }
  }

  /** A string literal reads back to the value it was printed from. */
  lemma {:induction false} UnescapeEscape(v: string)
    ensures Unescape(Escape(v)) == v
  {
    if v != "" {
      UnescapeEscape(v[1..]);
      var n := if v[0] == '\\' || v[0] == '"' then 2 else 1;
      assert Escape(v)[n..] == Escape(v[1..]);
      assert v == [v[0]] + v[1..];
    }
  }

  function Quoted(v: string): string { "\"" + Escape(v) + "\"" }

  lemma StrLoose(v: string)
    ensures Loose(Quoted(v), [StrWord(v)])
  {
    hide Words, Cat, Escape;
    forall rest: string ensures Words(Quoted(v) + rest) == Cat([StrWord(v)], Words(rest)) {
      var s, n := Quoted(v) + rest, 1 + |Escape(v)|;
      assert s[1..] == Escape(v) + ("\"" + rest);
      EscapeShape(v, rest, 1, s);
      UnescapeEscape(v);
      assert s[1..n] == Escape(v) && s[n + 1..] == rest;
      assert s[0] == '"';
      StepWords(s, StrWord(v), n + 1, rest);
    }
  }
}
