/** A printed condition reads back as the same tree and accepts the same mails. */
module GmailMeaning {
  import opened Options
  import opened SieveLex
  import opened SieveTests
  import opened SieveText
  import opened GmailTree
  import opened GmailSieve
  import Decimals

  // ---------- shape ----------

  lemma {:induction false} JoinFirm(parts: seq<string>, words: seq<seq<Word>>, sep: string)
    requires |parts| == |words| > 0 && forall i :: 0 <= i < |parts| ==> Firm(parts[i], words[i])
    requires Loose(sep, [Sym(',')]) && sep != "" && Ends(sep)
    ensures Firm(Join(parts, sep), Commas(words))
  {
    hide Loose, Firm, Words;
    if |parts| > 1 {
      JoinFirm(parts[1..], words[1..], sep);
      FirmLoose(parts[0], words[0], sep, [Sym(',')]);
      LooseFirm(parts[0] + sep, words[0] + [Sym(',')], Join(parts[1..], sep), Commas(words[1..]));
      assert parts[0] + sep + Join(parts[1..], sep) == Join(parts, sep);
      assert words[0] + [Sym(',')] + Commas(words[1..]) == Commas(words);
    }
  }

  lemma PaddedFirm(parts: seq<string>, words: seq<seq<Word>>, n: nat)
    requires |parts| == |words| && forall i :: 0 <= i < |parts| ==> Firm(parts[i], words[i])
    ensures forall i :: 0 <= i < |parts| ==> Firm(Padded(parts, Spaces(n))[i], words[i])
  {
    hide Loose, Firm, Words;
    GapLoose(Spaces(n));
    forall i | 0 <= i < |parts| ensures Firm(Padded(parts, Spaces(n))[i], words[i]) {
      LooseFirm(Spaces(n), [], parts[i], words[i]);
      assert [] + words[i] == words[i];
    }
  }

  lemma Wrapped(open: string, wo: seq<Word>, body: string, wb: seq<Word>, close: string)
    requires Loose(open, wo) && Firm(body, wb) && Loose(close, [Sym(')')]) && close != "" && Ends(close)
    ensures Loose(open + body + close, wo + (wb + [Sym(')')]))
  {
    hide Loose, Firm, Words;
    FirmLoose(body, wb, close, [Sym(')')]);
    LooseLoose(open, wo, body + close, wb + [Sym(')')]);
    assert open + (body + close) == open + body + close;
  }

  lemma CloseLoose(ind: nat)
    ensures Loose(")", [Sym(')')]) && Loose("\n" + Spaces(ind) + ")", [Sym(')')])
  {
    hide Loose, Firm, Words;
    SymLoose(')');
    GapLoose("\n" + Spaces(ind));
    LooseLoose("\n" + Spaces(ind), [], ")", [Sym(')')]);
    assert [] + [Sym(')')] == [Sym(')')];
  }

  lemma LayoutLoose(kw: string, parts: seq<string>, words: seq<seq<Word>>, ind: nat)
    requires kw == "allof" || kw == "anyof"
    requires |parts| == |words| > 0 && forall i :: 0 <= i < |parts| ==> Firm(parts[i], words[i])
    ensures Loose(Layout(kw, parts, ind), [Id(kw), Sym('(')] + (Commas(words) + [Sym(')')]))
  {
    hide Loose, Firm, Words, Join, Commas;
    AnyHead();
    CommaLoose();
    CloseLoose(ind);
    assert "allof" + " (" == "allof (" && "anyof" + " (" == "anyof (";
    assert "allof" + " (\n" == "allof (\n" && "anyof" + " (\n" == "anyof (\n";
    JoinFirm(parts, words, ", ");
    Wrapped(kw + " (", [Id(kw), Sym('(')], Join(parts, ", "), Commas(words), ")");
    PaddedFirm(parts, words, ind + 2);
    var padded := Padded(parts, Spaces(ind + 2));
    JoinFirm(padded, words, ",\n");
    Wrapped(kw + " (\n", [Id(kw), Sym('(')], Join(padded, ",\n"), Commas(words), "\n" + Spaces(ind) + ")");
    assert kw + " (\n" + Join(padded, ",\n") + "\n" + Spaces(ind) + ")" == kw + " (\n" + Join(padded, ",\n") + ("\n" + Spaces(ind) + ")");
  }

  /** Whatever the indent and the layout, the text has the words of the condition's test. */
  lemma {:induction false} FmtFirm(node: Node, ind: nat, neg: bool)
    requires Shaped(node) && Fmt(node, ind, neg).Ok?
    ensures Firm(Fmt(node, ind, neg).value, TestWords(ToTest(node)))
    decreases node
  {
    hide Loose, Firm, Words, TermText, TermTest, SizeText, Layout, Commas;
    match node {
      case Term(field, value) =>
        TermLoose(field, value, neg);
        LooseIsFirm(TermText(field, value, neg).value, TestWords(TermTest(field, value)));
      case Size(over, num, unit) => SizeFirm(over, num, unit);
      case Not(kid) =>
        FmtFirm(kid, ind, !neg);
        NameGap("not");
        assert "not" + " " == "not ";
        var text := Fmt(kid, ind, !neg).value;
        LooseFirm("not ", [Id("not")], text, TestWords(ToTest(kid)));
      case _ =>
        FmtKidsAt(node, 0, ind + 2, neg);
        var parts := FmtKids(node, 0, ind + 2, neg).value;
        var tests := seq(|node.kids|, i requires 0 <= i < |node.kids| => ToTest(node.kids[i]));
        forall i | 0 <= i < |parts| ensures Firm(parts[i], KidWords(tests)[i]) {
          FmtFirm(node.kids[i], ind + 2, neg);
        }
        LayoutLoose(if node.And? then "allof" else "anyof", parts, KidWords(tests), ind);
        LooseIsFirm(Fmt(node, ind, neg).value, TestWords(ToTest(node)));
    }
  }

  lemma LooseIsFirm(text: string, words: seq<Word>)
    requires Loose(text, words)
    ensures Firm(text, words)
  {
    hide Words;
  }

  /** The printed text, read by the grammar of Sieve, is the tree that was printed. */
  lemma ReadsBack(node: Node, ind: nat, neg: bool)
    requires Shaped(node) && Fmt(node, ind, neg).Ok?
    ensures Words(Fmt(node, ind, neg).value).Some?
    ensures ParseTest(Words(Fmt(node, ind, neg).value).value) == Got(ToTest(node), [])
  {
    hide Firm, Fmt, ToTest, TestWords, ParseTest, Proper;
    FmtFirm(node, ind, neg);
    FirmAlone(Fmt(node, ind, neg).value, TestWords(ToTest(node)));
    ToTestProper(node);
    TestParses(ToTest(node), []);
    assert TestWords(ToTest(node)) + [] == TestWords(ToTest(node));
  }

  // ---------- meaning ----------

  /** The escaped pattern matches exactly what the value matches with only its stars special. */
  lemma {:induction false} PatternExact(v: string, s: string)
    ensures Glob(MatchPattern(v), s) == Stars(v, s)
    decreases |v| + |s|
  {
    if v != "" {
      var p, n := MatchPattern(v), if v[0] == '\\' || v[0] == '?' then 2 else 1;
      assert p[n..] == MatchPattern(v[1..]);
      if s != "" { PatternExact(v[1..], s[1..]); }
      if v[0] == '*' {
        PatternExact(v[1..], s);
        if s != "" { PatternExact(v, s[1..]); }
      }
    }
  }

  lemma GlobsExact(mail: Mail, names: seq<string>, v: string)
    ensures SomeGlob(mail, names, MatchPattern(v)) == SomeStars(mail, names, v)
  {
    hide Glob, Stars, MatchPattern;
    forall i | 0 <= i < |names| ensures AnyGlob(Lookup(mail.addresses, names[i]), MatchPattern(v)) == AnyStars(Lookup(mail.addresses, names[i]), v) {
      var values := Lookup(mail.addresses, names[i]);
      forall j | 0 <= j < |values| ensures Glob(MatchPattern(v), values[j]) == Stars(v, values[j]) { PatternExact(v, values[j]); }
    }
  }

  lemma QuantityExact(num: nat, unit: Unit)
    ensures Quantity(Decimals.Digits(num) + Suffix(unit)) == num * Factor(unit)
  {
    var digits, text := Decimals.Digits(num), Decimals.Digits(num) + Suffix(unit);
    Decimals.DigitsValue(num);
    assert unit.Bytes? ==> text == digits;
    assert !unit.Bytes? ==> text[..|text| - 1] == digits && text[|text| - 1] == Suffix(unit)[0];
    assert forall i :: 0 <= i < |digits| ==> text[i] == digits[i];
  }

  lemma TermExact(field: Field, v: string, mail: Mail)
    ensures Eval(TermTest(field, v), mail) == HoldsTerm(field, v, mail, false)
  {
    hide SomeContains, SomeStars, SomeGlob, AnyContains;
    GlobsExact(mail, Names(field, false), v);
    if field.Anywhere? {
      var kids := TermTest(field, v).kids;
      assert Eval(kids[0], mail) == SomeContains(mail, Names(field, false), v);
      assert Eval(kids[1], mail) == AnyContains(mail.text, v);
    } else if field.To? {
      assert ["to", "cc"] + [] == ["to", "cc"];
    }
  }

  /** The Sieve test accepts exactly the mails the condition accepts. */
  lemma {:induction false} TestExact(node: Node, mail: Mail)
    ensures Eval(ToTest(node), mail) == Holds(node, mail, false)
    decreases node
  {
    hide HoldsTerm, TermTest, Quantity, EvalLeaf;
    match node {
      case Term(field, value) => TermExact(field, value, mail);
      case Size(over, num, unit) => SizeExact(over, num, unit, mail);
      case Not(kid) => TestExact(kid, mail);
      case _ => JoinExact(node, mail);
    }
  }

  lemma {:induction false} JoinExact(node: Node, mail: Mail)
    requires node.And? || node.Or?
    ensures Eval(ToTest(node), mail) == Holds(node, mail, false)
    decreases node, 0
  {
    var kids, tests := node.kids, ToTest(node).kids;
    assert forall i :: 0 <= i < |kids| ==> tests[i] == ToTest(kids[i]);
    forall i | 0 <= i < |kids| ensures Eval(tests[i], mail) == Holds(kids[i], mail, false) { TestExact(kids[i], mail); }
  }

  lemma SizeExact(over: bool, num: nat, unit: Unit, mail: Mail)
    ensures Eval(ToTest(Size(over, num, unit)), mail) == Holds(Size(over, num, unit), mail, false)
  {
    hide Quantity;
    QuantityExact(num, unit);
  }

  // ---------- polarity ----------

  lemma TermWider(field: Field, v: string, mail: Mail)
    ensures HoldsTerm(field, v, mail, false) ==> HoldsTerm(field, v, mail, true)
    ensures !field.To? ==> HoldsTerm(field, v, mail, false) == HoldsTerm(field, v, mail, true)
  {
    hide AnyContains, AnyStars;
    var a, b := Names(field, false), Names(field, true);
    assert forall i :: 0 <= i < |a| ==> b[i] == a[i];
  }

  /** Not seeing blind copies can only narrow what a printed condition accepts, or widen it under an odd number of negations. */
  lemma {:induction false} Polarity(node: Node, ind: nat, neg: bool, mail: Mail)
    requires Fmt(node, ind, neg).Ok?
    ensures !neg ==> Holds(node, mail, false) ==> Holds(node, mail, true)
    ensures neg ==> Holds(node, mail, true) ==> Holds(node, mail, false)
    decreases node
  {
    hide HoldsTerm, SizeText, Layout;
    match node {
      case Term(field, value) => TermWider(field, value, mail);
      case Size(over, num, unit) =>
      case Not(kid) => Polarity(kid, ind, !neg, mail);
      case _ =>
        FmtKidsAt(node, 0, ind + 2, neg);
        forall i | 0 <= i < |node.kids|
          ensures (!neg ==> Holds(node.kids[i], mail, false) ==> Holds(node.kids[i], mail, true)) && (neg ==> Holds(node.kids[i], mail, true) ==> Holds(node.kids[i], mail, false))
        {
          Polarity(node.kids[i], ind + 2, neg, mail);
        }
    }
  }

  /** Every recipient term lies under an even number of negations. */
  predicate ToEven(node: Node, neg: bool)
    decreases node
  {
    match node
    case Term(field, _) => !field.To? || !neg
    case Size(_, _, _) => true
    case Not(kid) => ToEven(kid, !neg)
    case And(kids) => forall i :: 0 <= i < |kids| ==> ToEven(kids[i], neg)
    case Or(kids) => forall i :: 0 <= i < |kids| ==> ToEven(kids[i], neg)
  }

  /** No value holds a variable reference. */
  predicate NoVariables(node: Node)
    decreases node
  {
    match node
    case Term(_, value) => !Dollar(value)
    case Size(_, _, _) => true
    case Not(kid) => NoVariables(kid)
    case And(kids) => forall i :: 0 <= i < |kids| ==> NoVariables(kids[i])
    case Or(kids) => forall i :: 0 <= i < |kids| ==> NoVariables(kids[i])
  }

  lemma DollarCons(c: char, s: string)
    ensures Dollar([c] + s) <==> (s != "" && c == '$' && s[0] == '{') || Dollar(s)
  {
    assert ([c] + s)[1..] == s;
  }

  lemma {:induction false} PatternDollar(v: string)
    ensures Dollar(MatchPattern(v)) == Dollar(v)
  {
    if v != "" {
      PatternDollar(v[1..]);
      var c, q := v[0], MatchPattern(v[1..]);
      assert v == [c] + v[1..];
      DollarCons(c, v[1..]);
      DollarCons(c, q);
      if |v| > 1 { assert q[0] == if v[1] == '\\' || v[1] == '?' then '\\' else v[1]; }
      if c == '\\' || c == '?' {
        DollarCons('\\', [c] + q);
        assert MatchPattern(v) == ['\\'] + ([c] + q);
      }
    }
  }

  /** Printing succeeds exactly when no value could expand and every recipient term is under an even number of negations. */
  lemma {:induction false} Printable(node: Node, ind: nat, neg: bool)
    ensures Fmt(node, ind, neg).Ok? <==> ToEven(node, neg) && NoVariables(node)
    decreases node
  {
    hide Dollar, MatchPattern, SizeText, Layout, Quoted;
    match node {
      case Term(field, value) => PatternDollar(value);
      case Size(over, num, unit) =>
      case Not(kid) => Printable(kid, ind, !neg);
      case _ =>
        FmtKidsAt(node, 0, ind + 2, neg);
        forall i | 0 <= i < |node.kids| ensures Fmt(node.kids[i], ind + 2, neg).Ok? <==> ToEven(node.kids[i], neg) && NoVariables(node.kids[i]) {
          Printable(node.kids[i], ind + 2, neg);
        }
    }
  }
}
