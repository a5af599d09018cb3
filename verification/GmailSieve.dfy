/** Printing a search condition as a Sieve test. */
module GmailSieve {
  import opened SieveLex
  import opened SieveTests
  import opened SieveText
  import opened GmailTree
  import Decimals

  datatype Error = Unsupported | NegatedTo | ParseError | NoCondition

  datatype Out<+T> = Ok(value: T) | Err(error: Error)

  // ---------- printing ----------

  /** The text holds "${", which Sieve would expand. */
  predicate Dollar(v: string) { |v| >= 2 && ((v[0] == '$' && v[1] == '{') || Dollar(v[1..])) }

  function Str(v: string): Out<string> { if Dollar(v) then Err(Unsupported) else Ok(Quoted(v)) }

  /** Stars stay wildcards; backslashes and question marks stand for themselves. */
  function MatchPattern(v: string): string {
    if v == "" then "" else (if v[0] == '\\' || v[0] == '?' then ['\\', v[0]] else [v[0]]) + MatchPattern(v[1..])
  }

  function Header(field: Field): string {
    if field.From? then "\"from\"" else if field.To? then "[\"to\", \"cc\"]" else "[\"cc\"]"
  }

  function After(head: string, v: string): Out<string> {
    var s := Str(v);
    if s.Err? then s else Ok(head + s.value)
  }

  const ALL_HEADERS := "[\"subject\", \"from\", \"to\", \"cc\"]"

  function TermText(field: Field, v: string, neg: bool): Out<string> {
    match field
    case Subject => After("header :contains \"subject\" ", v)
    case Anywhere =>
      var s := Str(v);
      if s.Err? then s
      else Ok("anyof (" + ("header :contains " + ALL_HEADERS + " " + s.value) + ", " + ("body :text :contains " + s.value) + ")")
    case _ =>
      if field.To? && neg then Err(NegatedTo)
      else if '*' in v then After("address :matches " + Header(field) + " ", MatchPattern(v))
      else After("header :contains " + Header(field) + " ", v)
  }

  function Suffix(unit: Unit): string { match unit case Bytes => "" case Kilo => "K" case Mega => "M" }

  function SizeText(over: bool, num: nat, unit: Unit): string {
    "size " + (if over then ":over" else ":under") + " " + Decimals.Digits(num) + Suffix(unit)
  }

  function Spaces(n: nat): string { seq(n, i => ' ') }

  function Join(parts: seq<string>, sep: string): string {
    if parts == [] then "" else if |parts| == 1 then parts[0] else parts[0] + (sep + Join(parts[1..], sep))
  }

  function Padded(parts: seq<string>, pad: string): seq<string> {
    seq(|parts|, i requires 0 <= i < |parts| => pad + parts[i])
  }

  function Layout(kw: string, parts: seq<string>, ind: nat): string {
    var one := kw + " (" + Join(parts, ", ") + ")";
    if |one| + ind <= 90 && '\n' !in one then one
    else kw + " (\n" + Join(Padded(parts, Spaces(ind + 2)), ",\n") + "\n" + Spaces(ind) + ")"
  }

  /** The printed test; `neg` says whether an odd number of negations stands around it. */
  function Fmt(node: Node, ind: nat, neg: bool): Out<string>
    decreases node, 1, 0
  {
    match node
    case Size(over, num, unit) => Ok(SizeText(over, num, unit))
    case Term(field, value) => TermText(field, value, neg)
    case Not(kid) =>
      var k := Fmt(kid, ind, !neg);
      if k.Err? then k else Ok("not " + k.value)
    case _ =>
      var parts := FmtKids(node, 0, ind + 2, neg);
      if parts.Err? then Err(parts.error) else Ok(Layout(if node.And? then "allof" else "anyof", parts.value, ind))
  }

  function FmtKids(node: Node, k: nat, ind: nat, neg: bool): (r: Out<seq<string>>)
    requires (node.And? || node.Or?) && k <= |node.kids|
    decreases node, 0, |node.kids| - k
  {
    if k == |node.kids| then Ok([])
    else
      var first := Fmt(node.kids[k], ind, neg);
      if first.Err? then Err(first.error)
      else
        var more := FmtKids(node, k + 1, ind, neg);
        if more.Err? then more else Ok([first.value] + more.value)
  }

  lemma {:induction false} FmtKidsAt(node: Node, k: nat, ind: nat, neg: bool)
    requires (node.And? || node.Or?) && k <= |node.kids|
    ensures FmtKids(node, k, ind, neg).Ok? <==> forall i :: k <= i < |node.kids| ==> Fmt(node.kids[i], ind, neg).Ok?
    ensures var r := FmtKids(node, k, ind, neg); r.Ok? ==> |r.value| == |node.kids| - k && forall i :: k <= i < |node.kids| ==> r.value[i - k] == Fmt(node.kids[i], ind, neg).value
    decreases |node.kids| - k
  {
    hide Fmt;
    if k < |node.kids| { FmtKidsAt(node, k + 1, ind, neg); }
  }

  // ---------- the same condition as a Sieve test ----------

  function HeaderArg(field: Field): Arg {
    if field.From? then StrArg("from") else if field.To? then ListArg(["to", "cc"]) else ListArg(["cc"])
  }

  function TermTest(field: Field, v: string): Test {
    match field
    case Subject => Leaf("header", [TagArg("contains"), StrArg("subject"), StrArg(v)])
    case Anywhere =>
      AnyOf([Leaf("header", [TagArg("contains"), ListArg(["subject", "from", "to", "cc"]), StrArg(v)]),
             Leaf("body", [TagArg("text"), TagArg("contains"), StrArg(v)])])
    case _ =>
      if '*' in v then Leaf("address", [TagArg("matches"), HeaderArg(field), StrArg(MatchPattern(v))])
      else Leaf("header", [TagArg("contains"), HeaderArg(field), StrArg(v)])
  }

  function ToTest(node: Node): Test
    decreases node
  {
    match node
    case Term(field, value) => TermTest(field, value)
    case Size(over, num, unit) => Leaf("size", [TagArg(if over then "over" else "under"), NumArg(Decimals.Digits(num) + Suffix(unit))])
    case Not(kid) => NotTest(ToTest(kid))
    case And(kids) => AllOf(seq(|kids|, i requires 0 <= i < |kids| => ToTest(kids[i])))
    case Or(kids) => AnyOf(seq(|kids|, i requires 0 <= i < |kids| => ToTest(kids[i])))
  }

  /** Joins have something to join. */
  predicate Shaped(node: Node)
    decreases node
  {
    match node
    case Not(kid) => Shaped(kid)
    case And(kids) => kids != [] && forall i :: 0 <= i < |kids| ==> Shaped(kids[i])
    case Or(kids) => kids != [] && forall i :: 0 <= i < |kids| ==> Shaped(kids[i])
    case _ => true
  }

  lemma {:induction false} FlatShaped(node: Node)
    requires Flat(node)
    ensures Shaped(node)
    decreases node
  {
    match node {
      case Not(kid) => FlatShaped(kid);
      case And(kids) => forall i | 0 <= i < |kids| ensures Shaped(kids[i]) { FlatShaped(kids[i]); }
      case Or(kids) => forall i | 0 <= i < |kids| ensures Shaped(kids[i]) { FlatShaped(kids[i]); }
      case _ =>
    }
  }

  lemma {:induction false} ToTestProper(node: Node)
    requires Shaped(node)
    ensures Proper(ToTest(node))
    decreases node
  {
    match node {
      case Not(kid) => ToTestProper(kid);
      case And(kids) => forall i | 0 <= i < |kids| ensures Proper(ToTest(kids[i])) { ToTestProper(kids[i]); }
      case Or(kids) => forall i | 0 <= i < |kids| ensures Proper(ToTest(kids[i])) { ToTestProper(kids[i]); }
      case Term(field, value) => TermProper(field, value);
      case _ =>
    }
  }

  lemma TermProper(field: Field, v: string)
    ensures Proper(TermTest(field, v))
  {}

  // ---------- the words of the printed text ----------

  lemma NameGap(name: string)
    requires Name(name)
    ensures Loose(name + " ", [Id(name)])
  {
    hide Loose, Firm, Name, Words;
    IdFirm(name);
    GapLoose(" ");
    FirmLoose(name, [Id(name)], " ", []);
    assert [Id(name)] + [] == [Id(name)];
  }

  lemma TagGap(name: string)
    requires Name(name)
    ensures Loose(":" + name + " ", [Tag(name)])
  {
    hide Loose, Firm, Name, Words;
    TagFirm(name);
    GapLoose(" ");
    FirmLoose(":" + name, [Tag(name)], " ", []);
    assert [Tag(name)] + [] == [Tag(name)];
  }

  /** One or two words in front of an argument. */
  lemma Heads(name: string, tag: string)
    requires Name(name) && Name(tag)
    ensures Loose(name + " " + (":" + tag + " "), [Id(name), Tag(tag)])
  {
    hide Loose, Firm, Name, Words;
    NameGap(name);
    TagGap(tag);
    LooseLoose(name + " ", [Id(name)], ":" + tag + " ", [Tag(tag)]);
    assert [Id(name)] + [Tag(tag)] == [Id(name), Tag(tag)];
  }

  lemma ContainsHead()
    ensures Loose("header :contains ", [Id("header"), Tag("contains")])
  {
    hide Loose, Firm, Words;
    Heads("header", "contains");
    assert "header" + " " + (":" + "contains" + " ") == "header :contains ";
  }

  lemma MatchesHead()
    ensures Loose("address :matches ", [Id("address"), Tag("matches")])
  {
    hide Loose, Firm, Words;
    Heads("address", "matches");
    assert "address" + " " + (":" + "matches" + " ") == "address :matches ";
  }

  lemma BodyHead()
    ensures Loose("body :text :contains ", [Id("body"), Tag("text"), Tag("contains")])
  {
    hide Loose, Firm, Words;
    Heads("body", "text");
    TagGap("contains");
    assert "body" + " " + (":" + "text" + " ") == "body :text ";
    assert ":" + "contains" + " " == ":contains ";
    LooseLoose("body :text ", [Id("body"), Tag("text")], ":contains ", [Tag("contains")]);
    assert "body :text " + ":contains " == "body :text :contains ";
    assert [Id("body"), Tag("text")] + [Tag("contains")] == [Id("body"), Tag("text"), Tag("contains")];
  }

  lemma {:induction false} PlainEscape(v: string)
    requires forall i :: 0 <= i < |v| ==> v[i] != '\\' && v[i] != '"'
    ensures Escape(v) == v
  {
    if v != "" {
      PlainEscape(v[1..]);
      assert v == [v[0]] + v[1..];
    }
  }

  lemma CommaLoose()
    ensures Loose(", ", [Sym(',')]) && Loose(",\n", [Sym(',')])
  {
    hide Loose, Firm, Words;
    SymLoose(',');
    GapLoose(" ");
    GapLoose("\n");
    LooseLoose([','], [Sym(',')], " ", []);
    LooseLoose([','], [Sym(',')], "\n", []);
    assert [','] + " " == ", " && [','] + "\n" == ",\n" && [Sym(',')] + [] == [Sym(',')];
  }

  /** The keys of a string list behind its bracket. */
  function ListText(values: seq<string>): string
    requires values != []
  {
    if |values| == 1 then Quoted(values[0]) + "]" else Quoted(values[0]) + (", " + ListText(values[1..]))
  }

  lemma {:induction false} ListLoose(values: seq<string>)
    requires values != []
    ensures Loose(ListText(values), ListWords(values))
  {
    hide Loose, Firm, Words, Quoted, StrWord;
    StrLoose(values[0]);
    if |values| == 1 {
      SymLoose(']');
      LooseLoose(Quoted(values[0]), [StrWord(values[0])], "]", [Sym(']')]);
      assert [StrWord(values[0])] + [Sym(']')] == [StrWord(values[0]), Sym(']')];
    } else {
      ListLoose(values[1..]);
      CommaLoose();
      LooseLoose(", ", [Sym(',')], ListText(values[1..]), ListWords(values[1..]));
      LooseLoose(Quoted(values[0]), [StrWord(values[0])], ", " + ListText(values[1..]), [Sym(',')] + ListWords(values[1..]));
      assert [StrWord(values[0])] + ([Sym(',')] + ListWords(values[1..])) == [StrWord(values[0]), Sym(',')] + ListWords(values[1..]);
    }
  }

  lemma KeysLoose(values: seq<string>)
    requires values != []
    ensures Loose("[" + ListText(values) + " ", ArgWords(ListArg(values)))
  {
    hide Loose, Firm, Words, ListText, ListWords;
    ListLoose(values);
    SymLoose('[');
    GapLoose(" ");
    LooseLoose("[", [Sym('[')], ListText(values), ListWords(values));
    LooseLoose("[" + ListText(values), [Sym('[')] + ListWords(values), " ", []);
    assert [Sym('[')] + ListWords(values) + [] == [Sym('[')] + ListWords(values);
  }

  /** One more key in front of the printed ones. */
  lemma KeyText(v: string, values: seq<string>, shown: string, text: string)
    requires (forall i :: 0 <= i < |v| ==> v[i] != '\\' && v[i] != '"') && values != [] && ListText(values) == shown
    requires text == "\"" + v + "\", " + shown
    ensures ListText([v] + values) == text
  {
    hide Escape;
    PlainEscape(v);
    assert ([v] + values)[1..] == values;
    assert "\"" + v + "\"" + (", " + shown) == "\"" + v + "\", " + shown;
  }

  lemma CcText()
    ensures ListText(["cc"]) == "\"cc\"]"
  {
    hide Escape;
    PlainEscape("cc");
    assert "\"" + "cc" + "\"" + "]" == "\"cc\"]";
  }

  lemma ToText()
    ensures ListText(["to", "cc"]) == "\"to\", \"cc\"]"
  {
    hide Escape, ListText;
    CcText();
    KeyText("to", ["cc"], "\"cc\"]", "\"to\", \"cc\"]");
    assert ["to"] + ["cc"] == ["to", "cc"];
  }

  lemma AllText()
    ensures ListText(["subject", "from", "to", "cc"]) == "\"subject\", \"from\", \"to\", \"cc\"]"
  {
    hide Escape, ListText;
    ToText();
    KeyText("from", ["to", "cc"], "\"to\", \"cc\"]", "\"from\", \"to\", \"cc\"]");
    assert ["from"] + ["to", "cc"] == ["from", "to", "cc"];
    KeyText("subject", ["from", "to", "cc"], "\"from\", \"to\", \"cc\"]", "\"subject\", \"from\", \"to\", \"cc\"]");
    assert ["subject"] + ["from", "to", "cc"] == ["subject", "from", "to", "cc"];
  }

  lemma FromLoose()
    ensures Loose("\"from\" ", ArgWords(StrArg("from"))) && Loose("\"subject\" ", ArgWords(StrArg("subject")))
  {
    hide Loose, Firm, Words, Escape;
    StrGap("from");
    PlainEscape("from");
    assert Quoted("from") + " " == "\"from\" ";
    StrGap("subject");
    PlainEscape("subject");
    assert Quoted("subject") + " " == "\"subject\" ";
  }

  lemma KeyLoose(field: Field)
    ensures Loose(Header(field) + " ", ArgWords(HeaderArg(field)))
  {
    hide Loose, Firm, Words, ListText, Escape, ListWords, StrWord;
    if field.From? {
      FromLoose();
      assert "\"from\"" + " " == "\"from\" ";
    } else if field.To? {
      ToText();
      KeysLoose(["to", "cc"]);
      assert "[" + "\"to\", \"cc\"]" == "[\"to\", \"cc\"]";
    } else {
      CcText();
      KeysLoose(["cc"]);
      assert "[" + "\"cc\"]" == "[\"cc\"]";
    }
  }

  lemma StrGap(v: string)
    ensures Loose(Quoted(v) + " ", [StrWord(v)])
  {
    hide Loose, Firm, Words, Escape;
    StrLoose(v);
    GapLoose(" ");
    LooseLoose(Quoted(v), [StrWord(v)], " ", []);
    assert [StrWord(v)] + [] == [StrWord(v)];
  }

  /** A test of one string under some keys. */
  lemma LeafLoose(head: string, name: string, tag: string, keys: string, arg: Arg, v: string)
    requires Loose(head, [Id(name), Tag(tag)]) && Loose(keys, ArgWords(arg))
    ensures Loose(head + keys + Quoted(v), TestWords(Leaf(name, [TagArg(tag), arg, StrArg(v)])))
  {
    hide Loose, Firm, Words, Quoted, StrWord;
    LooseLoose(head, [Id(name), Tag(tag)], keys, ArgWords(arg));
    StrLoose(v);
    LooseLoose(head + keys, [Id(name), Tag(tag)] + ArgWords(arg), Quoted(v), [StrWord(v)]);
    LeafWords(name, tag, arg, v);
  }

  lemma LeafWords(name: string, tag: string, arg: Arg, v: string)
    ensures TestWords(Leaf(name, [TagArg(tag), arg, StrArg(v)])) == [Id(name), Tag(tag)] + ArgWords(arg) + [StrWord(v)]
  {
    hide StrWord, ListWords;
    var args := [TagArg(tag), arg, StrArg(v)];
    assert args[1..] == [arg, StrArg(v)] && args[1..][1..] == [StrArg(v)] && args[1..][1..][1..] == [];
    assert ArgsWords([StrArg(v)]) == [StrWord(v)];
    assert ArgsWords([arg, StrArg(v)]) == ArgWords(arg) + [StrWord(v)];
    assert ArgsWords(args) == [Tag(tag)] + (ArgWords(arg) + [StrWord(v)]);
  }

  lemma BodyLoose(v: string)
    ensures Loose("body :text :contains " + Quoted(v), TestWords(Leaf("body", [TagArg("text"), TagArg("contains"), StrArg(v)])))
  {
    hide Loose, Firm, Words, Quoted, StrWord;
    BodyHead();
    StrLoose(v);
    LooseLoose("body :text :contains ", [Id("body"), Tag("text"), Tag("contains")], Quoted(v), [StrWord(v)]);
    LeafWords("body", "text", TagArg("contains"), v);
    assert [Id("body"), Tag("text")] + [Tag("contains")] + [StrWord(v)] == [Id("body"), Tag("text"), Tag("contains")] + [StrWord(v)];
  }

  lemma AnyHead()
    ensures Loose("anyof (", [Id("anyof"), Sym('(')]) && Loose("allof (", [Id("allof"), Sym('(')])
    ensures Loose("anyof (\n", [Id("anyof"), Sym('(')]) && Loose("allof (\n", [Id("allof"), Sym('(')])
  {
    hide Loose, Firm, Words;
    OpenHead("anyof");
    OpenHead("allof");
    assert "anyof" + " " + "(" == "anyof (" && "anyof (" + "\n" == "anyof (\n";
    assert "allof" + " " + "(" == "allof (" && "allof (" + "\n" == "allof (\n";
  }

  lemma OpenHead(kw: string)
    requires Name(kw)
    ensures Loose(kw + " " + "(", [Id(kw), Sym('(')]) && Loose(kw + " " + "(" + "\n", [Id(kw), Sym('(')])
  {
    hide Loose, Firm, Words, Name;
    NameGap(kw);
    SymLoose('(');
    LooseLoose(kw + " ", [Id(kw)], "(", [Sym('(')]);
    assert [Id(kw)] + [Sym('(')] == [Id(kw), Sym('(')];
    GapLoose("\n");
    LooseLoose(kw + " " + "(", [Id(kw), Sym('(')], "\n", []);
    assert [Id(kw), Sym('(')] + [] == [Id(kw), Sym('(')];
  }

  lemma AnywhereHead()
    ensures Loose("header :contains " + ALL_HEADERS + " ", [Id("header"), Tag("contains")] + ArgWords(ListArg(["subject", "from", "to", "cc"])))
  {
    hide Loose, Firm, Words, ListText, ListWords;
    ContainsHead();
    AllText();
    KeysLoose(["subject", "from", "to", "cc"]);
    assert "[" + "\"subject\", \"from\", \"to\", \"cc\"]" == ALL_HEADERS;
    LooseLoose("header :contains ", [Id("header"), Tag("contains")], ALL_HEADERS + " ", ArgWords(ListArg(["subject", "from", "to", "cc"])));
    assert "header :contains " + (ALL_HEADERS + " ") == "header :contains " + ALL_HEADERS + " ";
  }

  lemma AnywhereLoose(v: string)
    ensures Loose("anyof (" + ("header :contains " + ALL_HEADERS + " " + Quoted(v)) + ", " + ("body :text :contains " + Quoted(v)) + ")", TestWords(TermTest(Anywhere, v)))
  {
    hide Loose, Firm, Words, Quoted, StrWord, ListWords, ArgWords;
    var keys := ListArg(["subject", "from", "to", "cc"]);
    var h, b := Leaf("header", [TagArg("contains"), keys, StrArg(v)]), Leaf("body", [TagArg("text"), TagArg("contains"), StrArg(v)]);
    var head := "header :contains " + ALL_HEADERS + " ";
    AnywhereHead();
    StrLoose(v);
    LooseLoose(head, [Id("header"), Tag("contains")] + ArgWords(keys), Quoted(v), [StrWord(v)]);
    LeafWords("header", "contains", keys, v);
    BodyLoose(v);
    CommaLoose();
    AnyHead();
    SymLoose(')');
    Nest("anyof (", [Id("anyof"), Sym('(')], head + Quoted(v), TestWords(h), "body :text :contains " + Quoted(v), TestWords(b));
    AnyWords(h, b);
  }

  lemma Nest(open: string, wo: seq<Word>, a: string, wa: seq<Word>, b: string, wb: seq<Word>)
    requires Loose(open, wo) && Loose(a, wa) && Loose(b, wb) && Loose(", ", [Sym(',')]) && Loose(")", [Sym(')')])
    ensures Loose(open + a + ", " + b + ")", wo + (wa + ([Sym(',')] + wb) + [Sym(')')]))
  {
    hide Loose, Firm, Words;
    LooseLoose(open, wo, a, wa);
    LooseLoose(open + a, wo + wa, ", ", [Sym(',')]);
    LooseLoose(open + a + ", ", wo + wa + [Sym(',')], b, wb);
    LooseLoose(open + a + ", " + b, wo + wa + [Sym(',')] + wb, ")", [Sym(')')]);
    assert wo + wa + [Sym(',')] + wb + [Sym(')')] == wo + (wa + ([Sym(',')] + wb) + [Sym(')')]);
  }

  lemma AnyWords(a: Test, b: Test)
    ensures TestWords(AnyOf([a, b])) == [Id("anyof"), Sym('(')] + (TestWords(a) + ([Sym(',')] + TestWords(b)) + [Sym(')')])
  {
    var parts := KidWords([a, b]);
    assert parts == [TestWords(a), TestWords(b)];
    assert parts[1..] == [TestWords(b)];
    assert Commas(parts) == TestWords(a) + ([Sym(',')] + Commas([TestWords(b)]));
  }

  lemma TermLoose(field: Field, v: string, neg: bool)
    requires TermText(field, v, neg).Ok?
    ensures Loose(TermText(field, v, neg).value, TestWords(TermTest(field, v)))
  {
    hide Loose, Firm, Words, Quoted, StrWord, ListWords, ArgWords, TestWords, MatchPattern, Dollar;
    match field {
      case Anywhere => AnywhereLoose(v);
      case Subject =>
        ContainsHead();
        FromLoose();
        LeafLoose("header :contains ", "header", "contains", "\"subject\" ", StrArg("subject"), v);
        assert "header :contains " + "\"subject\" " == "header :contains \"subject\" ";
      case _ =>
        KeyLoose(field);
        var h := Header(field);
        if '*' in v {
          MatchesHead();
          LeafLoose("address :matches ", "address", "matches", h + " ", HeaderArg(field), MatchPattern(v));
          assert "address :matches " + (h + " ") == "address :matches " + h + " ";
        } else {
          ContainsHead();
          LeafLoose("header :contains ", "header", "contains", h + " ", HeaderArg(field), v);
          assert "header :contains " + (h + " ") == "header :contains " + h + " ";
        }
    }
  }

  lemma SizeFirm(over: bool, num: nat, unit: Unit)
    ensures Firm(SizeText(over, num, unit), TestWords(ToTest(Size(over, num, unit))))
  {
    hide Loose, Firm, Words, Decimals.Digits;
    var tag := if over then "over" else "under";
    Heads("size", tag);
    var digits, suffix := Decimals.Digits(num), Suffix(unit);
    NumFirm(digits, suffix);
    var head := "size" + " " + (":" + tag + " ");
    LooseFirm(head, [Id("size"), Tag(tag)], digits + suffix, [Num(digits + suffix)]);
    assert head == "size " + (if over then ":over" else ":under") + " ";
    assert head + (digits + suffix) == SizeText(over, num, unit);
    var args := [TagArg(tag), NumArg(digits + suffix)];
    assert args[1..] == [NumArg(digits + suffix)] && args[1..][1..] == [];
    assert ArgsWords([NumArg(digits + suffix)]) == [Num(digits + suffix)];
    assert ArgsWords(args) == [Tag(tag)] + [Num(digits + suffix)];
    assert [Id("size")] + ArgsWords(args) == [Id("size"), Tag(tag)] + [Num(digits + suffix)];
  }
}
