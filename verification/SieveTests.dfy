/** Test expressions of Sieve, as sections 5 and 8.2 of RFC 5228 define them, over tokens. */
module SieveTests {
  import opened SieveLex

  datatype Arg = TagArg(name: string) | NumArg(text: string) | StrArg(value: string) | ListArg(values: seq<string>)

  datatype Test = Leaf(name: string, args: seq<Arg>) | NotTest(kid: Test) | AllOf(kids: seq<Test>) | AnyOf(kids: seq<Test>)

  datatype Parsed<+T> = Fail | Got(value: T, rest: seq<Word>)

  // ---------- parsing ----------

  /** The rest of a string list, behind its opening bracket. */
  function ParseList(ws: seq<Word>): (r: Parsed<seq<string>>)
    ensures r.Got? ==> |r.rest| < |ws|
    decreases |ws|
  {
    if ws == [] || !ws[0].Str? || |ws| == 1 then Fail
    else if ws[1] == Sym(']') then Got([ws[0].value], ws[2..])
    else if ws[1] == Sym(',') then
      var more := ParseList(ws[2..]);
      if more.Fail? then Fail else Got([ws[0].value] + more.value, more.rest)
    else Fail
  }

  predicate ArgStart(w: Word) { w.Tag? || w.Num? || w.Str? || w == Sym('[') }

  function ParseArg(ws: seq<Word>): (r: Parsed<Arg>)
    requires ws != []
    ensures r.Got? ==> |r.rest| < |ws|
  {
    if ws[0].Tag? then Got(TagArg(ws[0].name), ws[1..])
    else if ws[0].Num? then Got(NumArg(ws[0].text), ws[1..])
    else if ws[0].Str? then Got(StrArg(ws[0].value), ws[1..])
    else if ws[0] == Sym('[') then
      var l := ParseList(ws[1..]);
      if l.Fail? then Fail else Got(ListArg(l.value), l.rest)
    else Fail
  }

  function ParseArgs(ws: seq<Word>): (r: Parsed<seq<Arg>>)
    ensures r.Got? ==> |r.rest| <= |ws|
    decreases |ws|
  {
    if ws == [] || !ArgStart(ws[0]) then Got([], ws)
    else
      var first := ParseArg(ws);
      if first.Fail? then Fail
      else
        var more := ParseArgs(first.rest);
        if more.Fail? then Fail else Got([first.value] + more.value, more.rest)
  }

  function ParseTest(ws: seq<Word>): (r: Parsed<Test>)
    ensures r.Got? ==> |r.rest| < |ws|
    decreases |ws|, 0
  {
    if ws == [] || !ws[0].Id? then Fail
    else if ws[0].name == "not" then
      var t := ParseTest(ws[1..]);
      if t.Fail? then Fail else Got(NotTest(t.value), t.rest)
    else if ws[0].name == "allof" || ws[0].name == "anyof" then
      if |ws| == 1 || ws[1] != Sym('(') then Fail
      else
        var l := ParseTests(ws[2..]);
        if l.Fail? then Fail else Got(if ws[0].name == "allof" then AllOf(l.value) else AnyOf(l.value), l.rest)
    else
      var a := ParseArgs(ws[1..]);
      if a.Fail? then Fail else Got(Leaf(ws[0].name, a.value), a.rest)
  }

  /** Tests separated by commas, and the closing parenthesis. */
  function ParseTests(ws: seq<Word>): (r: Parsed<seq<Test>>)
    ensures r.Got? ==> |r.rest| < |ws|
    decreases |ws|, 1
  {
    var t := ParseTest(ws);
    if t.Fail? || t.rest == [] then Fail
    else if t.rest[0] == Sym(')') then Got([t.value], t.rest[1..])
    else if t.rest[0] == Sym(',') then
      var more := ParseTests(t.rest[1..]);
      if more.Fail? then Fail else Got([t.value] + more.value, more.rest)
    else Fail
  }

  // ---------- the tokens of a test ----------

  function StrWord(v: string): Word { Str(v, Escape(v)) }

  function Escape(v: string): string {
    if v == "" then "" else (if v[0] == '\\' || v[0] == '"' then ['\\', v[0]] else [v[0]]) + Escape(v[1..])
  }

  function ListWords(values: seq<string>): seq<Word> {
    if values == [] then [Sym(']')] else if |values| == 1 then [StrWord(values[0]), Sym(']')]
    else [StrWord(values[0]), Sym(',')] + ListWords(values[1..])
  }

  function ArgWords(a: Arg): seq<Word> {
    match a
    case TagArg(name) => [Tag(name)]
    case NumArg(text) => [Num(text)]
    case StrArg(value) => [StrWord(value)]
    case ListArg(values) => [Sym('[')] + ListWords(values)
  }

  function ArgsWords(args: seq<Arg>): seq<Word> {
    if args == [] then [] else ArgWords(args[0]) + ArgsWords(args[1..])
  }

  function Commas(parts: seq<seq<Word>>): seq<Word> {
    if parts == [] then [] else if |parts| == 1 then parts[0] else parts[0] + ([Sym(',')] + Commas(parts[1..]))
  }

  function TestWords(t: Test): seq<Word>
    decreases t
  {
    match t
    case Leaf(name, args) => [Id(name)] + ArgsWords(args)
    case NotTest(kid) => [Id("not")] + TestWords(kid)
    case AllOf(kids) => [Id("allof"), Sym('(')] + (Commas(seq(|kids|, i requires 0 <= i < |kids| => TestWords(kids[i]))) + [Sym(')')])
    case AnyOf(kids) => [Id("anyof"), Sym('(')] + (Commas(seq(|kids|, i requires 0 <= i < |kids| => TestWords(kids[i]))) + [Sym(')')])
  }

  /** Test lists are not empty, lists of strings neither, and leaves have their own names. */
  predicate Proper(t: Test)
    decreases t
  {
    match t
    case Leaf(name, args) => name != "not" && name != "allof" && name != "anyof" && forall i :: 0 <= i < |args| ==> args[i].ListArg? ==> args[i].values != []
    case NotTest(kid) => Proper(kid)
    case AllOf(kids) => kids != [] && forall i :: 0 <= i < |kids| ==> Proper(kids[i])
    case AnyOf(kids) => kids != [] && forall i :: 0 <= i < |kids| ==> Proper(kids[i])
  }

  predicate Closed(rest: seq<Word>) { rest == [] || !ArgStart(rest[0]) }

  lemma {:induction false} ListParses(values: seq<string>, rest: seq<Word>)
    requires values != []
    ensures ParseList(ListWords(values) + rest) == Got(values, rest)
  {
    hide Escape;
    var ws := ListWords(values) + rest;
    if |values| == 1 {
      assert ws[2..] == rest && values == [values[0]];
    } else {
      ListParses(values[1..], rest);
      assert ws[0] == StrWord(values[0]) && ws[1] == Sym(',') && ws[2..] == ListWords(values[1..]) + rest;
      assert values == [values[0]] + values[1..];
    }
  }

  lemma ArgParses(a: Arg, rest: seq<Word>)
    requires a.ListArg? ==> a.values != []
    ensures ArgWords(a) != [] && ArgStart(ArgWords(a)[0]) && ParseArg(ArgWords(a) + rest) == Got(a, rest)
  {
    hide Escape;
    var ws := ArgWords(a) + rest;
    if a.ListArg? {
      ListParses(a.values, rest);
      assert ws[1..] == ListWords(a.values) + rest;
    } else {
      assert ws[1..] == rest;
    }
  }

  lemma {:induction false} ArgsParse(args: seq<Arg>, rest: seq<Word>)
    requires Closed(rest) && forall i :: 0 <= i < |args| ==> args[i].ListArg? ==> args[i].values != []
    ensures ParseArgs(ArgsWords(args) + rest) == Got(args, rest)
  {
    hide ArgWords, ParseArg;
    if args == [] {
      assert ArgsWords(args) + rest == rest;
    } else {
      var a, more := args[0], ArgsWords(args[1..]) + rest;
      assert ArgsWords(args) + rest == ArgWords(a) + more;
      ArgsParse(args[1..], rest);
      ArgParses(a, more);
      assert (ArgWords(a) + more)[0] == ArgWords(a)[0];
      assert args == [a] + args[1..];
    }
  }

  function KidWords(kids: seq<Test>): seq<seq<Word>> { seq(|kids|, i requires 0 <= i < |kids| => TestWords(kids[i])) }

  /** The grammar reads back every test from its tokens. */
  lemma {:induction false} TestParses(t: Test, rest: seq<Word>)
    requires Proper(t) && Closed(rest)
    ensures ParseTest(TestWords(t) + rest) == Got(t, rest)
    decreases t, 1, 0
  {
    hide ParseArgs, ArgsWords, ParseList, ArgStart, ParseArg, ParseTests, StrWord, Escape, ListWords, ArgWords, Commas, Closed;
    var ws := TestWords(t) + rest;
    match t {
      case Leaf(name, args) =>
        assert ws[1..] == ArgsWords(args) + rest;
        ArgsParse(args, rest);
      case NotTest(kid) =>
        assert ws[1..] == TestWords(kid) + rest;
        TestParses(kid, rest);
      case AllOf(kids) =>
        assert ws[2..] == Commas(KidWords(kids)) + ([Sym(')')] + rest);
        KidsParse(t, kids, rest);
      case AnyOf(kids) =>
        assert ws[2..] == Commas(KidWords(kids)) + ([Sym(')')] + rest);
        KidsParse(t, kids, rest);
    }
  }

  lemma {:induction false} KidsParse(t: Test, kids: seq<Test>, rest: seq<Word>)
    requires kids != [] && forall i {:trigger kids[i]} :: 0 <= i < |kids| ==> kids[i] < t && Proper(kids[i])
    ensures ParseTests(Commas(KidWords(kids)) + ([Sym(')')] + rest)) == Got(kids, rest)
    decreases t, 0, |kids|
  {
    hide TestWords, Proper;
    var end := [Sym(')')] + rest;
    assert KidWords(kids)[0] == TestWords(kids[0]) && KidWords(kids)[1..] == KidWords(kids[1..]);
    if |kids| == 1 {
      TestParses(kids[0], end);
      assert end[1..] == rest && kids == [kids[0]];
    } else {
      var more := Commas(KidWords(kids[1..])) + end;
      assert Commas(KidWords(kids)) + end == TestWords(kids[0]) + ([Sym(',')] + more);
      TestParses(kids[0], [Sym(',')] + more);
      assert ([Sym(',')] + more)[1..] == more;
      KidsParse(t, kids[1..], rest);
      assert kids == [kids[0]] + kids[1..];
    }
  }
}
