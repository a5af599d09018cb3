/** Which conditions search text can say, and how each of them is said. */
module GmailShow {
  import opened Options
  import opened SieveLex
  import opened GmailTree
  import opened GmailSieve
  import opened GmailQuery
  import opened GmailParser

  /** Terms have cleaned, filled values; searching anywhere is only possible where nothing narrows it. */
  predicate Leaves(node: Node, c: Field)
    decreases node
  {
    match node
    case Term(field, value) => (field == c || !field.Anywhere?) && value != "" && Tidy(value)
    case Size(_, _, _) => false
    case Not(kid) => Leaves(kid, c)
    case And(kids) => forall i :: 0 <= i < |kids| ==> Leaves(kids[i], c)
    case Or(kids) => forall i :: 0 <= i < |kids| ==> Leaves(kids[i], c)
  }

  predicate Readable(node: Node, c: Field) { Flat(node) && Leaves(node, c) }

  // ---------- everything read is such a condition ----------

  predicate Sane(ws: seq<Tok>) { forall i :: 0 <= i < |ws| ==> ws[i].FIELD? ==> !ws[i].field.Anywhere? }

  lemma {:induction false} LeavesWider(node: Node, f: Field, c: Field)
    requires Leaves(node, f) && !f.Anywhere?
    ensures Leaves(node, c)
    decreases node
  {
    match node {
      case Not(kid) => LeavesWider(kid, f, c);
      case And(kids) => forall i | 0 <= i < |kids| ensures Leaves(kids[i], c) { LeavesWider(kids[i], f, c); }
      case Or(kids) => forall i | 0 <= i < |kids| ensures Leaves(kids[i], c) { LeavesWider(kids[i], f, c); }
      case _ =>
    }
  }

  predicate AllReadable(kids: seq<Node>, c: Field) { forall i :: 0 <= i < |kids| ==> Readable(kids[i], c) }

  lemma {:induction false} FlattenLeaves(and: bool, kids: seq<Node>, c: Field)
    requires forall i :: 0 <= i < |kids| ==> Leaves(kids[i], c)
    ensures forall i {:trigger Flatten(and, kids)[i]} :: 0 <= i < |Flatten(and, kids)| ==> Leaves(Flatten(and, kids)[i], c)
  {
    if kids != [] { FlattenLeaves(and, kids[1..], c); }
  }

  lemma MkReadable(and: bool, kids: seq<Node>, c: Field)
    requires kids != [] && AllReadable(kids, c)
    ensures Readable(Mk(and, kids), c)
  {
    MkFlat(and, kids);
    FlattenLeaves(and, kids, c);
  }

  lemma ConsReadable(kid: Node, kids: seq<Node>, c: Field)
    requires Readable(kid, c) && AllReadable(kids, c)
    ensures AllReadable([kid] + kids, c)
  {
    hide Readable;
  }

  lemma {:induction false} PrimaryReadable(ws: seq<Tok>, c: Field)
    requires Sane(ws) && Primary(ws, c).Done?
    ensures Readable(Primary(ws, c).value, c) && Sane(Primary(ws, c).rest)
    decreases |ws|, 0
  {
    hide Mk, Clean, Tidy, AndKids, AndRest, OrKids;
    match ws[0] {
      case LP => OrReadable(ws[1..], c);
      case NEG => PrimaryReadable(ws[1..], c);
      case FIELD(f) =>
        PrimaryReadable(ws[1..], f);
        LeavesWider(Primary(ws[1..], f).value, f, c);
      case STR(v) => CleanTidy(v);
      case WORD(v) => CleanTidy(v);
      case _ =>
    }
  }

  lemma {:induction false} AndReadable(ws: seq<Tok>, c: Field)
    requires Sane(ws) && AndKids(ws, c).Done?
    ensures AllReadable(AndKids(ws, c).value, c) && Sane(AndKids(ws, c).rest)
    decreases |ws|, 1
  {
    hide Primary, Readable;
    var first := Primary(ws, c);
    PrimaryReadable(ws, c);
    if !AndStops(first.rest) { AndReadable(Skipped(first.rest), c); }
    ConsReadable(first.value, AndRest(first.rest, c).value, c);
  }

  lemma {:induction false} OrReadable(ws: seq<Tok>, c: Field)
    requires Sane(ws) && OrNode(ws, c).Done?
    ensures Readable(OrNode(ws, c).value, c) && Sane(OrNode(ws, c).rest)
    decreases |ws|, 3
  {
    hide Readable, Mk, OrKids;
    OrKidsReadable(ws, c);
    MkReadable(false, OrKids(ws, c).value, c);
  }

  lemma {:induction false} OrKidsReadable(ws: seq<Tok>, c: Field)
    requires Sane(ws) && OrKids(ws, c).Done?
    ensures AllReadable(OrKids(ws, c).value, c) && Sane(OrKids(ws, c).rest)
    decreases |ws|, 2
  {
    hide Readable, Mk, AndKids;
    AndReadable(ws, c);
    MkReadable(true, AndKids(ws, c).value, c);
    var first := AndNode(ws, c);
    if first.rest != [] && first.rest[0].OR? { OrKidsReadable(first.rest[1..], c); }
    ConsReadable(first.value, OrRest(first.rest, c).value, c);
  }

  lemma {:induction false} SplitSane(w: string)
    ensures Split(w).Ok? ==> Sane(Split(w).value)
    decreases |w|
  {
    var op := Operator(w);
    if op.Some? && op.value !in OTHER_OPERATORS && FieldNamed(op.value).Some? {
      OperatorEnds(w);
      SplitSane(w[ColonEnd(w, IdEnd(w, 0) + 1)..]);
    }
  }

  lemma HeadSane(s: string)
    requires s != "" && Head(s).Ok?
    ensures Sane(Head(s).value.toks)
  {
    hide Split, White, Stop;
    SplitSane(s[..WordEnd(s, 1)]);
  }

  lemma {:induction false} LexSane(s: string)
    ensures Lex(s).Ok? ==> Sane(Lex(s).value)
    decreases |s|
  {
    if s != "" && Head(s).Ok? {
      LexSane(s[Head(s).value.n..]);
      HeadSane(s);
    }
  }

  /** The parser only builds readable conditions. */
  lemma ParsedReadable(src: string, c: Field)
    ensures ParseExpr(src, c).Ok? ==> Readable(ParseExpr(src, c).value, c)
  {
    hide OrNode, Readable, Lex;
    LexSane(src);
    if ParseExpr(src, c).Ok? { OrReadable(Lex(src).value, c); }
  }

  // ---------- every such condition can be said ----------

  /** The tokens of a condition where only a single one may stand. */
  function ShowPrimary(node: Node, c: Field): seq<Tok>
    decreases node, 1, 0
  {
    match node
    case Term(f, v) => (if f == c then [] else [FIELD(f)]) + [STR(v)]
    case Size(_, _, _) => []
    case Not(kid) => [NEG] + ShowPrimary(kid, c)
    case And(_) => [LP] + ShowAnds(node, 0, c) + [RP]
    case Or(_) => [LP] + ShowOrs(node, 0, c) + [RP]
  }

  function ShowAnds(node: Node, k: nat, c: Field): seq<Tok>
    requires node.And? && k <= |node.kids|
    decreases node, 0, |node.kids| - k
  {
    if k == |node.kids| then [] else ShowPrimary(node.kids[k], c) + ShowAnds(node, k + 1, c)
  }

  function ShowOrs(node: Node, k: nat, c: Field): seq<Tok>
    requires node.Or? && k <= |node.kids|
    decreases node, 0, |node.kids| - k
  {
    if k == |node.kids| then []
    else
      var kid := node.kids[k];
      (if kid.And? then ShowAnds(kid, 0, c) else ShowPrimary(kid, c))
      + (if k + 1 == |node.kids| then [] else [OR] + ShowOrs(node, k + 1, c))
  }

  /** The tokens of a whole condition, with no bracket that precedence makes needless. */
  function Show(node: Node, c: Field): seq<Tok> {
    if node.And? then ShowAnds(node, 0, c) else if node.Or? then ShowOrs(node, 0, c) else ShowPrimary(node, c)
  }

  lemma ShowStarts(node: Node, c: Field, rest: seq<Tok>)
    requires Leaves(node, c)
    ensures ShowPrimary(node, c) != []
    ensures var ws := ShowPrimary(node, c) + rest; ws[0].LP? || ws[0].NEG? || ws[0].FIELD? || ws[0].STR?
  {
    hide Leaves, ShowAnds, ShowOrs;
    assert !node.Size? by { assert Leaves(node, c) ==> !node.Size? by { LeavesTerm(node, c); } }
  }

  lemma LeavesTerm(node: Node, c: Field)
    requires Leaves(node, c)
    ensures !node.Size?
  {}

  lemma {:induction false} FlattenSame(and: bool, kids: seq<Node>)
    requires forall i :: 0 <= i < |kids| ==> if and then !kids[i].And? else !kids[i].Or?
    ensures Flatten(and, kids) == kids
  {
    if kids != [] {
      FlattenSame(and, kids[1..]);
      assert kids == [kids[0]] + kids[1..];
    }
  }

  lemma TermReads(f: Field, v: string, c: Field, rest: seq<Tok>)
    requires Leaves(Term(f, v), c)
    ensures Primary(ShowPrimary(Term(f, v), c) + rest, c) == Done(Term(f, v), rest)
  {
    hide Clean, Tidy, OrNode;
    var ws, last := ShowPrimary(Term(f, v), c) + rest, [STR(v)] + rest;
    CleanKeeps(v);
    assert last[1..] == rest;
    assert Primary(last, f) == Done(Term(f, v), rest);
    if f == c { assert ws == last; } else { assert ws[0] == FIELD(f) && ws[1..] == last; }
  }

  lemma {:induction false} PrimaryReads(node: Node, c: Field, rest: seq<Tok>)
    requires Readable(node, c)
    ensures Primary(ShowPrimary(node, c) + rest, c) == Done(node, rest)
    decreases node, 1, 0
  {
    hide Clean, Tidy, OrNode, ShowAnds, ShowOrs;
    var ws := ShowPrimary(node, c) + rest;
    match node {
      case Term(f, v) => TermReads(f, v, c, rest);
      case Not(kid) =>
        assert ws[1..] == ShowPrimary(kid, c) + rest;
        PrimaryReads(kid, c, rest);
      case And(_) =>
        assert ws[1..] == Show(node, c) + ([RP] + rest);
        ShowReads(node, c, [RP] + rest);
        assert ([RP] + rest)[1..] == rest;
      case Or(_) =>
        assert ws[1..] == Show(node, c) + ([RP] + rest);
        ShowReads(node, c, [RP] + rest);
        assert ([RP] + rest)[1..] == rest;
      case Size(_, _, _) =>
    }
  }

  predicate Closes(rest: seq<Tok>) { rest == [] || rest[0].RP? }

  /** A condition written down is read as it was. */
  lemma {:induction false} ShowReads(node: Node, c: Field, rest: seq<Tok>)
    requires Readable(node, c) && Closes(rest) && (node.And? || node.Or?)
    ensures OrNode(Show(node, c) + rest, c) == Done(node, rest)
    decreases node, 0, |node.kids| + 1
  {
    hide Leaves, AndKids, ShowAnds, ShowOrs;
    assert Leaves(node, c) && Flat(node);
    if node.And? {
      AndsRead(node, 0, c, rest);
      assert node.kids[0..] == node.kids;
      FlattenSame(true, node.kids);
      Alone(Show(node, c) + rest, c, node, rest);
    } else {
      OrsRead(node, 0, c, rest);
      assert node.kids[0..] == node.kids;
      FlattenSame(false, node.kids);
    }
  }

  lemma Alone(ws: seq<Tok>, c: Field, node: Node, rest: seq<Tok>)
    requires AndNode(ws, c) == Done(node, rest) && Closes(rest) && !node.Or?
    ensures OrNode(ws, c) == Done(node, rest)
  {
    hide AndNode;
    assert Flatten(false, [node]) == [node];
    assert OrRest(rest, c) == Done([], rest);
    assert [node] + [] == [node];
    assert OrKids(ws, c) == Done([node], rest);
  }

  lemma {:induction false} AndsRead(node: Node, k: nat, c: Field, rest: seq<Tok>)
    requires Readable(node, c) && node.And? && k < |node.kids| && AndStops(rest)
    ensures AndKids(ShowAnds(node, k, c) + rest, c) == Done(node.kids[k..], rest)
    decreases node, 0, |node.kids| - k
  {
    hide Primary, ShowPrimary;
    var kid := node.kids[k];
    assert Readable(kid, c);
    var more := ShowAnds(node, k + 1, c) + rest;
    assert ShowAnds(node, k, c) + rest == ShowPrimary(kid, c) + more;
    PrimaryReads(kid, c, more);
    assert node.kids[k..] == [kid] + node.kids[k + 1..];
    if k + 1 < |node.kids| {
      var next := node.kids[k + 1];
      assert Readable(next, c);
      assert more == ShowPrimary(next, c) + (ShowAnds(node, k + 2, c) + rest);
      ShowStarts(next, c, ShowAnds(node, k + 2, c) + rest);
      AndsRead(node, k + 1, c, rest);
    } else {
      assert more == rest && node.kids[k + 1..] == [];
    }
  }

  lemma {:induction false} OrsRead(node: Node, k: nat, c: Field, rest: seq<Tok>)
    requires Readable(node, c) && node.Or? && k < |node.kids| && Closes(rest)
    ensures OrKids(ShowOrs(node, k, c) + rest, c) == Done(node.kids[k..], rest)
    decreases node, 0, |node.kids| - k
  {
    hide Primary, ShowPrimary, ShowAnds, AndKids;
    var kid := node.kids[k];
    assert Readable(kid, c) && !kid.Or?;
    var shown := if kid.And? then ShowAnds(kid, 0, c) else ShowPrimary(kid, c);
    assert node.kids[k..] == [kid] + node.kids[k + 1..];
    if k + 1 == |node.kids| {
      assert ShowOrs(node, k, c) + rest == shown + rest;
      KidReads(kid, c, rest);
      assert node.kids[k + 1..] == [];
    } else {
      var more := ShowOrs(node, k + 1, c) + rest;
      assert ShowOrs(node, k, c) + rest == shown + ([OR] + more);
      KidReads(kid, c, [OR] + more);
      assert ([OR] + more)[1..] == more;
      OrsRead(node, k + 1, c, rest);
    }
  }

  lemma {:induction false} KidReads(kid: Node, c: Field, rest: seq<Tok>)
    requires Readable(kid, c) && !kid.Or? && AndStops(rest)
    ensures AndNode((if kid.And? then ShowAnds(kid, 0, c) else ShowPrimary(kid, c)) + rest, c) == Done(kid, rest)
    decreases kid, 2
  {
    hide Primary, ShowPrimary, ShowAnds, Leaves;
    if kid.And? {
      AndsRead(kid, 0, c, rest);
      assert kid.kids[0..] == kid.kids;
      FlattenSame(true, kid.kids);
    } else {
      PrimaryReads(kid, c, rest);
      assert Flatten(true, [kid]) == [kid];
      assert AndRest(rest, c) == Done([], rest);
      assert [kid] + [] == [kid];
      assert AndKids(ShowPrimary(kid, c) + rest, c) == Done([kid], rest);
    }
  }

  /** No value holds a quote, which search text has no way to write. */
  predicate Unquoted(node: Node)
    decreases node
  {
    match node
    case Term(_, value) => '"' !in value
    case Size(_, _, _) => true
    case Not(kid) => Unquoted(kid)
    case And(kids) => forall i :: 0 <= i < |kids| ==> Unquoted(kids[i])
    case Or(kids) => forall i :: 0 <= i < |kids| ==> Unquoted(kids[i])
  }

  lemma {:induction false} PrimarySpellable(node: Node, c: Field)
    requires Leaves(node, c) && Unquoted(node)
    ensures Spellable(ShowPrimary(node, c))
    decreases node, 1, 0
  {
    match node {
      case Term(f, v) =>
        assert [STR(v)][1..] == [];
        assert ([FIELD(f)] + [STR(v)])[1..] == [STR(v)];
      case Not(kid) => PrimarySpellable(kid, c); SpellableConcat([NEG], ShowPrimary(kid, c));
      case And(_) => AndsSpellable(node, 0, c); Bracketed(ShowAnds(node, 0, c));
      case Or(_) => OrsSpellable(node, 0, c); Bracketed(ShowOrs(node, 0, c));
    }
  }

  lemma Bracketed(ws: seq<Tok>)
    requires Spellable(ws)
    ensures Spellable([LP] + ws + [RP])
  {
    SpellableConcat([LP], ws);
    SpellableConcat([LP] + ws, [RP]);
  }

  lemma {:induction false} AndsSpellable(node: Node, k: nat, c: Field)
    requires node.And? && k <= |node.kids| && Leaves(node, c) && Unquoted(node)
    ensures Spellable(ShowAnds(node, k, c))
    decreases node, 0, |node.kids| - k
  {
    hide ShowPrimary;
    if k < |node.kids| {
      PrimarySpellable(node.kids[k], c);
      AndsSpellable(node, k + 1, c);
      SpellableConcat(ShowPrimary(node.kids[k], c), ShowAnds(node, k + 1, c));
    }
  }

  lemma {:induction false} OrsSpellable(node: Node, k: nat, c: Field)
    requires node.Or? && k <= |node.kids| && Leaves(node, c) && Unquoted(node)
    ensures Spellable(ShowOrs(node, k, c))
    decreases node, 0, |node.kids| - k
  {
    hide ShowPrimary, ShowAnds;
    if k < |node.kids| {
      var kid := node.kids[k];
      var shown := if kid.And? then ShowAnds(kid, 0, c) else ShowPrimary(kid, c);
      if kid.And? { AndsSpellable(kid, 0, c); } else { PrimarySpellable(kid, c); }
      OrsSpellable(node, k + 1, c);
      SpellableConcat([OR], ShowOrs(node, k + 1, c));
      SpellableConcat(shown, if k + 1 == |node.kids| then [] else [OR] + ShowOrs(node, k + 1, c));
    }
  }

  /** The text of a condition, read as search text, is the condition. */
  lemma SaidAndRead(node: Node, c: Field)
    requires Readable(node, c) && Unquoted(node)
    ensures ParseExpr(Spell(Show(node, c)), c) == Ok(node)
  {
    hide OrNode, Spell, Lex, Spellable, ShowPrimary, ShowAnds, ShowOrs;
    var ws := Show(node, c);
    assert ws + [] == ws;
    if node.And? || node.Or? {
      if node.And? { AndsSpellable(node, 0, c); } else { OrsSpellable(node, 0, c); }
      ShowReads(node, c, []);
    } else {
      PrimarySpellable(node, c);
      KidReads(node, c, []);
      Alone(ws, c, node, []);
    }
    SpellLexes(ws);
  }
}
