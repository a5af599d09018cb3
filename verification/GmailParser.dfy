/** The parser of search text. */
module GmailParser {
  import opened GmailTree
  import opened GmailSieve
  import opened GmailQuery

  // ---------- what is read, place by place ----------

  datatype Read<+T> = Fault | Done(value: T, rest: seq<Tok>)

  /** `not` binds closest, then `and`, written or not, then `or`. */
  function Primary(ws: seq<Tok>, c: Field): (r: Read<Node>)
    ensures r.Done? ==> |r.rest| < |ws|
    decreases |ws|, 0
  {
    if ws == [] then Fault
    else
      match ws[0]
      case LP =>
        var e := OrNode(ws[1..], c);
        if e.Fault? || e.rest == [] || !e.rest[0].RP? then Fault else Done(e.value, e.rest[1..])
      case NEG =>
        var e := Primary(ws[1..], c);
        if e.Fault? then Fault else Done(Not(e.value), e.rest)
      case FIELD(f) => Primary(ws[1..], f)
      case STR(v) => if Clean(v) == "" then Fault else Done(Term(c, Clean(v)), ws[1..])
      case WORD(v) => if Clean(v) == "" then Fault else Done(Term(c, Clean(v)), ws[1..])
      case _ => Fault
  }

  predicate AndStops(ws: seq<Tok>) { ws == [] || ws[0].OR? || ws[0].RP? }

  function Skipped(ws: seq<Tok>): seq<Tok> { if ws != [] && ws[0].AND? then ws[1..] else ws }

  function Onto(front: seq<Node>, more: Read<seq<Node>>): Read<seq<Node>> {
    if more.Fault? then Fault else Done(front + more.value, more.rest)
  }

  function AndKids(ws: seq<Tok>, c: Field): (r: Read<seq<Node>>)
    ensures r.Done? ==> |r.rest| < |ws| && r.value != []
    decreases |ws|, 1
  {
    var first := Primary(ws, c);
    if first.Fault? then Fault else Onto([first.value], AndRest(first.rest, c))
  }

  function AndRest(ws: seq<Tok>, c: Field): (r: Read<seq<Node>>)
    ensures r.Done? ==> |r.rest| <= |ws|
    decreases |ws|, 2
  {
    if AndStops(ws) then Done([], ws) else AndKids(Skipped(ws), c)
  }

  function AndNode(ws: seq<Tok>, c: Field): (r: Read<Node>)
    ensures r.Done? ==> |r.rest| < |ws|
    decreases |ws|, 3
  {
    var kids := AndKids(ws, c);
    if kids.Fault? then Fault else Done(Mk(true, kids.value), kids.rest)
  }

  function OrKids(ws: seq<Tok>, c: Field): (r: Read<seq<Node>>)
    ensures r.Done? ==> |r.rest| < |ws| && r.value != []
    decreases |ws|, 4
  {
    var first := AndNode(ws, c);
    if first.Fault? then Fault else Onto([first.value], OrRest(first.rest, c))
  }

  function OrRest(ws: seq<Tok>, c: Field): (r: Read<seq<Node>>)
    ensures r.Done? ==> |r.rest| <= |ws|
    decreases |ws|, 5
  {
    if ws == [] || !ws[0].OR? then Done([], ws) else OrKids(ws[1..], c)
  }

  function OrNode(ws: seq<Tok>, c: Field): (r: Read<Node>)
    ensures r.Done? ==> |r.rest| < |ws|
    decreases |ws|, 6
  {
    var kids := OrKids(ws, c);
    if kids.Fault? then Fault else Done(Mk(false, kids.value), kids.rest)
  }

  /** A whole search text. */
  function ParseExpr(src: string, c: Field): Out<Node> {
    var toks := Lex(src);
    if toks.Err? then Err(toks.error)
    else
      var e := OrNode(toks.value, c);
      if e.Fault? || e.rest != [] then Err(ParseError) else Ok(e.value)
  }

  // ---------- the parser with its place in the tokens ----------

  class Parser {
    const toks: seq<Tok>
    var pos: nat

    constructor (toks: seq<Tok>)
      ensures this.toks == toks && pos == 0
    {
      this.toks := toks;
      pos := 0;
    }

    predicate Valid() reads this { pos <= |toks| }

    method ReadPrimary(c: Field) returns (e: Out<Node>)
      requires Valid()
      modifies this`pos
      ensures Valid() && (e.Ok? ==> old(pos) < pos)
      ensures Agrees(Primary(toks[old(pos)..], c), e, toks[pos..])
      decreases |toks| - pos, 0
    {
      hide Clean;
      if pos == |toks| { return Err(ParseError); }
      var tok := toks[pos];
      assert toks[pos..][0] == tok && toks[pos..][1..] == toks[pos + 1..];
      pos := pos + 1;
      match tok {
        case LP =>
          e := ReadOr(c);
          if e.Err? { return; }
          if pos == |toks| || !toks[pos].RP? { return Err(ParseError); }
          assert toks[pos..][0] == toks[pos] && toks[pos..][1..] == toks[pos + 1..];
          pos := pos + 1;
        case NEG =>
          e := ReadPrimary(c);
          if e.Ok? { e := Ok(Not(e.value)); }
        case FIELD(f) => e := ReadPrimary(f);
        case STR(v) => e := if Clean(v) == "" then Err(ParseError) else Ok(Term(c, Clean(v)));
        case WORD(v) => e := if Clean(v) == "" then Err(ParseError) else Ok(Term(c, Clean(v)));
        case _ => e := Err(ParseError);
      }
    }

    method ReadAnd(c: Field) returns (e: Out<Node>)
      requires Valid()
      modifies this`pos
      ensures Valid() && (e.Ok? ==> old(pos) < pos)
      ensures Agrees(AndNode(toks[old(pos)..], c), e, toks[pos..])
      decreases |toks| - pos, 1
    {
      hide Primary, Mk;
      ghost var start := toks[pos..];
      var first := ReadPrimary(c);
      if first.Err? { return first; }
      var kids := [first.value];
      while pos < |toks| && !toks[pos].OR? && !toks[pos].RP?
        invariant Valid() && old(pos) < pos && AndKids(start, c) == Onto(kids, AndRest(toks[pos..], c))
      {
        ghost var here := toks[pos..];
        assert here[0] == toks[pos] && here[1..] == toks[pos + 1..];
        if toks[pos].AND? { pos := pos + 1; }
        assert toks[pos..] == Skipped(here);
        var kid := ReadPrimary(c);
        if kid.Err? { return kid; }
        OntoOnto(kids, kid.value, AndRest(toks[pos..], c));
        kids := kids + [kid.value];
      }
      assert kids + [] == kids;
      e := Ok(Mk(true, kids));
    }

    method ReadOr(c: Field) returns (e: Out<Node>)
      requires Valid()
      modifies this`pos
      ensures Valid() && (e.Ok? ==> old(pos) < pos)
      ensures Agrees(OrNode(toks[old(pos)..], c), e, toks[pos..])
      decreases |toks| - pos, 2
    {
      hide AndNode, Mk;
      ghost var start := toks[pos..];
      var first := ReadAnd(c);
      if first.Err? { return first; }
      var kids := [first.value];
      while pos < |toks| && toks[pos].OR?
        invariant Valid() && old(pos) < pos && OrKids(start, c) == Onto(kids, OrRest(toks[pos..], c))
      {
        assert toks[pos..][0] == toks[pos] && toks[pos..][1..] == toks[pos + 1..];
        pos := pos + 1;
        var kid := ReadAnd(c);
        if kid.Err? { return kid; }
        OntoOnto(kids, kid.value, OrRest(toks[pos..], c));
        kids := kids + [kid.value];
      }
      assert kids + [] == kids;
      e := Ok(Mk(false, kids));
    }
  }

  /** The parser has read what the grammar reads from where it stood, and stands behind it. */
  predicate Agrees(r: Read<Node>, e: Out<Node>, rest: seq<Tok>) {
    (e.Err? <==> r.Fault?) && (e.Ok? ==> e.value == r.value && rest == r.rest)
  }

  lemma OntoOnto(front: seq<Node>, kid: Node, more: Read<seq<Node>>)
    ensures Onto(front, Onto([kid], more)) == Onto(front + [kid], more)
  {
    if more.Done? { assert front + ([kid] + more.value) == front + [kid] + more.value; }
  }

  method Parse(src: string, c: Field) returns (e: Out<Node>)
    ensures e == ParseExpr(src, c)
  {
    hide OrNode, Lex;
    var toks := Tokenize(src);
    if toks.Err? { return Err(toks.error); }
    var parser := new Parser(toks.value);
    e := parser.ReadOr(c);
    assert toks.value[0..] == toks.value;
    if e.Err? { return Err(ParseError); }
    if parser.pos < |parser.toks| { return Err(ParseError); }
  }
}
