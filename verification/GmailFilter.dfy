/** From the attributes of an exported filter to the Sieve test of its condition. */
module GmailFilter {
  import opened Options
  import opened SieveLex
  import opened SieveTests
  import opened GmailTree
  import opened GmailSieve
  import opened GmailMeaning
  import opened GmailQuery
  import opened GmailParser
  import opened GmailShow
  import Decimals

  /** The attributes that make up the condition; a missing one is empty. */
  datatype Props = Props(from: string, to: string, subject: string, has: string, hasNot: string,
                         size: string, sizeOperator: string, sizeUnit: string, attachment: string)

  const SIZE_MAX: nat := 18446744073709551615

  predicate AllWords(toks: seq<Tok>) { forall i :: 0 <= i < |toks| ==> toks[i].WORD? }

  predicate OnlyWords(toks: seq<Tok>) { toks != [] && AllWords(toks) }

  function Phrase(toks: seq<Tok>): string
    requires forall i :: 0 <= i < |toks| ==> toks[i].WORD?
  {
    if toks == [] then "" else if |toks| == 1 then toks[0].v else toks[0].v + (" " + Phrase(toks[1..]))
  }

  /** Plain words in an attribute of its own are one phrase; everything else is search text. */
  function Attribute(raw: string, c: Field): Out<seq<Node>> {
    if Trim(raw) == "" then Ok([])
    else
      var toks := if c.Anywhere? then Ok([]) else Lex(raw);
      if toks.Err? then Err(toks.error)
      else if OnlyWords(toks.value) then Ok([Term(c, Clean(Phrase(toks.value)))])
      else
        var e := ParseExpr(raw, c);
        if e.Err? then Err(e.error) else Ok([e.value])
  }

  function Negated(kids: Out<seq<Node>>): Out<seq<Node>> {
    if kids.Err? || kids.value == [] then kids else Ok([Not(kids.value[0])])
  }

  predicate Decimal(s: string) { s != "" && forall i :: 0 <= i < |s| ==> Decimals.IsDigit(s[i]) }

  function UnitNamed(name: string): Unit { if name == "s_smb" then Mega else if name == "s_skb" then Kilo else Bytes }

  function SizePart(p: Props): Out<seq<Node>> {
    var digits := Trim(p.size);
    if digits == "" then Ok([])
    else if !Decimal(digits) then Err(ParseError)
    else if p.sizeOperator != "s_sl" && p.sizeOperator != "s_ss" then Err(ParseError)
    else
      var num, unit := Decimals.Value(digits), UnitNamed(p.sizeUnit);
      if num * Factor(unit) > SIZE_MAX then Err(ParseError) else Ok([Size(p.sizeOperator == "s_sl", num, unit)])
  }

  function Append(a: Out<seq<Node>>, b: Out<seq<Node>>): Out<seq<Node>> {
    if a.Err? then a else if b.Err? then b else Ok(a.value + b.value)
  }

  /** The conditions of the attributes, in order; the first fault decides. */
  function Parts(p: Props): Out<seq<Node>> {
    if p.attachment != "" then Err(Unsupported)
    else
      Append(Append(Append(Append(Append(Attribute(p.from, From), Attribute(p.to, To)), Attribute(p.subject, Subject)),
        Attribute(p.has, Anywhere)), Negated(Attribute(p.hasNot, Anywhere))), SizePart(p))
  }

  function BuildCondition(p: Props): Out<Node> {
    var parts := Parts(p);
    if parts.Err? then Err(parts.error)
    else if parts.value == [] then Err(NoCondition)
    else Ok(Mk(true, parts.value))
  }

  /** The Sieve test of a filter's condition. */
  function Translate(p: Props): Out<string> {
    var node := BuildCondition(p);
    if node.Err? then Err(node.error) else Fmt(node.value, 0, false)
  }

  // ---------- shape ----------

  predicate AllFlat(kids: seq<Node>) { forall i :: 0 <= i < |kids| ==> Flat(kids[i]) }

  lemma AttributeFlat(raw: string, c: Field)
    ensures var a := Attribute(raw, c); a.Ok? ==> AllFlat(a.value) && |a.value| <= 1
  {
    hide ParseExpr, Leaves, Lex, Trim, Clean;
    ParsedReadable(raw, c);
  }

  lemma AppendFlat(a: Out<seq<Node>>, b: Out<seq<Node>>)
    requires a.Ok? ==> AllFlat(a.value)
    requires b.Ok? ==> AllFlat(b.value)
    ensures var r := Append(a, b); r.Ok? ==> AllFlat(r.value)
  {
    hide Flat;
  }

  lemma PartsFlat(p: Props)
    ensures Parts(p).Ok? ==> AllFlat(Parts(p).value)
  {
    hide Attribute, SizePart, AllFlat, Append, Negated;
    AttributeFlat(p.from, From);
    AttributeFlat(p.to, To);
    AttributeFlat(p.subject, Subject);
    AttributeFlat(p.has, Anywhere);
    AttributeFlat(p.hasNot, Anywhere);
    LastFlat(p);
    var a := Append(Attribute(p.from, From), Attribute(p.to, To));
    AppendFlat(Attribute(p.from, From), Attribute(p.to, To));
    var b := Append(a, Attribute(p.subject, Subject));
    AppendFlat(a, Attribute(p.subject, Subject));
    var c := Append(b, Attribute(p.has, Anywhere));
    AppendFlat(b, Attribute(p.has, Anywhere));
    var d := Append(c, Negated(Attribute(p.hasNot, Anywhere)));
    AppendFlat(c, Negated(Attribute(p.hasNot, Anywhere)));
    AppendFlat(d, SizePart(p));
  }

  lemma LastFlat(p: Props)
    requires var a := Attribute(p.hasNot, Anywhere); a.Ok? ==> AllFlat(a.value)
    ensures Negated(Attribute(p.hasNot, Anywhere)).Ok? ==> AllFlat(Negated(Attribute(p.hasNot, Anywhere)).value)
    ensures SizePart(p).Ok? ==> AllFlat(SizePart(p).value)
  {
    hide Attribute, Trim, Decimal;
  }

  lemma ConditionFlat(p: Props)
    ensures BuildCondition(p).Ok? ==> Flat(BuildCondition(p).value)
  {
    hide Parts, Mk;
    PartsFlat(p);
    if BuildCondition(p).Ok? { MkFlat(true, Parts(p).value); }
  }

  // ---------- main results ----------

  /** The attribute is plain words for a field of its own. */
  predicate OneTerm(raw: string, c: Field) { !c.Anywhere? && Lex(raw).Ok? && OnlyWords(Lex(raw).value) }

  /** The mail meets what the attribute says: its words stand in the field, or it meets the search they make up. */
  predicate Meets(raw: string, c: Field, mail: Mail, bcc: bool) {
    if OneTerm(raw, c) then HoldsTerm(c, Clean(Phrase(Lex(raw).value)), mail, bcc)
    else ParseExpr(raw, c).Ok? && Holds(ParseExpr(raw, c).value, mail, bcc)
  }

  predicate Understood(raw: string, c: Field) { OneTerm(raw, c) || ParseExpr(raw, c).Ok? }

  function Multiplier(unit: string): nat { if unit == "s_smb" then 1024 * 1024 else if unit == "s_skb" then 1024 else 1 }

  /** A size in bytes, a direction, and no more than a Sieve number can say. */
  predicate Sized(p: Props) {
    && Decimal(Trim(p.size)) && (p.sizeOperator == "s_sl" || p.sizeOperator == "s_ss")
    && Decimals.Value(Trim(p.size)) * Multiplier(p.sizeUnit) <= SIZE_MAX
  }

  predicate SizeMet(p: Props, mail: Mail)
    requires Decimal(Trim(p.size))
  {
    var limit := Decimals.Value(Trim(p.size)) * Multiplier(p.sizeUnit);
    if p.sizeOperator == "s_sl" then mail.size > limit else mail.size < limit
  }

  /** The filter takes the mail: it meets every attribute that is not blank, does not meet the one of the words it
      must not have, and is larger, or smaller, than the size given. */
  predicate Takes(p: Props, mail: Mail, bcc: bool) {
    && (AllWhite(p.from) || Meets(p.from, From, mail, bcc))
    && (AllWhite(p.to) || Meets(p.to, To, mail, bcc))
    && (AllWhite(p.subject) || Meets(p.subject, Subject, mail, bcc))
    && (AllWhite(p.has) || Meets(p.has, Anywhere, mail, bcc))
    && (AllWhite(p.hasNot) || !Meets(p.hasNot, Anywhere, mail, bcc))
    && (AllWhite(p.size) || (Decimal(Trim(p.size)) && SizeMet(p, mail)))
  }

  /** Nothing in the filter is beyond the converter, and something is in it. */
  predicate Complete(p: Props) {
    && p.attachment == ""
    && (AllWhite(p.from) || Understood(p.from, From)) && (AllWhite(p.to) || Understood(p.to, To))
    && (AllWhite(p.subject) || Understood(p.subject, Subject)) && (AllWhite(p.has) || Understood(p.has, Anywhere))
    && (AllWhite(p.hasNot) || Understood(p.hasNot, Anywhere)) && (AllWhite(p.size) || Sized(p))
    && !(AllWhite(p.from) && AllWhite(p.to) && AllWhite(p.subject) && AllWhite(p.has) && AllWhite(p.hasNot) && AllWhite(p.size))
  }

  lemma EveryOne(node: Node, mail: Mail, bcc: bool)
    ensures Every([], mail, bcc) && (Every([node], mail, bcc) <==> Holds(node, mail, bcc))
  {
    hide Holds;
    assert [node][0] == node;
  }

  lemma AttributeExact(raw: string, c: Field, mail: Mail, bcc: bool)
    ensures Attribute(raw, c).Ok? <==> AllWhite(raw) || Understood(raw, c)
    ensures Attribute(raw, c).Ok? ==> (Attribute(raw, c).value == [] <==> AllWhite(raw))
    ensures Attribute(raw, c).Ok? ==> (Every(Attribute(raw, c).value, mail, bcc) <==> AllWhite(raw) || Meets(raw, c, mail, bcc))
  {
    hide Trim, AllWhite, Lex, ParseExpr, HoldsTerm, Clean, Phrase, Every;
    TrimBlank(raw);
    ParsedLexes(raw, c);
    var a := Attribute(raw, c);
    if a.Ok? && a.value != [] { EveryOne(a.value[0], mail, bcc); } else { EveryOne(Size(true, 0, Bytes), mail, bcc); }
  }

  lemma ParsedLexes(raw: string, c: Field)
    ensures ParseExpr(raw, c).Ok? ==> Lex(raw).Ok?
  {}

  lemma NegatedExact(raw: string, mail: Mail, bcc: bool)
    ensures Negated(Attribute(raw, Anywhere)).Ok? <==> Attribute(raw, Anywhere).Ok?
    ensures Negated(Attribute(raw, Anywhere)).Ok? ==> (Negated(Attribute(raw, Anywhere)).value == [] <==> AllWhite(raw))
    ensures Negated(Attribute(raw, Anywhere)).Ok? ==>
      (Every(Negated(Attribute(raw, Anywhere)).value, mail, bcc) <==> AllWhite(raw) || !Meets(raw, Anywhere, mail, bcc))
  {
    hide Attribute, AllWhite, Meets, Understood, Every;
    AttributeExact(raw, Anywhere, mail, bcc);
    AttributeFlat(raw, Anywhere);
    var a := Attribute(raw, Anywhere);
    if a.Ok? && a.value != [] {
      assert a.value == [a.value[0]];
      EveryOne(a.value[0], mail, bcc);
      EveryOne(Not(a.value[0]), mail, bcc);
    }
  }

  lemma SizePartExact(p: Props, mail: Mail, bcc: bool)
    ensures SizePart(p).Ok? <==> AllWhite(p.size) || Sized(p)
    ensures SizePart(p).Ok? ==> (SizePart(p).value == [] <==> AllWhite(p.size))
    ensures SizePart(p).Ok? ==> (Every(SizePart(p).value, mail, bcc) <==> AllWhite(p.size) || (Decimal(Trim(p.size)) && SizeMet(p, mail)))
  {
    hide Trim, AllWhite, Decimals.Value, Every;
    TrimBlank(p.size);
    var a := SizePart(p);
    if a.Ok? && a.value != [] { EveryOne(a.value[0], mail, bcc); } else { EveryOne(Size(true, 0, Bytes), mail, bcc); }
    assert Factor(UnitNamed(p.sizeUnit)) == Multiplier(p.sizeUnit);
  }

  lemma AppendExact(a: Out<seq<Node>>, b: Out<seq<Node>>, mail: Mail, bcc: bool)
    ensures Append(a, b).Ok? <==> a.Ok? && b.Ok?
    ensures Append(a, b).Ok? ==> (Append(a, b).value == [] <==> a.value == [] && b.value == [])
    ensures Append(a, b).Ok? ==> (Every(Append(a, b).value, mail, bcc) <==> Every(a.value, mail, bcc) && Every(b.value, mail, bcc))
  {
    hide Every;
    if a.Ok? && b.Ok? { EveryConcat(a.value, b.value, mail, bcc); }
  }

  lemma PartsExact(p: Props, mail: Mail, bcc: bool)
    ensures BuildCondition(p).Ok? <==> Complete(p)
    ensures Parts(p).Ok? ==> (Every(Parts(p).value, mail, bcc) <==> Takes(p, mail, bcc))
  {
    hide Attribute, SizePart, Negated, Append, Every, Mk, AllWhite, Meets, Understood, Sized, SizeMet, Decimal, Trim;
    AttributeExact(p.from, From, mail, bcc);
    AttributeExact(p.to, To, mail, bcc);
    AttributeExact(p.subject, Subject, mail, bcc);
    AttributeExact(p.has, Anywhere, mail, bcc);
    AttributeExact(p.hasNot, Anywhere, mail, bcc);
    NegatedExact(p.hasNot, mail, bcc);
    SizePartExact(p, mail, bcc);
    var a := Append(Attribute(p.from, From), Attribute(p.to, To));
    AppendExact(Attribute(p.from, From), Attribute(p.to, To), mail, bcc);
    var b := Append(a, Attribute(p.subject, Subject));
    AppendExact(a, Attribute(p.subject, Subject), mail, bcc);
    var c := Append(b, Attribute(p.has, Anywhere));
    AppendExact(b, Attribute(p.has, Anywhere), mail, bcc);
    var d := Append(c, Negated(Attribute(p.hasNot, Anywhere)));
    AppendExact(c, Negated(Attribute(p.hasNot, Anywhere)), mail, bcc);
    AppendExact(d, SizePart(p), mail, bcc);
  }

  /** There is a condition, and a Sieve test can say it. */
  predicate Sayable(node: Out<Node>) { node.Ok? && ToEven(node.value, false) && NoVariables(node.value) }

  /** A filter is translated exactly when all of it is understood, no value holds a variable reference, and recipients
      are asked for under an even number of negations only. */
  lemma TranslationSucceeds(p: Props)
    ensures BuildCondition(p).Ok? <==> Complete(p)
    ensures Translate(p).Ok? <==> Sayable(BuildCondition(p))
  {
    hide Parts, Mk, Complete, Fmt, ToEven, NoVariables, Takes, Every;
    PartsExact(p, Mail(map[], map[], [], 0), false);
    if BuildCondition(p).Ok? { Printable(BuildCondition(p).value, 0, false); }
  }

  /** The printed test reads back as the tree of the condition and accepts exactly the mails that the filter takes,
      blind copies aside. */
  lemma TranslationExact(p: Props, mail: Mail)
    requires Translate(p).Ok?
    ensures Words(Translate(p).value).Some?
    ensures var t := ParseTest(Words(Translate(p).value).value);
      t == Got(ToTest(BuildCondition(p).value), []) && (Eval(t.value, mail) <==> Takes(p, mail, false))
  {
    hide Parts, Fmt, Mk, ParseTest, Eval, Every, ToTest, Words, Takes, Complete;
    var node := BuildCondition(p).value;
    ConditionFlat(p);
    FlatShaped(node);
    ReadsBack(node, 0, false);
    TestExact(node, mail);
    MkHolds(true, Parts(p).value, mail, false);
    PartsExact(p, mail, false);
  }

  /** Blind copies are not seen, and still no mail is accepted that the filter, which sees them, would not take. */
  lemma TranslationNarrows(p: Props, mail: Mail)
    requires Translate(p).Ok?
    ensures Takes(p, mail, false) ==> Takes(p, mail, true)
  {
    hide Parts, Fmt, Mk, Every, Takes, Complete;
    Polarity(BuildCondition(p).value, 0, false, mail);
    MkHolds(true, Parts(p).value, mail, false);
    MkHolds(true, Parts(p).value, mail, true);
    PartsExact(p, mail, false);
    PartsExact(p, mail, true);
  }

  // ---------- empty values ----------

  predicate Filled(node: Node)
    decreases node
  {
    match node
    case Term(_, value) => value != ""
    case Size(_, _, _) => true
    case Not(kid) => Filled(kid)
    case And(kids) => forall i :: 0 <= i < |kids| ==> Filled(kids[i])
    case Or(kids) => forall i :: 0 <= i < |kids| ==> Filled(kids[i])
  }

  /** Nothing but control characters and blanks. */
  predicate Faint(s: string) { forall i {:trigger s[i]} :: 0 <= i < |s| ==> Control(s[i]) || White(s[i]) }

  predicate AllWhite(s: string) { forall i {:trigger s[i]} :: 0 <= i < |s| ==> White(s[i]) }

  /** A phrase attribute of control characters and blanks that trimming does not empty. */
  predicate Hollow(raw: string) { Faint(raw) && !AllWhite(raw) }

  /** The attribute is plain words of which nothing is left. */
  predicate Emptied(raw: string) {
    Trim(raw) != "" && Lex(raw).Ok? && OnlyWords(Lex(raw).value) && Clean(Phrase(Lex(raw).value)) == ""
  }

  lemma {:induction false} TrimRightBlank(s: string)
    ensures TrimRight(s) == "" <==> AllWhite(s)
  {
    if s != "" && White(s[|s| - 1]) {
      TrimRightBlank(s[..|s| - 1]);
      assert forall i :: 0 <= i < |s| - 1 ==> s[..|s| - 1][i] == s[i];
    }
  }

  lemma {:induction false} TrimLeftBlank(s: string)
    ensures AllWhite(TrimLeft(s)) <==> AllWhite(s)
  {
    if s != "" && White(s[0]) {
      TrimLeftBlank(s[1..]);
      forall i | 0 <= i < |s| ensures AllWhite(s[1..]) ==> White(s[i]) {
        if i > 0 { assert s[i] == s[1..][i - 1]; }
      }
      assert forall i :: 0 <= i < |s| - 1 ==> s[1..][i] == s[i + 1];
    }
  }

  lemma TrimBlank(s: string)
    ensures Trim(s) == "" <==> AllWhite(s)
  {
    TrimLeftBlank(s);
    TrimRightBlank(TrimLeft(s));
  }

  lemma CleanFaint(s: string)
    ensures Clean(s) == "" <==> Faint(s)
  {
    var m := seq(|s|, i requires 0 <= i < |s| => if Control(s[i]) then ' ' else s[i]);
    TrimBlank(m);
    assert forall i :: 0 <= i < |s| ==> m[i] == if Control(s[i]) then ' ' else s[i];
  }

  predicate FaintToks(toks: seq<Tok>)
    requires forall i :: 0 <= i < |toks| ==> toks[i].WORD?
  {
    forall i {:trigger toks[i]} :: 0 <= i < |toks| ==> Faint(toks[i].v)
  }

  lemma FaintConcat(a: string, b: string)
    ensures Faint(a + b) <==> Faint(a) && Faint(b)
    ensures AllWhite(a + b) <==> AllWhite(a) && AllWhite(b)
  {
    assert forall i :: 0 <= i < |a| ==> (a + b)[i] == a[i];
    assert forall i :: 0 <= i < |b| ==> (a + b)[|a| + i] == b[i];
  }

  lemma {:induction false} PhraseFaint(toks: seq<Tok>)
    requires forall i :: 0 <= i < |toks| ==> toks[i].WORD?
    ensures Faint(Phrase(toks)) <==> FaintToks(toks)
  {
    hide Control, White;
    if |toks| > 1 {
      PhraseFaint(toks[1..]);
      FaintConcat(" ", Phrase(toks[1..]));
      FaintConcat(toks[0].v, " " + Phrase(toks[1..]));
      SpaceFaint();
      assert forall i :: 0 <= i < |toks| - 1 ==> toks[1..][i] == toks[i + 1];
      forall i | 0 <= i < |toks| && FaintToks(toks[1..]) && Faint(toks[0].v) ensures Faint(toks[i].v) {
        if i > 0 { assert toks[i] == toks[1..][i - 1]; }
      }
    }
  }

  lemma SpaceFaint()
    ensures Faint(" ")
  {}

  lemma FieldFirst(w: string)
    requires var op := Operator(w); op.Some? && FieldNamed(op.value).Some? && op.value !in OTHER_OPERATORS
    ensures Split(w).Ok? ==> Split(w).value != [] && Split(w).value[0].FIELD?
  {}

  /** A word that yields search words only is one. */
  lemma WordOnly(w: string)
    requires w != ""
    ensures WordToks(w).Ok? && (forall i :: 0 <= i < |WordToks(w).value| ==> WordToks(w).value[i].WORD?) ==> WordToks(w).value == [WORD(w)]
    ensures Faint(w) ==> WordToks(w) == Ok([WORD(w)])
  {
    var op := Operator(w);
    if op.Some? && FieldNamed(op.value).Some? && op.value !in OTHER_OPERATORS { FieldFirst(w); }
    if Faint(w) {
      assert w[0] == w[0];
      assert IdEnd(w, 0) == 0;
    }
  }

  /** A text whose tokens are search words is faint exactly if all of them are. */
  lemma {:induction false} LexFaint(s: string)
    ensures Faint(s) ==> Lex(s).Ok? && AllWords(Lex(s).value)
    ensures var r := Lex(s); r.Ok? && AllWords(r.value) ==>
      (Faint(s) <==> FaintToks(r.value)) && (r.value == [] <==> AllWhite(s))
    decreases |s|
  {
    if s != "" {
      var h := Head(s);
      HeadFaint(s);
      hide Head, Faint, AllWhite, AllWords, FaintToks, Lex;
      if h.Ok? {
        var n := h.value.n;
        LexFaint(s[n..]);
        assert s == s[..n] + s[n..];
        FaintConcat(s[..n], s[n..]);
        LexFaintStep(s, n, h.value.toks);
      } else {
        assert !Faint(s);
      }
    } else {
      assert Lex(s) == Ok([]) && FaintToks([]);
    }
  }

  lemma LexFaintStep(s: string, n: nat, toks: seq<Tok>)
    requires s != "" && Head(s) == Ok(Chunk(toks, n)) && n <= |s|
    requires AllWords(toks) ==> (Faint(s[..n]) <==> FaintToks(toks)) && (toks == [] <==> AllWhite(s[..n]))
    requires Faint(s[..n]) ==> AllWords(toks)
    requires Faint(s) <==> Faint(s[..n]) && Faint(s[n..])
    requires AllWhite(s) <==> AllWhite(s[..n]) && AllWhite(s[n..])
    requires Faint(s[n..]) ==> Lex(s[n..]).Ok? && AllWords(Lex(s[n..]).value)
    requires var r := Lex(s[n..]); r.Ok? && AllWords(r.value) ==>
      (Faint(s[n..]) <==> FaintToks(r.value)) && (r.value == [] <==> AllWhite(s[n..]))
    ensures Faint(s) ==> Lex(s).Ok? && AllWords(Lex(s).value)
    ensures var r := Lex(s); r.Ok? && AllWords(r.value) ==>
      (Faint(s) <==> FaintToks(r.value)) && (r.value == [] <==> AllWhite(s))
  {
    hide Head, Faint, AllWhite;
    var rest := Lex(s[n..]);
    if rest.Ok? {
      var all := toks + rest.value;
      assert Lex(s) == Ok(all);
      assert forall i :: 0 <= i < |toks| ==> all[i] == toks[i];
      assert forall i :: 0 <= i < |rest.value| ==> all[|toks| + i] == rest.value[i];
    }
  }

  /** What stands at the start of a text. */
  lemma HeadFaint(s: string)
    requires s != ""
    ensures Head(s).Err? ==> !Faint(s)
    ensures var h := Head(s); h.Ok? ==>
      (AllWords(h.value.toks) ==>
        (Faint(s[..h.value.n]) <==> FaintToks(h.value.toks)) && (h.value.toks == [] <==> AllWhite(s[..h.value.n])))
      && (Faint(s[..h.value.n]) ==> AllWords(h.value.toks))
  {
    hide WordToks;
    var c := s[0];
    if White(c) || Single(c) != [] || c == '"' || c == '{' || c == '}' || c == '+' {
      if Head(s).Ok? { assert s[..Head(s).value.n][0] == c; }
    } else {
      var j := WordEnd(s, 1);
      assert s[..j][0] == c;
      WordOnly(s[..j]);
      var toks := if Head(s).Ok? then Head(s).value.toks else [];
      assert toks == [WORD(s[..j])] ==> (Faint(s[..j]) <==> Faint(toks[0].v));
      if Faint(s) { FaintConcat(s[..j], s[j..]); assert s == s[..j] + s[j..]; }
    }
  }

  /** So nothing is left of an attribute exactly when it is hollow. */
  lemma EmptiedIsHollow(raw: string)
    ensures Emptied(raw) <==> Hollow(raw)
  {
    hide Trim, Lex, Clean, Phrase, Faint, AllWhite;
    TrimBlank(raw);
    LexFaint(raw);
    if Lex(raw).Ok? && (forall i :: 0 <= i < |Lex(raw).value| ==> Lex(raw).value[i].WORD?) {
      CleanFaint(Phrase(Lex(raw).value));
      PhraseFaint(Lex(raw).value);
    }
  }

  predicate AllFilled(kids: seq<Node>) { forall i :: 0 <= i < |kids| ==> Filled(kids[i]) }

  lemma {:induction false} LeavesFilled(node: Node, c: Field)
    requires Leaves(node, c)
    ensures Filled(node)
    decreases node
  {
    match node {
      case Not(kid) => LeavesFilled(kid, c);
      case And(kids) => forall i | 0 <= i < |kids| ensures Filled(kids[i]) { LeavesFilled(kids[i], c); }
      case Or(kids) => forall i | 0 <= i < |kids| ensures Filled(kids[i]) { LeavesFilled(kids[i], c); }
      case _ =>
    }
  }

  lemma AttributeFilled(raw: string, c: Field)
    ensures var a := Attribute(raw, c); a.Ok? ==> AllFilled(a.value) == (c.Anywhere? || !Hollow(raw))
  {
    hide ParseExpr, Flat, Lex, Trim, Clean, Tidy, Hollow;
    EmptiedIsHollow(raw);
    ParsedReadable(raw, c);
    var a := Attribute(raw, c);
    if a.Ok? && a.value != [] && ParseExpr(raw, c).Ok? { LeavesFilled(ParseExpr(raw, c).value, c); }
    if a.Ok? && !c.Anywhere? && Emptied(raw) { assert !Filled(a.value[0]); }
  }

  lemma AppendFilled(a: Out<seq<Node>>, b: Out<seq<Node>>)
    requires Append(a, b).Ok?
    ensures AllFilled(Append(a, b).value) <==> AllFilled(a.value) && AllFilled(b.value)
  {
    hide Filled;
    var r := a.value + b.value;
    assert forall i :: 0 <= i < |a.value| ==> r[i] == a.value[i];
    assert forall i :: 0 <= i < |b.value| ==> r[|a.value| + i] == b.value[i];
  }

  lemma {:induction false} FlattenFilled(and: bool, kids: seq<Node>)
    ensures AllFilled(Flatten(and, kids)) == AllFilled(kids)
  {
    if kids != [] {
      FlattenFilled(and, kids[1..]);
      var head := Taken(and, kids[0]);
      AppendFilled(Ok(head), Ok(Flatten(and, kids[1..])));
      assert kids == [kids[0]] + kids[1..];
      AppendFilled(Ok([kids[0]]), Ok(kids[1..]));
      assert AllFilled(head) == Filled(kids[0]) by { assert [kids[0]][0] == kids[0]; }
      assert AllFilled([kids[0]]) == Filled(kids[0]) by { assert [kids[0]][0] == kids[0]; }
    }
  }

  lemma LastFilled(p: Props)
    ensures var n := Negated(Attribute(p.hasNot, Anywhere)); n.Ok? ==> AllFilled(n.value)
    ensures SizePart(p).Ok? ==> AllFilled(SizePart(p).value)
  {
    hide Attribute, Trim, Decimal, Hollow;
    AttributeFilled(p.hasNot, Anywhere);
  }

  /** A condition has an empty search value exactly when one of the three phrase attributes is hollow:
      control characters and blanks only, and not blanks only. */
  lemma EmptyValues(p: Props)
    requires BuildCondition(p).Ok?
    ensures Filled(BuildCondition(p).value) <==> !Hollow(p.from) && !Hollow(p.to) && !Hollow(p.subject)
  {
    hide Attribute, SizePart, AllFilled, Append, Negated, Hollow, Mk;
    AttributeFilled(p.from, From);
    AttributeFilled(p.to, To);
    AttributeFilled(p.subject, Subject);
    AttributeFilled(p.has, Anywhere);
    LastFilled(p);
    PartsFilled(p);
    MkFilled(Parts(p).value);
  }

  lemma MkFilled(kids: seq<Node>)
    ensures Filled(Mk(true, kids)) == AllFilled(kids)
  {
    FlattenFilled(true, kids);
  }

  lemma PartsFilled(p: Props)
    requires Parts(p).Ok?
    ensures Attribute(p.from, From).Ok? && Attribute(p.to, To).Ok? && Attribute(p.subject, Subject).Ok? && Attribute(p.has, Anywhere).Ok?
    ensures Negated(Attribute(p.hasNot, Anywhere)).Ok? && SizePart(p).Ok?
    ensures AllFilled(Parts(p).value) <==>
      AllFilled(Attribute(p.from, From).value) && AllFilled(Attribute(p.to, To).value) && AllFilled(Attribute(p.subject, Subject).value)
      && AllFilled(Attribute(p.has, Anywhere).value) && AllFilled(Negated(Attribute(p.hasNot, Anywhere)).value) && AllFilled(SizePart(p).value)
  {
    hide Attribute, SizePart, AllFilled, Negated;
    var a := Append(Attribute(p.from, From), Attribute(p.to, To));
    var b := Append(a, Attribute(p.subject, Subject));
    var c := Append(b, Attribute(p.has, Anywhere));
    var d := Append(c, Negated(Attribute(p.hasNot, Anywhere)));
    AppendFilled(d, SizePart(p));
    AppendFilled(c, Negated(Attribute(p.hasNot, Anywhere)));
    AppendFilled(b, Attribute(p.has, Anywhere));
    AppendFilled(a, Attribute(p.subject, Subject));
    AppendFilled(Attribute(p.from, From), Attribute(p.to, To));
  }

  lemma WordAlone(raw: string)
    requires |raw| == 1 && Control(raw[0]) && !White(raw[0])
    ensures Lex(raw) == Ok([WORD(raw)])
  {
    assert raw[..1] == raw && raw[1..] == "";
    assert WordEnd(raw, 1) == 1;
    assert IdEnd(raw, 0) == 0;
    assert Operator(raw) == None;
    assert Split(raw) == Ok([WORD(raw)]);
    assert raw != "OR";
    assert Head(raw) == Ok(Chunk([WORD(raw)], 1));
    assert Lex(raw[1..]) == Ok([]);
    assert [WORD(raw)] + [] == [WORD(raw)];
  }

  /** Such a filter exists: a control character and nothing else in the sender attribute. */
  lemma EmptyValueHappens(raw: string)
    requires |raw| == 1 && Control(raw[0]) && !White(raw[0])
    ensures Attribute(raw, From) == Ok([Term(From, "")])
  {
    WordAlone(raw);
    hide Lex;
    var blank := seq(|raw|, i requires 0 <= i < |raw| => if Control(raw[i]) then ' ' else raw[i]);
    assert blank == " " && " "[1..] == "";
    assert TrimLeft(" ") == "";
    assert Clean(raw) == "";
    assert Trim(raw) == raw;
    assert Phrase([WORD(raw)]) == raw;
  }
}
