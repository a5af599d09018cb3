/** Search conditions of a mail filter, what they accept, and what Sieve tests accept. */
module GmailTree {
  import opened SieveLex
  import opened SieveTests
  import Decimals

  // ---------- cleaned values ----------

  /** White space as the converter's language trims it. */
  predicate White(c: char) {
    || '\t' <= c <= '\r' || c == ' ' || c == '\U{A0}' || c == '\U{1680}' || '\U{2000}' <= c <= '\U{200A}'
    || c == '\U{2028}' || c == '\U{2029}' || c == '\U{202F}' || c == '\U{205F}' || c == '\U{3000}' || c == '\U{FEFF}'
  }

  predicate Control(c: char) { c <= '\U{1F}' || '\U{7F}' <= c <= '\U{9F}' || c == '\U{2028}' || c == '\U{2029}' }

  function TrimLeft(s: string): string { if s != "" && White(s[0]) then TrimLeft(s[1..]) else s }

  function TrimRight(s: string): string { if s != "" && White(s[|s| - 1]) then TrimRight(s[..|s| - 1]) else s }

  function Trim(s: string): string { TrimRight(TrimLeft(s)) }

  function Clean(s: string): string {
    Trim(seq(|s|, i requires 0 <= i < |s| => if Control(s[i]) then ' ' else s[i]))
  }

  /** A value cleaning leaves as it is. */
  predicate Tidy(v: string) {
    && (forall i :: 0 <= i < |v| ==> !Control(v[i]))
    && (v != "" ==> !White(v[0]) && !White(v[|v| - 1]))
  }

  lemma {:induction false} TrimRightEnds(s: string)
    ensures var t := TrimRight(s); t <= s && (t != "" ==> !White(t[|t| - 1]))
  {
    if s != "" && White(s[|s| - 1]) { TrimRightEnds(s[..|s| - 1]); }
  }

  lemma {:induction false} TrimLeftEnds(s: string)
    ensures var t := TrimLeft(s); |t| <= |s| && t == s[|s| - |t|..] && (t != "" ==> !White(t[0]))
  {
    if s != "" && White(s[0]) { TrimLeftEnds(s[1..]); }
  }

  lemma CleanTidy(s: string)
    ensures Tidy(Clean(s))
  {
    var m := seq(|s|, i requires 0 <= i < |s| => if Control(s[i]) then ' ' else s[i]);
    var l := TrimLeft(m);
    TrimLeftEnds(m);
    TrimRightEnds(l);
    assert forall i :: 0 <= i < |TrimRight(l)| ==> TrimRight(l)[i] == l[i] == m[|m| - |l| + i];
  }

  lemma CleanKeeps(v: string)
    requires Tidy(v)
    ensures Clean(v) == v
  {
    assert seq(|v|, i requires 0 <= i < |v| => if Control(v[i]) then ' ' else v[i]) == v;
  }

  // ---------- conditions ----------

  datatype Field = From | To | Cc | Subject | Anywhere

  datatype Unit = Bytes | Kilo | Mega

  datatype Node =
    | Term(field: Field, value: string)
    | Size(over: bool, num: nat, unit: Unit)
    | Not(kid: Node)
    | And(kids: seq<Node>)
    | Or(kids: seq<Node>)

  /** Children of the same kind are taken in; a single child stands alone. */
  function Mk(and: bool, kids: seq<Node>): Node {
    var flat := Flatten(and, kids);
    if |flat| == 1 then flat[0] else if and then And(flat) else Or(flat)
  }

  function Taken(and: bool, kid: Node): seq<Node> {
    if if and then kid.And? else kid.Or? then kid.kids else [kid]
  }

  function Flatten(and: bool, kids: seq<Node>): seq<Node> {
    if kids == [] then []
    else Taken(and, kids[0]) + Flatten(and, kids[1..])
  }

  /** No and under an and, no or under an or, and both join two conditions or more. */
  predicate Flat(node: Node)
    decreases node
  {
    match node
    case Not(kid) => Flat(kid)
    case And(kids) => |kids| >= 2 && forall i :: 0 <= i < |kids| ==> !kids[i].And? && Flat(kids[i])
    case Or(kids) => |kids| >= 2 && forall i :: 0 <= i < |kids| ==> !kids[i].Or? && Flat(kids[i])
    case _ => true
  }

  // ---------- what a condition accepts ----------

  /** A mail: header fields and their address parts by lower-case name, the text of the body, the size. */
  datatype Mail = Mail(headers: map<string, seq<string>>, addresses: map<string, seq<string>>, text: seq<string>, size: nat)

  function Lookup(m: map<string, seq<string>>, name: string): seq<string> { if name in m then m[name] else [] }

  predicate ContainsAt(h: string, v: string, i: nat) { i + |v| <= |h| && Lower(h[i..i + |v|]) == Lower(v) }

  /** Substring, whatever the case of ASCII letters. */
  predicate Contains(h: string, v: string) { exists i: nat | i <= |h| :: ContainsAt(h, v, i) }

  /** The value with stars standing for any text, and nothing else special. */
  predicate Stars(v: string, s: string)
    decreases |v| + |s|
  {
    if v == "" then s == ""
    else if v[0] == '*' then Stars(v[1..], s) || (s != "" && Stars(v, s[1..]))
    else s != "" && LowerChar(s[0]) == LowerChar(v[0]) && Stars(v[1..], s[1..])
  }

  predicate AnyContains(values: seq<string>, v: string) { exists i :: 0 <= i < |values| && Contains(values[i], v) }

  predicate SomeContains(mail: Mail, names: seq<string>, v: string) {
    exists i :: 0 <= i < |names| && AnyContains(Lookup(mail.headers, names[i]), v)
  }

  predicate AnyStars(values: seq<string>, v: string) { exists i :: 0 <= i < |values| && Stars(v, values[i]) }

  predicate SomeStars(mail: Mail, names: seq<string>, v: string) {
    exists i :: 0 <= i < |names| && AnyStars(Lookup(mail.addresses, names[i]), v)
  }

  function Names(field: Field, bcc: bool): seq<string> {
    match field
    case From => ["from"]
    case To => ["to", "cc"] + if bcc then ["bcc"] else []
    case Cc => ["cc"]
    case Subject => ["subject"]
    case Anywhere => ["subject", "from", "to", "cc"]
  }

  predicate HoldsTerm(field: Field, v: string, mail: Mail, bcc: bool) {
    var names := Names(field, bcc);
    if (field.From? || field.To? || field.Cc?) && '*' in v then SomeStars(mail, names, v)
    else SomeContains(mail, names, v) || (field.Anywhere? && AnyContains(mail.text, v))
  }

  function Factor(unit: Unit): nat { match unit case Bytes => 1 case Kilo => 1024 case Mega => 1048576 }

  /** Whether a mail meets the condition; `bcc` says whether blind copies count as recipients. */
  predicate Holds(node: Node, mail: Mail, bcc: bool)
    decreases node
  {
    match node
    case Term(field, value) => HoldsTerm(field, value, mail, bcc)
    case Size(over, num, unit) => if over then mail.size > num * Factor(unit) else mail.size < num * Factor(unit)
    case Not(kid) => !Holds(kid, mail, bcc)
    case And(kids) => forall i :: 0 <= i < |kids| ==> Holds(kids[i], mail, bcc)
    case Or(kids) => exists i :: 0 <= i < |kids| && Holds(kids[i], mail, bcc)
  }

  predicate Every(kids: seq<Node>, mail: Mail, bcc: bool) { forall i :: 0 <= i < |kids| ==> Holds(kids[i], mail, bcc) }

  predicate SomeKid(kids: seq<Node>, mail: Mail, bcc: bool) { exists i :: 0 <= i < |kids| && Holds(kids[i], mail, bcc) }

  lemma EveryConcat(a: seq<Node>, b: seq<Node>, mail: Mail, bcc: bool)
    ensures Every(a + b, mail, bcc) <==> Every(a, mail, bcc) && Every(b, mail, bcc)
    ensures SomeKid(a + b, mail, bcc) <==> SomeKid(a, mail, bcc) || SomeKid(b, mail, bcc)
  {
    hide Holds;
    var c := a + b;
    assert forall i :: 0 <= i < |a| ==> c[i] == a[i];
    assert forall i :: 0 <= i < |b| ==> c[|a| + i] == b[i];
  }

  lemma {:induction false} FlattenHolds(and: bool, kids: seq<Node>, mail: Mail, bcc: bool)
    ensures and ==> Every(Flatten(and, kids), mail, bcc) == Every(kids, mail, bcc)
    ensures !and ==> SomeKid(Flatten(and, kids), mail, bcc) == SomeKid(kids, mail, bcc)
  {
    hide Every, SomeKid;
    if kids == [] {
    } else {
      FlattenHolds(and, kids[1..], mail, bcc);
      var head := Taken(and, kids[0]);
      EveryConcat(head, Flatten(and, kids[1..]), mail, bcc);
      assert kids == [kids[0]] + kids[1..];
      EveryConcat([kids[0]], kids[1..], mail, bcc);
      HeadHolds(and, kids[0], head, mail, bcc);
    }
  }

  lemma HeadHolds(and: bool, kid: Node, head: seq<Node>, mail: Mail, bcc: bool)
    requires head == Taken(and, kid)
    ensures and ==> Every(head, mail, bcc) == Every([kid], mail, bcc)
    ensures !and ==> SomeKid(head, mail, bcc) == SomeKid([kid], mail, bcc)
  {
    assert Every([kid], mail, bcc) == Holds(kid, mail, bcc);
    assert [kid][0] == kid;
  }

  /** Flattening changes the tree and never its meaning. */
  lemma MkHolds(and: bool, kids: seq<Node>, mail: Mail, bcc: bool)
    ensures and ==> Holds(Mk(and, kids), mail, bcc) == Every(kids, mail, bcc)
    ensures !and ==> Holds(Mk(and, kids), mail, bcc) == SomeKid(kids, mail, bcc)
  {
    FlattenHolds(and, kids, mail, bcc);
    var flat := Flatten(and, kids);
    if |flat| == 1 { assert flat == [flat[0]]; }
  }

  lemma {:induction false} FlattenFlat(and: bool, kids: seq<Node>)
    requires forall i :: 0 <= i < |kids| ==> Flat(kids[i])
    ensures |Flatten(and, kids)| >= |kids|
    ensures forall i {:trigger Flatten(and, kids)[i]} :: 0 <= i < |Flatten(and, kids)| ==> Flat(Flatten(and, kids)[i])
    ensures and ==> forall i {:trigger Flatten(and, kids)[i]} :: 0 <= i < |Flatten(and, kids)| ==> !Flatten(and, kids)[i].And?
    ensures !and ==> forall i {:trigger Flatten(and, kids)[i]} :: 0 <= i < |Flatten(and, kids)| ==> !Flatten(and, kids)[i].Or?
  {
    if kids != [] { FlattenFlat(and, kids[1..]); }
  }

  lemma MkFlat(and: bool, kids: seq<Node>)
    requires kids != [] && forall i :: 0 <= i < |kids| ==> Flat(kids[i])
    ensures Flat(Mk(and, kids))
  {
    FlattenFlat(and, kids);
  }

  // ---------- what a Sieve test accepts ----------

  /** The match type ":matches" of section 2.7.1 of RFC 5228, with ASCII case folded. */
  predicate Glob(p: string, s: string)
    decreases |p| + |s|
  {
    if p == "" then s == ""
    else if p[0] == '*' then Glob(p[1..], s) || (s != "" && Glob(p, s[1..]))
    else if p[0] == '?' then s != "" && Glob(p[1..], s[1..])
    else if p[0] == '\\' && |p| > 1 then s != "" && LowerChar(s[0]) == LowerChar(p[1]) && Glob(p[2..], s[1..])
    else s != "" && LowerChar(s[0]) == LowerChar(p[0]) && Glob(p[1..], s[1..])
  }

  function KeysOf(a: Arg): seq<string> {
    match a
    case StrArg(v) => [v]
    case ListArg(vs) => vs
    case _ => []
  }

  predicate AnyGlob(values: seq<string>, p: string) { exists i :: 0 <= i < |values| && Glob(p, values[i]) }

  predicate SomeGlob(mail: Mail, names: seq<string>, p: string) {
    exists i :: 0 <= i < |names| && AnyGlob(Lookup(mail.addresses, names[i]), p)
  }

  /** A Sieve number with its quantifier. */
  function Quantity(text: string): nat {
    var k := |text| - 1;
    if k >= 0 && (forall i :: 0 <= i < k ==> Decimals.IsDigit(text[i])) then
      if text[k] == 'K' then Decimals.Value(text[..k]) * 1024
      else if text[k] == 'M' then Decimals.Value(text[..k]) * 1048576
      else if Decimals.IsDigit(text[k]) then Decimals.Value(text) else 0
    else 0
  }

  predicate EvalLeaf(name: string, args: seq<Arg>, mail: Mail) {
    if name == "header" && |args| == 3 && args[0] == TagArg("contains") && args[2].StrArg? then
      SomeContains(mail, KeysOf(args[1]), args[2].value)
    else if name == "address" && |args| == 3 && args[0] == TagArg("matches") && args[2].StrArg? then
      SomeGlob(mail, KeysOf(args[1]), args[2].value)
    else if name == "body" && |args| == 3 && args[0] == TagArg("text") && args[1] == TagArg("contains") && args[2].StrArg? then
      AnyContains(mail.text, args[2].value)
    else if name == "size" && |args| == 2 && args[0] == TagArg("over") && args[1].NumArg? then mail.size > Quantity(args[1].text)
    else if name == "size" && |args| == 2 && args[0] == TagArg("under") && args[1].NumArg? then mail.size < Quantity(args[1].text)
    else false
  }

  predicate Eval(t: Test, mail: Mail)
    decreases t
  {
    match t
    case Leaf(name, args) => EvalLeaf(name, args, mail)
    case NotTest(kid) => !Eval(kid, mail)
    case AllOf(kids) => forall i :: 0 <= i < |kids| ==> Eval(kids[i], mail)
    case AnyOf(kids) => exists i :: 0 <= i < |kids| && Eval(kids[i], mail)
  }
}
