/** UID sequence sets and the batches a selection is cut into. */
module UidSets {
  import opened Options
  import opened Decimals

  /** nz-number of section 9 of RFC 3501. */
  function Number(s: string): Option<nat> {
    if s != [] && (forall i :: 0 <= i < |s| ==> IsDigit(s[i])) && s[0] != '0' then Some(Value(s)) else None
  }

  // ---------- sequence sets ----------

  datatype Run = Run(first: nat, last: nat)

  function RunText(r: Run): string {
    if r.first == r.last then Digits(r.first) else Digits(r.first) + [':'] + Digits(r.last)
  }

  function Text(rs: seq<Run>): string {
    if rs == [] then "" else if |rs| == 1 then RunText(rs[0]) else RunText(rs[0]) + [','] + Text(rs[1..])
  }

  function Join(parts: seq<string>): string {
    if parts == [] then "" else if |parts| == 1 then parts[0] else parts[0] + [','] + Join(parts[1..])
  }

  function Texts(rs: seq<Run>): seq<string> {
    if rs == [] then [] else [RunText(rs[0])] + Texts(rs[1..])
  }

  /** What reading UIDs one after the other makes of them. */
  function Extend(rs: seq<Run>, uid: nat): seq<Run> {
    if rs != [] && uid == rs[|rs| - 1].last then rs
    else if rs != [] && uid == rs[|rs| - 1].last + 1 then rs[..|rs| - 1] + [Run(rs[|rs| - 1].first, uid)]
    else rs + [Run(uid, uid)]
  }

  function RunsOf(uids: seq<nat>): seq<Run> {
    if uids == [] then [] else Extend(RunsOf(uids[..|uids| - 1]), uids[|uids| - 1])
  }

  lemma RunsSnoc(uids: seq<nat>, uid: nat)
    ensures RunsOf(uids + [uid]) == Extend(RunsOf(uids), uid)
  {
    assert (uids + [uid])[..|uids|] == uids;
  }

  /** uidSet: its text is that of the runs. */
  method UidSet(uids: seq<nat>) returns (text: string)
    ensures text == Text(RunsOf(uids))
  {
    hide RunsOf, Digits, Text, Join;
    NothingRuns();
    var ranges: seq<string> := [];
    var open, first, last := false, 0, 0;
    assert uids[..0] == [];
    for i := 0 to |uids|
      invariant open <==> RunsOf(uids[..i]) != []
      invariant ranges == Texts(if open then RunsOf(uids[..i])[..|RunsOf(uids[..i])| - 1] else [])
      invariant open ==> RunsOf(uids[..i])[|RunsOf(uids[..i])| - 1] == Run(first, last)
    {
      var uid := uids[i];
      ghost var rs := RunsOf(uids[..i]);
      assert uids[..i + 1] == uids[..i] + [uid];
      RunsSnoc(uids[..i], uid);
      if open && uid == last {
      } else if open && uid == last + 1 {
        last := uid;
      } else {
        if open {
          ranges := ranges + [if first == last then Digits(first) else Digits(first) + [':'] + Digits(last)];
          TextsSnoc(rs[..|rs| - 1], rs[|rs| - 1]);
          assert rs[..|rs| - 1] + [rs[|rs| - 1]] == rs;
        }
        open, first, last := true, uid, uid;
        assert (rs + [Run(uid, uid)])[..|rs|] == rs;
      }
    }
    assert uids[..|uids|] == uids;
    if open {
      ghost var rs := RunsOf(uids);
      ranges := ranges + [if first == last then Digits(first) else Digits(first) + [':'] + Digits(last)];
      TextsSnoc(rs[..|rs| - 1], rs[|rs| - 1]);
      assert rs[..|rs| - 1] + [rs[|rs| - 1]] == rs;
    }
    JoinTexts(RunsOf(uids));
    text := Join(ranges);
  }

  lemma {:induction false} TextsSnoc(rs: seq<Run>, r: Run)
    ensures Texts(rs + [r]) == Texts(rs) + [RunText(r)]
  {
    if rs != [] {
      assert (rs + [r])[1..] == rs[1..] + [r];
      TextsSnoc(rs[1..], r);
    }
  }

  lemma {:induction false} JoinTexts(rs: seq<Run>)
    ensures Join(Texts(rs)) == Text(rs) && |Texts(rs)| == |rs|
  {
    if rs != [] { JoinTexts(rs[1..]); }
  }

  // ---------- what a sequence set means ----------

  function Span(first: nat, last: nat): seq<nat>
    decreases last - first
  {
    if last < first then [] else [first] + Span(first + 1, last)
  }

  function Expand(rs: seq<Run>): seq<nat> {
    if rs == [] then [] else Span(rs[0].first, rs[0].last) + Expand(rs[1..])
  }

  function Find(s: string, c: char): (n: nat)
    ensures n <= |s| && (n < |s| ==> s[n] == c) && forall i :: 0 <= i < n ==> s[i] != c
  {
    if s == [] || s[0] == c then 0 else 1 + Find(s[1..], c)
  }

  /** seq-number and seq-range of section 9 of RFC 3501, without the star. */
  function ParseRun(s: string): Option<Run> {
    var n := Find(s, ':');
    if n == |s| then
      var a := Number(s);
      if a.Some? then Some(Run(a.value, a.value)) else None
    else
      var a, b := Number(s[..n]), Number(s[n + 1..]);
      if a.Some? && b.Some? then Some(Run(a.value, b.value)) else None
  }

  /** sequence-set of section 9 of RFC 3501. */
  function ParseSet(s: string): Option<seq<Run>>
    decreases |s|
  {
    var n := Find(s, ',');
    var r := ParseRun(s[..n]);
    if r.None? then None
    else if n == |s| then Some([r.value])
    else
      var rest := ParseSet(s[n + 1..]);
      if rest.Some? then Some([r.value] + rest.value) else None
  }

  lemma FoundAt(a: string, c: char, b: string)
    requires c !in a
    ensures Find(a + [c] + b, c) == |a| && Find(a, c) == |a|
    ensures (a + [c] + b)[..|a|] == a && (a + [c] + b)[|a| + 1..] == b
  {
    var s := a + [c] + b;
    assert s[|a|] == c;
    assert forall i :: 0 <= i < |a| ==> s[i] == a[i];
  }

  lemma RunParses(r: Run)
    requires 0 < r.first <= r.last
    ensures ParseRun(RunText(r)) == Some(r) && ',' !in RunText(r)
  {
    hide Digits, Value;
    var a, b := Digits(r.first), Digits(r.last);
    DigitsValue(r.first);
    DigitsValue(r.last);
    FoundAt(a, ':', b);
  }

  predicate Proper(rs: seq<Run>) { forall i {:trigger rs[i]} :: 0 <= i < |rs| ==> 0 < rs[i].first <= rs[i].last }

  /** A printed sequence set reads back as its runs. */
  lemma {:induction false} SetParses(rs: seq<Run>)
    requires rs != [] && Proper(rs)
    ensures ParseSet(Text(rs)) == Some(rs)
  {
    hide RunText, ParseRun, Number, Find, Digit, IsDigit, Digits, Value;
    RunParses(rs[0]);
    var a := RunText(rs[0]);
    if |rs| == 1 {
      FoundAt(a, ',', "");
      assert a[..|a|] == a;
      assert rs == [rs[0]];
    } else {
      SetParses(rs[1..]);
      FoundAt(a, ',', Text(rs[1..]));
      assert rs == [rs[0]] + rs[1..];
    }
  }

  predicate Ascending(uids: seq<nat>) {
    (forall i {:trigger uids[i]} :: 0 <= i < |uids| ==> 0 < uids[i])
    && forall i, j {:trigger uids[i], uids[j]} :: 0 <= i < j < |uids| ==> uids[i] < uids[j]
  }

  lemma {:induction false} SpanSnoc(first: nat, last: nat)
    requires first <= last + 1
    ensures Span(first, last + 1) == Span(first, last) + [last + 1]
    decreases last + 1 - first
  {
    if first <= last { SpanSnoc(first + 1, last); }
  }

  lemma OneSpan(uid: nat)
    ensures Span(uid, uid) == [uid]
  {
    assert Span(uid + 1, uid) == [];
  }

  lemma {:induction false} ExpandSnoc(rs: seq<Run>, r: Run)
    ensures Expand(rs + [r]) == Expand(rs) + Span(r.first, r.last)
  {
    if rs == [] {
      assert rs + [r] == [r];
      assert Span(r.first, r.last) + [] == Span(r.first, r.last);
    } else {
      assert (rs + [r])[1..] == rs[1..] + [r];
      ExpandSnoc(rs[1..], r);
    }
  }

  lemma FrontAscending(uids: seq<nat>)
    requires Ascending(uids) && uids != []
    ensures Ascending(uids[..|uids| - 1]) && 0 < uids[|uids| - 1]
    ensures |uids| > 1 ==> uids[|uids| - 2] < uids[|uids| - 1]
  {
    assert forall i :: 0 <= i < |uids| - 1 ==> uids[..|uids| - 1][i] == uids[i];
  }

  lemma NothingRuns()
    ensures RunsOf([]) == [] && Expand([]) == [] && Proper([])
  {}

  /** The runs of ascending UIDs are theirs, no more and no less. */
  lemma {:induction false} RunsExact(uids: seq<nat>)
    requires Ascending(uids)
    ensures Expand(RunsOf(uids)) == uids && Proper(RunsOf(uids)) && (uids != [] <==> RunsOf(uids) != [])
    ensures uids != [] ==> RunsOf(uids)[|RunsOf(uids)| - 1].last == uids[|uids| - 1]
  {
    hide Proper, Expand, Extend, Ascending, RunsOf;
    if uids == [] {
      NothingRuns();
    } else {
      var front, uid := uids[..|uids| - 1], uids[|uids| - 1];
      FrontAscending(uids);
      RunsSnoc(front, uid);
      RunsExact(front);
      ExtendExact(RunsOf(front), uid);
      assert uids == front + [uid];
    }
  }

  lemma ExtendExact(rs: seq<Run>, uid: nat)
    requires Proper(rs) && 0 < uid && (rs != [] ==> rs[|rs| - 1].last < uid)
    ensures Expand(Extend(rs, uid)) == Expand(rs) + [uid] && Proper(Extend(rs, uid))
    ensures Extend(rs, uid) != [] && Extend(rs, uid)[|Extend(rs, uid)| - 1].last == uid
  {
    OneSpan(uid);
    hide Expand, Span;
    if rs != [] && uid == rs[|rs| - 1].last + 1 {
      var front, r := rs[..|rs| - 1], rs[|rs| - 1];
      var more := Run(r.first, uid);
      assert rs == front + [r] && Extend(rs, uid) == front + [more];
      ExpandSnoc(front, r);
      ExpandSnoc(front, more);
      SpanSnoc(r.first, r.last);
      assert Expand(front) + (Span(r.first, r.last) + [uid]) == Expand(front) + Span(r.first, r.last) + [uid];
    } else {
      ExpandSnoc(rs, Run(uid, uid));
    }
  }

  /** The text of ascending UIDs denotes exactly them. */
  lemma UidSetDenotes(uids: seq<nat>)
    requires Ascending(uids) && uids != []
    ensures ParseSet(Text(RunsOf(uids))).Some? && Expand(ParseSet(Text(RunsOf(uids))).value) == uids
  {
    RunsExact(uids);
    SetParses(RunsOf(uids));
  }

  // ---------- batches ----------

  const UID_LIMIT := 5000
  const SET_LIMIT := 16384
  const MAX_UID := 0xffff_ffff

  lemma UidShort(uid: nat)
    requires uid <= MAX_UID
    ensures 0 < |Digits(uid)| <= 10
  {
    assert Pow10(10) == 10_000_000_000 by {
      assert Pow10(5) == 100_000;
      assert Pow10(10) == 100_000 * Pow10(5);
    }
    DigitsShort(uid, 10);
  }

  lemma {:induction false} TextSnoc(rs: seq<Run>, r: Run)
    ensures |Text(rs + [r])| == |Text(rs)| + (if rs == [] then 0 else 1) + |RunText(r)|
  {
    if rs != [] {
      assert (rs + [r])[1..] == rs[1..] + [r];
      TextSnoc(rs[1..], r);
    }
  }

  /** How much the text of a batch grows by one more UID. */
  function Added(uids: seq<nat>, uid: nat): int {
    var rs := RunsOf(uids);
    if rs != [] && uid == rs[|rs| - 1].last + 1 then
      if rs[|rs| - 1].first == rs[|rs| - 1].last then 1 + |Digits(uid)| else |Digits(uid)| - |Digits(rs[|rs| - 1].last)|
    else (if uids == [] then 0 else 1) + |Digits(uid)|
  }

  lemma AddedExact(uids: seq<nat>, uid: nat)
    requires Ascending(uids) && (uids != [] ==> uids[|uids| - 1] < uid)
    ensures |Text(RunsOf(uids + [uid]))| == |Text(RunsOf(uids))| + Added(uids, uid)
  {
    hide RunsOf, Digits, Text, Ascending, Expand;
    RunsExact(uids);
    RunsSnoc(uids, uid);
    var rs := RunsOf(uids);
    if rs != [] && uid == rs[|rs| - 1].last + 1 {
      var front, r := rs[..|rs| - 1], rs[|rs| - 1];
      assert rs == front + [r];
      TextSnoc(front, r);
      TextSnoc(front, Run(r.first, uid));
    } else {
      TextSnoc(rs, Run(uid, uid));
    }
  }

  predicate Uids(uids: seq<nat>) { Ascending(uids) && forall i {:trigger uids[i]} :: 0 <= i < |uids| ==> uids[i] <= MAX_UID }

  predicate Fits(batch: seq<nat>, limit: nat) { |batch| <= limit && |Text(RunsOf(batch))| <= SET_LIMIT }

  /** The longest prefix that fits: the generator run up to its next yield. */
  method NextBatch(uids: seq<nat>, limit: nat) returns (batch: seq<nat>)
    requires Uids(uids) && uids != [] && 0 < limit
    ensures batch != [] && batch <= uids && Fits(batch, limit)
    ensures |batch| < |uids| ==> !Fits(uids[..|batch| + 1], limit)
  {
    hide Text, Digits, RunsOf, Ascending, RunText;
    batch := [];
    var length: int, first, last := 0, 0, 0;
    assert RunsOf([]) == [] && Text([]) == "" by { NothingText(); }
    assert Ascending([]) by { NothingText(); }
    for i := 0 to |uids|
      invariant batch == uids[..i] && Ascending(batch) && (i > 0 ==> batch != [] && Fits(batch, limit) && last == uids[i - 1])
      invariant length == |Text(RunsOf(batch))|
      invariant i > 0 ==> RunsOf(batch) != [] && RunsOf(batch)[|RunsOf(batch)| - 1] == Run(first, last)
    {
      var uid := uids[i];
      var contiguous := batch != [] && uid == last + 1;
      var added := if contiguous then if first == last then 1 + |Digits(uid)| else |Digits(uid)| - |Digits(last)|
                   else (if batch != [] then 1 else 0) + |Digits(uid)|;
      Prefixes(uids, i);
      assert added == Added(batch, uid);
      AddedExact(batch, uid);
      RunsSnoc(batch, uid);
      assert batch + [uid] == uids[..i + 1];
      if batch != [] && (|batch| == limit || length + added > SET_LIMIT) {
        return;
      }
      UidShort(uid);
      if !contiguous {
        first := uid;
      }
      length, batch, last := length + added, batch + [uid], uid;
    }
    assert uids[..|uids|] == uids;
  }

  lemma NothingText()
    ensures RunsOf([]) == [] && Text([]) == "" && Ascending([])
  {}

  lemma Prefixes(uids: seq<nat>, i: nat)
    requires Ascending(uids) && i < |uids|
    ensures Ascending(uids[..i + 1]) && Ascending(uids[i..]) && (i > 0 ==> uids[i - 1] < uids[i])
  {
    assert forall j :: 0 <= j < |uids[..i + 1]| ==> uids[..i + 1][j] == uids[j];
    assert forall j :: 0 <= j < |uids[i..]| ==> uids[i..][j] == uids[i + j];
  }

  lemma {:induction false} DigitsGrow(n: nat)
    ensures |Digits(n)| <= |Digits(n + 1)|
  {
    if n >= 10 { DigitsGrow(n / 10); }
  }

  /** What fits, fits without its last UIDs. */
  lemma {:induction false} FitsFront(uids: seq<nat>, n: nat, limit: nat)
    requires Ascending(uids) && Fits(uids, limit) && n <= |uids|
    ensures Fits(uids[..n], limit)
    decreases |uids|
  {
    hide RunsOf, Digits, Text, RunText, Ascending;
    if n == |uids| {
      assert uids[..n] == uids;
    } else {
      var front, uid := uids[..|uids| - 1], uids[|uids| - 1];
      assert uids == front + [uid];
      Prefixes(uids, |uids| - 1);
      if |uids| > 1 { Prefixes(uids, |uids| - 2); }
      assert Ascending(front) by { if |uids| == 1 { NothingText(); } }
      AddedExact(front, uid);
      RunsExact(front);
      if RunsOf(front) != [] { DigitsGrow(RunsOf(front)[|RunsOf(front)| - 1].last); }
      FitsFront(front, n, limit);
      assert front[..n] == uids[..n];
    }
  }

  function Flat(batches: seq<seq<nat>>): seq<nat> {
    if batches == [] then [] else batches[0] + Flat(batches[1..])
  }

  lemma {:induction false} FlatSnoc(batches: seq<seq<nat>>, batch: seq<nat>)
    ensures Flat(batches + [batch]) == Flat(batches) + batch
  {
    if batches == [] {
      assert batches + [batch] == [batch];
      assert batch + [] == batch;
    } else {
      assert (batches + [batch])[1..] == batches[1..] + [batch];
      FlatSnoc(batches[1..], batch);
    }
  }

  /** scopedUidBatches: non-empty batches that fit and make up the input, each as long as possible. */
  method Batches(uids: seq<nat>, limit: nat) returns (batches: seq<seq<nat>>)
    requires Uids(uids) && 0 < limit
    ensures Flat(batches) == uids
    ensures forall i {:trigger batches[i]} :: 0 <= i < |batches| ==> batches[i] != [] && Ascending(batches[i]) && Fits(batches[i], limit)
    ensures forall i {:trigger batches[i]} :: 0 <= i < |batches| - 1 ==> batches[i + 1] != [] && !Fits(batches[i] + [batches[i + 1][0]], limit)
  {
    hide Fits, Ascending;
    batches := [];
    var offset: nat := 0;
    while offset < |uids|
      invariant offset <= |uids| && Flat(batches) == uids[..offset]
      invariant forall i {:trigger batches[i]} :: 0 <= i < |batches| ==> batches[i] != [] && Ascending(batches[i]) && Fits(batches[i], limit)
      invariant forall i {:trigger batches[i]} :: 0 <= i < |batches| - 1 ==> batches[i + 1] != [] && !Fits(batches[i] + [batches[i + 1][0]], limit)
      invariant batches != [] && offset < |uids| ==> !Fits(batches[|batches| - 1] + [uids[offset]], limit)
    {
      var rest := uids[offset..];
      Prefixes(uids, offset);
      var batch := NextBatch(rest, limit);
      PrefixAscending(rest, batch);
      FlatSnoc(batches, batch);
      assert uids[..offset] + batch == uids[..offset + |batch|];
      assert |batch| < |rest| ==> rest[..|batch| + 1] == batch + [uids[offset + |batch|]];
      assert batch[0] == uids[offset];
      batches := batches + [batch];
      offset := offset + |batch|;
    }
  }

  lemma PrefixAscending(uids: seq<nat>, batch: seq<nat>)
    requires Ascending(uids) && batch <= uids
    ensures Ascending(batch)
  {}

  // ---------- batch sizes ----------

  const MIN_SIZE := 50

  /** scopedBatchState: the size of the next batch, learned from how long the last one took. */
  class BatchState {
    var size: nat
    const max: nat
    var lastMs: real
    var lastCount: nat

    constructor (flags: bool)
      ensures MIN_SIZE <= size <= max <= UID_LIMIT && lastCount == 0 && (flags <==> size == UID_LIMIT) && (!flags ==> size == 500 && max == 2000)
    {
      size, max := if flags then UID_LIMIT else 500, if flags then UID_LIMIT else 2000;
      lastMs, lastCount := 0.0, 0;
    }

    /** updateScopedBatch: the size never leaves the range in which a batch can be planned.  It is the largest that is
        allowed, at most twice the last one, and would have been answered within two seconds. */
    method Update(count: nat, elapsedMs: real)
      requires MIN_SIZE <= size <= max && 0.0 <= elapsedMs
      modifies this`size, this`lastMs, this`lastCount
      ensures MIN_SIZE <= size <= max && size <= 2 * old(size) && lastMs == elapsedMs && lastCount == count
      ensures size > MIN_SIZE ==> size as real * (if elapsedMs < 1.0 then 1.0 else elapsedMs) <= 2000.0 * count as real
      ensures size < max && size < 2 * old(size) ==> (size + 1) as real * (if elapsedMs < 1.0 then 1.0 else elapsedMs) > 2000.0 * count as real
    {
      lastMs, lastCount := elapsedMs, count;
      var paced := ((count as real * 2000.0) / (if elapsedMs < 1.0 then 1.0 else elapsedMs)).Floor;
      ghost var x := count as real * 2000.0;
      Paced(x, if elapsedMs < 1.0 then 1.0 else elapsedMs, paced, paced as real + 1.0);
      var capped := if size * 2 < max then size * 2 else max;
      var least := if paced < capped then paced else capped;
      size := if least < MIN_SIZE then MIN_SIZE else least;
      ghost var ms := if elapsedMs < 1.0 then 1.0 else elapsedMs;
      if size < max && size < 2 * old(size) { Faster(size, paced, ms, x, paced as real + 1.0); }
      if size > MIN_SIZE { Slower(size, paced, ms, x); }
    }
  }

  lemma Quotient(x: real, ms: real)
    requires ms > 0.0 && x >= 0.0
    ensures x / ms * ms == x && x / ms >= 0.0
  {}

  lemma Stretched(a: real, b: real, ms: real)
    requires ms > 0.0 && a < b
    ensures a * ms < b * ms
  {}

  lemma StretchedTo(a: real, b: real, ms: real)
    requires ms > 0.0 && a <= b
    ensures a * ms <= b * ms
  {}

  lemma Above(x: real, q: real, next: real, ms: real)
    requires ms > 0.0 && q * ms == x && q < next
    ensures x < next * ms
  {
    Stretched(q, next, ms);
  }

  lemma Below(x: real, q: real, low: real, ms: real)
    requires ms > 0.0 && q * ms == x && low <= q
    ensures low * ms <= x
  {
    StretchedTo(low, q, ms);
  }

  lemma Paced(x: real, ms: real, paced: int, next: real)
    requires ms >= 1.0 && x >= 0.0 && paced == (x / ms).Floor && next == paced as real + 1.0
    ensures paced >= 0 && paced as real * ms <= x < next * ms
  {
    var q := x / ms;
    Quotient(x, ms);
    assert q < next;
    Above(x, q, next, ms);
    Below(x, q, paced as real, ms);
  }

  lemma Faster(size: nat, paced: int, ms: real, x: real, next: real)
    requires paced <= size && ms >= 1.0 && next == paced as real + 1.0 && x < next * ms
    ensures x < (size + 1) as real * ms
  {
    StretchedTo(next, (size + 1) as real, ms);
  }

  lemma Slower(size: nat, paced: int, ms: real, x: real)
    requires size <= paced && ms >= 1.0 && paced as real * ms <= x
    ensures size as real * ms <= x
  {
    StretchedTo(size as real, paced as real, ms);
  }
}
