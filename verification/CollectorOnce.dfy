/** A collection cycle, and what any number of cycles and crashes adds to the archive. */
module CollectorOnce {
  import opened Options
  import opened ArchiveTypes
  import opened ArchiveDisk
  import opened ArchiveJournal
  import opened ArchiveCrash
  import opened ArchiveStaging
  import opened ArchiveCommit
  import opened CollectorPrint
  import opened CollectorRead
  import opened CollectorFollow
  import opened CollectorTracking
  import opened CollectorWorld

  /** How a source's lines are dated, and how long they are kept. */
  datatype Rules = Rules(parse: string -> Parser, keep: string -> int)

  function PolicyFor(r: Rules, source: string, stamp: int): Policy {
    Policy(r.parse(source), source, stamp, stamp - r.keep(source))
  }

  /** A line is kept for as long as its source keeps lines, by its own time; a line without one always is. */
  predicate Lasting(r: Rules, source: string, stamp: int, raw: Bytes) {
    var time := r.parse(source).time(raw);
    time.None? || stamp - r.keep(source) <= time.value
  }

  /** The record of a line: the line as it is, with the time it shows, in the hour of that time or else of the reading. */
  predicate RecordOf(r: Rules, source: string, stamp: int, raw: Bytes, x: Record) {
    var time := r.parse(source).time(raw);
    && x.source == source && x.raw == raw && x.eventTime == time && x.observedAt == stamp
    && KeyOf(x) == Key(source, (if time.Some? then time.value else stamp) / HOUR)
  }

  lemma FirstRecord(r: Rules, source: string, stamp: int, lines: seq<Bytes>)
    requires lines != []
    ensures var all, later := Records(PolicyFor(r, source, stamp), lines), Records(PolicyFor(r, source, stamp), lines[1..]);
      if Lasting(r, source, stamp, lines[0]) then all != [] && all == [all[0]] + later && RecordOf(r, source, stamp, lines[0], all[0]) else all == later
  {}

  /** The records of some lines are those that last, each once and in order; `at` says where they stand. */
  lemma {:induction false} RecordsExact(r: Rules, source: string, stamp: int, lines: seq<Bytes>) returns (at: seq<nat>)
    ensures var all := Records(PolicyFor(r, source, stamp), lines);
      |at| == |all| && forall i {:trigger at[i]} :: 0 <= i < |at| ==> at[i] < |lines| && RecordOf(r, source, stamp, lines[at[i]], all[i])
    ensures forall i, j {:trigger at[i], at[j]} :: 0 <= i < j < |at| ==> at[i] < at[j]
    ensures forall j: nat {:trigger lines[j]} :: j < |lines| ==> (j in at <==> Lasting(r, source, stamp, lines[j]))
  {
    hide Lasting, RecordOf, PolicyFor;
    if lines == [] {
      at := [];
    } else {
      FirstRecord(r, source, stamp, lines);
      hide Records;
      var rest := RecordsExact(r, source, stamp, lines[1..]);
      var all, later := Records(PolicyFor(r, source, stamp), lines), Records(PolicyFor(r, source, stamp), lines[1..]);
      var first := Lasting(r, source, stamp, lines[0]);
      at := Shifted(first, rest);
      forall i | 0 <= i < |at| ensures at[i] < |lines| && RecordOf(r, source, stamp, lines[at[i]], all[i]) {
        var k := if first then i - 1 else i;
        assert k >= 0 ==> rest[k] < |lines| - 1 && all[i] == later[k];
      }
      forall j: nat | j < |lines| ensures j in at <==> Lasting(r, source, stamp, lines[j]) {
        assert lines[j] == if j == 0 then lines[0] else lines[1..][j - 1];
        assert j > 0 ==> (j in at <==> j - 1 in rest);
      }
    }
  }

  /** The places of some lines, one further on, behind the first line or not. */
  lemma Shifted(first: bool, rest: seq<nat>) returns (at: seq<nat>)
    requires forall i, j {:trigger rest[i], rest[j]} :: 0 <= i < j < |rest| ==> rest[i] < rest[j]
    ensures |at| == |rest| + (if first then 1 else 0) && (first ==> at[0] == 0)
    ensures forall i {:trigger at[i]} :: (if first then 1 else 0) <= i < |at| ==> at[i] == rest[if first then i - 1 else i] + 1
    ensures forall i, j {:trigger at[i], at[j]} :: 0 <= i < j < |at| ==> at[i] < at[j]
    ensures (0 in at <==> first) && forall j: nat {:trigger j in at} :: j > 0 ==> (j in at <==> j - 1 in rest)
  {
    var more := seq(|rest|, i requires 0 <= i < |rest| => rest[i] + 1);
    at := if first then [0] + more else more;
    forall j: nat | j > 0 ensures j in at <==> j - 1 in rest {
      if j - 1 in rest {
        var i :| 0 <= i < |rest| && rest[i] == j - 1;
        assert at[i + if first then 1 else 0] == j;
      }
    }
  }

  /** The generation accounts for exactly the bytes `seen`. */
  predicate Accounted(r: Rules, g: Generation, seen: Bytes) {
    g.offset == |seen| && Accounts(r.parse(g.source), Split(seen), Partial(seen), g.gaps, g.long)
    && Sized(Print(g.prefix, g.tail), g.offset)
  }

  /** Lines one generation contributed in one cycle. */
  datatype Took = Took(name: string, policy: Policy, lines: seq<Bytes>)

  function RecordsAll(log: seq<Took>): seq<Record> {
    if log == [] then [] else Records(log[0].policy, log[0].lines) + RecordsAll(log[1..])
  }

  function LinesBy(log: seq<Took>, name: string): seq<Bytes> {
    if log == [] then []
    else if log[0].name == name then log[0].lines + LinesBy(log[1..], name)
    else LinesBy(log[1..], name)
  }

  lemma {:induction false} RecordsAllConcat(a: seq<Took>, b: seq<Took>)
    ensures RecordsAll(a + b) == RecordsAll(a) + RecordsAll(b)
  {
    if a == [] {
      assert a + b == b;
    } else {
      assert (a + b)[1..] == a[1..] + b;
      RecordsAllConcat(a[1..], b);
    }
  }

  lemma {:induction false} LinesByConcat(a: seq<Took>, b: seq<Took>, name: string)
    ensures LinesBy(a + b, name) == LinesBy(a, name) + LinesBy(b, name)
  {
    if a == [] {
      assert a + b == b;
    } else {
      assert (a + b)[1..] == a[1..] + b;
      LinesByConcat(a[1..], b, name);
    }
  }

  // ---------- gaps without an end ----------

  /** Noting a fault changes no accounting: only dropped lines have ranges. */
  lemma NoteKeeps(r: Rules, g: Generation, seen: Bytes, reason: string, from: nat)
    requires Accounted(r, g, seen) && reason != TOO_LONG
    ensures Accounted(r, g.(gaps := AddGap(g.gaps, Gap(reason, from, None))), seen)
  {
    NoteRanges(g.gaps, Gap(reason, from, None), TOO_LONG);
    NoteRanges(g.gaps, Gap(reason, from, None), BAD_TIME);
  }

  lemma NoteRanges(gaps: seq<Gap>, g: Gap, reason: string)
    requires g.to.None? && g.reason != TOO_LONG && Ended(gaps)
    ensures Ranges(AddGap(gaps, g), reason) == Ranges(gaps, reason) && Ended(AddGap(gaps, g))
  {
    RangesConcat(gaps, [g], reason);
    assert Ranges([g][1..], reason) == [];
    EndedNote(gaps, g);
  }

  lemma {:induction false} EndedNote(gaps: seq<Gap>, g: Gap)
    requires Ended(gaps) && g.reason != TOO_LONG
    ensures Ended(gaps + [g])
  {
    if gaps != [] {
      assert (gaps + [g])[1..] == gaps[1..] + [g];
      EndedNote(gaps[1..], g);
    }
  }

  const CHANGED := "source-changed-during-read"
  const UNREAD := "source-read-error"

  /** Tracking keeps the accounting of every generation. */
  lemma EvolvedAccounted(r: Rules, g: Generation, g': Generation, files: seq<File>, seen: Bytes)
    requires Evolved(g, g', files) && Accounted(r, g, seen)
    ensures Accounted(r, g', seen)
  {
    hide Accounts, Lost, IsCopy, NoneAt;
    NoteKeeps(r, g, seen, COPIED, g.offset);
    NoteKeeps(r, g, seen, REWRITTEN, g.offset);
    NoteKeeps(r, g, seen, GONE, g.offset);
  }

  lemma OpenedAccounted(r: Rules, f: File)
    ensures Accounted(r, Opened(f), [])
  {}

  // ---------- one generation in one cycle ----------

  /** The fingerprint is either as it was or taken from the file. */
  predicate Printed(g: Generation, g': Generation, f: File) {
    || (g'.offset == g.offset && Print(g'.prefix, g'.tail) == Print(g.prefix, g.tail))
    || Print(g'.prefix, g'.tail) == PrintOf(f.contents, g'.offset)
    || Print(g'.prefix, g'.tail) == PrintOf(f.later, g'.offset)
  }

  /** What following a file in one cycle does to its generation. */
  predicate Advanced(r: Rules, g: Generation, g': Generation, f: File, seen: Bytes, seen': Bytes, lines: seq<Bytes>) {
    && Accounted(r, g', seen') && g.offset <= g'.offset && seen' == seen + At(f.contents, g.offset, g'.offset - g.offset)
    && Kept(Split(seen')) == Kept(Split(seen)) + lines
    && g'.source == g.source && g'.instance == g.instance && g'.identity == g.identity && g'.kind == g.kind
    && Printed(g, g', f)
    && (g'.closed && !g.closed ==> !f.visible && (g'.observed > g'.offset ==> Gap(GONE, g'.offset, None) in g'.gaps))
  }

  /** The size and activity seen in this cycle. */
  function Observed(g: Generation, f: File): Generation { g.(observed := |f.contents|, active := f.active && f.visible) }

  function Noted(g: Generation, reason: string): Generation { g.(gaps := AddGap(g.gaps, Gap(reason, g.offset, None))) }

  /** The end of a cycle for one generation: a file that is gone and has nothing more to give is closed. */
  function Concluded(g: Generation, f: File, stable: nat, safely: bool): Generation {
    var kept := if f.visible then g.(stable := stable) else g;
    if !f.visible && (g.offset == g.observed || g.partial > 0) then
      var done := kept.(closed := true);
      if (f.active && !safely) || g.observed > g.offset then Noted(done, GONE) else done
    else kept
  }

  lemma ConcludedKeeps(r: Rules, g: Generation, f: File, stable: nat, safely: bool, seen: Bytes)
    requires Accounted(r, g, seen) && !g.closed
    ensures Accounted(r, Concluded(g, f, stable, safely), seen)
    ensures Concluded(g, f, stable, safely).closed ==>
      !f.visible && (g.observed > g.offset ==> Gap(GONE, g.offset, None) in Concluded(g, f, stable, safely).gaps)
  {
    hide Accounts;
    NoteKeeps(r, g, seen, GONE, g.offset);
  }

  lemma NotedAdvances(r: Rules, g: Generation, f: File, seen: Bytes, reason: string)
    requires Accounted(r, g, seen) && reason != TOO_LONG
    ensures Advanced(r, g, Noted(Observed(g, f), reason), f, seen, seen, [])
  {
    hide Accounts, Split, Kept;
    NoteKeeps(r, g, seen, reason, g.offset);
    assert At(f.contents, g.offset, 0) == [];
    assert seen + [] == seen && Kept(Split(seen)) + [] == Kept(Split(seen));
  }

  /** One generation's turn in a cycle. */
  method FollowOne(r: Rules, g: Generation, f: File, stamp: int, budget: int, records: seq<Record>, ghost seen: Bytes)
    returns (ok: bool, g': Generation, records': seq<Record>, used: nat, ghost seen': Bytes, ghost lines: seq<Bytes>)
    requires Accounted(r, g, seen) && !g.closed && f.source == g.source
    requires Matches(f, g) || Unreadable(f, g)
    ensures Advanced(r, g, g', f, seen, seen', lines) && used == g'.offset - g.offset
    ensures records' == records + Records(PolicyFor(r, g.source, stamp), lines)
    ensures !ok ==> f.broken || !(f.contents <= f.later)
    ensures !ok ==> used == 0 && lines == [] && (Gap(UNREAD, g.offset, None) in g'.gaps || Gap(CHANGED, g.offset, None) in g'.gaps)
    ensures used == 0 || (0 < budget && used < budget + OVERSHOOT)
    ensures ok && 0 < budget && used < budget ==> Waiting(Rest(f.contents, |f.contents|, g'.offset), g'.long)
    ensures g'.offset <= |f.contents| || f.broken
    ensures ok ==> g'.observed == |f.contents| && (g'.active <==> f.active && f.visible)
    ensures ok ==> (g'.closed <==> !f.visible && (g'.offset == |f.contents| || g'.partial > 0))
  {
    hide Accounts, Records, Split, Kept, Partial, At, Waiting, Rest, Concluded, Flatten, FindLF, Smaller, PrintOf, Sized, TooLong, Untimed, Report, Ranges, Ended, Unfinished, Fresh, RecordFor, Drained;
    var size, y := |f.contents|, PolicyFor(r, f.source, stamp);
    var safely := Drained(g) && size == g.observed;
    var stable: nat := if size != g.observed then 1 else if g.stable + 1 < 2 then g.stable + 1 else 2;
    var g1 := Observed(g, f);
    NoRecords(records, y);
    if f.broken && (g.offset > 0 || (budget > 0 && size > 0)) {
      NotedAdvances(r, g, f, seen, UNREAD);
      return false, Noted(g1, UNREAD), records, 0, seen, [];
    }
    var g2, last := g1, f.contents;
    used, records', seen', lines := 0, records, seen, [];
    NothingTaken(g, f, seen);
    if budget > 0 {
      var partial: nat;
      ok, g2, records', partial := Read(y, g1, f.contents, size, f.later, budget, records, seen);
      if !ok {
        GrewOk(f, g, g2.offset);
        NotedAdvances(r, g, f, seen, CHANGED);
        return false, Noted(g1, CHANGED), records, 0, seen, [];
      }
      ghost var more := At(f.contents, g.offset, g2.offset - g.offset);
      seen', lines := seen + more, Since(seen, more);
      g2, used, last := g2.(partial := partial), g2.offset - g.offset, f.later;
    }
    var p := PrintOf(last, g2.offset);
    g2 := g2.(prefix := p.prefix, tail := p.tail);
    assert Sized(p, g2.offset) by { PrintSized(f.contents, g2.offset); }
    assert Accounted(r, g2, seen');
    ConcludedKeeps(r, g2, f, stable, safely, seen');
    ConcludedSame(g2, f, stable, safely);
    ok, g' := true, Concluded(g2, f, stable, safely);
  }

  lemma NoRecords(records: seq<Record>, y: Policy)
    ensures records + Records(y, []) == records
  {}

  lemma NothingTaken(g: Generation, f: File, seen: Bytes)
    ensures seen + At(f.contents, g.offset, 0) == seen && Kept(Split(seen)) + [] == Kept(Split(seen))
  {
    assert At(f.contents, g.offset, 0) == [];
  }

  lemma ConcludedSame(g: Generation, f: File, stable: nat, safely: bool)
    ensures var g' := Concluded(g, f, stable, safely);
      && g'.offset == g.offset && g'.observed == g.observed && g'.long == g.long && PlaceFor(g') == PlaceFor(g) && g'.kind == g.kind
      && g'.prefix == g.prefix && g'.tail == g.tail && g'.active == g.active && g'.partial == g.partial
      && (g'.closed <==> g.closed || (!f.visible && (g.offset == g.observed || g.partial > 0)))
  {}

  /** A file that only grew is never refused. */
  lemma GrewOk(f: File, g: Generation, offset: nat)
    requires Matches(f, g) || f.broken
    requires !((g.offset == 0 || PrintOf(f.contents, g.offset) == Print(g.prefix, g.tail)) && PrintOf(f.later, offset) == PrintOf(f.contents, offset))
    requires offset <= |f.contents|
    ensures f.broken || !(f.contents <= f.later)
  {
    if f.contents <= f.later { PrintGrows(f.contents, f.later, offset); }
  }

  // ---------- a cycle ----------

  predicate AllAccounted(r: Rules, cps: map<string, Generation>, seen: map<string, Bytes>) {
    forall n {:trigger cps[n]} :: n in cps ==> Accounted(r, cps[n], SeenBy(seen, n))
  }

  /** A batch holds, generation by generation, exactly the kept lines between what had been consumed
      before and what has been consumed now. */
  ghost predicate Gained(seen: map<string, Bytes>, seen': map<string, Bytes>, batch: seq<Took>) {
    forall n {:trigger LinesBy(batch, n)} :: Kept(Split(SeenBy(seen', n))) == Kept(Split(SeenBy(seen, n))) + LinesBy(batch, n)
  }

  /** Following a file leaves a generation where it is, and closed once it is closed. */
  predicate Stays(g: Generation, g': Generation) {
    PlaceFor(g') == PlaceFor(g) && g'.kind == g.kind && (g.closed ==> g'.closed) && g.offset <= g'.offset
  }

  lemma {:induction false} LinesBySnoc(batch: seq<Took>, t: Took, n: string)
    ensures LinesBy(batch + [t], n) == if t.name == n then LinesBy(batch, n) + t.lines else LinesBy(batch, n)
  {
    LinesByConcat(batch, [t], n);
    assert LinesBy([t][1..], n) == [];
    assert t.lines + [] == t.lines && LinesBy(batch, n) + [] == LinesBy(batch, n);
  }

  lemma GainedMore(seen: map<string, Bytes>, seen': map<string, Bytes>, batch: seq<Took>, t: Took, more: Bytes)
    requires Gained(seen, seen', batch) && Kept(Split(more)) == Kept(Split(SeenBy(seen', t.name))) + t.lines
    ensures Gained(seen, seen'[t.name := more], batch + [t])
  {
    hide Kept, Split, LinesBy;
    forall n ensures Kept(Split(SeenBy(seen'[t.name := more], n))) == Kept(Split(SeenBy(seen, n))) + LinesBy(batch + [t], n) {
      LinesBySnoc(batch, t, n);
      assert LinesBy(batch, n) == LinesBy(batch, n);
      if n == t.name {
        assert (Kept(Split(SeenBy(seen, n))) + LinesBy(batch, n)) + t.lines == Kept(Split(SeenBy(seen, n))) + (LinesBy(batch, n) + t.lines);
      }
    }
  }

  lemma GainedNothing(seen: map<string, Bytes>)
    ensures Gained(seen, seen, [])
  {
    forall n ensures Kept(Split(SeenBy(seen, n))) == Kept(Split(SeenBy(seen, n))) + LinesBy([], n) {}
  }

  lemma RecordsAllSnoc(records: seq<Record>, batch: seq<Took>, t: Took)
    requires records == RecordsAll(batch)
    ensures records + Records(t.policy, t.lines) == RecordsAll(batch + [t])
  {
    RecordsAllConcat(batch, [t]);
    assert RecordsAll([t][1..]) == [];
    assert Records(t.policy, t.lines) + [] == Records(t.policy, t.lines);
  }

  predicate Order(order: seq<string>, on: map<string, nat>) {
    (forall i {:trigger order[i]} :: 0 <= i < |order| ==> order[i] in on)
    && forall i, j {:trigger order[i], order[j]} :: 0 <= i < j < |order| ==> order[i] != order[j]
  }

  /** Every batch entry dates and keeps its lines by the rules of its generation's source, at the time of the cycle. */
  ghost predicate ByRules(r: Rules, cps: map<string, Generation>, batch: seq<Took>, stamp: int) {
    forall i {:trigger batch[i]} :: 0 <= i < |batch| ==> batch[i].name in cps && batch[i].policy == PolicyFor(r, cps[batch[i].name].source, stamp)
  }

  /** What the reading part of a cycle keeps from one file to the next; `done` files have been read. */
  ghost predicate Working(r: Rules, cps: map<string, Generation>, cps': map<string, Generation>, order: seq<string>, done: nat,
                          seen: map<string, Bytes>, seen': map<string, Bytes>, batch: seq<Took>, records: seq<Record>, stamp: int)
    requires done <= |order|
  {
    && AllAccounted(r, cps', seen') && Gained(seen, seen', batch) && records == RecordsAll(batch) && ByRules(r, cps, batch, stamp)
    && cps'.Keys == cps.Keys && (forall n {:trigger cps'[n]} :: n in cps ==> Stays(cps[n], cps'[n]))
    && (forall n {:trigger cps'[n]} :: n in cps && n !in order[..done] ==> cps'[n] == cps[n])
    && (forall j {:trigger order[j]} :: done <= j < |order| && order[j] in cps ==> cps'[order[j]] == cps[order[j]] && SeenBy(seen', order[j]) == SeenBy(seen, order[j]))
    && seen'.Keys <= seen.Keys + cps.Keys
  }

  lemma WorkingStart(r: Rules, cps: map<string, Generation>, order: seq<string>, seen: map<string, Bytes>, stamp: int)
    requires AllAccounted(r, cps, seen)
    ensures Working(r, cps, cps, order, 0, seen, seen, [], [], stamp)
  {
    hide Accounted, Gained;
    GainedNothing(seen);
    NoRecordsAll();
  }

  lemma ByRulesMore(r: Rules, cps: map<string, Generation>, batch: seq<Took>, t: Took, stamp: int)
    requires ByRules(r, cps, batch, stamp) && t.name in cps && t.policy == PolicyFor(r, cps[t.name].source, stamp)
    ensures ByRules(r, cps, batch + [t], stamp)
  {
    hide PolicyFor;
    forall i | 0 <= i < |batch + [t]|
      ensures var b := (batch + [t])[i]; b.name in cps && b.policy == PolicyFor(r, cps[b.name].source, stamp)
    {
      if i < |batch| { assert (batch + [t])[i] == batch[i]; } else { assert (batch + [t])[i] == t; }
    }
  }

  lemma AccountedNext(r: Rules, cps: map<string, Generation>, seen: map<string, Bytes>, n: string, g: Generation, more: Bytes)
    requires AllAccounted(r, cps, seen)
    ensures n in cps ==> Accounted(r, cps[n], SeenBy(seen, n))
    ensures Accounted(r, g, more) ==> AllAccounted(r, cps[n := g], seen[n := more])
  {
    hide Accounted;
  }

  lemma WorkingNext(r: Rules, cps: map<string, Generation>, cps': map<string, Generation>, order: seq<string>, done: nat,
                    seen: map<string, Bytes>, seen': map<string, Bytes>, batch: seq<Took>, records: seq<Record>,
                    stamp: int, f: File, g': Generation, more: Bytes, lines: seq<Bytes>)
    requires done < |order| && Working(r, cps, cps', order, done, seen, seen', batch, records, stamp)
    requires order[done] in cps && (forall i, j {:trigger order[i], order[j]} :: 0 <= i < j < |order| ==> order[i] != order[j])
    requires !cps[order[done]].closed && Advanced(r, cps[order[done]], g', f, SeenBy(seen, order[done]), more, lines)
    ensures var t := Took(order[done], PolicyFor(r, cps[order[done]].source, stamp), lines);
      Working(r, cps, cps'[order[done] := g'], order, done + 1, seen, seen'[order[done] := more], batch + [t], records + Records(t.policy, lines), stamp)
  {
    hide Accounted, Gained, RecordsAll, LinesBy, Kept, Split, Advanced, ByRules, Stays, Records, PolicyFor, AllAccounted;
    var n := order[done];
    var t := Took(n, PolicyFor(r, cps[n].source, stamp), lines);
    assert cps'[n] == cps[n] && SeenBy(seen', n) == SeenBy(seen, n);
    AccountedNext(r, cps', seen', n, g', more);
    assert Accounted(r, cps[n], SeenBy(seen, n));
    AdvancedStays(r, cps[n], g', f, SeenBy(seen, n), more, lines);
    GainedMore(seen, seen', batch, t, more);
    RecordsAllSnoc(records, batch, t);
    assert order[..done + 1] == order[..done] + [n];
    ByRulesMore(r, cps, batch, t, stamp);
  }

  /** Reading keeps every generation rooted in files that only grow. */
  ghost predicate KeepsRoots(cps: map<string, Generation>, cps': map<string, Generation>, files: seq<File>, on: map<string, nat>,
                             seen: map<string, Bytes>, seen': map<string, Bytes>)
  {
    forall w: World {:trigger AllRooted(cps', seen', w)} :: AllRooted(cps, seen, w) && Ahead(cps, files, on, seen, w) ==> AllRooted(cps', seen', w)
  }

  /** Every followed file starts with what was consumed of it, and is there in the world. */
  ghost predicate Ahead(cps: map<string, Generation>, files: seq<File>, on: map<string, nat>, seen: map<string, Bytes>, w: World) {
    forall n {:trigger on[n]} :: n in on ==>
      n in cps && on[n] < |files| && PlaceFor(cps[n]) == PlaceOf(files[on[n]]) && PlaceOf(files[on[n]]) in w
      && SeenBy(seen, n) <= files[on[n]].contents <= files[on[n]].later <= w[PlaceOf(files[on[n]])]
  }

  lemma AdvancedRooted(r: Rules, g: Generation, g': Generation, f: File, seen: Bytes, seen': Bytes, lines: seq<Bytes>, w: World)
    requires Advanced(r, g, g', f, seen, seen', lines) && Rooted(g, seen, w) && Accounted(r, g, seen)
    requires PlaceFor(g) == PlaceOf(f) && PlaceOf(f) in w && seen <= f.contents <= f.later <= w[PlaceOf(f)]
    ensures Rooted(g', seen', w) && seen' <= f.contents
  {
    hide Accounts, Kept, Split, At, PrintOf, Ends, Sized;
    TakenOn(f.contents, seen, seen', g.offset, g'.offset);
    assert f.contents[..g'.offset] <= w[PlaceOf(f)];
    PrintOfEnds(f.contents, g'.offset);
    PrintGrows(f.contents, f.later, g'.offset);
    if g'.offset == g.offset { assert seen' == seen; }
  }

  /** What was consumed before and what comes next in the file are the beginning of the file. */
  lemma TakenOn(f: Bytes, seen: Bytes, seen': Bytes, a: nat, b: nat)
    requires seen <= f && |seen| == a <= b && |seen'| == b && seen' == seen + At(f, a, b - a)
    ensures b <= |f| && seen' == f[..b] && (a == b ==> seen' == seen)
  {
    assert seen == f[..a];
  }

  lemma RootsNext(r: Rules, cps: map<string, Generation>, cps': map<string, Generation>, files: seq<File>, on: map<string, nat>,
                  seen: map<string, Bytes>, seen': map<string, Bytes>, n: string, g': Generation, more: Bytes, lines: seq<Bytes>)
    requires KeepsRoots(cps, cps', files, on, seen, seen') && cps'.Keys == cps.Keys && n in on && n in cps && on[n] < |files|
    requires cps'[n] == cps[n] && SeenBy(seen', n) == SeenBy(seen, n) && Accounted(r, cps[n], SeenBy(seen, n))
    requires Advanced(r, cps[n], g', files[on[n]], SeenBy(seen, n), more, lines)
    ensures KeepsRoots(cps, cps'[n := g'], files, on, seen, seen'[n := more])
  {
    hide Advanced, Accounted, Rooted;
    forall w: World | AllRooted(cps, seen, w) && Ahead(cps, files, on, seen, w) ensures AllRooted(cps'[n := g'], seen'[n := more], w) {
      assert AllRooted(cps', seen', w);
      assert Rooted(cps[n], SeenBy(seen, n), w);
      AdvancedRooted(r, cps[n], g', files[on[n]], SeenBy(seen, n), more, lines, w);
      forall m | m in cps' ensures Rooted(cps'[n := g'][m], SeenBy(seen'[n := more], m), w) {
        if m != n { assert Rooted(cps'[m], SeenBy(seen', m), w); }
      }
    }
  }

  // ---------- how far a cycle gets ----------

  /** All the file held was taken, save an unfinished line within the limit. */
  predicate CaughtUp(f: File, g: Generation) { g.offset <= |f.contents| && Waiting(f.contents[g.offset..], g.long) }

  /** The file can be read, and only grew while it was. */
  predicate Calm(f: File) { !f.broken && f.contents <= f.later }

  function OffsetIn(cps: map<string, Generation>, n: string): nat { if n in cps then cps[n].offset else 0 }

  /** How many bytes the generations of a cycle took. */
  function Spent(cps: map<string, Generation>, cps': map<string, Generation>, order: seq<string>): int {
    if order == [] then 0
    else Spent(cps, cps', order[..|order| - 1]) + OffsetIn(cps', order[|order| - 1]) - OffsetIn(cps, order[|order| - 1])
  }

  /** No more than the allowance, and what ends the last line. */
  predicate Moderate(spent: int, allowance: int) { spent == 0 || spent < allowance + OVERSHOOT }

  /** The allowance is spent, or every calm file was read to its end. */
  ghost predicate ReadOn(cps: map<string, Generation>, cps': map<string, Generation>, files: seq<File>, on: map<string, nat>, order: seq<string>, allowance: int) {
    Moderate(Spent(cps, cps', order), allowance) &&
    (Spent(cps, cps', order) >= allowance ||
     forall n {:trigger on[n]} :: n in order && n in on && on[n] < |files| && n in cps' && Calm(files[on[n]]) ==> CaughtUp(files[on[n]], cps'[n]))
  }

  lemma ReadNone(cps: map<string, Generation>, files: seq<File>, on: map<string, nat>, order: seq<string>, allowance: int)
    ensures order[..0] == [] && Spent(cps, cps, order[..0]) == 0 && ReadOn(cps, cps, files, on, order[..0], allowance)
  {}

  /** Only what is in the list counts. */
  lemma {:induction false} SpentSame(cps: map<string, Generation>, cps': map<string, Generation>, other: map<string, Generation>, other': map<string, Generation>, order: seq<string>)
    requires forall n {:trigger n in order} :: n in order ==> OffsetIn(cps, n) == OffsetIn(other, n) && OffsetIn(cps', n) == OffsetIn(other', n)
    ensures Spent(cps, cps', order) == Spent(other, other', order)
  {
    hide OffsetIn;
    if order != [] {
      forall n | n in order[..|order| - 1] ensures OffsetIn(cps, n) == OffsetIn(other, n) && OffsetIn(cps', n) == OffsetIn(other', n) { assert n in order; }
      SpentSame(cps, cps', other, other', order[..|order| - 1]);
      assert order[|order| - 1] in order;
    }
  }

  lemma ReadNext(cps: map<string, Generation>, cps': map<string, Generation>, files: seq<File>, on: map<string, nat>, order: seq<string>, k: nat,
                 allowance: int, g': Generation, ok: bool, used: nat)
    requires k < |order| && order[k] in on && on[order[k]] < |files| && order[k] in cps && order[k] in cps' && cps'[order[k]] == cps[order[k]]
    requires (forall i, j {:trigger order[i], order[j]} :: 0 <= i < j < |order| ==> order[i] != order[j])
    requires ReadOn(cps, cps', files, on, order[..k], allowance) && used == g'.offset - cps[order[k]].offset
    requires var f, budget := files[on[order[k]]], allowance - Spent(cps, cps', order[..k]);
      && (!ok ==> !Calm(f)) && (used == 0 || (0 < budget && used < budget + OVERSHOOT)) && (g'.offset <= |f.contents| || f.broken)
      && (ok && 0 < budget && used < budget ==> Waiting(Rest(f.contents, |f.contents|, g'.offset), g'.long))
    ensures Spent(cps, cps'[order[k] := g'], order[..k + 1]) == Spent(cps, cps', order[..k]) + used
    ensures ReadOn(cps, cps'[order[k] := g'], files, on, order[..k + 1], allowance)
  {
    hide Waiting, FindLF;
    var n, front, next := order[k], order[..k], cps'[order[k] := g'];
    assert order[..k + 1] == front + [n] && (front + [n])[..k] == front;
    assert n !in front;
    SpentSame(cps, cps', cps, next, front);
    var f := files[on[n]];
    if g'.offset <= |f.contents| { assert Rest(f.contents, |f.contents|, g'.offset) == f.contents[g'.offset..]; }
  }

  /** The file was read to its end by the generation on it, or it is the tombstone of one that was closed. */
  ghost predicate Caught(cps: map<string, Generation>, f: File) {
    Archived(cps, f) || exists n {:trigger cps[n]} :: n in cps && cps[n].kind != Issue && PlaceFor(cps[n]) == PlaceOf(f) && CaughtUp(f, cps[n])
  }

  /** When a cycle took place, how much it was allowed to take, and the generations it read. */
  datatype Turn = Turn(stamp: int, allowance: int, order: seq<string>)

  /** A cycle takes all there is, or all it is allowed to. */
  ghost predicate Collects(cps: map<string, Generation>, cps': map<string, Generation>, files: seq<File>, turn: Turn) {
    && (forall i, j {:trigger turn.order[i], turn.order[j]} :: 0 <= i < j < |turn.order| ==> turn.order[i] != turn.order[j])
    && Moderate(Spent(cps, cps', turn.order), turn.allowance)
    && (Spent(cps, cps', turn.order) >= turn.allowance || forall i {:trigger files[i]} :: 0 <= i < |files| && Calm(files[i]) ==> Caught(cps', files[i]))
  }

  lemma TrackedOffsets(cps: map<string, Generation>, tracked: map<string, Generation>, cps': map<string, Generation>, files: seq<File>,
                       required: set<string>, on: map<string, nat>, order: seq<string>)
    requires Tracked(cps, tracked, files, required, on) && cps'.Keys == tracked.Keys && Order(order, on)
    ensures Spent(tracked, cps', order) == Spent(cps, cps', order)
  {
    hide Evolved, Archived, Known, Complete;
    forall n | n in order ensures OffsetIn(tracked, n) == OffsetIn(cps, n) {
      assert n in on && n in tracked;
      if n in cps { assert Evolved(cps[n], tracked[n], files); EvolvedKind(cps[n], tracked[n], files); }
    }
    SpentSame(tracked, cps', cps, cps', order);
  }

  /** Tracking finds a generation for every file, and reading takes it to the end. */
  lemma CollectsAll(cps: map<string, Generation>, tracked: map<string, Generation>, cps': map<string, Generation>, files: seq<File>,
                    required: set<string>, on: map<string, nat>, turn: Turn)
    requires Tracked(cps, tracked, files, required, on) && cps'.Keys == tracked.Keys && Order(turn.order, on)
    requires forall n {:trigger n in turn.order} :: n in on ==> n in turn.order
    requires forall i {:trigger files[i]} :: 0 <= i < |files| ==> i in Used(on) || Archived(tracked, files[i])
    requires forall n {:trigger tracked[n]} :: n in tracked ==> Stays(tracked[n], cps'[n])
    requires forall n {:trigger cps'[n]} :: n in tracked && n !in turn.order ==> cps'[n] == tracked[n]
    requires ReadOn(tracked, cps', files, on, turn.order, turn.allowance)
    ensures Collects(cps, cps', files, turn)
  {
    hide Evolved, Known, Complete, CaughtUp, Matches, Spent;
    TrackedOffsets(cps, tracked, cps', files, required, on, turn.order);
    if Spent(cps, cps', turn.order) < turn.allowance {
      forall i | 0 <= i < |files| && Calm(files[i]) ensures Caught(cps', files[i]) {
        if i in Used(on) {
          var n :| n in on && on[n] == i;
          assert n in turn.order && n in tracked && n in cps' && Stays(tracked[n], cps'[n]);
          assert CaughtUp(files[i], cps'[n]);
        } else {
          var n :| n in tracked && tracked[n].closed && PlaceFor(tracked[n]) == PlaceOf(files[i]) && Matches(files[i], tracked[n]);
          assert n !in on && n in cps';
          assert cps'[n] == tracked[n];
        }
      }
    }
  }

  /** The reading part of a cycle: every followed file in turn, sharing one budget. */
  method Work(r: Rules, cps: map<string, Generation>, files: seq<File>, required: set<string>, on: map<string, nat>, order: seq<string>,
              stamp: int, allowance: int, ghost seen: map<string, Bytes>)
    returns (cps': map<string, Generation>, records: seq<Record>, ghost seen': map<string, Bytes>, ghost batch: seq<Took>)
    requires Paired(cps, required, files, on) && Resumed(cps, files, on) && Order(order, on) && AllAccounted(r, cps, seen)
    ensures AllAccounted(r, cps', seen') && Gained(seen, seen', batch) && records == RecordsAll(batch) && ByRules(r, cps, batch, stamp)
    ensures cps'.Keys == cps.Keys && forall n {:trigger cps[n]} :: n in cps ==> Stays(cps[n], cps'[n])
    ensures forall n {:trigger cps'[n]} :: n in cps && n !in order ==> cps'[n] == cps[n]
    ensures seen'.Keys <= seen.Keys + cps.Keys && KeepsRoots(cps, cps', files, on, seen, seen')
    ensures ReadOn(cps, cps', files, on, order, allowance)
  {
    hide Accounted, Gained, RecordsAll, LinesBy, Kept, Split, Matches, Unreadable, KeepsRoots, ByRules, AllAccounted, Working, Advanced, Records, PolicyFor, ReadOn, CaughtUp, Spent;
    cps', records, seen', batch := cps, [], seen, [];
    var budget := allowance;
    WorkingStart(r, cps, order, seen, stamp);
    ReadNone(cps, files, on, order, allowance);
    assert KeepsRoots(cps, cps, files, on, seen, seen) by { NoRoots(cps, files, on, seen); }
    for k := 0 to |order|
      invariant Working(r, cps, cps', order, k, seen, seen', batch, records, stamp)
      invariant budget == allowance - Spent(cps, cps', order[..k]) && ReadOn(cps, cps', files, on, order[..k], allowance)
      invariant KeepsRoots(cps, cps', files, on, seen, seen')
    {
      var n := order[k];
      assert n in on && on[n] < |files| && n in cps && !cps[n].closed;
      assert cps'.Keys == cps.Keys && cps'[n] == cps[n] && SeenBy(seen', n) == SeenBy(seen, n) by { WorkingAt(r, cps, cps', order, k, seen, seen', batch, records, stamp); }
      AccountedAt(r, cps, seen, n);
      var g', records', used;
      ghost var more, lines, ok;
      ok, g', records', used, more, lines := FollowOne(r, cps[n], files[on[n]], stamp, budget, records, SeenBy(seen, n));
      WorkingNext(r, cps, cps', order, k, seen, seen', batch, records, stamp, files[on[n]], g', more, lines);
      ReadNext(cps, cps', files, on, order, k, allowance, g', ok, used);
      RootsNext(r, cps, cps', files, on, seen, seen', n, g', more, lines);
      batch := batch + [Took(n, PolicyFor(r, cps[n].source, stamp), lines)];
      cps', records, seen', budget := cps'[n := g'], records', seen'[n := more], budget - used;
    }
    assert order[..|order|] == order;
    WorkingEnd(r, cps, cps', order, seen, seen', batch, records, stamp);
  }

  lemma NoRoots(cps: map<string, Generation>, files: seq<File>, on: map<string, nat>, seen: map<string, Bytes>)
    ensures KeepsRoots(cps, cps, files, on, seen, seen)
  {}

  lemma AccountedAt(r: Rules, cps: map<string, Generation>, seen: map<string, Bytes>, n: string)
    requires AllAccounted(r, cps, seen) && n in cps
    ensures Accounted(r, cps[n], SeenBy(seen, n))
  {}

  lemma WorkingAt(r: Rules, cps: map<string, Generation>, cps': map<string, Generation>, order: seq<string>, done: nat,
                  seen: map<string, Bytes>, seen': map<string, Bytes>, batch: seq<Took>, records: seq<Record>, stamp: int)
    requires done < |order| && order[done] in cps && Working(r, cps, cps', order, done, seen, seen', batch, records, stamp)
    ensures cps'.Keys == cps.Keys && cps'[order[done]] == cps[order[done]] && SeenBy(seen', order[done]) == SeenBy(seen, order[done])
  {}

  lemma WorkingEnd(r: Rules, cps: map<string, Generation>, cps': map<string, Generation>, order: seq<string>,
                   seen: map<string, Bytes>, seen': map<string, Bytes>, batch: seq<Took>, records: seq<Record>, stamp: int)
    requires Working(r, cps, cps', order, |order|, seen, seen', batch, records, stamp)
    ensures AllAccounted(r, cps', seen') && Gained(seen, seen', batch) && records == RecordsAll(batch) && ByRules(r, cps, batch, stamp)
    ensures cps'.Keys == cps.Keys && seen'.Keys <= seen.Keys + cps.Keys
    ensures forall n {:trigger cps[n]} :: n in cps ==> Stays(cps[n], cps'[n])
    ensures forall n {:trigger cps'[n]} :: n in cps && n !in order ==> cps'[n] == cps[n]
  {
    hide Stays, Accounted;
    assert order[..|order|] == order;
    forall n | n in cps ensures Stays(cps[n], cps'[n]) { assert n in cps'; var g := cps'[n]; }
  }

  lemma NoRecordsAll()
    ensures RecordsAll([]) == []
  {}

  lemma AdvancedStays(r: Rules, g: Generation, g': Generation, f: File, seen: Bytes, seen': Bytes, lines: seq<Bytes>)
    requires Advanced(r, g, g', f, seen, seen', lines) && !g.closed && Accounted(r, g, seen)
    ensures Stays(g, g') && Accounted(r, g', seen') && Kept(Split(seen')) == Kept(Split(seen)) + lines
    ensures seen <= f.contents ==> seen' <= f.contents
  {
    hide Accounts, Kept, Split;
    if seen <= f.contents { assert seen == f.contents[..g.offset]; }
  }

  // ---------- cycles, commits and crashes ----------

  lemma {:induction false} SplitIsLines(text: Bytes)
    ensures forall i {:trigger Split(text)[i]} :: 0 <= i < |Split(text)| ==> IsLine(Split(text)[i])
    decreases |text|
  {
    var n := FindLF(text);
    if n < |text| {
      SplitIsLines(text[n + 1..]);
      forall i | 0 <= i < |Split(text)| ensures IsLine(Split(text)[i]) {
        if i > 0 { assert Split(text)[i] == Split(text[n + 1..])[i - 1]; }
      }
    }
  }

  predicate AllLines(lines: seq<Bytes>) { forall i {:trigger lines[i]} :: 0 <= i < |lines| ==> IsLine(lines[i]) }

  lemma {:induction false} KeptLines(lines: seq<Bytes>)
    requires AllLines(lines)
    ensures AllLines(Kept(lines))
  {
    hide IsLine;
    if lines != [] {
      assert AllLines(lines[1..]);
      KeptLines(lines[1..]);
    }
  }

  lemma AllLinesPart(a: seq<Bytes>, b: seq<Bytes>)
    requires AllLines(a + b)
    ensures AllLines(a) && AllLines(b)
  {
    hide IsLine;
    forall i | 0 <= i < |a| ensures IsLine(a[i]) { assert (a + b)[i] == a[i]; }
    forall i | 0 <= i < |b| ensures IsLine(b[i]) { assert (a + b)[|a| + i] == b[i]; }
  }

  /** While files only grow and fingerprints tell adopted copies from other files, a cycle keeps every generation rooted in its
      file, and gives no file to two of them except by adoption. */
  ghost predicate RootsKept(cps: map<string, Generation>, cps': map<string, Generation>, files: seq<File>, seen: map<string, Bytes>, seen': map<string, Bytes>) {
    forall w: World, w': World, moved: set<string> {:trigger Found(w, files, w'), PlacesApart(cps, moved)} ::
      AllRooted(cps, seen, w) && Found(w, files, w') && Telling(cps, cps', w') && PlacesApart(cps, moved) ==>
        AllRooted(cps', seen', w') && PlacesApart(cps', moved + Moved(cps, cps'))
  }

  /** All that a cycle guarantees about the checkpoints and the batch it hands to commit. */
  ghost predicate CycleDid(r: Rules, required: set<string>, cps: map<string, Generation>, cps': map<string, Generation>, files: seq<File>,
                           seen: map<string, Bytes>, seen': map<string, Bytes>, batch: seq<Took>, records: seq<Record>, turn: Turn)
  {
    && cps.Keys <= cps'.Keys && Known(cps') && Injective(cps', required) && seen'.Keys <= cps'.Keys
    && AllAccounted(r, cps', seen') && Gained(seen, seen', batch) && records == RecordsAll(batch) && ByRules(r, cps', batch, turn.stamp)
    && (forall n {:trigger cps[n]} :: n in cps ==> cps[n].offset <= cps'[n].offset && cps'[n].kind == cps[n].kind)
    && RootsKept(cps, cps', files, seen, seen') && Collects(cps, cps', files, turn)
  }

  /** One whole cycle up to the commit. */
  method Cycle(r: Rules, names: seq<string>, cps: map<string, Generation>, files: seq<File>, required: set<string>, uuids: seq<string>,
               stamp: int, allowance: int, ghost seen: map<string, Bytes>)
    returns (ok: bool, cps': map<string, Generation>, records: seq<Record>, ghost seen': map<string, Bytes>, ghost batch: seq<Took>, ghost order: seq<string>)
    requires Listed(names, cps) && Known(cps) && Injective(cps, required) && Discovered(files, required) && Unused(uuids, cps, files)
    requires AllAccounted(r, cps, seen) && seen.Keys <= cps.Keys
    ensures ok ==> CycleDid(r, required, cps, cps', files, seen, seen', batch, records, Turn(stamp, allowance, order))
    ensures !ok ==> Faulty(files)
  {
    hide Faulty, Accounted, Gained, RecordsAll, LinesBy, Kept, Split, Matches, Unreadable, Listed, Named, Archived, Evolved, Discovered, RootsKept, KeepsRoots, ByRules, PolicyFor, Flatten, FindLF, Smaller, PrintOf, Sized, Partial, TooLong, Untimed, Report, Ranges, AddGap, Ended, Unfinished, Accounts, Fresh, RecordFor, Records, PlaceOf, PlaceFor, Follows, Drained, Known, Injective, Paired, Complete, Adopted, Retired, Lost, IsCopy, NoneAt, Used, Opened, Unused, Resumed, Grows, Found, Telling, Rooted, AllRooted, PlacesApart, Moved, ReadOn, Collects, CaughtUp, Calm, Spent, Caught;
    var tracked, on;
    cps', records, seen', batch, order := cps, [], seen, [], [];
    ok, tracked, on := Track(names, cps, files, required, uuids);
    if !ok {
      return;
    }
    forall n | n in tracked ensures Accounted(r, tracked[n], SeenBy(seen, n)) {
      if n in cps {
        assert Evolved(cps[n], tracked[n], files) && Accounted(r, cps[n], SeenBy(seen, n));
        EvolvedAccounted(r, cps[n], tracked[n], files, SeenBy(seen, n));
      } else {
        OpenedAccounted(r, files[on[n]]);
      }
    }
    var work := AnyOrder(on);
    order := work;
    cps', records, seen', batch := Work(r, tracked, files, required, on, work, stamp, allowance, seen);
    CollectsAll(cps, tracked, cps', files, required, on, Turn(stamp, allowance, order));
    SameRules(r, tracked, cps', batch, stamp);
    StaysInjective(tracked, cps', required);
    TrackedRoots(cps, tracked, cps', files, required, on, seen, seen');
    forall n | n in cps ensures cps[n].offset <= cps'[n].offset && cps'[n].kind == cps[n].kind {
      assert Evolved(cps[n], tracked[n], files) && Stays(tracked[n], cps'[n]);
      EvolvedKind(cps[n], tracked[n], files);
    }
  }

  lemma SameRules(r: Rules, cps: map<string, Generation>, cps': map<string, Generation>, batch: seq<Took>, stamp: int)
    requires ByRules(r, cps, batch, stamp) && cps'.Keys == cps.Keys && forall n {:trigger cps[n]} :: n in cps ==> Stays(cps[n], cps'[n])
    ensures ByRules(r, cps', batch, stamp)
  {
    hide PolicyFor;
    forall i | 0 <= i < |batch| ensures batch[i].name in cps' && batch[i].policy == PolicyFor(r, cps'[batch[i].name].source, stamp) {
      assert Stays(cps[batch[i].name], cps'[batch[i].name]);
    }
  }

  /** Tracking and reading together. */
  lemma TrackedRoots(cps: map<string, Generation>, tracked: map<string, Generation>, cps': map<string, Generation>, files: seq<File>,
                     required: set<string>, on: map<string, nat>, seen: map<string, Bytes>, seen': map<string, Bytes>)
    requires Tracked(cps, tracked, files, required, on) && Discovered(files, required) && Known(cps) && seen.Keys <= cps.Keys
    requires KeepsRoots(tracked, cps', files, on, seen, seen') && cps'.Keys == tracked.Keys
    requires forall n {:trigger tracked[n]} :: n in tracked ==> Stays(tracked[n], cps'[n])
    ensures RootsKept(cps, cps', files, seen, seen')
  {
    hide Tracked, Discovered, Known, Telling, Rooted, Found;
    forall w: World, w': World, moved: set<string> | AllRooted(cps, seen, w) && Found(w, files, w') && Telling(cps, cps', w') && PlacesApart(cps, moved)
      ensures AllRooted(cps', seen', w') && PlacesApart(cps', moved + Moved(cps, cps'))
    {
      SameTelling(cps, tracked, cps', w');
      TrackedRooted(cps, tracked, files, required, on, seen, w, w');
      TrackedApart(cps, tracked, files, required, on, seen, w, w', moved);
      AheadOf(cps, tracked, files, required, on, seen, w, w');
      assert AllRooted(cps', seen', w');
      assert Moved(cps, cps') == Moved(cps, tracked) by { TrackedStays(cps, tracked, files, required, on); SameMoved(cps, tracked, cps'); }
      StaysApart(tracked, cps', moved + Moved(cps, tracked));
    }
  }

  lemma SameTelling(cps: map<string, Generation>, tracked: map<string, Generation>, cps': map<string, Generation>, w: World)
    requires Telling(cps, cps', w) && tracked.Keys == cps'.Keys && forall n {:trigger tracked[n]} :: n in tracked ==> Stays(tracked[n], cps'[n])
    ensures Telling(cps, tracked, w)
  {
    hide PrintOf;
    forall n | n in cps && n in tracked ensures Tells(cps[n], tracked[n], w) {
      assert n in cps' && Stays(tracked[n], cps'[n]) && Tells(cps[n], cps'[n], w);
    }
  }

  lemma TrackedStays(cps: map<string, Generation>, tracked: map<string, Generation>, files: seq<File>, required: set<string>, on: map<string, nat>)
    requires Tracked(cps, tracked, files, required, on)
    ensures cps.Keys <= tracked.Keys
  {
    hide Evolved, Archived, Known, Paired, Complete;
    forall n | n in cps ensures n in tracked { var g := cps[n]; }
  }

  lemma SameMoved(cps: map<string, Generation>, tracked: map<string, Generation>, cps': map<string, Generation>)
    requires cps.Keys <= tracked.Keys == cps'.Keys && forall n {:trigger tracked[n]} :: n in tracked ==> Stays(tracked[n], cps'[n])
    ensures Moved(cps, cps') == Moved(cps, tracked)
  {
    forall n ensures n in Moved(cps, cps') <==> n in Moved(cps, tracked) {
      if n in cps { assert Stays(tracked[n], cps'[n]); }
    }
  }

  lemma StaysApart(tracked: map<string, Generation>, cps': map<string, Generation>, moved: set<string>)
    requires PlacesApart(tracked, moved) && tracked.Keys == cps'.Keys && forall n {:trigger tracked[n]} :: n in tracked ==> Stays(tracked[n], cps'[n])
    ensures PlacesApart(cps', moved)
  {
    forall a, b | a in cps' && b in cps' && a != b && a !in moved && b !in moved && cps'[a].kind != Issue && cps'[b].kind != Issue
      ensures PlaceFor(cps'[a]) != PlaceFor(cps'[b])
    {
      assert Stays(tracked[a], cps'[a]) && Stays(tracked[b], cps'[b]);
    }
  }

  lemma AheadOf(cps: map<string, Generation>, tracked: map<string, Generation>, files: seq<File>, required: set<string>, on: map<string, nat>,
                seen: map<string, Bytes>, w: World, w': World)
    requires Tracked(cps, tracked, files, required, on) && Discovered(files, required) && Known(cps) && seen.Keys <= cps.Keys
    requires AllRooted(cps, seen, w) && Found(w, files, w') && Telling(cps, tracked, w')
    ensures Ahead(tracked, files, on, seen, w')
  {
    hide Discovered, Known, AllRooted, Complete, Evolved, Archived, Telling;
    forall n | n in on
      ensures n in tracked && on[n] < |files| && PlaceFor(tracked[n]) == PlaceOf(files[on[n]]) && PlaceOf(files[on[n]]) in w'
        && SeenBy(seen, n) <= files[on[n]].contents <= files[on[n]].later <= w'[PlaceOf(files[on[n]])]
    {
      OnItsFile(cps, tracked, files, required, on, seen, w, w', n);
    }
  }

  lemma StaysInjective(cps: map<string, Generation>, cps': map<string, Generation>, required: set<string>)
    requires Injective(cps, required) && Known(cps) && cps'.Keys == cps.Keys
    requires forall n {:trigger cps[n]} :: n in cps ==> Stays(cps[n], cps'[n])
    ensures Injective(cps', required) && Known(cps')
  {
    hide Named;
    forall n | n in cps' && cps'[n].kind != Issue ensures Named(cps'[n].source, cps'[n].instance, cps'[n].kind) {
      assert Stays(cps[n], cps'[n]);
    }
    forall a, b | a in cps' && b in cps' && a != b && Follows(cps'[a], required) && Follows(cps'[b], required)
      ensures PlaceFor(cps'[a]) != PlaceFor(cps'[b])
    {
      assert Stays(cps[a], cps'[a]) && Stays(cps[b], cps'[b]);
    }
  }

  /** The order in which files are read is a sort by age and activity; any order will do here. */
  method AnyOrder(on: map<string, nat>) returns (order: seq<string>)
    ensures Order(order, on)
    ensures forall n {:trigger n in order} :: n in on ==> n in order
  {
    order := [];
    var left := on.Keys;
    while left != {}
      invariant left <= on.Keys && forall n {:trigger n in order} :: n in on ==> (n in order <==> n !in left)
      invariant Order(order, on)
      decreases |left|
    {
      var n :| n in left;
      assert n !in order;
      order, left := order + [n], left - {n};
    }
  }
}
