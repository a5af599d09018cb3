/** Which generation follows which file, from one cycle to the next. */
module CollectorTracking {
  import opened Options
  import opened ArchiveTypes
  import opened CollectorPrint
  import opened CollectorRead

  /** An opened log file: what it holds now, what it will hold when a read of it is checked, and
      whether reading it fails. */
  datatype File = File(source: string, instance: string, identity: nat, kind: Kind, active: bool, visible: bool,
                       contents: Bytes, later: Bytes, broken: bool)

  datatype Place = Place(source: string, instance: string, identity: nat)

  function PlaceOf(f: File): Place { Place(f.source, f.instance, f.identity) }

  function PlaceFor(g: Generation): Place { Place(g.source, g.instance, g.identity) }

  /** Open generations of required sources. */
  predicate Follows(g: Generation, required: set<string>) { !g.closed && g.source in required && g.kind != Issue }

  /** matches: the file still starts with what the generation consumed, as far as its fingerprint tells. */
  predicate Matches(f: File, g: Generation) {
    |f.contents| >= g.offset && (g.offset == 0 || PrintOf(f.contents, g.offset) == Print(g.prefix, g.tail))
  }

  /** Comparing fingerprints needs a read, and the read fails. */
  predicate Unreadable(f: File, g: Generation) { f.broken && 0 < g.offset <= |f.contents| }

  predicate Drained(g: Generation) { g.offset == g.observed && g.stable >= 2 }

  const ACCESS := "npmplus"

  /** There is one access log; every rotation of it is discovered under the same name. */
  predicate Named(source: string, instance: string, kind: Kind) {
    (kind == Access <==> source == ACCESS) && (kind == Access ==> instance == ACCESS)
  }

  predicate Discovered(files: seq<File>, required: set<string>) {
    && (forall i {:trigger files[i]} :: 0 <= i < |files| ==>
         files[i].source in required && files[i].kind != Issue && Named(files[i].source, files[i].instance, files[i].kind))
    && (forall i, j {:trigger PlaceOf(files[i]), PlaceOf(files[j])} :: 0 <= i < j < |files| ==> PlaceOf(files[i]) != PlaceOf(files[j]))
  }

  predicate Known(cps: map<string, Generation>) {
    forall n {:trigger cps[n]} :: n in cps && cps[n].kind != Issue ==> Named(cps[n].source, cps[n].instance, cps[n].kind)
  }

  /** No two open generations are on the same file. */
  predicate Injective(cps: map<string, Generation>, required: set<string>) {
    forall a, b {:trigger cps[a], cps[b]} :: a in cps && b in cps && a != b && Follows(cps[a], required) && Follows(cps[b], required) ==>
      PlaceFor(cps[a]) != PlaceFor(cps[b])
  }

  /** Assigned generations are open and on their own file. */
  predicate Paired(cps: map<string, Generation>, required: set<string>, files: seq<File>, on: map<string, nat>) {
    && (forall n {:trigger on[n]} :: n in on ==>
         n in cps && Follows(cps[n], required) && on[n] < |files| && PlaceFor(cps[n]) == PlaceOf(files[on[n]]))
    && (forall a, b {:trigger on[a], on[b]} :: a in on && b in on && a != b ==> on[a] != on[b])
  }

  predicate Complete(cps: map<string, Generation>, required: set<string>, on: map<string, nat>) {
    forall n {:trigger cps[n]} :: n in cps && Follows(cps[n], required) ==> n in on
  }

  predicate Archived(cps: map<string, Generation>, f: File) {
    exists n :: n in cps && cps[n].closed && PlaceFor(cps[n]) == PlaceOf(f) && Matches(f, cps[n])
  }

  lemma PairedKeys(cps: map<string, Generation>, required: set<string>, files: seq<File>, on: map<string, nat>)
    requires Paired(cps, required, files, on)
    ensures on.Keys <= cps.Keys
  {
    forall n | n in on ensures n in cps { assert on[n] == on[n]; }
  }

  /** Assigning every open generation its own file leaves no two on the same one. */
  lemma PairedInjective(cps: map<string, Generation>, required: set<string>, files: seq<File>, on: map<string, nat>)
    requires Discovered(files, required) && Paired(cps, required, files, on) && Complete(cps, required, on)
    ensures Injective(cps, required)
  {
    forall a, b | a in cps && b in cps && a != b && Follows(cps[a], required) && Follows(cps[b], required)
      ensures PlaceFor(cps[a]) != PlaceFor(cps[b])
    {
      var i, j := on[a], on[b];
      assert PlaceOf(files[i]) != PlaceOf(files[j]);
    }
  }

  const COPIED := "copytruncate-window"
  const REWRITTEN := "source-truncated-or-rewritten"
  const GONE := "source-disappeared"

  /** A generation whose only match is a copy of its file goes on with the copy. */
  function Adopted(g: Generation, identity: nat): Generation {
    g.(identity := identity, gaps := AddGap(g.gaps, Gap(COPIED, g.offset, None)))
  }

  /** A generation without a file is closed; what it may have missed is on record.  `original` says
      that there still is a file at its place, with other contents. */
  function Retired(g: Generation, original: bool): Generation {
    g.(closed := true,
       gaps := if original || (g.active && !Drained(g)) || g.observed > g.offset
               then AddGap(g.gaps, Gap(if original then REWRITTEN else GONE, g.offset, None)) else g.gaps)
  }

  /** The file at a place, if one was discovered there. */
  method FindFile(files: seq<File>, place: Place) returns (at: Option<nat>)
    ensures at.Some? ==> at.value < |files| && PlaceOf(files[at.value]) == place
    ensures at.None? ==> forall i {:trigger files[i]} :: 0 <= i < |files| ==> PlaceOf(files[i]) != place
  {
    for i := 0 to |files|
      invariant forall j {:trigger files[j]} :: 0 <= j < i ==> PlaceOf(files[j]) != place
    {
      if PlaceOf(files[i]) == place {
        return Some(i);
      }
    }
    at := None;
  }

  /** No file at the generation's place goes on where it stopped. */
  predicate Lost(g: Generation, files: seq<File>) {
    forall i {:trigger files[i]} :: 0 <= i < |files| && PlaceOf(files[i]) == PlaceFor(g) ==> !Matches(files[i], g)
  }

  ghost predicate Listed(names: seq<string>, cps: map<string, Generation>) {
    && (forall n {:trigger n in cps} :: n in cps <==> n in names)
    && forall i, j {:trigger names[i], names[j]} :: 0 <= i < j < |names| ==> names[i] != names[j]
  }

  /** First the generations whose file is still at its place. */
  method Keep(names: seq<string>, cps: map<string, Generation>, files: seq<File>, required: set<string>) returns (on: map<string, nat>)
    requires Listed(names, cps) && Injective(cps, required) && Discovered(files, required)
    ensures Paired(cps, required, files, on)
    ensures forall n {:trigger on[n]} :: n in on ==> Matches(files[on[n]], cps[n]) || Unreadable(files[on[n]], cps[n])
    ensures forall n {:trigger cps[n]} :: n in cps && Follows(cps[n], required) && n !in on ==> Lost(cps[n], files)
  {
    hide Matches, Unreadable, Named;
    on := map[];
    for k := 0 to |names|
      invariant Paired(cps, required, files, on)
      invariant forall n {:trigger on[n]} :: n in on ==> n in names[..k]
      invariant forall n {:trigger on[n]} :: n in on ==> Matches(files[on[n]], cps[n]) || Unreadable(files[on[n]], cps[n])
      invariant forall n {:trigger cps[n]} :: n in names[..k] && Follows(cps[n], required) && n !in on ==> Lost(cps[n], files)
    {
      assert names[..k + 1] == names[..k] + [names[k]];
      var n := names[k];
      var g := cps[n];
      if Follows(g, required) {
        var at := FindFile(files, PlaceFor(g));
        if at.Some? && (Matches(files[at.value], g) || Unreadable(files[at.value], g)) {
          on := on[n := at.value];
        }
      }
    }
    assert names[..|names|] == names;
  }

  /** One of the files cannot be read. */
  predicate Faulty(files: seq<File>) { exists i :: 0 <= i < |files| && files[i].broken }

  /** The one unused rotated file that goes on where an access generation stopped. */
  method FindCopy(g: Generation, files: seq<File>, used: set<nat>) returns (ok: bool, copies: seq<nat>)
    ensures ok ==> forall i: nat {:trigger i in copies} :: i in copies <==> i < |files| && IsCopy(g, files[i]) && i !in used
    ensures forall a, b {:trigger copies[a], copies[b]} :: 0 <= a < b < |copies| ==> copies[a] < copies[b]
    ensures !ok ==> Faulty(files)
  {
    hide Matches, Unreadable;
    ok, copies := true, [];
    for i := 0 to |files|
      invariant forall j: nat {:trigger j in copies} :: j in copies <==> j < i && IsCopy(g, files[j]) && j !in used
      invariant forall a {:trigger copies[a]} :: 0 <= a < |copies| ==> copies[a] < i
      invariant forall a, b {:trigger copies[a], copies[b]} :: 0 <= a < b < |copies| ==> copies[a] < copies[b]
    {
      if files[i].source == g.source && !files[i].active && i !in used {
        if Unreadable(files[i], g) {
          assert files[i].broken by { BrokenOne(files[i], g); }
          return false, copies;
        }
        if Matches(files[i], g) {
          copies := copies + [i];
        }
      }
    }
  }

  lemma BrokenOne(f: File, g: Generation)
    requires Unreadable(f, g)
    ensures f.broken
  {}

  predicate IsCopy(g: Generation, f: File) { f.source == g.source && !f.active && Matches(f, g) }

  /** One of these generations is on the file. */
  predicate HeldBy(on: map<string, nat>, names: set<string>, i: nat) { exists m {:trigger on[m]} :: m in names && m in on && on[m] == i }

  /** No assignment was changed. */
  predicate Retains(on: map<string, nat>, on': map<string, nat>) { forall m {:trigger m in on} :: m in on ==> m in on' && on'[m] == on[m] }

  lemma UsedHeld(on: map<string, nat>, names: set<string>, i: nat)
    requires on.Keys <= names
    ensures HeldBy(on, names, i) <==> i in Used(on)
  {
    if i in Used(on) {
      var m :| m in on && on[m] == i;
      assert m in on.Keys;
    }
  }

  /** The copy a generation went over to was the only one left; one that went over to none had no such copy. */
  predicate Sought(g: Generation, n: string, files: seq<File>, on: map<string, nat>, names: set<string>) {
    if n in on then forall j: nat {:trigger IsCopy(g, files[j])} :: j < |files| && IsCopy(g, files[j]) && j != on[n] ==> HeldBy(on, names, j)
    else g.kind == Access && g.offset > 0 ==>
      forall i: nat {:trigger IsCopy(g, files[i])} :: i < |files| && IsCopy(g, files[i]) && !HeldBy(on, names, i) ==>
        exists j: nat :: j < |files| && j != i && IsCopy(g, files[j])
  }

  /** What became of a generation that had no file of its own. */
  predicate Settled(g: Generation, g': Generation, n: string, files: seq<File>, on: map<string, nat>, names: set<string>) {
    Lost(g, files) && Sought(g, n, files, on, names) && if n in on then
      && on[n] < |files| && g.kind == Access && g.offset > 0 && IsCopy(g, files[on[n]])
      && g' == Adopted(g, files[on[n]].identity)
    else g' == Retired(g, !NoneAt(g, files))
  }

  predicate NoneAt(g: Generation, files: seq<File>) {
    forall i {:trigger files[i]} :: 0 <= i < |files| ==> PlaceOf(files[i]) != PlaceFor(g)
  }

  /** The generation needs a file, and its own is gone or rewritten. */
  predicate Homeless(g: Generation, n: string, required: set<string>, on: map<string, nat>) { Follows(g, required) && n !in on }

  /** What tracking may do to a generation: nothing while its own file goes on; else adopt a copy that
      does, or close it.  Its offset never moves. */
  predicate Evolved(g: Generation, g': Generation, files: seq<File>) {
    g' == g ||
    (!g.closed && Lost(g, files) &&
     (g' == Retired(g, !NoneAt(g, files))
      || exists i :: 0 <= i < |files| && g.kind == Access && g.offset > 0 && IsCopy(g, files[i]) && g' == Adopted(g, files[i].identity)))
  }

  function Used(on: map<string, nat>): set<nat> { set n | n in on :: on[n] }

  lemma OnlyCopy(g: Generation, n: string, files: seq<File>, copies: seq<nat>, on: map<string, nat>, names: set<string>)
    requires n in names && n !in on && on.Keys <= names && |copies| == 1
    requires forall i: nat {:trigger i in copies} :: i in copies <==> i < |files| && IsCopy(g, files[i]) && i !in Used(on)
    ensures Sought(g, n, files, on[n := copies[0]], names)
  {
    hide IsCopy;
    var on' := on[n := copies[0]];
    forall j: nat | j < |files| && IsCopy(g, files[j]) && j != on'[n] ensures HeldBy(on', names, j) {
      assert j !in copies;
      var m :| m in on && on[m] == j;
      assert on'[m] == j;
    }
  }

  lemma NoOnlyCopy(g: Generation, n: string, files: seq<File>, copies: seq<nat>, on: map<string, nat>, names: set<string>)
    requires n !in on && |copies| != 1 && forall a, b {:trigger copies[a], copies[b]} :: 0 <= a < b < |copies| ==> copies[a] < copies[b]
    requires g.kind == Access && g.offset > 0 ==>
      forall i: nat {:trigger i in copies} :: i in copies <==> i < |files| && IsCopy(g, files[i]) && i !in Used(on)
    requires on.Keys <= names
    ensures Sought(g, n, files, on, names)
  {
    hide IsCopy;
    if g.kind == Access && g.offset > 0 {
      forall i: nat | i < |files| && IsCopy(g, files[i]) && !HeldBy(on, names, i) ensures exists j: nat :: j < |files| && j != i && IsCopy(g, files[j]) {
        UsedHeld(on, names, i);
        assert i in copies && copies[0] in copies && copies[1] in copies && copies[0] < copies[1];
        var j := if copies[0] == i then copies[1] else copies[0];
        assert j in copies && j != i;
      }
    }
  }

  lemma HeldStill(on: map<string, nat>, on': map<string, nat>, names: set<string>)
    requires Retains(on, on')
    ensures forall i {:trigger HeldBy(on', names, i)} :: HeldBy(on, names, i) ==> HeldBy(on', names, i)
  {
    forall i | HeldBy(on, names, i) ensures HeldBy(on', names, i) {
      var m :| m in names && m in on && on[m] == i;
      assert on'[m] == i;
    }
  }

  lemma SoughtStill(g: Generation, n: string, files: seq<File>, on: map<string, nat>, on': map<string, nat>, names: set<string>)
    requires Sought(g, n, files, on, names) && Same(n, on, on') && Retains(on, on')
    ensures Sought(g, n, files, on', names)
  {
    hide IsCopy, HeldBy;
    HeldStill(on, on', names);
    assert forall i {:trigger HeldBy(on, names, i)} :: HeldBy(on, names, i) ==> HeldBy(on', names, i);
  }

  /** One generation without a file: adopt its only copy, or close it. */
  method Rehome(n: string, cps: map<string, Generation>, files: seq<File>, required: set<string>, on: map<string, nat>)
    returns (ok: bool, cps': map<string, Generation>, on': map<string, nat>)
    requires Discovered(files, required) && Known(cps) && Paired(cps, required, files, on)
    requires n in cps && Homeless(cps[n], n, required, on) && Lost(cps[n], files)
    ensures ok ==> cps'.Keys == cps.Keys && cps' == cps[n := cps'[n]] && Settled(cps[n], cps'[n], n, files, on', cps.Keys)
    ensures ok ==> n !in on && (on' == on || (n in on' && on' == on[n := on'[n]]))
    ensures ok ==> Paired(cps', required, files, on') && Known(cps') && !Homeless(cps'[n], n, required, on')
    ensures !ok ==> Faulty(files)
  {
    hide Matches, Unreadable, Drained, Sought;
    var g := cps[n];
    assert on.Keys <= cps.Keys by { PairedKeys(cps, required, files, on); }
    var at := FindFile(files, PlaceFor(g));
    var copies: seq<nat> := [];
    ok, cps', on' := true, cps, on;
    if g.kind == Access && g.offset > 0 {
      ok, copies := FindCopy(g, files, Used(on));
      if !ok {
        return;
      }
    }
    if |copies| == 1 {
      var i := copies[0];
      assert i in copies && copies == [i];
      assert PlaceFor(Adopted(g, files[i].identity)) == PlaceOf(files[i]);
      assert forall m {:trigger on[m]} :: m in on ==> on[m] in Used(on);
      cps', on' := cps[n := Adopted(g, files[i].identity)], on[n := i];
      OnlyCopy(g, n, files, copies, on, cps.Keys);
    } else {
      NoOnlyCopy(g, n, files, copies, on, cps.Keys);
      cps' := cps[n := Retired(g, at.Some?)];
    }
  }

  /** Only homeless generations changed, and those that were looked at are settled. */
  predicate Rehomed(cps: map<string, Generation>, cps': map<string, Generation>, on: map<string, nat>, on': map<string, nat>,
                    files: seq<File>, required: set<string>, looked: set<string>)
  {
    cps'.Keys == cps.Keys && forall n {:trigger cps'[n]} :: n in cps ==>
      if n in looked && Homeless(cps[n], n, required, on) then Settled(cps[n], cps'[n], n, files, on', cps.Keys)
      else cps'[n] == cps[n] && Same(n, on, on')
  }

  predicate Same(n: string, on: map<string, nat>, on': map<string, nat>) {
    (n in on <==> n in on') && (n in on ==> on'[n] == on[n])
  }

  /** The generations looked at have a file, or need none any more. */
  predicate Housed(cps: map<string, Generation>, required: set<string>, on: map<string, nat>, looked: set<string>) {
    forall n {:trigger cps[n]} :: n in looked && n in cps ==> !Homeless(cps[n], n, required, on)
  }

  /** At most this generation and its file have changed. */
  predicate OnlyOne(n: string, cps: map<string, Generation>, cps': map<string, Generation>, on: map<string, nat>, on': map<string, nat>) {
    n in cps' && cps' == cps[n := cps'[n]] && (on' == on || (n in on' && on' == on[n := on'[n]]))
  }

  /** The second pass over the checkpoints. */
  method RehomeAll(names: seq<string>, cps: map<string, Generation>, files: seq<File>, required: set<string>, on: map<string, nat>)
    returns (ok: bool, cps': map<string, Generation>, on': map<string, nat>)
    requires Listed(names, cps) && Discovered(files, required) && Known(cps) && Paired(cps, required, files, on)
    requires forall n {:trigger cps[n]} :: n in cps && Homeless(cps[n], n, required, on) ==> Lost(cps[n], files)
    ensures ok ==> Rehomed(cps, cps', on, on', files, required, cps.Keys)
    ensures ok ==> Paired(cps', required, files, on') && Known(cps') && Complete(cps', required, on')
    ensures !ok ==> Faulty(files)
  {
    hide Faulty, Known, Paired, Discovered, Settled, Lost, Homeless, Rehomed, Housed, Complete;
    ok, cps', on' := true, cps, on;
    ghost var looked: set<string> := {};
    RehomedStart(cps, on, files, required);
    for k := 0 to |names|
      invariant Rehomed(cps, cps', on, on', files, required, looked) && looked <= cps.Keys == cps'.Keys
      invariant Paired(cps', required, files, on') && Known(cps') && Housed(cps', required, on', looked)
      invariant forall j {:trigger names[j]} :: 0 <= j < |names| ==> (names[j] in looked <==> j < k)
    {
      var n := names[k];
      assert n in names && n in cps && n in cps' && n !in looked;
      NotLooked(cps, cps', on, on', files, required, looked, n);
      ghost var before, held := cps', on';
      if Homeless(cps'[n], n, required, on') {
        ok, cps', on' := Rehome(n, cps', files, required, on');
        if !ok {
          return;
        }
        SettledStays(cps, before, held, cps', on', n, files, looked, required, on);
      } else {
        UnmovedStays(cps, cps', on, on', n, files, looked, required);
      }
      HousedNext(before, cps', held, on', n, looked, required);
      looked := looked + {n};
    }
    assert forall n {:trigger n in looked} :: n in cps ==> n in names && n in looked;
    assert looked == cps.Keys;
    HousedComplete(cps', required, on');
  }

  lemma RehomedStart(cps: map<string, Generation>, on: map<string, nat>, files: seq<File>, required: set<string>)
    ensures Rehomed(cps, cps, on, on, files, required, {}) && Housed(cps, required, on, {})
  {}

  lemma NotLooked(cps: map<string, Generation>, cps': map<string, Generation>, on: map<string, nat>, on': map<string, nat>,
                  files: seq<File>, required: set<string>, looked: set<string>, n: string)
    requires Rehomed(cps, cps', on, on', files, required, looked) && n in cps && n in cps' && n !in looked
    ensures cps'[n] == cps[n] && Same(n, on, on') && (Homeless(cps'[n], n, required, on') <==> Homeless(cps[n], n, required, on))
  {
    hide Settled;
  }

  lemma UnmovedStays(cps: map<string, Generation>, cps': map<string, Generation>, on: map<string, nat>, on': map<string, nat>,
                     n: string, files: seq<File>, looked: set<string>, required: set<string>)
    requires Rehomed(cps, cps', on, on', files, required, looked) && n in cps && n !in looked && !Homeless(cps[n], n, required, on)
    ensures Rehomed(cps, cps', on, on', files, required, looked + {n})
  {
    hide Settled;
  }

  lemma HousedNext(before: map<string, Generation>, cps': map<string, Generation>, held: map<string, nat>, on': map<string, nat>,
                   n: string, looked: set<string>, required: set<string>)
    requires Housed(before, required, held, looked) && OnlyOne(n, before, cps', held, on') && !Homeless(cps'[n], n, required, on')
    ensures Housed(cps', required, on', looked + {n})
  {
    forall m | m in looked + {n} && m in cps' ensures !Homeless(cps'[m], m, required, on') {
      if m != n { assert cps'[m] == before[m] && (m in on' <==> m in held); }
    }
  }

  lemma HousedComplete(cps: map<string, Generation>, required: set<string>, on: map<string, nat>)
    requires Housed(cps, required, on, cps.Keys)
    ensures Complete(cps, required, on)
  {}

  lemma SettledStays(cps: map<string, Generation>, before: map<string, Generation>, held: map<string, nat>,
                     cps': map<string, Generation>, on': map<string, nat>, n: string, files: seq<File>, looked: set<string>,
                     required: set<string>, on: map<string, nat>)
    requires n in cps && n !in looked && Homeless(cps[n], n, required, on)
    requires Rehomed(cps, before, on, held, files, required, looked) && cps'.Keys == cps.Keys && OnlyOne(n, before, cps', held, on')
    requires Settled(cps[n], cps'[n], n, files, on', before.Keys) && n !in held
    ensures Rehomed(cps, cps', on, on', files, required, looked + {n})
  {
    hide Homeless, Settled;
    assert Retains(held, on');
    forall m | m in cps ensures if m in looked + {n} && Homeless(cps[m], m, required, on) then Settled(cps[m], cps'[m], m, files, on', cps.Keys)
                                else cps'[m] == cps[m] && Same(m, on, on') {
      if m != n {
        assert cps'[m] == before[m] && Same(m, held, on');
        if m in looked && Homeless(cps[m], m, required, on) { SettledSame(cps[m], cps'[m], m, files, held, on', cps.Keys); }
      }
    }
  }

  lemma SettledSame(g: Generation, g': Generation, n: string, files: seq<File>, on: map<string, nat>, on': map<string, nat>, names: set<string>)
    requires Settled(g, g', n, files, on, names) && Same(n, on, on') && Retains(on, on')
    ensures Settled(g, g', n, files, on', names)
  {
    hide Lost, NoneAt, IsCopy, Sought;
    SoughtStill(g, n, files, on, on', names);
  }

  /** A file nobody follows, opened as a new generation. */
  function Opened(f: File): Generation {
    Generation(f.source, f.instance, f.kind, f.identity, 0, 0, [], [], false, false, 0, 0, None, [])
  }

  method IsArchived(names: seq<string>, cps: map<string, Generation>, f: File) returns (ok: bool, archived: bool)
    requires Listed(names, cps)
    ensures ok ==> archived == Archived(cps, f)
    ensures !ok ==> f.broken
  {
    hide Matches, Unreadable;
    ok, archived := true, false;
    for k := 0 to |names|
      invariant archived <==> exists n {:trigger cps[n]} :: n in names[..k] && cps[n].closed && PlaceFor(cps[n]) == PlaceOf(f) && Matches(f, cps[n])
    {
      var g := cps[names[k]];
      assert names[..k + 1] == names[..k] + [names[k]];
      if g.closed && PlaceFor(g) == PlaceOf(f) {
        if Unreadable(f, g) {
          BrokenOne(f, g);
          return false, false;
        }
        if Matches(f, g) {
          archived := true;
        }
      }
    }
    assert names[..|names|] == names;
  }

  /** What the third pass adds to the checkpoints: a new generation for every file that is neither
      followed nor archived. */
  predicate Extended(cps: map<string, Generation>, cps': map<string, Generation>, on: map<string, nat>, on': map<string, nat>, files: seq<File>) {
    && cps.Keys <= cps'.Keys
    && (forall n {:trigger cps[n]} :: n in cps ==> cps'[n] == cps[n] && Same(n, on, on'))
    && (forall n {:trigger cps'[n]} :: n in cps' && n !in cps ==>
         n in on' && on'[n] < |files| && cps'[n] == Opened(files[on'[n]]) && !Archived(cps, files[on'[n]]))
  }

  /** randomUUID: names for new generations, one per file, never used before. */
  predicate Unused(uuids: seq<string>, cps: map<string, Generation>, files: seq<File>) {
    && |uuids| == |files|
    && (forall i {:trigger uuids[i]} :: 0 <= i < |uuids| ==> uuids[i] !in cps)
    && (forall i, j {:trigger uuids[i], uuids[j]} :: 0 <= i < j < |uuids| ==> uuids[i] != uuids[j])
  }

  lemma OpenPaired(cps: map<string, Generation>, on: map<string, nat>, files: seq<File>, required: set<string>, i: nat, n: string)
    requires Discovered(files, required) && Known(cps) && Paired(cps, required, files, on) && Complete(cps, required, on)
    requires i < |files| && i !in Used(on) && n !in cps
    ensures var cps', on' := cps[n := Opened(files[i])], on[n := i];
      Paired(cps', required, files, on') && Known(cps') && Complete(cps', required, on')
  {
    hide Named;
    assert forall m {:trigger on[m]} :: m in on ==> on[m] in Used(on);
  }

  lemma OpenExtended(cps: map<string, Generation>, cps': map<string, Generation>, on: map<string, nat>, on': map<string, nat>,
                     files: seq<File>, i: nat, n: string)
    requires Extended(cps, cps', on, on', files) && i < |files| && n !in cps' && !Archived(cps, files[i])
    ensures Extended(cps, cps'[n := Opened(files[i])], on, on'[n := i], files)
  {
    hide Archived, Opened;
  }

  lemma ExtendedNot(cps: map<string, Generation>, on: map<string, nat>, files: seq<File>)
    ensures Extended(cps, cps, on, on, files)
  {}

  lemma UsedGrows(on: map<string, nat>, n: string, i: nat)
    requires n !in on
    ensures Used(on[n := i]) == Used(on) + {i}
  {
    var on' := on[n := i];
    assert on'[n] == i;
    forall j | j in Used(on) ensures j in Used(on') {
      var m :| m in on && on[m] == j;
      assert on'[m] == j;
    }
  }

  method OpenAll(names: seq<string>, cps: map<string, Generation>, files: seq<File>, required: set<string>, on: map<string, nat>, uuids: seq<string>)
    returns (ok: bool, cps': map<string, Generation>, on': map<string, nat>)
    requires Listed(names, cps) && Discovered(files, required) && Known(cps) && Paired(cps, required, files, on) && Complete(cps, required, on)
    requires Unused(uuids, cps, files)
    ensures ok ==> Extended(cps, cps', on, on', files)
    ensures ok ==> Paired(cps', required, files, on') && Known(cps') && Complete(cps', required, on') && on'.Keys <= cps'.Keys
    ensures ok ==> forall i {:trigger files[i]} :: 0 <= i < |files| ==> i in Used(on') || Archived(cps, files[i])
    ensures !ok ==> Faulty(files)
  {
    hide Archived, Listed, Paired, Known, Complete, Extended, Discovered, Used;
    ExtendedNot(cps, on, files);
    assert on.Keys <= cps.Keys by { PairedKeys(cps, required, files, on); }
    ok, cps', on' := true, cps, on;
    for i := 0 to |files|
      invariant Extended(cps, cps', on, on', files)
      invariant Paired(cps', required, files, on') && Known(cps') && Complete(cps', required, on')
      invariant forall j {:trigger files[j]} :: 0 <= j < i ==> j in Used(on') || Archived(cps, files[j])
      invariant forall j {:trigger uuids[j]} :: i <= j < |files| ==> uuids[j] !in cps'
      invariant on'.Keys <= cps'.Keys
    {
      if i !in Used(on') {
        var archived: bool;
        ok, archived := IsArchived(names, cps, files[i]);
        if !ok {
          return;
        }
        if !archived {
          OpenPaired(cps', on', files, required, i, uuids[i]);
          OpenExtended(cps, cps', on, on', files, i, uuids[i]);
          UsedGrows(on', uuids[i], i);
          cps', on' := cps'[uuids[i] := Opened(files[i])], on'[uuids[i] := i];
        }
      }
    }
  }

  lemma ArchivedStill(cps: map<string, Generation>, cps': map<string, Generation>, on: map<string, nat>, on': map<string, nat>,
                      files: seq<File>, f: File)
    requires Extended(cps, cps', on, on', files)
    ensures Archived(cps', f) == Archived(cps, f)
  {
    hide Matches;
    if Archived(cps', f) {
      var n :| n in cps' && cps'[n].closed && PlaceFor(cps'[n]) == PlaceOf(f) && Matches(f, cps'[n]);
      assert n in cps && cps[n] == cps'[n];
    }
    if Archived(cps, f) {
      var n :| n in cps && cps[n].closed && PlaceFor(cps[n]) == PlaceOf(f) && Matches(f, cps[n]);
      assert n in cps' && cps[n] == cps'[n];
    }
  }

  /** Every followed file goes on where its generation stopped, unless it cannot be read. */
  predicate Resumed(cps: map<string, Generation>, files: seq<File>, on: map<string, nat>) {
    forall n {:trigger on[n]} :: n in on && n in cps && on[n] < |files| ==> Matches(files[on[n]], cps[n]) || Unreadable(files[on[n]], cps[n])
  }

  /** Whatever left its file or was closed had looked for its one copy. */
  predicate AllSought(cps: map<string, Generation>, cps': map<string, Generation>, files: seq<File>, on: map<string, nat>) {
    forall n {:trigger cps[n]} :: n in cps && n in cps' && cps'[n] != cps[n] ==> Sought(cps[n], n, files, on, cps.Keys)
  }

  lemma ExtendedSought(cps: map<string, Generation>, between: map<string, Generation>, cps': map<string, Generation>, on: map<string, nat>, on': map<string, nat>,
                       files: seq<File>)
    requires AllSought(cps, between, files, on) && Extended(between, cps', on, on', files) && between.Keys == cps.Keys && on.Keys <= cps.Keys
    ensures AllSought(cps, cps', files, on')
  {
    hide Sought, Archived;
    assert Retains(on, on') by {
      forall m | m in on ensures m in on' && on'[m] == on[m] { assert m in between; var g := between[m]; }
    }
    forall n | n in cps && n in cps' && cps'[n] != cps[n] ensures Sought(cps[n], n, files, on', cps.Keys) {
      assert n in between && cps'[n] == between[n] && Same(n, on, on');
      SoughtStill(cps[n], n, files, on, on', cps.Keys);
    }
  }

  lemma RehomedResumed(cps: map<string, Generation>, cps': map<string, Generation>, on: map<string, nat>, on': map<string, nat>,
                       files: seq<File>, required: set<string>)
    requires Paired(cps, required, files, on) && Paired(cps', required, files, on') && Rehomed(cps, cps', on, on', files, required, cps.Keys)
    requires Resumed(cps, files, on)
    ensures Resumed(cps', files, on') && forall n {:trigger cps[n]} :: n in cps ==> Evolved(cps[n], cps'[n], files)
    ensures AllSought(cps, cps', files, on')
  {
    hide Unreadable, NoneAt, Lost, Retired, Sought;
    forall n | n in on' ensures Matches(files[on'[n]], cps'[n]) || Unreadable(files[on'[n]], cps'[n]) {
      assert n in cps';
      if !Homeless(cps[n], n, required, on) {
        assert cps'[n] == cps[n] && Same(n, on, on') && on[n] == on'[n];
      }
    }
    forall n | n in cps ensures Evolved(cps[n], cps'[n], files) { assert cps'[n] == cps'[n]; }
  }

  lemma ExtendedResumed(cps: map<string, Generation>, cps': map<string, Generation>, on: map<string, nat>, on': map<string, nat>, files: seq<File>)
    requires Extended(cps, cps', on, on', files) && Resumed(cps, files, on)
    ensures Resumed(cps', files, on')
  {
    hide Unreadable;
    forall n | n in on' && n in cps' && on'[n] < |files| ensures Matches(files[on'[n]], cps'[n]) || Unreadable(files[on'[n]], cps'[n]) {
      if n in cps {
        assert cps'[n] == cps[n] && Same(n, on, on') && on[n] == on'[n];
      } else {
        assert cps'[n] == Opened(files[on'[n]]);
      }
    }
  }

  /** The tracking part of a cycle.  A broken file makes it fail only where its error is not caught. */
  method Track(names: seq<string>, cps: map<string, Generation>, files: seq<File>, required: set<string>, uuids: seq<string>)
    returns (ok: bool, cps': map<string, Generation>, on: map<string, nat>)
    requires Listed(names, cps) && Known(cps) && Injective(cps, required) && Discovered(files, required) && Unused(uuids, cps, files)
    ensures ok ==> Injective(cps', required) && Known(cps')
    ensures ok ==> Paired(cps', required, files, on) && Complete(cps', required, on) && Resumed(cps', files, on)
    ensures ok ==> forall n {:trigger cps[n]} :: n in cps ==> n in cps' && Evolved(cps[n], cps'[n], files)
    ensures ok ==> AllSought(cps, cps', files, on)
    ensures ok ==> forall n {:trigger cps'[n]} :: n in cps' && n !in cps ==>
      n in on && on[n] < |files| && cps'[n] == Opened(files[on[n]]) && !Archived(cps', files[on[n]])
    ensures ok ==> forall i {:trigger files[i]} :: 0 <= i < |files| ==> i in Used(on) || Archived(cps', files[i])
    ensures !ok ==> Faulty(files)
  {
    hide Faulty, Known, Injective, Discovered, Paired, Complete, Resumed, Evolved, Archived, Matches, Unreadable, Used, Lost, Rehomed, AllSought;
    var kept := Keep(names, cps, files, required);
    assert Resumed(cps, files, kept) by { ResumedFrom(cps, files, required, kept); }
    var held: map<string, nat>;
    ok, cps', held := RehomeAll(names, cps, files, required, kept);
    if !ok {
      return false, cps, kept;
    }
    RehomedResumed(cps, cps', kept, held, files, required);
    ghost var between := cps';
    KeysOf(cps, cps', kept, held, files, required);
    ok, cps', on := OpenAll(names, cps', files, required, held, uuids);
    if !ok {
      return;
    }
    ExtendedResumed(between, cps', held, on, files);
    assert held.Keys <= cps.Keys by { PairedKeys(between, required, files, held); }
    ExtendedSought(cps, between, cps', held, on, files);
    PairedInjective(cps', required, files, on);
    forall f: File ensures Archived(cps', f) == Archived(between, f) { ArchivedStill(between, cps', held, on, files, f); }
  }

  lemma ResumedFrom(cps: map<string, Generation>, files: seq<File>, required: set<string>, on: map<string, nat>)
    requires Paired(cps, required, files, on)
    requires forall n {:trigger on[n]} :: n in on ==> Matches(files[on[n]], cps[n]) || Unreadable(files[on[n]], cps[n])
    ensures Resumed(cps, files, on)
  {}

  lemma KeysOf(cps: map<string, Generation>, cps': map<string, Generation>, on: map<string, nat>, on': map<string, nat>,
               files: seq<File>, required: set<string>)
    requires Rehomed(cps, cps', on, on', files, required, cps.Keys)
    ensures cps'.Keys == cps.Keys
  {}
}
