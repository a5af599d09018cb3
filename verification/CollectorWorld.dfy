/** The log files themselves, as they grow beside the collector. */
module CollectorWorld {
  import opened ArchiveTypes
  import opened CollectorPrint
  import opened CollectorTracking

  /** What has been written so far at every place there ever was a log file. */
  type World = map<Place, Bytes>

  /** Files only grow, and none is forgotten. */
  ghost predicate Grows(w: World, w': World) {
    forall p {:trigger w[p]} {:trigger w'[p]} :: p in w ==> p in w' && w[p] <= w'[p]
  }

  /** The files a cycle finds hold what their places held before, and more as the cycle goes on. */
  ghost predicate Found(w: World, files: seq<File>, w': World) {
    Grows(w, w') && forall i {:trigger files[i]} :: 0 <= i < |files| ==>
      var f := files[i];
      PlaceOf(f) in w' && f.contents <= f.later <= w'[PlaceOf(f)] && (PlaceOf(f) in w ==> w[PlaceOf(f)] <= f.contents)
  }

  /** Where a generation goes over to a copy, the fingerprint of what was consumed tells the two files apart. */
  ghost predicate Tells(g: Generation, g': Generation, w: World) {
    var p, q, n := PlaceFor(g), PlaceFor(g'), g.offset;
    p != q && p in w && q in w && n <= |w[p]| && n <= |w[q]| && PrintOf(w[p], n) == PrintOf(w[q], n) ==> w[p][..n] == w[q][..n]
  }

  ghost predicate Telling(cps: map<string, Generation>, cps': map<string, Generation>, w: World) {
    forall n {:trigger cps'[n]} :: n in cps && n in cps' ==> Tells(cps[n], cps'[n], w)
  }

  function SeenBy(seen: map<string, Bytes>, n: string): Bytes { if n in seen then seen[n] else [] }

  /** The generation has consumed the beginning of the file at its place, and has its fingerprint. */
  predicate Rooted(g: Generation, seen: Bytes, w: World) {
    g.kind != Issue ==>
      PlaceFor(g) in w && seen <= w[PlaceFor(g)] && |seen| == g.offset && Print(g.prefix, g.tail) == Ends(seen)
  }

  predicate AllRooted(cps: map<string, Generation>, seen: map<string, Bytes>, w: World) {
    forall n {:trigger cps[n]} :: n in cps ==> Rooted(cps[n], SeenBy(seen, n), w)
  }

  /** Every place has one generation, save those of copies that were adopted. */
  predicate PlacesApart(cps: map<string, Generation>, moved: set<string>) {
    forall a, b {:trigger cps[a], cps[b]} :: a in cps && b in cps && a != b && a !in moved && b !in moved && cps[a].kind != Issue && cps[b].kind != Issue ==>
      PlaceFor(cps[a]) != PlaceFor(cps[b])
  }

  /** The generations whose place tracking changed. */
  function Moved(cps: map<string, Generation>, cps': map<string, Generation>): set<string> {
    set n | n in cps && n in cps' && PlaceFor(cps'[n]) != PlaceFor(cps[n])
  }

  lemma RootedGrows(g: Generation, seen: Bytes, w: World, w': World)
    requires Rooted(g, seen, w) && Grows(w, w')
    ensures Rooted(g, seen, w')
  {}

  /** What is rooted at a place matches every file that is found there. */
  lemma RootedMatches(g: Generation, seen: Bytes, w: World, files: seq<File>, w': World, i: nat)
    requires Rooted(g, seen, w) && g.kind != Issue && Found(w, files, w') && i < |files| && PlaceOf(files[i]) == PlaceFor(g)
    ensures seen <= files[i].contents && Matches(files[i], g)
  {
    var f := files[i];
    assert w[PlaceOf(f)] <= f.contents;
    assert seen == f.contents[..g.offset];
    PrintOfEnds(f.contents, g.offset);
  }

  /** A copy that matches by its fingerprint holds the same beginning. */
  lemma CopyHolds(g: Generation, g': Generation, seen: Bytes, w: World, files: seq<File>, w': World, i: nat)
    requires Rooted(g, seen, w) && g.kind != Issue && Found(w, files, w') && i < |files| && g.offset > 0 && Matches(files[i], g)
    requires PlaceFor(g') == PlaceOf(files[i]) && Tells(g, g', w')
    ensures seen <= files[i].contents
  {
    var p, q, n := PlaceFor(g), PlaceOf(files[i]), g.offset;
    var f := files[i];
    assert w[p] <= w'[p] && f.contents <= w'[q];
    assert seen == w'[p][..n] && w'[q][..n] == f.contents[..n];
    PrintOfEnds(w'[p], n);
    PrintOfEnds(w'[q], n);
    PrintOfEnds(f.contents, n);
    assert PrintOf(w'[p], n) == PrintOf(w'[q], n);
  }

  /** An adopted generation is at the place of its copy. */
  lemma AdoptedPlace(g: Generation, f: File, required: set<string>, files: seq<File>, i: nat)
    requires Discovered(files, required) && i < |files| && f == files[i] && IsCopy(g, f) && g.kind == Access
    requires Named(g.source, g.instance, g.kind)
    ensures PlaceFor(Adopted(g, f.identity)) == PlaceOf(f) && Adopted(g, f.identity).kind == g.kind
  {}

  /** Tracking roots every generation in the world as it is now. */
  lemma EvolvedRooted(g: Generation, g': Generation, seen: Bytes, w: World, files: seq<File>, w': World, required: set<string>)
    requires Evolved(g, g', files) && Rooted(g, seen, w) && Found(w, files, w') && Tells(g, g', w') && Discovered(files, required)
    requires g.kind != Issue ==> Named(g.source, g.instance, g.kind)
    ensures Rooted(g', seen, w')
    ensures g'.kind == g.kind && g'.offset == g.offset
  {
    hide Lost, NoneAt, IsCopy, Matches;
    if g.kind == Issue {
    } else if g' == g || g' == Retired(g, true) || g' == Retired(g, false) {
      RootedGrows(g, seen, w, w');
    } else {
      var i :| 0 <= i < |files| && g.kind == Access && g.offset > 0 && IsCopy(g, files[i]) && g' == Adopted(g, files[i].identity);
      CopyMatches(g, files[i]);
      AdoptedPlace(g, files[i], required, files, i);
      CopyHolds(g, g', seen, w, files, w', i);
      assert files[i].contents <= w'[PlaceOf(files[i])];
    }
  }

  lemma CopyMatches(g: Generation, f: File)
    requires IsCopy(g, f)
    ensures Matches(f, g)
  {}

  /** What Track guarantees, in one place. */
  ghost predicate Tracked(cps: map<string, Generation>, cps': map<string, Generation>, files: seq<File>, required: set<string>, on: map<string, nat>) {
    && Known(cps') && Paired(cps', required, files, on) && Complete(cps', required, on)
    && (forall n {:trigger cps[n]} :: n in cps ==> n in cps' && Evolved(cps[n], cps'[n], files))
    && (forall n {:trigger cps'[n]} :: n in cps' && n !in cps ==>
         n in on && on[n] < |files| && cps'[n] == Opened(files[on[n]]) && !Archived(cps', files[on[n]]))
  }

  lemma TrackedRooted(cps: map<string, Generation>, cps': map<string, Generation>, files: seq<File>, required: set<string>, on: map<string, nat>,
                      seen: map<string, Bytes>, w: World, w': World)
    requires Tracked(cps, cps', files, required, on) && Discovered(files, required) && Known(cps) && seen.Keys <= cps.Keys
    requires AllRooted(cps, seen, w) && Found(w, files, w') && Telling(cps, cps', w')
    ensures AllRooted(cps', seen, w')
  {
    hide Evolved, Archived, Named, Rooted, Complete, Tells;
    forall n | n in cps' ensures Rooted(cps'[n], SeenBy(seen, n), w') {
      if n in cps {
        assert Evolved(cps[n], cps'[n], files) && Rooted(cps[n], SeenBy(seen, n), w) && Tells(cps[n], cps'[n], w');
        EvolvedRooted(cps[n], cps'[n], SeenBy(seen, n), w, files, w', required);
      } else {
        OpenedRooted(files[on[n]], w');
      }
    }
  }

  lemma OpenedRooted(f: File, w: World)
    requires PlaceOf(f) in w
    ensures Rooted(Opened(f), [], w)
  {}

  /** A generation on a file has consumed the beginning of what the file holds in this cycle. */
  lemma OnItsFile(cps: map<string, Generation>, cps': map<string, Generation>, files: seq<File>, required: set<string>, on: map<string, nat>,
                  seen: map<string, Bytes>, w: World, w': World, n: string)
    requires Tracked(cps, cps', files, required, on) && Discovered(files, required) && Known(cps) && seen.Keys <= cps.Keys
    requires AllRooted(cps, seen, w) && Found(w, files, w') && Telling(cps, cps', w') && n in on
    ensures n in cps' && on[n] < |files| && SeenBy(seen, n) <= files[on[n]].contents
  {
    hide Archived, Named, Complete, Tells, Lost, NoneAt, Rooted, Found;
    if n in cps {
      var g, g' := cps[n], cps'[n];
      assert Evolved(g, g', files) && Rooted(g, SeenBy(seen, n), w) && Tells(g, g', w') && !g'.closed && g'.kind != Issue;
      if g' == g {
        RootedMatches(g, SeenBy(seen, n), w, files, w', on[n]);
      } else {
        var i :| 0 <= i < |files| && g.kind == Access && g.offset > 0 && IsCopy(g, files[i]) && g' == Adopted(g, files[i].identity);
        AdoptedPlace(g, files[i], required, files, i);
        CopyHolds(g, g', SeenBy(seen, n), w, files, w', i);
        assert PlaceOf(files[i]) == PlaceOf(files[on[n]]);
        assert i == on[n];
      }
    }
  }

  /** Tracking gives no place to a second generation, unless by adoption. */
  lemma TrackedApart(cps: map<string, Generation>, cps': map<string, Generation>, files: seq<File>, required: set<string>, on: map<string, nat>,
                     seen: map<string, Bytes>, w: World, w': World, moved: set<string>)
    requires Tracked(cps, cps', files, required, on) && Discovered(files, required) && Known(cps) && seen.Keys <= cps.Keys
    requires AllRooted(cps, seen, w) && Found(w, files, w') && PlacesApart(cps, moved)
    ensures PlacesApart(cps', moved + Moved(cps, cps'))
  {
    hide Evolved, Archived, Named, Known, Rooted, Found;
    var moved' := moved + Moved(cps, cps');
    forall a, b | a in cps' && b in cps' && a != b && a !in moved' && b !in moved' && cps'[a].kind != Issue && cps'[b].kind != Issue
      ensures PlaceFor(cps'[a]) != PlaceFor(cps'[b])
    {
      if a in cps && b in cps {
        assert Evolved(cps[a], cps'[a], files) && Evolved(cps[b], cps'[b], files);
        EvolvedKind(cps[a], cps'[a], files);
        EvolvedKind(cps[b], cps'[b], files);
      } else if a in cps {
        OneNew(cps, cps', files, required, on, seen, w, w', a, b);
      } else if b in cps {
        OneNew(cps, cps', files, required, on, seen, w, w', b, a);
      } else {
        assert on[a] != on[b];
        assert PlaceOf(files[on[a]]) != PlaceOf(files[on[b]]);
      }
    }
  }

  lemma EvolvedKind(g: Generation, g': Generation, files: seq<File>)
    requires Evolved(g, g', files)
    ensures g'.kind == g.kind && g'.source == g.source && g'.instance == g.instance && g'.offset == g.offset && g'.prefix == g.prefix && g'.tail == g.tail
  {
    hide Lost, NoneAt, IsCopy;
  }

  /** A new generation is not where an older one that stayed is. */
  lemma OneNew(cps: map<string, Generation>, cps': map<string, Generation>, files: seq<File>, required: set<string>, on: map<string, nat>,
               seen: map<string, Bytes>, w: World, w': World, a: string, b: string)
    requires Tracked(cps, cps', files, required, on) && Discovered(files, required)
    requires AllRooted(cps, seen, w) && Found(w, files, w') && a in cps && b in cps' && b !in cps && a in cps'
    requires PlaceFor(cps'[a]) == PlaceFor(cps[a]) && cps'[a].kind != Issue
    ensures PlaceFor(cps'[a]) != PlaceFor(cps'[b])
  {
    hide Evolved, Named, Known, Rooted, Found, Matches;
    if PlaceFor(cps'[a]) == PlaceFor(cps'[b]) {
      var g, g' := cps[a], cps'[a];
      assert Evolved(g, g', files) && Rooted(g, SeenBy(seen, a), w);
      EvolvedKind(g, g', files);
      var f := files[on[b]];
      RootedMatches(g, SeenBy(seen, a), w, files, w', on[b]);
      SameMatch(f, g, g');
      assert false;
    }
  }

  lemma SameMatch(f: File, g: Generation, g': Generation)
    requires Matches(f, g) && g'.offset == g.offset && g'.prefix == g.prefix && g'.tail == g.tail
    ensures Matches(f, g')
  {}
}
