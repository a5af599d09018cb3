/** What a search pins: the hours of a source that can hold lines of its window, and their members. */
module ArchiveSnapshot {
  import opened Options
  import opened ArchiveTypes
  import opened ArchiveDisk
  import opened ArchiveJournal
  import opened ArchiveStaging
  import opened ArchiveCommit
  import opened ArchiveHistory
  import opened ArchiveReaders
  import opened ArchiveRanges
  import S = ArchiveSearch

  function PartFor(z: Codec, content: Bytes, m: Member): S.Part
    requires MemberDecodes(z, content, m)
  {
    S.Part(m.start, m.lineCount, m.bytes, m.minTime, m.maxTime, m.unknown, MemberText(z, content, m))
  }

  function HourFor(z: Codec, hour: int, content: Bytes, ix: Index): S.Hour
    requires Decodes(z, content, ix)
  {
    S.Hour(hour, seq(|ix|, i requires 0 <= i < |ix| => PartFor(z, content, ix[i])))
  }

  /** Hours of a source that the archive holds, oldest first. */
  predicate Pinned(d: Disk, source: string, hs: seq<int>) {
    (forall i {:trigger hs[i]} :: 0 <= i < |hs| ==> HourEntry(d, Key(source, hs[i])).Some? && Key(source, hs[i]) in d.data && Key(source, hs[i]) in d.index)
    && forall i, j :: 0 <= i < j < |hs| ==> hs[i] < hs[j]
  }

  function HoursAt(z: Codec, d: Disk, source: string, hs: seq<int>): seq<S.Hour>
    requires Readable(z, d) && Pinned(d, source, hs)
  {
    seq(|hs|, i requires 0 <= i < |hs| => HourFor(z, hs[i], d.data[Key(source, hs[i])], d.index[Key(source, hs[i])]))
  }

  /** The hour overlaps the window. */
  predicate Overlaps(q: S.Query, hour: int) { hour * HOUR < q.end && q.start < (hour + 1) * HOUR }

  /** The hours a search pins: those of its source that overlap its window. */
  ghost predicate Chosen(d: Disk, source: string, q: S.Query, hs: seq<int>) {
    && Pinned(d, source, hs) && (forall i {:trigger hs[i]} :: 0 <= i < |hs| ==> Overlaps(q, hs[i]))
    && forall k {:trigger HourEntry(d, k)} :: HourEntry(d, k).Some? && k.source == source && Overlaps(q, k.hour) ==> k.hour in hs
  }

  /** No line that was dated in the window lies in an hour that was not chosen. */
  lemma WindowCovered(z: Codec, clock: Clock, d: Disk, source: string, q: S.Query, hs: seq<int>, hour: int, j: nat)
    requires Valid(d) && Readable(z, d) && Ranged(z, clock, d) && Chosen(d, source, q, hs) && HourEntry(d, Key(source, hour)).Some?
    requires j < |Split(HourText(z, d, Key(source, hour)))|
    requires var t := clock(source, Split(HourText(z, d, Key(source, hour)))[j]); t.Some? && q.start <= t.value < q.end
    ensures hour in hs
  {
    hide TextOf, Split, Decodes, MembersRanged, LeastTime, GreatestTime, UnknownsOf;
    var k := Key(source, hour);
    HourIn(z, clock, d, k);
    GroupRanged(z, clock, source, d.data[k], d.index[k]);
    var lines := Split(HourText(z, d, k));
    assert Within(clock(source, lines[j]), LeastTime(d.index[k]), GreatestTime(d.index[k]));
  }

  lemma PartSound(z: Codec, clock: Clock, source: string, content: Bytes, m: Member)
    requires MemberDecodes(z, content, m) && MemberRanged(z, clock, source, content, m)
    ensures S.PartOk(PartFor(z, content, m))
  {
    hide Split, Flatten, CountLF, Undated;
    var text := MemberText(z, content, m);
    SplitAreLines(text);
    LinesCount(Split(text));
  }

  lemma {:induction false} StartsRise(ix: Index, from: nat, i: nat, j: nat)
    requires Tiles(ix, from) && i < j < |ix|
    ensures ix[i].start < ix[j].start
    decreases ix
  {
    if i > 0 { StartsRise(ix[1..], ix[0].end, i - 1, j - 1); } else { TilesWithin(ix[1..], ix[0].end, j - 1); }
  }

  lemma HourSound(z: Codec, clock: Clock, d: Disk, k: Key)
    requires Valid(d) && Readable(z, d) && Ranged(z, clock, d) && HourEntry(d, k).Some? && k in d.data && k in d.index
    ensures S.HourOk(HourFor(z, k.hour, d.data[k], d.index[k]))
  {
    hide S.PartOk, MemberRanged, MemberDecodes, Ranged;
    HourIn(z, clock, d, k);
    HourCounting(z, clock, d, k);
    var ix, h := d.index[k], HourFor(z, k.hour, d.data[k], d.index[k]);
    forall i | 0 <= i < |h.parts| ensures S.PartOk(h.parts[i]) {
      assert MemberDecodes(z, d.data[k], ix[i]) && MemberRanged(z, clock, k.source, d.data[k], ix[i]);
      PartSound(z, clock, k.source, d.data[k], ix[i]);
    }
    forall i, j | 0 <= i < j < |h.parts| ensures h.parts[i].start < h.parts[j].start { StartsRise(ix, 0, i, j); }
  }

  /** Every snapshot of a living archive is what the page loop relies on. */
  lemma SnapshotSound(z: Codec, clock: Clock, d: Disk, source: string, hs: seq<int>)
    requires Valid(d) && Readable(z, d) && Ranged(z, clock, d) && Pinned(d, source, hs)
    ensures S.SnapshotOk(HoursAt(z, d, source, hs))
  {
    hide S.HourOk, Ranged, Valid, Readable, HourFor;
    forall i | 0 <= i < |hs| ensures S.HourOk(HoursAt(z, d, source, hs)[i]) { HourSound(z, clock, d, Key(source, hs[i])); }
    HourNames(z, d, source, hs);
  }

  lemma HourNames(z: Codec, d: Disk, source: string, hs: seq<int>)
    requires Readable(z, d) && Pinned(d, source, hs)
    ensures forall i :: 0 <= i < |hs| ==> HoursAt(z, d, source, hs)[i].hour == hs[i]
  {
    hide Readable;
  }

}
