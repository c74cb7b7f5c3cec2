/**
 * Crash recovery: the segment list is rebuilt from an old manifest and from the files
 * actually found, and the timeline identity is kept or replaced.
 */
module Recovery {
  import opened Wrappers
  import opened SegmentNames
  import opened SegmentCache
  import opened CacheWindow
  import opened CacheHistory

  /** A manifest as read back; its contents are not trusted. Recovery does not look at its total. */
  datatype Manifest = Manifest(timelineId: string, audio: nat, segments: seq<Segment>, total: nat)

  datatype Recovered = Recovered(cache: Cache, timelineKept: bool)

  function File(disk: Disk, name: string): seq<Sample> {
    if name in disk then disk[name] else []
  }

  function FileSize(disk: Disk, name: string): nat {
    |File(disk, name)|
  }

  /** A manifested segment whose file still has samples, with the file's actual length. */
  function Repaired(s: Segment, disk: Disk): Segment {
    s.(complete := true, count := FileSize(disk, s.name))
  }

  function Survivors(segments: seq<Segment>, disk: Disk): seq<Segment> {
    if |segments| == 0 then []
    else
      (if FileSize(disk, segments[0].name) > 0 then [Repaired(segments[0], disk)] else [])
      + Survivors(segments[1..], disk)
  }

  predicate CountsHold(segments: seq<Segment>, disk: Disk) {
    forall s :: s in segments && FileSize(disk, s.name) > 0 ==> s.count == FileSize(disk, s.name)
  }

  predicate Lists(segments: seq<Segment>, name: string) {
    exists s :: s in segments && s.name == name
  }

  predicate IsUntracked(name: string, tracked: seq<Segment>, disk: Disk) {
    !Lists(tracked, name) && SegmentIndexFromName(name).Some? && FileSize(disk, name) > 0
  }

  /** Segment files on disk that no surviving manifest entry names, in directory order. */
  function Untracked(listing: seq<string>, tracked: seq<Segment>, disk: Disk): seq<Segment> {
    if |listing| == 0 then []
    else
      var name := listing[0];
      (if IsUntracked(name, tracked, disk)
       then [Segment(SegmentIndexFromName(name).value, name, 0, FileSize(disk, name), true)] else [])
      + Untracked(listing[1..], tracked, disk)
  }

  /** A stable sort by index. */
  function SortByIndex(segments: seq<Segment>): seq<Segment> {
    if |segments| == 0 then [] else Insert(segments[0], SortByIndex(segments[1..]))
  }

  function Insert(s: Segment, sorted: seq<Segment>): seq<Segment> {
    if |sorted| == 0 || s.index <= sorted[0].index then [s] + sorted
    else [sorted[0]] + Insert(s, sorted[1..])
  }

  /** Segments laid end to end from a given sample. */
  function Rebase(segments: seq<Segment>, start: nat): seq<Segment> {
    if |segments| == 0 then []
    else [segments[0].(start := start)] + Rebase(segments[1..], start + segments[0].count)
  }

  function Found(m: Manifest, disk: Disk, listing: seq<string>): seq<Segment> {
    var tracked := Survivors(m.segments, disk);
    SortByIndex(tracked + Untracked(listing, tracked, disk))
  }

  /**
   * The identity stays if it was one, the audio format did not change, and neither a
   * sample count nor a start had to be corrected.
   */
  predicate KeepsTimeline(m: Manifest, audio: nat, disk: Disk, listing: seq<string>) {
    && |m.timelineId| > 0 && m.audio == audio
    && CountsHold(m.segments, disk)
    && Rebase(Found(m, disk, listing), 0) == Found(m, disk, listing)
  }

  /** Recovery up to, not including, the trim it ends with. */
  function Recover(m: Manifest, audio: nat, cap: nat, limit: nat, disk: Disk, listing: seq<string>): Recovered {
    var segments := Rebase(Found(m, disk, listing), 0);
    var total := SampleSum(segments);
    Recovered(Cache(cap, limit, segments, total, false, [], disk, 2 * total),
              KeepsTimeline(m, audio, disk, listing))
  }

  // ---------------------------------------------------------------- the list is sorted and complete

  predicate SortedByIndex(segments: seq<Segment>) {
    forall i, j :: 0 <= i < j < |segments| ==> segments[i].index <= segments[j].index
  }

  lemma SortedRest(sorted: seq<Segment>)
    requires SortedByIndex(sorted) && |sorted| > 0
    ensures SortedByIndex(sorted[1..])
    ensures forall x :: x in sorted ==> sorted[0].index <= x.index
  {
    assert forall i :: 0 <= i < |sorted[1..]| ==> sorted[1..][i] == sorted[i + 1];
  }

  lemma SortedCons(s: Segment, sorted: seq<Segment>)
    requires SortedByIndex(sorted) && forall x :: x in sorted ==> s.index <= x.index
    ensures SortedByIndex([s] + sorted)
  {
    var all := [s] + sorted;
    assert forall i :: 0 < i < |all| ==> all[i] == sorted[i - 1] && all[i] in sorted;
  }

  lemma {:induction false} InsertKeeps(s: Segment, sorted: seq<Segment>)
    requires SortedByIndex(sorted)
    ensures SortedByIndex(Insert(s, sorted))
    ensures multiset(Insert(s, sorted)) == multiset(sorted) + multiset{s}
  {
    hide SortedByIndex;
    if |sorted| == 0 || s.index <= sorted[0].index {
      if |sorted| > 0 {
        SortedRest(sorted);
      }
      SortedCons(s, sorted);
      assert multiset([s] + sorted) == multiset{s} + multiset(sorted);
    } else {
      SortedRest(sorted);
      InsertKeeps(s, sorted[1..]);
      var rest := Insert(s, sorted[1..]);
      assert sorted == [sorted[0]] + sorted[1..];
      forall x | x in rest ensures sorted[0].index <= x.index {
        assert x in multiset(rest);
        assert x == s || x in sorted[1..];
      }
      SortedCons(sorted[0], rest);
    }
  }

  lemma {:induction false} SortSorts(segments: seq<Segment>)
    ensures SortedByIndex(SortByIndex(segments))
    ensures multiset(SortByIndex(segments)) == multiset(segments)
  {
    if |segments| > 0 {
      SortSorts(segments[1..]);
      InsertKeeps(segments[0], SortByIndex(segments[1..]));
      assert segments == [segments[0]] + segments[1..];
    }
  }

  lemma {:induction false} RebaseTiles(segments: seq<Segment>, start: nat)
    ensures var r := Rebase(segments, start);
            && |r| == |segments|
            && SampleSum(r) == SampleSum(segments)
            && (forall i :: 0 <= i < |r| ==> r[i] == segments[i].(start := r[i].start))
            && (|r| > 0 ==> r[0].start == start)
            && Contiguous(r, start + SampleSum(segments))
  {
    if |segments| > 0 {
      RebaseTiles(segments[1..], start + segments[0].count);
      var r := Rebase(segments, start);
      var rest := Rebase(segments[1..], start + segments[0].count);
      assert r[1..] == rest;
      forall i | 0 <= i < |r| ensures r[i].End() == Following(r, i, start + SampleSum(segments)) {
        if i > 0 {
          assert rest[i - 1].End() == Following(rest, i - 1, start + SampleSum(segments));
        }
      }
      forall i | 0 <= i < |r| ensures r[i] == segments[i].(start := r[i].start) {
        if i > 0 {
          assert r[i] == rest[i - 1];
        }
      }
    }
  }

  lemma {:induction false} SurvivorsAre(segments: seq<Segment>, disk: Disk)
    ensures forall s :: s in Survivors(segments, disk) ==>
              exists m :: m in segments && FileSize(disk, m.name) > 0 && s == Repaired(m, disk)
    ensures forall m :: m in segments && FileSize(disk, m.name) > 0 ==> Repaired(m, disk) in Survivors(segments, disk)
  {
    if |segments| > 0 {
      SurvivorsAre(segments[1..], disk);
      assert forall m :: m in segments ==> m == segments[0] || m in segments[1..];
      assert forall m :: m in segments[1..] ==> m in segments;
    }
  }

  lemma {:induction false} UntrackedAre(listing: seq<string>, tracked: seq<Segment>, disk: Disk)
    ensures forall s :: s in Untracked(listing, tracked, disk) ==>
              && s.name in listing && IsUntracked(s.name, tracked, disk)
              && s == Segment(SegmentIndexFromName(s.name).value, s.name, 0, FileSize(disk, s.name), true)
    ensures forall name :: name in listing && IsUntracked(name, tracked, disk) ==>
              Lists(Untracked(listing, tracked, disk), name)
  {
    if |listing| > 0 {
      var rest := Untracked(listing[1..], tracked, disk);
      var all := Untracked(listing, tracked, disk);
      UntrackedAre(listing[1..], tracked, disk);
      forall name | name in listing && IsUntracked(name, tracked, disk) ensures Lists(all, name) {
        if name == listing[0] {
          assert all[0].name == name && all[0] in all;
        } else {
          assert name in listing[1..];
          var s :| s in rest && s.name == name;
          assert s in all;
        }
      }
    }
  }

  lemma FoundMembers(m: Manifest, disk: Disk, listing: seq<string>, s: Segment)
    ensures var tracked := Survivors(m.segments, disk);
            s in Found(m, disk, listing) <==> s in tracked || s in Untracked(listing, tracked, disk)
  {
    var tracked := Survivors(m.segments, disk);
    var all := tracked + Untracked(listing, tracked, disk);
    SortSorts(all);
    assert s in Found(m, disk, listing) <==> s in multiset(Found(m, disk, listing));
    assert s in all <==> s in multiset(all);
  }

  predicate FromManifest(s: Segment, m: Manifest, disk: Disk) {
    exists e :: e in m.segments && FileSize(disk, e.name) > 0 && s == Repaired(e, disk)
  }

  /** Every segment found is a file with samples: a manifested one, or one named by an index. */
  lemma FoundIsOnDisk(m: Manifest, disk: Disk, listing: seq<string>)
    ensures forall s :: s in Found(m, disk, listing) ==>
              && s.complete && s.count == FileSize(disk, s.name) > 0
              && (FromManifest(s, m, disk) || (s.start == 0 && SegmentIndexFromName(s.name) == Some(s.index)))
  {
    var tracked := Survivors(m.segments, disk);
    SurvivorsAre(m.segments, disk);
    UntrackedAre(listing, tracked, disk);
    forall s | s in Found(m, disk, listing)
      ensures s.complete && s.count == FileSize(disk, s.name) > 0
      ensures FromManifest(s, m, disk) || (s.start == 0 && SegmentIndexFromName(s.name) == Some(s.index))
    {
      FoundMembers(m, disk, listing, s);
      if s in tracked {
        var e :| e in m.segments && FileSize(disk, e.name) > 0 && s == Repaired(e, disk);
      }
    }
  }

  /**
   * Whatever the manifest says, the recovered list is in index order and tiles the
   * recording from sample 0 to the sum of the actual file lengths.
   */
  lemma RecoveryTiles(m: Manifest, audio: nat, cap: nat, limit: nat, disk: Disk, listing: seq<string>)
    ensures var c := Recover(m, audio, cap, limit, disk, listing).cache;
            && SortedByIndex(c.segments)
            && Contiguous(c.segments, c.total)
            && (|c.segments| > 0 ==> c.segments[0].start == 0)
            && c.total == SampleSum(c.segments)
            && (forall s :: s in c.segments ==> s.complete && s.count == FileSize(disk, s.name) > 0)
  {
    hide Survivors, Untracked, Rebase, Contiguous, SortByIndex, FromManifest, SampleSum, SortedByIndex, FileSize,
        KeepsTimeline;
    var tracked := Survivors(m.segments, disk);
    var found := Found(m, disk, listing);
    var c := Recover(m, audio, cap, limit, disk, listing).cache;
    SortSorts(tracked + Untracked(listing, tracked, disk));
    RebaseTiles(found, 0);
    SameIndexes(found, c.segments);
    FoundIsOnDisk(m, disk, listing);
    hide Found;
    forall s | s in c.segments ensures s.complete && s.count == FileSize(disk, s.name) > 0 {
      var i :| 0 <= i < |c.segments| && c.segments[i] == s;
      assert found[i] in found;
    }
  }

  lemma SameIndexes(segments: seq<Segment>, moved: seq<Segment>)
    requires SortedByIndex(segments) && |moved| == |segments|
    requires forall i :: 0 <= i < |moved| ==> moved[i] == segments[i].(start := moved[i].start)
    ensures SortedByIndex(moved)
  {
  }

  /** No file is lost: every one with samples that the manifest or its name identifies is listed. */
  lemma RecoveryIsComplete(m: Manifest, disk: Disk, listing: seq<string>, name: string)
    requires FileSize(disk, name) > 0
    requires Lists(m.segments, name) || (name in listing && SegmentIndexFromName(name).Some?)
    ensures Lists(Rebase(Found(m, disk, listing), 0), name)
  {
    var tracked := Survivors(m.segments, disk);
    var found := Found(m, disk, listing);
    var s: Segment;
    SurvivorsAre(m.segments, disk);
    if Lists(m.segments, name) {
      var e :| e in m.segments && e.name == name;
      s := Repaired(e, disk);
    } else {
      UntrackedAre(listing, tracked, disk);
      assert IsUntracked(name, tracked, disk);
      s :| s in Untracked(listing, tracked, disk) && s.name == name;
    }
    FoundMembers(m, disk, listing, s);
    RebasedName(found, s);
  }

  lemma RebasedName(found: seq<Segment>, s: Segment)
    requires s in found
    ensures Lists(Rebase(found, 0), s.name)
  {
    RebaseTiles(found, 0);
    var i :| 0 <= i < |found| && found[i] == s;
    assert Rebase(found, 0)[i] in Rebase(found, 0);
  }

  // ---------------------------------------------------------------- timeline identity

  /**
   * A kept timeline means what it says of the manifest: every manifested segment that
   * survived is in the recovered list with the start and the count it had.
   */
  lemma KeptTimelineKeepsSegments(m: Manifest, audio: nat, cap: nat, limit: nat, disk: Disk, listing: seq<string>)
    requires Recover(m, audio, cap, limit, disk, listing).timelineKept
    ensures forall e :: e in m.segments && FileSize(disk, e.name) > 0 ==>
              e.(complete := true) in Recover(m, audio, cap, limit, disk, listing).cache.segments
  {
    SurvivorsAre(m.segments, disk);
    forall e | e in m.segments && FileSize(disk, e.name) > 0
      ensures e.(complete := true) in Recover(m, audio, cap, limit, disk, listing).cache.segments
    {
      FoundMembers(m, disk, listing, Repaired(e, disk));
      assert Repaired(e, disk) == e.(complete := true);
    }
  }

  /** A history the manifest could have been written for, as far as its files survive. */
  predicate ManifestDenotes(m: Manifest, disk: Disk, history: seq<Sample>) {
    forall e :: e in m.segments && FileSize(disk, e.name) > 0 && e.count == FileSize(disk, e.name) ==>
      e.End() <= |history| && disk[e.name] == history[e.start..e.End()]
  }

  /** The samples of the recovered list, in order. */
  function Samples(segments: seq<Segment>, disk: Disk): seq<Sample> {
    if |segments| == 0 then []
    else File(disk, segments[0].name) + Samples(segments[1..], disk)
  }

  predicate NothingUntracked(m: Manifest, disk: Disk, listing: seq<string>) {
    var found := Found(m, disk, listing);
    |found| > 0 ==> FromManifest(found[0], m, disk)
  }

  /** Behind the first segment a kept timeline leaves room for manifested segments only. */
  lemma KeptAreManifested(m: Manifest, audio: nat, disk: Disk, listing: seq<string>, i: nat)
    requires KeepsTimeline(m, audio, disk, listing)
    requires 0 < i < |Found(m, disk, listing)|
    ensures FromManifest(Found(m, disk, listing)[i], m, disk)
    ensures Found(m, disk, listing)[i].start > 0
  {
    KeptTiling(m, audio, disk, listing);
    hide Contiguous, FileSize, KeepsTimeline, SampleSum;
    var found := Found(m, disk, listing);
    FoundIsOnDisk(m, disk, listing);
    hide Found;
    assert forall j :: 0 <= j < |found| ==> found[j] in found;
    LaterStarts(found, SampleSum(found), i);
    hide FromManifest;
  }

  lemma {:induction false} LaterStarts(segments: seq<Segment>, end: nat, i: nat)
    requires Contiguous(segments, end) && 0 < i < |segments|
    requires forall j :: 0 <= j < |segments| ==> segments[j].count > 0
    ensures segments[i].start >= segments[0].End()
    ensures segments[i].start > 0
  {
    assert segments[i - 1].End() == Following(segments, i - 1, end);
    if i > 1 {
      LaterStarts(segments, end, i - 1);
    }
  }

  lemma FirstEnd(segments: seq<Segment>, end: nat)
    requires Contiguous(segments, end) && |segments| > 0
    ensures segments[0].End() == if |segments| > 1 then segments[1].start else end
  {
    assert segments[0].End() == Following(segments, 0, end);
  }

  lemma FromManifestDenotes(s: Segment, m: Manifest, disk: Disk, history: seq<Sample>)
    requires FromManifest(s, m, disk) && CountsHold(m.segments, disk) && ManifestDenotes(m, disk, history)
    ensures s.name in disk && s.End() <= |history| && disk[s.name] == history[s.start..s.End()]
  {
    var e :| e in m.segments && FileSize(disk, e.name) > 0 && s == Repaired(e, disk);
  }

  /** A segment's samples are found in the whole at its start. */
  predicate Placed(all: seq<Sample>, from: int, s: Segment, samples: seq<Sample>) {
    0 <= s.start - from && s.End() - from <= |all| && all[s.start - from..s.End() - from] == samples
  }

  /** Where a segment's samples are in the recovered recording. */
  lemma {:induction false} SamplesAt(segments: seq<Segment>, disk: Disk, end: nat, i: nat)
    requires Contiguous(segments, end) && i < |segments|
    requires forall s :: s in segments ==> s.count == FileSize(disk, s.name) > 0
    ensures Placed(Samples(segments, disk), segments[0].start, segments[i], File(disk, segments[i].name))
  {
    hide Contiguous, Placed, Following;
    SamplesStep(segments, disk);
    var first := File(disk, segments[0].name);
    if i == 0 {
      assert segments[0] in segments;
      PlacedFirst(first, Samples(segments[1..], disk), segments[0]);
    } else {
      ContiguousRest(segments, end);
      FirstEnd(segments, end);
      assert forall s :: s in segments[1..] ==> s in segments;
      SamplesAt(segments[1..], disk, end, i - 1);
      assert segments[1..][i - 1] == segments[i] && segments[1..][0] == segments[1];
      assert segments[0] in segments;
      hide Samples, FileSize, File;
      PlacedBehind(first, Samples(segments[1..], disk), segments[0], segments[1], segments[i],
                   File(disk, segments[i].name));
    }
  }

  lemma SamplesStep(segments: seq<Segment>, disk: Disk)
    requires |segments| > 0
    ensures Samples(segments, disk) == File(disk, segments[0].name) + Samples(segments[1..], disk)
  {
  }

  lemma PlacedFirst(first: seq<Sample>, rest: seq<Sample>, s: Segment)
    requires s.count == |first|
    ensures Placed(first + rest, s.start, s, first)
  {
  }

  lemma PlacedBehind(first: seq<Sample>, rest: seq<Sample>, s: Segment, next: Segment, t: Segment, samples: seq<Sample>)
    requires s.count == |first| && s.End() == next.start
    requires Placed(rest, next.start, t, samples)
    ensures Placed(first + rest, s.start, t, samples)
  {
    var at := t.start - next.start;
    assert (first + rest)[|first| + at..|first| + at + t.count] == rest[at..at + t.count];
  }

  lemma {:induction false} SamplesLength(segments: seq<Segment>, disk: Disk)
    requires forall s :: s in segments ==> s.count == FileSize(disk, s.name) > 0
    ensures |Samples(segments, disk)| == SampleSum(segments)
  {
    if |segments| > 0 {
      assert segments[0] in segments;
      assert forall s :: s in segments[1..] ==> s in segments;
      SamplesLength(segments[1..], disk);
    }
  }

  /** A kept timeline means the list as found already tiles the recording from sample 0. */
  lemma KeptTiling(m: Manifest, audio: nat, disk: Disk, listing: seq<string>)
    requires KeepsTimeline(m, audio, disk, listing)
    ensures var found := Found(m, disk, listing);
            && Contiguous(found, SampleSum(found))
            && (|found| > 0 ==> found[0].start == 0)
            && forall s :: s in found ==> s.count == FileSize(disk, s.name) > 0
  {
    FoundIsOnDisk(m, disk, listing);
    RebaseTiles(Found(m, disk, listing), 0);
  }

  /** Where the samples that no manifest entry vouches for end; there are none if the first segment was listed. */
  function Unvouched(m: Manifest, disk: Disk, listing: seq<string>): nat {
    var found := Found(m, disk, listing);
    if NothingUntracked(m, disk, listing) || |found| == 0 then 0 else found[0].count
  }

  /** A surviving manifest entry lies in the recovered recording where it lay, behind what nothing vouches for. */
  lemma EntryIsPlaced(m: Manifest, audio: nat, disk: Disk, listing: seq<string>, e: Segment)
    requires KeepsTimeline(m, audio, disk, listing)
    requires e in m.segments && FileSize(disk, e.name) > 0 && e.count == FileSize(disk, e.name)
    ensures var samples := Samples(Found(m, disk, listing), disk);
            && Unvouched(m, disk, listing) <= e.start && e.End() <= |samples|
            && e.name in disk && disk[e.name] == samples[e.start..e.End()]
  {
    hide Samples, Found, Contiguous, KeepsTimeline, NothingUntracked, SampleSum;
    var found := Found(m, disk, listing);
    var i := ManifestedPosition(m, disk, listing, e);
    KeptTiling(m, audio, disk, listing);
    assert found[i] in found && found[0] in found;
    if i > 0 {
      LaterStarts(found, SampleSum(found), i);
    }
    SamplesAt(found, disk, SampleSum(found), i);
  }

  lemma ManifestedPosition(m: Manifest, disk: Disk, listing: seq<string>, e: Segment) returns (i: nat)
    requires e in m.segments && FileSize(disk, e.name) > 0
    ensures i < |Found(m, disk, listing)| && Found(m, disk, listing)[i] == Repaired(e, disk)
    ensures i == 0 ==> NothingUntracked(m, disk, listing)
  {
    var found := Found(m, disk, listing);
    SurvivorsAre(m.segments, disk);
    FoundMembers(m, disk, listing, Repaired(e, disk));
    hide Found;
    i :| 0 <= i < |found| && found[i] == Repaired(e, disk);
  }

  /**
   * Whatever recording the manifest may have been written for, and whatever is pushed
   * after the recovery: a position that exists in both holds the same sample.
   */
  ghost predicate KeepsPositions(m: Manifest, disk: Disk, samples: seq<Sample>, from: nat, end: nat) {
    forall history, more :: ManifestDenotes(m, disk, history) && end <= |history| ==>
      SameBetween(history, samples + more, from, end)
  }

  predicate SameBetween(history: seq<Sample>, later: seq<Sample>, from: nat, end: nat)
    requires end <= |history|
  {
    forall p :: from <= p < end && p < |later| ==> later[p] == history[p]
  }

  /** The recovered recording is one the manifest may have been written for, whatever stands where nothing vouches. */
  lemma RecoveredDenotes(m: Manifest, audio: nat, disk: Disk, listing: seq<string>, history: seq<Sample>)
    requires KeepsTimeline(m, audio, disk, listing)
    requires var samples := Samples(Found(m, disk, listing), disk);
             |samples| <= |history|
             && forall p :: Unvouched(m, disk, listing) <= p < |samples| ==> history[p] == samples[p]
    ensures ManifestDenotes(m, disk, history)
  {
    hide Samples, Found, Unvouched, KeepsTimeline;
    var samples := Samples(Found(m, disk, listing), disk);
    forall e | e in m.segments && FileSize(disk, e.name) > 0 && e.count == FileSize(disk, e.name)
      ensures e.End() <= |history| && disk[e.name] == history[e.start..e.End()]
    {
      EntryIsPlaced(m, audio, disk, listing, e);
      SameSlice(history, samples, e.start, e.End());
    }
  }

  lemma SameSlice(a: seq<Sample>, b: seq<Sample>, from: nat, to: nat)
    requires from <= to <= |a| && to <= |b| && forall p :: from <= p < to ==> a[p] == b[p]
    ensures a[from..to] == b[from..to]
  {
  }

  /** A recorded history with one sample set to a value. */
  function Altered(samples: seq<Sample>, length: nat, at: nat, value: Sample): seq<Sample> {
    seq(if length < |samples| then |samples| else length,
        i => if i == at then value else if 0 <= i < |samples| then samples[i] else 0)
  }

  /** A position behind the recovered end, or one nothing vouches for, can come to hold another sample. */
  lemma PositionChanges(m: Manifest, audio: nat, disk: Disk, listing: seq<string>, from: nat, end: nat, at: nat)
    requires KeepsTimeline(m, audio, disk, listing)
    requires from <= at < end
    requires at < Unvouched(m, disk, listing) || |Samples(Found(m, disk, listing), disk)| <= at
    ensures !KeepsPositions(m, disk, Samples(Found(m, disk, listing), disk), from, end)
  {
    var samples := Samples(Found(m, disk, listing), disk);
    hide KeepsTimeline, Unvouched, Found, Samples;
    var more: seq<Sample> := seq(at + 1, _ => 1);
    var later := samples + more;
    var history := Altered(samples, end, at, if later[at] == 0 then 1 else 0);
    RecoveredDenotes(m, audio, disk, listing, history);
    assert later[at] != history[at];
    assert !SameBetween(history, samples + more, from, end);
  }

  /** With the first segment listed and the end reached, every position keeps its sample. */
  lemma PositionsKept(m: Manifest, audio: nat, disk: Disk, listing: seq<string>, from: nat, end: nat)
    requires KeepsTimeline(m, audio, disk, listing)
    requires Unvouched(m, disk, listing) <= from && end <= |Samples(Found(m, disk, listing), disk)|
    ensures KeepsPositions(m, disk, Samples(Found(m, disk, listing), disk), from, end)
  {
    var samples := Samples(Found(m, disk, listing), disk);
    forall history, more | ManifestDenotes(m, disk, history) && end <= |history|
      ensures SameBetween(history, samples + more, from, end)
    {
      forall p | from <= p < end ensures samples[p] == history[p] {
        PositionKept(m, audio, disk, listing, history, p);
      }
    }
  }

  lemma PositionKept(m: Manifest, audio: nat, disk: Disk, listing: seq<string>, history: seq<Sample>, p: nat)
    requires KeepsTimeline(m, audio, disk, listing) && ManifestDenotes(m, disk, history)
    requires Unvouched(m, disk, listing) <= p < |Samples(Found(m, disk, listing), disk)| && p < |history|
    ensures Samples(Found(m, disk, listing), disk)[p] == history[p]
  {
    hide Samples, Contiguous, SortByIndex, Survivors, Untracked, ManifestDenotes, FromManifest, Placed;
    var found := Found(m, disk, listing);
    KeptTiling(m, audio, disk, listing);
    SamplesLength(found, disk);
    var i := SegmentHolding(found, SampleSum(found), p);
    if i > 0 {
      KeptAreManifested(m, audio, disk, listing, i);
    }
    FromManifestDenotes(found[i], m, disk, history);
    SamplesAt(found, disk, SampleSum(found), i);
    hide Found;
    SampleOfSlices(Samples(found, disk), history, found[i], File(disk, found[i].name), p);
  }

  lemma SampleOfSlices(all: seq<Sample>, history: seq<Sample>, s: Segment, samples: seq<Sample>, p: nat)
    requires Placed(all, 0, s, samples) && s.End() <= |history| && samples == history[s.start..s.End()]
    requires s.start <= p < s.End()
    ensures all[p] == history[p]
  {
    assert all[p] == all[s.start..s.End()][p - s.start];
    assert history[p] == history[s.start..s.End()][p - s.start];
  }

  /** In a tiling each sample lies in one of the segments. */
  lemma {:induction false} SegmentHolding(segments: seq<Segment>, end: nat, p: nat) returns (i: nat)
    requires Contiguous(segments, end) && p < end && |segments| > 0 && segments[0].start <= p
    ensures i < |segments| && segments[i].start <= p < segments[i].End()
    decreases |segments|
  {
    FirstEnd(segments, end);
    if p < segments[0].End() {
      i := 0;
    } else {
      ContiguousRest(segments, end);
      var n := SegmentHolding(segments[1..], end, p);
      i := n + 1;
    }
  }

  /**
   * The exact meaning of a kept timeline identity. The positions between two samples keep
   * the samples they stood for, whatever those were and whatever is pushed later, if and
   * only if there are none, or the recovery reached the last of them and none lies in a
   * first segment that the manifest did not list.
   */
  lemma KeptPositionsExactly(m: Manifest, audio: nat, disk: Disk, listing: seq<string>, from: nat, end: nat)
    requires KeepsTimeline(m, audio, disk, listing)
    ensures var found := Found(m, disk, listing);
            KeepsPositions(m, disk, Samples(found, disk), from, end) <==>
            end <= from || (end <= SampleSum(found) && Unvouched(m, disk, listing) <= from)
  {
    var found := Found(m, disk, listing);
    KeptTiling(m, audio, disk, listing);
    SamplesLength(found, disk);
    hide Found, Samples, KeepsTimeline, Unvouched, SampleSum, KeepsPositions;
    if end <= from {
      assert KeepsPositions(m, disk, Samples(found, disk), from, end) by {
        NoPositions(m, disk, Samples(found, disk), from, end);
      }
    } else if end > SampleSum(found) {
      PositionChanges(m, audio, disk, listing, from, end, if from < SampleSum(found) then SampleSum(found) else from);
    } else if Unvouched(m, disk, listing) > from {
      PositionChanges(m, audio, disk, listing, from, end, from);
    } else {
      PositionsKept(m, audio, disk, listing, from, end);
    }
  }

  lemma NoPositions(m: Manifest, disk: Disk, samples: seq<Sample>, from: nat, end: nat)
    requires end <= from
    ensures KeepsPositions(m, disk, samples, from, end)
  {
  }

  /**
   * For every position the manifest knows: they all keep their samples if and only if it
   * knows none, or the first segment found is one it lists and the recovered recording
   * reaches its recorded end.
   */
  lemma KeptTimelineMeaning(m: Manifest, audio: nat, disk: Disk, listing: seq<string>)
    requires KeepsTimeline(m, audio, disk, listing)
    ensures var found := Found(m, disk, listing);
            KeepsPositions(m, disk, Samples(found, disk), 0, m.total) <==>
            m.total == 0 || (NothingUntracked(m, disk, listing) && m.total <= SampleSum(found))
  {
    KeptPositionsExactly(m, audio, disk, listing, 0, m.total);
    KeptTiling(m, audio, disk, listing);
    var found := Found(m, disk, listing);
    if |found| > 0 {
      assert found[0] in found;
    }
  }

  /**
   * One way to be misled: the listed first segment is gone and an unlisted file takes its
   * place. The identity is kept although sample 0 is now another sample.
   */
  lemma KeptTimelineCanChange()
    ensures var name := SegmentName(5);
            var m := Manifest("id", 0, [Segment(0, SegmentName(0), 0, 1, true)], 1);
            var disk: Disk := map[name := [7]];
            var r := Recover(m, 0, 10, 10, disk, [name]);
            && r.timelineKept && r.cache.segments == [Segment(5, name, 0, 1, true)]
            && !KeepsPositions(m, disk, Samples(r.cache.segments, disk), 0, m.total)
  {
    var name := SegmentName(5);
    var disk: Disk := map[name := [7]];
    var m := Manifest("id", 0, [Segment(0, SegmentName(0), 0, 1, true)], 1);
    var file := Segment(5, name, 0, 1, true);
    NameRoundTrip(5);
    if SegmentName(0) == name {
      NamesAreDistinct(0, 5);
    }
    hide SegmentName, SegmentIndexFromName;
    assert Survivors(m.segments[1..], disk) == [];
    assert Untracked([name][1..], [], disk) == [];
    assert Untracked([name], [], disk) == [file];
    SortOne(file);
    assert Survivors(m.segments, disk) == [] && [] + [file] == [file];
    assert Found(m, disk, [name]) == [file];
    KeptTimelineMeaning(m, 0, disk, [name]);
  }

  /**
   * Another: the last listed segment is gone, or was never written out. The identity is
   * kept, and the next push puts another sample at the position that was lost.
   */
  lemma KeptTimelineCanLoseTail()
    ensures var name := SegmentName(0);
            var first := Segment(0, name, 0, 1, true);
            var m := Manifest("id", 0, [first, Segment(1, SegmentName(1), 1, 1, true)], 2);
            var disk: Disk := map[name := [7]];
            var r := Recover(m, 0, 10, 10, disk, [name]);
            && r.timelineKept && r.cache.segments == [first] && NothingUntracked(m, disk, [name])
            && !KeepsPositions(m, disk, Samples(r.cache.segments, disk), 0, m.total)
  {
    var name := SegmentName(0);
    var first := Segment(0, name, 0, 1, true);
    var m := Manifest("id", 0, [first, Segment(1, SegmentName(1), 1, 1, true)], 2);
    var disk: Disk := map[name := [7]];
    if SegmentName(1) == name {
      NamesAreDistinct(0, 1);
    }
    hide SegmentName, SegmentIndexFromName;
    assert m.segments[1..][1..] == [] && Survivors(m.segments[1..][1..], disk) == [];
    assert Survivors(m.segments[1..], disk) == [];
    assert Survivors(m.segments, disk) == [first];
    assert first in [first];
    assert Untracked([name][1..], [first], disk) == [];
    assert Untracked([name], [first], disk) == [];
    SortOne(first);
    assert [first] + [] == [first];
    assert Found(m, disk, [name]) == [first];
    assert m.segments[0] in m.segments && Repaired(m.segments[0], disk) == first;
    assert FromManifest(first, m, disk);
    KeptTimelineMeaning(m, 0, disk, [name]);
  }

  lemma SortOne(s: Segment)
    ensures SortByIndex([s]) == [s] && Rebase([s], s.start) == [s] && SampleSum([s]) == s.count
  {
    assert SortByIndex([s][1..]) == [] && Rebase([s][1..], s.start + s.count) == [] && SampleSum([s][1..]) == 0;
  }

  // ---------------------------------------------------------------- back to a live recorder

  lemma {:induction false} DistinctAfterSort(segments: seq<Segment>)
    requires DistinctNames(segments)
    ensures DistinctNames(SortByIndex(segments))
  {
    if |segments| > 0 {
      var s := segments[0];
      DistinctAfterSort(segments[1..]);
      SortSorts(segments[1..]);
      var rest := SortByIndex(segments[1..]);
      forall x | x in rest ensures x.name != s.name {
        assert x in multiset(rest);
        assert x in segments[1..];
        var i :| 0 <= i < |segments[1..]| && segments[1..][i] == x;
        assert segments[i + 1].name != segments[0].name;
      }
      DistinctInsert(s, rest);
    }
  }

  lemma {:induction false} DistinctInsert(s: Segment, sorted: seq<Segment>)
    requires DistinctNames(sorted) && forall x :: x in sorted ==> x.name != s.name
    ensures DistinctNames(Insert(s, sorted))
    ensures forall x :: x in Insert(s, sorted) ==> x == s || x in sorted
  {
    if |sorted| > 0 && s.index > sorted[0].index {
      assert forall x :: x in sorted[1..] ==> x in sorted;
      DistinctInsert(s, sorted[1..]);
      var rest := Insert(s, sorted[1..]);
      forall j | 0 <= j < |rest| ensures rest[j].name != sorted[0].name {
        assert rest[j] in rest;
        if rest[j] != s {
          var i :| 0 <= i < |sorted[1..]| && sorted[1..][i] == rest[j];
          assert sorted[0].name != sorted[i + 1].name;
        }
      }
    }
  }

  lemma {:induction false} SurvivorsDistinct(segments: seq<Segment>, disk: Disk)
    requires DistinctNames(segments)
    ensures DistinctNames(Survivors(segments, disk))
    ensures forall s :: s in Survivors(segments, disk) ==> Lists(segments, s.name)
  {
    if |segments| > 0 {
      SurvivorsDistinct(segments[1..], disk);
      var rest := Survivors(segments[1..], disk);
      forall j | 0 <= j < |rest| ensures rest[j].name != segments[0].name && Lists(segments, rest[j].name) {
        assert rest[j] in rest;
        var e :| e in segments[1..] && e.name == rest[j].name;
        var i :| 0 <= i < |segments[1..]| && segments[1..][i] == e;
        assert segments[0].name != segments[i + 1].name;
        assert segments[i + 1] in segments;
      }
      assert segments[0] in segments;
    }
  }

  predicate NoRepeats(listing: seq<string>) {
    forall i, j :: 0 <= i < j < |listing| ==> listing[i] != listing[j]
  }

  lemma {:induction false} UntrackedDistinct(listing: seq<string>, tracked: seq<Segment>, disk: Disk)
    requires NoRepeats(listing)
    ensures DistinctNames(Untracked(listing, tracked, disk))
  {
    if |listing| > 0 {
      UntrackedDistinct(listing[1..], tracked, disk);
      UntrackedAre(listing[1..], tracked, disk);
      var rest := Untracked(listing[1..], tracked, disk);
      forall j | 0 <= j < |rest| ensures rest[j].name != listing[0] {
        assert rest[j] in rest;
        var i :| 0 <= i < |listing[1..]| && listing[1..][i] == rest[j].name;
        assert listing[0] != listing[i + 1];
      }
    }
  }

  lemma FoundDistinct(m: Manifest, disk: Disk, listing: seq<string>)
    requires NoRepeats(listing)
    ensures DistinctNames(Found(m, disk, listing)) <==> DistinctNames(Survivors(m.segments, disk))
  {
    var tracked := Survivors(m.segments, disk);
    hide DistinctNames, SortByIndex, Survivors, Untracked;
    if DistinctNames(tracked) {
      DistinctFound(m, disk, listing);
    }
    if DistinctNames(Found(m, disk, listing)) {
      SortDistinctBack(tracked + Untracked(listing, tracked, disk));
      DistinctPrefix(tracked, Untracked(listing, tracked, disk));
    }
  }

  lemma DistinctPrefix(a: seq<Segment>, b: seq<Segment>)
    requires DistinctNames(a + b)
    ensures DistinctNames(a)
  {
    assert forall i :: 0 <= i < |a| ==> (a + b)[i] == a[i];
  }

  lemma DistinctParts(s: Segment, rest: seq<Segment>)
    ensures DistinctNames([s] + rest) <==> DistinctNames(rest) && forall x :: x in rest ==> x.name != s.name
  {
    var all := [s] + rest;
    assert forall i :: 0 <= i < |rest| ==> all[i + 1] == rest[i];
    assert forall i :: 0 < i < |all| ==> all[i] == rest[i - 1];
    if DistinctNames(all) {
      forall x | x in rest ensures x.name != s.name {
        var i :| 0 <= i < |rest| && rest[i] == x;
        assert all[0].name != all[i + 1].name;
      }
    }
  }

  lemma {:induction false} InsertDistinctBack(s: Segment, sorted: seq<Segment>)
    requires DistinctNames(Insert(s, sorted))
    ensures DistinctNames(sorted) && forall x :: x in sorted ==> x.name != s.name
    decreases |sorted|
  {
    hide DistinctNames;
    if |sorted| == 0 || s.index <= sorted[0].index {
      DistinctParts(s, sorted);
    } else {
      DistinctParts(sorted[0], Insert(s, sorted[1..]));
      InsertDistinctBack(s, sorted[1..]);
      InsertMembers(s, sorted[1..]);
      DistinctParts(sorted[0], sorted[1..]);
      assert sorted == [sorted[0]] + sorted[1..];
    }
  }

  lemma {:induction false} InsertMembers(s: Segment, sorted: seq<Segment>)
    ensures s in Insert(s, sorted) && forall x :: x in sorted ==> x in Insert(s, sorted)
  {
    if |sorted| > 0 && s.index > sorted[0].index {
      InsertMembers(s, sorted[1..]);
      var all := Insert(s, sorted);
      assert all[1..] == Insert(s, sorted[1..]) && all[0] == sorted[0];
      assert forall x :: x in all[1..] ==> x in all;
    }
  }

  lemma {:induction false} SortDistinctBack(segments: seq<Segment>)
    requires DistinctNames(SortByIndex(segments))
    ensures DistinctNames(segments)
  {
    if |segments| > 0 {
      hide DistinctNames;
      var rest := SortByIndex(segments[1..]);
      InsertDistinctBack(segments[0], rest);
      SortDistinctBack(segments[1..]);
      SortSorts(segments[1..]);
      forall x | x in segments[1..] ensures x in rest {
        assert x in multiset(segments[1..]);
      }
      DistinctParts(segments[0], segments[1..]);
      assert segments == [segments[0]] + segments[1..];
    } else {
      assert segments == SortByIndex(segments);
    }
  }

  lemma DistinctFound(m: Manifest, disk: Disk, listing: seq<string>)
    requires NoRepeats(listing) && DistinctNames(Survivors(m.segments, disk))
    ensures DistinctNames(Found(m, disk, listing))
  {
    var tracked := Survivors(m.segments, disk);
    var untracked := Untracked(listing, tracked, disk);
    UntrackedDistinct(listing, tracked, disk);
    UntrackedAre(listing, tracked, disk);
    var all := tracked + untracked;
    forall i, j | 0 <= i < j < |all| ensures all[i].name != all[j].name {
      if i < |tracked| <= j {
        assert all[j] in untracked && all[i] in tracked;
      }
    }
    DistinctAfterSort(all);
  }

  /**
   * Recovery leaves a sound recorder for the recovered samples, for which everything
   * proved of live recorders holds from there on, if and only if the manifest does not
   * list a surviving file twice; one that lists no file twice never does.
   */
  lemma RecoveryIsSound(m: Manifest, audio: nat, cap: nat, limit: nat, disk: Disk, listing: seq<string>)
    requires NoRepeats(listing) && cap > 0 && limit > 0
    ensures var c := Recover(m, audio, cap, limit, disk, listing).cache;
            Inv(c, Samples(c.segments, disk)) <==> DistinctNames(Survivors(m.segments, disk))
    ensures DistinctNames(m.segments) ==> DistinctNames(Survivors(m.segments, disk))
  {
    var c := Recover(m, audio, cap, limit, disk, listing).cache;
    RecoveryTiles(m, audio, cap, limit, disk, listing);
    FoundDistinct(m, disk, listing);
    if DistinctNames(m.segments) {
      SurvivorsDistinct(m.segments, disk);
    }
    RebaseTiles(Found(m, disk, listing), 0);
    SameNames(Found(m, disk, listing), c.segments);
    hide Recover, Found, Rebase, Survivors;
    if DistinctNames(c.segments) {
      TiledIsSound(c, disk);
    } else {
      hide Live, Accounted, Samples;
      assert !Backed(c, Samples(c.segments, disk));
    }
  }

  lemma SameNames(segments: seq<Segment>, moved: seq<Segment>)
    requires |moved| == |segments| && forall i :: 0 <= i < |moved| ==> moved[i] == segments[i].(start := moved[i].start)
    ensures DistinctNames(moved) <==> DistinctNames(segments)
  {
  }

  lemma TiledIsSound(c: Cache, disk: Disk)
    requires c.cap > 0 && c.limit > 0 && c.disk == disk && !c.writing && c.buffer == [] && c.bytes == 2 * c.total
    requires Contiguous(c.segments, c.total) && c.total == SampleSum(c.segments) && DistinctNames(c.segments)
    requires |c.segments| > 0 ==> c.segments[0].start == 0
    requires forall s :: s in c.segments ==> s.complete && s.count == FileSize(disk, s.name) > 0
    ensures Inv(c, Samples(c.segments, disk))
  {
    hide DistinctNames, Contiguous, Samples, SampleSum, Live, FileSize;
    assert Accounted(c);
    SamplesLength(c.segments, disk);
    TiledIsBacked(c, disk);
    hide Backed, Accounted;
    TiledShape(c, disk);
    TiledIsLive(c);
  }

  lemma TiledIsBacked(c: Cache, disk: Disk)
    requires c.disk == disk && !c.writing && Contiguous(c.segments, c.total) && DistinctNames(c.segments)
    requires |c.segments| > 0 ==> c.segments[0].start == 0
    requires forall s :: s in c.segments ==> s.complete && s.count == FileSize(disk, s.name) > 0
    requires c.total == |Samples(c.segments, disk)|
    ensures Backed(c, Samples(c.segments, disk))
  {
    hide DistinctNames, Contiguous, Samples, FileSize, Content;
    forall i | 0 <= i < |c.segments|
      ensures c.segments[i].name in c.disk && c.segments[i].End() <= |Samples(c.segments, disk)|
      ensures Content(c, i) == Samples(c.segments, disk)[c.segments[i].start..c.segments[i].End()]
    {
      TiledIsSoundAt(c, disk, i);
    }
  }

  lemma TiledShape(c: Cache, disk: Disk)
    requires c.cap > 0 && c.limit > 0 && !c.writing && Contiguous(c.segments, c.total)
    requires c.total == SampleSum(c.segments)
    requires |c.segments| > 0 ==> c.segments[0].start == 0
    requires forall s :: s in c.segments ==> s.complete && s.count == FileSize(disk, s.name) > 0
    ensures Shape(c) && (|c.segments| == 0 ==> c.total == 0)
  {
    assert forall i :: 0 <= i < |c.segments| ==> c.segments[i] in c.segments;
    hide FileSize, Contiguous;
    forall i | 0 <= i < |c.segments| ensures c.segments[i].End() <= c.total {
      TiledEnd(c.segments, c.total, i);
    }
    TiledOrder(c);
  }

  lemma {:induction false} TiledEnd(segments: seq<Segment>, end: nat, i: nat)
    requires Contiguous(segments, end) && i < |segments|
    ensures segments[i].End() <= end
    decreases |segments| - i
  {
    assert segments[i].End() == Following(segments, i, end);
    if i + 1 < |segments| {
      TiledEnd(segments, end, i + 1);
    }
  }

  predicate SoundAt(c: Cache, disk: Disk, i: nat) {
    && i < |c.segments|
    && var s := c.segments[i];
    && s.count > 0 && s.complete && s.name in c.disk && s.End() <= |Samples(c.segments, disk)|
    && Content(c, i) == Samples(c.segments, disk)[s.start..s.End()]
  }

  lemma TiledIsSoundAt(c: Cache, disk: Disk, i: nat)
    requires c.disk == disk && !c.writing && Contiguous(c.segments, c.total) && i < |c.segments|
    requires c.segments[0].start == 0
    requires forall s :: s in c.segments ==> s.complete && s.count == FileSize(disk, s.name) > 0
    ensures SoundAt(c, disk, i)
  {
    hide Samples, Contiguous;
    assert c.segments[i] in c.segments;
    SamplesAt(c.segments, disk, c.total, i);
    var s := c.segments[i];
    assert s.count > 0 && s.name in c.disk && File(disk, s.name) == c.disk[s.name];
    hide FileSize, File;
    assert c.disk[s.name] + [] == c.disk[s.name];
  }

  lemma TiledIsLive(c: Cache)
    requires Shape(c) && Contiguous(c.segments, c.total)
    requires if |c.segments| > 0 then c.segments[0].start == 0 else c.total == 0
    ensures Live(c)
  {
    assert Covered(c, 0) by {
      if 0 < c.total {
        assert Holds(c, 0, 0);
      }
      forall i | 0 <= i < |c.segments| ensures NextStart(c, i) == c.segments[i].End() {
        assert c.segments[i].End() == Following(c.segments, i, c.total);
      }
    }
    StartBounds(c);
    CoveredFurther(c, 0, RetainedStart(c));
  }

  lemma TiledOrder(c: Cache)
    requires Contiguous(c.segments, c.total)
    requires forall i :: 0 <= i < |c.segments| ==> c.segments[i].count > 0 && c.segments[i].End() <= c.total
    ensures Ordered(c.segments, c.total)
  {
    forall i, j | 0 <= i < j < |c.segments| ensures c.segments[i].End() <= c.segments[j].start {
      TiledPair(c, i, j);
    }
  }

  lemma {:induction false} TiledPair(c: Cache, i: nat, j: nat)
    requires Contiguous(c.segments, c.total) && i < j < |c.segments|
    ensures c.segments[i].End() <= c.segments[j].start
    decreases j
  {
    assert c.segments[j - 1].End() == Following(c.segments, j - 1, c.total);
    if i < j - 1 {
      TiledPair(c, i, j - 1);
    }
  }

  // ---------------------------------------------------------------- when the identity is kept

  /** A listed segment that survived is found where and as long as it was. */
  predicate AsListed(segments: seq<Segment>, e: Segment) {
    exists i :: 0 <= i < |segments| && segments[i] == e.(complete := true)
  }

  /** Every listed segment that survived is as listed, and what is unlisted begins the recording. */
  predicate InPlace(m: Manifest, disk: Disk, segments: seq<Segment>) {
    && (forall e :: e in m.segments && FileSize(disk, e.name) > 0 ==> AsListed(segments, e))
    && (forall s :: s in segments && !Lists(m.segments, s.name) ==> s.start == 0)
  }

  /**
   * The identity is kept exactly if there was one, the audio format is the same, every
   * listed segment that survived lies where and as long as it did, and an unlisted one can
   * only begin the recording.
   */
  lemma IdentityKeptExactly(m: Manifest, audio: nat, cap: nat, limit: nat, disk: Disk, listing: seq<string>)
    requires NoRepeats(listing) && DistinctNames(m.segments)
    ensures var r := Recover(m, audio, cap, limit, disk, listing);
            r.timelineKept <==> m.timelineId != "" && m.audio == audio && InPlace(m, disk, r.cache.segments)
  {
    hide InPlace, Found, Rebase, CountsHold, SampleSum;
    var found := Found(m, disk, listing);
    if CountsHold(m.segments, disk) && Rebase(found, 0) == found {
      KeptIsInPlace(m, disk, listing);
    }
    if InPlace(m, disk, Rebase(found, 0)) {
      InPlaceIsKept(m, disk, listing);
    }
  }

  lemma KeptIsInPlace(m: Manifest, disk: Disk, listing: seq<string>)
    requires CountsHold(m.segments, disk) && Rebase(Found(m, disk, listing), 0) == Found(m, disk, listing)
    ensures InPlace(m, disk, Rebase(Found(m, disk, listing), 0))
  {
    var found := Found(m, disk, listing);
    SurvivorsAre(m.segments, disk);
    FoundIsOnDisk(m, disk, listing);
    forall e | e in m.segments && FileSize(disk, e.name) > 0 ensures AsListed(found, e) {
      FoundMembers(m, disk, listing, Repaired(e, disk));
      assert Repaired(e, disk) == e.(complete := true);
    }
    hide Found, Rebase;
    forall s | s in found && !Lists(m.segments, s.name) ensures s.start == 0 {
      UnlistedStart(m, disk, s);
    }
  }

  lemma InPlaceIsKept(m: Manifest, disk: Disk, listing: seq<string>)
    requires NoRepeats(listing) && DistinctNames(m.segments)
    requires InPlace(m, disk, Rebase(Found(m, disk, listing), 0))
    ensures CountsHold(m.segments, disk) && Rebase(Found(m, disk, listing), 0) == Found(m, disk, listing)
  {
    var found, segments := Found(m, disk, listing), Rebase(Found(m, disk, listing), 0);
    hide Found, Rebase, DistinctNames, Contiguous, SampleSum;
    RebaseTiles(found, 0);
    FoundIsOnDisk(m, disk, listing);
    SurvivorsDistinct(m.segments, disk);
    FoundDistinct(m, disk, listing);
    SameNames(found, segments);
    forall e | e in m.segments && FileSize(disk, e.name) > 0 ensures e.count == FileSize(disk, e.name) {
      assert AsListed(segments, e);
      var i :| 0 <= i < |segments| && segments[i] == e.(complete := true);
      assert found[i] in found;
    }
    forall i | 0 <= i < |found| ensures found[i] == segments[i] {
      assert found[i] in found && segments[i] in segments;
      if FromManifest(found[i], m, disk) {
        FoundAsListed(m, disk, found, segments, i);
      } else {
        NotListed(m, disk, listing, found[i]);
      }
    }
  }

  lemma NotListed(m: Manifest, disk: Disk, listing: seq<string>, s: Segment)
    requires s in Found(m, disk, listing) && !FromManifest(s, m, disk)
    ensures !Lists(m.segments, s.name)
  {
    hide Found;
    if Lists(m.segments, s.name) {
      ListedIsFromManifest(m, disk, listing, s);
    }
  }

  lemma UnlistedStart(m: Manifest, disk: Disk, s: Segment)
    requires FromManifest(s, m, disk) || s.start == 0
    requires !Lists(m.segments, s.name)
    ensures s.start == 0
  {
  }

  lemma FoundAsListed(m: Manifest, disk: Disk, found: seq<Segment>, segments: seq<Segment>, i: nat)
    requires |segments| == |found| && i < |found| && FromManifest(found[i], m, disk) && DistinctNames(segments)
    requires forall k :: 0 <= k < |found| ==> segments[k] == found[k].(start := segments[k].start)
    requires forall e :: e in m.segments && FileSize(disk, e.name) > 0 ==> AsListed(segments, e)
    ensures found[i] == segments[i]
  {
    var e :| e in m.segments && FileSize(disk, e.name) > 0 && found[i] == Repaired(e, disk);
    assert AsListed(segments, e);
    var j :| 0 <= j < |segments| && segments[j] == e.(complete := true);
    assert segments[i].name == segments[j].name;
  }

  /** A found segment whose file the manifest lists comes from the manifest. */
  lemma ListedIsFromManifest(m: Manifest, disk: Disk, listing: seq<string>, s: Segment)
    requires s in Found(m, disk, listing) && Lists(m.segments, s.name)
    ensures FromManifest(s, m, disk)
  {
    var tracked := Survivors(m.segments, disk);
    FoundMembers(m, disk, listing, s);
    FoundIsOnDisk(m, disk, listing);
    SurvivorsAre(m.segments, disk);
    UntrackedAre(listing, tracked, disk);
    hide Found, Survivors, Untracked;
    var e :| e in m.segments && e.name == s.name;
    assert Repaired(e, disk) in tracked && Lists(tracked, s.name);
    assert !IsUntracked(s.name, tracked, disk);
    var x :| x in m.segments && FileSize(disk, x.name) > 0 && s == Repaired(x, disk);
  }

  // ---------------------------------------------------------------- fixed ranges after recovery

  /**
   * A fixed range of the old recording that the recovered recorder still accepts, at any
   * later time, reads exactly the samples it stood for, as long as the identity was kept,
   * the recovery reached its end and it does not touch what nothing vouches for.
   */
  lemma KeptRangeReads(m: Manifest, audio: nat, cap: nat, limit: nat, disk: Disk, listing: seq<string>,
                       history: seq<Sample>, events: seq<Event>, a: nat, b: nat)
    requires cap > 0 && limit > 0 && NoRepeats(listing) && DistinctNames(Survivors(m.segments, disk))
    requires KeepsTimeline(m, audio, disk, listing) && ManifestDenotes(m, disk, history)
    requires a < b <= |history| && b <= SampleSum(Found(m, disk, listing)) && Unvouched(m, disk, listing) <= a
    ensures var c := Recover(m, audio, cap, limit, disk, listing).cache;
            && Inv(c, Samples(c.segments, disk))
            && var t := Run(Tape(c, Samples(c.segments, disk)), events);
            && (t.cache.writing ==> |t.cache.segments| > 0 && t.cache.Last().name in t.cache.disk)
            && var flushed := Flush(t.cache);
               (RetainedStart(flushed) <= a ==> ReadRange(SnapshotOf(flushed), flushed.disk, a, b) == Ok(history[a..b]))
  {
    hide Inv, Run, ManifestDenotes, RetainedStart, Survivors, Samples, Unvouched, Flush, SampleSum, Untracked, SortByIndex;
    var c := Recover(m, audio, cap, limit, disk, listing).cache;
    var samples := Samples(c.segments, disk);
    assert c.segments == Found(m, disk, listing);
    KeptTiling(m, audio, disk, listing);
    SamplesLength(c.segments, disk);
    PositionsKept(m, audio, disk, listing, a, b);
    RecoveryIsSound(m, audio, cap, limit, disk, listing);
    hide Recover, Found, KeepsTimeline;
    assert SameBetween(history, samples + AllRecorded(events), a, b);
    ReadsAs(c, samples, history, events, a, b);
  }

  lemma ReadsAs(c: Cache, samples: seq<Sample>, history: seq<Sample>, events: seq<Event>, a: nat, b: nat)
    requires Inv(c, samples) && a < b <= |history| && b <= |samples|
    requires SameBetween(history, samples + AllRecorded(events), a, b)
    ensures var t := Run(Tape(c, samples), events);
            && (t.cache.writing ==> |t.cache.segments| > 0 && t.cache.Last().name in t.cache.disk)
            && var flushed := Flush(t.cache);
               (RetainedStart(flushed) <= a ==> ReadRange(SnapshotOf(flushed), flushed.disk, a, b) == Ok(history[a..b]))
  {
    hide Inv, Run, RetainedStart, Flush, AllRecorded;
    var t := Run(Tape(c, samples), events);
    FlushedStart(t);
    assert (samples + AllRecorded(events))[a..b] == history[a..b];
    if RetainedStart(t.cache) <= a {
      WindowReadsHistory(Tape(c, samples), events, a, b);
    }
  }

  lemma FlushedStart(t: Tape)
    requires Inv(t.cache, t.history)
    ensures t.cache.writing ==> |t.cache.segments| > 0 && t.cache.Last().name in t.cache.disk
    ensures RetainedStart(Flush(t.cache)) == RetainedStart(t.cache)
  {
    CanFlush(t.cache, t.history);
    FlushKeeps(t.cache, t.history);
  }
}
