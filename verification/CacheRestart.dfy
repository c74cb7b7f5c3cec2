/**
 * Restarting on what the recorder itself left: its list stays in the order of the file
 * names, so a recovery from its own manifest and files finds the same recording again.
 */
module CacheRestart {
  import opened Wrappers
  import opened SegmentNames
  import opened SegmentCache
  import opened CacheWindow
  import opened CacheHistory
  import opened Recovery

  /** The list is in the order of the indexes that the files are named by. */
  predicate Indexed(segments: seq<Segment>) {
    && (forall i, j :: 0 <= i < j < |segments| ==> segments[i].index < segments[j].index)
    && forall i :: 0 <= i < |segments| ==> segments[i].name == SegmentName(segments[i].index)
  }

  lemma TurnKeepsIndexed(c: Cache, chunk: seq<Sample>)
    requires CanPush(c) && Indexed(c.segments)
    ensures Indexed(Turn(c, chunk).segments)
  {
    hide SegmentName, WriteBuffered;
  }

  lemma {:induction false} PushKeepsIndexed(c: Cache, samples: seq<Sample>)
    requires CanPush(c) && Indexed(c.segments)
    ensures Indexed(PushSamples(c, samples).segments)
    decreases |samples|
  {
    if |samples| > 0 {
      hide Indexed, Turn;
      var n := TurnSize(c, |samples|);
      TurnKeepsIndexed(c, samples[..n]);
      TurnCanPush(c, samples[..n]);
      PushKeepsIndexed(Turn(c, samples[..n]), samples[n..]);
    }
  }

  lemma TurnCanPush(c: Cache, chunk: seq<Sample>)
    requires CanPush(c) && 0 < |chunk| <= Remaining(EnsureSegment(c))
    ensures CanPush(Turn(c, chunk))
  {
    hide NextIndex, WriteBuffered;
  }

  lemma {:induction false} SweepKeepsIndexed(segments: seq<Segment>, disk: Disk, pinned: set<string>,
                                             locked: set<string>, from: nat)
    requires Indexed(segments)
    ensures Indexed(SweepExpired(segments, disk, pinned, locked, from).kept)
  {
    if |segments| > 0 && !Blocked(segments[0], disk, pinned, locked, from) {
      hide SegmentName;
      var s, rest := segments[0], segments[1..];
      assert forall i :: 0 <= i < |rest| ==> rest[i] == segments[i + 1];
      var disk' := AfterFirst(s, disk, pinned, from);
      SweepKeepsIndexed(rest, disk', pinned, locked, from);
      SweepKeepsSome(rest, disk', pinned, locked, from);
      IndexedCons(s, rest, SweepRest(segments, disk, pinned, locked, from).kept);
    }
  }

  lemma IndexedCons(s: Segment, rest: seq<Segment>, kept: seq<Segment>)
    requires Indexed(kept) && s.name == SegmentName(s.index)
    requires forall i :: 0 <= i < |rest| ==> s.index < rest[i].index
    requires forall x :: x in kept ==> x in rest
    ensures Indexed([s] + kept)
  {
    hide SegmentName;
    var all := [s] + kept;
    assert forall i :: 0 < i < |all| ==> all[i] == kept[i - 1] && all[i] in kept;
  }

  /** Every run keeps the list in the order of its indexes: new files are named behind all listed ones. */
  lemma {:induction false} RunKeepsIndexed(t: Tape, events: seq<Event>)
    requires Inv(t.cache, t.history) && Indexed(t.cache.segments)
    ensures Indexed(Run(t, events).cache.segments)
    decreases |events|
  {
    if |events| > 0 {
      StepKeepsIndexed(t, events[0]);
      hide Indexed, Inv, Step;
      RunKeepsIndexed(Step(t, events[0]), events[1..]);
    }
  }

  lemma StepKeepsIndexed(t: Tape, e: Event)
    requires Inv(t.cache, t.history) && Indexed(t.cache.segments)
    ensures Indexed(Step(t, e).cache.segments)
  {
    InvCanPush(t.cache, t.history);
    match e
    case Push(samples) => PushKeepsIndexed(t.cache, samples);
    case PushAndTrim(samples, locked) =>
      PushKeeps(t.cache, t.history, samples);
      PushKeepsIndexed(t.cache, samples);
      TrimKeepsIndexed(PushSamples(t.cache, samples), t.history + samples, {}, locked);
    case TrimExcept(pinned, locked) => TrimKeepsIndexed(t.cache, t.history, pinned, locked);
    case FlushWriter =>
  }

  lemma TrimKeepsIndexed(c: Cache, history: seq<Sample>, pinned: set<string>, locked: set<string>)
    requires Inv(c, history) && Indexed(c.segments)
    ensures Indexed(Trim(c, pinned, locked).cache.segments)
  {
    hide Indexed, SweepExpired, RetainedStart;
    SweepKeepsIndexed(c.segments, c.disk, pinned, locked, RetainedStart(c));
  }

  // ---------------------------------------------------------------- recovering one's own files

  /** The manifest that a recorder writes of itself. */
  function ManifestOf(c: Cache, timelineId: string, audio: nat): Manifest {
    Manifest(timelineId, audio, c.segments, c.total)
  }

  function Closed(segments: seq<Segment>): seq<Segment> {
    seq(|segments|, i requires 0 <= i < |segments| => segments[i].(complete := true))
  }

  lemma {:induction false} AllSurvive(segments: seq<Segment>, disk: Disk)
    requires forall i :: 0 <= i < |segments| ==> FileSize(disk, segments[i].name) == segments[i].count > 0
    ensures Survivors(segments, disk) == Closed(segments)
  {
    if |segments| > 0 {
      var rest := segments[1..];
      assert forall i :: 0 <= i < |rest| ==> rest[i] == segments[i + 1];
      AllSurvive(rest, disk);
      assert Closed(segments) == [segments[0].(complete := true)] + Closed(rest);
    }
  }

  lemma {:induction false} NoneUntracked(listing: seq<string>, tracked: seq<Segment>, disk: Disk)
    requires forall name :: name in listing ==> Lists(tracked, name)
    ensures Untracked(listing, tracked, disk) == []
  {
    if |listing| > 0 {
      assert listing[0] in listing && forall name :: name in listing[1..] ==> name in listing;
      NoneUntracked(listing[1..], tracked, disk);
    }
  }

  lemma {:induction false} SortSorted(segments: seq<Segment>)
    requires forall i, j :: 0 <= i < j < |segments| ==> segments[i].index <= segments[j].index
    ensures SortByIndex(segments) == segments
  {
    if |segments| > 0 {
      var rest := segments[1..];
      assert forall i :: 0 <= i < |rest| ==> rest[i] == segments[i + 1];
      SortSorted(rest);
      assert segments == [segments[0]] + rest;
    }
  }

  /** The list tiles a recording from sample 0 on: nothing was trimmed from its front or its middle. */
  predicate Whole(segments: seq<Segment>) {
    Contiguous(segments, SampleSum(segments)) && (|segments| > 0 ==> segments[0].start == 0)
  }

  lemma {:induction false} RebaseSame(segments: seq<Segment>, start: nat, end: nat)
    requires Contiguous(segments, end) && (|segments| > 0 ==> segments[0].start == start)
    ensures Rebase(segments, start) == segments
  {
    if |segments| > 0 {
      ContiguousRest(segments, end);
      assert segments[0].End() == Following(segments, 0, end);
      RebaseSame(segments[1..], start + segments[0].count, end);
      assert segments == [segments[0]] + segments[1..];
    }
  }

  /** What is found of one's own files is one's own list. */
  lemma FoundIsOwn(c: Cache, history: seq<Sample>, timelineId: string, audio: nat, listing: seq<string>)
    requires Inv(c, history) && Indexed(c.segments) && (c.writing ==> c.buffer == [])
    requires forall name :: name in listing ==> Lists(c.segments, name)
    ensures Found(ManifestOf(c, timelineId, audio), c.disk, listing) == Closed(c.segments)
    ensures CountsHold(c.segments, c.disk)
  {
    FilesAre(c, history);
    hide Inv, Indexed, Survivors, Untracked, SortByIndex, FileSize;
    AllSurvive(c.segments, c.disk);
    var closed := Closed(c.segments);
    NamedAlike(c.segments, listing);
    NoneUntracked(listing, closed, c.disk);
    assert closed + [] == closed;
    IndexesRise(c.segments);
    SortSorted(closed);
  }

  /**
   * A restart on one's own files. A recorder that was flushed is recovered from the
   * manifest of that moment with the same segments, laid out from sample 0. The identity is
   * kept exactly if they lay so before, and then, unless the window was empty, the
   * recording goes on where it stood.
   */
  lemma RestartsExactly(c: Cache, history: seq<Sample>, timelineId: string, audio: nat, listing: seq<string>)
    requires Inv(c, history) && Indexed(c.segments) && (c.writing ==> c.buffer == [])
    requires timelineId != ""
    requires forall name :: name in listing ==> Lists(c.segments, name)
    ensures var r := Recover(ManifestOf(c, timelineId, audio), audio, c.cap, c.limit, c.disk, listing);
            && |r.cache.segments| == |c.segments| && r.cache.total == SampleSum(c.segments)
            && (forall i :: 0 <= i < |c.segments| ==>
                  r.cache.segments[i] == c.segments[i].(complete := true, start := r.cache.segments[i].start))
            && (r.timelineKept <==> Whole(c.segments))
            && (r.timelineKept ==> r.cache.segments == Closed(c.segments))
            && (r.timelineKept && RetainedStart(c) < c.total ==> r.cache.total == c.total)
  {
    FoundIsOwn(c, history, timelineId, audio, listing);
    hide Inv, Indexed, Found, Contiguous, CountsHold, RetainedStart, SampleSum, Rebase;
    var closed := Closed(c.segments);
    RebaseTiles(closed, 0);
    ClosedSum(c.segments);
    ClosedAlike(c.segments);
    if Whole(c.segments) {
      RebaseSame(closed, 0, SampleSum(closed));
      if RetainedStart(c) < c.total {
        EndsAtTotal(c, history);
      }
    }
  }

  lemma ClosedAlike(segments: seq<Segment>)
    ensures Contiguous(Closed(segments), SampleSum(segments)) <==> Contiguous(segments, SampleSum(segments))
  {
    var closed := Closed(segments);
    assert forall i :: 0 <= i < |segments| ==>
             closed[i].End() == segments[i].End()
             && Following(closed, i, SampleSum(segments)) == Following(segments, i, SampleSum(segments));
  }

  lemma EndsAtTotal(c: Cache, history: seq<Sample>)
    requires Inv(c, history) && RetainedStart(c) < c.total && Whole(c.segments)
    ensures SampleSum(c.segments) == c.total
  {
    hide RetainedStart, Accounted, Backed;
    var i :| 0 <= i < |c.segments| && Holds(c, i, RetainedStart(c));
    var last := |c.segments| - 1;
    if i < last {
      Before(c.segments, c.total, i, last);
    }
    assert NextStart(c, last) == c.segments[last].End() == Following(c.segments, last, SampleSum(c.segments));
  }

  lemma FilesAre(c: Cache, history: seq<Sample>)
    requires Inv(c, history) && (c.writing ==> c.buffer == [])
    ensures forall i :: 0 <= i < |c.segments| ==> FileSize(c.disk, c.segments[i].name) == c.segments[i].count > 0
  {
    hide Covered, RetainedStart, Accounted;
    forall i | 0 <= i < |c.segments| ensures FileSize(c.disk, c.segments[i].name) == c.segments[i].count > 0 {
      assert Content(c, i) == history[c.segments[i].start..c.segments[i].End()];
      InRange(c.segments, c.total, i);
    }
  }

  lemma NamedAlike(segments: seq<Segment>, listing: seq<string>)
    requires forall name :: name in listing ==> Lists(segments, name)
    ensures forall name :: name in listing ==> Lists(Closed(segments), name)
  {
    forall name | name in listing ensures Lists(Closed(segments), name) {
      var s :| s in segments && s.name == name;
      var i :| 0 <= i < |segments| && segments[i] == s;
      assert Closed(segments)[i] in Closed(segments);
    }
  }

  lemma IndexesRise(segments: seq<Segment>)
    requires Indexed(segments)
    ensures forall i, j :: 0 <= i < j < |segments| ==> Closed(segments)[i].index <= Closed(segments)[j].index
  {
  }

  lemma {:induction false} ClosedSum(segments: seq<Segment>)
    ensures SampleSum(Closed(segments)) == SampleSum(segments)
  {
    if |segments| > 0 {
      ClosedSum(segments[1..]);
      assert Closed(segments)[1..] == Closed(segments[1..]);
    }
  }
}
