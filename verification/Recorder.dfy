/**
 * The segmented recorder in the form the program has it: an object whose fields are
 * updated in place. Every method is proved to compute the function of the same name
 * in SegmentCache.dfy, and to keep the cache equal to the recorded history.
 */
module Recorder {
  import opened Wrappers
  import opened SegmentNames
  import C = SegmentCache
  import W = CacheWindow
  import H = CacheHistory

  lemma JoinStep<T>(kept: seq<T>, x: T, s: seq<T>, i: nat)
    requires i < |s| && s[i] == x
    ensures kept + s[i..] == kept + [x] + s[i + 1..]
  {
  }

  lemma JoinRest<T>(kept: seq<T>, x: T, rest: seq<T>)
    ensures kept + ([x] + rest) == kept + [x] + rest
  {
  }

  /** One step of the walk in a trim, seen from its result. */
  lemma SweepStep(segments: seq<C.Segment>, i: nat, disk: C.Disk, pinned: set<string>, locked: set<string>, from: nat)
    requires i < |segments|
    ensures var s := segments[i];
            var all := C.SweepExpired(segments[i..], disk, pinned, locked, from);
            var rest := C.SweepExpired(segments[i + 1..], disk, pinned, locked, from);
            var gone := C.SweepExpired(segments[i + 1..], disk - {s.name}, pinned, locked, from);
            all == (if C.Blocked(s, disk, pinned, locked, from) then C.Sweep([s] + segments[i + 1..], disk, 0, true)
                    else if C.Disposable(s, pinned, from) then gone.(freed := 2 * s.count + gone.freed)
                    else rest.(kept := [s] + rest.kept))
  {
    assert segments[i..][1..] == segments[i + 1..];
    assert [segments[i]] + segments[i + 1..] == segments[i..];
  }

  lemma SweepEnd(segments: seq<C.Segment>, disk: C.Disk, pinned: set<string>, locked: set<string>, from: nat)
    ensures C.SweepExpired(segments[|segments|..], disk, pinned, locked, from) == C.Sweep([], disk, 0, false)
    ensures segments[|segments|..] == [] && segments[0..] == segments
  {
  }

  class SegmentedRecorder {
    const cap: nat
    const limit: nat
    var segments: seq<C.Segment>
    var total: nat
    var writing: bool
    var buffer: seq<Sample>
    var disk: C.Disk
    var bytes: nat
    ghost var history: seq<Sample>

    ghost function View(): C.Cache
      reads this
    {
      C.Cache(cap, limit, segments, total, writing, buffer, disk, bytes)
    }

    ghost predicate Valid()
      reads this
    {
      H.Inv(View(), history)
    }

    constructor (cap: nat, limit: nat)
      requires cap > 0 && limit > 0
      ensures Valid()
      ensures View() == C.Fresh(cap, limit) && history == []
    {
      this.cap, this.limit := cap, limit;
      segments, total, writing, buffer, disk, bytes := [], 0, false, [], map[], 0;
      history := [];
      new;
      H.FreshInv(cap, limit);
    }

    /** A recorder over segments found on disk, with no open segment. */
    constructor Recovered(cap: nat, limit: nat, segments: seq<C.Segment>, total: nat, disk: C.Disk,
                          ghost history: seq<Sample>)
      requires H.Inv(C.Cache(cap, limit, segments, total, false, [], disk, 2 * total), history)
      ensures Valid() && this.history == history
      ensures View() == C.Cache(cap, limit, segments, total, false, [], disk, 2 * total)
    {
      this.cap, this.limit, this.segments, this.total, this.disk := cap, limit, segments, total, disk;
      writing, buffer, bytes := false, [], 2 * total;
      this.history := history;
    }

    /** Binary search for the number of leading segments that start by the cutoff. */
    static method PartitionPoint(segments: seq<C.Segment>, total: nat, cutoff: nat) returns (lo: nat)
      requires W.Ordered(segments, total)
      ensures lo == C.LeadingStarts(segments, cutoff)
    {
      lo := 0;
      var hi := |segments|;
      while lo < hi
        invariant lo <= hi <= |segments|
        invariant forall i :: 0 <= i < lo ==> segments[i].start <= cutoff
        invariant forall i :: hi <= i < |segments| ==> segments[i].start > cutoff
      {
        var mid := (lo + hi) / 2;
        if segments[mid].start <= cutoff {
          assert forall i :: 0 <= i < mid ==> segments[i].End() <= segments[mid].start;
          lo := mid + 1;
        } else {
          assert forall i :: mid < i < |segments| ==> segments[mid].End() <= segments[i].start;
          hi := mid;
        }
      }
      W.LeadingIs(segments, cutoff, lo);
    }

    /** Where the live window starts; reads the list and the counters only. */
    method RetainedStartSample() returns (start: nat)
      requires Valid()
      ensures start == C.RetainedStart(View())
    {
      if |segments| == 0 {
        return total;
      }
      if total < limit {
        return segments[0].start;
      }
      var cutoff := total - limit;
      var lo := PartitionPoint(segments, total, cutoff);
      if lo == 0 {
        return segments[0].start;
      }
      var segment := segments[lo - 1];
      if segment.End() <= cutoff {
        return if lo < |segments| then segments[lo].start else total;
      }
      if !segment.complete && writing {
        return cutoff;
      }
      return segment.End();
    }

    method HasExpiredSegments() returns (expired: bool)
      requires Valid()
      ensures expired == C.HasExpired(View())
    {
      if |segments| == 0 {
        return false;
      }
      var start := RetainedStartSample();
      return segments[0].End() <= start;
    }

    /** Opens the next segment file under the first name that is still free. */
    method EnsureCurrentSegment()
      requires C.CanPush(View())
      modifies this
      ensures View() == C.EnsureSegment(old(View())) && history == old(history)
    {
      if writing {
        return;
      }
      var first := if |segments| == 0 then 0 else segments[|segments| - 1].index + 1;
      var index := first;
      ghost var free := C.NextIndex(View());
      while SegmentName(index) in disk
        invariant first <= index <= free
        decreases free - index
      {
        index := index + 1;
      }
      segments := segments + [C.Segment(index, SegmentName(index), total, 0, false)];
      writing, buffer := true, [];
      disk := disk[SegmentName(index) := []];
    }

    method WriteSamplesToCurrent(samples: seq<Sample>)
      requires writing && |segments| > 0 && segments[|segments| - 1].name in disk
      modifies this
      ensures View() == C.WriteSamples(old(View()), samples) && history == old(history)
    {
      var last := segments[|segments| - 1];
      if |buffer| + |samples| > C.WRITER_SAMPLES {
        disk := disk[last.name := disk[last.name] + buffer];
        buffer := [];
      }
      if |samples| >= C.WRITER_SAMPLES {
        disk := disk[last.name := disk[last.name] + samples];
      } else {
        buffer := buffer + samples;
      }
      segments := segments[|segments| - 1 := last.(count := last.count + |samples|)];
      total := total + |samples|;
      bytes := bytes + 2 * |samples|;
      assert disk == C.WriteSamples(old(View()), samples).disk;
    }

    method Flush()
      requires writing ==> |segments| > 0 && segments[|segments| - 1].name in disk
      modifies this
      ensures View() == C.Flush(old(View())) && history == old(history)
      ensures old(Valid()) ==> Valid()
    {
      if old(Valid()) {
        H.FlushKeeps(View(), history);
      }
      if writing {
        var name := segments[|segments| - 1].name;
        disk := disk[name := disk[name] + buffer];
        buffer := [];
      }
    }

    method CloseCurrentSegment()
      requires writing && |segments| > 0 && segments[|segments| - 1].name in disk
      modifies this
      ensures View() == C.CloseSegment(old(View())) && history == old(history)
    {
      Flush();
      segments := segments[|segments| - 1 := segments[|segments| - 1].(complete := true)];
      writing := false;
    }

    method RemainingInCurrentSegment() returns (n: nat)
      ensures n == C.Remaining(View())
    {
      var used := if |segments| == 0 then 0 else segments[|segments| - 1].count;
      n := if cap < used then 0 else cap - used;
    }

    /** One turn of the push loop: at least one sample goes into the current segment. */
    method PushTurn(samples: seq<Sample>) returns (count: nat)
      requires C.CanPush(View()) && |samples| > 0
      modifies this
      ensures 0 < count <= |samples| && count == C.TurnSize(old(View()), |samples|)
      ensures View() == C.Turn(old(View()), samples[..count]) && C.CanPush(View())
      ensures history == old(history)
    {
      EnsureCurrentSegment();
      var remaining := RemainingInCurrentSegment();
      count := C.Min(remaining, |samples|);
      WriteSamplesToCurrent(samples[..count]);
      remaining := RemainingInCurrentSegment();
      if remaining == 0 {
        CloseCurrentSegment();
      }
    }

    /** Appends samples, opening and closing segments as they fill. */
    method PushSamplesDeferTrim(samples: seq<Sample>)
      requires Valid()
      modifies this
      ensures Valid() && history == old(history) + samples
      ensures C.CanPush(old(View())) && View() == C.PushSamples(old(View()), samples)
    {
      hide H.Inv, C.CanPush, C.Turn, C.TurnSize, C.PushSamples;
      ghost var before := View();
      H.PushKeeps(before, history, samples);
      var offset := 0;
      while offset < |samples|
        invariant offset <= |samples|
        invariant C.CanPush(View()) && history == old(history)
        invariant C.PushSamples(before, samples) == C.PushSamples(View(), samples[offset..])
      {
        C.PushStep(View(), samples, offset);
        var count := PushTurn(samples[offset..]);
        offset := offset + count;
      }
      C.PushNothing(View(), samples[offset..]);
      history := history + samples;
    }

    /**
     * Deletes expired segments other than pinned ones, oldest first. A file that cannot
     * be deleted stops the walk; the list, the byte count and the window stay sound.
     */
    method TrimExpiredSegmentsExcept(pinned: set<string>, locked: set<string>) returns (failed: bool)
      requires Valid()
      modifies this
      ensures Valid() && history == old(history)
      ensures C.Trim(old(View()), pinned, locked) == C.Trimmed(View(), failed)
      ensures C.RetainedStart(View()) == old(C.RetainedStart(View()))
    {
      hide H.Inv, C.RetainedStart, C.HasExpired, C.SweepExpired, C.SampleSum;
      ghost var before := View();
      H.TrimKeeps(before, history, pinned, locked);
      var expired := HasExpiredSegments();
      if !expired {
        return false;
      }
      var from := RetainedStartSample();
      ghost var sweep := C.SweepExpired(segments, disk, pinned, locked, from);
      C.SweepAccounts(segments, disk, pinned, locked, from);
      var kept: seq<C.Segment> := [];
      var freed: nat := 0;
      failed := false;
      var i := 0;
      SweepEnd(segments, disk, pinned, locked, from);
      while i < |segments|
        invariant i <= |segments| && View() == before.(disk := disk) && history == old(history)
        invariant failed ==> sweep == C.Sweep(kept + segments[i..], disk, freed, true)
        invariant !failed ==>
            var rest := C.SweepExpired(segments[i..], disk, pinned, locked, from);
            sweep == C.Sweep(kept + rest.kept, rest.disk, freed + rest.freed, rest.failed)
      {
        var segment := segments[i];
        SweepStep(segments, i, disk, pinned, locked, from);
        JoinStep(kept, segment, segments, i);
        JoinRest(kept, segment, C.SweepExpired(segments[i + 1..], disk, pinned, locked, from).kept);
        if failed || segment.End() > from || segment.name in pinned {
          kept := kept + [segment];
        } else if segment.name in disk && segment.name in locked {
          failed := true;
          kept := kept + [segment];
        } else {
          disk := disk - {segment.name};
          freed := freed + 2 * segment.count;
        }
        i := i + 1;
      }
      SweepEnd(segments, disk, pinned, locked, from);
      assert kept + [] == kept;
      segments := kept;
      bytes := bytes - freed;
    }

    /** Appends and trims: what a recorder without exports does on every callback. */
    method PushSamples(samples: seq<Sample>, locked: set<string>) returns (failed: bool)
      requires Valid()
      modifies this
      ensures Valid() && history == old(history) + samples
      ensures C.CanPush(old(View())) && C.Accounted(C.PushSamples(old(View()), samples))
      ensures C.Trim(C.PushSamples(old(View()), samples), {}, locked) == C.Trimmed(View(), failed)
      ensures !failed ==> !C.HasExpired(View())
    {
      PushSamplesDeferTrim(samples);
      W.TrimClears(View(), {}, locked);
      failed := TrimExpiredSegmentsExcept({}, locked);
      assert |segments| > 0 ==> segments[0] in View().segments;
    }

    method Snapshot() returns (snapshot: C.Snapshot)
      requires Valid()
      modifies this
      ensures Valid() && history == old(history)
      ensures View() == C.Flush(old(View())) && snapshot == C.SnapshotOf(View())
      ensures H.Frozen(snapshot.segments, disk, history)
    {
      H.FlushFreezes(View(), history);
      Flush();
      var start := RetainedStartSample();
      snapshot := C.Snapshot(segments, total, start);
    }
  }

  type ReadResult = Result<seq<Sample>, C.ReadError>

  function Prepend(output: seq<Sample>, rest: ReadResult): ReadResult {
    match rest
    case Err(e) => Err(e)
    case Ok(samples) => Ok(output + samples)
  }

  lemma PrependTwice(x: seq<Sample>, y: seq<Sample>, rest: ReadResult)
    ensures Prepend(x, Prepend(y, rest)) == Prepend(x + y, rest)
    ensures Prepend([], rest) == rest
  {
    if rest.Ok? {
      assert x + (y + rest.value) == (x + y) + rest.value;
      assert [] + rest.value == rest.value;
    }
  }

  lemma ReadStep(segments: seq<C.Segment>, i: nat, disk: C.Disk, a: nat, b: nat)
    requires i < |segments| && a < b
    ensures var rest := C.ReadSegments(segments[i + 1..], disk, a, b);
            var s := segments[i];
            C.ReadSegments(segments[i..], disk, a, b) ==
            (if !s.Overlaps(a, b) then rest
             else if C.ReadSegment(s, disk, a, b).Err? then C.ReadSegment(s, disk, a, b)
             else Prepend(C.ReadSegment(s, disk, a, b).value, rest))
  {
    assert segments[i..][1..] == segments[i + 1..];
  }

  /**
   * Reads an exact sample range from a snapshot, one segment file after another. What
   * the result is worth is proved in CacheHistory.ReadIsExact.
   */
  method ReadRangeI16(snapshot: C.Snapshot, disk: C.Disk, a: nat, b: nat)
    returns (result: ReadResult)
    ensures result == C.ReadRange(snapshot, disk, a, b)
  {
    if b <= a {
      return Err(C.EmptyRange);
    }
    if a < snapshot.retainedStart || b > snapshot.total {
      return Err(C.RangeUnavailable);
    }
    var segments := snapshot.segments;
    ghost var all := C.ReadSegments(segments, disk, a, b);
    var output: seq<Sample> := [];
    var i := 0;
    assert segments[0..] == segments;
    PrependTwice([], [], all);
    while i < |segments|
      invariant i <= |segments|
      invariant all == Prepend(output, C.ReadSegments(segments[i..], disk, a, b))
    {
      var segment := segments[i];
      ReadStep(segments, i, disk, a, b);
      ghost var rest := C.ReadSegments(segments[i + 1..], disk, a, b);
      if segment.Overlaps(a, b) {
        var from, to := C.Max(a, segment.start), C.Min(b, segment.End());
        if segment.name !in disk {
          return Err(C.FileMissing);
        }
        if |disk[segment.name]| < to - segment.start {
          return Err(C.UnexpectedEof);
        }
        PrependTwice(output, disk[segment.name][from - segment.start..to - segment.start], rest);
        output := output + disk[segment.name][from - segment.start..to - segment.start];
      }
      i := i + 1;
    }
    assert segments[i..] == [];
    assert output + [] == output;
    if |output| != b - a {
      return Err(C.UnexpectedEof);
    }
    return Ok(output);
  }
}
