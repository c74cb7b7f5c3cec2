/**
 * The rolling segment cache as a value: the segment list, its counters, the files
 * on disk and the samples the open writer still buffers.
 *
 * Every operation of the recorder is given here as a function on that value. The
 * class in Recorder.dfy is proved to compute these functions; what they mean for
 * the history of pushed samples is proved in CacheWindow.dfy and CacheHistory.dfy.
 */
module SegmentCache {
  import opened Wrappers
  import opened SegmentNames

  datatype Segment = Segment(index: nat, name: string, start: nat, count: nat, complete: bool) {
    function End(): nat {
      start + count
    }
    predicate Overlaps(a: nat, b: nat) {
      start < b && End() > a
    }
  }

  type Disk = map<string, seq<Sample>>

  /**
   * cap     samples in a full segment
   * limit   replay limit in samples
   * writing whether the last segment has an open writer
   * buffer  what that writer has accepted and not yet written to its file
   * bytes   the running count of retained PCM bytes
   */
  datatype Cache = Cache(
    cap: nat,
    limit: nat,
    segments: seq<Segment>,
    total: nat,
    writing: bool,
    buffer: seq<Sample>,
    disk: Disk,
    bytes: nat)
  {
    function Last(): Segment
      requires |segments| > 0
    {
      segments[|segments| - 1]
    }
  }

  function Fresh(cap: nat, limit: nat): Cache {
    Cache(cap, limit, [], 0, false, [], map[], 0)
  }

  function Min(a: nat, b: nat): nat {
    if a < b then a else b
  }

  function Max(a: nat, b: nat): nat {
    if a < b then b else a
  }

  function SampleSum(segments: seq<Segment>): nat {
    if |segments| == 0 then 0 else segments[0].count + SampleSum(segments[1..])
  }

  // ---------------------------------------------------------------- live window

  /** How many leading segments start at or before the cutoff. */
  function LeadingStarts(segments: seq<Segment>, cutoff: nat): (k: nat)
    ensures k <= |segments|
    ensures forall i :: 0 <= i < k ==> segments[i].start <= cutoff
    ensures k < |segments| ==> segments[k].start > cutoff
  {
    if |segments| == 0 || segments[0].start > cutoff then 0
    else 1 + LeadingStarts(segments[1..], cutoff)
  }

  function RetainedStart(c: Cache): nat {
    if |c.segments| == 0 then c.total
    else if c.total < c.limit then c.segments[0].start
    else
      var cutoff := c.total - c.limit;
      var k := LeadingStarts(c.segments, cutoff);
      if k == 0 then c.segments[0].start
      else
        var s := c.segments[k - 1];
        if s.End() <= cutoff then if k < |c.segments| then c.segments[k].start else c.total
        else if !s.complete && c.writing then cutoff
        else s.End()
  }

  predicate HasExpired(c: Cache) {
    |c.segments| > 0 && c.segments[0].End() <= RetainedStart(c)
  }

  // ---------------------------------------------------------------- pushing

  /** The push loop never stalls: an open segment always has room. */
  predicate CanPush(c: Cache) {
    && c.cap > 0
    && (c.writing ==> |c.segments| > 0 && c.Last().count < c.cap && c.Last().name in c.disk)
  }

  function Remaining(c: Cache): nat {
    var used := if |c.segments| == 0 then 0 else c.Last().count;
    if c.cap < used then 0 else c.cap - used
  }

  /** The least index from the given one on whose file does not exist yet. */
  function FreshIndex(names: set<string>, index: nat): (i: nat)
    ensures index <= i
    ensures SegmentName(i) !in names
    ensures forall j :: index <= j < i ==> SegmentName(j) in names
    decreases |names|
  {
    if SegmentName(index) !in names then index
    else
      var i := FreshIndex(names - {SegmentName(index)}, index + 1);
      assert SegmentName(i) !in names by {
        if SegmentName(i) == SegmentName(index) {
          NamesAreDistinct(i, index);
        }
      }
      assert forall j :: index + 1 <= j < i ==> SegmentName(j) in names - {SegmentName(index)};
      i
  }

  function NextIndex(c: Cache): nat {
    FreshIndex(c.disk.Keys, if |c.segments| == 0 then 0 else c.Last().index + 1)
  }

  function EnsureSegment(c: Cache): Cache {
    if c.writing then c
    else
      var i := NextIndex(c);
      c.(segments := c.segments + [Segment(i, SegmentName(i), c.total, 0, false)],
         writing := true,
         buffer := [],
         disk := c.disk[SegmentName(i) := []])
  }

  /** Capacity of the writer's buffer, in samples (8 KiB). */
  const WRITER_SAMPLES: nat := 4096

  /**
   * A buffered write: an overflowing buffer is written out first, and a chunk of at
   * least the buffer's size bypasses it. Returns the file and the new buffer.
   */
  function WriteBuffered(file: seq<Sample>, buffer: seq<Sample>, chunk: seq<Sample>)
    : (r: (seq<Sample>, seq<Sample>))
    ensures r.0 + r.1 == file + buffer + chunk
    ensures file <= r.0
  {
    var flush := |buffer| + |chunk| > WRITER_SAMPLES;
    var file' := if flush then file + buffer else file;
    var buffer' := if flush then [] else buffer;
    if |chunk| >= WRITER_SAMPLES then (file' + chunk, buffer') else (file', buffer' + chunk)
  }

  /** Appends to the open segment. */
  function WriteSamples(c: Cache, chunk: seq<Sample>): Cache
    requires c.writing && |c.segments| > 0 && c.Last().name in c.disk
  {
    var last := c.Last();
    var w := WriteBuffered(c.disk[last.name], c.buffer, chunk);
    c.(segments := c.segments[|c.segments| - 1 := last.(count := last.count + |chunk|)],
       total := c.total + |chunk|,
       buffer := w.1,
       disk := c.disk[last.name := w.0],
       bytes := c.bytes + 2 * |chunk|)
  }

  /** Writes out what the open segment's writer buffers. */
  function Flush(c: Cache): Cache
    requires c.writing ==> |c.segments| > 0 && c.Last().name in c.disk
  {
    if c.writing then
      c.(disk := c.disk[c.Last().name := c.disk[c.Last().name] + c.buffer], buffer := [])
    else c
  }

  function CloseSegment(c: Cache): Cache
    requires c.writing && |c.segments| > 0 && c.Last().name in c.disk
  {
    var f := Flush(c);
    f.(segments := f.segments[|f.segments| - 1 := f.Last().(complete := true)], writing := false)
  }

  /** One turn of the push loop: as much as the open segment still takes. */
  function Turn(c: Cache, chunk: seq<Sample>): Cache
    requires CanPush(c)
  {
    var written := WriteSamples(EnsureSegment(c), chunk);
    if Remaining(written) == 0 then CloseSegment(written) else written
  }

  function TurnSize(c: Cache, available: nat): (n: nat)
    requires CanPush(c) && available > 0
    ensures 0 < n <= available && n <= Remaining(EnsureSegment(c))
  {
    Min(Remaining(EnsureSegment(c)), available)
  }

  function PushSamples(c: Cache, samples: seq<Sample>): Cache
    requires CanPush(c)
    decreases |samples|
  {
    if |samples| == 0 then c
    else
      var n := TurnSize(c, |samples|);
      PushSamples(Turn(c, samples[..n]), samples[n..])
  }

  lemma PushStep(c: Cache, samples: seq<Sample>, offset: nat)
    requires CanPush(c) && offset < |samples|
    ensures var n := TurnSize(c, |samples[offset..]|);
            && offset + n <= |samples|
            && CanPush(Turn(c, samples[offset..][..n]))
            && PushSamples(c, samples[offset..]) == PushSamples(Turn(c, samples[offset..][..n]), samples[offset + n..])
  {
    var n := TurnSize(c, |samples[offset..]|);
    assert samples[offset..][n..] == samples[offset + n..];
  }

  lemma PushNothing(c: Cache, samples: seq<Sample>)
    requires CanPush(c) && |samples| == 0
    ensures PushSamples(c, samples) == c
  {
  }

  // ---------------------------------------------------------------- trimming

  /**
   * What a walk over the segments leaves: the segments kept, the disk, the bytes
   * freed, and whether a file could not be deleted.
   */
  datatype Sweep = Sweep(kept: seq<Segment>, disk: Disk, freed: nat, failed: bool)

  predicate Disposable(s: Segment, pinned: set<string>, from: nat) {
    s.End() <= from && s.name !in pinned
  }

  predicate Blocked(s: Segment, disk: Disk, pinned: set<string>, locked: set<string>, from: nat) {
    Disposable(s, pinned, from) && s.name in disk && s.name in locked
  }

  /**
   * Deletes disposable segments from the front on. The first one whose file is locked
   * stops the walk: it and everything after it stay. A file that is already gone
   * counts as deleted.
   */
  function SweepExpired(segments: seq<Segment>, disk: Disk, pinned: set<string>, locked: set<string>, from: nat): Sweep
    decreases |segments|, 1
  {
    if |segments| == 0 then Sweep([], disk, 0, false)
    else
      var s := segments[0];
      if Blocked(s, disk, pinned, locked, from) then Sweep(segments, disk, 0, true)
      else
        var rest := SweepRest(segments, disk, pinned, locked, from);
        if Disposable(s, pinned, from) then rest.(freed := 2 * s.count + rest.freed)
        else rest.(kept := [s] + rest.kept)
  }

  /** The walk from the second segment on, once the first did not stop it. */
  function SweepRest(segments: seq<Segment>, disk: Disk, pinned: set<string>, locked: set<string>, from: nat): Sweep
    requires |segments| > 0
    decreases |segments|, 0
  {
    SweepExpired(segments[1..], AfterFirst(segments[0], disk, pinned, from), pinned, locked, from)
  }

  function AfterFirst(s: Segment, disk: Disk, pinned: set<string>, from: nat): Disk {
    if Disposable(s, pinned, from) then disk - {s.name} else disk
  }

  predicate Accounted(c: Cache) {
    c.bytes == 2 * SampleSum(c.segments)
  }

  /** The bytes freed are exactly those of the segments that went. */
  lemma {:induction false} SweepAccounts(segments: seq<Segment>, disk: Disk, pinned: set<string>, locked: set<string>,
                                         from: nat)
    ensures var w := SweepExpired(segments, disk, pinned, locked, from);
            2 * SampleSum(segments) == 2 * SampleSum(w.kept) + w.freed
  {
    if |segments| > 0 && !Blocked(segments[0], disk, pinned, locked, from) {
      var rest := SweepRest(segments, disk, pinned, locked, from);
      SweepAccounts(segments[1..], AfterFirst(segments[0], disk, pinned, from), pinned, locked, from);
      assert ([segments[0]] + rest.kept)[1..] == rest.kept;
    }
  }

  datatype Trimmed = Trimmed(cache: Cache, failed: bool)

  /** `locked` names the files that cannot be deleted at this moment. */
  function Trim(c: Cache, pinned: set<string>, locked: set<string>): Trimmed
    requires Accounted(c)
  {
    if !HasExpired(c) then Trimmed(c, false)
    else
      var w := SweepExpired(c.segments, c.disk, pinned, locked, RetainedStart(c));
      SweepAccounts(c.segments, c.disk, pinned, locked, RetainedStart(c));
      Trimmed(c.(segments := w.kept, disk := w.disk, bytes := c.bytes - w.freed), w.failed)
  }

  // ---------------------------------------------------------------- reading

  datatype ReadError = EmptyRange | RangeUnavailable | FileMissing | UnexpectedEof

  /** The part of one segment's file that falls into [a, b). */
  function ReadSegment(s: Segment, disk: Disk, a: nat, b: nat): Result<seq<Sample>, ReadError>
    requires a < b && s.Overlaps(a, b)
  {
    var from := Max(a, s.start);
    var to := Min(b, s.End());
    if s.name !in disk then Err(FileMissing)
    else if |disk[s.name]| < to - s.start then Err(UnexpectedEof)
    else Ok(disk[s.name][from - s.start..to - s.start])
  }

  function ReadSegments(segments: seq<Segment>, disk: Disk, a: nat, b: nat): Result<seq<Sample>, ReadError>
    requires a < b
  {
    if |segments| == 0 then Ok([])
    else if !segments[0].Overlaps(a, b) then ReadSegments(segments[1..], disk, a, b)
    else
      var here :- ReadSegment(segments[0], disk, a, b);
      var rest :- ReadSegments(segments[1..], disk, a, b);
      Ok(here + rest)
  }

  /** What an export or an upload holds on to: the list and the window, frozen. */
  datatype Snapshot = Snapshot(segments: seq<Segment>, total: nat, retainedStart: nat)

  function SnapshotOf(c: Cache): Snapshot {
    Snapshot(c.segments, c.total, RetainedStart(c))
  }

  function ReadRange(snapshot: Snapshot, disk: Disk, a: nat, b: nat): Result<seq<Sample>, ReadError> {
    if b <= a then Err(EmptyRange)
    else if a < snapshot.retainedStart || b > snapshot.total then Err(RangeUnavailable)
    else
      var samples :- ReadSegments(snapshot.segments, disk, a, b);
      if |samples| != b - a then Err(UnexpectedEof) else Ok(samples)
  }
}
