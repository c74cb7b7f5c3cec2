/**
 * The cache against one plain sequence: the history of every sample ever pushed.
 * Segment files, buffered samples, trims and gaps together always denote a slice of
 * that history, and a read inside the live window returns exactly the slice asked for.
 */
module CacheHistory {
  import opened Wrappers
  import opened SegmentCache
  import opened CacheWindow
  import opened ClosedWindow

  predicate DistinctNames(segments: seq<Segment>) {
    forall i, j :: 0 <= i < j < |segments| ==> segments[i].name != segments[j].name
  }

  /** What segment i holds: its file, and for the open one what the writer buffers. */
  function Content(c: Cache, i: nat): seq<Sample>
    requires i < |c.segments| && c.segments[i].name in c.disk
  {
    c.disk[c.segments[i].name] + (if c.writing && i == |c.segments| - 1 then c.buffer else [])
  }

  predicate Backed(c: Cache, history: seq<Sample>) {
    && c.total == |history|
    && DistinctNames(c.segments)
    && (forall i :: 0 <= i < |c.segments| ==>
          && c.segments[i].name in c.disk
          && c.segments[i].End() <= |history|
          && Content(c, i) == history[c.segments[i].start..c.segments[i].End()])
  }

  /** The invariant of the recorder. */
  predicate Inv(c: Cache, history: seq<Sample>) {
    Live(c) && Accounted(c) && Backed(c, history)
  }

  lemma FreshInv(cap: nat, limit: nat)
    requires cap > 0 && limit > 0
    ensures Inv(Fresh(cap, limit), [])
  {
  }

  // ---------------------------------------------------------------- pushing

  lemma TurnKeepsHistory(c: Cache, history: seq<Sample>, chunk: seq<Sample>)
    requires Inv(c, history) && CanPush(c)
    requires 0 < |chunk| <= Remaining(EnsureSegment(c))
    ensures Backed(Turn(c, chunk), history + chunk)
  {
    var e := EnsureSegment(c);
    EnsureKeepsHistory(c, history);
    WriteKeepsHistory(e, history, chunk);
    var w := WriteSamples(e, chunk);
    if Remaining(w) == 0 {
      CloseKeepsHistory(w, history + chunk);
    }
  }

  lemma EnsureKeepsHistory(c: Cache, history: seq<Sample>)
    requires Shape(c) && Backed(c, history)
    ensures var e := EnsureSegment(c);
            Backed(e, history) && e.writing && |e.segments| > 0 && e.Last().End() == e.total
  {
    var e := EnsureSegment(c);
    if !c.writing {
      assert history[c.total..c.total] == [];
      forall i | 0 <= i < |c.segments| ensures e.segments[i].name != e.Last().name {
        assert c.segments[i].name in c.disk.Keys;
      }
      assert forall i :: 0 <= i < |c.segments| ==> e.segments[i] == c.segments[i];
    }
  }

  lemma WriteKeepsHistory(c: Cache, history: seq<Sample>, chunk: seq<Sample>)
    requires Backed(c, history) && c.writing && |c.segments| > 0 && c.Last().End() == c.total
    ensures Backed(WriteSamples(c, chunk), history + chunk)
  {
    var w := WriteSamples(c, chunk);
    var n := |c.segments| - 1;
    var h := history + chunk;
    forall i | 0 <= i < |w.segments|
      ensures w.segments[i].name in w.disk
      ensures Content(w, i) == h[w.segments[i].start..w.segments[i].End()]
    {
      if i < n {
        assert Content(w, i) == Content(c, i);
      } else {
        assert Content(w, n) == Content(c, n) + chunk;
      }
    }
  }

  lemma FlushKeepsHistory(c: Cache, history: seq<Sample>)
    requires Backed(c, history) && (c.writing ==> |c.segments| > 0)
    ensures Backed(Flush(c), history)
  {
    var f := Flush(c);
    forall i | 0 <= i < |f.segments| ensures f.segments[i].name in f.disk && Content(f, i) == Content(c, i) {
    }
  }

  lemma CloseKeepsHistory(c: Cache, history: seq<Sample>)
    requires Backed(c, history) && c.writing && |c.segments| > 0
    ensures Backed(CloseSegment(c), history)
  {
    FlushKeepsHistory(c, history);
    var f := Flush(c);
    var d := CloseSegment(c);
    forall i | 0 <= i < |d.segments| ensures d.segments[i].name in d.disk && Content(d, i) == Content(f, i) {
    }
  }

  lemma InvCanPush(c: Cache, history: seq<Sample>)
    requires Inv(c, history)
    ensures CanPush(c)
  {
  }

  lemma TurnKeeps(c: Cache, history: seq<Sample>, chunk: seq<Sample>)
    requires Inv(c, history) && CanPush(c)
    requires 0 < |chunk| <= Remaining(EnsureSegment(c))
    ensures var c' := Turn(c, chunk);
            && Inv(c', history + chunk) && RetainedStart(c') >= RetainedStart(c)
            && c'.cap == c.cap && c'.limit == c.limit
            && CanPush(c')
            && (Closed(c) ==> Closed(c'))
  {
    TurnKeepsWindow(c, chunk);
    TurnKeepsHistory(c, history, chunk);
    TurnGrows(c, chunk);
    if Closed(c) {
      TurnKeepsClosed(c, chunk);
    }
  }

  lemma {:induction false} PushRun(c: Cache, history: seq<Sample>, samples: seq<Sample>)
    returns (c': Cache)
    requires Inv(c, history) && CanPush(c)
    ensures c' == PushSamples(c, samples)
    ensures Inv(c', history + samples) && RetainedStart(c') >= RetainedStart(c)
    ensures c'.cap == c.cap && c'.limit == c.limit
    ensures Closed(c) ==> Closed(c')
    decreases |samples|
  {
    hide Inv, CanPush, Closed, RetainedStart, Turn;
    if |samples| == 0 {
      assert history + samples == history;
      c' := c;
    } else {
      var n := TurnSize(c, |samples|);
      TurnKeeps(c, history, samples[..n]);
      c' := PushRun(Turn(c, samples[..n]), history + samples[..n], samples[n..]);
      assert history + samples[..n] + samples[n..] == history + samples;
    }
  }

  /**
   * Pushing any number of samples appends exactly them, whatever the segment
   * boundaries; the window start never moves back.
   */
  lemma PushKeeps(c: Cache, history: seq<Sample>, samples: seq<Sample>)
    requires Inv(c, history)
    ensures CanPush(c)
    ensures Inv(PushSamples(c, samples), history + samples)
    ensures RetainedStart(PushSamples(c, samples)) >= RetainedStart(c)
    ensures PushSamples(c, samples).cap == c.cap && PushSamples(c, samples).limit == c.limit
    ensures Closed(c) ==> Closed(PushSamples(c, samples))
  {
    InvCanPush(c, history);
    var c' := PushRun(c, history, samples);
  }

  // ---------------------------------------------------------------- trimming

  /** A sweep leaves the files of everything it keeps, and of everything pinned, untouched. */
  lemma {:induction false} SweepKeepsFiles(segments: seq<Segment>, disk: Disk, pinned: set<string>,
                                           locked: set<string>, from: nat)
    requires DistinctNames(segments)
    ensures var w := SweepExpired(segments, disk, pinned, locked, from);
            && w.disk.Keys <= disk.Keys
            && (forall n :: n in w.disk ==> w.disk[n] == disk[n])
            && (forall n :: n in disk && n in pinned ==> n in w.disk)
            && (forall n :: n in disk && (forall s :: s in segments ==> s.name != n) ==> n in w.disk)
            && (forall s :: s in w.kept && s.name in disk ==> s.name in w.disk)
            && DistinctNames(w.kept)
  {
    if |segments| > 0 && !Blocked(segments[0], disk, pinned, locked, from) {
      var s := segments[0];
      var rest := SweepRest(segments, disk, pinned, locked, from);
      SweepKeepsFiles(segments[1..], AfterFirst(s, disk, pinned, from), pinned, locked, from);
      SweepKeepsSome(segments[1..], AfterFirst(s, disk, pinned, from), pinned, locked, from);
      forall x | x in segments[1..] ensures x.name != s.name {
        var i :| 0 <= i < |segments[1..]| && segments[1..][i] == x;
        assert segments[i + 1].name != segments[0].name;
      }
      assert forall x :: x in rest.kept ==> x.name != s.name;
      assert DistinctNames([s] + rest.kept);
    }
  }

  lemma TrimKeepsHistory(c: Cache, history: seq<Sample>, pinned: set<string>, locked: set<string>)
    requires Inv(c, history)
    ensures Backed(Trim(c, pinned, locked).cache, history)
  {
    var r := RetainedStart(c);
    var c' := Trim(c, pinned, locked).cache;
    if HasExpired(c) {
      SweepKeepsFiles(c.segments, c.disk, pinned, locked, r);
      SweepKeepsSome(c.segments, c.disk, pinned, locked, r);
      TrimKeepsWindow(c, pinned, locked);
      var head := TrimThins(c, pinned, locked);
      var k := Expired(c.segments, r);
      if c.writing {
        OpenSegmentIsLive(c);
        assert k < |c.segments|;
        assert c'.Last() == c.Last();
      }
      forall i | 0 <= i < |c'.segments|
        ensures c'.segments[i].name in c'.disk
        ensures c'.segments[i].End() <= |history|
        ensures Content(c', i) == history[c'.segments[i].start..c'.segments[i].End()]
      {
        assert c'.segments[i] in c.segments;
        var n :| 0 <= n < |c.segments| && c.segments[n] == c'.segments[i];
        assert c'.segments[i] in c'.segments;
        assert Content(c', i) == Content(c, n);
      }
    }
  }

  lemma TrimKeeps(c: Cache, history: seq<Sample>, pinned: set<string>, locked: set<string>)
    requires Inv(c, history)
    ensures Inv(Trim(c, pinned, locked).cache, history)
    ensures RetainedStart(Trim(c, pinned, locked).cache) == RetainedStart(c)
    ensures Closed(c) ==> Closed(Trim(c, pinned, locked).cache)
  {
    TrimKeepsWindow(c, pinned, locked);
    TrimKeepsHistory(c, history, pinned, locked);
    if Closed(c) {
      TrimKeepsClosed(c, pinned, locked);
    }
  }

  /** The window is a matter of the list and the counters, not of the files. */
  lemma SameWindow(c: Cache, c': Cache)
    requires Live(c)
    requires c' == c.(disk := c'.disk, buffer := c'.buffer)
    ensures Live(c') && RetainedStart(c') == RetainedStart(c)
  {
    hide Covered, Ordered, LeadingStarts;
    SameCovered(c, c', RetainedStart(c));
  }

  lemma SameCovered(c: Cache, c': Cache, p: nat)
    requires Covered(c, p)
    requires c' == c.(disk := c'.disk, buffer := c'.buffer)
    ensures Covered(c', p)
  {
    if p < c.total {
      var i :| 0 <= i < |c.segments| && Holds(c, i, p);
      assert Holds(c', i, p);
    }
    assert forall i :: 0 <= i < |c.segments| ==> NextStart(c', i) == NextStart(c, i);
  }

  lemma CanFlush(c: Cache, history: seq<Sample>)
    requires Inv(c, history)
    ensures c.writing ==> |c.segments| > 0 && c.Last().name in c.disk
  {
  }

  lemma FlushKeeps(c: Cache, history: seq<Sample>)
    requires Inv(c, history)
    ensures Inv(Flush(c), history)
    ensures RetainedStart(Flush(c)) == RetainedStart(c)
    ensures Closed(c) ==> Closed(Flush(c))
  {
    FlushKeepsHistory(c, history);
    SameWindow(c, Flush(c));
    if Closed(c) {
      SameCovered(c, Flush(c), ClosedStart(c.total, c.cap, c.limit));
    }
  }

  // ---------------------------------------------------------------- reading

  /** Files that still hold what the listed segments held when the list was frozen. */
  predicate Frozen(segments: seq<Segment>, disk: Disk, history: seq<Sample>) {
    forall s :: s in segments ==> SegmentIntact(s, disk, history)
  }

  predicate SegmentIntact(s: Segment, disk: Disk, history: seq<Sample>) {
    && s.name in disk && |disk[s.name]| >= s.count && s.End() <= |history|
    && disk[s.name][..s.count] == history[s.start..s.End()]
  }

  lemma SubSlice(s: seq<Sample>, a: nat, b: nat, x: nat, y: nat)
    requires a <= b <= |s| && x <= y <= b - a
    ensures s[a..b][x..y] == s[a + x..a + y]
  {
    var t, u := s[a..b][x..y], s[a + x..a + y];
    forall i | 0 <= i < |u| ensures t[i] == u[i] {
      assert t[i] == s[a..b][x + i];
    }
  }

  lemma SegmentSlice(s: Segment, disk: Disk, history: seq<Sample>, a: nat, b: nat)
    requires SegmentIntact(s, disk, history)
    requires s.start <= a <= b <= s.End()
    ensures disk[s.name][a - s.start..b - s.start] == history[a..b]
  {
    var file := disk[s.name];
    SubSlice(history, s.start, s.End(), a - s.start, b - s.start);
    SubSlice(file, 0, s.count, a - s.start, b - s.start);
    assert file[0..s.count] == file[..s.count];
  }

  function Following(segments: seq<Segment>, i: nat, end: nat): nat
    requires i < |segments|
  {
    if i + 1 < |segments| then segments[i + 1].start else end
  }

  /** Segments that follow each other without a gap up to the given end. */
  predicate Contiguous(segments: seq<Segment>, end: nat) {
    forall i :: 0 <= i < |segments| ==> segments[i].End() == Following(segments, i, end)
  }

  lemma ContiguousRest(segments: seq<Segment>, end: nat)
    requires |segments| > 0 && Contiguous(segments, end)
    ensures Contiguous(segments[1..], end)
  {
    forall i | 0 <= i < |segments[1..]|
      ensures segments[1..][i].End() == Following(segments[1..], i, end)
    {
      assert segments[i + 1].End() == Following(segments, i + 1, end);
    }
  }

  /** The history between two samples; empty when they are out of order. */
  function Part(history: seq<Sample>, p: nat, b: nat): seq<Sample>
    requires b <= |history|
  {
    if p < b then history[p..b] else []
  }

  lemma PartsJoin(history: seq<Sample>, p: nat, q: nat, b: nat)
    requires p <= q <= b <= |history|
    ensures Part(history, p, q) + Part(history, q, b) == Part(history, p, b)
  {
  }

  lemma {:induction false} ReadContiguous(segments: seq<Segment>, disk: Disk, history: seq<Sample>, end: nat, a: nat,
                                          b: nat)
    requires Frozen(segments, disk, history) && Contiguous(segments, end) && end <= |history|
    requires a < b <= end
    requires |segments| > 0 ==> segments[0].End() > a
    requires forall i :: 0 <= i < |segments| ==> segments[i].count > 0
    ensures ReadSegments(segments, disk, a, b)
         == Ok(Part(history, if |segments| == 0 then end else Max(a, segments[0].start), b))
  {
    if |segments| > 0 {
      var s := segments[0];
      var rest := segments[1..];
      assert s in segments;
      ContiguousRest(segments, end);
      assert s.End() == Following(segments, 0, end);
      assert forall x :: x in rest ==> x in segments;
      ReadContiguous(rest, disk, history, end, a, b);
      ReadFirst(segments, disk, history, a, b);
    }
  }

  lemma ReadFirst(segments: seq<Segment>, disk: Disk, history: seq<Sample>, a: nat, b: nat)
    requires a < b <= |history| && |segments| > 0
    requires segments[0].count > 0 && segments[0].End() > a
    requires SegmentIntact(segments[0], disk, history)
    requires ReadSegments(segments[1..], disk, a, b) == Ok(Part(history, segments[0].End(), b))
    ensures ReadSegments(segments, disk, a, b) == Ok(Part(history, Max(a, segments[0].start), b))
  {
    var s := segments[0];
    if s.Overlaps(a, b) {
      ReadOverlap(s, disk, history, a, b);
      var p, q := Max(a, s.start), Min(b, s.End());
      assert Part(history, p, q) == history[p..q];
      PartsJoin(history, p, q, b);
      assert Part(history, q, b) == Part(history, s.End(), b);
    }
  }

  lemma ReadOverlap(s: Segment, disk: Disk, history: seq<Sample>, a: nat, b: nat)
    requires SegmentIntact(s, disk, history) && a < b && s.Overlaps(a, b)
    ensures ReadSegment(s, disk, a, b) == Ok(history[Max(a, s.start)..Min(b, s.End())])
  {
    SegmentSlice(s, disk, history, Max(a, s.start), Min(b, s.End()));
  }

  lemma {:induction false} ReadSkips(segments: seq<Segment>, disk: Disk, k: nat, a: nat, b: nat)
    requires k <= |segments| && a < b
    requires forall i :: 0 <= i < k ==> segments[i].End() <= a
    ensures ReadSegments(segments, disk, a, b) == ReadSegments(segments[k..], disk, a, b)
  {
    if k > 0 {
      ReadSkips(segments[1..], disk, k - 1, a, b);
      assert segments[1..][k - 1..] == segments[k..];
    }
  }

  /**
   * An exact-range read inside a window returns exactly the history, across segments,
   * gaps before the window and files that have grown since: neither of its error
   * branches can be taken.
   */
  lemma ReadIsExact(c: Cache, snapshot: Snapshot, disk: Disk, history: seq<Sample>, a: nat, b: nat)
    requires Live(c) && snapshot == SnapshotOf(c)
    requires Frozen(c.segments, disk, history) && c.total <= |history|
    requires RetainedStart(c) <= a < b <= c.total
    ensures ReadRange(snapshot, disk, a, b) == Ok(history[a..b])
  {
    hide Covered, RetainedStart, SegmentIntact, Contiguous;
    CoveredFurther(c, RetainedStart(c), a);
    var k := WindowFrom(c, a);
    var tail := c.segments[k..];
    ReadSkips(c.segments, disk, k, a, b);
    assert Frozen(tail, disk, history) by {
      assert forall s :: s in tail ==> s in c.segments;
    }
    assert tail[0] == c.segments[k];
    ReadContiguous(tail, disk, history, c.total, a, b);
  }

  /** The segments from the one that holds sample a on. */
  lemma WindowFrom(c: Cache, a: nat) returns (k: nat)
    requires Shape(c) && Covered(c, a) && a < c.total
    ensures k < |c.segments| && Holds(c, k, a)
    ensures forall i :: 0 <= i < k ==> c.segments[i].End() <= a
    ensures Contiguous(c.segments[k..], c.total)
  {
    k :| 0 <= k < |c.segments| && Holds(c, k, a);
    assert forall i :: 0 <= i < k ==> c.segments[i].End() <= c.segments[k].start;
    forall j | 0 <= j < |c.segments[k..]|
      ensures c.segments[k..][j].End() == Following(c.segments[k..], j, c.total)
    {
      assert j > 0 ==> c.segments[k].End() <= c.segments[k + j].start;
      assert NextStart(c, k + j) == c.segments[k + j].End();
    }
  }

  /** After a flush the files alone hold the window. */
  lemma FlushFreezes(c: Cache, history: seq<Sample>)
    requires Inv(c, history)
    ensures Frozen(Flush(c).segments, Flush(c).disk, history)
  {
    var f := Flush(c);
    FlushKeepsHistory(c, history);
    forall s | s in f.segments ensures SegmentIntact(s, f.disk, history) {
      var i :| 0 <= i < |f.segments| && f.segments[i] == s;
      assert Content(f, i) == f.disk[s.name];
      assert Content(f, i)[..s.count] == Content(f, i);
    }
  }

  // ---------------------------------------------------------------- runs

  datatype Event =
    | Push(samples: seq<Sample>)
    | PushAndTrim(samples: seq<Sample>, locked: set<string>)
    | TrimExcept(pinned: set<string>, locked: set<string>)
    | FlushWriter

  /** A recorder together with the history it was given. */
  datatype Tape = Tape(cache: Cache, history: seq<Sample>)

  function Recorded(e: Event): seq<Sample> {
    match e
    case Push(samples) => samples
    case PushAndTrim(samples, _) => samples
    case _ => []
  }

  /**
   * One operation. Whatever it is, the cache goes on denoting the history, the window
   * start does not move back, and the closed form of the window is kept.
   */
  function Step(t: Tape, e: Event): (t': Tape)
    requires Inv(t.cache, t.history)
    ensures Inv(t'.cache, t'.history)
    ensures t'.history == t.history + Recorded(e)
    ensures RetainedStart(t'.cache) >= RetainedStart(t.cache)
    ensures t'.cache.cap == t.cache.cap && t'.cache.limit == t.cache.limit
    ensures Closed(t.cache) ==> Closed(t'.cache)
  {
    hide Live, Backed, SampleSum, RetainedStart, Closed, PushSamples, HasExpired, SweepExpired, CanPush;
    match e
    case Push(samples) =>
      PushKeeps(t.cache, t.history, samples);
      Tape(PushSamples(t.cache, samples), t.history + samples)
    case PushAndTrim(samples, locked) =>
      PushKeeps(t.cache, t.history, samples);
      var pushed := PushSamples(t.cache, samples);
      TrimKeeps(pushed, t.history + samples, {}, locked);
      Tape(Trim(pushed, {}, locked).cache, t.history + samples)
    case TrimExcept(pinned, locked) =>
      TrimKeeps(t.cache, t.history, pinned, locked);
      Tape(Trim(t.cache, pinned, locked).cache, t.history)
    case FlushWriter =>
      CanFlush(t.cache, t.history);
      FlushKeeps(t.cache, t.history);
      Tape(Flush(t.cache), t.history)
  }

  function Run(t: Tape, events: seq<Event>): (t': Tape)
    requires Inv(t.cache, t.history)
    ensures Inv(t'.cache, t'.history)
    decreases |events|
  {
    if |events| == 0 then t else Run(Step(t, events[0]), events[1..])
  }

  function AllRecorded(events: seq<Event>): seq<Sample> {
    if |events| == 0 then [] else Recorded(events[0]) + AllRecorded(events[1..])
  }

  /**
   * Over every run, from any sound recorder: the cache holds the history so far plus
   * everything the run recorded, its window start has not moved back, and a read of
   * any range inside the window, once the writer is flushed, is that slice of the
   * history.
   */
  lemma {:induction false} RunRefinesHistory(t: Tape, events: seq<Event>)
    requires Inv(t.cache, t.history)
    ensures var t' := Run(t, events);
            && t'.history == t.history + AllRecorded(events)
            && RetainedStart(t'.cache) >= RetainedStart(t.cache)
            && t'.cache.cap == t.cache.cap && t'.cache.limit == t.cache.limit
            && (Closed(t.cache) ==> Closed(t'.cache))
    decreases |events|
  {
    hide Inv, Closed, RetainedStart, Step;
    if |events| > 0 {
      RunRefinesHistory(Step(t, events[0]), events[1..]);
      assert t.history + Recorded(events[0]) + AllRecorded(events[1..]) == t.history + AllRecorded(events);
    } else {
      assert t.history + [] == t.history;
    }
  }

  lemma WindowReadsHistory(t: Tape, events: seq<Event>, a: nat, b: nat)
    requires Inv(t.cache, t.history)
    requires RetainedStart(Run(t, events).cache) <= a < b <= |t.history + AllRecorded(events)|
    ensures var flushed := Flush(Run(t, events).cache);
            ReadRange(SnapshotOf(flushed), flushed.disk, a, b) == Ok((t.history + AllRecorded(events))[a..b])
  {
    RunRefinesHistory(t, events);
    var t' := Run(t, events);
    FlushKeeps(t'.cache, t'.history);
    FlushFreezes(t'.cache, t'.history);
    var flushed := Flush(t'.cache);
    ReadIsExact(flushed, SnapshotOf(flushed), flushed.disk, t'.history, a, b);
  }

  /**
   * The closed form over every run of a recorder that started empty: whatever the
   * sizes pushed, the trims deferred, the files pinned or locked, the window starts at
   * 0 below the limit and at the next whole segment above it, so from the limit on the
   * audio available is at least limit - cap and below limit.
   */
  lemma FreshRunWindow(cap: nat, limit: nat, events: seq<Event>)
    requires 0 < cap <= limit
    ensures Inv(Fresh(cap, limit), [])
    ensures var c := Run(Tape(Fresh(cap, limit), []), events).cache;
            var recorded := |AllRecorded(events)|;
            && c.total == recorded
            && RetainedStart(c) == ClosedStart(recorded, cap, limit)
            && (recorded >= limit ==> limit - cap <= recorded - RetainedStart(c) < limit)
  {
    FreshInv(cap, limit);
    FreshIsClosed(cap, limit);
    var t := Tape(Fresh(cap, limit), []);
    RunRefinesHistory(t, events);
    var c := Run(t, events).cache;
    ClosedStartIsRetained(c);
    if c.total >= limit {
      StartBracket(c.total, cap, limit);
    }
  }

  /**
   * A trim that failed half way loses nothing: retried without the lock, it ends in
   * the very state one clean trim would have reached.
   */
  lemma TrimResumes(c: Cache, history: seq<Sample>, pinned: set<string>, locked: set<string>)
    requires Inv(c, history)
    ensures Accounted(Trim(c, pinned, locked).cache)
    ensures Trim(Trim(c, pinned, locked).cache, pinned, {}) == Trim(c, pinned, {})
  {
    var c' := Trim(c, pinned, locked).cache;
    TrimKeepsWindow(c, pinned, locked);
    TrimIsSweep(c, pinned, {});
    TrimIsSweep(c, pinned, locked);
    TrimIsSweep(c', pinned, {});
    SweepResumes(c.segments, c.disk, pinned, locked, RetainedStart(c));
    hide Live, RetainedStart, SweepExpired, SampleSum, Backed;
  }

  /** The early return of a trim only skips a walk that would keep everything. */
  lemma TrimIsSweep(c: Cache, pinned: set<string>, locked: set<string>)
    requires Live(c) && Accounted(c)
    ensures var w := SweepExpired(c.segments, c.disk, pinned, locked, RetainedStart(c));
            Trim(c, pinned, locked) ==
            Trimmed(c.(segments := w.kept, disk := w.disk, bytes := 2 * SampleSum(w.kept)), w.failed)
  {
    SweepAccounts(c.segments, c.disk, pinned, locked, RetainedStart(c));
    if !HasExpired(c) {
      LiveSuffix(c);
      SweepKeepsLive(c.segments, c.disk, pinned, locked, RetainedStart(c));
    }
  }

  lemma {:induction false} SweepResumes(segments: seq<Segment>, disk: Disk, pinned: set<string>, locked: set<string>,
                                        from: nat)
    requires DistinctNames(segments)
    ensures var once := SweepExpired(segments, disk, pinned, locked, from);
            var again := SweepExpired(once.kept, once.disk, pinned, {}, from);
            var clean := SweepExpired(segments, disk, pinned, {}, from);
            again.kept == clean.kept && again.disk == clean.disk && again.failed == clean.failed
  {
    if |segments| > 0 && !Blocked(segments[0], disk, pinned, locked, from) {
      var s := segments[0];
      var after := AfterFirst(s, disk, pinned, from);
      SweepResumes(segments[1..], after, pinned, locked, from);
      var rest := SweepExpired(segments[1..], after, pinned, locked, from);
      if !Disposable(s, pinned, from) {
        assert ([s] + rest.kept)[1..] == rest.kept;
      }
    }
  }
}
