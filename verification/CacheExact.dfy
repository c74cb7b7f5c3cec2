/**
 * The recorder's operations exactly: where the window starts, which segments a push makes,
 * which ones a trim removes and when it stops, and when a read succeeds.
 */
module CacheExact {
  import opened Wrappers
  import opened SegmentCache
  import opened CacheWindow
  import opened CacheHistory

  // ---------------------------------------------------------------- where the window starts

  /** The segment that a place falls into is the last that starts by it. */
  lemma HoldsLast(c: Cache, cut: nat, i: nat)
    requires Shape(c) && i < |c.segments| && Holds(c, i, cut)
    ensures LeadingStarts(c.segments, cut) == i + 1
  {
    forall j | 0 <= j < i ensures c.segments[j].start <= cut {
      Before(c.segments, c.total, j, i);
    }
    if i + 1 < |c.segments| {
      Before(c.segments, c.total, i, i + 1);
    }
    LeadingIs(c.segments, cut, i + 1);
  }

  /**
   * In a cache that is full, the window starts where the segment that the limit cuts into ends,
   * or at the cut if that is open.
   */
  lemma StartInSegment(c: Cache, i: nat)
    requires Shape(c) && c.total >= c.limit && i < |c.segments| && Holds(c, i, c.total - c.limit)
    ensures RetainedStart(c) == if c.writing && i == |c.segments| - 1 then c.total - c.limit else c.segments[i].End()
  {
    hide Ordered;
    HoldsLast(c, c.total - c.limit, i);
  }

  /** If the limit cuts between segments, the window starts with the next one, or is empty. */
  lemma StartInGap(c: Cache, cut: nat)
    requires Shape(c) && c.total >= c.limit && |c.segments| > 0 && cut == c.total - c.limit
    requires forall i :: 0 <= i < |c.segments| ==> !Holds(c, i, cut)
    ensures var k := LeadingStarts(c.segments, cut);
            && (forall i :: 0 <= i < k ==> c.segments[i].End() <= cut)
            && (forall i :: k <= i < |c.segments| ==> c.segments[i].start > cut)
            && RetainedStart(c) == if k < |c.segments| then c.segments[k].start else c.total
  {
    hide Shape, Ordered;
    var k := LeadingStarts(c.segments, cut);
    forall i | 0 <= i < k ensures c.segments[i].End() <= cut {
      assert !Holds(c, i, cut);
    }
    forall i | k <= i < |c.segments| ensures c.segments[i].start > cut {
      if i > k {
        InOrder(c, k, i);
      }
    }
  }

  lemma InOrder(c: Cache, i: nat, j: nat)
    requires Shape(c) && i < j < |c.segments|
    ensures c.segments[i].start <= c.segments[i].End() <= c.segments[j].start
  {
  }

  /**
   * The window starts with the oldest segment until the limit is reached. From then on it
   * starts where the segment that the limit cuts into ends, or at the cut itself if that
   * is still being written; if the cut falls between segments, with the next one.
   */
  lemma WindowStartsExactly(c: Cache)
    requires Shape(c)
    ensures |c.segments| == 0 ==> RetainedStart(c) == c.total
    ensures |c.segments| > 0 && c.total < c.limit ==> RetainedStart(c) == c.segments[0].start
    ensures |c.segments| > 0 && c.total >= c.limit ==>
              var cut := c.total - c.limit;
              && (forall i :: 0 <= i < |c.segments| && Holds(c, i, cut) ==>
                    RetainedStart(c) == if c.writing && i == |c.segments| - 1 then cut else c.segments[i].End())
              && ((forall i :: 0 <= i < |c.segments| ==> !Holds(c, i, cut)) ==>
                    exists k :: 0 <= k <= |c.segments|
                      && (forall i :: 0 <= i < k ==> c.segments[i].End() <= cut)
                      && (forall i :: k <= i < |c.segments| ==> c.segments[i].start > cut)
                      && RetainedStart(c) == if k < |c.segments| then c.segments[k].start else c.total)
  {
    if |c.segments| > 0 && c.total >= c.limit {
      hide Shape, RetainedStart, Holds;
      var cut := c.total - c.limit;
      forall i | 0 <= i < |c.segments| && Holds(c, i, cut)
        ensures RetainedStart(c) == if c.writing && i == |c.segments| - 1 then cut else c.segments[i].End()
      {
        StartInSegment(c, i);
      }
      if forall i :: 0 <= i < |c.segments| ==> !Holds(c, i, cut) {
        StartInGap(c, cut);
      }
    }
  }

  /** An expired segment is listed exactly if some segment ends by the window's start. */
  lemma HasExpiredExactly(c: Cache)
    requires Shape(c)
    ensures HasExpired(c) <==> exists i :: 0 <= i < |c.segments| && c.segments[i].End() <= RetainedStart(c)
  {
    hide RetainedStart;
    if i :| 0 <= i < |c.segments| && c.segments[i].End() <= RetainedStart(c) {
      if i > 0 {
        Before(c.segments, c.total, 0, i);
      }
    }
  }

  // ---------------------------------------------------------------- which segments a push makes

  /** Segments are full but for the open one, which is not. */
  predicate Filled(c: Cache, from: nat) {
    forall i :: from <= i < |c.segments| ==>
      if c.writing && i == |c.segments| - 1 then !c.segments[i].complete && 0 < c.segments[i].count < c.cap
      else c.segments[i].complete && c.segments[i].count == c.cap
  }

  /** Segments from the given place on follow each other up to the end of the recording. */
  predicate Follows(c: Cache, from: nat) {
    forall i :: from <= i < |c.segments| ==> c.segments[i].End() == NextStart(c, i)
  }

  /** The first segment that a push may still change, or make. */
  function Changing(c: Cache): nat
    requires c.writing ==> |c.segments| > 0
  {
    if c.writing then |c.segments| - 1 else |c.segments|
  }

  predicate Begins(c: Cache) {
    && CanPush(c) && (c.writing ==> !c.Last().complete && c.Last().count > 0 && c.Last().End() == c.total)
  }

  /** What a push leaves: the older segments untouched, then full ones and at most one open one, end to end. */
  predicate Extends(c: Cache, p: Cache, n: nat)
    requires c.writing ==> |c.segments| > 0
  {
    var k := Changing(c);
    && Begins(p) && k <= |p.segments| && p.segments[..k] == c.segments[..k] && p.cap == c.cap && p.limit == c.limit
    && p.total == c.total + n && Filled(p, k) && Follows(p, k)
    && (if k < |p.segments| then p.segments[k].start == (if c.writing then c.Last().start else c.total) else n == 0)
    && (p.writing ==> k < |p.segments|)
    && (c.writing ==> k < |p.segments| && p.segments[k].name == c.Last().name && p.segments[k].index == c.Last().index)
  }

  lemma TurnExtends(c: Cache, chunk: seq<Sample>)
    requires Begins(c) && 0 < |chunk| <= Remaining(EnsureSegment(c))
    ensures Extends(c, Turn(c, chunk), |chunk|)
  {
    hide NextIndex, WriteBuffered;
    var k := Changing(c);
    var t := Turn(c, chunk);
    assert t.segments[..k] == c.segments[..k];
    assert |t.segments| == k + 1;
  }

  lemma ExtendsOn(c: Cache, p: Cache, q: Cache, m: nat, n: nat)
    requires Begins(c) && Extends(c, p, m) && Extends(p, q, n)
    ensures Extends(c, q, m + n)
  {
    hide Begins, Filled, Follows;
    var k, j := Changing(c), Changing(p);
    assert Begins(p) && Begins(q);
    AfterPrefix(c, p, q, k, j);
    FilledOn(p, q, k, j);
    FollowsOn(p, q, k, j);
  }

  lemma AfterPrefix(c: Cache, p: Cache, q: Cache, k: nat, j: nat)
    requires k <= |c.segments| && k <= j <= |p.segments| && j <= |q.segments|
    requires p.segments[..k] == c.segments[..k] && q.segments[..j] == p.segments[..j]
    ensures q.segments[..k] == c.segments[..k]
    ensures forall i :: 0 <= i < j ==> q.segments[i] == p.segments[i]
  {
    assert forall i :: 0 <= i < j ==> q.segments[i] == q.segments[..j][i] == p.segments[..j][i] == p.segments[i];
    assert forall i :: 0 <= i < k ==> p.segments[i] == p.segments[..k][i] == c.segments[..k][i] == c.segments[i];
  }

  lemma FilledOn(p: Cache, q: Cache, k: nat, j: nat)
    requires Filled(p, k) && Filled(q, j) && k <= j <= |q.segments| && j <= |p.segments| && q.cap == p.cap
    requires forall i :: 0 <= i < j ==> q.segments[i] == p.segments[i]
    requires j == if p.writing then |p.segments| - 1 else |p.segments|
    requires p.writing || q.writing ==> j < |q.segments|
    ensures Filled(q, k)
  {
  }

  lemma FollowsOn(p: Cache, q: Cache, k: nat, j: nat)
    requires Follows(p, k) && Follows(q, j) && k <= j <= |q.segments| && j <= |p.segments|
    requires forall i :: 0 <= i < j ==> q.segments[i] == p.segments[i]
    requires p.writing ==> j == |p.segments| - 1 < |q.segments| && q.segments[j].start == p.segments[j].start
    requires !p.writing ==>
               j == |p.segments| && (if j < |q.segments| then q.segments[j].start == p.total else q.total == p.total)
    ensures Follows(q, k)
  {
    forall i | k <= i < |q.segments| ensures q.segments[i].End() == NextStart(q, i) {
      if i < j {
        NextSame(p, q, j, i);
      }
    }
  }

  lemma NextSame(p: Cache, q: Cache, j: nat, i: nat)
    requires i < j <= |q.segments| && j <= |p.segments| && p.segments[i].End() == NextStart(p, i)
    requires forall i :: 0 <= i < j ==> q.segments[i] == p.segments[i]
    requires p.writing ==> j == |p.segments| - 1 < |q.segments| && q.segments[j].start == p.segments[j].start
    requires !p.writing ==>
               j == |p.segments| && (if j < |q.segments| then q.segments[j].start == p.total else q.total == p.total)
    ensures q.segments[i].End() == NextStart(q, i)
  {
    if i + 1 < j {
      assert q.segments[i + 1] == p.segments[i + 1];
    }
  }

  /**
   * A push fills segments: every one it completes holds exactly the capacity, only the
   * last one may be open, all lie end to end behind what was there, and older segments are
   * not touched.
   */
  lemma {:induction false} PushFills(c: Cache, samples: seq<Sample>)
    requires Begins(c)
    ensures Extends(c, PushSamples(c, samples), |samples|)
    decreases |samples|
  {
    if |samples| == 0 {
      assert Follows(c, Changing(c)) && Filled(c, Changing(c));
    } else {
      hide Extends, Turn;
      var n := TurnSize(c, |samples|);
      TurnExtends(c, samples[..n]);
      ExtendsBegins(c, Turn(c, samples[..n]), n);
      PushFills(Turn(c, samples[..n]), samples[n..]);
      ExtendsOn(c, Turn(c, samples[..n]), PushSamples(c, samples), n, |samples| - n);
    }
  }

  lemma ExtendsBegins(c: Cache, p: Cache, n: nat)
    requires Begins(c) && Extends(c, p, n)
    ensures Begins(p)
  {
  }

  /** Every recorder between two operations can begin a push. */
  lemma InvBegins(c: Cache, history: seq<Sample>)
    requires Inv(c, history)
    ensures Begins(c)
  {
    hide Covered, Accounted, RetainedStart;
    if c.writing {
      InRange(c.segments, c.total, |c.segments| - 1);
    }
  }

  /**
   * What a write leaves in the buffer: chunks of 4096 samples and more go to the file with
   * everything before them; a smaller one stays behind, and what was buffered goes to the
   * file exactly if both together are more than 4096.
   */
  lemma BuffersExactly(file: seq<Sample>, buffer: seq<Sample>, chunk: seq<Sample>)
    ensures var w := WriteBuffered(file, buffer, chunk);
            && (|chunk| >= 4096 ==> w == (file + buffer + chunk, []))
            && (|chunk| < 4096 && |buffer| + |chunk| > 4096 ==> w == (file + buffer, chunk))
            && (|chunk| < 4096 && |buffer| + |chunk| <= 4096 ==> w == (file, buffer + chunk))
  {
    assert [] + chunk == chunk && file + [] == file;
  }

  // ---------------------------------------------------------------- which segments a trim removes

  /** The segment ends by the window's start and no export lists it. */
  predicate Goes(s: Segment, pinned: set<string>, start: nat) {
    s.start + s.count <= start && s.name !in pinned
  }

  /** The list keeps what does not go, and everything from the place on where the walk stopped. */
  ghost predicate ListSwept(segments: seq<Segment>, pinned: set<string>, start: nat, stop: nat, kept: seq<Segment>)
    requires stop <= |segments|
  {
    forall s :: s in kept <==>
      (exists i :: 0 <= i < stop && segments[i] == s && !Goes(s, pinned, start)) || s in segments[stop..]
  }

  /** The files of what goes are deleted, all others stay as they are. */
  ghost predicate FilesSwept(segments: seq<Segment>, disk: Disk, pinned: set<string>, start: nat, stop: nat, after: Disk)
    requires stop <= |segments|
  {
    && (forall n :: n in after <==>
          n in disk && forall i :: 0 <= i < stop && Goes(segments[i], pinned, start) ==> segments[i].name != n)
    && (forall n :: n in after ==> after[n] == disk[n])
  }

  /** What a walk leaves that stops at the given place, or gets behind the last segment. */
  ghost predicate Swept(segments: seq<Segment>, disk: Disk, pinned: set<string>, start: nat, stop: nat,
                        kept: seq<Segment>, after: Disk)
    requires stop <= |segments|
  {
    ListSwept(segments, pinned, start, stop, kept) && FilesSwept(segments, disk, pinned, start, stop, after)
  }

  lemma {:induction false} SweepExactly(segments: seq<Segment>, disk: Disk, pinned: set<string>, locked: set<string>,
                                        start: nat)
    returns (stop: nat)
    requires DistinctNames(segments)
    ensures stop <= |segments|
    ensures var w := SweepExpired(segments, disk, pinned, locked, start);
            && Swept(segments, disk, pinned, start, stop, w.kept, w.disk)
            && (w.failed <==> stop < |segments|)
    ensures forall i :: 0 <= i < stop && Goes(segments[i], pinned, start) ==>
              segments[i].name !in disk || segments[i].name !in locked
    ensures stop < |segments| ==>
              Goes(segments[stop], pinned, start) && segments[stop].name in disk && segments[stop].name in locked
  {
    if |segments| == 0 {
      stop := 0;
    } else if Blocked(segments[0], disk, pinned, locked, start) {
      stop := 0;
      assert segments[0..] == segments;
    } else {
      var s, rest := segments[0], segments[1..];
      var disk' := AfterFirst(s, disk, pinned, start);
      assert DistinctNames(rest) by {
        assert forall i :: 0 <= i < |rest| ==> rest[i] == segments[i + 1];
      }
      var at := SweepExactly(rest, disk', pinned, locked, start);
      stop := at + 1;
      assert at < |rest| ==> rest[at] == segments[stop] && rest[at].name != s.name;
      var inner, w := SweepRest(segments, disk, pinned, locked, start), SweepExpired(segments, disk, pinned, locked, start);
      ListStep(segments, pinned, start, at, inner.kept, w.kept);
      FilesStep(segments, disk, pinned, start, at, inner.disk);
      hide ListSwept, FilesSwept, SweepExpired;
      NoneLocked(segments, disk, disk', pinned, locked, start, at);
    }
  }

  lemma NoneLocked(segments: seq<Segment>, disk: Disk, disk': Disk, pinned: set<string>, locked: set<string>,
                   start: nat, at: nat)
    requires |segments| > 0 && !Blocked(segments[0], disk, pinned, locked, start) && at <= |segments[1..]|
    requires disk' == AfterFirst(segments[0], disk, pinned, start) && DistinctNames(segments)
    requires forall i :: 0 <= i < at && Goes(segments[1..][i], pinned, start) ==>
               segments[1..][i].name !in disk' || segments[1..][i].name !in locked
    ensures forall i :: 0 <= i < at + 1 && Goes(segments[i], pinned, start) ==>
              segments[i].name !in disk || segments[i].name !in locked
  {
    forall i | 0 <= i < at + 1 && Goes(segments[i], pinned, start)
      ensures segments[i].name !in disk || segments[i].name !in locked
    {
      if i > 0 {
        assert segments[1..][i - 1] == segments[i];
      }
    }
  }

  lemma ListStep(segments: seq<Segment>, pinned: set<string>, start: nat, at: nat, inner: seq<Segment>, kept: seq<Segment>)
    requires |segments| > 0 && at <= |segments[1..]| && ListSwept(segments[1..], pinned, start, at, inner)
    requires kept == if Goes(segments[0], pinned, start) then inner else [segments[0]] + inner
    ensures ListSwept(segments, pinned, start, at + 1, kept)
  {
    hide Goes;
    var rest := segments[1..];
    assert rest[at..] == segments[at + 1..];
    assert forall i :: 0 <= i < at ==> rest[i] == segments[i + 1];
    forall x
      ensures x in kept <==>
              (exists i :: 0 <= i < at + 1 && segments[i] == x && !Goes(x, pinned, start)) || x in segments[at + 1..]
    {
      if i :| 0 <= i < at + 1 && segments[i] == x && !Goes(x, pinned, start) {
        if i > 0 {
          assert rest[i - 1] == x;
        }
      }
      if i :| 0 <= i < at && rest[i] == x && !Goes(x, pinned, start) {
        assert segments[i + 1] == x;
      }
    }
  }

  lemma FilesStep(segments: seq<Segment>, disk: Disk, pinned: set<string>, start: nat, at: nat, after: Disk)
    requires |segments| > 0 && at <= |segments[1..]|
    requires FilesSwept(segments[1..], AfterFirst(segments[0], disk, pinned, start), pinned, start, at, after)
    ensures FilesSwept(segments, disk, pinned, start, at + 1, after)
  {
    var rest := segments[1..];
    assert forall i :: 0 <= i < at ==> rest[i] == segments[i + 1];
    forall n ensures n in after <==>
                     n in disk && forall i :: 0 <= i < at + 1 && Goes(segments[i], pinned, start) ==> segments[i].name != n
    {
      if n in disk && forall i :: 0 <= i < at + 1 && Goes(segments[i], pinned, start) ==> segments[i].name != n {
        forall i | 0 <= i < at && Goes(rest[i], pinned, start) ensures rest[i].name != n {
          assert rest[i] == segments[i + 1];
        }
      }
      if n in after {
        forall i | 0 <= i < at + 1 && Goes(segments[i], pinned, start) ensures segments[i].name != n {
          if i > 0 {
            assert rest[i - 1] == segments[i];
          }
        }
      }
    }
  }

  /**
   * A trim, exactly: in list order it removes the segments that end by the window's start
   * and are not pinned, with their files, and stops at the first of them whose file cannot
   * be deleted. Everything else stays, and the list keeps its order.
   */
  lemma TrimsExactly(c: Cache, history: seq<Sample>, pinned: set<string>, locked: set<string>) returns (stop: nat)
    requires Inv(c, history)
    ensures stop <= |c.segments|
    ensures var t, start := Trim(c, pinned, locked), RetainedStart(c);
            && Swept(c.segments, c.disk, pinned, start, stop, t.cache.segments, t.cache.disk)
            && Ordered(t.cache.segments, t.cache.total)
            && t.cache == c.(segments := t.cache.segments, disk := t.cache.disk, bytes := t.cache.bytes)
            && (t.failed <==> stop < |c.segments|)
            && (forall i :: 0 <= i < stop && Goes(c.segments[i], pinned, start) ==>
                  c.segments[i].name !in c.disk || c.segments[i].name !in locked)
            && (stop < |c.segments| ==>
                  Goes(c.segments[stop], pinned, start)
                  && c.segments[stop].name in c.disk && c.segments[stop].name in locked)
  {
    hide Covered, Accounted, RetainedStart, SweepExpired, Swept, SampleSum;
    TrimKeepsWindow(c, pinned, locked);
    if HasExpired(c) {
      stop := SweepExactly(c.segments, c.disk, pinned, locked, RetainedStart(c));
    } else {
      stop := |c.segments|;
      NothingGoes(c, pinned);
    }
  }

  lemma NothingGoes(c: Cache, pinned: set<string>)
    requires Shape(c) && !HasExpired(c)
    ensures Swept(c.segments, c.disk, pinned, RetainedStart(c), |c.segments|, c.segments, c.disk)
    ensures forall i :: 0 <= i < |c.segments| ==> !Goes(c.segments[i], pinned, RetainedStart(c))
  {
    HasExpiredExactly(c);
    hide RetainedStart, HasExpired;
    assert forall i :: 0 <= i < |c.segments| ==> c.segments[i].End() > RetainedStart(c);
  }

  // ---------------------------------------------------------------- when a read succeeds

  /** The file of a segment reaches as far as a range needs it. */
  predicate Serves(s: Segment, disk: Disk, b: nat) {
    s.name in disk && (if b < s.End() then b else s.End()) <= s.start + |disk[s.name]|
  }

  /** The first segment that a range touches and whose file does not serve it. */
  predicate FirstBad(segments: seq<Segment>, disk: Disk, a: nat, b: nat, i: int) {
    && 0 <= i < |segments| && segments[i].Overlaps(a, b) && !Serves(segments[i], disk, b)
    && forall j :: 0 <= j < i && segments[j].Overlaps(a, b) ==> Serves(segments[j], disk, b)
  }

  predicate AllServe(segments: seq<Segment>, disk: Disk, a: nat, b: nat) {
    forall i :: 0 <= i < |segments| && segments[i].Overlaps(a, b) ==> Serves(segments[i], disk, b)
  }

  /** Reading segments one after another fails at the first one the range touches whose file is missing or short. */
  lemma {:induction false} ReadsExactlyAll(segments: seq<Segment>, disk: Disk, a: nat, b: nat)
    requires a < b
    ensures ReadSegments(segments, disk, a, b).Ok? <==> AllServe(segments, disk, a, b)
    ensures forall i :: FirstBad(segments, disk, a, b, i) ==>
              ReadSegments(segments, disk, a, b) == Err(if segments[i].name in disk then UnexpectedEof else FileMissing)
  {
    if |segments| > 0 {
      var rest := segments[1..];
      ReadsExactlyAll(rest, disk, a, b);
      assert forall i :: 0 <= i < |rest| ==> rest[i] == segments[i + 1];
      forall i | FirstBad(segments, disk, a, b, i)
        ensures ReadSegments(segments, disk, a, b) == Err(if segments[i].name in disk then UnexpectedEof else FileMissing)
      {
        if i > 0 {
          assert rest[i - 1] == segments[i] && FirstBad(rest, disk, a, b, i - 1);
        }
      }
      assert AllServe(segments, disk, a, b) <==>
             (segments[0].Overlaps(a, b) ==> Serves(segments[0], disk, b)) && AllServe(rest, disk, a, b) by {
        assert forall i :: 0 < i < |segments| ==> segments[i] == rest[i - 1];
      }
    }
  }

  /** The samples of a range that lie behind segments' gaps add up to its length. */
  lemma {:induction false} ReadLength(segments: seq<Segment>, disk: Disk, end: nat, a: nat, b: nat)
    requires Contiguous(segments, end) && a < b <= end
    requires |segments| > 0 ==> segments[0].End() > a
    requires forall i :: 0 <= i < |segments| ==> segments[i].count > 0
    requires ReadSegments(segments, disk, a, b).Ok?
    ensures var from := if |segments| == 0 then end else Max(a, segments[0].start);
            |ReadSegments(segments, disk, a, b).value| == if from < b then b - from else 0
  {
    if |segments| > 0 {
      ContiguousRest(segments, end);
      assert segments[0].End() == Following(segments, 0, end);
      ReadLength(segments[1..], disk, end, a, b);
    }
  }

  /**
   * A read, exactly: an empty range and one that is not inside the window are refused as
   * such; inside the window it succeeds exactly if every file it touches is there and
   * reaches as far as is needed, and otherwise says of the first that does not what is
   * wrong. What it returns has the range's length.
   */
  lemma ReadsExactly(c: Cache, disk: Disk, a: nat, b: nat)
    requires Live(c)
    ensures var r := ReadRange(SnapshotOf(c), disk, a, b);
            && (b <= a ==> r == Err(EmptyRange))
            && (a < b && (a < RetainedStart(c) || b > c.total) ==> r == Err(RangeUnavailable))
            && (a < b && RetainedStart(c) <= a && b <= c.total ==>
                  && (r.Ok? <==> AllServe(c.segments, disk, a, b))
                  && (r.Ok? ==> |r.value| == b - a)
                  && (forall i :: FirstBad(c.segments, disk, a, b, i) ==>
                        r == Err(if c.segments[i].name in disk then UnexpectedEof else FileMissing)))
  {
    hide RetainedStart, Covered, Contiguous, Serves, ReadSegments;
    if a < b && RetainedStart(c) <= a && b <= c.total {
      ReadsExactlyAll(c.segments, disk, a, b);
      if ReadSegments(c.segments, disk, a, b).Ok? {
        CoveredFurther(c, RetainedStart(c), a);
        var k := WindowFrom(c, a);
        ReadSkips(c.segments, disk, k, a, b);
        assert c.segments[k..][0] == c.segments[k];
        ReadLength(c.segments[k..], disk, c.total, a, b);
      }
    }
  }
}
