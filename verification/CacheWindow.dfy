/**
 * The live window: where it starts, that trimming cannot move it, that pushing only
 * moves it forward, and its closed form for a recorder that started empty.
 */
module CacheWindow {
  import opened Wrappers
  import opened SegmentCache

  /** Segments in time order without overlap; a pinned file may leave a gap after it. */
  predicate Ordered(segments: seq<Segment>, total: nat) {
    && (forall i :: 0 <= i < |segments| ==> segments[i].count > 0 && segments[i].End() <= total)
    && (forall i, j :: 0 <= i < j < |segments| ==> segments[i].End() <= segments[j].start)
  }

  /** The shape of every state between two recorder operations. */
  predicate Shape(c: Cache) {
    && c.cap > 0 && c.limit > 0
    && Ordered(c.segments, c.total)
    && (c.writing ==> |c.segments| > 0 && c.Last().End() == c.total && c.Last().count < c.cap)
    && (forall i :: 0 <= i < |c.segments| ==>
          (c.segments[i].complete <==> !(c.writing && i == |c.segments| - 1)))
  }

  function NextStart(c: Cache, i: nat): nat
    requires i < |c.segments|
  {
    if i + 1 < |c.segments| then c.segments[i + 1].start else c.total
  }

  predicate Holds(c: Cache, i: nat, p: nat)
    requires i < |c.segments|
  {
    c.segments[i].start <= p < c.segments[i].End()
  }

  /** From p to the end of the recording no sample is missing from the list. */
  predicate Covered(c: Cache, p: nat) {
    && p <= c.total
    && (p < c.total ==> exists i :: 0 <= i < |c.segments| && Holds(c, i, p))
    && (forall i :: 0 <= i < |c.segments| && c.segments[i].End() >= p ==> NextStart(c, i) == c.segments[i].End())
  }

  predicate Live(c: Cache) {
    Shape(c) && Covered(c, RetainedStart(c))
  }

  lemma Before(segments: seq<Segment>, total: nat, i: nat, j: nat)
    requires Ordered(segments, total) && i < j < |segments|
    ensures segments[i].End() <= segments[j].start
  {
  }

  lemma InRange(segments: seq<Segment>, total: nat, i: nat)
    requires Ordered(segments, total) && i < |segments|
    ensures segments[i].count > 0 && segments[i].End() <= total
  {
  }

  /** A segment that reaches the window is followed directly by the next one. */
  lemma NextIsEnd(c: Cache, p: nat, i: nat)
    requires Covered(c, p) && i < |c.segments| && c.segments[i].End() >= p
    ensures NextStart(c, i) == c.segments[i].End()
  {
  }

  lemma OnlyWriterIsOpen(c: Cache, i: nat)
    requires Shape(c) && i < |c.segments|
    ensures c.segments[i].complete <==> !(c.writing && i == |c.segments| - 1)
  {
  }

  /** The window of a writing recorder is never empty, so its writer's segment never expires. */
  lemma OpenSegmentIsLive(c: Cache)
    requires Shape(c) && c.writing
    ensures RetainedStart(c) < c.Last().End()
  {
    if c.total >= c.limit {
      var k := LeadingStarts(c.segments, c.total - c.limit);
      if k > 0 && k < |c.segments| {
        assert c.segments[k - 1].End() <= c.segments[k].start;
      }
    }
  }

  // ---------------------------------------------------------------- trimming

  /** Number of expired segments at the front. */
  function Expired(segments: seq<Segment>, from: nat): (k: nat)
    ensures k <= |segments|
    ensures forall i :: 0 <= i < k ==> segments[i].End() <= from
    ensures k < |segments| ==> segments[k].End() > from
  {
    if |segments| == 0 || segments[0].End() > from then 0
    else 1 + Expired(segments[1..], from)
  }

  lemma {:induction false} SweepKeepsLive(segments: seq<Segment>, disk: Disk, pinned: set<string>,
                                          locked: set<string>, from: nat)
    requires forall i :: 0 <= i < |segments| ==> segments[i].End() > from
    ensures SweepExpired(segments, disk, pinned, locked, from) == Sweep(segments, disk, 0, false)
  {
    if |segments| > 0 {
      SweepKeepsLive(segments[1..], disk, pinned, locked, from);
    }
  }

  lemma {:induction false} SweepKeepsSome(segments: seq<Segment>, disk: Disk, pinned: set<string>,
                                          locked: set<string>, from: nat)
    ensures forall x :: x in SweepExpired(segments, disk, pinned, locked, from).kept ==> x in segments
  {
    if |segments| > 0 && !Blocked(segments[0], disk, pinned, locked, from) {
      var kept := SweepExpired(segments, disk, pinned, locked, from).kept;
      var rest := SweepRest(segments, disk, pinned, locked, from).kept;
      SweepKeepsSome(segments[1..], AfterFirst(segments[0], disk, pinned, from), pinned, locked, from);
      assert forall x :: x in segments[1..] ==> x in segments;
      assert kept == rest || kept == [segments[0]] + rest;
    }
  }

  /** A sweep that no lock stopped keeps nothing it was meant to delete. */
  lemma {:induction false} SweepClears(segments: seq<Segment>, disk: Disk, pinned: set<string>, locked: set<string>,
                                       from: nat)
    ensures var w := SweepExpired(segments, disk, pinned, locked, from);
            !w.failed ==> forall x :: x in w.kept ==> !Disposable(x, pinned, from)
  {
    if |segments| > 0 && !Blocked(segments[0], disk, pinned, locked, from) {
      SweepClears(segments[1..], AfterFirst(segments[0], disk, pinned, from), pinned, locked, from);
    }
  }

  lemma OrderedRest(segments: seq<Segment>, total: nat)
    requires Ordered(segments, total) && |segments| > 0
    ensures Ordered(segments[1..], total)
    ensures forall x :: x in segments[1..] ==> segments[0].End() <= x.start
  {
    var rest := segments[1..];
    assert forall i :: 0 <= i < |rest| ==> rest[i] == segments[i + 1];
  }

  lemma OrderedCons(s: Segment, rest: seq<Segment>, total: nat)
    requires Ordered(rest, total) && s.count > 0 && s.End() <= total
    requires forall x :: x in rest ==> s.End() <= x.start
    ensures Ordered([s] + rest, total)
  {
    var all := [s] + rest;
    assert forall i :: 0 < i < |all| ==> all[i] == rest[i - 1] && all[i] in rest;
  }

  lemma {:induction false} SweepKeepsOrder(segments: seq<Segment>, disk: Disk, pinned: set<string>,
                                           locked: set<string>, from: nat, total: nat)
    requires Ordered(segments, total)
    ensures Ordered(SweepExpired(segments, disk, pinned, locked, from).kept, total)
  {
    if |segments| > 0 && !Blocked(segments[0], disk, pinned, locked, from) {
      hide Ordered;
      var s := segments[0];
      var disk' := AfterFirst(s, disk, pinned, from);
      OrderedRest(segments, total);
      InRange(segments, total, 0);
      SweepKeepsOrder(segments[1..], disk', pinned, locked, from, total);
      SweepKeepsSome(segments[1..], disk', pinned, locked, from);
      OrderedCons(s, SweepRest(segments, disk, pinned, locked, from).kept, total);
    }
  }

  /** What a sweep keeps ends in every live segment; only expired ones precede them. */
  lemma {:induction false} SweepKeepsSuffix(segments: seq<Segment>, k: nat, disk: Disk, pinned: set<string>,
                                            locked: set<string>, from: nat)
    returns (head: seq<Segment>)
    requires k <= |segments|
    requires forall i :: k <= i < |segments| ==> segments[i].End() > from
    ensures SweepExpired(segments, disk, pinned, locked, from).kept == head + segments[k..]
    ensures |head| <= k
    ensures forall x :: x in head ==> x in segments[..k]
  {
    if k == 0 {
      SweepKeepsLive(segments, disk, pinned, locked, from);
      head := [];
    } else if Blocked(segments[0], disk, pinned, locked, from) {
      head := segments[..k];
    } else {
      var s := segments[0];
      var tail := SweepKeepsSuffix(segments[1..], k - 1, AfterFirst(s, disk, pinned, from), pinned, locked, from);
      assert segments[1..][k - 1..] == segments[k..];
      assert segments[..k] == [s] + segments[1..][..k - 1];
      head := if Disposable(s, pinned, from) then tail else [s] + tail;
      assert [s] + (tail + segments[k..]) == ([s] + tail) + segments[k..];
    }
  }

  /** A list without some of its expired segments. */
  predicate Thinned(c: Cache, c': Cache, head: seq<Segment>) {
    var k := Expired(c.segments, RetainedStart(c));
    && c'.segments == head + c.segments[k..]
    && |head| <= k
    && (forall x :: x in head ==> x in c.segments[..k])
    && Ordered(c'.segments, c'.total)
    && c'.total == c.total && c'.limit == c.limit && c'.writing == c.writing && c'.cap == c.cap
  }

  lemma LeadingIs(segments: seq<Segment>, cutoff: nat, k: nat)
    requires k <= |segments|
    requires forall i :: 0 <= i < k ==> segments[i].start <= cutoff
    requires k < |segments| ==> segments[k].start > cutoff
    ensures LeadingStarts(segments, cutoff) == k
  {
  }

  lemma ExpiredIs(segments: seq<Segment>, from: nat, k: nat)
    requires k <= |segments|
    requires forall i :: 0 <= i < k ==> segments[i].End() <= from
    requires k < |segments| ==> segments[k].End() > from
    ensures Expired(segments, from) == k
  {
  }

  predicate CutoffInWriter(c: Cache) {
    && |c.segments| > 0 && c.total >= c.limit && c.writing
    && c.Last().start <= c.total - c.limit
  }

  lemma StartInWriter(c: Cache)
    requires Shape(c) && CutoffInWriter(c)
    ensures RetainedStart(c) == c.total - c.limit
    ensures Expired(c.segments, RetainedStart(c)) == |c.segments| - 1
  {
    hide Ordered;
    var cutoff := c.total - c.limit;
    var last := |c.segments| - 1;
    forall i | 0 <= i < last ensures c.segments[i].End() <= c.Last().start {
      Before(c.segments, c.total, i, last);
    }
    LeadingIs(c.segments, cutoff, |c.segments|);
    ExpiredIs(c.segments, cutoff, last);
  }

  /** Without a writer in the way, the window starts at a boundary: the next listed start. */
  lemma StartAtBoundary(c: Cache)
    requires Live(c) && |c.segments| > 0 && c.total >= c.limit && !CutoffInWriter(c)
    ensures var m := LeadingStarts(c.segments, c.total - c.limit);
            && Expired(c.segments, RetainedStart(c)) == m
            && RetainedStart(c) == (if m < |c.segments| then c.segments[m].start else c.total)
  {
    hide Ordered, Covered, Holds;
    var m := LeadingStarts(c.segments, c.total - c.limit);
    StartFollows(c, m);
    if m > 0 {
      forall i | 0 <= i < m ensures c.segments[i].End() <= RetainedStart(c) {
        if i < m - 1 {
          Before(c.segments, c.total, i, m - 1);
          InRange(c.segments, c.total, m - 1);
        }
      }
    }
    if m < |c.segments| {
      InRange(c.segments, c.total, m);
    }
    ExpiredIs(c.segments, RetainedStart(c), m);
  }

  /** Where the window starts, from the last segment that starts by the cutoff. */
  lemma StartFollows(c: Cache, m: nat)
    requires Live(c) && |c.segments| > 0 && c.total >= c.limit && !CutoffInWriter(c)
    requires m == LeadingStarts(c.segments, c.total - c.limit)
    ensures RetainedStart(c) == (if m < |c.segments| then c.segments[m].start else c.total)
    ensures m > 0 ==> c.segments[m - 1].End() <= RetainedStart(c)
    ensures m > 0 && c.segments[m - 1].End() > c.total - c.limit ==>
              c.segments[m - 1].complete && c.segments[m - 1].End() == RetainedStart(c)
  {
    hide Ordered, Covered, Holds;
    if m > 0 {
      InRange(c.segments, c.total, m - 1);
      if m < |c.segments| {
        Before(c.segments, c.total, m - 1, m);
      }
      OnlyWriterIsOpen(c, m - 1);
      if c.segments[m - 1].End() >= RetainedStart(c) {
        NextIsEnd(c, RetainedStart(c), m - 1);
      }
    }
  }

  lemma ThinnedBefore(segments: seq<Segment>, total: nat, head: seq<Segment>, k: nat)
    requires Ordered(segments, total) && 0 < k <= |segments|
    requires forall x :: x in head ==> x in segments[..k]
    ensures forall i :: 0 <= i < |head| ==> head[i] == segments[k - 1] || head[i].End() <= segments[k - 1].start
  {
    hide Ordered;
    forall i | 0 <= i < |head| ensures head[i] == segments[k - 1] || head[i].End() <= segments[k - 1].start {
      assert head[i] in segments[..k];
      var n :| 0 <= n < k && segments[n] == head[i];
      if n < k - 1 {
        Before(segments, total, n, k - 1);
      }
    }
  }

  lemma ThinnedInWriter(c: Cache, c': Cache, head: seq<Segment>)
    requires Live(c) && Thinned(c, c', head) && CutoffInWriter(c)
    ensures RetainedStart(c') == RetainedStart(c)
  {
    hide Ordered, Covered, Holds, Expired;
    StartInWriter(c);
    var n := |c.segments|;
    assert c.segments[n - 1..] == [c.Last()];
    assert c'.Last() == c.Last();
    forall i | 0 <= i < |c'.segments| ensures c'.segments[i].start <= c'.Last().start {
      if i < |c'.segments| - 1 {
        Before(c'.segments, c'.total, i, |c'.segments| - 1);
      }
    }
    LeadingIs(c'.segments, c.total - c.limit, |c'.segments|);
  }

  /** The window start of a list whose last segment at or before the cutoff is closed. */
  lemma BoundaryStart(c: Cache, k: nat, next: nat)
    requires c.total >= c.limit && 0 < k <= |c.segments|
    requires LeadingStarts(c.segments, c.total - c.limit) == k
    requires next == if k < |c.segments| then c.segments[k].start else c.total
    requires c.segments[k - 1].End() > c.total - c.limit ==> c.segments[k - 1].complete && c.segments[k - 1].End() == next
    ensures RetainedStart(c) == next
  {
  }

  lemma ThinnedAtBoundary(c: Cache, c': Cache, head: seq<Segment>)
    requires Live(c) && Thinned(c, c', head)
    requires |c.segments| > 0 && c.total >= c.limit && !CutoffInWriter(c)
    ensures RetainedStart(c') == RetainedStart(c)
  {
    hide Ordered, Covered, Holds, Expired, Shape, CutoffInWriter;
    var cutoff := c.total - c.limit;
    StartAtBoundary(c);
    var m := LeadingStarts(c.segments, cutoff);
    StartFollows(c, m);
    var next := if m < |c.segments| then c.segments[m].start else c.total;
    assert c'.segments == head + c.segments[m..];
    if |head| == 0 {
      LeadingIs(c'.segments, cutoff, 0);
    } else {
      ThinnedLeading(c, c', head, m);
      BoundaryStart(c', |head|, next);
    }
  }

  lemma ThinnedLeading(c: Cache, c': Cache, head: seq<Segment>, m: nat)
    requires Shape(c) && c.total >= c.limit && m == LeadingStarts(c.segments, c.total - c.limit)
    requires |head| > 0 && c'.segments == head + c.segments[m..] && |head| <= m
    requires forall x :: x in head ==> x in c.segments[..m]
    ensures LeadingStarts(c'.segments, c.total - c.limit) == |head|
    ensures var last := c'.segments[|head| - 1];
            m > 0 && (last == c.segments[m - 1] || last.End() <= c.segments[m - 1].start <= c.total - c.limit)
  {
    hide Ordered;
    var cutoff := c.total - c.limit;
    ThinnedBefore(c.segments, c.total, head, m);
    forall i | 0 <= i < |head| ensures c'.segments[i].start <= cutoff {
      assert c'.segments[i] == head[i];
    }
    LeadingIs(c'.segments, cutoff, |head|);
  }

  /** Where the window starts does not depend on which expired segments are still listed. */
  lemma ThinnedStart(c: Cache, c': Cache, head: seq<Segment>)
    requires Live(c) && Thinned(c, c', head)
    ensures RetainedStart(c') == RetainedStart(c)
  {
    hide Covered, Holds, CutoffInWriter;
    if |c.segments| == 0 || c.total < c.limit {
      if |c.segments| > 0 {
        InRange(c.segments, c.total, 0);
      }
      hide Ordered;
      assert Expired(c.segments, RetainedStart(c)) == 0;
      assert head == [];
    } else if CutoffInWriter(c) {
      ThinnedInWriter(c, c', head);
    } else {
      ThinnedAtBoundary(c, c', head);
    }
  }

  /** A kept expired segment that reaches the window is followed directly by the window. */
  lemma ThinnedNext(c: Cache, c': Cache, head: seq<Segment>, i: nat)
    requires Live(c) && Thinned(c, c', head)
    requires i < |head| && c'.segments[i].End() >= RetainedStart(c)
    ensures NextStart(c', i) == c'.segments[i].End()
  {
    var r := RetainedStart(c);
    var k := Expired(c.segments, r);
    ThinnedBefore(c.segments, c.total, head, k);
    assert c'.segments[i] == head[i];
    var s := c.segments[k - 1];
    assert head[i] == s;
    assert NextStart(c, k - 1) == s.End() == r;
    var z := c'.segments[|head| - 1];
    assert z == head[|head| - 1];
    assert z == s || z.End() <= s.start;
    assert i == |head| - 1;
  }

  lemma ThinnedHolds(c: Cache, c': Cache, head: seq<Segment>, k: nat, r: nat)
    requires Covered(c, r) && r < c.total && k <= |c.segments| && c'.segments == head + c.segments[k..]
    requires forall i :: 0 <= i < k ==> c.segments[i].End() <= r
    ensures exists i :: 0 <= i < |c'.segments| && Holds(c', i, r)
  {
    var i :| 0 <= i < |c.segments| && Holds(c, i, r);
    assert c'.segments[|head| + i - k] == c.segments[i];
    assert Holds(c', |head| + i - k, r);
  }

  lemma ThinnedNextLive(c: Cache, c': Cache, head: seq<Segment>, k: nat, r: nat, i: nat)
    requires Covered(c, r) && k <= |c.segments| && c'.segments == head + c.segments[k..] && c'.total == c.total
    requires |head| <= i < |c'.segments| && c'.segments[i].End() >= r
    ensures NextStart(c', i) == c'.segments[i].End()
  {
    hide Covered;
    var n := i - |head| + k;
    assert c'.segments[i] == c.segments[n];
    NextIsEnd(c, r, n);
    if i + 1 < |c'.segments| {
      assert c'.segments[i + 1] == c.segments[n + 1];
    }
  }

  lemma ThinnedCovered(c: Cache, c': Cache, head: seq<Segment>)
    requires Live(c) && Thinned(c, c', head)
    ensures Covered(c', RetainedStart(c))
  {
    hide Ordered, Shape, RetainedStart, Holds;
    var r := RetainedStart(c);
    var k := Expired(c.segments, r);
    if r < c.total {
      ThinnedHolds(c, c', head, k, r);
    }
    forall i | 0 <= i < |c'.segments| && c'.segments[i].End() >= r
      ensures NextStart(c', i) == c'.segments[i].End()
    {
      if i < |head| {
        ThinnedNext(c, c', head, i);
      } else {
        ThinnedNextLive(c, c', head, k, r, i);
      }
    }
  }

  lemma ThinnedShape(c: Cache, c': Cache, head: seq<Segment>)
    requires Live(c) && Thinned(c, c', head)
    ensures Shape(c')
  {
    hide Ordered, Covered, RetainedStart;
    var k := Expired(c.segments, RetainedStart(c));
    if c.writing {
      OpenSegmentIsLive(c);
      assert k < |c.segments|;
      assert c'.Last() == c.Last();
    }
    forall i | 0 <= i < |c'.segments|
      ensures c'.segments[i].complete <==> !(c'.writing && i == |c'.segments| - 1)
    {
      ThinnedOpen(c, c', head, k, i);
    }
  }

  lemma ThinnedOpen(c: Cache, c': Cache, head: seq<Segment>, k: nat, i: nat)
    requires Shape(c) && k <= |c.segments| && (c.writing ==> k < |c.segments|)
    requires c'.segments == head + c.segments[k..] && i < |c'.segments| && c'.writing == c.writing
    requires forall x :: x in head ==> x in c.segments[..k]
    ensures c'.segments[i].complete <==> !(c'.writing && i == |c'.segments| - 1)
  {
    hide Ordered, Shape;
    if i >= |head| {
      OnlyWriterIsOpen(c, i - |head| + k);
    } else {
      assert c'.segments[i] == head[i] && head[i] in c.segments[..k];
      var n :| 0 <= n < k && c.segments[n] == head[i];
      OnlyWriterIsOpen(c, n);
    }
  }

  lemma LiveSuffix(c: Cache)
    requires Shape(c)
    ensures forall i :: Expired(c.segments, RetainedStart(c)) <= i < |c.segments| ==> c.segments[i].End() > RetainedStart(c)
  {
    hide Ordered, RetainedStart;
    var k := Expired(c.segments, RetainedStart(c));
    forall i | k <= i < |c.segments| ensures c.segments[i].End() > RetainedStart(c) {
      if i > k {
        Before(c.segments, c.total, k, i);
        InRange(c.segments, c.total, i);
      }
    }
  }

  lemma TrimThins(c: Cache, pinned: set<string>, locked: set<string>) returns (head: seq<Segment>)
    requires Live(c) && Accounted(c)
    ensures Thinned(c, Trim(c, pinned, locked).cache, head)
  {
    hide Ordered, Covered, Holds, RetainedStart, SweepExpired;
    var r := RetainedStart(c);
    var k := Expired(c.segments, r);
    if HasExpired(c) {
      LiveSuffix(c);
      head := SweepKeepsSuffix(c.segments, k, c.disk, pinned, locked, r);
      SweepKeepsOrder(c.segments, c.disk, pinned, locked, r, c.total);
    } else {
      assert k == 0;
      assert c.segments[0..] == c.segments;
      head := [];
    }
  }

  /**
   * Trimming is invisible to the window: whichever files are pinned and wherever a
   * deletion fails, the window starts where it started and stays fully covered, and
   * the byte count stays exact.
   */
  lemma TrimKeepsWindow(c: Cache, pinned: set<string>, locked: set<string>)
    requires Live(c) && Accounted(c)
    ensures var c' := Trim(c, pinned, locked).cache;
            Live(c') && Accounted(c') && RetainedStart(c') == RetainedStart(c)
  {
    var c' := Trim(c, pinned, locked).cache;
    var head := TrimThins(c, pinned, locked);
    ThinnedStart(c, c', head);
    ThinnedCovered(c, c', head);
    ThinnedShape(c, c', head);
    SweepAccounts(c.segments, c.disk, pinned, locked, RetainedStart(c));
  }

  // ---------------------------------------------------------------- pushing

  /** What one turn of the push loop does to the list and its counters. */
  predicate Grown(c: Cache, c': Cache, n: nat) {
    var i := if c.writing then |c.segments| - 1 else |c.segments|;
    && 0 <= i <= |c.segments|
    && 0 < n
    && |c'.segments| == i + 1
    && (forall j :: 0 <= j < i ==> c'.segments[j] == c.segments[j])
    && c'.Last().start == (if c.writing then c.Last().start else c.total)
    && c'.Last().count == (if c.writing then c.Last().count else 0) + n
    && c'.Last().count <= c.cap
    && c'.Last().complete == (c'.Last().count == c.cap)
    && c'.writing == !c'.Last().complete
    && c'.total == c.total + n
    && c'.cap == c.cap && c'.limit == c.limit
    && c'.bytes == c.bytes + 2 * n
  }

  lemma TurnGrows(c: Cache, chunk: seq<Sample>)
    requires Shape(c) && CanPush(c)
    requires 0 < |chunk| <= Remaining(EnsureSegment(c))
    ensures Grown(c, Turn(c, chunk), |chunk|)
  {
  }

  lemma GrownShape(c: Cache, c': Cache, n: nat)
    requires Shape(c) && Grown(c, c', n)
    ensures Shape(c')
  {
  }

  lemma GrownHolds(c: Cache, c': Cache, n: nat, p: nat)
    requires Shape(c) && Grown(c, c', n) && Covered(c, p)
    ensures exists j :: 0 <= j < |c'.segments| && Holds(c', j, p)
  {
    if p < c.total {
      var j :| 0 <= j < |c.segments| && Holds(c, j, p);
      assert Holds(c', j, p);
    } else {
      assert Holds(c', |c'.segments| - 1, p);
    }
  }

  lemma GrownNext(c: Cache, c': Cache, n: nat, p: nat, j: nat)
    requires Shape(c) && Grown(c, c', n) && Covered(c, p)
    requires j < |c'.segments| && c'.segments[j].End() >= p
    ensures NextStart(c', j) == c'.segments[j].End()
  {
    if j < |c'.segments| - 1 {
      assert c'.segments[j] == c.segments[j];
      assert NextStart(c, j) == c.segments[j].End();
    }
  }

  lemma GrownCovered(c: Cache, c': Cache, n: nat, p: nat)
    requires Shape(c) && Grown(c, c', n) && Covered(c, p)
    ensures Covered(c', p)
  {
    GrownHolds(c, c', n, p);
    forall j | 0 <= j < |c'.segments| && c'.segments[j].End() >= p
      ensures NextStart(c', j) == c'.segments[j].End()
    {
      GrownNext(c, c', n, p, j);
    }
  }

  /** What is covered from one sample on is covered from any later one. */
  lemma {:induction false} CoveredFurther(c: Cache, p: nat, q: nat)
    requires Shape(c) && Covered(c, p) && p <= q <= c.total
    ensures Covered(c, q)
    decreases c.total - p
  {
    if p < c.total {
      var i :| 0 <= i < |c.segments| && Holds(c, i, p);
      if q < c.segments[i].End() {
        assert Holds(c, i, q);
      } else if i + 1 < |c.segments| {
        assert NextStart(c, i) == c.segments[i].End();
        assert Holds(c, i + 1, c.segments[i + 1].start);
        CoveredFurther(c, c.segments[i + 1].start, q);
      } else {
        assert NextStart(c, i) == c.segments[i].End();
      }
    }
  }

  lemma StartBounds(c: Cache)
    requires Shape(c)
    ensures |c.segments| > 0 ==> RetainedStart(c) >= c.segments[0].start
    ensures |c.segments| > 0 && c.total >= c.limit ==> RetainedStart(c) >= c.total - c.limit
    ensures RetainedStart(c) <= c.total
  {
    if |c.segments| > 0 && c.total >= c.limit {
      var k := LeadingStarts(c.segments, c.total - c.limit);
      assert 0 < k ==> c.segments[0].start <= c.segments[k - 1].start;
      assert 0 < k < |c.segments| ==> c.segments[0].End() <= c.segments[k].start;
    }
  }

  lemma GrownStart(c: Cache, c': Cache, n: nat)
    requires Live(c) && Shape(c') && Grown(c, c', n)
    ensures RetainedStart(c') >= RetainedStart(c)
  {
    StartBounds(c);
    StartBounds(c');
    if |c.segments| == 0 || c.total < c.limit || CutoffInWriter(c) {
      if |c.segments| > 0 && CutoffInWriter(c) {
        StartInWriter(c);
      }
    } else {
      StartAtBoundary(c);
      GrownStartAtBoundary(c, c', n);
    }
  }

  lemma GrownLeading(c: Cache, c': Cache, n: nat, m: nat, cutoff: nat, next: nat)
    requires Shape(c) && Grown(c, c', n)
    requires m <= |c.segments| && (m == |c.segments| ==> !c.writing)
    requires forall j :: 0 <= j < m ==> c.segments[j].start <= cutoff
    requires next == if m < |c.segments| then c.segments[m].start else c.total
    requires cutoff < next
    ensures LeadingStarts(c'.segments, cutoff) == m
    ensures m < |c'.segments| && c'.segments[m].start == next
    ensures m > 0 ==> c'.segments[m - 1] == c.segments[m - 1]
  {
    LeadingIs(c'.segments, cutoff, m);
  }

  lemma GrownStartAtBoundary(c: Cache, c': Cache, n: nat)
    requires Live(c) && Shape(c') && Grown(c, c', n)
    requires |c.segments| > 0 && c.total >= c.limit && !CutoffInWriter(c)
    ensures RetainedStart(c') >= RetainedStart(c)
  {
    hide Ordered, Covered, Holds, Shape;
    StartBounds(c');
    var m := LeadingStarts(c.segments, c.total - c.limit);
    StartFollows(c, m);
    var next := RetainedStart(c);
    var cutoff' := c'.total - c'.limit;
    if cutoff' < next {
      GrownWriter(c, c', n, m);
      GrownLeading(c, c', n, m, cutoff', next);
      if m > 0 {
        BoundaryStart(c', m, next);
      }
    }
  }

  lemma GrownWriter(c: Cache, c': Cache, n: nat, m: nat)
    requires Shape(c) && Grown(c, c', n) && |c.segments| > 0 && c.total >= c.limit && !CutoffInWriter(c)
    requires m == LeadingStarts(c.segments, c.total - c.limit)
    ensures m <= |c.segments| && (m == |c.segments| ==> !c.writing)
  {
    hide Ordered;
  }

  /** One turn of the push loop keeps the window covered and never moves its start back. */
  lemma TurnKeepsWindow(c: Cache, chunk: seq<Sample>)
    requires Live(c) && CanPush(c) && Accounted(c)
    requires 0 < |chunk| <= Remaining(EnsureSegment(c))
    ensures var c' := Turn(c, chunk);
            Live(c') && Accounted(c') && RetainedStart(c') >= RetainedStart(c)
  {
    var c' := Turn(c, chunk);
    TurnGrows(c, chunk);
    GrownShape(c, c', |chunk|);
    GrownStart(c, c', |chunk|);
    GrownCovered(c, c', |chunk|, RetainedStart(c));
    StartBounds(c');
    CoveredFurther(c', RetainedStart(c), RetainedStart(c'));
    GrownSum(c, c', |chunk|);
  }

  lemma {:induction false} SumOfParts(a: seq<Segment>, b: seq<Segment>)
    ensures SampleSum(a + b) == SampleSum(a) + SampleSum(b)
  {
    if |a| == 0 {
      assert a + b == b;
    } else {
      SumOfParts(a[1..], b);
      assert (a + b)[1..] == a[1..] + b;
    }
  }

  lemma GrownSum(c: Cache, c': Cache, n: nat)
    requires Grown(c, c', n)
    ensures SampleSum(c'.segments) == SampleSum(c.segments) + n
  {
    var i := |c'.segments| - 1;
    assert c'.segments[..i] == c.segments[..i];
    SumOfParts(c.segments[..i], c.segments[i..]);
    SumOfParts(c'.segments[..i], c'.segments[i..]);
    assert c.segments == c.segments[..i] + c.segments[i..];
    assert c'.segments == c'.segments[..i] + c'.segments[i..];
    if c.writing {
      assert c.segments[i..] == [c.Last()];
    } else {
      assert c.segments[i..] == [];
    }
    assert c'.segments[i..] == [c'.Last()];
  }

  /** After a trim that did not fail, whatever expired segment is still listed is pinned. */
  lemma TrimClears(c: Cache, pinned: set<string>, locked: set<string>)
    requires Live(c) && Accounted(c)
    ensures var t := Trim(c, pinned, locked);
            !t.failed ==> forall x :: x in t.cache.segments ==> !Disposable(x, pinned, RetainedStart(t.cache))
  {
    TrimKeepsWindow(c, pinned, locked);
    if HasExpired(c) {
      SweepClears(c.segments, c.disk, pinned, locked, RetainedStart(c));
    } else {
      LiveSuffix(c);
    }
  }
}
