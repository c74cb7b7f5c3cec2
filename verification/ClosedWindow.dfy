/**
 * The closed form of the live window. For a recorder that started empty and whose
 * replay limit is at least one segment, the binary search over the segment list, with
 * whatever gaps pinned exports left in it, always answers a plain arithmetic formula.
 */
module ClosedWindow {
  import opened Arithmetic
  import opened Wrappers
  import opened SegmentCache
  import opened CacheWindow

  /** Nothing expires below the limit; from there on whole segments do, equality included. */
  function ClosedStart(total: nat, cap: nat, limit: nat): nat
    requires cap > 0
  {
    if total < limit then 0 else ((total - limit) / cap + 1) * cap
  }

  /** Segments sit on multiples of the capacity, and closed ones are full. */
  predicate Aligned(c: Cache)
    requires c.cap > 0
  {
    && (forall i :: 0 <= i < |c.segments| ==>
          && c.segments[i].start % c.cap == 0
          && (c.segments[i].complete ==> c.segments[i].count == c.cap))
    && (!c.writing ==> c.total % c.cap == 0)
  }

  predicate Closed(c: Cache) {
    && Shape(c) && c.cap <= c.limit
    && Aligned(c)
    && Covered(c, ClosedStart(c.total, c.cap, c.limit))
  }

  lemma StartBracket(total: nat, cap: nat, limit: nat)
    requires 0 < cap <= limit <= total
    ensures var s := ClosedStart(total, cap, limit);
            s % cap == 0 && total - limit < s <= total - limit + cap
  {
    var cutoff := total - limit;
    MultipleOf(cutoff / cap, cap);
    assert cutoff == cutoff / cap * cap + cutoff % cap;
    assert (cutoff / cap + 1) * cap == cutoff / cap * cap + cap;
  }

  /** Below the limit the window starts at sample 0, above it at the next whole segment. */
  lemma ClosedStartIsRetained(c: Cache)
    requires Closed(c)
    ensures RetainedStart(c) == ClosedStart(c.total, c.cap, c.limit)
  {
    var s := ClosedStart(c.total, c.cap, c.limit);
    if c.total < c.limit {
      if c.total > 0 {
        var i :| 0 <= i < |c.segments| && Holds(c, i, 0);
        assert forall j :: 0 < j < |c.segments| ==> c.segments[0].End() <= c.segments[j].start;
      }
    } else {
      StartBracket(c.total, c.cap, c.limit);
      if s < c.total {
        var i :| 0 <= i < |c.segments| && Holds(c, i, s);
        SegmentAtBoundary(c, i, s);
        LeadingToBoundary(c, i, s);
      } else {
        LeadingToBoundary(c, |c.segments|, s);
      }
    }
  }

  lemma SegmentAtBoundary(c: Cache, i: nat, s: nat)
    requires Shape(c) && Aligned(c) && s % c.cap == 0
    requires i < |c.segments| && Holds(c, i, s)
    ensures c.segments[i].start == s
  {
    assert c.segments[i].count <= c.cap;
    if c.segments[i].start < s {
      MultiplesApart(c.segments[i].start, s, c.cap);
    }
  }

  lemma LeadingToBoundary(c: Cache, i: nat, s: nat)
    requires Closed(c) && c.total >= c.limit
    requires s == ClosedStart(c.total, c.cap, c.limit)
    requires i <= |c.segments|
    requires if i < |c.segments| then c.segments[i].start == s else c.total == s
    ensures RetainedStart(c) == s
  {
    var cutoff := c.total - c.limit;
    StartBracket(c.total, c.cap, c.limit);
    forall j | 0 <= j < i ensures c.segments[j].start <= cutoff {
      assert i < |c.segments| ==> c.segments[j].End() <= c.segments[i].start;
      MultiplesApart(c.segments[j].start, s, c.cap);
    }
    LeadingIs(c.segments, cutoff, i);
    if i > 0 {
      LastBeforeBoundary(c, i, s);
      BoundaryStart(c, i, s);
    }
  }

  lemma LastBeforeBoundary(c: Cache, i: nat, s: nat)
    requires Shape(c) && Aligned(c) && c.cap <= c.limit <= c.total
    requires s % c.cap == 0 && s <= c.total - c.limit + c.cap
    requires 0 < i <= |c.segments|
    requires if i < |c.segments| then c.segments[i].start == s else c.total == s
    ensures c.segments[i - 1].End() > c.total - c.limit ==> c.segments[i - 1].complete && c.segments[i - 1].End() == s
  {
    var last := c.segments[i - 1];
    assert last.End() <= s;
    if !last.complete {
      MultiplesApart(last.start, s, c.cap);
    } else {
      ModPlus(last.start, c.cap);
      if last.End() < s {
        MultiplesApart(last.End(), s, c.cap);
      }
    }
  }

  lemma FreshIsClosed(cap: nat, limit: nat)
    requires 0 < cap <= limit
    ensures Closed(Fresh(cap, limit))
  {
  }

  lemma StartMonotone(a: nat, b: nat, cap: nat, limit: nat)
    requires 0 < cap <= limit && a <= b
    ensures ClosedStart(a, cap, limit) <= ClosedStart(b, cap, limit)
    ensures ClosedStart(b, cap, limit) <= b
  {
    if b >= limit {
      StartBracket(b, cap, limit);
    }
    if a >= limit {
      StartBracket(a, cap, limit);
      var x, y := ClosedStart(a, cap, limit), ClosedStart(b, cap, limit);
      if y < x {
        MultiplesApart(y, x, cap);
      }
    }
  }

  lemma TurnKeepsClosed(c: Cache, chunk: seq<Sample>)
    requires Closed(c) && CanPush(c)
    requires 0 < |chunk| <= Remaining(EnsureSegment(c))
    ensures Closed(Turn(c, chunk))
  {
    var c' := Turn(c, chunk);
    TurnGrows(c, chunk);
    GrownShape(c, c', |chunk|);
    GrownAligned(c, c', |chunk|);
    GrownCovered(c, c', |chunk|, ClosedStart(c.total, c.cap, c.limit));
    StartMonotone(c.total, c'.total, c.cap, c.limit);
    CoveredFurther(c', ClosedStart(c.total, c.cap, c.limit), ClosedStart(c'.total, c.cap, c.limit));
  }

  lemma GrownAligned(c: Cache, c': Cache, n: nat)
    requires Shape(c) && Aligned(c) && Grown(c, c', n)
    ensures Aligned(c')
  {
    ModPlus(c'.Last().start, c.cap);
  }

  lemma TrimKeepsClosed(c: Cache, pinned: set<string>, locked: set<string>)
    requires Closed(c) && Accounted(c)
    ensures Closed(Trim(c, pinned, locked).cache)
  {
    var c' := Trim(c, pinned, locked).cache;
    ClosedStartIsRetained(c);
    TrimKeepsWindow(c, pinned, locked);
    if HasExpired(c) {
      SweepKeepsSome(c.segments, c.disk, pinned, locked, RetainedStart(c));
      assert forall i :: 0 <= i < |c'.segments| ==> c'.segments[i] in c.segments;
    }
  }
}
