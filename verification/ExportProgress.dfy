/**
 * Exports get to their end: each time a thread copies it gets on, nothing that the worker
 * or other threads do in between holds it up, and after finitely many turns its file holds
 * exactly the requested range.
 */
module ExportProgress {
  import opened Wrappers
  import opened SegmentCache
  import opened CacheWindow
  import opened CacheHistory
  import opened ExportWorker
  import opened ExportRuns
  import X = CacheExact

  /** Turns a thread needs at most: one for each sample and one for each piece. */
  function Work(plan: seq<Piece>): nat {
    if |plan| == 0 then 0 else plan[0].len + 1 + Work(plan[1..])
  }

  /** A turn of a thread that has something left writes the next samples of its range, or goes to its next piece. */
  lemma CopyGetsOn(job: Job, disk: Disk, history: seq<Sample>, n: nat)
    requires job.copying && !job.broken && |job.plan| > 0 && CopySound(job, disk, history)
    ensures var after := CopyChunk(job, disk, n);
            && after == job.(plan := after.plan, written := after.written) && Work(after.plan) < Work(job.plan)
            && job.written <= after.written
            && |after.written| == |job.written| + (if job.plan[0].len == 0 then 0
                                                   else if n == 0 then 1
                                                   else if n < job.plan[0].len then n else job.plan[0].len)
  {
    hide Frozen, DistinctNames, PlanWithin, Balanced;
    assert job.plan[0] in job.plan;
    var after := CopyChunk(job, disk, n);
    if job.plan[0].len > 0 {
      assert after.plan[1..] == job.plan[1..];
    }
  }

  /** A thread that holds on to its files. */
  predicate Copies(w: World, id: nat) {
    id in w.jobs && w.jobs[id].copying
  }

  predicate Another(a: Act, id: nat) {
    !(a.Copy? && a.id == id) && !(a.Release? && a.id == id)
  }

  /** Whatever else happens leaves a thread as it was. */
  lemma OthersLeaveJob(w: World, a: Act, id: nat)
    requires WorldInv(w) && Copies(w, id) && Another(a, id)
    ensures var w' := Act1(w, a);
            id in w'.jobs && w'.jobs[id] == w.jobs[id]
  {
    hide Inv, Trim, PushSamples, Flush, RetainedStart, PinAll, UnpinAll, WorkerSave, WorkerPush, PinsExact, JobsSound,
        CopyChunk;
    match a
    case Push(samples, locked) => PushHistory(w, samples, locked);
    case Save(at, request) =>
      if at !in w.jobs {
        SavedBeside(w, at, request, id);
      }
    case _ =>
  }

  lemma SavedBeside(w: World, at: nat, request: Request, id: nat)
    requires Inv(w.cache, w.history) && at !in w.jobs && id in w.jobs
    ensures var w' := WorkerSave(w, at, request);
            id in w'.jobs && w'.jobs[id] == w.jobs[id]
  {
    hide Inv, Flush, Freeze, PinAll;
  }

  /** The turns that a thread gets. */
  function Turns(acts: seq<Act>, id: nat): nat {
    if |acts| == 0 then 0 else (if acts[0].Copy? && acts[0].id == id then 1 else 0) + Turns(acts[1..], id)
  }

  lemma {:induction false} WorkIsDone(w: World, acts: seq<Act>, id: nat)
    requires WorldInv(w) && Copies(w, id) && !w.jobs[id].broken && Work(w.jobs[id].plan) <= Turns(acts, id)
    requires forall a :: a in acts ==> !(a.Release? && a.id == id)
    ensures var w' := Acts(w, acts);
            && Copies(w', id) && !w'.jobs[id].broken && |w'.jobs[id].plan| == 0
            && w'.jobs[id].from == w.jobs[id].from && w'.jobs[id].to == w.jobs[id].to
    decreases |acts|
  {
    if |acts| > 0 {
      assert acts[0] in acts;
      assert forall a :: a in acts[1..] ==> a in acts;
      var next := Act1(w, acts[0]);
      if Another(acts[0], id) {
        OthersLeaveJob(w, acts[0], id);
      } else {
        TurnTaken(w, id, acts[0].n);
      }
      hide WorldInv, Act1;
      WorkIsDone(next, acts[1..], id);
    }
  }

  lemma TurnTaken(w: World, id: nat, n: nat)
    requires WorldInv(w) && Copies(w, id) && !w.jobs[id].broken
    ensures var w' := Act1(w, Copy(id, n));
            && Copies(w', id) && !w'.jobs[id].broken
            && w'.jobs[id].from == w.jobs[id].from && w'.jobs[id].to == w.jobs[id].to
            && Work(w'.jobs[id].plan) <= (if Work(w.jobs[id].plan) == 0 then 0 else Work(w.jobs[id].plan) - 1)
  {
    hide Inv, PinsExact, RetainedStart, CopySound, CopyChunk, Clean;
    var job := w.jobs[id];
    assert JobSound(job, w.cache.disk, w.history);
    if |job.plan| > 0 {
      CopyGetsOn(job, w.cache.disk, w.history, n);
    } else {
      NothingToCopy(job, w.cache.disk, n);
    }
  }

  lemma NothingToCopy(job: Job, disk: Disk, n: nat)
    requires |job.plan| == 0
    ensures CopyChunk(job, disk, n) == job
  {
  }

  /**
   * An export completes. In every reachable state, whatever the worker and the other
   * threads do between its turns, a thread that has been given as many turns as its plan
   * needs has written exactly the range it was asked for, and can tell so.
   */
  lemma ExportCompletes(w: World, acts: seq<Act>, id: nat)
    requires WorldInv(w) && Copies(w, id) && w.jobs[id].from < w.jobs[id].to && Work(w.jobs[id].plan) <= Turns(acts, id)
    requires forall a :: a in acts ==> !(a.Release? && a.id == id)
    ensures var w', job := Acts(w, acts), w.jobs[id];
            && Copies(w', id) && w'.jobs[id].Complete() && job.to <= |w.history|
            && w'.jobs[id].written == w.history[job.from..job.to]
  {
    hide WorldInv, Acts, Act1, Work, Turns, Users, PinCount, HasExpired, SegmentIntact;
    NotBroken(w, id);
    WorkIsDone(w, acts, id);
    ExportIsolation(w, acts);
    HistoryGrows(w, acts);
    var w', job := Acts(w, acts), w.jobs[id];
    assert w'.history[job.from..job.to] == w'.history[..|w.history|][job.from..job.to];
  }

  lemma NotBroken(w: World, id: nat)
    requires WorldInv(w) && Copies(w, id) && w.jobs[id].from < w.jobs[id].to
    ensures !w.jobs[id].broken && w.jobs[id].to <= |w.history|
  {
    hide Inv, PinsExact, RetainedStart, Clean, Frozen, DistinctNames, PlanSound;
    assert JobSound(w.jobs[id], w.cache.disk, w.history);
  }

  lemma {:induction false} HistoryGrows(w: World, acts: seq<Act>)
    requires WorldInv(w)
    ensures w.history <= Acts(w, acts).history
    decreases |acts|
  {
    if |acts| > 0 {
      StepGrows(w, acts[0]);
      hide WorldInv, Act1;
      HistoryGrows(Act1(w, acts[0]), acts[1..]);
    }
  }

  lemma StepGrows(w: World, a: Act)
    requires WorldInv(w)
    ensures w.history <= Act1(w, a).history
  {
    hide WorldInv;
    match a
    case Save(id, request) =>
      if id !in w.jobs {
        InvOf(w);
        SaveHistory(w, id, request);
      }
    case _ => StepKeepsRange(w, a, 0);
  }

  lemma InvOf(w: World)
    requires WorldInv(w)
    ensures Inv(w.cache, w.history)
  {
  }

  /** What a request is given: a thread of its own, with nothing written yet and its files pinned. */
  lemma RequestIsTaken(w: World, id: nat, request: Request)
    requires WorldInv(w) && id !in w.jobs && ExportRuns.CanFlush(w.cache)
    ensures var w' := Act1(w, Save(id, request));
            (id in w'.jobs <==> Freeze(Flush(w.cache), request).Some?)
            && (id in w'.jobs ==> w'.jobs[id].copying && w'.jobs[id].written == []
                                  && forall s :: s in w'.jobs[id].segments ==> s.name in w'.pins)
  {
    hide WorldInv, Freeze, PinAll;
    var w' := Act1(w, Save(id, request));
    if Freeze(Flush(w.cache), request).Some? {
      NewIsFresh(Flush(w.cache), request);
      AllPinned(w', id);
    }
  }

  lemma NewIsFresh(c: Cache, request: Request)
    requires Freeze(c, request).Some?
    ensures Freeze(c, request).value.copying && Freeze(c, request).value.written == []
  {
    hide Pieces, Overlapping, RetainedStart;
  }

  lemma AllPinned(w: World, id: nat)
    requires WorldInv(w) && Copies(w, id)
    ensures forall s :: s in w.jobs[id].segments ==> s.name in w.pins
  {
    forall s | s in w.jobs[id].segments ensures s.name in w.pins {
      UserPins(w.pins, w.jobs, id, s.name);
    }
  }

  lemma {:induction false} TouchedAre(segments: seq<Segment>, a: nat, b: nat)
    ensures forall s :: s in Overlapping(segments, a, b) <==> s in segments && s.start < b && a < s.start + s.count
  {
    if |segments| > 0 {
      TouchedAre(segments[1..], a, b);
      assert forall s :: s in segments <==> s == segments[0] || s in segments[1..];
    }
  }

  /** An export of the latest samples holds on to the whole list, one of a fixed range to the segments it touches. */
  lemma ListsExactly(c: Cache, request: Request)
    requires Freeze(c, request).Some?
    ensures var held := Freeze(c, request).value.segments;
            match request
            case Latest(_) => held == c.segments
            case Range(a, b, _) => forall s :: s in held <==> s in c.segments && s.start < b && a < s.start + s.count
  {
    hide Pieces, RetainedStart;
    match request
    case Latest(_) =>
    case Range(a, b, _) => TouchedAre(c.segments, a, b);
  }

  // ---------------------------------------------------------------- winding down

  /** The end of a thread: it lets go of its files and is gone, and the worker has one more trim to do. */
  lemma EndsExactly(w: World, id: nat)
    requires WorldInv(w) && id in w.jobs
    ensures var r := Act1(w, Release(id));
            var n := Act1(r, Notify(id));
            && r.jobs.Keys == w.jobs.Keys && !r.jobs[id].copying && r.trims == w.trims && r.cache == w.cache
            && r.history == w.history
            && n.jobs == w.jobs - {id} && n.trims == w.trims + 1 && n.cache == w.cache && n.history == w.history
            && (forall name :: PinCount(n.pins, name) == |Users(w.jobs - {id}, name)|)
  {
    hide Inv, RetainedStart, CopySound, UnpinAll, Clean;
    var n := Act1(Act1(w, Release(id)), Notify(id));
    assert n.jobs == w.jobs - {id};
    hide Users, PinCount;
    PinsOf(n);
  }

  lemma PinsOf(w: World)
    requires WorldInv(w)
    ensures forall name :: PinCount(w.pins, name) == |Users(w.jobs, name)|
  {
    hide Inv, JobsSound, Clean;
  }

  /** A trim that the worker has to do is done once; it fails only at a file that cannot be deleted. */
  lemma TrimIsDone(w: World, locked: set<string>)
    requires WorldInv(w) && w.trims > 0
    ensures var t := Act1(w, TrimNext(locked));
            && t.trims == w.trims - 1 && t.jobs == w.jobs && t.pins == w.pins && t.history == w.history
            && (t.failed ==> exists s :: s in w.cache.segments && s.name in locked)
  {
    InvOf(w);
    var stop := X.TrimsExactly(w.cache, w.history, w.pins.Keys, locked);
    hide WorldInv, Inv, Trim, X.Swept, Ordered;
    var t := Act1(w, TrimNext(locked));
    if t.failed {
      assert w.cache.segments[stop] in w.cache.segments;
    }
  }

  lemma {:induction false} TrimsAreDone(w: World) returns (acts: seq<Act>)
    requires WorldInv(w) && w.trims > 0
    ensures var t := Acts(w, acts);
            t.trims == 0 && t.jobs == w.jobs && t.history == w.history && !t.failed
    decreases w.trims
  {
    hide WorldInv, Act1;
    TrimIsDone(w, {});
    var t := Act1(w, TrimNext({}));
    var rest: seq<Act> := [];
    if t.trims > 0 {
      rest := TrimsAreDone(t);
    }
    acts := [TrimNext({})] + rest;
    assert acts[1..] == rest;
  }

  lemma {:induction false} ThreadsEnd(w: World) returns (acts: seq<Act>)
    requires WorldInv(w)
    ensures var t := Acts(w, acts);
            t.jobs == map[] && t.trims == w.trims + |w.jobs| && t.history == w.history
    decreases |w.jobs|
  {
    hide WorldInv, Act1;
    if w.jobs == map[] {
      acts := [];
    } else {
      var id :| id in w.jobs;
      EndsExactly(w, id);
      OneLess(w.jobs, id);
      var r := Act1(w, Release(id));
      var rest := ThreadsEnd(Act1(r, Notify(id)));
      acts := [Release(id), Notify(id)] + rest;
      assert acts[1..][0] == Notify(id) && acts[1..][1..] == rest;
      assert Acts(w, acts) == Acts(r, acts[1..]);
    }
  }

  lemma OneLess(jobs: map<nat, Job>, id: nat)
    requires id in jobs
    ensures |jobs - {id}| == |jobs| - 1
  {
    assert (jobs - {id}).Keys == jobs.Keys - {id};
    assert |(jobs - {id}).Keys| == |jobs - {id}| && |jobs.Keys| == |jobs|;
  }

  lemma {:induction false} ActsJoin(w: World, a: seq<Act>, b: seq<Act>)
    requires WorldInv(w)
    ensures Acts(w, a + b) == Acts(Acts(w, a), b)
    decreases |a|
  {
    hide WorldInv, Act1;
    if |a| == 0 {
      assert a + b == b;
    } else {
      ActsJoin(Act1(w, a[0]), a[1..], b);
      assert (a + b)[0] == a[0] && (a + b)[1..] == a[1..] + b;
    }
  }

  /**
   * From every reachable state with exports or trims outstanding, once the threads have
   * ended and the worker has done its trims, with no file in the way, nothing is pinned
   * and no expired segment is left.
   */
  lemma WindsDown(w: World) returns (acts: seq<Act>)
    requires WorldInv(w) && (w.trims > 0 || |w.jobs| > 0)
    ensures var t := Acts(w, acts);
            t.jobs == map[] && t.pins == map[] && t.trims == 0 && !HasExpired(t.cache) && t.history == w.history
  {
    hide WorldInv, Act1, HasExpired, Users, PinCount, SegmentIntact;
    var a := ThreadsEnd(w);
    var b := TrimsAreDone(Acts(w, a));
    ActsJoin(w, a, b);
    acts := a + b;
    ExportIsolation(w, acts);
    NothingPinned(Acts(w, acts));
  }

  lemma NothingPinned(w: World)
    requires WorldInv(w) && w.jobs == map[]
    ensures w.pins == map[]
  {
    NoPinsWithoutJobs(w.pins, w.jobs);
  }
}
