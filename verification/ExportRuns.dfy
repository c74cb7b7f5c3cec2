/**
 * Export isolation over every interleaving of the worker with its export threads.
 */
module ExportRuns {
  import opened Wrappers
  import opened SegmentCache
  import opened CacheWindow
  import opened ClosedWindow
  import opened CacheHistory
  import opened ExportWorker

  /** The unfinished exports that list a file. */
  function Users(jobs: map<nat, Job>, name: string): set<nat> {
    set id | id in jobs && jobs[id].Uses(name)
  }

  ghost predicate PinsExact(pins: Pins, jobs: map<nat, Job>) {
    Positive(pins) && forall name :: PinCount(pins, name) == |Users(jobs, name)|
  }

  predicate JobSound(job: Job, disk: Disk, history: seq<Sample>) {
    if job.copying then CopySound(job, disk, history) else ResultSound(job, history)
  }

  predicate JobsSound(jobs: map<nat, Job>, disk: Disk, history: seq<Sample>) {
    forall id :: id in jobs ==> JobSound(jobs[id], disk, history)
  }

  predicate Clean(c: Cache, pins: Pins) {
    forall s :: s in c.segments ==> !Disposable(s, pins.Keys, RetainedStart(c))
  }

  predicate TrimOutstanding(w: World) {
    w.failed || w.trims > 0 || exists id :: id in w.jobs && !w.jobs[id].copying
  }

  ghost predicate WorldInv(w: World) {
    && Inv(w.cache, w.history)
    && PinsExact(w.pins, w.jobs)
    && JobsSound(w.jobs, w.cache.disk, w.history)
    && (TrimOutstanding(w) || Clean(w.cache, w.pins))
  }

  lemma UserPins(pins: Pins, jobs: map<nat, Job>, id: nat, name: string)
    requires PinsExact(pins, jobs) && id in jobs && jobs[id].Uses(name)
    ensures name in pins
  {
    assert id in Users(jobs, name);
    assert PinCount(pins, name) == |Users(jobs, name)|;
  }

  // ---------------------------------------------------------------- files only grow

  lemma TurnGrowsFiles(c: Cache, chunk: seq<Sample>)
    requires CanPush(c)
    ensures forall n :: n in c.disk ==> n in Turn(c, chunk).disk && c.disk[n] <= Turn(c, chunk).disk[n]
  {
    var e := EnsureSegment(c);
    assert forall n :: n in c.disk ==> n in e.disk && e.disk[n] == c.disk[n];
    var w := WriteSamples(e, chunk);
    assert forall n :: n in e.disk ==> n in w.disk && e.disk[n] <= w.disk[n];
  }

  lemma {:induction false} PushGrowsFiles(c: Cache, samples: seq<Sample>)
    requires CanPush(c)
    ensures forall n :: n in c.disk ==> n in PushSamples(c, samples).disk && c.disk[n] <= PushSamples(c, samples).disk[n]
    decreases |samples|
  {
    if |samples| > 0 {
      var n := TurnSize(c, |samples|);
      TurnGrowsFiles(c, samples[..n]);
      PushGrowsFiles(Turn(c, samples[..n]), samples[n..]);
    }
  }

  /** No trim removes or changes a pinned file. */
  lemma TrimKeepsPinned(c: Cache, history: seq<Sample>, pinned: set<string>, locked: set<string>)
    requires Inv(c, history)
    ensures forall n :: n in pinned && n in c.disk ==>
              n in Trim(c, pinned, locked).cache.disk && Trim(c, pinned, locked).cache.disk[n] == c.disk[n]
  {
    SweepKeepsFiles(c.segments, c.disk, pinned, locked, RetainedStart(c));
  }

  lemma FlushGrowsFiles(c: Cache)
    requires c.writing ==> |c.segments| > 0 && c.Last().name in c.disk
    ensures forall n :: n in c.disk ==> n in Flush(c).disk && c.disk[n] <= Flush(c).disk[n]
  {
  }

  /** Jobs stay sound while the files they pin only grow. */
  lemma JobsLater(pins: Pins, jobs: map<nat, Job>, disk: Disk, disk': Disk, history: seq<Sample>, more: seq<Sample>)
    requires PinsExact(pins, jobs) && JobsSound(jobs, disk, history)
    requires forall n :: n in pins && n in disk ==> n in disk' && disk[n] <= disk'[n]
    ensures JobsSound(jobs, disk', history + more)
  {
    forall id | id in jobs ensures JobSound(jobs[id], disk', history + more) {
      var job := jobs[id];
      if job.copying {
        forall s | s in job.segments ensures s.name in disk' && disk[s.name] <= disk'[s.name] {
          UserPins(pins, jobs, id, s.name);
          assert SegmentIntact(s, disk, history);
        }
        CopySoundLater(job, disk, disk', history, more);
      } else if job.Complete() {
        assert (history + more)[job.from..job.to] == history[job.from..job.to];
      }
    }
  }

  // ---------------------------------------------------------------- the worker's steps

  lemma PushStepKeeps(w: World, samples: seq<Sample>, locked: set<string>)
    requires WorldInv(w)
    ensures WorldInv(WorkerPush(w, samples, locked))
    ensures Closed(w.cache) ==> Closed(WorkerPush(w, samples, locked).cache)
  {
    PushKeeps(w.cache, w.history, samples);
    PushGrowsFiles(w.cache, samples);
    hide Inv, Closed, RetainedStart, PinsExact, JobsSound, PushSamples;
    var pushed := PushSamples(w.cache, samples);
    TrimKeeps(pushed, w.history + samples, w.pins.Keys, locked);
    TrimKeepsPinned(pushed, w.history + samples, w.pins.Keys, locked);
    CleanAfterTrim(pushed, w.history + samples, w.pins, locked);
    hide Trim;
    var w' := WorkerPush(w, samples, locked);
    JobsLater(w.pins, w.jobs, w.cache.disk, w'.cache.disk, w.history, samples);
  }

  lemma CleanAfterTrim(c: Cache, history: seq<Sample>, pins: Pins, locked: set<string>)
    requires Inv(c, history)
    ensures !Trim(c, pins.Keys, locked).failed ==> Clean(Trim(c, pins.Keys, locked).cache, pins)
  {
    TrimClears(c, pins.Keys, locked);
  }

  lemma TrimStepKeeps(w: World, locked: set<string>)
    requires WorldInv(w)
    ensures WorldInv(WorkerTrim(w, locked))
    ensures Closed(w.cache) ==> Closed(WorkerTrim(w, locked).cache)
  {
    hide Inv, Closed, RetainedStart, PinsExact, JobsSound;
    TrimKeeps(w.cache, w.history, w.pins.Keys, locked);
    TrimKeepsPinned(w.cache, w.history, w.pins.Keys, locked);
    CleanAfterTrim(w.cache, w.history, w.pins, locked);
    hide Trim;
    if w.trims > 0 {
      JobsLater(w.pins, w.jobs, w.cache.disk, WorkerTrim(w, locked).cache.disk, w.history, []);
      assert w.history + [] == w.history;
    }
  }

  lemma FlushStepKeeps(w: World)
    requires WorldInv(w)
    ensures WorldInv(w.(cache := Flush(w.cache)))
    ensures Closed(w.cache) ==> Closed(Flush(w.cache))
  {
    FlushKeeps(w.cache, w.history);
    FlushGrowsFiles(w.cache);
    var f := Flush(w.cache);
    JobsLater(w.pins, w.jobs, w.cache.disk, f.disk, w.history, []);
    assert w.history + [] == w.history;
    assert f.segments == w.cache.segments;
  }

  // ---------------------------------------------------------------- pins follow the jobs

  /** The pins after a job begins to use its files, or stops. */
  lemma UsersAfterSave(jobs: map<nat, Job>, id: nat, job: Job, name: string)
    requires id !in jobs && job.copying
    ensures |Users(jobs[id := job], name)| == |Users(jobs, name)| + One(Names(job.segments, name))
  {
    var after := Users(jobs[id := job], name);
    if Names(job.segments, name) {
      assert after == Users(jobs, name) + {id};
    } else {
      assert after == Users(jobs, name);
    }
  }

  lemma UsersAfterRelease(jobs: map<nat, Job>, id: nat, name: string)
    requires id in jobs && jobs[id].copying
    ensures Names(jobs[id].segments, name) ==> |Users(jobs, name)| > 0
    ensures |Users(jobs[id := jobs[id].(copying := false)], name)| ==
            |Users(jobs, name)| - One(Names(jobs[id].segments, name))
  {
    var after := Users(jobs[id := jobs[id].(copying := false)], name);
    if Names(jobs[id].segments, name) {
      assert id in Users(jobs, name);
      assert after == Users(jobs, name) - {id};
    } else {
      assert after == Users(jobs, name);
    }
  }

  lemma SaveKeepsPins(pins: Pins, jobs: map<nat, Job>, id: nat, job: Job)
    requires PinsExact(pins, jobs) && id !in jobs && job.copying && DistinctNames(job.segments)
    ensures PinsExact(PinAll(pins, job.segments), jobs[id := job])
    ensures pins.Keys <= PinAll(pins, job.segments).Keys
  {
    var p := PinAll(pins, job.segments);
    PinAllCounts(pins, job.segments, "");
    forall name ensures PinCount(p, name) == |Users(jobs[id := job], name)| && PinCount(p, name) >= PinCount(pins, name) {
      PinAllCounts(pins, job.segments, name);
      UsersAfterSave(jobs, id, job, name);
    }
    forall n | n in pins ensures n in p {
      assert PinCount(p, n) >= PinCount(pins, n);
    }
  }

  lemma ReleaseKeepsPins(pins: Pins, jobs: map<nat, Job>, id: nat)
    requires PinsExact(pins, jobs) && id in jobs && jobs[id].copying && DistinctNames(jobs[id].segments)
    ensures PinsExact(UnpinAll(pins, jobs[id].segments), jobs[id := jobs[id].(copying := false)])
  {
    var p := UnpinAll(pins, jobs[id].segments);
    UnpinAllCounts(pins, jobs[id].segments, "");
    forall name ensures PinCount(p, name) == |Users(jobs[id := jobs[id].(copying := false)], name)| {
      UnpinAllCounts(pins, jobs[id].segments, name);
      UsersAfterRelease(jobs, id, name);
      assert PinCount(pins, name) == |Users(jobs, name)|;
    }
  }

  lemma SaveStepKeeps(w: World, id: nat, request: Request)
    requires WorldInv(w) && id !in w.jobs
    ensures WorldInv(WorkerSave(w, id, request))
    ensures Closed(w.cache) ==> Closed(WorkerSave(w, id, request).cache)
  {
    hide Inv, Closed, RetainedStart, PinsExact, CopySound, Flush, Clean, JobsSound, Freeze;
    FlushStepKeeps(w);
    FlushFreezes(w.cache, w.history);
    InvFlushes(w.cache, w.history);
    var flushed := Flush(w.cache);
    match Freeze(flushed, request)
    case None =>
    case Some(job) =>
      FreezeIsSound(flushed, w.history, request);
      FreezeCopies(flushed, request);
      CopyDistinct(job, flushed.disk, w.history);
      SaveKeepsPins(w.pins, w.jobs, id, job);
      JobReplaced(w.jobs, id, job, flushed.disk, w.history);
      if Clean(flushed, w.pins) {
        CleanMore(flushed, w.pins, PinAll(w.pins, job.segments));
      }
      assert TrimOutstanding(w) ==> TrimOutstanding(WorkerSave(w, id, request)) by {
        if !w.failed && w.trims == 0 && TrimOutstanding(w) {
          var k :| k in w.jobs && !w.jobs[k].copying;
          assert k != id && !w.jobs[id := job][k].copying;
        }
      }
  }

  lemma InvFlushes(c: Cache, history: seq<Sample>)
    requires Inv(c, history)
    ensures c.writing ==> |c.segments| > 0 && c.Last().name in c.disk
  {
  }

  lemma FreezeCopies(c: Cache, request: Request)
    requires Freeze(c, request).Some?
    ensures Freeze(c, request).value.copying
  {
  }

  lemma JobReplaced(jobs: map<nat, Job>, id: nat, job: Job, disk: Disk, history: seq<Sample>)
    requires JobsSound(jobs, disk, history) && JobSound(job, disk, history)
    ensures JobsSound(jobs[id := job], disk, history)
  {
  }

  lemma CleanMore(c: Cache, pins: Pins, pins': Pins)
    requires pins.Keys <= pins'.Keys && Clean(c, pins)
    ensures Clean(c, pins')
  {
  }

  lemma CopyDistinct(job: Job, disk: Disk, history: seq<Sample>)
    requires CopySound(job, disk, history)
    ensures DistinctNames(job.segments)
  {
  }

  // ---------------------------------------------------------------- the threads' steps

  lemma SameUsers(pins: Pins, jobs: map<nat, Job>, jobs': map<nat, Job>)
    requires PinsExact(pins, jobs)
    requires forall name :: Users(jobs', name) == Users(jobs, name)
    ensures PinsExact(pins, jobs')
  {
    forall name ensures PinCount(pins, name) == |Users(jobs', name)| {
      assert PinCount(pins, name) == |Users(jobs, name)|;
    }
  }

  lemma CopyJobKeeps(job: Job, disk: Disk, history: seq<Sample>, n: nat)
    requires JobSound(job, disk, history)
    ensures var after := CopyChunk(job, disk, n);
            JobSound(after, disk, history) && after.copying == job.copying && after.segments == job.segments
  {
    hide CopySound;
    if job.copying {
      CopyKeepsSound(job, disk, history, n);
    }
  }

  lemma CopyStepKeeps(w: World, id: nat, n: nat)
    requires WorldInv(w)
    ensures WorldInv(ExportCopy(w, id, n))
  {
    hide Inv, RetainedStart, PinsExact, JobSound, CopyChunk, Clean;
    if id in w.jobs {
      var job := w.jobs[id];
      var job' := CopyChunk(job, w.cache.disk, n);
      var jobs' := w.jobs[id := job'];
      assert JobSound(job, w.cache.disk, w.history);
      CopyJobKeeps(job, w.cache.disk, w.history, n);
      JobReplaced(w.jobs, id, job', w.cache.disk, w.history);
      forall name ensures Users(jobs', name) == Users(w.jobs, name) {
        assert job'.Uses(name) == job.Uses(name);
      }
      SameUsers(w.pins, w.jobs, jobs');
      assert forall k :: k in w.jobs ==> jobs'[k].copying == w.jobs[k].copying;
    }
  }

  lemma ReleaseStepKeeps(w: World, id: nat)
    requires WorldInv(w)
    ensures WorldInv(ExportRelease(w, id))
  {
    if id in w.jobs && w.jobs[id].copying {
      var job := w.jobs[id];
      assert JobSound(job, w.cache.disk, w.history);
      ReleaseKeepsPins(w.pins, w.jobs, id);
      ReleasedResult(job, w.cache.disk, w.history);
      hide Inv, RetainedStart, CopySound, ResultSound, PinsExact;
      var w' := ExportRelease(w, id);
      assert !w'.jobs[id].copying;
    }
  }

  lemma ReleasedResult(job: Job, disk: Disk, history: seq<Sample>)
    requires CopySound(job, disk, history)
    ensures ResultSound(job.(copying := false), history)
  {
    if job.Complete() {
      assert job.written + [] == job.written;
    }
  }

  lemma NotifyStepKeeps(w: World, id: nat)
    requires WorldInv(w)
    ensures WorldInv(ExportNotify(w, id))
  {
    if id in w.jobs && !w.jobs[id].copying {
      hide Inv, RetainedStart, CopySound;
      forall name ensures Users(w.jobs - {id}, name) == Users(w.jobs, name) {
      }
    }
  }

  // ---------------------------------------------------------------- runs

  datatype Act =
    | Push(samples: seq<Sample>, locked: set<string>)
    | Save(id: nat, request: Request)
    | TrimNext(locked: set<string>)
    | ReadSomething
    | Copy(id: nat, n: nat)
    | Release(id: nat)
    | Notify(id: nat)

  /** One step of the worker or of a thread; job ids are never reused. */
  ghost function Act1(w: World, a: Act): (w': World)
    requires WorldInv(w)
    ensures WorldInv(w')
    ensures Closed(w.cache) ==> Closed(w'.cache)
  {
    match a
    case Push(samples, locked) => PushStepKeeps(w, samples, locked); WorkerPush(w, samples, locked)
    case Save(id, request) =>
      if id in w.jobs then w else SaveStepKeeps(w, id, request); WorkerSave(w, id, request)
    case TrimNext(locked) => TrimStepKeeps(w, locked); WorkerTrim(w, locked)
    case ReadSomething => FlushStepKeeps(w); w.(cache := Flush(w.cache))
    case Copy(id, n) => CopyStepKeeps(w, id, n); ExportCopy(w, id, n)
    case Release(id) => ReleaseStepKeeps(w, id); ExportRelease(w, id)
    case Notify(id) => NotifyStepKeeps(w, id); ExportNotify(w, id)
  }

  ghost function Acts(w: World, acts: seq<Act>): (w': World)
    requires WorldInv(w)
    ensures WorldInv(w')
    ensures Closed(w.cache) ==> Closed(w'.cache)
    decreases |acts|
  {
    if |acts| == 0 then w else Acts(Act1(w, acts[0]), acts[1..])
  }

  /** A worker that has just started, with no exports and nothing expired. */
  lemma StartIsSound(c: Cache, history: seq<Sample>)
    requires Inv(c, history) && !HasExpired(c)
    ensures WorldInv(World(c, history, map[], map[], 0, false))
  {
    forall name ensures PinCount(map[], name) == |Users(map[], name)| {
      assert Users(map[], name) == {};
    }
    LiveSuffix(c);
    assert Expired(c.segments, RetainedStart(c)) == 0;
  }

  /**
   * Export isolation. In every reachable state: a file's pin count is the number of
   * unfinished exports that list it; every such file is still there and still holds
   * its slice of the history; an export that reached its end wrote exactly its range;
   * none ever met a missing or short file; and once no export is left, the queue of
   * trims is empty and no deletion failed, no expired segment is left.
   */
  lemma ExportIsolation(start: World, acts: seq<Act>)
    requires WorldInv(start)
    ensures var w := Acts(start, acts);
            && (forall name :: PinCount(w.pins, name) == |Users(w.jobs, name)|)
            && (forall id :: id in w.jobs && w.jobs[id].copying ==>
                  forall s :: s in w.jobs[id].segments ==> SegmentIntact(s, w.cache.disk, w.history))
            && (forall id :: id in w.jobs && w.jobs[id].Complete() ==>
                  && w.jobs[id].from < w.jobs[id].to <= |w.history|
                  && w.jobs[id].written == w.history[w.jobs[id].from..w.jobs[id].to])
            && (forall id :: id in w.jobs && w.jobs[id].copying && w.jobs[id].broken ==>
                  w.jobs[id].to <= w.jobs[id].from)
            && (w.jobs == map[] && w.trims == 0 && !w.failed ==> !HasExpired(w.cache))
  {
    var w := Acts(start, acts);
    forall id | id in w.jobs && w.jobs[id].Complete()
      ensures w.jobs[id].from < w.jobs[id].to <= |w.history|
      ensures w.jobs[id].written == w.history[w.jobs[id].from..w.jobs[id].to]
    {
      assert JobSound(w.jobs[id], w.cache.disk, w.history);
      if w.jobs[id].copying {
        ReleasedResult(w.jobs[id], w.cache.disk, w.history);
      }
    }
    if w.jobs == map[] && w.trims == 0 && !w.failed {
      NoPinsWithoutJobs(w.pins, w.jobs);
      CleanHasNoExpired(w.cache);
    }
  }

  lemma CleanHasNoExpired(c: Cache)
    requires Clean(c, map[])
    ensures !HasExpired(c)
  {
    if |c.segments| > 0 {
      assert c.segments[0] in c.segments;
    }
  }

  lemma NoPinsWithoutJobs(pins: Pins, jobs: map<nat, Job>)
    requires PinsExact(pins, jobs) && jobs == map[]
    ensures pins == map[]
  {
    forall n ensures n !in pins {
      assert Users(jobs, n) == {};
      assert PinCount(pins, n) == |Users(jobs, n)|;
    }
  }

  /** No step touches the range of an export that goes on, and the history only grows. */
  lemma StepKeepsRange(w: World, a: Act, id: nat)
    requires WorldInv(w) && !(a.Save? && a.id == id)
    ensures var w' := Act1(w, a);
            && w.history <= w'.history
            && (id in w'.jobs ==> id in w.jobs && w'.jobs[id].from == w.jobs[id].from && w'.jobs[id].to == w.jobs[id].to)
  {
    hide Inv, Trim, PushSamples, Flush, RetainedStart, Pieces, PinAll, UnpinAll, WorkerSave, ExportCopy, WorkerPush,
         PinsExact, JobsSound;
    match a
    case Push(samples, locked) => PushHistory(w, samples, locked);
    case Copy(at, n) => CopyHistory(w, at, n);
    case Save(at, request) =>
      if at !in w.jobs {
        SaveHistory(w, at, request);
      }
    case _ =>
  }

  lemma SaveHistory(w: World, id: nat, request: Request)
    requires Inv(w.cache, w.history) && id !in w.jobs
    ensures var w' := WorkerSave(w, id, request);
            w'.history == w.history && forall x :: x in w'.jobs && x != id ==> x in w.jobs && w'.jobs[x] == w.jobs[x]
  {
    hide Inv, Flush, Freeze, PinAll;
  }

  lemma CopyHistory(w: World, id: nat, n: nat)
    ensures var w' := ExportCopy(w, id, n);
            && w'.history == w.history
            && (forall x :: x in w'.jobs ==>
                  x in w.jobs && w'.jobs[x].from == w.jobs[x].from && w'.jobs[x].to == w.jobs[x].to)
  {
  }

  lemma PushHistory(w: World, samples: seq<Sample>, locked: set<string>)
    requires Inv(w.cache, w.history)
    ensures WorkerPush(w, samples, locked).history == w.history + samples
    ensures WorkerPush(w, samples, locked).jobs == w.jobs
  {
  }

  lemma {:induction false} RunKeepsRange(w: World, acts: seq<Act>, id: nat)
    requires WorldInv(w) && forall a :: a in acts ==> !(a.Save? && a.id == id)
    ensures var w' := Acts(w, acts);
            && w.history <= w'.history
            && (id in w'.jobs ==> id in w.jobs && w'.jobs[id].from == w.jobs[id].from && w'.jobs[id].to == w.jobs[id].to)
    decreases |acts|
  {
    if |acts| > 0 {
      assert acts[0] in acts;
      assert forall a :: a in acts[1..] ==> a in acts;
      StepKeepsRange(w, acts[0], id);
      hide WorldInv, Act1;
      RunKeepsRange(Act1(w, acts[0]), acts[1..], id);
    }
  }

  /**
   * What an export writes was decided when it was requested: whatever the worker and
   * the other threads do afterwards, if the thread gets to its end it has written the
   * slice of the history of that moment.
   */
  lemma ExportWritesFrozenSlice(w: World, id: nat, request: Request, acts: seq<Act>)
    requires WorldInv(w) && id !in w.jobs
    requires forall a :: a in acts ==> !(a.Save? && a.id == id)
    requires CanFlush(w.cache)
    requires Freeze(Flush(w.cache), request).Some?
    ensures var job := Freeze(Flush(w.cache), request).value;
            var w' := Acts(Act1(w, Save(id, request)), acts);
            id in w'.jobs && w'.jobs[id].Complete() ==>
              job.from < job.to <= |w.history| && w'.jobs[id].written == w.history[job.from..job.to]
  {
    hide WorldInv, Acts, Act1, Freeze, RetainedStart, Users, PinCount, HasExpired, SegmentIntact;
    var saved := Act1(w, Save(id, request));
    var job := Freeze(Flush(w.cache), request).value;
    SaveStores(w, id, request);
    RunKeepsRange(saved, acts, id);
    ExportIsolation(saved, acts);
    FrozenRangeWithin(w, request);
    var w' := Acts(saved, acts);
    if id in w'.jobs && w'.jobs[id].Complete() {
      assert w'.history[..|w.history|] == w.history;
      assert w.history[job.from..job.to] == w'.history[..|w.history|][job.from..job.to];
    }
  }

  lemma SaveStores(w: World, id: nat, request: Request)
    requires WorldInv(w) && id !in w.jobs && CanFlush(w.cache)
    requires Freeze(Flush(w.cache), request).Some?
    ensures var saved := Act1(w, Save(id, request));
            saved.history == w.history && id in saved.jobs && saved.jobs[id] == Freeze(Flush(w.cache), request).value
  {
    hide Freeze;
  }

  predicate CanFlush(c: Cache) {
    c.writing ==> |c.segments| > 0 && c.Last().name in c.disk
  }

  lemma FrozenRangeWithin(w: World, request: Request)
    requires WorldInv(w) && CanFlush(w.cache) && Freeze(Flush(w.cache), request).Some?
    ensures Freeze(Flush(w.cache), request).value.to <= |w.history|
  {
    FlushKeeps(w.cache, w.history);
  }

  /** The last n samples, but no more than the window holds; a fixed range as it was given. */
  lemma FreezeRange(c: Cache, request: Request)
    requires RetainedStart(c) <= c.total
    ensures match request
            case Latest(n) =>
              && Freeze(c, request).Some?
              && var job := Freeze(c, request).value;
                 && RetainedStart(c) <= job.from <= job.to == c.total && job.to - job.from <= n
                 && (job.from == RetainedStart(c) || job.to - job.from == n)
            case Range(a, b, same) =>
              && (Freeze(c, request).Some? <==> a < b && same && RetainedStart(c) <= a && b <= c.total)
              && (Freeze(c, request).Some? ==>
                    Freeze(c, request).value.from == a && Freeze(c, request).value.to == b)
  {
  }
}
