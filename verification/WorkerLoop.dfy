/**
 * The recorder worker as the program has it: one object that owns the recorder, the
 * pin map and the job table. Its command handlers, and the pinning an export thread
 * does, are proved to be the steps of ExportWorker.dfy.
 */
module WorkerLoop {
  import opened Wrappers
  import opened Recorder
  import C = SegmentCache
  import H = CacheHistory
  import E = ExportWorker
  import R = ExportRuns

  class RecorderWorker {
    const recorder: SegmentedRecorder
    var pins: map<string, nat>
    var jobs: map<nat, E.Job>
    var trims: nat
    var failed: bool

    ghost function View(): E.World
      reads this, recorder
    {
      E.World(recorder.View(), recorder.history, pins, jobs, trims, failed)
    }

    ghost predicate Valid()
      reads this, recorder
    {
      R.WorldInv(View())
    }

    constructor (recorder: SegmentedRecorder)
      requires recorder.Valid() && !C.HasExpired(recorder.View())
      ensures this.recorder == recorder && Valid()
      ensures View() == E.World(recorder.View(), recorder.history, map[], map[], 0, false)
    {
      this.recorder := recorder;
      pins, jobs, trims, failed := map[], map[], 0, false;
      new;
      R.StartIsSound(recorder.View(), recorder.history);
    }

    /** A pushed chunk: append it, and trim around the pins if something has expired. */
    method HandlePush(samples: seq<Sample>, locked: set<string>)
      requires Valid()
      modifies this, recorder
      ensures Valid()
      ensures H.Inv(old(recorder.View()), old(recorder.history))
      ensures View() == E.WorkerPush(old(View()), samples, locked)
    {
      hide H.Inv, C.PushSamples, C.SweepExpired, C.RetainedStart, R.PinsExact, R.JobsSound, R.Clean;
      R.PushStepKeeps(View(), samples, locked);
      H.PushKeeps(recorder.View(), recorder.history, samples);
      recorder.PushSamplesDeferTrim(samples);
      failed := false;
      var expired := recorder.HasExpiredSegments();
      if expired {
        failed := recorder.TrimExpiredSegmentsExcept(pins.Keys, locked);
      }
    }

    /** A queued trim request. */
    method HandleTrim(locked: set<string>)
      requires Valid() && trims > 0
      modifies this, recorder
      ensures Valid()
      ensures H.Inv(old(recorder.View()), old(recorder.history))
      ensures View() == E.WorkerTrim(old(View()), locked)
    {
      R.TrimStepKeeps(View(), locked);
      trims := trims - 1;
      failed := recorder.TrimExpiredSegmentsExcept(pins.Keys, locked);
    }

    static method RetainOverlapping(segments: seq<C.Segment>, a: nat, b: nat) returns (kept: seq<C.Segment>)
      ensures kept == E.Overlapping(segments, a, b)
    {
      kept := [];
      var i := 0;
      assert segments[0..] == segments;
      while i < |segments|
        invariant i <= |segments|
        invariant kept + E.Overlapping(segments[i..], a, b) == E.Overlapping(segments, a, b)
      {
        assert segments[i..][1..] == segments[i + 1..];
        if segments[i].Overlaps(a, b) {
          kept := kept + [segments[i]];
        }
        i := i + 1;
      }
      assert segments[i..] == [];
    }

    method PinSnapshotSegments(segments: seq<C.Segment>)
      modifies `pins
      ensures pins == E.PinAll(old(pins), segments)
    {
      var i := 0;
      while i < |segments|
        invariant i <= |segments|
        invariant pins == E.PinAll(old(pins), segments[..i])
      {
        assert segments[..i + 1][..i] == segments[..i];
        var name := segments[i].name;
        pins := pins[name := (if name in pins then pins[name] else 0) + 1];
        i := i + 1;
      }
      assert segments[..i] == segments;
    }

    method UnpinSnapshotSegments(segments: seq<C.Segment>)
      modifies `pins
      ensures pins == E.UnpinAll(old(pins), segments)
    {
      var i := 0;
      while i < |segments|
        invariant i <= |segments|
        invariant pins == E.UnpinAll(old(pins), segments[..i])
      {
        assert segments[..i + 1][..i] == segments[..i];
        var name := segments[i].name;
        if name in pins {
          var count := if pins[name] == 0 then 0 else pins[name] - 1;
          pins := pins[name := count];
          if count == 0 {
            pins := pins - {name};
          }
        }
        i := i + 1;
      }
      assert segments[..i] == segments;
    }

    /** An export request: freeze the window, pin what the export lists, start its thread. */
    method HandleSaveLatest(id: nat, request: E.Request)
      requires Valid() && id !in jobs
      modifies this, recorder
      ensures Valid()
      ensures H.Inv(old(recorder.View()), old(recorder.history))
      ensures View() == E.WorkerSave(old(View()), id, request)
    {
      hide H.Inv, C.RetainedStart, C.Flush, R.PinsExact, R.JobsSound, R.Clean, H.Frozen, E.NewJob, E.Overlapping;
      R.SaveStepKeeps(View(), id, request);
      var snapshot := recorder.Snapshot();
      match request {
        case Latest(n) =>
          var from := C.Max(if snapshot.total < n then 0 else snapshot.total - n, snapshot.retainedStart);
          var job := E.NewJob(snapshot.segments, from, snapshot.total);
          PinSnapshotSegments(job.segments);
          jobs := jobs[id := job];
        case Range(a, b, sameTimeline) =>
          if a < b && sameTimeline && a >= snapshot.retainedStart && b <= snapshot.total {
            var segments := RetainOverlapping(snapshot.segments, a, b);
            var job := E.NewJob(segments, a, b);
            PinSnapshotSegments(job.segments);
            jobs := jobs[id := job];
          }
      }
    }

    /** The end of an export thread, however it ended: unpin, then ask for a trim. */
    method ReleaseExport(id: nat)
      requires Valid() && id in jobs && jobs[id].copying
      modifies this
      ensures Valid()
      ensures View() == E.ExportRelease(old(View()), id)
    {
      R.ReleaseStepKeeps(View(), id);
      UnpinSnapshotSegments(jobs[id].segments);
      jobs := jobs[id := jobs[id].(copying := false)];
    }
  }
}
