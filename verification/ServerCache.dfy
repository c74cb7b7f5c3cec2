/**
 * The server keeps the uploaded samples in a recorder of its own: what is read back from
 * its rolling cache is what the clients recorded.
 */
module ServerCache {
  import opened Wrappers
  import opened UploadServer
  import opened UploadLedger
  import opened UploadSystem
  import D = UploadDelivery
  import C = SegmentCache
  import H = CacheHistory

  /** What one step of the upload makes the server's recorder do: push and trim, and flush unless that failed. */
  ghost function Pushed(s: System, step: Step, locked: set<string>): seq<H.Event> {
    var before, after := s.server.cache, Apply(s, step).server.cache;
    if |after| <= |before| then []
    else if step.Deliver? && step.fault.LateFault? then [H.PushAndTrim(after[|before|..], locked)]
    else [H.PushAndTrim(after[|before|..], locked), H.FlushWriter]
  }

  /** The same for a whole run; `locks` names the files that cannot be deleted at each step. */
  ghost function AllPushed(s: System, steps: seq<Step>, locks: seq<set<string>>): seq<H.Event>
    requires |locks| == |steps|
    decreases |steps|
  {
    if |steps| == 0 then []
    else Pushed(s, steps[0], locks[0]) + AllPushed(Apply(s, steps[0]), steps[1..], locks[1..])
  }

  lemma {:induction false} RecordedJoin(a: seq<H.Event>, b: seq<H.Event>)
    ensures H.AllRecorded(a + b) == H.AllRecorded(a) + H.AllRecorded(b)
  {
    if |a| == 0 {
      assert a + b == b;
    } else {
      RecordedJoin(a[1..], b);
      assert (a + b)[1..] == a[1..] + b && (a + b)[0] == a[0];
    }
  }

  /** The server's cache is only ever appended to. */
  lemma StepAppends(s: System, step: Step)
    requires Inv(s)
    ensures s.server.cache <= Apply(s, step).server.cache
  {
    hide Inv, D.Handling, UploadClient.Establish, UploadClient.Sync, UploadClient.Receive, UploadClient.Fail,
         UploadClient.Stop, UploadEpochs.Process, UploadEpochs.IsNext;
    if Enabled(s, step) && step.Deliver? {
      if UploadEpochs.IsNext(s.epochs, step.envelope, step.now, step.idle) {
        D.DeliverNext(s, step);
        HandlingAppends(s, Delivered(s, step), step);
      } else {
        D.DeliverAgain(s, step);
      }
    }
  }

  lemma HandlingAppends(s: System, t: System, step: Step)
    requires Inv(s) && step.Deliver? && D.Handling(s, t, step.envelope, step.now, step.newId, step.fault)
    ensures s.server.cache <= t.server.cache
  {
    hide ServerInv, AllFed, ClientsOk, EpochsOk, HandledOk, AllAnswered, AllSent, LinksOk, Handle, Booked;
    D.HandleGrows(s.server, s.ledger, step.envelope.message, step.newId, step.fault);
  }

  lemma PushedIs(s: System, step: Step, locked: set<string>)
    requires s.server.cache <= Apply(s, step).server.cache
    ensures s.server.cache + H.AllRecorded(Pushed(s, step, locked)) == Apply(s, step).server.cache
  {
    hide Apply;
    var p := Pushed(s, step, locked);
    if |p| > 0 {
      assert p[1..] == [] || (p[1..] == [H.FlushWriter] && p[1..][1..] == []);
      assert H.AllRecorded(p[1..]) == [];
    }
  }

  lemma Regroup<T>(a: seq<T>, p: seq<T>, q: seq<T>)
    ensures (a + p) + q == a + (p + q)
  {
  }

  lemma FirstPushed(s: System, steps: seq<Step>, locks: seq<set<string>>)
    requires |locks| == |steps| > 0
    ensures AllPushed(s, steps, locks)
            == Pushed(s, steps[0], locks[0]) + AllPushed(Apply(s, steps[0]), steps[1..], locks[1..])
    ensures Run(s, steps) == Run(Apply(s, steps[0]), steps[1..])
  {
    hide Apply, Pushed;
  }

  /** Over every run the server's recorder is given exactly the samples of the cache. */
  lemma {:induction false} PushedIsTheCache(s: System, steps: seq<Step>, locks: seq<set<string>>)
    requires Inv(s) && |locks| == |steps|
    ensures s.server.cache + H.AllRecorded(AllPushed(s, steps, locks)) == Run(s, steps).server.cache
    decreases |steps|
  {
    if |steps| == 0 {
      assert s.server.cache + [] == s.server.cache;
    } else {
      hide *;
      var t, p := Apply(s, steps[0]), Pushed(s, steps[0], locks[0]);
      var q := AllPushed(t, steps[1..], locks[1..]);
      StepAppends(s, steps[0]);
      D.StepKeeps(s, steps[0]);
      PushedIs(s, steps[0], locks[0]);
      PushedIsTheCache(t, steps[1..], locks[1..]);
      FirstPushed(s, steps, locks);
      RecordedJoin(p, q);
      Regroup(s.server.cache, H.AllRecorded(p), H.AllRecorded(q));
    }
  }

  /** A recorder that was given the cache reads a session's range as the client's recorded slice. */
  lemma RangeIsRecorded(s: System, events: seq<H.Event>, cap: nat, limit: nat, i: nat, a: nat, b: nat)
    requires Inv(s) && cap > 0 && limit > 0 && H.AllRecorded(events) == s.server.cache && i < |s.ledger.runs|
    requires s.ledger.runs[i].start <= a < b <= s.ledger.runs[i].end
    ensures H.Inv(C.Fresh(cap, limit), [])
    ensures var recorder := H.Run(H.Tape(C.Fresh(cap, limit), []), events).cache;
            && (recorder.writing ==> |recorder.segments| > 0 && recorder.Last().name in recorder.disk)
            && var flushed := C.Flush(recorder);
            var run := s.ledger.runs[i];
            && run.id in s.server.sessions && run.id in s.feeds && s.feeds[run.id] in s.clients
            && var source := s.server.sessions[run.id].source;
            var stream := s.clients[s.feeds[run.id]].stream;
            && source + (run.end - run.start) <= |stream|
            && (C.RetainedStart(recorder) <= a ==>
                  C.ReadRange(C.SnapshotOf(flushed), flushed.disk, a, b)
                  == Ok(stream[source + (a - run.start)..source + (b - run.start)]))
  {
    hide Inv, H.Inv, H.Run, C.RetainedStart, C.ReadRange, C.Flush;
    H.FreshInv(cap, limit);
    var tape := H.Tape(C.Fresh(cap, limit), []);
    var t := H.Run(tape, events);
    H.CanFlush(t.cache, t.history);
    D.RunIsFed(s, i);
    var run := s.ledger.runs[i];
    assert [] + H.AllRecorded(events) == s.server.cache;
    SliceOfRun(s.server.sessions[run.id], run.end, s.server.cache, s.clients[s.feeds[run.id]].stream, a, b);
    if C.RetainedStart(t.cache) <= a {
      H.WindowReadsHistory(tape, events, a, b);
    }
  }

  lemma SliceOfRun(x: Session, end: nat, cache: seq<Sample>, stream: seq<Sample>, a: nat, b: nat)
    requires Uploaded(x, end, cache, stream) && x.cacheStart <= a <= b <= end
    ensures cache[a..b] == stream[x.source + (a - x.cacheStart)..x.source + (b - x.cacheStart)]
  {
    H.SubSlice(cache, x.cacheStart, end, a - x.cacheStart, b - x.cacheStart);
    H.SubSlice(stream, x.source, x.source + (end - x.cacheStart), a - x.cacheStart, b - x.cacheStart);
  }

  /**
   * From microphone to server: after any run of the upload, and whatever files could not
   * be deleted meanwhile, a range of a session that is inside the server's window is read
   * from its segment files as exactly the slice that the session's client recorded.
   */
  lemma ServerReadsWhatClientsRecorded(steps: seq<Step>, locks: seq<set<string>>, cap: nat, limit: nat, i: nat,
                                       a: nat, b: nat)
    requires |locks| == |steps| && cap > 0 && limit > 0
    requires var runs := Run(INITIAL, steps).ledger.runs;
             i < |runs| && runs[i].start <= a < b <= runs[i].end
    ensures H.Inv(C.Fresh(cap, limit), [])
    ensures var s := Run(INITIAL, steps);
            var recorder := H.Run(H.Tape(C.Fresh(cap, limit), []), AllPushed(INITIAL, steps, locks)).cache;
            && (recorder.writing ==> |recorder.segments| > 0 && recorder.Last().name in recorder.disk)
            && var flushed := C.Flush(recorder);
            var run := s.ledger.runs[i];
            && run.id in s.server.sessions && run.id in s.feeds && s.feeds[run.id] in s.clients
            && var source := s.server.sessions[run.id].source;
            var stream := s.clients[s.feeds[run.id]].stream;
            && source + (run.end - run.start) <= |stream|
            && (C.RetainedStart(recorder) <= a ==>
                  C.ReadRange(C.SnapshotOf(flushed), flushed.disk, a, b)
                  == Ok(stream[source + (a - run.start)..source + (b - run.start)]))
  {
    hide Run, Inv, H.Inv, H.Run, C.RetainedStart, C.ReadRange, C.Flush, AllPushed;
    InitialInv();
    D.RunKeeps(INITIAL, steps);
    PushedIsTheCache(INITIAL, steps, locks);
    assert INITIAL.server.cache == [] && [] + H.AllRecorded(AllPushed(INITIAL, steps, locks))
           == H.AllRecorded(AllPushed(INITIAL, steps, locks));
    RangeIsRecorded(Run(INITIAL, steps), AllPushed(INITIAL, steps, locks), cap, limit, i, a, b);
  }
}
