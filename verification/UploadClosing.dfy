/**
 * What a closed session means: a session that is closed and not incomplete was closed by
 * its client at exactly the sample it reached, so it is the whole stretch the client
 * meant to upload.
 */
module UploadClosing {
  import opened Wrappers
  import opened UploadProtocol
  import opened UploadServer
  import opened UploadLedger
  import opened UploadEpochs
  import opened UploadClient
  import opened UploadSystem
  import opened UploadSteps
  import opened UploadDelivery

  predicate Whole(x: Session) {
    x.closed && !x.incomplete
  }

  /** The message closes the session at exactly the sample it reached. */
  predicate ClosesAt(m: Message, x: Session, id: string, end: nat) {
    m.Close? && m.id == id && m.final == x.source + (end - x.cacheStart)
  }

  /** Whole sessions were whole before, or are closed by this very message; their runs stay as they are. */
  predicate WholeFrom(v: Server, l: Ledger, w: Server, k: Ledger, m: Message) {
    forall x :: x in w.sessions && Whole(w.sessions[x]) ==>
      && x in v.sessions && x in l.ends && x in k.ends && k.ends[x] == l.ends[x]
      && (Whole(v.sessions[x]) || ClosesAt(m, v.sessions[x], x, l.ends[x]))
  }

  lemma OpenedWhole(v: Server, l: Ledger, m: Message, id: string)
    requires ServerInv(v, l) && id !in v.sessions && m.OpenOrResume?
    ensures WholeFrom(v, l, Opened(v, id, m), Booked(l, v, Opened(v, id, m), m, id), m)
  {
    hide ServerInv, Booked;
    RunsKnown(v, l);
    BookedOpen(v, l, Opened(v, id, m), m, id);
  }

  lemma SameWhole(v: Server, l: Ledger, m: Message, id: string)
    requires ServerInv(v, l) && id !in v.sessions
    ensures WholeFrom(v, l, v, Booked(l, v, v, m, id), m)
  {
    hide ServerInv, Booked;
    RunsKnown(v, l);
    NothingBooked(v, l, m, id);
  }

  /** The active session is open, so a run that grows is not a whole session's. */
  lemma ActiveIsNotWhole(v: Server, l: Ledger)
    requires ServerInv(v, l) && v.active.Some?
    ensures v.active.value in v.sessions && !Whole(v.sessions[v.active.value])
  {
    hide Owned, Distinct, EndsKept, OnePerStream;
    ActiveRun(v, l);
  }

  lemma AppendedWhole(v: Server, l: Ledger, m: Message, id: string)
    requires ServerInv(v, l) && id !in v.sessions && m.Pcm? && v.active == Some(m.id) && |m.samples| > 0
    ensures WholeFrom(v, l, Appended(v, m.samples), Booked(l, v, Appended(v, m.samples), m, id), m)
  {
    hide ServerInv, Booked;
    RunsKnown(v, l);
    BookedPush(v, l, m, id);
    ActiveIsNotWhole(v, l);
  }

  lemma EndedWhole(v: Server, l: Ledger, m: Message, at: string, session: Session, id: string)
    requires ServerInv(v, l) && id !in v.sessions && at in v.sessions
    requires session.cacheStart == v.sessions[at].cacheStart && session.source == v.sessions[at].source
    requires Whole(session) ==> at in l.ends && (Whole(v.sessions[at]) || ClosesAt(m, v.sessions[at], at, l.ends[at]))
    ensures WholeFrom(v, l, Ended(v, at, session), Booked(l, v, Ended(v, at, session), m, id), m)
  {
    hide ServerInv, Booked;
    RunsKnown(v, l);
    BookedEnd(v, l, Ended(v, at, session), m, id);
  }

  lemma CloseWhole(v: Server, l: Ledger, m: Message, id: string, fault: Fault)
    requires ServerInv(v, l) && FairClose(v, l, m) && id !in v.sessions && m.Close?
    ensures var w := CloseStream(v, m.id, m.final, fault).server;
            WholeFrom(v, l, w, Booked(l, v, w, m, id), m)
  {
    hide ServerInv, FairClose, Booked, Ended, WholeFrom;
    SameWhole(v, l, m, id);
    if CloseStream(v, m.id, m.final, fault).server != v {
      CloseAtEnd(v, l, m);
      RunsKnown(v, l);
      EndedWhole(v, l, m, m.id, v.sessions[m.id].(closed := true, cacheEnd := Some(|v.cache|)), id);
    }
  }

  lemma HandleWhole(v: Server, l: Ledger, m: Message, id: string, fault: Fault)
    requires ServerInv(v, l) && FairClose(v, l, m) && id !in v.sessions
    ensures var w := Handle(v, m, id, fault).server;
            WholeFrom(v, l, w, Booked(l, v, w, m, id), m)
  {
    hide ServerInv, FairClose, Booked, WholeFrom, Opened, Ended, CloseStream, ValidConfig, Resume;
    SameWhole(v, l, m, id);
    var w := Handle(v, m, id, fault).server;
    match m
    case Probe =>
    case OpenOrResume(_, _, _, _, _, _) =>
      if w != v {
        OpenedWhole(v, l, m, id);
      }
    case Pcm(_, _, samples) =>
      if w != v {
        AppendedWhole(v, l, m, id);
      }
    case Close(_, _) => CloseWhole(v, l, m, id, fault);
    case MarkIncomplete(at) =>
      if w != v {
        EndedWhole(v, l, m, at, v.sessions[at].(closed := true, incomplete := true, cacheEnd := Some(|v.cache|)), id);
      }
  }

  // ---------------------------------------------------------------- over whole runs

  /** The client sent a closing message for exactly the sample the session reached. */
  ghost predicate ClosedByClient(s: System, id: string) {
    && id in s.server.sessions && id in s.ledger.ends
    && exists x :: x in s.sent && ClosesAt(x.message, s.server.sessions[id], id, s.ledger.ends[id])
  }

  ghost predicate WholeAreClosed(s: System) {
    forall id :: id in s.server.sessions && Whole(s.server.sessions[id]) ==> ClosedByClient(s, id)
  }

  lemma ClosedStays(s: System, t: System, id: string)
    requires ClosedByClient(s, id) && s.sent <= t.sent && id in t.server.sessions && id in t.ledger.ends
    requires SessionGrows(s.server.sessions[id], t.server.sessions[id]) && t.ledger.ends[id] == s.ledger.ends[id]
    ensures ClosedByClient(t, id)
  {
    var x :| x in s.sent && ClosesAt(x.message, s.server.sessions[id], id, s.ledger.ends[id]);
    assert ClosesAt(x.message, t.server.sessions[id], id, t.ledger.ends[id]);
  }

  lemma SameServerCloses(s: System, t: System)
    requires WholeAreClosed(s) && t.server == s.server && t.ledger == s.ledger && s.sent <= t.sent
    ensures WholeAreClosed(t)
  {
    hide ClosedByClient;
    forall id | id in t.server.sessions && Whole(t.server.sessions[id]) ensures ClosedByClient(t, id) {
      ClosedEnds(s, id);
      ClosedStays(s, t, id);
    }
  }

  lemma ClosedEnds(s: System, id: string)
    requires ClosedByClient(s, id)
    ensures id in s.server.sessions && id in s.ledger.ends
  {
  }

  lemma NewlyClosed(s: System, t: System, x: Envelope, id: string)
    requires x in s.sent && s.sent <= t.sent && id in s.server.sessions && id in s.ledger.ends
    requires ClosesAt(x.message, s.server.sessions[id], id, s.ledger.ends[id])
    requires id in t.server.sessions && id in t.ledger.ends
    requires SessionGrows(s.server.sessions[id], t.server.sessions[id]) && t.ledger.ends[id] == s.ledger.ends[id]
    ensures ClosedByClient(t, id)
  {
    assert ClosesAt(x.message, t.server.sessions[id], id, t.ledger.ends[id]);
  }

  lemma HandlingCloses(s: System, t: System, x: Envelope, now: nat, id: string, fault: Fault)
    requires Inv(s) && WholeAreClosed(s) && Handling(s, t, x, now, id, fault)
    ensures WholeAreClosed(t)
  {
    hide ServerInv, AllFed, ClientsOk, EpochsOk, HandledOk, AllAnswered, LinksOk, Honest, Handle, Booked, ClosedByClient,
         SessionsKept;
    SentHonest(s, x);
    HonestIsFair(s, s.driver[x.epoch], x.message);
    HandleWhole(s.server, s.ledger, x.message, id, fault);
    HandleGrows(s.server, s.ledger, x.message, id, fault);
    forall y | y in t.server.sessions && Whole(t.server.sessions[y]) ensures ClosedByClient(t, y) {
      KeptSession(s.server, s.ledger, t.server, t.ledger, Growing(x.message), y);
      if Whole(s.server.sessions[y]) {
        ClosedStays(s, t, y);
      } else {
        NewlyClosed(s, t, x, y);
      }
    }
  }

  lemma KeptSession(v: Server, l: Ledger, w: Server, k: Ledger, growing: Option<string>, id: string)
    requires SessionsKept(v, l, w, k, growing) && id in v.sessions
    ensures id in w.sessions && SessionGrows(v.sessions[id], w.sessions[id])
  {
  }

  lemma StepCloses(s: System, step: Step)
    requires Inv(s) && WholeAreClosed(s)
    ensures WholeAreClosed(Apply(s, step))
  {
    hide Inv, WholeAreClosed, Handling, Establish, Sync, Receive, Fail, Stop, Issue, IsNext, Process, NewClient;
    if Enabled(s, step) {
      if step.Deliver? {
        var t := Delivered(s, step);
        hide Delivered;
        if IsNext(s.epochs, step.envelope, step.now, step.idle) {
          DeliverNext(s, step);
          HandlingCloses(s, t, step.envelope, step.now, step.newId, step.fault);
        } else {
          DeliverAgain(s, step);
          SameServerCloses(s, t);
        }
      } else {
        hide Enabled;
        SameServerCloses(s, Apply(s, step));
      }
    }
  }

  lemma {:induction false} RunCloses(s: System, steps: seq<Step>)
    requires Inv(s) && WholeAreClosed(s)
    ensures Inv(Run(s, steps)) && WholeAreClosed(Run(s, steps))
    decreases |steps|
  {
    hide Inv, WholeAreClosed, Apply;
    if |steps| > 0 {
      StepCloses(s, steps[0]);
      StepKeeps(s, steps[0]);
      RunCloses(Apply(s, steps[0]), steps[1..]);
    }
  }

  /**
   * A session is closed and not incomplete only if its client closed it, at the very
   * sample the session's run ends with: its stored run is all the client meant to upload,
   * from the source to the sample named in the closing message.
   */
  lemma ClosedIsComplete(steps: seq<Step>, id: string)
    requires var s := Run(INITIAL, steps);
             id in s.server.sessions && s.server.sessions[id].closed && !s.server.sessions[id].incomplete
    ensures var s := Run(INITIAL, steps);
            var x := s.server.sessions[id];
            && x.cacheEnd.Some? && x.cacheStart <= x.cacheEnd.value <= |s.server.cache|
            && id in s.feeds && s.feeds[id] in s.clients
            && var stream := s.clients[s.feeds[id]].stream;
            var final := x.source + (x.cacheEnd.value - x.cacheStart);
            && (exists e :: e in s.sent && e.message == Close(id, final))
            && final <= |stream| && s.server.cache[x.cacheStart..x.cacheEnd.value] == stream[x.source..final]
  {
    hide Run, Inv;
    InitialInv();
    RunCloses(INITIAL, steps);
    var s := Run(INITIAL, steps);
    InvExactlyOnce(s, id);
    ClosedHasEnd(s, id);
    assert ClosedByClient(s, id);
    var e :| e in s.sent && ClosesAt(e.message, s.server.sessions[id], id, s.ledger.ends[id]);
    assert e.message == Close(id, e.message.final);
  }

  lemma ClosedHasEnd(s: System, id: string)
    requires Inv(s) && id in s.server.sessions && Whole(s.server.sessions[id])
    ensures id in s.ledger.ends && s.server.sessions[id].cacheEnd == Some(s.ledger.ends[id])
  {
    hide Tiles, Owned, Distinct, Listed, OneWriter, OnePerStream, AllFed, ClientsOk, EpochsOk, HandledOk, AllAnswered,
         AllSent, LinksOk;
  }
}
