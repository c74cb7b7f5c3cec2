/** Delivering an envelope, whenever and however often it arrives, keeps the invariant. */
module UploadDelivery {
  import opened Wrappers
  import opened UploadProtocol
  import opened UploadServer
  import opened UploadLedger
  import opened UploadEpochs
  import opened UploadClient
  import opened UploadSystem
  import opened UploadSteps

  // ---------------------------------------------------------------- what handling does to the sessions

  /** Sessions keep their stream and their place; only the given one's run may grow. */
  predicate SessionsKept(v: Server, l: Ledger, w: Server, k: Ledger, growing: Option<string>) {
    && v.cache <= w.cache
    && forall x :: x in v.sessions ==>
         && x in w.sessions && SessionGrows(v.sessions[x], w.sessions[x])
         && x in l.ends && x in k.ends && l.ends[x] <= k.ends[x]
         && (growing != Some(x) ==> k.ends[x] == l.ends[x])
  }

  function Growing(m: Message): Option<string> {
    if m.Pcm? then Some(m.id) else None
  }

  lemma HandleGrows(v: Server, l: Ledger, m: Message, id: string, fault: Fault)
    requires ServerInv(v, l) && id !in v.sessions
    ensures var w := Handle(v, m, id, fault).server;
            && SessionsKept(v, l, w, Booked(l, v, w, m, id), Growing(m))
            && (forall x :: x in w.sessions && x !in v.sessions ==> x == id && m.OpenOrResume?)
            && (v.audio.Some? ==> w.audio == v.audio)
  {
    hide ServerInv, Booked, SessionsKept, PushPcm, Resume, Resumes, ValidConfig;
    match m
    case Probe => EndGrows(v, l, m, "", v, id);
    case OpenOrResume(_, _, _, _, _, _) => OpenGrows(v, l, m, id, fault);
    case Pcm(session, start, samples) => PushGrows(v, l, m, id, fault);
    case Close(session, final) => EndGrows(v, l, m, session, CloseStream(v, session, final, fault).server, id);
    case MarkIncomplete(session) => EndGrows(v, l, m, session, MarkStreamIncomplete(v, session, fault).server, id);
  }

  lemma OpenGrows(v: Server, l: Ledger, m: Message, id: string, fault: Fault)
    requires ServerInv(v, l) && id !in v.sessions && m.OpenOrResume?
    ensures var w := OpenStream(v, m, id, fault).server;
            && SessionsKept(v, l, w, Booked(l, v, w, m, id), None)
            && (forall x :: x in w.sessions && x !in v.sessions ==> x == id)
  {
    hide ServerInv, Booked, ValidConfig, Resumes, Opened, SessionsKept, Resume;
    if OpenStream(v, m, id, fault).server == v {
      EndGrows(v, l, m, "", v, id);
    } else {
      OpenedGrows(v, l, m, id);
    }
  }

  lemma OpenedGrows(v: Server, l: Ledger, m: Message, id: string)
    requires ServerInv(v, l) && id !in v.sessions && m.OpenOrResume?
    ensures var w := Opened(v, id, m);
            && SessionsKept(v, l, w, Booked(l, v, w, m, id), None)
            && (forall x :: x in w.sessions && x !in v.sessions ==> x == id)
  {
    hide ServerInv, Superseded, Booked;
    SupersededKeeps(v);
    RunsKnown(v, l);
    BookedOpen(v, l, Opened(v, id, m), m, id);
  }

  lemma PushGrows(v: Server, l: Ledger, m: Message, id: string, fault: Fault)
    requires ServerInv(v, l) && id !in v.sessions && m.Pcm?
    ensures var w := PushPcm(v, m.id, m.start, m.samples, fault).server;
            SessionsKept(v, l, w, Booked(l, v, w, m, id), Some(m.id)) && w.sessions == v.sessions && w.audio == v.audio
  {
    hide ServerInv, Booked;
    RunsKnown(v, l);
    if PushPcm(v, m.id, m.start, m.samples, fault).server == v {
      BookedEnd(v, l, v, m, id);
    } else {
      BookedPush(v, l, m, id);
    }
  }

  lemma EndGrows(v: Server, l: Ledger, m: Message, session: string, w: Server, id: string)
    requires ServerInv(v, l) && id !in v.sessions
    requires w != v ==> session in v.sessions && session in w.sessions
                        && w.cache == v.cache && w.sessions == v.sessions[session := w.sessions[session]]
                        && SessionGrows(v.sessions[session], w.sessions[session])
    ensures SessionsKept(v, l, w, Booked(l, v, w, m, id), None)
    ensures w.sessions.Keys == v.sessions.Keys
  {
    hide ServerInv, Booked;
    RunsKnown(v, l);
    BookedEnd(v, l, w, m, id);
  }

  lemma RunsKnown(v: Server, l: Ledger)
    requires ServerInv(v, l)
    ensures forall x :: x in v.sessions ==> x in l.ends && v.sessions[x].cacheStart <= l.ends[x] <= |v.cache|
    ensures v.active.Some? ==> v.active.value in l.ends && l.ends[v.active.value] == |v.cache|
  {
    forall x | x in v.sessions ensures x in l.ends && v.sessions[x].cacheStart <= l.ends[x] <= |v.cache| {
      RunOf(v, l, x);
    }
  }

  lemma BookedOpen(v: Server, l: Ledger, w: Server, m: Message, id: string)
    requires id !in v.sessions && w.cache == v.cache
    ensures Booked(l, v, w, m, id).ends == if id in w.sessions then l.ends[id := |v.cache|] else l.ends
  {
  }

  lemma BookedPush(v: Server, l: Ledger, m: Message, id: string)
    requires id !in v.sessions && m.Pcm? && |m.samples| > 0
    ensures Booked(l, v, Appended(v, m.samples), m, id).ends == l.ends[m.id := |v.cache| + |m.samples|]
  {
  }

  lemma BookedEnd(v: Server, l: Ledger, w: Server, m: Message, id: string)
    requires id !in v.sessions && id !in w.sessions && w.cache == v.cache
    ensures Booked(l, v, w, m, id) == l
  {
  }

  // ---------------------------------------------------------------- the next message of an epoch

  /** One message is handled: what changes, and that nothing else does. */
  ghost predicate Handling(s: System, t: System, x: Envelope, now: nat, id: string, fault: Fault) {
    && x in s.sent && x.epoch in s.epochs && x.epoch in s.handled && x.epoch in s.driver
    && x.sequence == s.epochs[x.epoch].expected && id !in s.server.sessions && id != ""
    && var h := Handle(s.server, x.message, id, fault);
    && t.server == h.server && t.ledger == Booked(s.ledger, s.server, h.server, x.message, id)
    && t.epochs == s.epochs[x.epoch := Epoch(s.epochs[x.epoch].expiresAt, now, x.sequence + 1, true,
                                             Some(Stored(x, h.response)))]
    && t.handled == s.handled[x.epoch := s.handled[x.epoch] + [Exchange(x.message, h.response)]]
    && t.answers == s.answers + {Sealed(x.epoch, x.sequence, h.response, false)}
    && t.feeds == (if id in h.server.sessions then s.feeds[id := s.driver[x.epoch]] else s.feeds)
    && t.clients == s.clients && t.driver == s.driver && t.sent == s.sent && t.offered == s.offered
  }

  lemma HonestIsFair(s: System, who: nat, m: Message)
    requires Honest(s, who, m)
    ensures FairClose(s.server, s.ledger, m)
  {
  }

  lemma SessionsGrowing(s: System, t: System, growing: Option<string>)
    requires SessionsKept(s.server, s.ledger, t.server, t.ledger, growing)
    requires forall id :: id in s.server.sessions && id in s.feeds ==> id in t.feeds && t.feeds[id] == s.feeds[id]
    ensures SessionsGrow(s, t)
  {
  }

  lemma HandlingGrows(s: System, t: System, x: Envelope, now: nat, id: string, fault: Fault)
    requires ServerInv(s.server, s.ledger) && Handling(s, t, x, now, id, fault)
    ensures Grows(s, t)
  {
    hide ServerInv, Handle, Booked, SessionsKept, SessionsGrow;
    HandleGrows(s.server, s.ledger, x.message, id, fault);
    SessionsGrowing(s, t, Growing(x.message));
  }

  /** The position a session stands at when its run reaches the end of the cache. */
  lemma NextIsReached(s: System, id: string)
    requires id in s.server.sessions && id in s.ledger.ends
    requires s.server.sessions[id].cacheStart <= s.ledger.ends[id]
    ensures s.server.sessions[id].Next(s.ledger.ends[id]) == Reached(s, id) >= s.server.sessions[id].source
  {
  }

  /** The client that opened or resumed a stream is the one that feeds its session. */
  lemma SameFeeder(s: System, who: nat, id: string, m: Message)
    requires AllFed(s) && ClientsOk(s) && id in s.server.sessions && m.OpenOrResume?
    requires Honest(s, who, m) && s.server.sessions[id].key == KeyOf(m)
    ensures id in s.feeds && s.feeds[id] == who
  {
    assert Fed(s, id);
  }

  /** A resumed session that is still whole stands exactly at the end of its run. */
  lemma ResumePosition(v: Server, l: Ledger, id: string, m: Message)
    requires ServerInv(v, l) && id in v.sessions && m.OpenOrResume? && Resume(v, id, m).status.Accepted?
    ensures id in l.ends && Resume(v, id, m) == OkResponse(id, v.sessions[id].Next(l.ends[id]), 0)
    ensures v.sessions[id].cacheStart <= l.ends[id]
  {
    hide Tiles, Owned, Distinct, Listed, OnePerStream;
    RunsKnown(v, l);
  }

  /** What handling an OpenOrResume comes to, in terms of the state before. */
  lemma OpenHandled(v: Server, l: Ledger, m: Message, id: string, fault: Fault)
    requires ServerInv(v, l) && m.OpenOrResume? && id !in v.sessions
    requires OpenStream(v, m, id, fault).response.status.Accepted?
    ensures var h := OpenStream(v, m, id, fault);
            var k := Booked(l, v, h.server, m, id);
            if Resumes(v, m) then
              var known := v.streams[KeyOf(m)];
              && h.server == v && k == l && known in l.ends && v.sessions[known].key == KeyOf(m)
              && v.sessions[known].cacheStart <= l.ends[known]
              && h.response == OkResponse(known, v.sessions[known].Next(l.ends[known]), 0)
            else
              && h.response == OkResponse(id, m.source, 0) && h.server == Opened(v, id, m)
              && k.ends == l.ends[id := |v.cache|]
  {
    hide ServerInv, Resume, Opened, ValidConfig, Booked;
    if Resumes(v, m) {
      StreamsMatch(v, l, KeyOf(m));
      ResumePosition(v, l, v.streams[KeyOf(m)], m);
      NothingBooked(v, l, m, id);
    } else {
      OpenedCache(v, id, m);
      BookedOpen(v, l, Opened(v, id, m), m, id);
    }
  }

  lemma OpenedCache(v: Server, id: string, m: Message)
    requires m.OpenOrResume?
    ensures var w := Opened(v, id, m);
            w.cache == v.cache && id in w.sessions
            && w.sessions[id] == Session(KeyOf(m), m.source, |v.cache|, None, false, false)
  {
    hide Superseded;
  }

  /** Handling gave this response and took the server and its ledger here; the feeds follow. */
  ghost predicate Opening(s: System, t: System, m: Message, who: nat, id: string, fault: Fault) {
    && m.OpenOrResume? && id !in s.server.sessions && id != ""
    && var h := OpenStream(s.server, m, id, fault);
    && t.server == h.server && t.ledger == Booked(s.ledger, s.server, h.server, m, id)
    && t.feeds == (if id in h.server.sessions then s.feeds[id := who] else s.feeds)
  }

  lemma ResumedTruthful(s: System, t: System, m: Message, who: nat, id: string, fault: Fault)
    requires ServerInv(s.server, s.ledger) && AllFed(s) && ClientsOk(s) && Honest(s, who, m)
    requires Opening(s, t, m, who, id, fault) && Resumes(s.server, m)
    requires OpenStream(s.server, m, id, fault).response.status.Accepted?
    ensures Truthful(t, who, m, OpenStream(s.server, m, id, fault).response)
  {
    hide ServerInv, Honest, AllFed, ClientsOk, OpenStream, Booked, KeyOf;
    var v := s.server;
    StreamsMatch(v, s.ledger, KeyOf(m));
    var known := v.streams[KeyOf(m)];
    OpenHandled(v, s.ledger, m, id, fault);
    SameFeeder(s, who, known, m);
    NextIsReached(s, known);
    EmptyIdIsNone(s, known);
  }

  lemma NewTruthful(s: System, t: System, m: Message, who: nat, id: string, fault: Fault)
    requires ServerInv(s.server, s.ledger) && Opening(s, t, m, who, id, fault) && !Resumes(s.server, m)
    requires OpenStream(s.server, m, id, fault).response.status.Accepted?
    ensures Truthful(t, who, m, OpenStream(s.server, m, id, fault).response)
  {
    hide ServerInv, OpenStream, Opened, Booked, KeyOf, Resumes;
    OpenHandled(s.server, s.ledger, m, id, fault);
    OpenedCache(s.server, id, m);
  }

  lemma OpenTruthful(s: System, t: System, x: Envelope, now: nat, id: string, fault: Fault)
    requires ServerInv(s.server, s.ledger) && AllFed(s) && ClientsOk(s) && x.message.OpenOrResume?
    requires Handling(s, t, x, now, id, fault) && Honest(s, s.driver[x.epoch], x.message)
    ensures Truthful(t, s.driver[x.epoch], x.message, Handle(s.server, x.message, id, fault).response)
  {
    hide ServerInv, Honest, AllFed, ClientsOk, OpenStream, Booked, Resumes, Within;
    if OpenStream(s.server, x.message, id, fault).response.status.Accepted? {
      if Resumes(s.server, x.message) {
        ResumedTruthful(s, t, x.message, s.driver[x.epoch], id, fault);
      } else {
        NewTruthful(s, t, x.message, s.driver[x.epoch], id, fault);
      }
    }
  }

  lemma StreamsMatch(v: Server, l: Ledger, key: StreamKey)
    requires ServerInv(v, l) && key in v.streams
    ensures v.streams[key] in v.sessions && v.sessions[v.streams[key]].key == key
  {
  }

  lemma EmptyIdIsNone(s: System, id: string)
    requires AllFed(s) && id in s.server.sessions
    ensures id != ""
  {
  }

  lemma PushTruthful(s: System, t: System, x: Envelope, now: nat, id: string, fault: Fault)
    requires ServerInv(s.server, s.ledger) && x.message.Pcm?
    requires Handling(s, t, x, now, id, fault) && Honest(s, s.driver[x.epoch], x.message)
    ensures Truthful(t, s.driver[x.epoch], x.message, Handle(s.server, x.message, id, fault).response)
  {
    var m := x.message;
    var v := s.server;
    hide ServerInv, Booked;
    RunsKnown(v, s.ledger);
    if t.server == v {
      BookedEnd(v, s.ledger, v, m, id);
    } else {
      BookedPush(v, s.ledger, m, id);
    }
  }

  lemma HandlingTruthful(s: System, t: System, x: Envelope, now: nat, id: string, fault: Fault)
    requires ServerInv(s.server, s.ledger) && AllFed(s) && ClientsOk(s)
    requires Handling(s, t, x, now, id, fault) && Honest(s, s.driver[x.epoch], x.message)
    ensures Truthful(t, s.driver[x.epoch], x.message, Handle(s.server, x.message, id, fault).response)
  {
    hide ServerInv, AllFed, ClientsOk, Handling, Honest;
    if x.message.OpenOrResume? {
      OpenTruthful(s, t, x, now, id, fault);
    } else if x.message.Pcm? {
      PushTruthful(s, t, x, now, id, fault);
    }
  }

  // ---------------------------------------------------------------- the cache stays the clients' streams

  lemma UploadedKept(a: Session, b: Session, end: nat, cache: seq<Sample>, longer: seq<Sample>, stream: seq<Sample>)
    requires Uploaded(a, end, cache, stream) && SessionGrows(a, b) && cache <= longer
    ensures Uploaded(b, end, longer, stream)
  {
    assert longer[a.cacheStart..end] == cache[a.cacheStart..end];
  }

  /** Appending a client's samples at the expected place extends its session's run. */
  lemma UploadedMore(a: Session, cache: seq<Sample>, stream: seq<Sample>, start: nat, samples: seq<Sample>)
    requires Uploaded(a, |cache|, cache, stream) && start == a.Next(|cache|)
    requires start + |samples| <= |stream| && samples == stream[start..start + |samples|]
    ensures Uploaded(a, |cache| + |samples|, cache + samples, stream)
  {
    var more := cache + samples;
    assert more[a.cacheStart..|more|] == cache[a.cacheStart..] + samples;
    assert stream[a.source..start + |samples|] == stream[a.source..start] + stream[start..start + |samples|];
    assert cache[a.cacheStart..|cache|] == cache[a.cacheStart..];
  }

  lemma FedKept(s: System, t: System, id: string)
    requires Fed(s, id) && id in t.server.sessions && SessionGrows(s.server.sessions[id], t.server.sessions[id])
    requires id in t.ledger.ends && t.ledger.ends[id] == s.ledger.ends[id] && s.server.cache <= t.server.cache
    requires id in t.feeds && t.feeds[id] == s.feeds[id] && t.clients == s.clients
    requires s.server.audio.Some? ==> t.server.audio == s.server.audio
    ensures Fed(t, id)
  {
    hide Uploaded;
    UploadedKept(s.server.sessions[id], t.server.sessions[id], s.ledger.ends[id], s.server.cache, t.server.cache,
                 s.clients[s.feeds[id]].stream);
  }

  lemma FedPushed(s: System, t: System, x: Envelope, now: nat, id: string, fault: Fault)
    requires ServerInv(s.server, s.ledger) && AllFed(s) && x.message.Pcm?
    requires Handling(s, t, x, now, id, fault) && Honest(s, s.driver[x.epoch], x.message)
    requires t.server != s.server
    ensures Fed(t, x.message.id)
  {
    var m := x.message;
    hide ServerInv, Booked, AllFed, Uploaded;
    RunsKnown(s.server, s.ledger);
    BookedPush(s.server, s.ledger, m, id);
    AllFedAt(s, m.id);
    UploadedMore(s.server.sessions[m.id], s.server.cache, s.clients[s.feeds[m.id]].stream, m.start, m.samples);
  }

  lemma AllFedAt(s: System, id: string)
    requires AllFed(s) && id in s.server.sessions
    ensures Fed(s, id)
  {
  }

  lemma FedOpened(s: System, t: System, x: Envelope, now: nat, id: string, fault: Fault)
    requires Handling(s, t, x, now, id, fault) && Honest(s, s.driver[x.epoch], x.message)
    requires id in t.server.sessions && x.message.OpenOrResume?
    ensures Fed(t, id)
  {
    var w := t.server;
    var c := s.clients[s.driver[x.epoch]];
    hide Superseded;
    assert w.sessions[id] == Session(KeyOf(x.message), x.message.source, |w.cache|, None, false, false);
    assert w.cache[|w.cache|..|w.cache|] == [] == c.stream[x.message.source..x.message.source];
  }

  lemma FedAfter(s: System, t: System, x: Envelope, now: nat, id: string, fault: Fault)
    requires ServerInv(s.server, s.ledger) && AllFed(s)
    requires Handling(s, t, x, now, id, fault) && Honest(s, s.driver[x.epoch], x.message)
    ensures AllFed(t)
  {
    hide ServerInv, AllFed, Fed, Handle, Booked, Honest;
    HandleGrows(s.server, s.ledger, x.message, id, fault);
    FeedsAre(s);
    forall y | y in t.server.sessions ensures Fed(t, y) && y in t.feeds {
      if y !in s.server.sessions {
        FedOpened(s, t, x, now, id, fault);
        assert y in t.feeds;
      } else {
        AllFedAt(s, y);
        assert y in t.feeds && t.feeds[y] == s.feeds[y];
        if Growing(x.message) == Some(y) && t.server != s.server {
          FedPushed(s, t, x, now, id, fault);
        } else {
          SameServer(s.server, s.ledger, t.server, x.message, id);
          FedKept(s, t, y);
        }
      }
    }
    assert AllFed(t) by {
      AllFedIs(t);
    }
  }

  lemma SameServer(v: Server, l: Ledger, w: Server, m: Message, id: string)
    requires id !in v.sessions
    ensures w == v ==> Booked(l, v, w, m, id) == l
  {
  }

  lemma FeedsAre(s: System)
    requires AllFed(s)
    ensures "" !in s.server.sessions
    ensures forall id :: id in s.feeds ==> id in s.server.sessions
    ensures forall id :: id in s.server.sessions ==> id in s.feeds
  {
    forall id | id in s.server.sessions ensures id in s.feeds {
      assert Fed(s, id);
    }
  }

  lemma AllFedIs(s: System)
    requires "" !in s.server.sessions
    requires forall id :: id in s.feeds ==> id in s.server.sessions
    requires forall id :: id in s.server.sessions ==> Fed(s, id)
    ensures AllFed(s)
  {
  }

  // ---------------------------------------------------------------- the epoch's record

  lemma EpochsAfter(s: System, t: System, x: Envelope, now: nat, id: string, fault: Fault)
    requires EpochsOk(s) && Handling(s, t, x, now, id, fault)
    ensures EpochsOk(t)
  {
    hide Handle, Booked;
    assert EpochOk(s, x.epoch);
    assert EpochOk(t, x.epoch);
    forall e | e in t.epochs ensures EpochOk(t, e) {
      if e != x.epoch {
        assert EpochOk(s, e);
      }
    }
  }

  lemma RecordsAfter(s: System, t: System, x: Envelope, now: nat, id: string, fault: Fault)
    requires EpochsOk(s) && AllSent(s) && HandledOk(s) && AllAnswered(s)
    requires Handling(s, t, x, now, id, fault) && Grows(s, t)
    requires Truthful(t, s.driver[x.epoch], x.message, Handle(s.server, x.message, id, fault).response)
    ensures AllSent(t) && HandledOk(t) && AllAnswered(t)
  {
    hide Handle, Booked, Truthful, Grows, SentOk, AnswerOk;
    assert EpochOk(s, x.epoch);
    OldFacts(s, t);
    var n := |s.handled[x.epoch]|;
    assert t.handled[x.epoch][n].message == x.message && x == Envelope(x.epoch, n, x.message);
    assert ExchangeOk(t, x.epoch, n);
    assert AnswerOk(t, Sealed(x.epoch, n, t.handled[x.epoch][n].response, false)) by {
      AnswerOkIs(t, x.epoch, n);
    }
    hide ExchangeOk;
  }

  lemma AnswerOkIs(t: System, e: EpochId, n: nat)
    requires e in t.handled && n < |t.handled[e]|
    ensures AnswerOk(t, Sealed(e, n, t.handled[e][n].response, false))
  {
  }

  /** The message that was next is the one its client is waiting for, if it still waits. */
  lemma OwnLinkAfter(s: System, t: System, x: Envelope, now: nat, id: string, fault: Fault, who: nat, l: Link)
    requires EpochsOk(s) && LinkOk(s, who, l) && l.epoch == x.epoch
    requires Handling(s, t, x, now, id, fault) && Grows(s, t)
    ensures LinkOk(t, who, l)
  {
    hide Handle, Booked, Within, SessionsGrow, ClientsGrow;
    assert EpochOk(s, x.epoch);
    if l.id != "" {
      WithinGrows(s, t, l.id, who, l.remote);
    }
  }

  lemma LinksAfter(s: System, t: System, x: Envelope, now: nat, id: string, fault: Fault)
    requires EpochsOk(s) && LinksOk(s) && Handling(s, t, x, now, id, fault) && Grows(s, t)
    ensures LinksOk(t)
  {
    hide Handle, Booked, LinkOk, EpochsOk, Grows;
    forall w | w in t.clients && t.clients[w].link.Some? ensures LinkOk(t, w, t.clients[w].link.value) {
      var l := t.clients[w].link.value;
      EpochOfLink(s, w);
      if l.epoch == x.epoch {
        OwnLinkAfter(s, t, x, now, id, fault, w, l);
      } else {
        LinkStays(s, t, w, l);
      }
    }
  }

  lemma HandlingKeeps(s: System, t: System, x: Envelope, now: nat, id: string, fault: Fault)
    requires Inv(s) && Handling(s, t, x, now, id, fault)
    ensures Inv(t)
  {
    hide ServerInv, AllFed, ClientsOk, EpochsOk, HandledOk, AllAnswered, LinksOk, Handling, Handle, Honest, Grows, Truthful;
    HandlingSent(s, t, x, now, id, fault);
    SentHonest(s, x);
    HonestIsFair(s, s.driver[x.epoch], x.message);
    HandlingServer(s, t, x, now, id, fault);
    HandlingGrows(s, t, x, now, id, fault);
    HandlingTruthful(s, t, x, now, id, fault);
    FedAfter(s, t, x, now, id, fault);
    EpochsAfter(s, t, x, now, id, fault);
    RecordsAfter(s, t, x, now, id, fault);
    LinksAfter(s, t, x, now, id, fault);
    ClientsSame(s, t, x, now, id, fault);
  }

  lemma SentHonest(s: System, x: Envelope)
    requires AllSent(s) && x in s.sent
    ensures x.epoch in s.driver && x.epoch in s.handled && x.sequence <= |s.handled[x.epoch]|
    ensures Honest(s, s.driver[x.epoch], x.message)
  {
    hide Honest;
    assert SentOk(s, x);
  }

  lemma HandlingServer(s: System, t: System, x: Envelope, now: nat, id: string, fault: Fault)
    requires ServerInv(s.server, s.ledger) && Handling(s, t, x, now, id, fault)
    requires FairClose(s.server, s.ledger, x.message)
    ensures ServerInv(t.server, t.ledger)
  {
    hide ServerInv, Handle, Booked, FairClose;
    HandleKeeps(s.server, s.ledger, x.message, id, fault);
  }

  lemma ClientsSame(s: System, t: System, x: Envelope, now: nat, id: string, fault: Fault)
    requires ClientsOk(s) && OneMessageEach(s.sent) && Handling(s, t, x, now, id, fault)
    ensures ClientsOk(t) && OneMessageEach(t.sent)
  {
    hide Handle, Booked, Apart, OneMessageEach;
  }

  lemma HandlingSent(s: System, t: System, x: Envelope, now: nat, id: string, fault: Fault)
    requires Handling(s, t, x, now, id, fault)
    ensures x in s.sent
  {
  }

  // ---------------------------------------------------------------- every delivery

  /** No envelope ever arrives ahead of what its epoch expects. */
  lemma NoSequenceGap(s: System, x: Envelope)
    requires Inv(s) && x in s.sent && x.epoch in s.epochs
    ensures x.sequence <= s.epochs[x.epoch].expected
  {
    hide ServerInv, AllFed, ClientsOk, HandledOk, AllAnswered, LinksOk, Honest;
    SentHonest(s, x);
    assert EpochOk(s, x.epoch);
  }

  lemma DeliverNext(s: System, step: Step)
    requires Inv(s) && step.Deliver? && Enabled(s, step)
    requires IsNext(s.epochs, step.envelope, step.now, step.idle)
    ensures Handling(s, Delivered(s, step), step.envelope, step.now, step.newId, step.fault)
  {
    hide ServerInv, AllFed, ClientsOk, HandledOk, AllAnswered, LinksOk, Honest, Handle, Booked;
    SentHonest(s, step.envelope);
  }

  /** A repeated, late or rejected envelope changes no session, no sample and no record. */
  lemma DeliverAgain(s: System, step: Step)
    requires Inv(s) && step.Deliver? && Enabled(s, step)
    requires !IsNext(s.epochs, step.envelope, step.now, step.idle)
    ensures var t := Delivered(s, step);
            && t.server == s.server && t.ledger == s.ledger && t.handled == s.handled && t.feeds == s.feeds
            && t.clients == s.clients && t.sent == s.sent && t.driver == s.driver && t.offered == s.offered
            && t.epochs.Keys == s.epochs.Keys
            && (forall e :: e in s.epochs ==>
                  t.epochs[e].expected == s.epochs[e].expected && t.epochs[e].last == s.epochs[e].last
                  && t.epochs[e].active == s.epochs[e].active)
    ensures forall a :: a in Delivered(s, step).answers ==> a in s.answers || AnswerOk(s, a)
  {
    hide ServerInv, AllFed, ClientsOk, HandledOk, AllSent, AllAnswered, LinksOk, Honest, Handle;
    NothingBooked(s.server, s.ledger, step.envelope.message, step.newId);
    hide Booked;
    if step.envelope.epoch in s.epochs {
      NoSequenceGap(s, step.envelope);
      assert EpochOk(s, step.envelope.epoch);
    }
  }

  lemma RepeatKeeps(s: System, t: System)
    requires Inv(s)
    requires && t.server == s.server && t.ledger == s.ledger && t.handled == s.handled && t.feeds == s.feeds
             && t.clients == s.clients && t.sent == s.sent && t.driver == s.driver && t.offered == s.offered
             && t.epochs.Keys == s.epochs.Keys
             && (forall e :: e in s.epochs ==>
                   t.epochs[e].expected == s.epochs[e].expected && t.epochs[e].last == s.epochs[e].last
                   && t.epochs[e].active == s.epochs[e].active)
    requires forall a :: a in t.answers ==> a in s.answers || AnswerOk(s, a)
    ensures Inv(t)
  {
    hide ServerInv, AllFed, ClientsOk, HandledOk, AllSent, LinksOk, AnswerOk;
    EpochsRepeat(s, t);
    assert Grows(s, t) by {
      SameGrows(s, t);
    }
    hide EpochsOk, Grows, SessionsGrow, ClientsGrow;
    OldFacts(s, t);
    FedStaysGrown(s, t);
    ClientsStayGrown(s, t);
    LinksStay(s, t);
    SameRecords(s, t);
  }

  lemma SameGrows(s: System, t: System)
    requires t.server == s.server && t.ledger == s.ledger && t.handled == s.handled && t.feeds == s.feeds
    requires t.clients == s.clients && t.sent == s.sent && t.driver == s.driver
    ensures Grows(s, t)
  {
  }

  lemma SameRecords(s: System, t: System)
    requires AllSent(s) && HandledOk(s) && AllAnswered(s) && Grows(s, t) && t.sent == s.sent && t.handled == s.handled
    requires forall a :: a in t.answers ==> a in s.answers || AnswerOk(s, a)
    ensures AllSent(t) && HandledOk(t) && AllAnswered(t)
  {
    hide SentOk, ExchangeOk, Grows;
    OldFacts(s, t);
  }

  lemma EpochsRepeat(s: System, t: System)
    requires EpochsOk(s) && t.handled == s.handled && t.driver == s.driver && t.offered == s.offered
    requires t.epochs.Keys == s.epochs.Keys
    requires forall e :: e in s.epochs ==>
               t.epochs[e].expected == s.epochs[e].expected && t.epochs[e].last == s.epochs[e].last
               && t.epochs[e].active == s.epochs[e].active
    ensures EpochsOk(t)
  {
    forall e | e in t.epochs ensures EpochOk(t, e) {
      assert e in s.epochs && EpochOk(s, e);
    }
  }

  lemma DeliverKeeps(s: System, step: Step)
    requires Inv(s) && step.Deliver? && Enabled(s, step)
    ensures Inv(Delivered(s, step))
  {
    hide Inv, Handling, Delivered, EpochOk, IsNext;
    if IsNext(s.epochs, step.envelope, step.now, step.idle) {
      DeliverNext(s, step);
      HandlingKeeps(s, Delivered(s, step), step.envelope, step.now, step.newId, step.fault);
    } else {
      DeliverAgain(s, step);
      RepeatKeeps(s, Delivered(s, step));
    }
  }

  /** Every step keeps the invariant. */
  lemma StepKeeps(s: System, step: Step)
    requires Inv(s)
    ensures Inv(Apply(s, step))
  {
    hide Inv, Delivered, Acted, Establish, Sync, Receive, Fail, Stop, Issue;
    if Enabled(s, step) {
      match step
      case Activate(_, _, _, _, _) => ActivateKeeps(s, step);
      case Record(who, samples) => RecordKeeps(s, who, samples);
      case Challenge(_, _, _, _, _) => ChallengeKeeps(s, step);
      case Connect(who, epoch, retained) => ConnectKeeps(s, who, epoch, retained);
      case Tick(who, retained, total, chunk) => TickKeeps(s, who, retained, total, chunk);
      case Deliver(_, _, _, _, _) => DeliverKeeps(s, step);
      case Answer(who, answer) => AnswerKeeps(s, who, answer);
      case GiveUp(who) => GiveUpKeeps(s, who);
      case Leave(who) => LeaveKeeps(s, who);
    }
  }

  lemma {:induction false} RunKeeps(s: System, steps: seq<Step>)
    requires Inv(s)
    ensures Inv(Run(s, steps))
    decreases |steps|
  {
    hide Inv, Apply;
    if |steps| > 0 {
      StepKeeps(s, steps[0]);
      RunKeeps(Apply(s, steps[0]), steps[1..]);
    }
  }

  // ---------------------------------------------------------------- what every run guarantees

  /**
   * Exactly once, in order: whatever the network and the clients did, the cache slice of
   * every session that was not given up is the client's recorded stream from the session's
   * source on, without a hole, a repetition or a swap. The slice ends where the server
   * says it ends: at the stored end, or at the end of the cache while the session is open.
   */
  lemma ExactlyOnce(steps: seq<Step>, id: string)
    requires var s := Run(INITIAL, steps);
             id in s.server.sessions && !s.server.sessions[id].incomplete
    ensures var s := Run(INITIAL, steps);
            var x := s.server.sessions[id];
            var end := if x.cacheEnd.Some? then x.cacheEnd.value else |s.server.cache|;
            && id in s.feeds && s.feeds[id] in s.clients
            && var stream := s.clients[s.feeds[id]].stream;
            && StreamOf(s.clients[s.feeds[id]], x.key)
            && s.clients[s.feeds[id]].start <= x.source
            && x.cacheStart <= end <= |s.server.cache| && x.source + (end - x.cacheStart) <= |stream|
            && s.server.cache[x.cacheStart..end] == stream[x.source..x.source + (end - x.cacheStart)]
  {
    hide Run, Inv;
    var s := Run(INITIAL, steps);
    InitialInv();
    RunKeeps(INITIAL, steps);
    InvExactlyOnce(s, id);
  }

  lemma InvExactlyOnce(s: System, id: string)
    requires Inv(s) && id in s.server.sessions && !s.server.sessions[id].incomplete
    ensures var x := s.server.sessions[id];
            var end := if x.cacheEnd.Some? then x.cacheEnd.value else |s.server.cache|;
            Fed(s, id) && end == s.ledger.ends[id]
  {
    hide ServerInv, ClientsOk, EpochsOk, HandledOk, AllAnswered, AllSent, LinksOk, Fed;
    AllFedAt(s, id);
    OwnEnd(s.server, s.ledger, id);
  }

  lemma OwnEnd(v: Server, l: Ledger, id: string)
    requires ServerInv(v, l) && id in v.sessions && !v.sessions[id].incomplete
    ensures id in l.ends
    ensures l.ends[id] == if v.sessions[id].cacheEnd.Some? then v.sessions[id].cacheEnd.value else |v.cache|
  {
    hide Tiles, Owned, Distinct, Listed, OnePerStream;
    RunsKnown(v, l);
  }

  /**
   * The same of every run of the cache, also of sessions given up, closed late or marked
   * incomplete after others had written: what a session appended is its client's stream.
   */
  lemma EveryRunIsRecorded(steps: seq<Step>, i: nat)
    requires i < |Run(INITIAL, steps).ledger.runs|
    ensures var s := Run(INITIAL, steps);
            var run := s.ledger.runs[i];
            && run.id in s.server.sessions && run.id in s.feeds && s.feeds[run.id] in s.clients
            && var x := s.server.sessions[run.id];
            var stream := s.clients[s.feeds[run.id]].stream;
            && run.start <= run.end <= |s.server.cache| && x.source + (run.end - run.start) <= |stream|
            && s.server.cache[run.start..run.end] == stream[x.source..x.source + (run.end - run.start)]
  {
    hide Run, Inv;
    InitialInv();
    RunKeeps(INITIAL, steps);
    RunIsFed(Run(INITIAL, steps), i);
  }

  lemma RunIsFed(s: System, i: nat)
    requires Inv(s) && i < |s.ledger.runs|
    ensures var run := s.ledger.runs[i];
            Fed(s, run.id) && s.ledger.ends[run.id] == run.end && s.server.sessions[run.id].cacheStart == run.start
  {
    hide Tiles, Owned, Distinct, OneWriter, EndsKept, OnePerStream, ClientsOk, EpochsOk, HandledOk, AllAnswered, AllSent,
         LinksOk, Fed;
    AllFedAt(s, s.ledger.runs[i].id);
  }

  /**
   * In no run do two streams get the same key text: the text of a stream to be opened
   * finds that stream's session or none.
   */
  lemma KeysNeverCollide(steps: seq<Step>, x: Envelope, key: StreamKey)
    requires var s := Run(INITIAL, steps);
             x in s.sent && x.message.OpenOrResume? && key in s.server.streams && KeyText(KeyOf(x.message)) == KeyText(key)
    ensures KeyOf(x.message) == key
  {
    hide Run, ServerInv, EpochsOk, HandledOk, AllAnswered, LinksOk;
    InitialInv();
    RunKeeps(INITIAL, steps);
    var s := Run(INITIAL, steps);
    SentHonest(s, x);
    StreamHasNoNul(s, s.driver[x.epoch], KeyOf(x.message));
    StreamsMatch(s.server, s.ledger, key);
    AllFedAt(s, s.server.streams[key]);
    StreamHasNoNul(s, s.feeds[s.server.streams[key]], key);
    KeyTextIsInjective(KeyOf(x.message), key);
  }

  lemma StreamHasNoNul(s: System, who: nat, key: StreamKey)
    requires ClientsOk(s) && who in s.clients && StreamOf(s.clients[who], key)
    ensures '\0' !in key.stream
  {
    hide Apart;
    var n: nat :| key.stream == LogicalId(s.clients[who].activation, n);
    LogicalIdHasNoNul(s.clients[who].activation, n);
  }

  /**
   * Single writer: at most one session is open and it is the active one; the sessions'
   * runs, in opening order, tile the cache; and every sample was appended by the session
   * whose run it is in.
   */
  lemma SingleWriter(steps: seq<Step>)
    ensures var s := Run(INITIAL, steps);
            && (forall id :: id in s.server.sessions ==>
                  (s.server.sessions[id].Open() <==> s.server.active == Some(id)))
            && Tiles(s.ledger.runs, |s.server.cache|) && |s.ledger.owners| == |s.server.cache|
            && Owned(s.ledger.runs, s.ledger.owners) && Distinct(s.ledger.runs)
            && (forall id :: id in s.server.sessions <==> HasRun(s.ledger, id))
            && (forall i :: 0 <= i < |s.ledger.runs| ==>
                  s.server.sessions[s.ledger.runs[i].id].cacheStart == s.ledger.runs[i].start)
  {
    hide Run, Tiles, Owned, Distinct, OnePerStream, EndsKept, AllFed, ClientsOk, EpochsOk, HandledOk, AllAnswered,
         AllSent, LinksOk;
    InitialInv();
    RunKeeps(INITIAL, steps);
  }

  /**
   * The epoch layer: the messages an epoch handled are exactly sequences 0 to expected - 1
   * in order, each one a message that was sent under that sequence; no envelope is ever
   * ahead of its epoch; and delivering anything but the next envelope changes nothing,
   * while a repetition of the latest is given the identical response.
   */
  lemma EpochLayer(steps: seq<Step>, e: EpochId)
    requires e in Run(INITIAL, steps).epochs
    ensures var s := Run(INITIAL, steps);
            && e in s.handled && |s.handled[e]| == s.epochs[e].expected
            && (forall k :: 0 <= k < |s.handled[e]| ==> Envelope(e, k, s.handled[e][k].message) in s.sent)
            && (forall x :: x in s.sent && x.epoch == e ==> x.sequence <= s.epochs[e].expected)
            && (forall x, y :: x in s.sent && y in s.sent && x.epoch == y.epoch && x.sequence == y.sequence ==> x == y)
            && (forall a :: a in s.answers && a.epoch == e ==>
                  !a.conflict && a.sequence < |s.handled[e]| && a.response == s.handled[e][a.sequence].response)
  {
    hide Run, ServerInv, AllFed, ClientsOk, LinksOk, Honest, Truthful;
    var s := Run(INITIAL, steps);
    InitialInv();
    RunKeeps(INITIAL, steps);
    assert EpochOk(s, e);
    forall k | 0 <= k < |s.handled[e]| ensures Envelope(e, k, s.handled[e][k].message) in s.sent {
      assert ExchangeOk(s, e, k);
    }
    forall x | x in s.sent && x.epoch == e ensures x.sequence <= s.epochs[e].expected {
      NoSequenceGap(s, x);
    }
    forall a | a in s.answers && a.epoch == e
      ensures !a.conflict && a.sequence < |s.handled[e]| && a.response == s.handled[e][a.sequence].response
    {
      assert AnswerOk(s, a);
    }
  }

  /**
   * Acknowledgements are sound: the position a client believes in never exceeds what the
   * server holds for its session, nor what the client recorded, and no chunk in the
   * network starts before the activation or differs from the recorded stream.
   */
  lemma AcksAreSound(steps: seq<Step>, who: nat)
    requires Ready(Run(INITIAL, steps), who)
    ensures var s := Run(INITIAL, steps);
            var l := s.clients[who].link.value;
            && l.id in s.server.sessions && l.id in s.ledger.ends
            && s.server.sessions[l.id].source <= l.remote <= Reached(s, l.id)
            && s.clients[who].start <= l.remote <= |s.clients[who].stream|
  {
    hide Run, Inv;
    InitialInv();
    RunKeeps(INITIAL, steps);
    ReadyFacts(Run(INITIAL, steps), who);
  }

  lemma ChunksAreRecorded(steps: seq<Step>, x: Envelope)
    requires x in Run(INITIAL, steps).sent && x.message.Pcm?
    ensures var s := Run(INITIAL, steps);
            && x.epoch in s.driver && s.driver[x.epoch] in s.clients
            && var c := s.clients[s.driver[x.epoch]];
            && c.start <= x.message.start && x.message.start + |x.message.samples| <= |c.stream|
            && x.message.samples == c.stream[x.message.start..x.message.start + |x.message.samples|]
  {
    hide Run, ServerInv, AllFed, ClientsOk, EpochsOk, HandledOk, AllAnswered, LinksOk;
    InitialInv();
    RunKeeps(INITIAL, steps);
    SentHonest(Run(INITIAL, steps), x);
  }

  /** No chunk of a client, whenever it arrives, is ever rejected for its alignment. */
  lemma ChunksAreAligned(steps: seq<Step>, x: Envelope, fault: Fault)
    requires x in Run(INITIAL, steps).sent && x.message.Pcm?
    ensures var m := x.message;
            PushPcm(Run(INITIAL, steps).server, m.id, m.start, m.samples, fault).response.code != "invalid_pcm_alignment"
  {
    hide Run, ServerInv, ClientsOk, EpochsOk, HandledOk, AllAnswered, LinksOk;
    InitialInv();
    RunKeeps(INITIAL, steps);
    var s := Run(INITIAL, steps);
    SentHonest(s, x);
    AllFedAt(s, x.message.id);
  }

  /** In no run is a client ever told an invalid position for a chunk. */
  lemma InvalidAckIsUnreachable(steps: seq<Step>, who: nat, a: Sealed)
    requires var s := Run(INITIAL, steps);
             Receives(s, who, a) && s.clients[who].link.value.pending.value.Pcm?
    ensures var m := Run(INITIAL, steps).clients[who].link.value.pending.value;
            && !InvalidAck(m, a.response)
            && (a.response.status.Accepted? ==> a.response.next == m.start + |m.samples|)
  {
    hide Run, Inv;
    InitialInv();
    RunKeeps(INITIAL, steps);
    NoInvalidAck(Run(INITIAL, steps), who, a);
  }
}
