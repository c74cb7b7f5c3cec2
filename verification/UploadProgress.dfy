/**
 * The upload gets on: if what a client sends is delivered and answered in time, the chunk
 * is stored, the client moves on by it, and in the end the server has everything recorded.
 */
module UploadProgress {
  import opened Wrappers
  import opened UploadProtocol
  import opened UploadServer
  import opened UploadLedger
  import opened UploadEpochs
  import opened UploadClient
  import opened UploadSystem
  import opened UploadAnswers
  import S = UploadSteps
  import D = UploadDelivery
  import U = UploadCalls

  /** A client at rest in the active session, at the position behind all the server has of it. */
  ghost predicate Fluent(s: System, who: nat) {
    && Ready(s, who)
    && var l := s.clients[who].link.value;
    && s.server.active == Some(l.id) && l.id in s.server.sessions && l.epoch in s.epochs
    && l.remote == s.server.sessions[l.id].source + (|s.server.cache| - s.server.sessions[l.id].cacheStart)
  }

  /** The system after a chunk went through: the cache and the client have moved on by it, and the epoch was seen. */
  ghost predicate MovedOn(s: System, t: System, who: nat, n: nat, now: nat) {
    && Fluent(s, who)
    && var c := s.clients[who];
    var l := c.link.value;
    && l.remote + n <= |c.stream|
    && t.server == s.server.(cache := s.server.cache + c.stream[l.remote..l.remote + n])
    && t.clients == s.clients[who := c.(link := Some(l.(sequence := l.sequence + 1, remote := l.remote + n)))]
    && l.epoch in t.epochs && t.epochs[l.epoch].active && t.epochs[l.epoch].lastSeen == now
  }

  /** What is known of a client at rest: its epoch handled all it sent, and its session's audio is its own. */
  lemma RestFacts(s: System, who: nat)
    requires Inv(s) && Ready(s, who)
    ensures var c := s.clients[who];
            var l := c.link.value;
            && c.audio.channels > 0 && c.start <= l.remote && l.id != "" && l.id in s.server.sessions
            && s.server.audio == Some(c.audio)
            && (l.epoch in s.epochs ==> s.epochs[l.epoch].expected == l.sequence)
  {
    hide ServerInv, ClientsOk, HandledOk, AllAnswered, AllSent, OneMessageEach;
    S.ReadyFacts(s, who);
    var l := s.clients[who].link.value;
    assert Fed(s, l.id);
    if l.epoch in s.epochs {
      assert EpochOk(s, l.epoch);
    }
  }

  function ChunkMessage(s: System, who: nat, n: nat): Message
    requires Ready(s, who) && s.clients[who].link.value.remote + n <= |s.clients[who].stream|
  {
    var l := s.clients[who].link.value;
    Pcm(l.id, l.remote, s.clients[who].stream[l.remote..l.remote + n])
  }

  predicate SentChunk(s: System, t: System, who: nat, n: nat) {
    && Ready(s, who)
    && var c := s.clients[who];
    var l := c.link.value;
    && l.remote + n <= |c.stream|
    && var m := ChunkMessage(s, who, n);
    t == s.(clients := s.clients[who := c.(link := Some(l.(pending := Some(m))))],
            sent := s.sent + {Envelope(l.epoch, l.sequence, m)})
  }

  ghost predicate StoredChunk(s: System, t: System, who: nat, n: nat, now: nat) {
    && Ready(s, who)
    && var c := s.clients[who];
    var l := c.link.value;
    && l.remote + n <= |c.stream|
    && var m := ChunkMessage(s, who, n);
    && t.server == s.server.(cache := s.server.cache + m.samples)
    && t.clients == s.clients[who := c.(link := Some(l.(pending := Some(m))))]
    && Sealed(l.epoch, l.sequence, OkResponse(l.id, l.remote + n, n), false) in t.answers
    && l.epoch in t.epochs && t.epochs[l.epoch].active && t.epochs[l.epoch].lastSeen == now
  }

  /** The client's tick sends the chunk. */
  lemma TickSendsChunk(s: System, who: nat, retained: nat, total: nat, maximum: nat, n: nat)
    requires Inv(s) && Ready(s, who)
    requires var c := s.clients[who];
             var l := c.link.value;
             && retained <= l.remote <= total <= |c.stream| && 0 < n && c.audio.channels > 0
             && l.remote + n == ChunkEnd(c, l, total, maximum) <= total
    ensures SentChunk(s, Apply(s, Tick(who, retained, total, maximum)), who, n)
  {
    hide Inv, ChunkEnd;
    RestFacts(s, who);
  }

  /** An envelope that is next in its living epoch is handled, and its answer is in the network. */
  lemma DeliverHandles(s: System, x: Envelope, now: nat, idle: nat, newId: string)
    requires x in s.sent && newId !in s.server.sessions && newId != "" && x.epoch in s.epochs
    requires x.sequence == s.epochs[x.epoch].expected
    requires if s.epochs[x.epoch].active then now <= s.epochs[x.epoch].lastSeen + idle
        else now <= s.epochs[x.epoch].expiresAt
    ensures var step := Deliver(x, now, idle, newId, NoFault);
            var t := Apply(s, step);
            var h := Handle(s.server, x.message, newId, NoFault);
            && t.server == h.server && t.clients == s.clients && t.sent == s.sent && t.offered == s.offered
            && Sealed(x.epoch, x.sequence, h.response, false) in t.answers
            && x.epoch in t.epochs && t.epochs[x.epoch].active && t.epochs[x.epoch].lastSeen == now
  {
    hide Handle, Booked;
    AnsweredByPlace(s.server, s.epochs, x, now, idle, newId, NoFault);
  }

  /** The client takes over the position that an accepted chunk is acknowledged with. */
  lemma AckTakenOver(s: System, who: nat, r: Response)
    requires Waiting(s, who)
    requires var l := s.clients[who].link.value;
             && Sealed(l.epoch, l.sequence, r, false) in s.answers && l.pending.value.Pcm?
             && r.status.Accepted? && l.pending.value.start < r.next <= l.pending.value.start + |l.pending.value.samples|
    ensures var c := s.clients[who];
            var l := c.link.value;
            Apply(s, Answer(who, Sealed(l.epoch, l.sequence, r, false)))
            == s.(clients := s.clients[who := c.(link := Some(l.(sequence := l.sequence + 1, remote := r.next,
                                                                 pending := None)))])
  {
  }

  /** Sending, delivering and answering one chunk. */
  function ChunkSteps(s: System, who: nat, retained: nat, total: nat, maximum: nat, n: nat, now: nat, idle: nat,
                      newId: string)
    : seq<Step>
    requires Ready(s, who) && s.clients[who].link.value.remote + n <= |s.clients[who].stream|
  {
    var l := s.clients[who].link.value;
    [Tick(who, retained, total, maximum),
     Deliver(Envelope(l.epoch, l.sequence, ChunkMessage(s, who, n)), now, idle, newId, NoFault),
     Answer(who, Sealed(l.epoch, l.sequence, OkResponse(l.id, l.remote + n, n), false))]
  }

  lemma RunThree(s: System, a: Step, b: Step, c: Step)
    ensures Run(s, [a, b, c]) == Apply(Apply(Apply(s, a), b), c)
  {
    hide Apply;
    U.RunOne(s, a);
    U.RunOne(Apply(s, a), b);
    U.RunOne(Apply(Apply(s, a), b), c);
    U.RunJoin(s, [a], [b] + [c]);
    U.RunJoin(Apply(s, a), [b], [c]);
    assert [a, b, c] == [a] + ([b] + [c]);
  }

  lemma ChunkIsStored(s: System, t: System, who: nat, n: nat, now: nat, idle: nat, newId: string)
    requires Inv(s) && Fluent(s, who) && SentChunk(s, t, who, n) && newId !in s.server.sessions && newId != ""
    requires n > 0 && n % s.clients[who].audio.channels == 0
    requires var l := s.clients[who].link.value;
             if s.epochs[l.epoch].active then now <= s.epochs[l.epoch].lastSeen + idle
                 else now <= s.epochs[l.epoch].expiresAt
    ensures var l := s.clients[who].link.value;
            StoredChunk(s, Apply(t, Deliver(Envelope(l.epoch, l.sequence, ChunkMessage(s, who, n)), now, idle, newId,
                                            NoFault)), who, n, now)
  {
    hide Inv, Apply, Handle, ChunkMessage;
    RestFacts(s, who);
    var l := s.clients[who].link.value;
    DeliverHandles(t, Envelope(l.epoch, l.sequence, ChunkMessage(s, who, n)), now, idle, newId);
    ChunkIsHandled(s, who, n, newId);
  }

  lemma ChunkIsHandled(s: System, who: nat, n: nat, newId: string)
    requires Inv(s) && Fluent(s, who) && n > 0 && s.clients[who].link.value.remote + n <= |s.clients[who].stream|
    requires s.clients[who].audio.channels > 0 && n % s.clients[who].audio.channels == 0
    ensures var l := s.clients[who].link.value;
            var m := ChunkMessage(s, who, n);
            && m.Pcm?
            && Handle(s.server, m, newId, NoFault)
               == Handled(s.server.(cache := s.server.cache + m.samples), OkResponse(l.id, l.remote + n, n))
  {
    hide Inv, PushPcm, Continues;
    RestFacts(s, who);
    var l := s.clients[who].link.value;
    InvServer(s);
    IsContinued(s, who, n);
    PushAnswers(s.server, s.ledger, l.id, l.remote, ChunkMessage(s, who, n).samples, NoFault);
  }

  lemma ChunkIsAcknowledged(s: System, t: System, who: nat, n: nat, now: nat)
    requires Fluent(s, who) && StoredChunk(s, t, who, n, now) && n > 0
    ensures var l := s.clients[who].link.value;
            MovedOn(s, Apply(t, Answer(who, Sealed(l.epoch, l.sequence, OkResponse(l.id, l.remote + n, n), false))),
                    who, n, now)
  {
    hide Apply;
    var l := s.clients[who].link.value;
    AckTakenOver(t, who, OkResponse(l.id, l.remote + n, n));
    SameClients(s.clients, who, t.clients[who],
                s.clients[who].(link := Some(l.(sequence := l.sequence + 1, remote := l.remote + n))));
  }

  /**
   * A chunk goes through. A client at the active session's position, with at least a frame
   * recorded behind it and within the chunk's maximum, sends the most whole frames it can;
   * delivered to its living epoch they are appended to the cache as they are, and with the
   * answer the client stands behind them.
   */
  lemma ChunkGoesThrough(s: System, who: nat, retained: nat, total: nat, maximum: nat, now: nat, idle: nat, newId: string)
    returns (steps: seq<Step>, n: nat)
    requires Inv(s) && Fluent(s, who) && newId !in s.server.sessions && newId != ""
    requires var l := s.clients[who].link.value;
             && (if s.epochs[l.epoch].active then now <= s.epochs[l.epoch].lastSeen + idle
                 else now <= s.epochs[l.epoch].expiresAt)
             && retained <= l.remote && total <= |s.clients[who].stream|
             && l.remote + s.clients[who].audio.channels <= total && s.clients[who].audio.channels <= maximum
    ensures var l := s.clients[who].link.value;
            var channels := s.clients[who].audio.channels;
            && 0 < n <= maximum && l.remote + n <= total && channels > 0 && n % channels == 0
            && (n + channels > maximum || l.remote + n + channels > total)
            && steps == ChunkSteps(s, who, retained, total, maximum, n, now, idle, newId)
            && MovedOn(s, Run(s, steps), who, n, now)
  {
    hide Inv, Run, Apply, ChunkEnd, SentChunk, StoredChunk, MovedOn;
    RestFacts(s, who);
    var c := s.clients[who];
    var l := c.link.value;
    ChunkIsWholeFrames(c, l, total, maximum);
    n := ChunkEnd(c, l, total, maximum) - l.remote;
    steps := ChunkSteps(s, who, retained, total, maximum, n, now, idle, newId);
    TickSendsChunk(s, who, retained, total, maximum, n);
    ChunkIsStored(s, Apply(s, steps[0]), who, n, now, idle, newId);
    ChunkIsAcknowledged(s, Apply(Apply(s, steps[0]), steps[1]), who, n, now);
    RunThree(s, steps[0], steps[1], steps[2]);
  }

  lemma InvServer(s: System)
    requires Inv(s)
    ensures ServerInv(s.server, s.ledger)
  {
  }

  lemma SameClients(clients: map<nat, Client>, who: nat, between: Client, after: Client)
    ensures clients[who := between][who := after] == clients[who := after]
  {
  }

  lemma IsContinued(s: System, who: nat, n: nat)
    requires Fluent(s, who) && n > 0 && s.clients[who].link.value.remote + n <= |s.clients[who].stream|
    requires s.server.audio == Some(s.clients[who].audio)
    requires s.clients[who].audio.channels > 0 && n % s.clients[who].audio.channels == 0
    ensures Continues(s.server, s.clients[who].link.value.id, s.clients[who].link.value.remote,
                      ChunkMessage(s, who, n).samples)
  {
  }

  // ---------------------------------------------------------------- catching up

  /** The server has everything recorded up to `total` but for less than a frame, and the client is behind it. */
  ghost predicate CaughtUp(s: System, t: System, who: nat, total: nat) {
    && Fluent(s, who) && Fluent(t, who)
    && var c := s.clients[who];
    var from, to := c.link.value.remote, t.clients[who].link.value.remote;
    && from <= to <= total <= |c.stream| && total < to + c.audio.channels
    && t.server == s.server.(cache := s.server.cache + c.stream[from..to])
    && t.clients == s.clients[who := c.(link := t.clients[who].link)]
    && t.clients[who].link.value.id == c.link.value.id
  }

  /**
   * An upload catches up: with exchanges that come no further apart than the idle time,
   * however long that takes in all, the server gets everything recorded up to any moment,
   * but for less than a frame.
   */
  lemma {:induction false} UploadCatchesUp(s: System, who: nat, retained: nat, total: nat, maximum: nat, now: nat,
                                           pace: nat, idle: nat, newId: string)
    returns (steps: seq<Step>)
    requires Inv(s) && Fluent(s, who) && newId !in s.server.sessions && newId != ""
    requires var c := s.clients[who];
             var l := c.link.value;
             && s.epochs[l.epoch].active && now <= s.epochs[l.epoch].lastSeen + idle && pace <= idle
             && retained <= l.remote <= total <= |c.stream| && c.audio.channels <= maximum
    ensures CaughtUp(s, Run(s, steps), who, total)
    decreases total - s.clients[who].link.value.remote
  {
    hide Inv, Run, Apply, MovedOn;
    RestFacts(s, who);
    var c := s.clients[who];
    var from := c.link.value.remote;
    if total < from + c.audio.channels {
      steps := [];
      U.RunNone(s);
      NothingLeft(s, who, total);
    } else {
      var first, n := ChunkGoesThrough(s, who, retained, total, maximum, now, idle, newId);
      var t := Run(s, first);
      D.RunKeeps(s, first);
      AfterMoving(s, t, who, n, now);
      var rest := UploadCatchesUp(t, who, retained, total, maximum, now + pace, pace, idle, newId);
      U.RunJoin(s, first, rest);
      steps := first + rest;
      Further(s, t, Run(t, rest), who, n, now, total);
    }
  }

  lemma AfterMoving(s: System, t: System, who: nat, n: nat, now: nat)
    requires MovedOn(s, t, who, n, now)
    ensures Fluent(t, who) && t.clients[who] == s.clients[who].(link := t.clients[who].link)
    ensures var l := t.clients[who].link.value;
            && l.remote == s.clients[who].link.value.remote + n
            && t.epochs[l.epoch].active && t.epochs[l.epoch].lastSeen == now
    ensures t.server.sessions == s.server.sessions
  {
  }

  lemma NothingLeft(s: System, who: nat, total: nat)
    requires Fluent(s, who)
    requires var c := s.clients[who];
             c.link.value.remote <= total <= |c.stream| && total < c.link.value.remote + c.audio.channels
    ensures CaughtUp(s, s, who, total)
  {
    var c := s.clients[who];
    assert c.stream[c.link.value.remote..c.link.value.remote] == [] && s.server.cache + [] == s.server.cache;
    assert s.clients[who := c.(link := c.link)] == s.clients;
  }

  lemma Further(s: System, t: System, u: System, who: nat, n: nat, now: nat, total: nat)
    requires MovedOn(s, t, who, n, now) && CaughtUp(t, u, who, total)
    ensures CaughtUp(s, u, who, total)
  {
    var c := s.clients[who];
    var from, mid, to := c.link.value.remote, t.clients[who].link.value.remote, u.clients[who].link.value.remote;
    assert c.stream[from..mid] + c.stream[mid..to] == c.stream[from..to];
    Regroup(s.server.cache, c.stream[from..mid], c.stream[mid..to]);
    SameClients(s.clients, who, t.clients[who], u.clients[who]);
  }

  lemma Regroup<T>(a: seq<T>, p: seq<T>, q: seq<T>)
    ensures (a + p) + q == a + (p + q)
  {
  }

  // ---------------------------------------------------------------- connecting

  /** The message that opens or resumes a client's current logical stream. */
  function OpeningOf(c: Client, retained: nat): Message {
    OpenOrResume(c.device, LogicalId(c.activation, c.suffix), c.audio.rate, c.audio.channels, "pcm_s16le",
                 if c.start < retained then retained else c.start)
  }

  /** Getting a challenge, opening the stream in its epoch, and the answer. */
  function ConnectSteps(c: Client, who: nat, epoch: EpochId, at: nat, ttl: nat, idle: nat, pending: nat, retained: nat,
                        now: nat, newId: string, r: Response): seq<Step>
  {
    [Challenge(epoch, at, ttl, idle, pending), Connect(who, epoch, retained)]
    + [Deliver(Envelope(epoch, 0, OpeningOf(c, retained)), now, idle, newId, NoFault),
       Answer(who, Sealed(epoch, 0, r, false))]
  }

  /** The system after the challenge and the client's opening message. */
  predicate SentOpening(s: System, t: System, who: nat, epoch: EpochId, at: nat, ttl: nat, retained: nat) {
    && who in s.clients
    && var c := s.clients[who];
    var m := OpeningOf(c, retained);
    && t.server == s.server && t.ledger == s.ledger
    && t.clients == s.clients[who := c.(link := Some(Link(epoch, 0, "", m.source, Some(m))))]
    && Envelope(epoch, 0, m) in t.sent && epoch in t.epochs && t.epochs[epoch] == Epoch(at + ttl, at, 0, false, None)
  }

  lemma OpeningIsSent(s: System, who: nat, epoch: EpochId, at: nat, ttl: nat, idle: nat, pending: nat, retained: nat)
    requires Inv(s) && who in s.clients && s.clients[who].link.None? && !s.clients[who].stopped
    requires epoch !in s.handled && |AliveAt(s.epochs, at, idle)| < pending && retained <= |s.clients[who].stream|
    ensures SentOpening(s, Apply(Apply(s, Challenge(epoch, at, ttl, idle, pending)), Connect(who, epoch, retained)),
                        who, epoch, at, ttl, retained)
  {
    hide ServerInv, AllFed, ClientsOk, HandledOk, AllAnswered, AllSent, LinksOk, OneMessageEach, Issue;
    IssueKeepsTheLiving(s.epochs, epoch, at, ttl, idle, pending);
    EpochsKnown(s);
  }

  lemma EpochsKnown(s: System)
    requires EpochsOk(s)
    ensures forall e :: e in s.epochs ==> e in s.handled
  {
    forall e | e in s.epochs ensures e in s.handled {
      assert EpochOk(s, e);
    }
  }

  /** The client is connected to a session, at the position it was told. */
  predicate Connected(s: System, t: System, who: nat, epoch: EpochId, r: Response, now: nat) {
    && who in s.clients
    && t.clients == s.clients[who := s.clients[who].(link := Some(Link(epoch, 1, r.id, r.next, None)))]
    && epoch in t.epochs && t.epochs[epoch].active && t.epochs[epoch].lastSeen == now
  }

  /** An accepted opening is taken over by the client, with the session and the position it names. */
  lemma OpeningIsAnswered(s: System, t: System, who: nat, epoch: EpochId, at: nat, ttl: nat, retained: nat, now: nat,
                          idle: nat, newId: string)
    requires SentOpening(s, t, who, epoch, at, ttl, retained) && now <= at + ttl
    requires newId !in s.server.sessions && newId != ""
    requires var r := OpenStream(s.server, OpeningOf(s.clients[who], retained), newId, NoFault).response;
             r.status.Accepted? && r.id != ""
    ensures var m := OpeningOf(s.clients[who], retained);
            var h := OpenStream(s.server, m, newId, NoFault);
            var u := Apply(Apply(t, Deliver(Envelope(epoch, 0, m), now, idle, newId, NoFault)),
                           Answer(who, Sealed(epoch, 0, h.response, false)));
            u.server == h.server && Connected(s, u, who, epoch, h.response, now)
  {
    hide OpenStream;
    var m := OpeningOf(s.clients[who], retained);
    var h := OpenStream(s.server, m, newId, NoFault);
    DeliverHandles(t, Envelope(epoch, 0, m), now, idle, newId);
    OpenTakenOver(Apply(t, Deliver(Envelope(epoch, 0, m), now, idle, newId, NoFault)), who, h.response);
    SameClients(s.clients, who, t.clients[who],
                s.clients[who].(link := Some(Link(epoch, 1, h.response.id, h.response.next, None))));
  }

  lemma OpenTakenOver(s: System, who: nat, r: Response)
    requires Waiting(s, who)
    requires var l := s.clients[who].link.value;
             && Sealed(l.epoch, l.sequence, r, false) in s.answers && l.pending.value.OpenOrResume?
             && r.status.Accepted? && r.id != ""
    ensures var c := s.clients[who];
            var l := c.link.value;
            Apply(s, Answer(who, Sealed(l.epoch, l.sequence, r, false)))
            == s.(clients := s.clients[who := c.(link := Some(Link(l.epoch, l.sequence + 1, r.id, r.next, None)))])
  {
  }

  /** The server will have the stream: it fits, and if it has a session that is the active one, begun at the same sample. */
  predicate Welcome(v: Server, m: Message)
    requires m.OpenOrResume?
  {
    && Describes(m) && (v.audio.None? || v.audio == Some(Audio(m.rate, m.channels)))
    && forall known :: known in v.sessions && IsSessionOf(v, m, known) ==>
         v.active == Some(known) && v.sessions[known].source == m.source
  }

  /** An opening that is welcome makes its session the active one, and answers the position behind all it has. */
  lemma WelcomeIsOpened(v: Server, l: Ledger, m: Message, newId: string)
    requires ServerInv(v, l) && m.OpenOrResume? && Welcome(v, m) && newId !in v.sessions && newId != "" && "" !in v.sessions
    ensures var h := OpenStream(v, m, newId, NoFault);
            var r, w := h.response, h.server;
            && r.status.Accepted? && r.id != "" && r.id in w.sessions && w.active == Some(r.id)
            && w.cache == v.cache && w.sessions[r.id].source == m.source && w.sessions[r.id].cacheStart <= |w.cache|
            && w.sessions.Keys <= v.sessions.Keys + {newId}
            && r.next == m.source + (|w.cache| - w.sessions[r.id].cacheStart)
            && w.sessions[r.id].key == StreamKey(m.device, m.stream)
  {
    hide OpenStream, Describes, ServerInv;
    if known :| known in v.sessions && IsSessionOf(v, m, known) {
      OpenSession(v, l);
      NotIncomplete(v, l);
      ResumeAnswers(v, l, m, known, newId, NoFault);
    } else {
      OpenAnswers(v, l, m, newId, NoFault);
    }
  }

  lemma NotIncomplete(v: Server, l: Ledger)
    requires ServerInv(v, l) && v.active.Some?
    ensures v.active.value in v.sessions && !v.sessions[v.active.value].incomplete
  {
    OpenSession(v, l);
  }

  /** A client connects: it gets a challenge in time, and its stream is opened or goes on where the server stands. */
  lemma ConnectGoesThrough(s: System, who: nat, epoch: EpochId, at: nat, ttl: nat, idle: nat, pending: nat, retained: nat,
                           now: nat, newId: string) returns (steps: seq<Step>)
    requires Inv(s) && who in s.clients && s.clients[who].link.None? && !s.clients[who].stopped
    requires epoch !in s.handled && |AliveAt(s.epochs, at, idle)| < pending && retained <= |s.clients[who].stream|
    requires now <= at + ttl && newId !in s.server.sessions && newId != ""
    requires Welcome(s.server, OpeningOf(s.clients[who], retained))
    ensures var t := Run(s, steps);
            var m := OpeningOf(s.clients[who], retained);
            && Fluent(t, who) && t.server.cache == s.server.cache
            && t.clients == s.clients[who := s.clients[who].(link := t.clients[who].link)]
            && t.server.sessions.Keys <= s.server.sessions.Keys + {newId}
            && var l := t.clients[who].link.value;
            && t.server.sessions[l.id].source == m.source && l.remote >= m.source
            && t.server.sessions[l.id].key == StreamKey(m.device, m.stream)
            && l.epoch == epoch && t.epochs[epoch].active && t.epochs[epoch].lastSeen == now
  {
    hide Inv, Run, Apply, OpenStream, Welcome, SentOpening;
    var m := OpeningOf(s.clients[who], retained);
    var h := OpenStream(s.server, m, newId, NoFault);
    InvServer(s);
    NoEmptyId(s);
    WelcomeIsOpened(s.server, s.ledger, m, newId);
    steps := ConnectSteps(s.clients[who], who, epoch, at, ttl, idle, pending, retained, now, newId, h.response);
    OpeningIsSent(s, who, epoch, at, ttl, idle, pending, retained);
    var t := Apply(Apply(s, steps[0]), steps[1]);
    OpeningIsAnswered(s, t, who, epoch, at, ttl, retained, now, idle, newId);
    RunTwo(s, steps[0], steps[1]);
    RunTwo(t, steps[2], steps[3]);
    U.RunJoin(s, [steps[0], steps[1]], [steps[2], steps[3]]);
    assert steps == [steps[0], steps[1]] + [steps[2], steps[3]];
  }

  lemma NoEmptyId(s: System)
    requires Inv(s)
    ensures "" !in s.server.sessions
  {
  }

  lemma RunTwo(s: System, a: Step, b: Step)
    ensures Run(s, [a, b]) == Apply(Apply(s, a), b)
  {
    hide Apply;
    U.RunOne(s, a);
    U.RunOne(Apply(s, a), b);
    U.RunJoin(s, [a], [b]);
    assert [a, b] == [a] + [b];
  }

  /**
   * The active session, begun at the given sample, is the client's, and holds all it recorded
   * from there on but for less than a frame.
   */
  predicate HoldsAll(t: System, who: nat, source: nat) {
    && who in t.clients && t.server.active.Some? && t.server.active.value in t.server.sessions
    && var x, c := t.server.sessions[t.server.active.value], t.clients[who];
    && x.key == StreamKey(c.device, LogicalId(c.activation, c.suffix)) && x.source == source
    && x.cacheStart <= |t.server.cache|
    && var end := source + (|t.server.cache| - x.cacheStart);
    && end <= |c.stream| < end + c.audio.channels
    && t.server.cache[x.cacheStart..] == c.stream[source..end]
  }

  /**
   * Everything arrives. From any reachable state, a client that is welcome gets all it has
   * recorded since its source to the server, but for less than a frame: with a challenge
   * taken up before it runs out, and exchanges no further apart than the idle time, what
   * the server has stored for the session is exactly that part of the recording.
   */
  lemma EverythingArrives(s: System, who: nat, epoch: EpochId, at: nat, ttl: nat, idle: nat, pending: nat, retained: nat,
                          maximum: nat, now: nat, pace: nat, newId: string, another: string) returns (steps: seq<Step>)
    requires Inv(s) && who in s.clients && s.clients[who].link.None? && !s.clients[who].stopped
    requires epoch !in s.handled && |AliveAt(s.epochs, at, idle)| < pending && retained <= |s.clients[who].stream|
    requires now <= at + ttl && pace <= idle && s.clients[who].audio.channels <= maximum
    requires newId !in s.server.sessions && newId != "" && another !in s.server.sessions && another != ""
        && another != newId
    requires Welcome(s.server, OpeningOf(s.clients[who], retained))
    ensures HoldsAll(Run(s, steps), who, OpeningOf(s.clients[who], retained).source)
  {
    hide Inv, Run, Fluent, Welcome, CaughtUp, HoldsAll;
    var first := ConnectGoesThrough(s, who, epoch, at, ttl, idle, pending, retained, now, newId);
    var t := Run(s, first);
    D.RunKeeps(s, first);
    Rested(t, who);
    var rest := UploadCatchesUp(t, who, retained, |t.clients[who].stream|, maximum, now, pace, idle, another);
    U.RunJoin(s, first, rest);
    D.RunKeeps(t, rest);
    steps := first + rest;
    CaughtUpHolds(t, Run(t, rest), who);
  }

  lemma Rested(t: System, who: nat)
    requires Inv(t) && Fluent(t, who)
    ensures Ready(t, who) && t.clients[who].link.value.remote <= |t.clients[who].stream|
  {
    hide Inv;
    S.ReadyFacts(t, who);
  }

  /** What the server stored is the client's stream, and the stream is that of the session. */
  lemma CaughtUpHolds(s: System, t: System, who: nat)
    requires Inv(t) && Fluent(s, who) && CaughtUp(s, t, who, |s.clients[who].stream|)
    requires var c := s.clients[who];
             s.server.sessions[c.link.value.id].key == StreamKey(c.device, LogicalId(c.activation, c.suffix))
    ensures HoldsAll(t, who, s.server.sessions[s.clients[who].link.value.id].source)
  {
    hide Inv, LogicalId;
    var id := t.clients[who].link.value.id;
    ActiveIsFed(t, id);
    S.ReadyFacts(t, who);
    var x := t.server.sessions[id];
    assert t.server.cache[x.cacheStart..] == t.server.cache[x.cacheStart..|t.server.cache|];
  }

  /** The active session has stored its feeder's stream, up to the end of the cache. */
  lemma ActiveIsFed(t: System, id: string)
    requires Inv(t) && t.server.active == Some(id)
    ensures id in t.server.sessions && id in t.feeds && t.feeds[id] in t.clients
    ensures Uploaded(t.server.sessions[id], |t.server.cache|, t.server.cache, t.clients[t.feeds[id]].stream)
  {
    hide ClientsOk, EpochsOk, HandledOk, AllAnswered, AllSent, OneMessageEach, LinksOk, Uploaded, Tiles, Owned, Distinct;
    ActiveRun(t.server, t.ledger);
    assert Fed(t, id);
  }

  // ---------------------------------------------------------------- ending a session

  /** What a client at rest sends is delivered to its living epoch and handled. */
  lemma RestDelivered(s: System, t: System, who: nat, m: Message, now: nat, idle: nat, newId: string)
    requires Inv(s) && Ready(s, who) && s.clients[who].link.value.epoch in s.epochs && newId !in s.server.sessions
        && newId != ""
    requires t.server == s.server && t.epochs == s.epochs
    requires var l := s.clients[who].link.value;
             && Envelope(l.epoch, l.sequence, m) in t.sent
             && if s.epochs[l.epoch].active then now <= s.epochs[l.epoch].lastSeen + idle
                 else now <= s.epochs[l.epoch].expiresAt
    ensures var l := s.clients[who].link.value;
            var u := Apply(t, Deliver(Envelope(l.epoch, l.sequence, m), now, idle, newId, NoFault));
            && u.server == Handle(s.server, m, newId, NoFault).server && u.clients == t.clients
            && Sealed(l.epoch, l.sequence, Handle(s.server, m, newId, NoFault).response, false) in u.answers
  {
    hide Inv, Apply, Handle;
    RestFacts(s, who);
    var l := s.clients[who].link.value;
    DeliverHandles(t, Envelope(l.epoch, l.sequence, m), now, idle, newId);
  }

  /**
   * A client that stops at the position behind all the server has closes its session with
   * the message it sends: delivered in time, the session is over, complete, and ends where
   * the cache ends.
   */
  lemma CloseGoesThrough(s: System, who: nat, now: nat, idle: nat, newId: string) returns (close: Envelope)
    requires Inv(s) && Fluent(s, who) && newId !in s.server.sessions && newId != ""
    requires var l := s.clients[who].link.value;
             if s.epochs[l.epoch].active then now <= s.epochs[l.epoch].lastSeen + idle
                 else now <= s.epochs[l.epoch].expiresAt
    ensures var t := Run(s, [Leave(who), Deliver(close, now, idle, newId, NoFault)]);
            var id := s.clients[who].link.value.id;
            && t.clients == s.clients[who := s.clients[who].(link := None, stopped := true)]
            && Over(t.server, id) && OnlyThis(s.server, t.server, id)
            && !t.server.sessions[id].incomplete && t.server.sessions[id].cacheEnd == Some(|s.server.cache|)
  {
    hide Inv, Run, Apply, CloseStream, Over, OnlyThis;
    var l := s.clients[who].link.value;
    close := Envelope(l.epoch, l.sequence, Close(l.id, l.remote));
    CloseIsSent(s, who);
    var t := Apply(s, Leave(who));
    InvServer(s);
    CloseAnswers(s.server, s.ledger, l.id, l.remote, NoFault);
    NotIncomplete(s.server, s.ledger);
    RunTwo(s, Leave(who), Deliver(close, now, idle, newId, NoFault));
    RestDelivered(s, t, who, close.message, now, idle, newId);
  }

  lemma CloseIsSent(s: System, who: nat)
    requires Ready(s, who)
    ensures var c := s.clients[who];
            var l := c.link.value;
            Apply(s, Leave(who))
            == s.(clients := s.clients[who := c.(link := None, stopped := true)],
                  sent := s.sent + {Envelope(l.epoch, l.sequence, Close(l.id, l.remote))})
  {
  }

  /**
   * A client whose position was lost says so: delivered in time the session is over and
   * incomplete, and with the answer the client begins its next logical stream.
   */
  lemma GapGoesThrough(s: System, who: nat, retained: nat, total: nat, maximum: nat, now: nat, idle: nat, newId: string)
    returns (mark: Envelope, r: Response)
    requires Inv(s) && Ready(s, who) && newId !in s.server.sessions && newId != ""
    requires var c := s.clients[who];
             var l := c.link.value;
             && retained <= total <= |c.stream| && (l.remote < retained || l.remote > total) && l.epoch in s.epochs
             && if s.epochs[l.epoch].active then now <= s.epochs[l.epoch].lastSeen + idle
                 else now <= s.epochs[l.epoch].expiresAt
    ensures var l := s.clients[who].link.value;
            var t := Run(s, [Tick(who, retained, total, maximum), Deliver(mark, now, idle, newId, NoFault),
                             Answer(who, Sealed(l.epoch, l.sequence, r, false))]);
            && t.clients == s.clients[who := s.clients[who].(link := None, suffix := s.clients[who].suffix + 1)]
            && Over(t.server, l.id) && OnlyThis(s.server, t.server, l.id) && t.server.sessions[l.id].incomplete
  {
    hide Inv, Run, Apply, MarkStreamIncomplete, Over, OnlyThis;
    RestFacts(s, who);
    var l := s.clients[who].link.value;
    mark := Envelope(l.epoch, l.sequence, MarkIncomplete(l.id));
    r := MarkStreamIncomplete(s.server, l.id, NoFault).response;
    var tick := Tick(who, retained, total, maximum);
    MarkIsSent(s, who, retained, total, maximum);
    InvServer(s);
    MarkAnswers(s.server, s.ledger, l.id, NoFault);
    RestDelivered(s, Apply(s, tick), who, mark.message, now, idle, newId);
    MarkIsTakenOver(s, Apply(Apply(s, tick), Deliver(mark, now, idle, newId, NoFault)), who, r);
    RunThree(s, tick, Deliver(mark, now, idle, newId, NoFault), Answer(who, Sealed(l.epoch, l.sequence, r, false)));
  }

  lemma MarkIsSent(s: System, who: nat, retained: nat, total: nat, maximum: nat)
    requires Inv(s) && Ready(s, who)
    requires var c := s.clients[who];
             retained <= total <= |c.stream| && (c.link.value.remote < retained || c.link.value.remote > total)
    ensures var c := s.clients[who];
            var l := c.link.value;
            Apply(s, Tick(who, retained, total, maximum))
            == s.(clients := s.clients[who := c.(link := Some(l.(pending := Some(MarkIncomplete(l.id)))))],
                  sent := s.sent + {Envelope(l.epoch, l.sequence, MarkIncomplete(l.id))})
  {
    hide Inv;
    RestFacts(s, who);
  }

  lemma MarkIsTakenOver(s: System, t: System, who: nat, r: Response)
    requires Ready(s, who)
    requires var c := s.clients[who];
             var l := c.link.value;
             && t.clients == s.clients[who := c.(link := Some(l.(pending := Some(MarkIncomplete(l.id)))))]
             && Sealed(l.epoch, l.sequence, r, false) in t.answers
    ensures var c := s.clients[who];
            var l := c.link.value;
            var u := Apply(t, Answer(who, Sealed(l.epoch, l.sequence, r, false)));
            u.server == t.server && u.clients == s.clients[who := c.(link := None, suffix := c.suffix + 1)]
  {
  }

  // ---------------------------------------------------------------- single deliveries, in any state

  /**
   * A delivered chunk that is next in its living epoch extends the run of the active
   * session by exactly itself if it continues that session and the write does not fail
   * first; otherwise no sample and no run changes.
   */
  lemma DeliveredChunk(s: System, x: Envelope, now: nat, idle: nat, newId: string, fault: Fault)
    requires Inv(s) && Enabled(s, Deliver(x, now, idle, newId, fault)) && x.message.Pcm?
    requires x.epoch in s.epochs && x.sequence == s.epochs[x.epoch].expected
    requires if s.epochs[x.epoch].active then now <= s.epochs[x.epoch].lastSeen + idle
        else now <= s.epochs[x.epoch].expiresAt
    ensures var t := Apply(s, Deliver(x, now, idle, newId, fault));
            var m := x.message;
            var n := |s.ledger.runs|;
            if Continues(s.server, m.id, m.start, m.samples) && fault != EarlyFault then
              && t.server.cache == s.server.cache + m.samples
              && n > 0 && s.ledger.runs[n - 1].id == m.id
              && t.ledger.runs == s.ledger.runs[n - 1 := s.ledger.runs[n - 1].(end := |t.server.cache|)]
              && t.ledger.owners == s.ledger.owners + seq(|m.samples|, _ => m.id)
            else t.server == s.server && t.ledger == s.ledger
  {
    hide Inv, D.Handling, Continues, PushPcm, Booked, IsNext;
    var step := Deliver(x, now, idle, newId, fault);
    AliveIsNext(s, x, now, idle);
    D.DeliverNext(s, step);
    HandlingIs(s, Delivered(s, step), x, now, newId, fault);
    InvServer(s);
    PushIsBooked(s.server, s.ledger, x.message, newId, fault);
  }

  lemma AliveIsNext(s: System, x: Envelope, now: nat, idle: nat)
    requires x.epoch in s.epochs && x.sequence == s.epochs[x.epoch].expected
    requires if s.epochs[x.epoch].active then now <= s.epochs[x.epoch].lastSeen + idle
        else now <= s.epochs[x.epoch].expiresAt
    ensures IsNext(s.epochs, x, now, idle)
  {
  }

  lemma HandlingIs(s: System, t: System, x: Envelope, now: nat, id: string, fault: Fault)
    requires D.Handling(s, t, x, now, id, fault)
    ensures t.server == Handle(s.server, x.message, id, fault).server
    ensures t.ledger == Booked(s.ledger, s.server, t.server, x.message, id)
  {
    hide Handle, Booked;
  }

  lemma PushIsBooked(v: Server, l: Ledger, m: Message, id: string, fault: Fault)
    requires ServerInv(v, l) && m.Pcm? && id !in v.sessions
    ensures var w := Handle(v, m, id, fault).server;
            var k := Booked(l, v, w, m, id);
            var n := |l.runs|;
            if Continues(v, m.id, m.start, m.samples) && fault != EarlyFault then
              && w.cache == v.cache + m.samples
              && n > 0 && l.runs[n - 1].id == m.id
              && k.runs == l.runs[n - 1 := l.runs[n - 1].(end := |w.cache|)]
              && k.owners == l.owners + seq(|m.samples|, _ => m.id)
            else w == v && k == l
  {
    hide ServerInv, Continues, PushPcm, Booked;
    PushAnswers(v, l, m.id, m.start, m.samples, fault);
    if Continues(v, m.id, m.start, m.samples) && fault != EarlyFault {
      ChunkIsBooked(v, l, m, id);
    } else {
      NothingBooked(v, l, m, id);
    }
  }

  lemma ChunkIsBooked(v: Server, l: Ledger, m: Message, id: string)
    requires ServerInv(v, l) && m.Pcm? && Continues(v, m.id, m.start, m.samples) && id !in v.sessions
    ensures var k := Booked(l, v, Appended(v, m.samples), m, id);
            var n := |l.runs|;
            && n > 0 && l.runs[n - 1].id == m.id
            && k.runs == l.runs[n - 1 := l.runs[n - 1].(end := |v.cache| + |m.samples|)]
            && k.owners == l.owners + seq(|m.samples|, _ => m.id)
  {
    hide Tiles, Owned, Listed, EndsKept, OnePerStream;
    ExtendedLast(l.runs, m.id, |v.cache| + |m.samples|);
  }

  /**
   * In every run an epoch that answered lives on: its next envelope is handled within the idle
   * time, whatever its ttl was.
   */
  lemma EpochAnswersOn(s: System, x: Envelope, at: nat, idle: nat, id: string, fault: Fault,
                       w: Server, y: Envelope, now: nat, newId: string, fault': Fault)
    requires Inv(s)
    requires var p := Process(s.server, s.epochs, x, at, idle, id, fault);
             && p.outcome.Answered? && !p.outcome.answer.conflict
             && y.epoch == x.epoch && x.epoch in p.epochs && y.sequence == p.epochs[x.epoch].expected
    requires now <= at + idle
    ensures var p := Process(s.server, s.epochs, x, at, idle, id, fault);
            Process(w, p.epochs, y, now, idle, newId, fault').outcome
            == Answered(Sealed(y.epoch, y.sequence, Handle(w, y.message, newId, fault').response, false))
  {
    hide ServerInv, AllFed, ClientsOk, HandledOk, AllAnswered, AllSent, OneMessageEach, LinksOk, Process, Handle;
    if x.epoch in s.epochs {
      assert EpochOk(s, x.epoch);
    }
    EpochLivesOn(s.server, s.epochs, x, at, idle, id, fault, w, y, now, newId, fault');
  }
}