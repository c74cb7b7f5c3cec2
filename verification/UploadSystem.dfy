/**
 * The upload as a distributed system: clients that record and upload, a network that
 * loses, repeats, delays and reorders sealed envelopes and answers, and the server. Only
 * what a client sealed can be delivered, at any time and any number of times, also long
 * after the client gave up the epoch it was sealed for.
 */
module UploadSystem {
  import opened Wrappers
  import opened UploadProtocol
  import opened UploadServer
  import opened UploadLedger
  import opened UploadEpochs
  import opened UploadClient

  /** A message handled in an epoch, and the answer it got. */
  datatype Exchange = Exchange(message: Message, response: Response)

  /**
   * Everything there is, with a record of what happened: all envelopes sent and answers
   * given, the messages each epoch handled, which client drives each epoch, and which
   * client feeds each session.
   */
  datatype System = System(
    server: Server, epochs: map<EpochId, Epoch>, clients: map<nat, Client>,
    offered: set<EpochId>, sent: set<Envelope>, answers: set<Sealed>,
    ledger: Ledger, handled: map<EpochId, seq<Exchange>>, driver: map<EpochId, nat>, feeds: map<string, nat>)

  const INITIAL := System(NEW_SERVER, map[], map[], {}, {}, {}, NEW_LEDGER, map[], map[], map[])

  /** Two activations whose logical streams can never be the same stream of the server. */
  ghost predicate Apart(a: Client, b: Client) {
    a.device != b.device || forall i: nat, j: nat :: LogicalId(a.activation, i) != LogicalId(b.activation, j)
  }

  datatype Step =
    | Activate(who: nat, device: string, activation: string, audio: Audio, stream: seq<Sample>)
    | Record(who: nat, samples: seq<Sample>)
    | Challenge(epoch: EpochId, now: nat, ttl: nat, idle: nat, maximum: nat)
    | Connect(who: nat, epoch: EpochId, retained: nat)
    | Tick(who: nat, retained: nat, total: nat, chunk: nat)
    | Deliver(envelope: Envelope, now: nat, idle: nat, newId: string, fault: Fault)
    | Answer(who: nat, answer: Sealed)
    | GiveUp(who: nat)
    | Leave(who: nat)

  predicate Waiting(s: System, who: nat) {
    who in s.clients && s.clients[who].link.Some? && s.clients[who].link.value.pending.Some?
  }

  predicate Ready(s: System, who: nat) {
    who in s.clients && s.clients[who].link.Some? && s.clients[who].link.value.pending.None?
  }

  /** The answer is one the server sealed for what the client waits for, or a conflict of its epoch. */
  predicate Receives(s: System, who: nat, answer: Sealed) {
    && Waiting(s, who) && answer in s.answers && answer.epoch == s.clients[who].link.value.epoch
    && (answer.conflict || answer.sequence == s.clients[who].link.value.sequence)
  }

  function NewClient(step: Step): Client
    requires step.Activate?
  {
    Client(step.device, step.activation, step.audio, |step.stream|, step.stream, 0, None, false)
  }

  /** What can happen: ids are fresh, and a client only asks for samples it has recorded. */
  ghost predicate Enabled(s: System, step: Step) {
    match step
    case Activate(who, _, activation, audio, _) =>
      && who !in s.clients && audio.channels > 0 && '\0' !in activation
      && forall x :: x in s.clients ==> Apart(NewClient(step), s.clients[x])
    case Record(who, _) => who in s.clients
    case Challenge(epoch, _, _, _, _) => epoch !in s.handled
    case Connect(who, epoch, retained) =>
      && who in s.clients && s.clients[who].link.None? && !s.clients[who].stopped
      && epoch in s.offered && retained <= |s.clients[who].stream|
    case Tick(who, retained, total, _) => Ready(s, who) && retained <= total <= |s.clients[who].stream|
    case Deliver(envelope, _, _, newId, _) => envelope in s.sent && newId !in s.server.sessions && newId != ""
    case Answer(who, answer) => Receives(s, who, answer)
    case GiveUp(who) => Waiting(s, who)
    case Leave(who) => who in s.clients && !Waiting(s, who)
  }

  /** A client has acted and possibly sent an envelope. */
  function Acted(s: System, who: nat, act: Act): System {
    s.(clients := s.clients[who := act.client],
       sent := if act.sent.Some? then s.sent + {act.sent.value} else s.sent)
  }

  function Delivered(s: System, step: Step): System
    requires step.Deliver? && step.envelope in s.sent
  {
    var x := step.envelope;
    var p := Process(s.server, s.epochs, x, step.now, step.idle, step.newId, step.fault);
    var next := IsNext(s.epochs, x, step.now, step.idle);
    s.(server := p.server, epochs := p.epochs,
       answers := if p.outcome.Answered? then s.answers + {p.outcome.answer} else s.answers,
       ledger := Booked(s.ledger, s.server, p.server, x.message, step.newId),
       handled := if next && x.epoch in s.handled && p.outcome.Answered?
                  then s.handled[x.epoch := s.handled[x.epoch] + [Exchange(x.message, p.outcome.answer.response)]]
                  else s.handled,
       feeds := if step.newId !in s.server.sessions && step.newId in p.server.sessions && x.epoch in s.driver
                then s.feeds[step.newId := s.driver[x.epoch]] else s.feeds)
  }

  /** One step; a step that cannot happen changes nothing. */
  ghost function Apply(s: System, step: Step): System {
    if !Enabled(s, step) then s
    else
      match step
      case Activate(who, _, _, _, _) => s.(clients := s.clients[who := NewClient(step)])
      case Record(who, samples) =>
        s.(clients := s.clients[who := s.clients[who].(stream := s.clients[who].stream + samples)])
      case Challenge(epoch, now, ttl, idle, maximum) =>
        var issued := Issue(s.epochs, epoch, now, ttl, idle, maximum);
        if issued.None? then s
        else s.(epochs := issued.value, offered := s.offered + {epoch}, handled := s.handled[epoch := []])
      case Connect(who, epoch, retained) =>
        Acted(s.(offered := s.offered - {epoch}, driver := s.driver[epoch := who]), who,
              Establish(s.clients[who], epoch, retained))
      case Tick(who, retained, total, chunk) =>
        if s.clients[who].audio.channels == 0 then s
        else Acted(s, who, Sync(s.clients[who], retained, total, chunk))
      case Deliver(_, _, _, _, _) => Delivered(s, step)
      case Answer(who, answer) => Acted(s, who, Act(Receive(s.clients[who], answer.response, answer.conflict), None))
      case GiveUp(who) => Acted(s, who, Act(Fail(s.clients[who]), None))
      case Leave(who) => Acted(s, who, Stop(s.clients[who]))
  }

  ghost function Run(s: System, steps: seq<Step>): System
    decreases |steps|
  {
    if |steps| == 0 then s else Run(Apply(s, steps[0]), steps[1..])
  }

  // ---------------------------------------------------------------- the invariant

  ghost predicate StreamOf(c: Client, key: StreamKey) {
    key.device == c.device && exists n: nat :: key.stream == LogicalId(c.activation, n)
  }

  /** A session and the run of the cache it filled belong to the client that feeds it. */
  ghost predicate Fed(s: System, id: string) {
    && id in s.server.sessions && id in s.ledger.ends && id in s.feeds && s.feeds[id] in s.clients
    && StreamOf(s.clients[s.feeds[id]], s.server.sessions[id].key)
    && s.clients[s.feeds[id]].start <= s.server.sessions[id].source
    && s.server.audio == Some(s.clients[s.feeds[id]].audio)
    && Uploaded(s.server.sessions[id], s.ledger.ends[id], s.server.cache, s.clients[s.feeds[id]].stream)
  }

  /** The session's run in the cache is the client's stream from the session's source on. */
  predicate Uploaded(x: Session, end: nat, cache: seq<Sample>, stream: seq<Sample>) {
    && x.cacheStart <= end <= |cache|
    && x.source + (end - x.cacheStart) <= |stream|
    && cache[x.cacheStart..end] == stream[x.source..x.source + (end - x.cacheStart)]
  }

  ghost predicate AllFed(s: System) {
    && (forall id :: id in s.server.sessions ==> Fed(s, id))
    && (forall id :: id in s.feeds ==> id in s.server.sessions)
    && "" !in s.server.sessions
  }

  ghost predicate ClientsOk(s: System) {
    && (forall x :: x in s.clients ==> s.clients[x].audio.channels > 0 && s.clients[x].start <= |s.clients[x].stream|)
    && (forall x :: x in s.clients ==> '\0' !in s.clients[x].activation)
    && (forall x, y :: x in s.clients && y in s.clients && x != y ==> Apart(s.clients[x], s.clients[y]))
  }

  /** The sample behind the last one the session has. */
  function Reached(s: System, id: string): int
    requires id in s.server.sessions && id in s.ledger.ends
  {
    s.server.sessions[id].source + Held(s.server, s.ledger, id)
  }

  predicate Within(s: System, id: string, who: nat, position: nat) {
    && id in s.server.sessions && id in s.ledger.ends && id in s.feeds && s.feeds[id] == who
    && s.server.sessions[id].source <= position <= Reached(s, id)
  }

  /** What a client says is true of its own stream and of the sessions it feeds. */
  ghost predicate Honest(s: System, who: nat, m: Message) {
    && who in s.clients
    && var c := s.clients[who];
    match m
    case Probe => true
    case OpenOrResume(_, _, rate, channels, _, source) =>
      StreamOf(c, KeyOf(m)) && c.audio == Audio(rate, channels) && c.start <= source <= |c.stream|
    case Pcm(id, start, samples) =>
      && id in s.server.sessions && id in s.feeds && s.feeds[id] == who
      && s.server.sessions[id].source <= start && |samples| > 0 && c.start <= start
      && c.audio.channels > 0 && |samples| % c.audio.channels == 0
      && start + |samples| <= |c.stream| && samples == c.stream[start..start + |samples|]
    case Close(id, final) => Within(s, id, who, final)
    case MarkIncomplete(id) => id in s.server.sessions && id in s.feeds && s.feeds[id] == who
  }

  /** What an answer says is true of the sessions, and stays true. */
  predicate Truthful(s: System, who: nat, m: Message, r: Response) {
    match m
    case OpenOrResume(_, _, _, _, _, _) => r.status.Accepted? ==> r.id != "" && Within(s, r.id, who, r.next)
    case Pcm(id, start, samples) =>
      && (r.status.Accepted? ==> r.next == start + |samples| && Within(s, id, who, r.next))
      && (r.status.Gap? ==> r.code == "sample_gap" && Within(s, id, who, r.next))
    case _ => true
  }

  predicate EpochOk(s: System, e: EpochId) {
    && e in s.epochs && e in s.handled
    && s.epochs[e].expected == |s.handled[e]|
    && (s.epochs[e].active <==> |s.handled[e]| > 0)
    && s.epochs[e].last ==
       if |s.handled[e]| == 0 then None
       else
         var n := |s.handled[e]| - 1;
         Some(Stored(Envelope(e, n, s.handled[e][n].message), s.handled[e][n].response))
  }

  ghost predicate EpochsOk(s: System) {
    && (forall e :: e in s.epochs ==> EpochOk(s, e))
    && (forall e :: e in s.driver ==> e in s.handled && e !in s.offered)
    && (forall e :: e in s.offered ==> e in s.handled && s.handled[e] == [])
  }

  ghost predicate SentOk(s: System, x: Envelope) {
    && x.epoch in s.driver && x.epoch in s.handled
    && x.sequence <= |s.handled[x.epoch]|
    && Honest(s, s.driver[x.epoch], x.message)
  }

  predicate OneMessageEach(sent: set<Envelope>) {
    forall x, y :: x in sent && y in sent && x.epoch == y.epoch && x.sequence == y.sequence ==> x == y
  }

  predicate ExchangeOk(s: System, e: EpochId, k: nat) {
    && e in s.driver && e in s.handled && k < |s.handled[e]|
    && Envelope(e, k, s.handled[e][k].message) in s.sent
    && Truthful(s, s.driver[e], s.handled[e][k].message, s.handled[e][k].response)
  }

  ghost predicate HandledOk(s: System) {
    forall e, k :: e in s.handled && 0 <= k < |s.handled[e]| ==> ExchangeOk(s, e, k)
  }

  predicate AnswerOk(s: System, a: Sealed) {
    && !a.conflict && a.epoch in s.handled && a.sequence < |s.handled[a.epoch]|
    && s.handled[a.epoch][a.sequence].response == a.response
  }

  /**
   * The client is at most one envelope ahead of what its epoch handled, and that
   * envelope is the one it is waiting for.
   */
  predicate Frontier(s: System, l: Link)
    requires l.epoch in s.handled
  {
    if l.pending.None? then
      |s.handled[l.epoch]| == l.sequence && forall x :: x in s.sent && x.epoch == l.epoch ==> x.sequence < l.sequence
    else
      var own := Envelope(l.epoch, l.sequence, l.pending.value);
      && own in s.sent && l.sequence <= |s.handled[l.epoch]| <= l.sequence + 1
      && forall x :: x in s.sent && x.epoch == l.epoch ==> x.sequence < l.sequence || x == own
  }

  predicate PendingOk(l: Link) {
    if l.id == "" then l.pending.Some? && l.pending.value.OpenOrResume?
    else
      match l.pending
      case None => true
      case Some(m) => (m.Pcm? && m.id == l.id && m.start == l.remote) || (m.MarkIncomplete? && m.id == l.id)
  }

  ghost predicate LinkOk(s: System, who: nat, l: Link) {
    && l.epoch in s.driver && s.driver[l.epoch] == who && l.epoch in s.handled
    && Frontier(s, l) && PendingOk(l)
    && (l.id != "" ==> Within(s, l.id, who, l.remote))
  }

  ghost predicate LinksOk(s: System) {
    forall who :: who in s.clients && s.clients[who].link.Some? ==> LinkOk(s, who, s.clients[who].link.value)
  }

  ghost predicate AllSent(s: System) {
    forall x :: x in s.sent ==> SentOk(s, x)
  }

  predicate AllAnswered(s: System) {
    forall a :: a in s.answers ==> AnswerOk(s, a)
  }

  ghost predicate Inv(s: System) {
    && ServerInv(s.server, s.ledger) && AllFed(s) && ClientsOk(s) && EpochsOk(s)
    && AllSent(s) && OneMessageEach(s.sent) && HandledOk(s) && AllAnswered(s) && LinksOk(s)
  }

  lemma InitialInv()
    ensures Inv(INITIAL)
  {
  }
}
