/**
 * Epochs: the server's guard against repeated, late and early envelopes. An envelope
 * stands for its sealed bytes; sealing is deterministic, so equal bytes are equal envelopes.
 */
module UploadEpochs {
  import opened Wrappers
  import opened UploadProtocol
  import opened UploadServer

  type EpochId = nat

  datatype Envelope = Envelope(epoch: EpochId, sequence: nat, message: Message)

  datatype Stored = Stored(request: Envelope, response: Response)

  datatype Epoch = Epoch(expiresAt: nat, lastSeen: nat, expected: nat, active: bool, last: Option<Stored>)

  /** A response sealed for one place in an epoch; a conflict is sent with HTTP status 409. */
  datatype Sealed = Sealed(epoch: EpochId, sequence: nat, response: Response, conflict: bool)

  datatype Outcome = Refused(status: nat) | Answered(answer: Sealed)

  datatype Processed = Processed(server: Server, epochs: map<EpochId, Epoch>, outcome: Outcome)

  const HTTP_UNAUTHORIZED := 401
  const HTTP_CONFLICT := 409

  predicate Expired(e: Epoch, now: nat, idle: nat) {
    if e.active then e.lastSeen + idle < now else e.expiresAt < now
  }

  /** A new epoch under an unused id, unless too many are pending; old ones are dropped first. */
  function Issue(epochs: map<EpochId, Epoch>, id: EpochId, now: nat, ttl: nat, idle: nat, maximum: nat)
    : Option<map<EpochId, Epoch>>
  {
    var kept := map e | e in epochs && !Expired(epochs[e], now, idle) :: epochs[e];
    if |kept| >= maximum || id in kept then None
    else Some(kept[id := Epoch(now + ttl, now, 0, false, None)])
  }

  /** The envelope is the next one of an epoch that is still alive. */
  predicate IsNext(epochs: map<EpochId, Epoch>, x: Envelope, now: nat, idle: nat) {
    && x.epoch in epochs && !Expired(epochs[x.epoch], now, idle)
    && x.sequence == epochs[x.epoch].expected
  }

  /** What the server does with an envelope that opens under its key. */
  function Process(v: Server, epochs: map<EpochId, Epoch>, x: Envelope, now: nat, idle: nat, id: string, fault: Fault)
    : Processed
  {
    if x.epoch !in epochs then Processed(v, epochs, Refused(HTTP_UNAUTHORIZED))
    else
      var e := epochs[x.epoch];
      if Expired(e, now, idle) then Processed(v, epochs, Refused(HTTP_UNAUTHORIZED))
      else if x.sequence < e.expected then
        if e.last.Some? && e.last.value.request == x then
          Processed(v, epochs[x.epoch := e.(lastSeen := now)],
                    Answered(Sealed(x.epoch, x.sequence, e.last.value.response, false)))
        else Processed(v, epochs, Refused(HTTP_CONFLICT))
      else if x.sequence > e.expected then
        var at := NextSampleFor(v, x.message);
        var response := if at.Some? then GapResponse(at.value.0, at.value.1, "sequence_gap")
                        else GapResponse("", 0, "sequence_gap");
        Processed(v, epochs, Answered(Sealed(x.epoch, x.sequence, response, true)))
      else
        var h := Handle(v, x.message, id, fault);
        Processed(h.server,
                  epochs[x.epoch := Epoch(e.expiresAt, now, e.expected + 1, true, Some(Stored(x, h.response)))],
                  Answered(Sealed(x.epoch, x.sequence, h.response, false)))
  }
}

/**
 * The upload client: it keeps one session at a time, sends one message at a time, and
 * gives up the session, never the position it has not been told, when anything fails.
 */
module UploadClient {
  import opened Arithmetic
  import opened Wrappers
  import opened Decimal
  import opened UploadProtocol
  import opened UploadServer
  import opened UploadEpochs

  /** An established session, or one being established while the session id is empty. */
  datatype Link = Link(epoch: EpochId, sequence: nat, id: string, remote: nat, pending: Option<Message>)

  /** One activation of the upload: it never sends samples recorded before `start`. */
  datatype Client = Client(device: string, activation: string, audio: Audio, start: nat, stream: seq<Sample>,
                           suffix: nat, link: Option<Link>, stopped: bool)

  datatype Act = Act(client: Client, sent: Option<Envelope>)

  function LogicalId(activation: string, suffix: nat): string {
    if suffix == 0 then activation else activation + "-gap-" + Text(suffix)
  }

  /** Each gap starts a stream of its own. */
  lemma LogicalIdsAreDistinct(activation: string, i: nat, j: nat)
    requires LogicalId(activation, i) == LogicalId(activation, j)
    ensures i == j
  {
    var a, b := LogicalId(activation, i), LogicalId(activation, j);
    if i != 0 && j != 0 {
      assert a[|activation| + 5..] == Text(i) && b[|activation| + 5..] == Text(j);
      TextIsInjective(i, j);
    }
  }

  /** Decimal digits bring no NUL into a logical stream id. */
  lemma LogicalIdHasNoNul(activation: string, suffix: nat)
    requires '\0' !in activation
    ensures '\0' !in LogicalId(activation, suffix)
  {
    var text := Text(suffix);
    ValueOfText(suffix);
    assert forall i :: 0 <= i < |text| ==> IsDigit(text[i]);
    assert '\0' !in "-gap-";
  }

  function Floor(c: Client, retained: nat): nat {
    if c.start < retained then retained else c.start
  }

  /** The message on its way, sealed for its place in the epoch. */
  function Sending(c: Client, l: Link, m: Message): Act {
    Act(c.(link := Some(l.(pending := Some(m)))), Some(Envelope(l.epoch, l.sequence, m)))
  }

  /** Opens or resumes the current logical stream in a new epoch. */
  function Establish(c: Client, epoch: EpochId, retained: nat): Act {
    var source := Floor(c, retained);
    var m := OpenOrResume(c.device, LogicalId(c.activation, c.suffix), c.audio.rate, c.audio.channels,
                          SAMPLE_FORMAT_PCM_S16LE, source);
    Sending(c, Link(epoch, 0, "", source, None), m)
  }

  predicate Behind(c: Client, l: Link, retained: nat, total: nat) {
    l.remote < Floor(c, retained) || l.remote > total
  }

  /** Where the next chunk ends: bounded, recorded already, and whole frames. */
  function ChunkEnd(c: Client, l: Link, total: nat, maximum: nat): nat
    requires c.audio.channels > 0 && l.remote <= total
  {
    var end := if l.remote + maximum < total then l.remote + maximum else total;
    end - (end - l.remote) % c.audio.channels
  }

  /** A chunk is whole frames, no longer than the maximum, and as long as the maximum or the recording allows. */
  lemma ChunkIsWholeFrames(c: Client, l: Link, total: nat, maximum: nat)
    requires c.audio.channels > 0 && l.remote <= total
    ensures var n := ChunkEnd(c, l, total, maximum) - l.remote;
            && 0 <= n <= maximum && l.remote + n <= total && n % c.audio.channels == 0
            && (n + c.audio.channels > maximum || l.remote + n + c.audio.channels > total)
  {
    WholePart((if l.remote + maximum < total then l.remote + maximum else total) - l.remote, c.audio.channels);
  }

  /** One upload tick of an established session: the next chunk, or a retention gap, or nothing. */
  function Sync(c: Client, retained: nat, total: nat, maximum: nat): Act
    requires c.link.Some? && c.audio.channels > 0 && total <= |c.stream|
  {
    var l := c.link.value;
    if Behind(c, l, retained, total) then
      if l.id == "" then Act(c.(suffix := c.suffix + 1, link := None), None)
      else Sending(c, l, MarkIncomplete(l.id))
    else
      var end := ChunkEnd(c, l, total, maximum);
      if end <= l.remote then Act(c, None)
      else Sending(c, l, Pcm(l.id, l.remote, c.stream[l.remote..end]))
  }

  /** The session is given up; after a retention gap the next one is a new logical stream. */
  function Fail(c: Client): Client
    requires c.link.Some? && c.link.value.pending.Some?
  {
    if c.link.value.pending.value.MarkIncomplete? then c.(suffix := c.suffix + 1, link := None)
    else c.(link := None)
  }

  predicate InvalidAck(m: Message, r: Response)
    requires m.Pcm?
  {
    r.status.Accepted? && (r.next <= m.start || r.next > m.start + |m.samples|)
  }

  /** The answer to the pending message; a conflict leaves the sequence where it was. */
  function Receive(c: Client, r: Response, conflict: bool): Client
    requires c.link.Some? && c.link.value.pending.Some?
  {
    var l := c.link.value;
    var next := l.(sequence := if conflict then l.sequence else l.sequence + 1, pending := None);
    if conflict && !r.status.Gap? then Fail(c)
    else
      match l.pending.value
      case OpenOrResume(_, _, _, _, _, _) =>
        if !r.status.Accepted? || r.id == "" then c.(link := None)
        else c.(link := Some(next.(id := r.id, remote := r.next)))
      case Pcm(_, start, samples) =>
        if r.status.Gap? && r.code == "sequence_gap" then c.(link := None)
        else if InvalidAck(l.pending.value, r) then c.(link := None)
        else if r.status.Accepted? || r.status.Gap? then c.(link := Some(next.(remote := r.next)))
        else c.(link := None)
      case MarkIncomplete(_) => c.(suffix := c.suffix + 1, link := None)
      case Probe => c.(link := None)
      case Close(_, _) => c.(link := None)
  }

  /** Stopping tells the server the last position it acknowledged, and waits for no answer. */
  function Stop(c: Client): Act
    requires c.link.Some? ==> c.link.value.pending.None?
  {
    var done := c.(link := None, stopped := true);
    if c.link.None? then Act(done, None)
    else
      var l := c.link.value;
      Act(done, Some(Envelope(l.epoch, l.sequence, Close(l.id, l.remote))))
  }
}
