/** The messages of the upload protocol. */
module UploadProtocol {
  import opened Wrappers

  const SAMPLE_FORMAT_PCM_S16LE := "pcm_s16le"

  /** Text is held as its UTF-8 encoding, one character per byte. */
  datatype Message =
    | Probe
    | OpenOrResume(device: string, stream: string, rate: nat, channels: nat, format: string, source: nat)
    | Pcm(id: string, start: nat, samples: seq<Sample>)
    | Close(id: string, final: nat)
    | MarkIncomplete(id: string)

  datatype Status = Accepted | Gap | Incomplete | Rejected

  datatype Response = Response(status: Status, id: string, next: nat, count: nat, code: string)

  function OkResponse(id: string, next: nat, count: nat): Response {
    Response(Accepted, id, next, count, "")
  }

  function RejectedResponse(code: string): Response {
    Response(Rejected, "", 0, 0, code)
  }

  function GapResponse(id: string, next: nat, code: string): Response {
    Response(Gap, id, next, 0, code)
  }
}

/**
 * The upload server: sessions, the map from client streams to sessions, the one active
 * session, and the one cache that every session appends to.
 */
module UploadServer {
  import opened Wrappers
  import opened UploadProtocol

  datatype StreamKey = StreamKey(device: string, stream: string)

  datatype Audio = Audio(rate: nat, channels: nat)

  datatype Session = Session(key: StreamKey, source: nat, cacheStart: nat, cacheEnd: Option<nat>,
                             closed: bool, incomplete: bool)
  {
    predicate Open() { !closed && !incomplete }

    /** The client's next sample, if the session's run in the cache ends at the given place. */
    function Next(end: nat): nat {
      source + (if end < cacheStart then 0 else end - cacheStart)
    }
  }

  /** The cache counts every sample ever appended; what it still retains is the recorder's matter. */
  datatype Server = Server(sessions: map<string, Session>, streams: map<StreamKey, string>,
                           active: Option<string>, audio: Option<Audio>, cache: seq<Sample>)

  /** A write that fails before, or after, the state in memory has changed. */
  datatype Fault = NoFault | EarlyFault | LateFault

  datatype Handled = Handled(server: Server, response: Response)

  const NEW_SERVER := Server(map[], map[], None, None, [])

  predicate ValidConfig(m: Message)
    requires m.OpenOrResume?
  {
    && 0 < |m.device| <= 256 && 0 < |m.stream| <= 256
    && 8_000 <= m.rate <= 192_000 && 1 <= m.channels <= 8
    && m.source % m.channels == 0
    && m.format == SAMPLE_FORMAT_PCM_S16LE
  }

  function KeyOf(m: Message): StreamKey
    requires m.OpenOrResume?
  {
    StreamKey(m.device, m.stream)
  }

  function Resume(v: Server, id: string, m: Message): Response
    requires m.OpenOrResume? && id in v.sessions
  {
    var session := v.sessions[id];
    if v.audio.None? then RejectedResponse("cache_missing")
    else if v.audio.value != Audio(m.rate, m.channels) then RejectedResponse("stream_format_changed")
    else if session.source != m.source then RejectedResponse("stream_source_changed")
    else if session.incomplete then RejectedResponse("stream_incomplete")
    else
      var end := if session.cacheEnd.Some? then session.cacheEnd.value else |v.cache|;
      OkResponse(id, session.Next(end), 0)
  }

  /** The session that was active is over, wherever the cache now ends. */
  function Superseded(v: Server): map<string, Session> {
    if v.active.Some? && v.active.value in v.sessions then
      v.sessions[v.active.value :=
        v.sessions[v.active.value].(closed := true, incomplete := true, cacheEnd := Some(|v.cache|))]
    else v.sessions
  }

  function Opened(v: Server, id: string, m: Message): Server
    requires m.OpenOrResume?
  {
    Server(Superseded(v)[id := Session(KeyOf(m), m.source, |v.cache|, None, false, false)],
           v.streams[KeyOf(m) := id], Some(id), Some(Audio(m.rate, m.channels)), v.cache)
  }

  predicate Resumes(v: Server, m: Message)
    requires m.OpenOrResume?
  {
    KeyOf(m) in v.streams && v.streams[KeyOf(m)] in v.sessions
  }

  /** Opens or resumes a session; a new one takes the given fresh id. */
  function OpenStream(v: Server, m: Message, id: string, fault: Fault): Handled
    requires m.OpenOrResume?
  {
    if !ValidConfig(m) then Handled(v, RejectedResponse("invalid_stream_config"))
    else if Resumes(v, m) then Handled(v, Resume(v, v.streams[KeyOf(m)], m))
    else if v.audio.None? && fault.EarlyFault? then Handled(v, RejectedResponse("core_start_failed"))
    else if v.audio.Some? && v.audio.value != Audio(m.rate, m.channels) then
      Handled(v, RejectedResponse("cache_format_changed"))
    else
      Handled(Opened(v, id, m),
              if fault.LateFault? then RejectedResponse("metadata_write_failed")
              else OkResponse(id, m.source, 0))
  }

  /** Appends samples to the cache if they are the active session's next ones. */
  function PushPcm(v: Server, id: string, start: nat, samples: seq<Sample>, fault: Fault): Handled {
    if v.active != Some(id) then Handled(v, RejectedResponse("stream_not_active"))
    else if id !in v.sessions then Handled(v, RejectedResponse("stream_not_found"))
    else
      var session := v.sessions[id];
      if !session.Open() then Handled(v, RejectedResponse("stream_closed"))
      else if v.audio.None? then Handled(v, RejectedResponse("cache_missing"))
      else if |samples| == 0 || v.audio.value.channels == 0 || |samples| % v.audio.value.channels != 0 then
        Handled(v, RejectedResponse("invalid_pcm_alignment"))
      else if start != session.Next(|v.cache|) then
        Handled(v, GapResponse(id, session.Next(|v.cache|), "sample_gap"))
      else if fault.EarlyFault? then Handled(v, RejectedResponse("storage_write_failed"))
      else
        var after := v.(cache := v.cache + samples);
        Handled(after,
                if fault.LateFault? then RejectedResponse("storage_write_failed")
                else OkResponse(id, session.Next(|after.cache|), |samples|))
  }

  function Ended(v: Server, id: string, session: Session): Server {
    v.(sessions := v.sessions[id := session],
       active := if v.active == Some(id) then None else v.active)
  }

  function CloseStream(v: Server, id: string, final: nat, fault: Fault): Handled {
    if id !in v.sessions then Handled(v, RejectedResponse("stream_not_found"))
    else if v.audio.None? then Handled(v, RejectedResponse("cache_missing"))
    else
      var session := v.sessions[id];
      var next := session.Next(|v.cache|);
      if final != next then Handled(v, GapResponse(id, next, "final_sample_mismatch"))
      else if fault.EarlyFault? then Handled(v, RejectedResponse("core_flush_failed"))
      else
        Handled(Ended(v, id, session.(closed := true, cacheEnd := Some(|v.cache|))),
                if fault.LateFault? then RejectedResponse("metadata_write_failed") else OkResponse(id, next, 0))
  }

  function MarkStreamIncomplete(v: Server, id: string, fault: Fault): Handled {
    if id !in v.sessions then Handled(v, RejectedResponse("stream_not_found"))
    else if v.audio.None? then Handled(v, RejectedResponse("cache_missing"))
    else
      var session := v.sessions[id];
      Handled(Ended(v, id, session.(closed := true, incomplete := true, cacheEnd := Some(|v.cache|))),
              if fault.LateFault? then RejectedResponse("metadata_write_failed")
              else OkResponse(id, session.Next(|v.cache|), 0))
  }

  function Handle(v: Server, m: Message, id: string, fault: Fault): Handled {
    match m
    case Probe => Handled(v, OkResponse("", 0, 0))
    case OpenOrResume(_, _, _, _, _, _) => OpenStream(v, m, id, fault)
    case Pcm(session, start, samples) => PushPcm(v, session, start, samples, fault)
    case Close(session, final) => CloseStream(v, session, final, fault)
    case MarkIncomplete(session) => MarkStreamIncomplete(v, session, fault)
  }

  /** What the answer to a message that came too early reports. */
  function NextSampleFor(v: Server, m: Message): Option<(string, nat)> {
    if m.Probe? || m.OpenOrResume? then None
    else if m.id !in v.sessions || v.audio.None? then None
    else
      var session := v.sessions[m.id];
      var end := if session.cacheEnd.Some? then session.cacheEnd.value else |v.cache|;
      Some((m.id, session.Next(end)))
  }

  // ---------------------------------------------------------------- the text of stream keys

  /** The key as the server writes it, with a NUL between its parts. */
  function KeyText(key: StreamKey): string {
    key.device + ['\0'] + key.stream
  }

  /** With a NUL in a stream id two streams can share a key; the server does not look for one. */
  lemma KeyTextCanCollide()
    ensures KeyText(StreamKey("a" + ['\0'] + "b", "c")) == KeyText(StreamKey("a", "b" + ['\0'] + "c"))
    ensures StreamKey("a" + ['\0'] + "b", "c") != StreamKey("a", "b" + ['\0'] + "c")
  {
    assert |"a" + ['\0'] + "b"| == 3;
  }

  /** As long as stream ids hold no NUL, two streams never share a key, whatever the device ids hold. */
  lemma KeyTextIsInjective(a: StreamKey, b: StreamKey)
    requires '\0' !in a.stream && '\0' !in b.stream && KeyText(a) == KeyText(b)
    ensures a == b
  {
    var x, y := KeyText(a), KeyText(b);
    assert x[|a.device|] == '\0' && y[|b.device|] == '\0';
    assert forall i :: |a.device| < i < |x| ==> x[i] == a.stream[i - |a.device| - 1];
    assert forall i :: |b.device| < i < |y| ==> y[i] == b.stream[i - |b.device| - 1];
    assert |a.device| == |b.device|;
    assert x[..|a.device|] == a.device && y[..|b.device|] == b.device;
    assert x[|a.device| + 1..] == a.stream && y[|b.device| + 1..] == b.stream;
  }
}
