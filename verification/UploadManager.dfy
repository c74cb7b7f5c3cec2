/** The server's session manager and envelope endpoint, as the objects they are. */
module UploadManager {
  import opened Wrappers
  import opened UploadProtocol
  import opened UploadServer
  import opened UploadLedger
  import opened UploadEpochs

  class StreamManager {
    var sessions: map<string, Session>
    var streams: map<StreamKey, string>
    var active: Option<string>
    var audio: Option<Audio>
    var cache: seq<Sample>
    ghost var ledger: Ledger

    ghost function View(): Server
      reads this
    {
      Server(sessions, streams, active, audio, cache)
    }

    /** The fields agree with the ledger of who opened what and who wrote what. */
    ghost predicate Valid()
      reads this
    {
      ServerInv(View(), ledger)
    }

    constructor ()
      ensures Valid() && View() == NEW_SERVER && ledger == NEW_LEDGER
    {
      sessions, streams, active, audio, cache := map[], map[], None, None, [];
      ledger := NEW_LEDGER;
      new;
      NewServerInv();
    }

    method OpenOrResume(device: string, stream: string, rate: nat, channels: nat, format: string, source: nat,
                        newId: string, fault: Fault)
      returns (response: Response)
      modifies this
      ensures var m := Message.OpenOrResume(device, stream, rate, channels, format, source);
              Handled(View(), response) == OpenStream(old(View()), m, newId, fault)
      ensures ledger == old(ledger)
    {
      if |device| == 0 || |device| > 256 || |stream| == 0 || |stream| > 256
        || rate < 8_000 || rate > 192_000 || channels < 1 || channels > 8
        || source % channels != 0 || format != SAMPLE_FORMAT_PCM_S16LE {
        return RejectedResponse("invalid_stream_config");
      }
      var key := StreamKey(device, stream);
      if key in streams && streams[key] in sessions {
        var session := sessions[streams[key]];
        if audio.None? {
          return RejectedResponse("cache_missing");
        }
        if audio.value.rate != rate || audio.value.channels != channels {
          return RejectedResponse("stream_format_changed");
        }
        if session.source != source {
          return RejectedResponse("stream_source_changed");
        }
        if session.incomplete {
          return RejectedResponse("stream_incomplete");
        }
        var end := if session.cacheEnd.Some? then session.cacheEnd.value else |cache|;
        return OkResponse(streams[key], session.Next(end), 0);
      }
      if audio.None? {
        if fault.EarlyFault? {
          return RejectedResponse("core_start_failed");
        }
      } else if audio.value != Audio(rate, channels) {
        return RejectedResponse("cache_format_changed");
      }
      audio := Some(Audio(rate, channels));
      var start := |cache|;
      if active.Some? && active.value in sessions {
        var previous := sessions[active.value];
        sessions := sessions[active.value := previous.(closed := true, incomplete := true, cacheEnd := Some(start))];
      }
      sessions := sessions[newId := Session(key, source, start, None, false, false)];
      streams := streams[key := newId];
      active := Some(newId);
      if fault.LateFault? {
        return RejectedResponse("metadata_write_failed");
      }
      return OkResponse(newId, source, 0);
    }

    method PushPcm(id: string, start: nat, samples: seq<Sample>, fault: Fault) returns (response: Response)
      modifies this
      ensures Handled(View(), response) == UploadServer.PushPcm(old(View()), id, start, samples, fault)
      ensures ledger == old(ledger)
    {
      if active != Some(id) {
        return RejectedResponse("stream_not_active");
      }
      if id !in sessions {
        return RejectedResponse("stream_not_found");
      }
      var session := sessions[id];
      if session.closed || session.incomplete {
        return RejectedResponse("stream_closed");
      }
      if audio.None? {
        return RejectedResponse("cache_missing");
      }
      if |samples| == 0 || audio.value.channels == 0 || |samples| % audio.value.channels != 0 {
        return RejectedResponse("invalid_pcm_alignment");
      }
      var expected := session.Next(|cache|);
      if start != expected {
        return GapResponse(id, expected, "sample_gap");
      }
      if fault.EarlyFault? {
        return RejectedResponse("storage_write_failed");
      }
      cache := cache + samples;
      if fault.LateFault? {
        return RejectedResponse("storage_write_failed");
      }
      return OkResponse(id, session.Next(|cache|), |samples|);
    }

    method CloseStream(id: string, final: nat, fault: Fault) returns (response: Response)
      modifies this
      ensures Handled(View(), response) == UploadServer.CloseStream(old(View()), id, final, fault)
      ensures ledger == old(ledger)
    {
      if id !in sessions {
        return RejectedResponse("stream_not_found");
      }
      if audio.None? {
        return RejectedResponse("cache_missing");
      }
      var session := sessions[id];
      var total := |cache|;
      var next := session.Next(total);
      if final != next {
        return GapResponse(id, next, "final_sample_mismatch");
      }
      if fault.EarlyFault? {
        return RejectedResponse("core_flush_failed");
      }
      sessions := sessions[id := session.(closed := true, cacheEnd := Some(total))];
      if active == Some(id) {
        active := None;
      }
      if fault.LateFault? {
        return RejectedResponse("metadata_write_failed");
      }
      return OkResponse(id, next, 0);
    }

    method MarkIncomplete(id: string, fault: Fault) returns (response: Response)
      modifies this
      ensures Handled(View(), response) == MarkStreamIncomplete(old(View()), id, fault)
      ensures ledger == old(ledger)
    {
      if id !in sessions {
        return RejectedResponse("stream_not_found");
      }
      if audio.None? {
        return RejectedResponse("cache_missing");
      }
      var session := sessions[id];
      var total := |cache|;
      sessions := sessions[id := session.(closed := true, incomplete := true, cacheEnd := Some(total))];
      if active == Some(id) {
        active := None;
      }
      if fault.LateFault? {
        return RejectedResponse("metadata_write_failed");
      }
      return OkResponse(id, session.Next(total), 0);
    }

    /** Handles one message; `newId` is the fresh id a new session would take. */
    method Handle(m: Message, newId: string, fault: Fault) returns (response: Response)
      requires newId !in sessions
      modifies this
      ensures Handled(View(), response) == UploadServer.Handle(old(View()), m, newId, fault)
      ensures ledger == Booked(old(ledger), old(View()), View(), m, newId)
      ensures old(Valid()) && FairClose(old(View()), old(ledger), m) ==> Valid()
    {
      hide ServerInv, FairClose, OpenStream, UploadServer.PushPcm, UploadServer.CloseStream, MarkStreamIncomplete, Booked;
      ghost var before := View();
      match m {
        case Probe => response := OkResponse("", 0, 0);
        case OpenOrResume(device, stream, rate, channels, format, source) =>
          response := OpenOrResume(device, stream, rate, channels, format, source, newId, fault);
        case Pcm(id, start, samples) => response := PushPcm(id, start, samples, fault);
        case Close(id, final) => response := CloseStream(id, final, fault);
        case MarkIncomplete(id) => response := MarkIncomplete(id, fault);
      }
      if ServerInv(before, ledger) && FairClose(before, ledger, m) {
        HandleKeeps(before, ledger, m, newId, fault);
      }
      ledger := Booked(ledger, before, View(), m, newId);
    }

    /** The position an early message is answered with; reads only. */
    method NextSample(m: Message) returns (at: Option<(string, nat)>)
      ensures at == NextSampleFor(View(), m)
    {
      if m.Probe? || m.OpenOrResume? {
        return None;
      }
      if m.id !in sessions || audio.None? {
        return None;
      }
      var session := sessions[m.id];
      var end := if session.cacheEnd.Some? then session.cacheEnd.value else |cache|;
      return Some((m.id, session.Next(end)));
    }
  }

  lemma IssueFrom(epochs: map<EpochId, Epoch>, kept: map<EpochId, Epoch>, id: EpochId, now: nat, ttl: nat, idle: nat,
                  maximum: nat)
    requires kept == map e | e in epochs && !Expired(epochs[e], now, idle) :: epochs[e]
    ensures Issue(epochs, id, now, ttl, idle, maximum)
            == if |kept| >= maximum || id in kept then None
               else Some(kept[id := Epoch(now + ttl, now, 0, false, None)])
  {
  }

  class UploadEndpoint {
    const manager: StreamManager
    var epochs: map<EpochId, Epoch>

    constructor (manager: StreamManager)
      ensures this.manager == manager && epochs == map[]
    {
      this.manager := manager;
      epochs := map[];
    }

    /** Drops dead epochs and opens a new one, unless too many are pending. */
    method IssueChallenge(id: EpochId, now: nat, ttl: nat, idle: nat, maximum: nat) returns (issued: bool)
      modifies this
      ensures var after := Issue(old(epochs), id, now, ttl, idle, maximum);
              && issued == after.Some? && (issued ==> epochs == after.value)
              && (!issued ==> forall e :: e in epochs <==> e in old(epochs) && !Expired(old(epochs)[e], now, idle))
    {
      ghost var before := epochs;
      epochs := map e | e in epochs && !Expired(epochs[e], now, idle) :: epochs[e];
      IssueFrom(before, epochs, id, now, ttl, idle, maximum);
      if |epochs| >= maximum || id in epochs {
        return false;
      }
      epochs := epochs[id := Epoch(now + ttl, now, 0, false, None)];
      return true;
    }

    /** Processes one envelope that opened under the server's key. */
    method ProcessEnvelope(x: Envelope, now: nat, idle: nat, newId: string, fault: Fault) returns (outcome: Outcome)
      requires newId !in manager.sessions
      modifies this, manager
      ensures Processed(manager.View(), epochs, outcome)
          == Process(old(manager.View()), old(epochs), x, now, idle, newId, fault)
      ensures old(manager.Valid()) && FairClose(old(manager.View()), old(manager.ledger), x.message) ==> manager.Valid()
    {
      hide ServerInv, FairClose, UploadServer.Handle;
      if x.epoch !in epochs {
        return Refused(HTTP_UNAUTHORIZED);
      }
      var epoch := epochs[x.epoch];
      if (!epoch.active && epoch.expiresAt < now) || (epoch.active && epoch.lastSeen + idle < now) {
        return Refused(HTTP_UNAUTHORIZED);
      }
      if x.sequence < epoch.expected && epoch.last.Some? && epoch.last.value.request == x {
        epochs := epochs[x.epoch := epoch.(lastSeen := now)];
        return Answered(Sealed(x.epoch, x.sequence, epoch.last.value.response, false));
      }
      if x.sequence < epoch.expected {
        return Refused(HTTP_CONFLICT);
      }
      if x.sequence > epoch.expected {
        var at := manager.NextSample(x.message);
        var (id, next) := if at.Some? then at.value else ("", 0);
        return Answered(Sealed(x.epoch, x.sequence, GapResponse(id, next, "sequence_gap"), true));
      }
      var response := manager.Handle(x.message, newId, fault);
      epochs := epochs[x.epoch := Epoch(epoch.expiresAt, now, epoch.expected + 1, true, Some(Stored(x, response)))];
      return Answered(Sealed(x.epoch, x.sequence, response, false));
    }
  }
}

/** The client's upload loop, one tick at a time, as the program runs it. */
module UploadLoop {
  import opened Wrappers
  import opened UploadProtocol
  import opened UploadServer
  import opened UploadEpochs
  import opened UploadClient

  /** What one HTTP attempt came to: nothing, or a status and the body if it opens. */
  datatype HttpReply = Unreachable | Http(status: nat, body: Option<Sealed>)

  datatype SendResult = Failed | Received(response: Response, conflict: bool)

  const HTTP_OK := 200
  const ATTEMPTS := 2

  predicate BodyFits(epoch: EpochId, sequence: nat, reply: HttpReply)
    requires reply.Http? && reply.body.Some?
  {
    reply.body.value.epoch == epoch && reply.body.value.sequence == sequence
  }

  /** The outcome of sending one envelope, given what its attempts come to. */
  function SendOutcome(epoch: EpochId, sequence: nat, replies: seq<HttpReply>): (r: SendResult)
    ensures r.Received? && r.conflict ==> r.response.status.Gap?
  {
    if |replies| == 0 then Failed
    else if replies[0].Http? && replies[0].status == HTTP_OK then
      if replies[0].body.Some? && BodyFits(epoch, sequence, replies[0])
          then Received(replies[0].body.value.response, false) else Failed
    else if replies[0].Http? && replies[0].status == HTTP_CONFLICT
            && replies[0].body.Some? && replies[0].body.value.epoch == epoch
            && (replies[0].body.value.response.status.Gap? || replies[0].body.value.response.status.Rejected?) then
      if replies[0].body.value.response.status.Gap? then Received(replies[0].body.value.response, true) else Failed
    else SendOutcome(epoch, sequence, replies[1..])
  }

  /** A sealed body comes with the status it was sent with. */
  predicate StatusesMatch(replies: seq<HttpReply>, answers: set<Sealed>) {
    forall i :: 0 <= i < |replies| && replies[i].Http? && replies[i].body.Some? ==>
      replies[i].body.value in answers && (replies[i].status == HTTP_CONFLICT <==> replies[i].body.value.conflict)
  }

  /** Whatever is received was sealed for this place in this epoch, or is a conflict of this epoch. */
  lemma {:induction false} ReceivedWasAnswered(l: Link, replies: seq<HttpReply>, answers: set<Sealed>)
    requires StatusesMatch(replies, answers) && SendOutcome(l.epoch, l.sequence, replies).Received?
    ensures var r := SendOutcome(l.epoch, l.sequence, replies);
            exists a :: a in answers && a.response == r.response && a.conflict == r.conflict && a.epoch == l.epoch
                        && (a.conflict || a.sequence == l.sequence)
  {
    var r := SendOutcome(l.epoch, l.sequence, replies);
    if replies[0].Http? && replies[0].status == HTTP_OK {
      assert replies[0].body.value in answers;
    } else if replies[0].Http? && replies[0].status == HTTP_CONFLICT
              && replies[0].body.Some? && replies[0].body.value.epoch == l.epoch
              && replies[0].body.value.response.status.Gap? {
      assert replies[0].body.value in answers;
    } else {
      ReceivedWasAnswered(l, replies[1..], answers);
    }
  }

  /** No more than two attempts are made. */
  function Attempted(epoch: EpochId, sequence: nat, replies: seq<HttpReply>): SendResult {
    SendOutcome(epoch, sequence, if |replies| > ATTEMPTS then replies[..ATTEMPTS] else replies)
  }

  /** The pending message is sent, and the client goes on with what came back. */
  function Exchanged(c: Client, replies: seq<HttpReply>): Client
    requires c.link.Some? && c.link.value.pending.Some?
  {
    match Attempted(c.link.value.epoch, c.link.value.sequence, replies)
    case Failed => Fail(c)
    case Received(response, conflict) => Receive(c, response, conflict)
  }

  /** What a tick meets on its way: challenges that may fail, and replies to each message. */
  datatype Weather = Weather(challenge: Option<EpochId>, opening: seq<HttpReply>, message: seq<HttpReply>,
                             rechallenge: Option<EpochId>, reopening: seq<HttpReply>, chunk: seq<HttpReply>)

  function Established(c: Client, challenge: Option<EpochId>, retained: nat, replies: seq<HttpReply>): Client {
    if challenge.None? then c else Exchanged(Establish(c, challenge.value, retained).client, replies)
  }

  /** One tick of the client: connect if need be, then a gap and a new stream, or a chunk, or nothing. */
  function Ticked(c: Client, earlier: nat, retained: nat, total: nat, maximum: nat, w: Weather): Client
    requires c.audio.channels > 0 && total <= |c.stream|
    requires c.link.Some? ==> c.link.value.pending.None? && c.link.value.id != ""
  {
    var d := if c.link.None? then Established(c, w.challenge, earlier, w.opening) else c;
    if d.link.None? then d
    else if Behind(d, d.link.value, retained, total) then
      var e := Established(Exchanged(Sync(d, retained, total, maximum).client, w.message),
                           w.rechallenge, retained, w.reopening);
      if e.link.None? then e else Chunked(e, total, maximum, w.chunk)
    else Chunked(d, total, maximum, w.message)
  }

  /** The chunk of a tick, which is a tick's message when nothing retained is ahead of it. */
  function Chunked(c: Client, total: nat, maximum: nat, replies: seq<HttpReply>): Client
    requires c.audio.channels > 0 && total <= |c.stream| && c.link.Some?
  {
    if c.link.value.remote >= total then c
    else
      var end := ChunkEnd(c, c.link.value, total, maximum);
      if end <= c.link.value.remote then c
      else
        Exchanged(Sending(c, c.link.value, Pcm(c.link.value.id, c.link.value.remote,
                                               c.stream[c.link.value.remote..end])).client, replies)
  }

  /** The chunk is what the client's own step sends when the retained samples begin no later than its position. */
  lemma ChunkIsAStep(c: Client, total: nat, maximum: nat)
    requires c.audio.channels > 0 && total <= |c.stream| && c.link.Some?
    requires c.start <= c.link.value.remote < total
    ensures var end := ChunkEnd(c, c.link.value, total, maximum);
            Sync(c, 0, total, maximum)
            == if end <= c.link.value.remote then Act(c, None)
               else Sending(c, c.link.value, Pcm(c.link.value.id, c.link.value.remote, c.stream[c.link.value.remote..end]))
  {
  }

  /** A retention gap ends the session whatever the server answers. */
  lemma GapEndsSession(c: Client, retained: nat, total: nat, maximum: nat, replies: seq<HttpReply>)
    requires c.link.Some? && c.audio.channels > 0 && total <= |c.stream| && c.link.value.id != ""
    requires Behind(c, c.link.value, retained, total)
    ensures Exchanged(Sync(c, retained, total, maximum).client, replies) == c.(suffix := c.suffix + 1, link := None)
  {
  }

  class Uploader {
    const device: string
    const activation: string
    const audio: Audio
    const start: nat
    var stream: seq<Sample>
    var suffix: nat
    var link: Option<Link>
    var stopped: bool

    ghost function View(): Client
      reads this
    {
      Client(device, activation, audio, start, stream, suffix, link, stopped)
    }

    constructor (device: string, activation: string, audio: Audio, stream: seq<Sample>)
      ensures View() == Client(device, activation, audio, |stream|, stream, 0, None, false)
    {
      this.device, this.activation, this.audio, this.start := device, activation, audio, |stream|;
      this.stream, suffix, link, stopped := stream, 0, None, false;
    }

    /** Sends one envelope, twice at most, and moves the sequence on once it is answered. */
    method SendMessage(m: Message, replies: seq<HttpReply>) returns (result: SendResult)
      requires link.Some?
      modifies this`link
      ensures result == Attempted(old(link.value.epoch), old(link.value.sequence), replies)
      ensures link == Some(old(link.value).(sequence :=
                if result.Received? && !result.conflict then old(link.value.sequence) + 1 else old(link.value.sequence)))
    {
      var l := link.value;
      var i := 0;
      ghost var tries := if |replies| > ATTEMPTS then replies[..ATTEMPTS] else replies;
      assert tries[0..] == tries;
      while i < ATTEMPTS && i < |replies|
        invariant i <= |tries| && link == Some(l)
        invariant SendOutcome(l.epoch, l.sequence, tries) == SendOutcome(l.epoch, l.sequence, tries[i..])
      {
        assert tries[i..][1..] == tries[i + 1..] && tries[i..][0] == replies[i];
        if replies[i].Http? && replies[i].status == HTTP_OK {
          if replies[i].body.None? || !BodyFits(l.epoch, l.sequence, replies[i]) {
            return Failed;
          }
          link := Some(l.(sequence := l.sequence + 1));
          return Received(replies[i].body.value.response, false);
        }
        if replies[i].Http? && replies[i].status == HTTP_CONFLICT && replies[i].body.Some?
          && replies[i].body.value.epoch == l.epoch {
          if replies[i].body.value.response.status.Gap? {
            return Received(replies[i].body.value.response, true);
          }
          if replies[i].body.value.response.status.Rejected? {
            return Failed;
          }
        }
        i := i + 1;
      }
      return Failed;
    }

    /** Opens or resumes the current logical stream; leaves no session behind if that fails. */
    method EstablishSession(challenge: Option<EpochId>, retained: nat, replies: seq<HttpReply>)
      requires link.None?
      modifies this`link
      ensures View() == Established(old(View()), challenge, retained, replies)
      ensures link.Some? ==> link.value.pending.None? && link.value.id != ""
    {
      if challenge.None? {
        return;
      }
      var source := if start < retained then retained else start;
      link := Some(Link(challenge.value, 0, "", source, None));
      var open := OpenOrResume(device, LogicalId(activation, suffix), audio.rate, audio.channels,
                               SAMPLE_FORMAT_PCM_S16LE, source);
      var result := SendMessage(open, replies);
      if result.Failed? || !result.response.status.Accepted? || result.response.id == "" {
        link := None;
        return;
      }
      link := Some(link.value.(id := result.response.id, remote := result.response.next));
    }

    /** Sends the next chunk, if there is one, and takes over the acknowledged position. */
    method SendChunk(total: nat, maximum: nat, replies: seq<HttpReply>)
      requires link.Some? && link.value.pending.None? && audio.channels > 0 && total <= |stream|
      modifies this`link
      ensures View() == Chunked(old(View()), total, maximum, replies)
    {
      var l := link.value;
      if l.remote >= total {
        return;
      }
      var end := if l.remote + maximum < total then l.remote + maximum else total;
      end := end - (end - l.remote) % audio.channels;
      if end <= l.remote {
        return;
      }
      var samples := stream[l.remote..end];
      var result := SendMessage(Pcm(l.id, l.remote, samples), replies);
      if result.Failed? || (result.conflict && !result.response.status.Gap?) {
        link := None;
        return;
      }
      var r := result.response;
      if r.status.Gap? && r.code == "sequence_gap" {
        link := None;
        return;
      }
      match r.status {
        case Accepted =>
          if r.next <= l.remote || r.next > end {
            link := None;
          } else {
            link := Some(link.value.(remote := r.next));
          }
        case Gap => link := Some(link.value.(remote := r.next));
        case Incomplete => link := None;
        case Rejected => link := None;
      }
    }

    /** One tick of the upload loop. */
    method SyncAvailable(earlier: nat, retained: nat, total: nat, maximum: nat, w: Weather)
      requires audio.channels > 0 && total <= |stream|
      requires link.Some? ==> link.value.pending.None? && link.value.id != ""
      modifies this`link, this`suffix
      ensures View() == Ticked(old(View()), earlier, retained, total, maximum, w)
    {
      hide Attempted, Receive, Fail, Chunked, ChunkEnd, Established, Exchanged, Sync;
      if link.None? {
        EstablishSession(w.challenge, earlier, w.opening);
        if link.None? {
          return;
        }
      }
      var floor := if start < retained then retained else start;
      if link.value.remote < floor || link.value.remote > total {
        GapEndsSession(View(), retained, total, maximum, w.message);
        var _ := SendMessage(MarkIncomplete(link.value.id), w.message);
        suffix := suffix + 1;
        link := None;
        EstablishSession(w.rechallenge, retained, w.reopening);
        if link.None? {
          return;
        }
        SendChunk(total, maximum, w.chunk);
      } else {
        SendChunk(total, maximum, w.message);
      }
    }

    /** Leaves the loop, naming the last acknowledged position if a session is established. */
    method StopUpload() returns (close: Option<Envelope>)
      requires link.Some? ==> link.value.pending.None?
      modifies this
      ensures Act(View(), close) == Stop(old(View()))
    {
      close := None;
      if link.Some? {
        close := Some(Envelope(link.value.epoch, link.value.sequence, Close(link.value.id, link.value.remote)));
      }
      link := None;
      stopped := true;
    }
  }
}

/** What the client's loop does with the replies it gets is a step of the distributed system. */
module UploadRefinement {
  import opened UploadEpochs
  import opened UploadClient
  import opened UploadSystem
  import opened UploadLoop

  lemma FirstAttempts(replies: seq<HttpReply>, answers: set<Sealed>) returns (tries: seq<HttpReply>)
    requires StatusesMatch(replies, answers)
    ensures tries == if |replies| > ATTEMPTS then replies[..ATTEMPTS] else replies
    ensures StatusesMatch(tries, answers)
  {
    tries := if |replies| > ATTEMPTS then replies[..ATTEMPTS] else replies;
  }

  /** Replies that carry only what the server sealed lead to an answer step or to giving up. */
  lemma ExchangeIsAStep(s: System, who: nat, replies: seq<HttpReply>) returns (step: Step)
    requires Waiting(s, who) && StatusesMatch(replies, s.answers)
    ensures Enabled(s, step) && (step.Answer? || step.GiveUp?)
    ensures Apply(s, step) == s.(clients := s.clients[who := Exchanged(s.clients[who], replies)])
  {
    hide Receive, Fail;
    var l := s.clients[who].link.value;
    var tries := FirstAttempts(replies, s.answers);
    var r := SendOutcome(l.epoch, l.sequence, tries);
    if r.Failed? {
      step := GiveUp(who);
    } else {
      ReceivedWasAnswered(l, tries, s.answers);
      var a :| a in s.answers && a.response == r.response && a.conflict == r.conflict && a.epoch == l.epoch
               && (a.conflict || a.sequence == l.sequence);
      step := Answer(who, a);
    }
  }

  /** A tick of a session that is not behind its floor sends the chunk the system's tick sends. */
  lemma ChunkIsATick(s: System, who: nat, total: nat, maximum: nat, replies: seq<HttpReply>)
    requires Ready(s, who) && s.clients[who].audio.channels > 0 && total <= |s.clients[who].stream|
    requires s.clients[who].start <= s.clients[who].link.value.remote < total
    ensures Enabled(s, Tick(who, 0, total, maximum))
    ensures var c, t := s.clients[who], Apply(s, Tick(who, 0, total, maximum));
            && who in t.clients
            && var after := t.clients[who];
            Chunked(c, total, maximum, replies)
            == if after.link.Some? && after.link.value.pending.Some? then Exchanged(after, replies) else after
  {
    hide ChunkEnd, Exchanged;
    ChunkIsAStep(s.clients[who], total, maximum);
  }
}
