/**
 * When the server does what it is asked, and what it answers: told from the fields of the
 * server and its ledger alone, and from the times of an epoch.
 */
module UploadAnswers {
  import opened Wrappers
  import opened UploadProtocol
  import opened UploadServer
  import opened UploadLedger
  import opened UploadEpochs

  // ---------------------------------------------------------------- chunks

  /** Whole frames of the active session, at the very position behind what it has sent so far. */
  predicate Continues(v: Server, id: string, start: nat, samples: seq<Sample>) {
    && v.active == Some(id) && id in v.sessions && v.audio.Some?
    && |samples| > 0 && v.audio.value.channels > 0 && |samples| % v.audio.value.channels == 0
    && start == v.sessions[id].source + (|v.cache| - v.sessions[id].cacheStart)
  }

  /**
   * The cache grows exactly when a chunk continues the active session and the write does
   * not fail first, and then by that chunk; it is accepted exactly when no write failed,
   * up to its end. Any other chunk changes nothing, and one that only starts elsewhere is
   * told where to go on.
   */
  lemma PushAnswers(v: Server, l: Ledger, id: string, start: nat, samples: seq<Sample>, fault: Fault)
    requires ServerInv(v, l)
    ensures var h := PushPcm(v, id, start, samples, fault);
            && (|h.server.cache| > |v.cache| <==> Continues(v, id, start, samples) && fault != EarlyFault)
            && h.server == (if Continues(v, id, start, samples) && fault != EarlyFault
                            then v.(cache := v.cache + samples) else v)
            && (h.response.status.Accepted? <==> Continues(v, id, start, samples) && fault == NoFault)
            && (h.response.status.Accepted? ==> h.response == Response(Accepted, id, start + |samples|, |samples|, ""))
            && (h.response.status.Gap? <==>
                  exists at: nat :: at != start && Continues(v, id, at, samples)
                                    && h.response == Response(Gap, id, at, 0, "sample_gap"))
  {
    hide Tiles, Owned, Distinct, OneWriter, EndsKept, OnePerStream, HasRun;
    if v.active.Some? {
      OpenSession(v, l);
      var x := v.sessions[v.active.value];
      var at := x.source + (|v.cache| - x.cacheStart);
      assert v.active == Some(id) && |samples| > 0 && v.audio.value.channels > 0 && |samples| % v.audio.value.channels == 0
             ==> Continues(v, id, at, samples);
    }
  }

  /** The active session is open, and its run is the last of the cache. */
  lemma OpenSession(v: Server, l: Ledger)
    requires ServerInv(v, l) && v.active.Some?
    ensures var id := v.active.value;
            && id in v.sessions && v.sessions[id].Open() && v.audio.Some? && v.sessions[id].cacheStart <= |v.cache|
            && id in l.ends && l.ends[id] == |v.cache| && v.sessions[id].cacheEnd == None
  {
    hide Owned, Distinct;
    ActiveRun(v, l);
    RunOf(v, l, v.active.value);
  }

  // ---------------------------------------------------------------- opening and resuming

  /** The limits of a stream's description. */
  predicate Describes(m: Message)
    requires m.OpenOrResume?
  {
    && m.device != "" && |m.device| <= 256 && m.stream != "" && |m.stream| <= 256
    && 8_000 <= m.rate <= 192_000 && m.channels in {1, 2, 3, 4, 5, 6, 7, 8}
    && m.source % m.channels == 0 && m.format == "pcm_s16le"
  }

  /** A stream the server knows and one of its sessions. */
  predicate IsSessionOf(v: Server, m: Message, id: string)
    requires m.OpenOrResume?
  {
    id in v.sessions && v.sessions[id].key == StreamKey(m.device, m.stream)
  }

  /**
   * A stream with a session is resumed exactly if it is described as before, with the same
   * source, rate and channels, and is not incomplete. The answer names the session and the
   * sample behind all it has appended. Nothing changes.
   */
  lemma ResumeAnswers(v: Server, l: Ledger, m: Message, known: string, id: string, fault: Fault)
    requires ServerInv(v, l) && m.OpenOrResume? && IsSessionOf(v, m, known)
    ensures known in l.ends && v.audio.Some?
    ensures var h := OpenStream(v, m, id, fault);
            var x := v.sessions[known];
            && h.server == v
            && (h.response.status.Accepted? <==>
                  Describes(m) && v.audio == Some(Audio(m.rate, m.channels)) && x.source == m.source && !x.incomplete)
            && (h.response.status.Accepted? ==>
                  h.response == Response(Accepted, known, m.source + (l.ends[known] - x.cacheStart), 0, ""))
            && (!h.response.status.Accepted? ==> h.response.status.Rejected?)
  {
    hide Tiles, Owned, Distinct, HasRun;
    RunOf(v, l, known);
    if v.active == Some(known) {
      ActiveRun(v, l);
    }
  }

  /**
   * A stream without a session gets one exactly if it is described within the limits and
   * fits the cache's format, or there is no cache yet and one can be made: an open session
   * that begins where the cache ends and is the active one; the session that was active
   * ends there as incomplete. Otherwise nothing changes.
   */
  lemma OpenAnswers(v: Server, l: Ledger, m: Message, id: string, fault: Fault)
    requires ServerInv(v, l) && m.OpenOrResume? && id !in v.sessions
    requires forall known :: known in v.sessions ==> !IsSessionOf(v, m, known)
    ensures var h := OpenStream(v, m, id, fault);
            var w := h.server;
            var fits := Describes(m) && (if v.audio.None? then fault != EarlyFault
                                         else v.audio == Some(Audio(m.rate, m.channels)));
            && (id in w.sessions <==> fits)
            && (!fits ==> w == v && h.response.status.Rejected?)
            && (fits ==>
                  && w.sessions[id] == Session(StreamKey(m.device, m.stream), m.source, |v.cache|, None, false, false)
                  && w.active == Some(id) && w.audio == Some(Audio(m.rate, m.channels)) && w.cache == v.cache
                  && w.sessions.Keys == v.sessions.Keys + {id}
                  && w.streams == v.streams[StreamKey(m.device, m.stream) := id]
                  && (forall x :: x in v.sessions ==>
                        w.sessions[x] == if v.active == Some(x)
                                         then v.sessions[x].(closed := true, incomplete := true,
                                                             cacheEnd := Some(|v.cache|))
                                         else v.sessions[x]))
            && (h.response.status.Accepted? <==> fits && fault != LateFault)
            && (h.response.status.Accepted? ==> h.response == Response(Accepted, id, m.source, 0, ""))
  {
    hide Tiles, Owned, Distinct, HasRun, Listed, OneWriter, EndsKept;
    UnknownIsNew(v, m);
  }

  lemma UnknownIsNew(v: Server, m: Message)
    requires OnePerStream(v) && m.OpenOrResume?
    requires forall known :: known in v.sessions ==> !IsSessionOf(v, m, known)
    ensures !Resumes(v, m)
  {
    var known := if KeyOf(m) in v.streams then v.streams[KeyOf(m)] else "";
    assert known in v.sessions ==> !IsSessionOf(v, m, known);
  }

  // ---------------------------------------------------------------- closing and giving up

  /** A session as it is once it is over. */
  predicate Over(v: Server, id: string) {
    id in v.sessions && v.sessions[id].closed && v.sessions[id].cacheEnd.Some? && v.active != Some(id)
  }

  /** What happens to one session leaves all others, the cache and the streams alone. */
  predicate OnlyThis(v: Server, w: Server, id: string) {
    && w.cache == v.cache && w.streams == v.streams && w.audio == v.audio && w.sessions.Keys == v.sessions.Keys
    && (forall x :: x in v.sessions && x != id ==> w.sessions[x] == v.sessions[x])
    && (v.active != Some(id) ==> w.active == v.active)
  }

  /**
   * A session is closed exactly by the position that the cache's end has in its own
   * counting, unless the write fails first; then it is over, and complete if it was. Any
   * other position changes nothing and is told the right one.
   */
  lemma CloseAnswers(v: Server, l: Ledger, id: string, final: nat, fault: Fault)
    requires ServerInv(v, l)
    ensures var h := CloseStream(v, id, final, fault);
            var w := h.server;
            var at := if id in v.sessions then v.sessions[id].source + (|v.cache| - v.sessions[id].cacheStart) else 0;
            var right := id in v.sessions && final == at;
            && (!right || fault == EarlyFault ==> w == v)
            && (right && fault != EarlyFault ==>
                  && Over(w, id) && OnlyThis(v, w, id)
                  && w.sessions[id] == v.sessions[id].(closed := true, cacheEnd := Some(|v.cache|)))
            && (h.response.status.Accepted? <==> right && fault == NoFault)
            && (h.response.status.Accepted? ==> h.response == Response(Accepted, id, final, 0, ""))
            && (id in v.sessions && !right ==> h.response == Response(Gap, id, at, 0, "final_sample_mismatch"))
            && (id !in v.sessions ==> h.response.status.Rejected?)
  {
    hide Tiles, Owned, Distinct, HasRun, OneWriter, EndsKept;
    if id in v.sessions {
      Begun(v, l, id);
    }
  }

  lemma Begun(v: Server, l: Ledger, id: string)
    requires ServerInv(v, l) && id in v.sessions
    ensures v.sessions[id].cacheStart <= |v.cache| && v.audio.Some?
  {
    RunOf(v, l, id);
  }

  /** Marking a known session ends it as incomplete, whatever it was and whatever fails; an unknown one changes nothing. */
  lemma MarkAnswers(v: Server, l: Ledger, id: string, fault: Fault)
    requires ServerInv(v, l)
    ensures var h := MarkStreamIncomplete(v, id, fault);
            var w := h.server;
            && (id !in v.sessions ==> w == v && h.response.status.Rejected?)
            && (id in v.sessions ==>
                  && Over(w, id) && OnlyThis(v, w, id)
                  && w.sessions[id] == v.sessions[id].(closed := true, incomplete := true, cacheEnd := Some(|v.cache|))
                  && (h.response.status.Accepted? <==> fault != LateFault)
                  && (h.response.status.Accepted? ==>
                        h.response == Response(Accepted, id, v.sessions[id].source
                                                             + (|v.cache| - v.sessions[id].cacheStart), 0, "")))
  {
    hide Tiles, Owned, Distinct, HasRun, OneWriter, EndsKept;
    if id in v.sessions {
      Begun(v, l, id);
    }
  }

  /** A probe is answered and changes nothing. */
  lemma ProbeAnswers(v: Server, id: string, fault: Fault)
    ensures Handle(v, Probe, id, fault) == Handled(v, Response(Accepted, "", 0, 0, ""))
  {
  }

  /** Once a session is over, nothing can be appended to it. */
  lemma OverStaysShut(v: Server, id: string, start: nat, samples: seq<Sample>, fault: Fault)
    requires Over(v, id)
    ensures PushPcm(v, id, start, samples, fault).server == v
    ensures PushPcm(v, id, start, samples, fault).response.status.Rejected?
  {
  }

  /** An early message about a session that is not incomplete is told the position behind all the session has. */
  lemma EarlyAnswers(v: Server, l: Ledger, m: Message)
    requires ServerInv(v, l)
    ensures NextSampleFor(v, m).Some? <==> (m.Pcm? || m.Close? || m.MarkIncomplete?) && m.id in v.sessions
    ensures NextSampleFor(v, m).Some? ==>
              && m.id in l.ends
              && (!v.sessions[m.id].incomplete ==>
                    NextSampleFor(v, m)
                    == Some((m.id, v.sessions[m.id].source + (l.ends[m.id] - v.sessions[m.id].cacheStart))))
  {
    hide Tiles, Owned, Distinct, HasRun;
    if (m.Pcm? || m.Close? || m.MarkIncomplete?) && m.id in v.sessions {
      RunOf(v, l, m.id);
      if v.active == Some(m.id) {
        ActiveRun(v, l);
      }
    }
  }

  // ---------------------------------------------------------------- epochs

  /** An epoch is refused exactly if it is unknown, idle for too long, or was not taken up before its challenge ran out. */
  lemma RefusedExactly(v: Server, epochs: map<EpochId, Epoch>, x: Envelope, now: nat, idle: nat, id: string, fault: Fault)
    ensures var p := Process(v, epochs, x, now, idle, id, fault);
            (p.outcome == Refused(401) <==>
              || x.epoch !in epochs
              || (epochs[x.epoch].active && epochs[x.epoch].lastSeen + idle < now)
              || (!epochs[x.epoch].active && epochs[x.epoch].expiresAt < now))
            && (p.outcome.Refused? ==> p.server == v && p.epochs == epochs && p.outcome.status in {401, 409})
  {
    hide Handle, NextSampleFor;
  }

  /** What the places of an envelope and of its epoch decide. */
  datatype Place = Repeated | Late | Next | Early

  function PlaceOf(e: Epoch, x: Envelope): Place {
    if x.sequence == e.expected then Next
    else if x.sequence > e.expected then Early
    else if e.last.Some? && e.last.value.request == x then Repeated else Late
  }

  /** An envelope of a living epoch is answered by its place: a late one is a conflict, an early one told so. */
  lemma AnsweredByPlace(v: Server, epochs: map<EpochId, Epoch>, x: Envelope, now: nat, idle: nat, id: string, fault: Fault)
    requires x.epoch in epochs
    requires if epochs[x.epoch].active then now <= epochs[x.epoch].lastSeen + idle else now <= epochs[x.epoch].expiresAt
    ensures var e := epochs[x.epoch];
            var p := Process(v, epochs, x, now, idle, id, fault);
            match PlaceOf(e, x)
            case Repeated =>
              && p.server == v && p.outcome == Answered(Sealed(x.epoch, x.sequence, e.last.value.response, false))
              && p.epochs == epochs[x.epoch := e.(lastSeen := now)]
            case Late => p.server == v && p.epochs == epochs && p.outcome == Refused(409)
            case Early =>
              var at := if NextSampleFor(v, x.message).Some? then NextSampleFor(v, x.message).value else ("", 0);
              && p.server == v && p.epochs == epochs
              && p.outcome == Answered(Sealed(x.epoch, x.sequence, Response(Gap, at.0, at.1, 0, "sequence_gap"), true))
            case Next =>
              var h := Handle(v, x.message, id, fault);
              && p.server == h.server && p.outcome == Answered(Sealed(x.epoch, x.sequence, h.response, false))
              && p.epochs.Keys == epochs.Keys && (forall y :: y in epochs && y != x.epoch ==> p.epochs[y] == epochs[y])
              && var after := p.epochs[x.epoch];
              && after.active && after.lastSeen == now && after.expected == e.expected + 1
              && after.last == Some(Stored(x, h.response))
  {
    hide Handle, NextSampleFor;
  }

  /**
   * An epoch that handled or repeated a message lives on from that moment: within the idle
   * time it answers its next envelope, however long ago its challenge ran out.
   */
  lemma EpochLivesOn(v: Server, epochs: map<EpochId, Epoch>, x: Envelope, at: nat, idle: nat, id: string, fault: Fault,
                     w: Server, y: Envelope, now: nat, newId: string, fault': Fault)
    requires var p := Process(v, epochs, x, at, idle, id, fault);
             && p.outcome.Answered? && !p.outcome.answer.conflict
             && y.epoch == x.epoch && x.epoch in p.epochs && y.sequence == p.epochs[x.epoch].expected
    requires x.epoch in epochs && epochs[x.epoch].last.Some? ==> epochs[x.epoch].active
    requires now <= at + idle
    ensures var p := Process(v, epochs, x, at, idle, id, fault);
            var q := Process(w, p.epochs, y, now, idle, newId, fault');
            && q.outcome == Answered(Sealed(y.epoch, y.sequence, Handle(w, y.message, newId, fault').response, false))
            && q.epochs[y.epoch].expected == p.epochs[x.epoch].expected + 1
  {
    hide Handle, NextSampleFor;
  }

  /** The epochs that a challenge finds alive. */
  function AliveAt(epochs: map<EpochId, Epoch>, now: nat, idle: nat): set<EpochId> {
    set e | e in epochs && (if epochs[e].active then now <= epochs[e].lastSeen + idle else now <= epochs[e].expiresAt)
  }

  /**
   * A challenge keeps exactly the epochs that still live, untouched, and adds one that can
   * be taken up until its time is over; it fails exactly if too many are alive or the id
   * is one of them.
   */
  lemma IssueKeepsTheLiving(epochs: map<EpochId, Epoch>, id: EpochId, now: nat, ttl: nat, idle: nat, maximum: nat)
    ensures var r := Issue(epochs, id, now, ttl, idle, maximum);
            var alive := AliveAt(epochs, now, idle);
            && (r.None? <==> |alive| >= maximum || id in alive)
            && (r.Some? ==>
                  && r.value.Keys == alive + {id}
                  && (forall e :: e in alive ==> r.value[e] == epochs[e])
                  && r.value[id] == Epoch(now + ttl, now, 0, false, None))
  {
    var kept := map e | e in epochs && !Expired(epochs[e], now, idle) :: epochs[e];
    LivingAreKept(epochs, now, idle, kept);
    hide AliveAt, Expired;
  }

  lemma LivingAreKept(epochs: map<EpochId, Epoch>, now: nat, idle: nat, kept: map<EpochId, Epoch>)
    requires kept == map e | e in epochs && !Expired(epochs[e], now, idle) :: epochs[e]
    ensures kept.Keys == AliveAt(epochs, now, idle) && |kept| == |AliveAt(epochs, now, idle)|
    ensures forall e :: e in kept ==> e in epochs && kept[e] == epochs[e]
  {
    assert kept.Keys == AliveAt(epochs, now, idle);
    assert |kept| == |kept.Keys|;
  }
}
