/**
 * What the client makes of the replies it gets, and what it sends at a tick: told from
 * the HTTP replies and the recorder's bounds alone.
 */
module UploadReplies {
  import opened Wrappers
  import opened UploadProtocol
  import opened UploadEpochs
  import opened UploadClient
  import opened UploadSystem
  import opened UploadLoop
  import S = UploadSteps

  /** A reply that ends the attempts: any 200, or a conflict of this epoch that reports a gap or a rejection. */
  predicate Decisive(l: Link, reply: HttpReply) {
    && reply.Http?
    && (reply.status == 200
        || (reply.status == 409 && reply.body.Some? && reply.body.value.epoch == l.epoch
            && (reply.body.value.response.status.Gap? || reply.body.value.response.status.Rejected?)))
  }

  /** The first decisive one of the two replies that a message may get. */
  function Deciding(l: Link, replies: seq<HttpReply>): Option<HttpReply> {
    if |replies| > 0 && Decisive(l, replies[0]) then Some(replies[0])
    else if |replies| > 1 && Decisive(l, replies[1]) then Some(replies[1])
    else None
  }

  /** The reply carries an answer for the place of the pending message, or a conflict of its epoch that is no rejection. */
  predicate Answers(l: Link, reply: HttpReply) {
    && reply.Http? && reply.body.Some? && reply.body.value.epoch == l.epoch
    && ((reply.status == 200 && reply.body.value.sequence == l.sequence)
        || (reply.status == 409 && reply.body.value.response.status.Gap?))
  }

  /** A message is answered as the deciding reply says; without one it has failed. */
  lemma DecidedBy(l: Link, replies: seq<HttpReply>)
    ensures var d := Deciding(l, replies);
            Attempted(l.epoch, l.sequence, replies)
            == if d.Some? && Answers(l, d.value) then Received(d.value.body.value.response, d.value.status == 409)
                else Failed
  {
    var tries := if |replies| > ATTEMPTS then replies[..ATTEMPTS] else replies;
    if |tries| > 0 {
      assert tries[0] == replies[0];
      var rest := tries[1..];
      if |tries| > 1 {
        assert rest[0] == replies[1] && |rest[1..]| == 0;
      }
      OutcomeOf(l, tries);
      OutcomeOf(l, rest);
      if |rest| > 0 {
        OutcomeOf(l, rest[1..]);
      }
    }
  }

  lemma OutcomeOf(l: Link, tries: seq<HttpReply>)
    ensures SendOutcome(l.epoch, l.sequence, tries)
            == if |tries| == 0 then Failed
               else if !Decisive(l, tries[0]) then SendOutcome(l.epoch, l.sequence, tries[1..])
               else if Answers(l, tries[0]) then Received(tries[0].body.value.response, tries[0].status == 409)
               else Failed
  {
  }

  /**
   * After a chunk the client stands at the acknowledged position if the first decisive
   * reply is an accepted answer to it with a position in the chunk, or at the reported one
   * if it is a gap other than a lost message. The session is lost in every other case.
   * Nothing else about the client changes.
   */
  lemma ChunkAnswered(c: Client, total: nat, maximum: nat, replies: seq<HttpReply>)
    requires c.link.Some? && c.link.value.pending.None? && c.audio.channels > 0 && total <= |c.stream|
    requires c.link.value.remote < total && ChunkEnd(c, c.link.value, total, maximum) > c.link.value.remote
    ensures var l := c.link.value;
            var d := Deciding(l, replies);
            Chunked(c, total, maximum, replies)
            == if d.Some? && Answers(l, d.value)
                && Usable(d.value.body.value.response, l.remote, ChunkEnd(c, l, total, maximum))
               then c.(link := Some(l.(sequence := if d.value.status == 200 then l.sequence + 1 else l.sequence,
                                       remote := d.value.body.value.response.next)))
               else c.(link := None)
  {
    hide Attempted, ChunkEnd, Deciding;
    var l := c.link.value;
    DecidedBy(l, replies);
    ChunkIsWholeFrames(c, l, total, maximum);
    var end := ChunkEnd(c, l, total, maximum);
    assert |c.stream[l.remote..end]| == end - l.remote;
  }

  /** An acknowledgement within the chunk, or a gap that says where to go on. */
  predicate Usable(r: Response, start: nat, end: nat) {
    (r.status.Accepted? && start < r.next <= end) || (r.status.Gap? && r.code != "sequence_gap")
  }

  /**
   * An opening connects the client exactly if the first decisive reply is an accepted
   * answer to it that names a session; then it takes over the session and the position.
   */
  lemma OpeningAnswered(c: Client, epoch: EpochId, retained: nat, replies: seq<HttpReply>)
    requires c.link.None?
    ensures var l := Establish(c, epoch, retained).client.link.value;
            var d := Deciding(l, replies);
            && l.epoch == epoch && l.sequence == 0
            && Established(c, Some(epoch), retained, replies)
               == if d.Some? && Answers(l, d.value) && d.value.body.value.response.status.Accepted?
                     && d.value.body.value.response.id != ""
                  then c.(link := Some(Link(epoch, 1, d.value.body.value.response.id,
                                            d.value.body.value.response.next, None)))
                  else c
  {
    hide Attempted, Deciding, LogicalId;
    DecidedBy(Establish(c, epoch, retained).client.link.value, replies);
  }

  // ---------------------------------------------------------------- what a tick sends

  /**
   * A tick gives the session up exactly if the position it should go on from is no longer
   * retained, lies before the activation or was never recorded; otherwise it sends a chunk
   * from that position on exactly if a whole frame is recorded and fits into a chunk.
   */
  lemma TickDecides(c: Client, retained: nat, total: nat, maximum: nat)
    requires c.link.Some? && c.link.value.pending.None? && c.link.value.id != "" && c.audio.channels > 0
    requires total <= |c.stream|
    ensures var l := c.link.value;
            var act := Sync(c, retained, total, maximum);
            var lost := l.remote < retained || l.remote < c.start || l.remote > total;
            var frame := c.audio.channels <= maximum && l.remote + c.audio.channels <= total;
            && (act.sent.Some? <==> lost || frame)
            && (act.sent.Some? ==> act.sent.value.epoch == l.epoch && act.sent.value.sequence == l.sequence
                                   && act.client == c.(link := Some(l.(pending := Some(act.sent.value.message)))))
            && (act.sent.None? ==> act.client == c)
            && (lost ==> act.sent.value.message == MarkIncomplete(l.id))
            && (!lost && frame ==>
                  var m := act.sent.value.message;
                  && m.Pcm? && m.id == l.id && m.start == l.remote && retained <= m.start
                  && m.start + |m.samples| <= total && m.samples == c.stream[m.start..m.start + |m.samples|]
                  && |m.samples| % c.audio.channels == 0 && 0 < |m.samples| <= maximum
                  && (|m.samples| + c.audio.channels > maximum || m.start + |m.samples| + c.audio.channels > total))
  {
    hide ChunkEnd;
    var l := c.link.value;
    if l.remote <= total {
      ChunkIsWholeFrames(c, l, total, maximum);
      var n := ChunkEnd(c, l, total, maximum) - l.remote;
      if 0 < n {
        AFrame(n, c.audio.channels);
      }
    }
  }

  lemma AFrame(n: nat, channels: nat)
    requires channels > 0 && n > 0 && n % channels == 0
    ensures channels <= n
  {
  }

  // ---------------------------------------------------------------- in every run

  /** Whatever answer to a chunk is accepted in any run, the client then stands at the chunk's end and is ready for more. */
  lemma AnswerMovesOn(s: System, who: nat, a: Sealed)
    requires Inv(s) && Receives(s, who, a)
    requires s.clients[who].link.value.pending.value.Pcm? && a.response.status.Accepted?
    ensures var c := s.clients[who];
            var l := c.link.value;
            var m := l.pending.value;
            var t := Apply(s, Answer(who, a));
            && Ready(t, who)
            && t.clients[who] == c.(link := Some(l.(sequence := l.sequence + 1, pending := None,
                                                    remote := m.start + |m.samples|)))
  {
    hide Inv;
    S.NoInvalidAck(s, who, a);
    S.AnswerFits(s, who, a);
    S.PendingIsHonest(s, who);
  }
}
