/**
 * Whole calls of the client's upload loop are runs of the distributed system, so what
 * holds of every run holds of a client that loops, whatever happens meanwhile.
 */
module UploadCalls {
  import opened Wrappers
  import opened UploadEpochs
  import opened UploadClient
  import opened UploadSystem
  import opened UploadLoop
  import opened UploadRefinement
  import opened UploadLedger
  import D = UploadDelivery
  import S = UploadSteps

  /** The same client, which may have recorded more in the meantime. */
  predicate Ahead(c: Client, d: Client) {
    d == c.(stream := d.stream) && c.stream <= d.stream
  }

  /** Steps that are none of the client's own messages. */
  predicate Others(steps: seq<Step>, who: nat) {
    forall i :: 0 <= i < |steps| ==> Foreign(steps[i], who)
  }

  predicate Foreign(step: Step, who: nat) {
    match step
    case Connect(x, _, _) => x != who
    case Tick(x, _, _, _) => x != who
    case Answer(x, _) => x != who
    case GiveUp(x) => x != who
    case Leave(x) => x != who
    case _ => true
  }

  /** What else happens while each message of a call is under way. */
  datatype Course = Course(opening: seq<Step>, message: seq<Step>, reopening: seq<Step>, chunk: seq<Step>)

  /** One call of the upload tick: the recorder's bounds, what the network does, and what else happens. */
  datatype Call = Call(earlier: nat, retained: nat, total: nat, maximum: nat, weather: Weather, course: Course)

  // ---------------------------------------------------------------- a call, message by message

  /** The client sends what the step sends, other things happen, and it goes on with the replies. */
  ghost function Asked(s: System, step: Step, meanwhile: seq<Step>, who: nat, replies: seq<HttpReply>): System {
    var t := Run(Apply(s, step), meanwhile);
    if Waiting(t, who) then t.(clients := t.clients[who := Exchanged(t.clients[who], replies)]) else t
  }

  ghost function Opened(s: System, who: nat, challenge: Option<EpochId>, retained: nat, meanwhile: seq<Step>,
                        replies: seq<HttpReply>): System
  {
    if challenge.None? then s else Asked(s, Connect(who, challenge.value, retained), meanwhile, who, replies)
  }

  ghost function ChunkSent(s: System, who: nat, k: Call, meanwhile: seq<Step>, replies: seq<HttpReply>): System {
    if !Ready(s, who) || k.total <= s.clients[who].link.value.remote then s
    else Asked(s, Tick(who, 0, k.total, k.maximum), meanwhile, who, replies)
  }

  ghost function Connected(s: System, who: nat, k: Call): System {
    if Ready(s, who) then s else Opened(s, who, k.weather.challenge, k.earlier, k.course.opening, k.weather.opening)
  }

  ghost predicate FallsBehind(s: System, who: nat, k: Call) {
    Ready(s, who) && Behind(s.clients[who], s.clients[who].link.value, k.retained, k.total)
  }

  ghost function Marked(s: System, who: nat, k: Call): System {
    Asked(s, Tick(who, k.retained, k.total, k.maximum), k.course.message, who, k.weather.message)
  }

  ghost function Renewed(s: System, who: nat, k: Call): System {
    Opened(s, who, k.weather.rechallenge, k.retained, k.course.reopening, k.weather.reopening)
  }

  ghost function Restarted(s: System, who: nat, k: Call): System {
    ChunkSent(Renewed(Marked(s, who, k), who, k), who, k, k.course.chunk, k.weather.chunk)
  }

  /** The system after a whole call. */
  ghost function Called(s: System, who: nat, k: Call): System {
    var t := Connected(s, who, k);
    if FallsBehind(t, who, k) then Restarted(t, who, k)
    else ChunkSent(t, who, k, k.course.message, k.weather.message)
  }

  // ---------------------------------------------------------------- what a call may meet

  /** Replies carry only what the server sealed, and the client waits while other things happen. */
  ghost predicate AskedFits(s: System, step: Step, meanwhile: seq<Step>, who: nat, replies: seq<HttpReply>) {
    Others(meanwhile, who) && StatusesMatch(replies, Run(Apply(s, step), meanwhile).answers)
  }

  ghost predicate OpenedFits(s: System, who: nat, challenge: Option<EpochId>, retained: nat, meanwhile: seq<Step>,
                             replies: seq<HttpReply>)
  {
    challenge.Some? ==>
      challenge.value in s.offered && AskedFits(s, Connect(who, challenge.value, retained), meanwhile, who, replies)
  }

  ghost predicate ChunkFits(s: System, who: nat, k: Call, meanwhile: seq<Step>, replies: seq<HttpReply>) {
    AskedFits(s, Tick(who, 0, k.total, k.maximum), meanwhile, who, replies)
  }

  ghost predicate GapFits(s: System, who: nat, k: Call) {
    var u := Marked(s, who, k);
    && AskedFits(s, Tick(who, k.retained, k.total, k.maximum), k.course.message, who, k.weather.message)
    && OpenedFits(u, who, k.weather.rechallenge, k.retained, k.course.reopening, k.weather.reopening)
    && ChunkFits(Renewed(u, who, k), who, k, k.course.chunk, k.weather.chunk)
  }

  /** Challenges are the server's own and fresh, the bounds are the recorder's, replies are sealed answers. */
  ghost predicate CallFits(s: System, who: nat, k: Call) {
    && who in s.clients && !s.clients[who].stopped && !Waiting(s, who)
    && k.earlier <= |s.clients[who].stream| && k.retained <= k.total <= |s.clients[who].stream|
    && (!Ready(s, who) ==> OpenedFits(s, who, k.weather.challenge, k.earlier, k.course.opening, k.weather.opening))
    && var t := Connected(s, who, k);
    if FallsBehind(t, who, k) then GapFits(t, who, k) else ChunkFits(t, who, k, k.course.message, k.weather.message)
  }

  // ---------------------------------------------------------------- runs

  lemma {:induction false} RunJoin(s: System, a: seq<Step>, b: seq<Step>)
    ensures Run(s, a + b) == Run(Run(s, a), b)
    decreases |a|
  {
    hide Apply;
    if |a| == 0 {
      assert a + b == b;
    } else {
      RunJoin(Apply(s, a[0]), a[1..], b);
      assert (a + b)[0] == a[0] && (a + b)[1..] == a[1..] + b;
    }
  }

  lemma RunNone(s: System)
    ensures Run(s, []) == s
  {
  }

  lemma RunOne(s: System, step: Step)
    ensures Run(s, [step]) == Apply(s, step)
  {
    hide Apply;
    assert Run(Apply(s, step), [step][1..]) == Apply(s, step);
  }

  lemma ForeignStep(s: System, step: Step, who: nat)
    requires who in s.clients && Foreign(step, who)
    ensures who in Apply(s, step).clients && Ahead(s.clients[who], Apply(s, step).clients[who])
  {
    hide Process, Booked, IsNext, Issue, Establish, Sync, Receive, Fail, Stop;
  }

  /** Only recording changes a client between its own messages. */
  lemma {:induction false} OthersLeave(s: System, steps: seq<Step>, who: nat)
    requires who in s.clients && Others(steps, who)
    ensures who in Run(s, steps).clients && Ahead(s.clients[who], Run(s, steps).clients[who])
    decreases |steps|
  {
    hide Apply;
    if |steps| > 0 {
      ForeignStep(s, steps[0], who);
      OthersLeave(Apply(s, steps[0]), steps[1..], who);
    }
  }

  // ---------------------------------------------------------------- one message

  lemma ExchangedAhead(c: Client, d: Client, replies: seq<HttpReply>)
    requires Ahead(c, d) && c.link.Some? && c.link.value.pending.Some?
    ensures Ahead(Exchanged(c, replies), Exchanged(d, replies))
  {
    hide SendOutcome;
  }

  /** After an exchange nothing is pending; the rest of the client stays. */
  lemma ExchangedRests(c: Client, replies: seq<HttpReply>)
    requires c.link.Some? && c.link.value.pending.Some?
    ensures var d := Exchanged(c, replies);
            && d == c.(suffix := d.suffix, link := d.link)
            && (d.link.Some? ==> d.link.value.pending.None?)
            && (d.link.Some? && c.link.value.id == "" && c.link.value.pending.value.OpenOrResume? ==> d.link.value.id != "")
            && (d.link.Some? && c.link.value.id != "" && c.link.value.pending.value.Pcm? ==> d.link.value.id != "")
  {
    hide SendOutcome;
  }

  /** A client after its own message is answered or given up. */
  function Settled(c: Client, replies: seq<HttpReply>): Client {
    if c.link.Some? && c.link.value.pending.Some? then Exchanged(c, replies) else c
  }

  /** Sending, waiting and going on is a run, and the client comes out as its code computes. */
  lemma AskedIsARun(s: System, step: Step, meanwhile: seq<Step>, who: nat, replies: seq<HttpReply>)
      returns (steps: seq<Step>)
    requires who in s.clients && who in Apply(s, step).clients && AskedFits(s, step, meanwhile, who, replies)
    ensures Asked(s, step, meanwhile, who, replies) == Run(s, steps)
    ensures var u := Asked(s, step, meanwhile, who, replies);
            who in u.clients && Ahead(Settled(Apply(s, step).clients[who], replies), u.clients[who])
  {
    hide Apply, Run, Exchanged;
    var t := Run(Apply(s, step), meanwhile);
    RunOne(s, step);
    RunJoin(s, [step], meanwhile);
    OthersLeave(Apply(s, step), meanwhile, who);
    steps := [step] + meanwhile;
    if Waiting(t, who) {
      var last := ExchangeIsAStep(t, who, replies);
      RunOne(t, last);
      RunJoin(s, steps, [last]);
      ExchangedAhead(Apply(s, step).clients[who], t.clients[who], replies);
      steps := steps + [last];
    }
  }

  // ---------------------------------------------------------------- the stages of a call

  /** A client that rests between messages, at the head of what it has recorded. */
  ghost predicate Resting(s: System, who: nat, c: Client) {
    who in s.clients && Ahead(c, s.clients[who]) && !Waiting(s, who) && !s.clients[who].stopped
  }

  lemma OpenedFollows(s: System, who: nat, c: Client, challenge: Option<EpochId>, retained: nat, meanwhile: seq<Step>,
                      replies: seq<HttpReply>) returns (steps: seq<Step>)
    requires Resting(s, who, c) && c.link.None? && retained <= |c.stream|
    requires OpenedFits(s, who, challenge, retained, meanwhile, replies)
    ensures Opened(s, who, challenge, retained, meanwhile, replies) == Run(s, steps)
    ensures Resting(Opened(s, who, challenge, retained, meanwhile, replies), who,
                    Established(c, challenge, retained, replies))
  {
    hide Run, Exchanged, AskedFits, Asked;
    steps := [];
    if challenge.Some? {
      var step := Connect(who, challenge.value, retained);
      var d := s.clients[who];
      assert Enabled(s, step) && Apply(s, step).clients[who] == Establish(d, challenge.value, retained).client;
      steps := AskedIsARun(s, step, meanwhile, who, replies);
      ExchangedAhead(Establish(c, challenge.value, retained).client, Establish(d, challenge.value, retained).client,
                     replies);
      ExchangedRests(Establish(d, challenge.value, retained).client, replies);
    } else {
      RunNone(s);
    }
  }

  lemma SyncAhead(c: Client, d: Client, retained: nat, total: nat, maximum: nat)
    requires Ahead(c, d) && c.link.Some? && c.audio.channels > 0 && total <= |c.stream|
    ensures Ahead(Sync(c, retained, total, maximum).client, Sync(d, retained, total, maximum).client)
  {
    hide ChunkEnd;
    if !Behind(c, c.link.value, retained, total) {
      ChunkIsWholeFrames(c, c.link.value, total, maximum);
      assert ChunkEnd(c, c.link.value, total, maximum) == ChunkEnd(d, d.link.value, total, maximum) by {
        SameEnd(c, d, total, maximum);
      }
      var end := ChunkEnd(c, c.link.value, total, maximum);
      assert end > c.link.value.remote ==> c.stream[c.link.value.remote..end] == d.stream[c.link.value.remote..end];
    }
  }

  lemma SameEnd(c: Client, d: Client, total: nat, maximum: nat)
    requires Ahead(c, d) && c.link.Some? && c.audio.channels > 0 && c.link.value.remote <= total
    ensures ChunkEnd(c, c.link.value, total, maximum) == ChunkEnd(d, d.link.value, total, maximum)
  {
  }

  /** Telling the server of a retention gap leaves the client without a session, at its next logical stream. */
  lemma MarkedFollows(s: System, who: nat, c: Client, k: Call) returns (steps: seq<Step>)
    requires Resting(s, who, c) && FallsBehind(s, who, k) && c.audio.channels > 0 && c.link.value.id != ""
    requires k.retained <= k.total <= |c.stream|
    requires AskedFits(s, Tick(who, k.retained, k.total, k.maximum), k.course.message, who, k.weather.message)
    ensures Marked(s, who, k) == Run(s, steps)
    ensures Resting(Marked(s, who, k), who, Exchanged(Sync(c, k.retained, k.total, k.maximum).client, k.weather.message))
    ensures Exchanged(Sync(c, k.retained, k.total, k.maximum).client, k.weather.message).link.None?
  {
    hide Run, Exchanged, AskedFits, Asked, ChunkEnd;
    var step := Tick(who, k.retained, k.total, k.maximum);
    var d := s.clients[who];
    assert Enabled(s, step) && Apply(s, step).clients[who] == Sync(d, k.retained, k.total, k.maximum).client;
    steps := AskedIsARun(s, step, k.course.message, who, k.weather.message);
    GapEndsSession(c, k.retained, k.total, k.maximum, k.weather.message);
    GapEndsSession(d, k.retained, k.total, k.maximum, k.weather.message);
  }

  /** Sending the next chunk, if there is one. */
  lemma ChunkFollows(s: System, who: nat, c: Client, k: Call, meanwhile: seq<Step>, replies: seq<HttpReply>)
    returns (steps: seq<Step>)
    requires Resting(s, who, c) && c.link.Some? && c.audio.channels > 0 && c.start <= c.link.value.remote
    requires k.total <= |c.stream| && ChunkFits(s, who, k, meanwhile, replies)
    ensures ChunkSent(s, who, k, meanwhile, replies) == Run(s, steps)
    ensures Resting(ChunkSent(s, who, k, meanwhile, replies), who, Chunked(c, k.total, k.maximum, replies))
  {
    hide Run, Exchanged, AskedFits, Asked, ChunkEnd, Apply;
    steps := [];
    if k.total <= c.link.value.remote {
      RunNone(s);
    } else {
      var step := Tick(who, 0, k.total, k.maximum);
      ChunkIsATick(s, who, k.total, k.maximum, replies);
      steps := AskedIsARun(s, step, meanwhile, who, replies);
      ChunkedAhead(c, s.clients[who], k, replies);
    }
  }

  lemma ChunkedAhead(c: Client, d: Client, k: Call, replies: seq<HttpReply>)
    requires Ahead(c, d) && c.link.Some? && c.link.value.pending.None? && c.audio.channels > 0
    requires k.total <= |c.stream| && c.start <= c.link.value.remote < k.total
    ensures Ahead(Chunked(c, k.total, k.maximum, replies), Chunked(d, k.total, k.maximum, replies))
    ensures var e := Chunked(d, k.total, k.maximum, replies);
            e.stopped == d.stopped && (e.link.Some? ==> e.link.value.pending.None?)
  {
    hide Exchanged, ChunkEnd, Sync;
    var x, y := Sync(c, 0, k.total, k.maximum).client, Sync(d, 0, k.total, k.maximum).client;
    SyncAhead(c, d, 0, k.total, k.maximum);
    ChunkIsAStep(c, k.total, k.maximum);
    ChunkIsAStep(d, k.total, k.maximum);
    if x.link.Some? && x.link.value.pending.Some? {
      ExchangedAhead(x, y, replies);
      ExchangedRests(y, replies);
    }
  }

  // ---------------------------------------------------------------- whole calls

  /** What a tick needs of a client, and what every reachable client at rest is. */
  ghost predicate Poised(c: Client) {
    && c.audio.channels > 0
    && (c.link.Some? ==> c.link.value.pending.None? && c.link.value.id != "" && c.start <= c.link.value.remote)
  }

  lemma RestingIsPoised(s: System, who: nat, c: Client)
    requires Inv(s) && Resting(s, who, c)
    ensures Poised(c)
  {
    hide ServerInv, EpochsOk, HandledOk, AllAnswered, AllSent, LinksOk, AllFed;
    if Ready(s, who) {
      S.ReadyFacts(s, who);
    }
  }

  /** A client without a session sends no chunk. */
  function ChunkedIfOpen(c: Client, k: Call, replies: seq<HttpReply>): Client
    requires c.audio.channels > 0 && k.total <= |c.stream|
  {
    if c.link.None? then c else Chunked(c, k.total, k.maximum, replies)
  }

  lemma ChunkStage(s: System, who: nat, c: Client, k: Call, meanwhile: seq<Step>, replies: seq<HttpReply>)
    returns (steps: seq<Step>)
    requires Inv(s) && Resting(s, who, c) && Poised(c)
    requires k.total <= |c.stream| && ChunkFits(s, who, k, meanwhile, replies)
    ensures ChunkSent(s, who, k, meanwhile, replies) == Run(s, steps)
    ensures Resting(ChunkSent(s, who, k, meanwhile, replies), who, ChunkedIfOpen(c, k, replies))
  {
    hide Inv, Run, ChunkFits, Chunked;
    if c.link.None? {
      steps := [];
      RunNone(s);
    } else {
      steps := ChunkFollows(s, who, c, k, meanwhile, replies);
    }
  }

  /** The client after a retention gap and the opening of its next logical stream. */
  function Reestablished(c: Client, k: Call): (e: Client)
    ensures e.audio == c.audio && e.stream == c.stream
  {
    var next := c.(suffix := c.suffix + 1, link := None);
    EstablishedKeeps(next, k.weather.rechallenge, k.retained, k.weather.reopening);
    Established(next, k.weather.rechallenge, k.retained, k.weather.reopening)
  }

  /** A client that fell behind marks its session, opens the next logical stream, and sends a chunk of it. */
  lemma GapStage(s: System, who: nat, c: Client, k: Call) returns (steps: seq<Step>)
    requires Inv(s) && Resting(s, who, c) && Poised(c) && FallsBehind(s, who, k)
    requires k.retained <= k.total <= |c.stream| && GapFits(s, who, k)
    ensures Restarted(s, who, k) == Run(s, steps)
    ensures Resting(Restarted(s, who, k), who, ChunkedIfOpen(Reestablished(c, k), k, k.weather.chunk))
  {
    hide Inv, Run, ChunkFits, OpenedFits, AskedFits, ChunkedIfOpen, Marked, ChunkSent, Opened, Established, Sync, Exchanged;
    var next := c.(suffix := c.suffix + 1, link := None);
    GapEndsSession(c, k.retained, k.total, k.maximum, k.weather.message);
    var a := MarkedFollows(s, who, c, k);
    var u := Marked(s, who, k);
    D.RunKeeps(s, a);
    var b := OpenedFollows(u, who, next, k.weather.rechallenge, k.retained, k.course.reopening, k.weather.reopening);
    D.RunKeeps(u, b);
    RunJoin(s, a, b);
    var v := Renewed(u, who, k);
    RestingIsPoised(v, who, Reestablished(c, k));
    var d := ChunkStage(v, who, Reestablished(c, k), k, k.course.chunk, k.weather.chunk);
    RunJoin(s, a + b, d);
    steps := a + b + d;
  }

  lemma EstablishedKeeps(c: Client, challenge: Option<EpochId>, retained: nat, replies: seq<HttpReply>)
    ensures var e := Established(c, challenge, retained, replies);
            e.audio == c.audio && e.stream == c.stream && e.start == c.start
  {
    hide Exchanged;
    if challenge.Some? {
      ExchangedRests(Establish(c, challenge.value, retained).client, replies);
    }
  }

  /**
   * A whole call of the upload tick is a run of the system: connecting, a retention gap
   * and the new logical stream, and the chunk, with anything else happening meanwhile and
   * any replies that the network can deliver. The client comes out of it as the loop
   * computes, but for what it recorded in the meantime.
   */
  lemma CallIsARun(s: System, who: nat, k: Call) returns (steps: seq<Step>)
    requires Inv(s) && CallFits(s, who, k)
    ensures Called(s, who, k) == Run(s, steps)
    ensures Poised(s.clients[who])
    ensures Resting(Called(s, who, k), who, Ticked(s.clients[who], k.earlier, k.retained, k.total, k.maximum, k.weather))
  {
    hide Inv, Run, ChunkFits, OpenedFits, GapFits, ChunkedIfOpen, Restarted, ChunkSent, Opened, Established;
    var c := s.clients[who];
    RestingIsPoised(s, who, c);
    var t := Connected(s, who, k);
    var d := if c.link.None? then Established(c, k.weather.challenge, k.earlier, k.weather.opening) else c;
    var a := [];
    if c.link.None? {
      a := OpenedFollows(s, who, c, k.weather.challenge, k.earlier, k.course.opening, k.weather.opening);
      EstablishedKeeps(c, k.weather.challenge, k.earlier, k.weather.opening);
    } else {
      RunNone(s);
    }
    D.RunKeeps(s, a);
    RestingIsPoised(t, who, d);
    var b;
    if FallsBehind(t, who, k) {
      b := GapStage(t, who, d, k);
    } else {
      b := ChunkStage(t, who, d, k, k.course.message, k.weather.message);
    }
    TickedIs(c, d, k);
    RunJoin(s, a, b);
    steps := a + b;
  }

  /** The stages of a tick, as the loop computes them. */
  lemma TickedIs(c: Client, d: Client, k: Call)
    requires Poised(c) && Poised(d) && k.total <= |c.stream| && d.stream == c.stream
    requires d == if c.link.None? then Established(c, k.weather.challenge, k.earlier, k.weather.opening) else c
    ensures Ticked(c, k.earlier, k.retained, k.total, k.maximum, k.weather)
            == if d.link.Some? && Behind(d, d.link.value, k.retained, k.total)
               then ChunkedIfOpen(Reestablished(d, k), k, k.weather.chunk)
               else ChunkedIfOpen(d, k, k.weather.message)
  {
    hide Established, Chunked, Exchanged, Sync;
    if d.link.Some? && Behind(d, d.link.value, k.retained, k.total) {
      GapEndsSession(d, k.retained, k.total, k.maximum, k.weather.message);
    }
  }

  /** One round of a loop: anything happens, and then a client makes a whole call. */
  datatype Round = Round(before: seq<Step>, who: nat, call: Call)

  ghost function Looped(s: System, rounds: seq<Round>): System
    decreases |rounds|
  {
    if |rounds| == 0 then s
    else Looped(Called(Run(s, rounds[0].before), rounds[0].who, rounds[0].call), rounds[1..])
  }

  ghost predicate LoopFits(s: System, rounds: seq<Round>)
    decreases |rounds|
  {
    |rounds| == 0 ||
    (&& CallFits(Run(s, rounds[0].before), rounds[0].who, rounds[0].call)
     && LoopFits(Called(Run(s, rounds[0].before), rounds[0].who, rounds[0].call), rounds[1..]))
  }

  lemma {:induction false} LoopIsARun(s: System, rounds: seq<Round>) returns (steps: seq<Step>)
    requires Inv(s) && LoopFits(s, rounds)
    ensures Looped(s, rounds) == Run(s, steps)
    decreases |rounds|
  {
    hide Inv, Run, CallFits, Called;
    steps := [];
    if |rounds| == 0 {
      RunNone(s);
    } else {
      var r := rounds[0];
      var t := Run(s, r.before);
      D.RunKeeps(s, r.before);
      var a := CallIsARun(t, r.who, r.call);
      D.RunKeeps(t, a);
      var b := LoopIsARun(Called(t, r.who, r.call), rounds[1..]);
      RunJoin(s, r.before, a);
      RunJoin(s, r.before + a, b);
      steps := r.before + a + b;
    }
  }

  /** Clients that loop upload exactly once: the session's part of the cache is the client's own stream. */
  lemma LoopsUploadExactlyOnce(rounds: seq<Round>, id: string)
    requires LoopFits(INITIAL, rounds)
    requires var s := Looped(INITIAL, rounds);
             id in s.server.sessions && !s.server.sessions[id].incomplete
    ensures var s := Looped(INITIAL, rounds);
            var x := s.server.sessions[id];
            var end := if x.cacheEnd.Some? then x.cacheEnd.value else |s.server.cache|;
            && id in s.feeds && s.feeds[id] in s.clients
            && var c := s.clients[s.feeds[id]];
            && StreamOf(c, x.key) && c.start <= x.source
            && x.cacheStart <= end <= |s.server.cache| && x.source + (end - x.cacheStart) <= |c.stream|
            && s.server.cache[x.cacheStart..end] == c.stream[x.source..x.source + (end - x.cacheStart)]
  {
    hide Inv, Run, Looped, LoopFits;
    InitialInv();
    var steps := LoopIsARun(INITIAL, rounds);
    D.ExactlyOnce(steps, id);
  }
}
