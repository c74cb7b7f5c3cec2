/** Every step of the upload keeps its invariant. */
module UploadSteps {
  import opened Wrappers
  import opened UploadProtocol
  import opened UploadServer
  import opened UploadLedger
  import opened UploadEpochs
  import opened UploadClient
  import opened UploadSystem

  // ---------------------------------------------------------------- what never goes away

  predicate SessionGrows(x: Session, y: Session) {
    y.key == x.key && y.source == x.source && y.cacheStart == x.cacheStart
  }

  predicate ClientGrows(x: Client, y: Client) {
    y.device == x.device && y.activation == x.activation && y.start == x.start && y.audio == x.audio
    && x.stream <= y.stream
  }

  predicate SessionsGrow(s: System, t: System) {
    forall id :: id in s.server.sessions ==>
      && id in t.server.sessions && SessionGrows(s.server.sessions[id], t.server.sessions[id])
      && (id in s.ledger.ends ==> id in t.ledger.ends && s.ledger.ends[id] <= t.ledger.ends[id])
      && (id in s.feeds ==> id in t.feeds && t.feeds[id] == s.feeds[id])
  }

  predicate ClientsGrow(s: System, t: System) {
    forall x :: x in s.clients ==> x in t.clients && ClientGrows(s.clients[x], t.clients[x])
  }

  predicate RecordGrows(s: System, t: System) {
    && s.sent <= t.sent
    && (forall e :: e in s.driver ==> e in t.driver && t.driver[e] == s.driver[e])
    && (forall e :: e in s.handled ==> e in t.handled && s.handled[e] <= t.handled[e])
  }

  predicate Grows(s: System, t: System) {
    SessionsGrow(s, t) && ClientsGrow(s, t) && RecordGrows(s, t)
  }

  lemma WithinGrows(s: System, t: System, id: string, who: nat, position: nat)
    requires SessionsGrow(s, t) && Within(s, id, who, position)
    ensures Within(t, id, who, position)
  {
  }

  lemma HonestGrows(s: System, t: System, who: nat, m: Message)
    requires SessionsGrow(s, t) && ClientsGrow(s, t) && Honest(s, who, m)
    ensures Honest(t, who, m)
  {
    hide SessionsGrow, ClientsGrow;
    assert ClientGrows(s.clients[who], t.clients[who]) by {
      assert ClientsGrow(s, t);
      ClientGrowth(s, t, who);
    }
    match m
    case Probe =>
      ClientGrowth(s, t, who);
    case OpenOrResume(_, _, _, _, _, _) =>
      ClientGrowth(s, t, who);
    case Pcm(id, start, samples) =>
      ClientGrowth(s, t, who);
      SessionGrowth(s, t, id);
      assert t.clients[who].stream[start..start + |samples|] == s.clients[who].stream[start..start + |samples|];
    case Close(id, final) =>
      ClientGrowth(s, t, who);
      WithinGrows(s, t, id, who, final);
    case MarkIncomplete(id) =>
      ClientGrowth(s, t, who);
      SessionGrowth(s, t, id);
  }

  lemma ClientGrowth(s: System, t: System, who: nat)
    requires ClientsGrow(s, t) && who in s.clients
    ensures who in t.clients && ClientGrows(s.clients[who], t.clients[who])
  {
  }

  lemma SessionGrowth(s: System, t: System, id: string)
    requires SessionsGrow(s, t) && id in s.server.sessions
    ensures id in t.server.sessions && SessionGrows(s.server.sessions[id], t.server.sessions[id])
    ensures id in s.feeds ==> id in t.feeds && t.feeds[id] == s.feeds[id]
  {
  }

  lemma TruthfulGrows(s: System, t: System, who: nat, m: Message, r: Response)
    requires SessionsGrow(s, t) && Truthful(s, who, m, r)
    ensures Truthful(t, who, m, r)
  {
    hide SessionsGrow, Within;
    if m.OpenOrResume? && r.status.Accepted? {
      WithinGrows(s, t, r.id, who, r.next);
    }
    if m.Pcm? && (r.status.Accepted? || r.status.Gap?) {
      WithinGrows(s, t, m.id, who, r.next);
    }
  }

  lemma SentStays(s: System, t: System, x: Envelope)
    requires Grows(s, t) && SentOk(s, x)
    ensures SentOk(t, x)
  {
    hide SessionsGrow, ClientsGrow, Honest;
    HonestGrows(s, t, s.driver[x.epoch], x.message);
  }

  lemma ExchangeStays(s: System, t: System, e: EpochId, k: nat)
    requires Grows(s, t) && ExchangeOk(s, e, k)
    ensures ExchangeOk(t, e, k)
  {
    hide SessionsGrow, ClientsGrow, Truthful;
    TruthfulGrows(s, t, s.driver[e], s.handled[e][k].message, s.handled[e][k].response);
  }

  /** What was sent, handled and answered before is as true after as it was. */
  lemma OldFacts(s: System, t: System)
    requires AllSent(s) && HandledOk(s) && AllAnswered(s) && Grows(s, t)
    ensures forall x :: x in s.sent ==> SentOk(t, x)
    ensures forall e, k :: e in s.handled && 0 <= k < |s.handled[e]| ==> ExchangeOk(t, e, k)
    ensures forall a :: a in s.answers ==> AnswerOk(t, a)
  {
    hide SentOk, ExchangeOk, SessionsGrow, ClientsGrow;
    forall x | x in s.sent ensures SentOk(t, x) {
      SentStays(s, t, x);
    }
    forall e, k | e in s.handled && 0 <= k < |s.handled[e]| ensures ExchangeOk(t, e, k) {
      ExchangeStays(s, t, e, k);
    }
  }

  /** If nothing new was sent, handled or answered, all of it is as true after as before. */
  lemma RecordsStay(s: System, t: System)
    requires AllSent(s) && HandledOk(s) && AllAnswered(s) && Grows(s, t)
    requires t.sent == s.sent && t.answers == s.answers
    requires forall e :: e in t.handled ==> if e in s.handled then t.handled[e] == s.handled[e] else t.handled[e] == []
    ensures AllSent(t) && HandledOk(t) && AllAnswered(t)
  {
    hide SentOk, ExchangeOk, AnswerOk, Grows;
    OldFacts(s, t);
  }

  /** A link stays sound while nothing happens in its epoch. */
  lemma LinkStays(s: System, t: System, who: nat, l: Link)
    requires Grows(s, t) && LinkOk(s, who, l)
    requires l.epoch in t.handled && t.handled[l.epoch] == s.handled[l.epoch]
    requires forall x :: x in t.sent && x.epoch == l.epoch ==> x in s.sent
    ensures LinkOk(t, who, l)
  {
    hide SessionsGrow, ClientsGrow, Within;
    if l.id != "" {
      WithinGrows(s, t, l.id, who, l.remote);
    }
  }

  /** The server and its ledger are untouched, and the clients' streams have not changed. */
  lemma FedStays(s: System, t: System)
    requires AllFed(s) && ClientsGrow(s, t)
    requires t.server == s.server && t.ledger == s.ledger && t.feeds == s.feeds
    ensures AllFed(t)
  {
    hide ClientsGrow, Fed;
    forall id | id in t.server.sessions ensures Fed(t, id) {
      FedStaysFor(s, t, id);
    }
  }

  lemma FedStaysFor(s: System, t: System, id: string)
    requires Fed(s, id) && ClientsGrow(s, t)
    requires t.server == s.server && t.ledger == s.ledger && t.feeds == s.feeds
    ensures Fed(t, id)
  {
    hide ClientsGrow, Uploaded;
    ClientGrowth(s, t, s.feeds[id]);
    UploadedLonger(s.server.sessions[id], s.ledger.ends[id], s.server.cache,
                   s.clients[s.feeds[id]].stream, t.clients[s.feeds[id]].stream);
  }

  lemma UploadedLonger(x: Session, end: nat, cache: seq<Sample>, stream: seq<Sample>, longer: seq<Sample>)
    requires Uploaded(x, end, cache, stream) && stream <= longer
    ensures Uploaded(x, end, cache, longer)
  {
    var n := end - x.cacheStart;
    assert longer[x.source..x.source + n] == stream[x.source..x.source + n];
  }

  // ---------------------------------------------------------------- a new client, more samples, a challenge

  /** Links stay sound while no envelope is sent or handled. */
  lemma LinksStay(s: System, t: System)
    requires LinksOk(s) && Grows(s, t) && t.sent == s.sent
    requires forall e :: e in s.handled ==> e in t.handled && t.handled[e] == s.handled[e]
    requires forall w :: w in t.clients && t.clients[w].link.Some? ==>
               w in s.clients && s.clients[w].link == t.clients[w].link
    ensures LinksOk(t)
  {
    hide LinkOk, SessionsGrow, ClientsGrow;
    forall w | w in t.clients && t.clients[w].link.Some? ensures LinkOk(t, w, t.clients[w].link.value) {
      EpochOfLink(s, w);
      LinkStays(s, t, w, t.clients[w].link.value);
    }
  }

  /** Nothing was sent, handled or answered: clients and epochs may have been added. */
  predicate Quiet(s: System, t: System) {
    && t.server == s.server && t.ledger == s.ledger && t.feeds == s.feeds && t.sent == s.sent && t.answers == s.answers
    && ClientsGrow(s, t)
    && (forall w :: w in t.clients && t.clients[w].link.Some? ==> w in s.clients && s.clients[w].link == t.clients[w].link)
    && (forall e :: e in s.driver ==> e in t.driver && t.driver[e] == s.driver[e])
    && (forall e :: e in s.handled ==> e in t.handled)
    && (forall e :: e in t.handled ==> t.handled[e] == if e in s.handled then s.handled[e] else [])
  }

  lemma QuietGrows(s: System, t: System)
    requires Quiet(s, t)
    ensures Grows(s, t)
  {
    hide ClientsGrow;
  }

  lemma QuietKeeps(s: System, t: System)
    requires Inv(s) && Quiet(s, t) && EpochsOk(t) && ClientsOk(t)
    ensures Inv(t)
  {
    hide ServerInv, LinksOk, AllFed, HandledOk, AllAnswered, AllSent, ClientsOk, EpochsOk, OneMessageEach, Grows,
         ClientsGrow;
    QuietGrows(s, t);
    RecordsStay(s, t);
    FedStaysGrown(s, t);
    LinksStay(s, t);
  }

  lemma FedStaysGrown(s: System, t: System)
    requires AllFed(s) && Grows(s, t)
    requires t.server == s.server && t.ledger == s.ledger && t.feeds == s.feeds
    ensures AllFed(t)
  {
    hide AllFed, SessionsGrow, ClientsGrow;
    FedStays(s, t);
  }

  lemma ClientsStayGrown(s: System, t: System)
    requires ClientsOk(s) && Grows(s, t) && t.clients.Keys == s.clients.Keys
    ensures ClientsOk(t)
  {
    hide ClientsOk, SessionsGrow, ClientsGrow;
    ClientsStay(s, t);
  }

  lemma ActivateKeeps(s: System, step: Step)
    requires Inv(s) && step.Activate? && Enabled(s, step)
    ensures Inv(Apply(s, step))
  {
    hide ServerInv, LinksOk, AllFed, HandledOk, AllAnswered, AllSent, ClientsOk, Quiet, EpochOk, Enabled;
    ActivateClients(s, step);
    ActivateQuiet(s, step);
    QuietKeeps(s, Apply(s, step));
  }

  lemma ActivateQuiet(s: System, step: Step)
    requires step.Activate? && Enabled(s, step) && EpochsOk(s)
    ensures Quiet(s, Apply(s, step)) && EpochsOk(Apply(s, step))
  {
    hide Apart, EpochOk;
    var t := Apply(s, step);
    forall e | e in t.epochs ensures EpochOk(t, e) {
      assert EpochOk(s, e);
      KnownEpoch(s, e);
      EpochAlike(s, t, e);
    }
  }

  lemma EpochAlike(s: System, t: System, e: EpochId)
    requires EpochOk(s, e) && e in t.epochs && t.epochs[e] == s.epochs[e] && e in t.handled && t.handled[e] == s.handled[e]
    ensures EpochOk(t, e)
  {
  }

  lemma ActivateClients(s: System, step: Step)
    requires ClientsOk(s) && step.Activate? && Enabled(s, step)
    ensures ClientsOk(Apply(s, step))
  {
    hide Apart;
    var t := Apply(s, step);
    forall x, y | x in t.clients && y in t.clients && x != y ensures Apart(t.clients[x], t.clients[y]) {
      if y == step.who {
        ApartSymmetric(t.clients[y], t.clients[x]);
      }
    }
  }

  lemma ApartSymmetric(a: Client, b: Client)
    requires Apart(a, b)
    ensures Apart(b, a)
  {
  }

  lemma EpochOfLink(s: System, who: nat)
    requires LinksOk(s) && who in s.clients && s.clients[who].link.Some?
    ensures LinkOk(s, who, s.clients[who].link.value)
    ensures var e := s.clients[who].link.value.epoch;
            e in s.handled && e in s.driver && s.driver[e] == who
  {
  }

  lemma ApartSame(a: Client, b: Client, c: Client, d: Client)
    requires Apart(a, b) && c.device == a.device && c.activation == a.activation
    requires d.device == b.device && d.activation == b.activation
    ensures Apart(c, d)
  {
  }

  /** Clients keep who they are. */
  lemma ClientsStay(s: System, t: System)
    requires ClientsOk(s) && ClientsGrow(s, t) && t.clients.Keys == s.clients.Keys
    ensures ClientsOk(t)
  {
    hide Apart;
    forall x, y | x in t.clients && y in t.clients && x != y ensures Apart(t.clients[x], t.clients[y]) {
      ApartSame(s.clients[x], s.clients[y], t.clients[x], t.clients[y]);
    }
  }

  function Recorded(s: System, who: nat, samples: seq<Sample>): System
    requires who in s.clients
  {
    s.(clients := s.clients[who := s.clients[who].(stream := s.clients[who].stream + samples)])
  }

  lemma RecordKeeps(s: System, who: nat, samples: seq<Sample>)
    requires Inv(s) && who in s.clients
    ensures Inv(Recorded(s, who, samples))
  {
    hide ServerInv, LinksOk, AllFed, HandledOk, AllAnswered, AllSent, ClientsOk, Quiet, EpochOk, ClientsGrow;
    RecordQuiet(s, who, samples);
    RecordEpochs(s, who, samples);
    ClientsStay(s, Recorded(s, who, samples));
    QuietKeeps(s, Recorded(s, who, samples));
  }

  lemma RecordQuiet(s: System, who: nat, samples: seq<Sample>)
    requires who in s.clients
    ensures Quiet(s, Recorded(s, who, samples)) && ClientsGrow(s, Recorded(s, who, samples))
  {
  }

  lemma RecordEpochs(s: System, who: nat, samples: seq<Sample>)
    requires who in s.clients && EpochsOk(s)
    ensures EpochsOk(Recorded(s, who, samples))
  {
    hide EpochOk;
    var t := Recorded(s, who, samples);
    forall e | e in t.epochs ensures EpochOk(t, e) {
      assert EpochOk(s, e);
      KnownEpoch(s, e);
      EpochAlike(s, t, e);
    }
  }

  /** A new epoch, after old ones may have been dropped. */
  predicate Challenged(s: System, t: System, epoch: EpochId) {
    && t.server == s.server && t.ledger == s.ledger && t.feeds == s.feeds && t.clients == s.clients
    && t.sent == s.sent && t.answers == s.answers && t.driver == s.driver
    && t.handled == s.handled[epoch := []] && t.offered == s.offered + {epoch} && epoch !in s.handled
    && epoch in t.epochs && t.epochs[epoch].expected == 0 && t.epochs[epoch].last == None && !t.epochs[epoch].active
    && forall e :: e in t.epochs && e != epoch ==> e in s.epochs && t.epochs[e] == s.epochs[e]
  }

  lemma ChallengeIs(s: System, step: Step)
    requires step.Challenge? && Enabled(s, step) && Apply(s, step) != s
    ensures Challenged(s, Apply(s, step), step.epoch)
  {
  }

  lemma ChallengeEpochs(s: System, t: System, epoch: EpochId)
    requires EpochsOk(s) && Challenged(s, t, epoch)
    ensures EpochsOk(t)
  {
    hide EpochOk;
    forall e | e in t.epochs ensures EpochOk(t, e) {
      if e == epoch {
        NewEpochOk(t, e);
      } else {
        assert EpochOk(s, e);
        assert e in s.handled by {
          KnownEpoch(s, e);
        }
        EpochAlike(s, t, e);
      }
    }
  }

  lemma KnownEpoch(s: System, e: EpochId)
    requires EpochOk(s, e)
    ensures e in s.handled
  {
  }

  lemma NewEpochOk(t: System, e: EpochId)
    requires e in t.epochs && e in t.handled && t.handled[e] == []
    requires t.epochs[e].expected == 0 && t.epochs[e].last == None && !t.epochs[e].active
    ensures EpochOk(t, e)
  {
  }

  lemma ChallengeQuiet(s: System, t: System, epoch: EpochId)
    requires Challenged(s, t, epoch)
    ensures Quiet(s, t) && ClientsGrow(s, t)
  {
  }

  lemma ChallengeKeeps(s: System, step: Step)
    requires Inv(s) && step.Challenge? && Enabled(s, step)
    ensures Inv(Apply(s, step))
  {
    hide Apply, ServerInv, LinksOk, AllFed, HandledOk, AllAnswered, AllSent, ClientsOk, EpochsOk, Quiet, Challenged,
         ClientsGrow, Enabled;
    var t := Apply(s, step);
    if t != s {
      ChallengeIs(s, step);
      ChallengeEpochs(s, t, step.epoch);
      ChallengeQuiet(s, t, step.epoch);
      assert t.clients.Keys == s.clients.Keys by {
        ChallengeClients(s, t, step.epoch);
      }
      ClientsStay(s, t);
      QuietKeeps(s, t);
    }
  }

  lemma ChallengeClients(s: System, t: System, epoch: EpochId)
    requires Challenged(s, t, epoch)
    ensures t.clients == s.clients
  {
  }

  // ---------------------------------------------------------------- a client acts

  predicate SameClient(c: Client, d: Client) {
    d.device == c.device && d.activation == c.activation && d.start == c.start && d.audio == c.audio && d.stream == c.stream
  }

  /** The next envelope of an epoch the client drives, saying something true. */
  ghost predicate FairSend(s: System, who: nat, x: Envelope) {
    && x.epoch in s.driver && s.driver[x.epoch] == who && x.epoch in s.handled
    && x.sequence == |s.handled[x.epoch]| && Honest(s, who, x.message)
    && forall y :: y in s.sent && y.epoch == x.epoch ==> y.sequence < x.sequence
  }

  ghost predicate FairAct(s: System, who: nat, act: Act) {
    && who in s.clients && SameClient(s.clients[who], act.client)
    && match act.sent
       case None => act.client.link.Some? ==> LinkOk(s, who, act.client.link.value)
       case Some(x) =>
         && FairSend(s, who, x)
         && (act.client.link.Some? ==>
               var l := act.client.link.value;
               && l.epoch == x.epoch && l.sequence == x.sequence && l.pending == Some(x.message) && PendingOk(l)
               && (l.id != "" ==> Within(s, l.id, who, l.remote)))
  }

  lemma ActGrows(s: System, who: nat, act: Act)
    requires FairAct(s, who, act)
    ensures Grows(s, Acted(s, who, act))
  {
    hide Honest, LinkOk, Within;
  }

  lemma ActLinks(s: System, who: nat, act: Act)
    requires LinksOk(s) && FairAct(s, who, act)
    ensures LinksOk(Acted(s, who, act))
  {
    var t := Acted(s, who, act);
    ActGrows(s, who, act);
    hide LinkOk, Grows, Honest;
    forall w | w in t.clients && t.clients[w].link.Some? ensures LinkOk(t, w, t.clients[w].link.value) {
      if w == who {
        OwnLink(s, who, act);
      } else {
        EpochOfLink(s, w);
        LinkStays(s, t, w, t.clients[w].link.value);
      }
    }
  }

  lemma OwnLink(s: System, who: nat, act: Act)
    requires FairAct(s, who, act) && act.client.link.Some?
    ensures LinkOk(Acted(s, who, act), who, act.client.link.value)
  {
    hide Honest, PendingOk;
  }

  lemma ActSent(s: System, who: nat, act: Act)
    requires FairAct(s, who, act) && act.sent.Some?
    ensures SentOk(Acted(s, who, act), act.sent.value)
  {
    ActGrows(s, who, act);
    hide LinkOk, Honest, SessionsGrow, ClientsGrow;
    HonestGrows(s, Acted(s, who, act), who, act.sent.value.message);
  }

  lemma ActRecords(s: System, who: nat, act: Act)
    requires AllSent(s) && HandledOk(s) && AllAnswered(s) && FairAct(s, who, act)
    ensures var t := Acted(s, who, act);
            AllSent(t) && HandledOk(t) && AllAnswered(t)
  {
    var t := Acted(s, who, act);
    ActGrows(s, who, act);
    if act.sent.Some? {
      ActSent(s, who, act);
    }
    hide SentOk, ExchangeOk, AnswerOk, Grows, FairAct;
    OldFacts(s, t);
  }

  lemma ActOneMessage(s: System, who: nat, act: Act)
    requires OneMessageEach(s.sent) && FairAct(s, who, act)
    ensures OneMessageEach(Acted(s, who, act).sent)
  {
    hide Honest, LinkOk, PendingOk;
  }

  lemma ActKeeps(s: System, who: nat, act: Act)
    requires Inv(s) && FairAct(s, who, act)
    ensures Inv(Acted(s, who, act))
  {
    hide ServerInv, LinksOk, AllFed, HandledOk, AllAnswered, AllSent, ClientsOk, Grows, OneMessageEach;
    var t := Acted(s, who, act);
    ActGrows(s, who, act);
    ActLinks(s, who, act);
    ActRecords(s, who, act);
    ActOneMessage(s, who, act);
    assert who in s.clients;
    hide FairAct;
    FedStaysGrown(s, t);
    ClientsStayGrown(s, t);
  }

  // ---------------------------------------------------------------- establishing a session

  /** The client now drives the epoch. */
  function Driven(s: System, who: nat, epoch: EpochId): System {
    s.(offered := s.offered - {epoch}, driver := s.driver[epoch := who])
  }

  lemma DrivenKeeps(s: System, who: nat, epoch: EpochId)
    requires Inv(s) && epoch in s.offered
    ensures Inv(Driven(s, who, epoch))
    ensures forall x :: x in s.sent ==> x.epoch != epoch
    ensures epoch in s.handled && s.handled[epoch] == []
  {
    hide ServerInv, LinksOk, AllFed, HandledOk, AllAnswered, AllSent, ClientsOk, EpochsOk, Quiet, ClientsGrow, Driven;
    EpochsDriven(s, who, epoch);
    DrivenQuiet(s, who, epoch);
    ClientsStay(s, Driven(s, who, epoch));
    QuietKeeps(s, Driven(s, who, epoch));
    SentAreDriven(s);
  }

  lemma SentAreDriven(s: System)
    requires AllSent(s)
    ensures forall x :: x in s.sent ==> x.epoch in s.driver
  {
    hide Honest;
    forall x | x in s.sent ensures x.epoch in s.driver {
      assert SentOk(s, x);
    }
  }

  lemma DrivenQuiet(s: System, who: nat, epoch: EpochId)
    requires epoch !in s.driver
    ensures var t := Driven(s, who, epoch);
            Quiet(s, t) && ClientsGrow(s, t) && t.clients == s.clients
  {
  }

  lemma EpochsDriven(s: System, who: nat, epoch: EpochId)
    requires EpochsOk(s) && epoch in s.offered
    ensures epoch !in s.driver && epoch in s.handled && s.handled[epoch] == []
    ensures EpochsOk(Driven(s, who, epoch))
  {
    hide EpochOk;
    var t := Driven(s, who, epoch);
    forall e | e in t.epochs ensures EpochOk(t, e) {
      assert EpochOk(s, e);
      KnownEpoch(s, e);
      EpochAlike(s, t, e);
    }
  }

  /** The first message of an epoch that has handled nothing. */
  lemma ConnectActs(s: System, who: nat, epoch: EpochId, retained: nat)
    requires who in s.clients && s.clients[who].start <= |s.clients[who].stream| && retained <= |s.clients[who].stream|
    requires epoch in s.handled && s.handled[epoch] == [] && forall x :: x in s.sent ==> x.epoch != epoch
    ensures FairAct(Driven(s, who, epoch), who, Establish(s.clients[who], epoch, retained))
  {
    var c := s.clients[who];
    assert StreamOf(c, StreamKey(c.device, LogicalId(c.activation, c.suffix)));
  }

  lemma ConnectKeeps(s: System, who: nat, epoch: EpochId, retained: nat)
    requires Inv(s) && Enabled(s, Connect(who, epoch, retained))
    ensures Inv(Acted(Driven(s, who, epoch), who, Establish(s.clients[who], epoch, retained)))
  {
    hide Inv, Driven, FairAct, Establish;
    DrivenKeeps(s, who, epoch);
    ClientStart(s, who);
    ConnectActs(s, who, epoch, retained);
    ActKeeps(Driven(s, who, epoch), who, Establish(s.clients[who], epoch, retained));
  }

  lemma ClientStart(s: System, who: nat)
    requires Inv(s) && who in s.clients
    ensures s.clients[who].start <= |s.clients[who].stream|
  {
    hide ServerInv, LinksOk, AllFed, HandledOk, AllAnswered, AllSent, EpochsOk, OneMessageEach, Apart;
  }

  // ---------------------------------------------------------------- an established session

  /** What a client without a pending message knows about its session. */
  lemma ReadyFacts(s: System, who: nat)
    requires Inv(s) && Ready(s, who)
    ensures var c := s.clients[who];
            var l := c.link.value;
            && l.epoch in s.driver && s.driver[l.epoch] == who && l.epoch in s.handled
            && l.sequence == |s.handled[l.epoch]| && l.id != "" && Within(s, l.id, who, l.remote)
            && c.start <= s.server.sessions[l.id].source && l.remote <= |c.stream|
            && (forall x :: x in s.sent && x.epoch == l.epoch ==> x.sequence < l.sequence)
            && c.audio.channels > 0
  {
    hide ServerInv, HandledOk, AllAnswered, AllSent, Fed;
    EpochOfLink(s, who);
    var l := s.clients[who].link.value;
    FedRange(s, l.id);
  }

  lemma FedRange(s: System, id: string)
    requires AllFed(s) && id in s.server.sessions
    ensures id in s.ledger.ends && id in s.feeds && s.feeds[id] in s.clients
    ensures var c := s.clients[s.feeds[id]];
            c.start <= s.server.sessions[id].source <= Reached(s, id) <= |c.stream|
  {
    assert Fed(s, id);
  }

  /** Whatever a ready client says truly about its session is a fair send. */
  lemma ReadySends(s: System, who: nat, m: Message)
    requires Inv(s) && Ready(s, who) && Honest(s, who, m)
    ensures var l := s.clients[who].link.value;
            FairSend(s, who, Envelope(l.epoch, l.sequence, m))
  {
    hide Inv, Honest, Within;
    ReadyFacts(s, who);
  }

  lemma TickSends(s: System, who: nat, m: Message)
    requires Inv(s) && Ready(s, who) && Honest(s, who, m)
    requires var l := s.clients[who].link.value;
             m == MarkIncomplete(l.id) || (m.Pcm? && m.id == l.id && m.start == l.remote)
    ensures FairAct(s, who, Sending(s.clients[who], s.clients[who].link.value, m))
  {
    hide Inv, Honest, FairSend, LinkOk;
    ReadyFacts(s, who);
    ReadySends(s, who, m);
  }

  lemma ChunkIsHonest(s: System, who: nat, end: nat)
    requires Inv(s) && Ready(s, who)
    requires var c := s.clients[who];
             c.link.value.remote < end <= |c.stream|
             && c.audio.channels > 0 && (end - c.link.value.remote) % c.audio.channels == 0
    ensures var c := s.clients[who];
            var l := c.link.value;
            Honest(s, who, Pcm(l.id, l.remote, c.stream[l.remote..end]))
  {
    hide Inv;
    ReadyFacts(s, who);
  }

  lemma GapIsHonest(s: System, who: nat)
    requires Inv(s) && Ready(s, who)
    ensures var l := s.clients[who].link.value;
            l.id != "" && Honest(s, who, MarkIncomplete(l.id)) && Honest(s, who, Close(l.id, l.remote))
  {
    hide Inv;
    ReadyFacts(s, who);
  }

  lemma TickKeeps(s: System, who: nat, retained: nat, total: nat, chunk: nat)
    requires Inv(s) && Ready(s, who) && retained <= total <= |s.clients[who].stream|
    ensures s.clients[who].audio.channels > 0
    ensures Inv(Acted(s, who, Sync(s.clients[who], retained, total, chunk)))
  {
    hide Inv, FairAct, Honest, Behind;
    ReadyChannels(s, who);
    var c := s.clients[who];
    var l := c.link.value;
    GapIsHonest(s, who);
    if Behind(c, l, retained, total) {
      TickSends(s, who, MarkIncomplete(l.id));
      ActKeeps(s, who, Sending(c, l, MarkIncomplete(l.id)));
    } else {
      NotBehind(c, l, retained, total);
      var end := ChunkEnd(c, l, total, chunk);
      ChunkIsWholeFrames(c, l, total, chunk);
      hide ChunkEnd;
      if end > l.remote {
        ChunkIsHonest(s, who, end);
        TickSends(s, who, Pcm(l.id, l.remote, c.stream[l.remote..end]));
        ActKeeps(s, who, Sending(c, l, Pcm(l.id, l.remote, c.stream[l.remote..end])));
      } else {
        Unchanged(s, who);
      }
    }
  }

  lemma ReadyChannels(s: System, who: nat)
    requires Inv(s) && who in s.clients
    ensures s.clients[who].audio.channels > 0
  {
  }

  lemma NotBehind(c: Client, l: Link, retained: nat, total: nat)
    requires !Behind(c, l, retained, total)
    ensures Floor(c, retained) <= l.remote <= total
  {
  }

  lemma Unchanged(s: System, who: nat)
    requires who in s.clients
    ensures Acted(s, who, Act(s.clients[who], None)) == s
  {
    assert s.clients[who := s.clients[who]] == s.clients;
  }

  lemma LeaveKeeps(s: System, who: nat)
    requires Inv(s) && who in s.clients && !Waiting(s, who)
    ensures Inv(Acted(s, who, Stop(s.clients[who])))
  {
    hide Inv, Honest, LinkOk, FairSend;
    var act := Stop(s.clients[who]);
    if s.clients[who].link.Some? {
      GapIsHonest(s, who);
      ReadySends(s, who, act.sent.value.message);
    }
    ActKeeps(s, who, act);
  }

  lemma GiveUpKeeps(s: System, who: nat)
    requires Inv(s) && Waiting(s, who)
    ensures Inv(Acted(s, who, Act(Fail(s.clients[who]), None)))
  {
    hide Inv;
    ActKeeps(s, who, Act(Fail(s.clients[who]), None));
  }

  /** An answer the client can accept is the answer to its pending message, and it is true. */
  lemma AnswerFits(s: System, who: nat, a: Sealed)
    requires Inv(s) && Receives(s, who, a)
    ensures var l := s.clients[who].link.value;
            && !a.conflict && a.sequence == l.sequence && LinkOk(s, who, l)
            && l.epoch in s.handled && |s.handled[l.epoch]| == l.sequence + 1
            && Truthful(s, who, l.pending.value, a.response)
            && (forall x :: x in s.sent && x.epoch == l.epoch ==> x.sequence < l.sequence + 1)
  {
    hide ServerInv, AllFed, ClientsOk, EpochsOk, AllSent, OneMessageEach, Truthful, Within;
    EpochOfLink(s, who);
    var l := s.clients[who].link.value;
    assert AnswerOk(s, a);
    assert ExchangeOk(s, l.epoch, l.sequence);
  }

  lemma AnswerActs(s: System, who: nat, a: Sealed)
    requires Inv(s) && Receives(s, who, a)
    ensures FairAct(s, who, Act(Receive(s.clients[who], a.response, a.conflict), None))
  {
    hide Inv, Within;
    AnswerFits(s, who, a);
    var l := s.clients[who].link.value;
    match l.pending.value
    case OpenOrResume(_, _, _, _, _, _) =>
    case Pcm(_, _, _) =>
    case _ =>
  }

  lemma AnswerKeeps(s: System, who: nat, a: Sealed)
    requires Inv(s) && Receives(s, who, a)
    ensures Inv(Acted(s, who, Act(Receive(s.clients[who], a.response, a.conflict), None)))
  {
    hide Inv, FairAct;
    AnswerActs(s, who, a);
    ActKeeps(s, who, Act(Receive(s.clients[who], a.response, a.conflict), None));
  }

  lemma PendingIsHonest(s: System, who: nat)
    requires Inv(s) && Waiting(s, who)
    ensures Honest(s, who, s.clients[who].link.value.pending.value)
  {
    hide ServerInv, AllFed, ClientsOk, EpochsOk, OneMessageEach, HandledOk, Honest, Within;
    var l := s.clients[who].link.value;
    EpochOfLink(s, who);
    assert SentOk(s, Envelope(l.epoch, l.sequence, l.pending.value));
  }

  /**
   * An accepted chunk is always acknowledged at exactly its end: the client never sees
   * an invalid position.
   */
  lemma NoInvalidAck(s: System, who: nat, a: Sealed)
    requires Inv(s) && Receives(s, who, a) && s.clients[who].link.value.pending.value.Pcm?
    ensures !InvalidAck(s.clients[who].link.value.pending.value, a.response)
    ensures var m := s.clients[who].link.value.pending.value;
            a.response.status.Accepted? ==> a.response.next == m.start + |m.samples|
  {
    hide Inv, LinkOk, Within;
    AnswerFits(s, who, a);
    PendingIsHonest(s, who);
  }
}
