/**
 * Who wrote what: a ledger of the sessions in the order they were opened and of the
 * session that appended each cached sample. The server keeps no such ledger; it is what
 * the server's own fields are proved to agree with.
 */
module UploadLedger {
  import opened Wrappers
  import opened UploadProtocol
  import opened UploadServer

  /** The samples of the cache that one session appended. */
  datatype Span = Span(id: string, start: nat, end: nat)

  /** Runs in opening order, the writer of every cached sample, and where each session's run ends. */
  datatype Ledger = Ledger(runs: seq<Span>, owners: seq<string>, ends: map<string, nat>)

  const NEW_LEDGER := Ledger([], [], map[])

  /** The run of one session, extended to a new end. */
  function Extended(runs: seq<Span>, id: string, end: nat): seq<Span> {
    seq(|runs|, i requires 0 <= i < |runs| => if runs[i].id == id then runs[i].(end := end) else runs[i])
  }

  /**
   * Enters the effect of one message: a new session has an empty run, and what the cache
   * gained is booked to the session that a chunk names; `id` is the id a new session
   * would have taken.
   */
  function Booked(l: Ledger, v: Server, after: Server, m: Message, id: string): Ledger {
    if id !in v.sessions && id in after.sessions then
      Ledger(l.runs + [Span(id, |v.cache|, |v.cache|)], l.owners, l.ends[id := |v.cache|])
    else if m.Pcm? && |after.cache| > |v.cache| then
      Ledger(Extended(l.runs, m.id, |after.cache|), l.owners + seq(|after.cache| - |v.cache|, _ => m.id),
             l.ends[m.id := |after.cache|])
    else l
  }

  /** The runs tile the cache. */
  predicate Tiles(runs: seq<Span>, total: nat) {
    && (forall i :: 0 <= i < |runs| ==> runs[i].start <= runs[i].end <= total)
    && (forall i :: 0 < i < |runs| ==> runs[i].start == runs[i - 1].end)
    && (if |runs| > 0 then runs[0].start == 0 && runs[|runs| - 1].end == total else total == 0)
  }

  predicate Owned(runs: seq<Span>, owners: seq<string>) {
    forall i, k :: 0 <= i < |runs| && 0 <= k < |owners| && runs[i].start <= k < runs[i].end ==>
      owners[k] == runs[i].id
  }

  predicate Distinct(runs: seq<Span>) {
    forall i, j :: 0 <= i < j < |runs| ==> runs[i].id != runs[j].id
  }

  predicate HasRun(l: Ledger, id: string) {
    exists i :: 0 <= i < |l.runs| && l.runs[i].id == id
  }

  /** The sessions are those with a run, and their cached positions are their runs'. */
  ghost predicate Listed(v: Server, l: Ledger) {
    && (forall i :: 0 <= i < |l.runs| ==>
          var run := l.runs[i];
          && run.id in v.sessions && v.sessions[run.id].cacheStart == run.start
          && run.id in l.ends && l.ends[run.id] == run.end)
    && (forall id :: id in v.sessions ==> HasRun(l, id))
  }

  /** At most one session is open: the active one, which is the one opened last. */
  predicate OneWriter(v: Server, l: Ledger) {
    && (forall id :: id in v.sessions ==> (v.sessions[id].Open() <==> v.active == Some(id)))
    && (v.active.Some? ==> |l.runs| > 0 && v.active.value == l.runs[|l.runs| - 1].id)
  }

  predicate EndsKept(v: Server, l: Ledger) {
    forall id :: id in v.sessions ==>
      var s := v.sessions[id];
      && id in l.ends
      && (s.Open() ==> s.cacheEnd == None)
      && (s.closed && !s.incomplete ==> s.cacheEnd == Some(l.ends[id]))
      && (s.incomplete ==> s.closed)
  }

  /** Each stream has one session and each session is its stream's. */
  predicate OnePerStream(v: Server) {
    && (forall key :: key in v.streams ==> v.streams[key] in v.sessions && v.sessions[v.streams[key]].key == key)
    && (forall id :: id in v.sessions ==> v.sessions[id].key in v.streams && v.streams[v.sessions[id].key] == id)
    && (v.audio.None? ==> v.sessions == map[] && v.cache == [])
  }

  ghost predicate ServerInv(v: Server, l: Ledger) {
    && Tiles(l.runs, |v.cache|) && |l.owners| == |v.cache| && Owned(l.runs, l.owners) && Distinct(l.runs)
    && Listed(v, l) && OneWriter(v, l) && EndsKept(v, l) && OnePerStream(v)
  }

  lemma NewServerInv()
    ensures ServerInv(NEW_SERVER, NEW_LEDGER)
  {
  }

  /** The samples a session has appended. */
  function Held(v: Server, l: Ledger, id: string): int
    requires id in v.sessions && id in l.ends
  {
    l.ends[id] - v.sessions[id].cacheStart
  }

  /** A closing position that claims no more than the session appended. */
  predicate FairClose(v: Server, l: Ledger, m: Message) {
    m.Close? && m.id in v.sessions ==>
      m.id in l.ends && m.final <= v.sessions[m.id].source + Held(v, l, m.id)
  }

  // ---------------------------------------------------------------- what each message does to it

  lemma RunOf(v: Server, l: Ledger, id: string)
    requires Listed(v, l) && Tiles(l.runs, |v.cache|) && id in v.sessions
    ensures id in l.ends && 0 <= v.sessions[id].cacheStart <= l.ends[id] <= |v.cache|
  {
    assert HasRun(l, id);
    var i :| 0 <= i < |l.runs| && l.runs[i].id == id;
  }

  lemma ActiveRun(v: Server, l: Ledger)
    requires Listed(v, l) && Tiles(l.runs, |v.cache|) && OneWriter(v, l) && v.active.Some?
    ensures v.active.value in v.sessions && v.active.value in l.ends && l.ends[v.active.value] == |v.cache|
  {
  }

  lemma OpenKeeps(v: Server, l: Ledger, m: Message, id: string)
    requires ServerInv(v, l) && m.OpenOrResume? && !Resumes(v, m) && id !in v.sessions
    requires v.audio.Some? ==> v.audio.value == Audio(m.rate, m.channels)
    ensures ServerInv(Opened(v, id, m), Booked(l, v, Opened(v, id, m), m, id))
  {
    hide Owned, Distinct, Listed, OneWriter, EndsKept, OnePerStream, Superseded;
    OpenListed(v, l, m, id);
    OpenOneWriter(v, l, m, id);
    OpenEndsKept(v, l, m, id);
    OpenOnePerStream(v, m, id);
    OpenOwned(v, l, id);
  }

  lemma OpenOwned(v: Server, l: Ledger, id: string)
    requires Owned(l.runs, l.owners) && Distinct(l.runs) && Listed(v, l) && id !in v.sessions
    ensures var runs := l.runs + [Span(id, |v.cache|, |v.cache|)];
            Owned(runs, l.owners) && Distinct(runs)
  {
  }

  /** Superseding a session leaves every session's stream and positions alone. */
  lemma SupersededKeeps(v: Server)
    ensures Superseded(v).Keys == v.sessions.Keys
    ensures forall id :: id in v.sessions ==>
              Superseded(v)[id].key == v.sessions[id].key && Superseded(v)[id].cacheStart == v.sessions[id].cacheStart
              && Superseded(v)[id].source == v.sessions[id].source
              && (v.active != Some(id) ==> Superseded(v)[id] == v.sessions[id])
  {
  }

  lemma OpenListed(v: Server, l: Ledger, m: Message, id: string)
    requires Listed(v, l) && m.OpenOrResume? && id !in v.sessions
    ensures Listed(Opened(v, id, m), Booked(l, v, Opened(v, id, m), m, id))
  {
    SupersededKeeps(v);
    hide Superseded;
    var w := Opened(v, id, m);
    var k := Booked(l, v, w, m, id);
    assert k.runs[|l.runs|].id == id;
    forall x | x in w.sessions ensures HasRun(k, x) {
      if x != id {
        assert HasRun(l, x);
        var i :| 0 <= i < |l.runs| && l.runs[i].id == x;
        assert k.runs[i].id == x;
      }
    }
  }

  lemma OpenOneWriter(v: Server, l: Ledger, m: Message, id: string)
    requires OneWriter(v, l) && m.OpenOrResume? && id !in v.sessions
    ensures OneWriter(Opened(v, id, m), Booked(l, v, Opened(v, id, m), m, id))
  {
  }

  lemma OpenEndsKept(v: Server, l: Ledger, m: Message, id: string)
    requires EndsKept(v, l) && m.OpenOrResume? && id !in v.sessions
    ensures EndsKept(Opened(v, id, m), Booked(l, v, Opened(v, id, m), m, id))
  {
  }

  lemma OpenOnePerStream(v: Server, m: Message, id: string)
    requires OnePerStream(v) && m.OpenOrResume? && !Resumes(v, m) && id !in v.sessions
    ensures OnePerStream(Opened(v, id, m))
  {
    SupersededKeeps(v);
    hide Superseded;
  }

  function Appended(v: Server, samples: seq<Sample>): Server {
    v.(cache := v.cache + samples)
  }

  lemma AppendKeeps(v: Server, l: Ledger, m: Message, id: string)
    requires ServerInv(v, l) && m.Pcm? && v.active == Some(m.id) && |m.samples| > 0 && v.audio.Some?
    ensures ServerInv(Appended(v, m.samples), Booked(l, v, Appended(v, m.samples), m, id))
  {
    hide Owned, Distinct, Listed, Tiles;
    var w := Appended(v, m.samples);
    var k := Booked(l, v, w, m, id);
    ActiveRun(v, l);
    ExtendedLast(l.runs, m.id, |w.cache|);
    AppendListed(v, l, m, id);
    AppendTiles(l.runs, |v.cache|, |w.cache|);
    AppendOwned(l.runs, l.owners, m.id, |m.samples|);
  }

  /** In a list without repetition only the last run is the last session's. */
  lemma ExtendedLast(runs: seq<Span>, id: string, end: nat)
    requires Distinct(runs) && |runs| > 0 && runs[|runs| - 1].id == id
    ensures Extended(runs, id, end) == LastExtended(runs, end)
  {
  }

  function LastExtended(runs: seq<Span>, end: nat): seq<Span>
    requires |runs| > 0
  {
    runs[|runs| - 1 := runs[|runs| - 1].(end := end)]
  }

  lemma AppendListed(v: Server, l: Ledger, m: Message, id: string)
    requires Listed(v, l) && Distinct(l.runs) && OneWriter(v, l) && m.Pcm? && v.active == Some(m.id) && |m.samples| > 0
    ensures Listed(Appended(v, m.samples), Booked(l, v, Appended(v, m.samples), m, id))
    ensures Distinct(Booked(l, v, Appended(v, m.samples), m, id).runs)
  {
    var k := Booked(l, v, Appended(v, m.samples), m, id);
    assert forall i :: 0 <= i < |l.runs| ==> k.runs[i].id == l.runs[i].id;
    forall x | x in v.sessions ensures HasRun(k, x) {
      assert HasRun(l, x);
      var i :| 0 <= i < |l.runs| && l.runs[i].id == x;
      assert k.runs[i].id == x;
    }
  }

  lemma AppendTiles(runs: seq<Span>, total: nat, more: nat)
    requires Tiles(runs, total) && |runs| > 0 && total <= more
    ensures Tiles(LastExtended(runs, more), more)
  {
  }

  lemma AppendOwned(runs: seq<Span>, owners: seq<string>, id: string, n: nat)
    requires Tiles(runs, |owners|) && Owned(runs, owners) && |runs| > 0 && runs[|runs| - 1].id == id
    ensures Owned(LastExtended(runs, |owners| + n), owners + seq(n, _ => id))
  {
  }

  lemma EndKeeps(v: Server, l: Ledger, m: Message, id: string, session: Session, unused: string)
    requires ServerInv(v, l) && id in v.sessions && unused !in v.sessions
    requires var s := v.sessions[id];
             && session == s.(closed := true, incomplete := session.incomplete, cacheEnd := Some(|v.cache|))
             && (s.incomplete ==> session.incomplete)
             && (!session.incomplete ==> id in l.ends && l.ends[id] == |v.cache|)
    ensures ServerInv(Ended(v, id, session), l)
    ensures Booked(l, v, Ended(v, id, session), m, unused) == l
  {
    hide Tiles, Owned, Distinct, Listed, OneWriter, EndsKept, OnePerStream;
    EndListed(v, l, id, session);
    EndOneWriter(v, l, id, session);
    EndEndsKept(v, l, id, session);
    EndOnePerStream(v, id, session);
  }

  lemma EndListed(v: Server, l: Ledger, id: string, session: Session)
    requires Listed(v, l) && id in v.sessions && session.cacheStart == v.sessions[id].cacheStart
    ensures Listed(Ended(v, id, session), l)
  {
    hide HasRun;
  }

  lemma EndOneWriter(v: Server, l: Ledger, id: string, session: Session)
    requires OneWriter(v, l) && id in v.sessions && session.closed
    ensures OneWriter(Ended(v, id, session), l)
  {
  }

  lemma EndEndsKept(v: Server, l: Ledger, id: string, session: Session)
    requires EndsKept(v, l) && id in v.sessions && session.closed && session.cacheEnd == Some(|v.cache|)
    requires !session.incomplete ==> id in l.ends && l.ends[id] == |v.cache|
    ensures EndsKept(Ended(v, id, session), l)
  {
  }

  lemma EndOnePerStream(v: Server, id: string, session: Session)
    requires OnePerStream(v) && id in v.sessions && session.key == v.sessions[id].key
    ensures OnePerStream(Ended(v, id, session))
  {
  }

  /**
   * A fair close takes effect only at the session's own end: for a session that is over
   * already it changes nothing, even if other sessions have appended since.
   */
  lemma CloseAtEnd(v: Server, l: Ledger, m: Message)
    requires ServerInv(v, l) && FairClose(v, l, m) && m.Close? && m.id in v.sessions
    requires m.final == v.sessions[m.id].Next(|v.cache|)
    ensures m.id in l.ends && l.ends[m.id] == |v.cache|
  {
    RunOf(v, l, m.id);
  }

  lemma NothingBooked(v: Server, l: Ledger, m: Message, id: string)
    requires id !in v.sessions
    ensures Booked(l, v, v, m, id) == l
  {
  }

  lemma OpenStreamKeeps(v: Server, l: Ledger, m: Message, id: string, fault: Fault)
    requires ServerInv(v, l) && m.OpenOrResume? && id !in v.sessions
    ensures var w := OpenStream(v, m, id, fault).server;
            ServerInv(w, Booked(l, v, w, m, id))
  {
    hide ServerInv, Booked, Opened, ValidConfig, Resume;
    NothingBooked(v, l, m, id);
    if OpenStream(v, m, id, fault).server != v {
      OpenKeeps(v, l, m, id);
    }
  }

  lemma PushKeeps(v: Server, l: Ledger, m: Message, id: string, fault: Fault)
    requires ServerInv(v, l) && m.Pcm? && id !in v.sessions
    ensures var w := PushPcm(v, m.id, m.start, m.samples, fault).server;
            ServerInv(w, Booked(l, v, w, m, id))
  {
    hide ServerInv, Booked;
    NothingBooked(v, l, m, id);
    if PushPcm(v, m.id, m.start, m.samples, fault).server != v {
      AppendKeeps(v, l, m, id);
    }
  }

  lemma CloseKeeps(v: Server, l: Ledger, m: Message, id: string, fault: Fault)
    requires ServerInv(v, l) && m.Close? && FairClose(v, l, m) && id !in v.sessions
    ensures var w := CloseStream(v, m.id, m.final, fault).server;
            ServerInv(w, Booked(l, v, w, m, id))
  {
    hide ServerInv, Booked, FairClose, Ended;
    NothingBooked(v, l, m, id);
    if CloseStream(v, m.id, m.final, fault).server != v {
      CloseAtEnd(v, l, m);
      EndKeeps(v, l, m, m.id, v.sessions[m.id].(closed := true, cacheEnd := Some(|v.cache|)), id);
    }
  }

  lemma MarkKeeps(v: Server, l: Ledger, m: Message, id: string, fault: Fault)
    requires ServerInv(v, l) && m.MarkIncomplete? && id !in v.sessions
    ensures var w := MarkStreamIncomplete(v, m.id, fault).server;
            ServerInv(w, Booked(l, v, w, m, id))
  {
    hide ServerInv, Booked, Ended;
    NothingBooked(v, l, m, id);
    if MarkStreamIncomplete(v, m.id, fault).server != v {
      EndKeeps(v, l, m, m.id, v.sessions[m.id].(closed := true, incomplete := true, cacheEnd := Some(|v.cache|)), id);
    }
  }

  /** Every message keeps the server and its ledger in agreement. */
  lemma HandleKeeps(v: Server, l: Ledger, m: Message, id: string, fault: Fault)
    requires ServerInv(v, l) && FairClose(v, l, m) && id !in v.sessions
    ensures var w := Handle(v, m, id, fault).server;
            ServerInv(w, Booked(l, v, w, m, id))
  {
    hide ServerInv, Booked, FairClose, OpenStream, PushPcm, CloseStream, MarkStreamIncomplete;
    match m
    case Probe => NothingBooked(v, l, m, id);
    case OpenOrResume(_, _, _, _, _, _) => OpenStreamKeeps(v, l, m, id, fault);
    case Pcm(_, _, _) => PushKeeps(v, l, m, id, fault);
    case Close(_, _) => CloseKeeps(v, l, m, id, fault);
    case MarkIncomplete(_) => MarkKeeps(v, l, m, id, fault);
  }
}
