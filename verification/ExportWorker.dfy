/**
 * The recorder worker and its export threads, as one state machine whose steps may
 * interleave in any order: the worker pushes, takes snapshots and trims; each export
 * thread copies its frozen range a chunk at a time, unpins, and asks for a trim.
 */
module ExportWorker {
  import opened Wrappers
  import opened SegmentCache
  import opened CacheWindow
  import opened CacheHistory

  /** Part of a file still to copy: len samples from `at` on, which are history[pos..]. */
  datatype Piece = Piece(name: string, at: nat, pos: nat, len: nat)

  /**
   * An export thread for history[from..to]. `plan` is what it has still to copy;
   * `broken` records that the range was empty or a file could not serve a piece.
   */
  datatype Job = Job(
    segments: seq<Segment>,
    from: nat,
    to: nat,
    plan: seq<Piece>,
    written: seq<Sample>,
    copying: bool,
    broken: bool)
  {
    predicate Uses(name: string) {
      copying && Names(segments, name)
    }
    predicate Complete() {
      |plan| == 0 && !broken
    }
  }

  type Pins = map<string, nat>

  /** trims counts the trim requests in the worker's queue; failed is the last trim's verdict. */
  datatype World = World(
    cache: Cache,
    history: seq<Sample>,
    pins: Pins,
    jobs: map<nat, Job>,
    trims: nat,
    failed: bool)

  datatype Request =
    | Latest(samples: nat)
    | Range(start: nat, end: nat, sameTimeline: bool)

  // ---------------------------------------------------------------- pins

  function PinCount(pins: Pins, name: string): nat {
    if name in pins then pins[name] else 0
  }

  function PinOne(pins: Pins, name: string): Pins {
    pins[name := PinCount(pins, name) + 1]
  }

  function UnpinOne(pins: Pins, name: string): Pins {
    if name !in pins then pins
    else if pins[name] <= 1 then pins - {name}
    else pins[name := pins[name] - 1]
  }

  function PinAll(pins: Pins, segments: seq<Segment>): Pins {
    if |segments| == 0 then pins
    else PinOne(PinAll(pins, segments[..|segments| - 1]), segments[|segments| - 1].name)
  }

  function UnpinAll(pins: Pins, segments: seq<Segment>): Pins {
    if |segments| == 0 then pins
    else UnpinOne(UnpinAll(pins, segments[..|segments| - 1]), segments[|segments| - 1].name)
  }

  predicate Names(segments: seq<Segment>, name: string) {
    exists s :: s in segments && s.name == name
  }

  function One(b: bool): nat {
    if b then 1 else 0
  }

  predicate Positive(pins: Pins) {
    forall n :: n in pins ==> pins[n] > 0
  }

  lemma NamesSplit(segments: seq<Segment>, name: string)
    requires |segments| > 0 && DistinctNames(segments)
    ensures One(Names(segments, name)) ==
            One(Names(segments[..|segments| - 1], name)) + One(segments[|segments| - 1].name == name)
    ensures DistinctNames(segments[..|segments| - 1])
  {
    var front, last := segments[..|segments| - 1], segments[|segments| - 1];
    assert last in segments;
    if Names(front, name) {
      var s :| s in front && s.name == name;
      assert s in segments;
      var i :| 0 <= i < |front| && front[i] == s;
      assert segments[i].name != last.name;
    }
    if Names(segments, name) {
      var s :| s in segments && s.name == name;
      assert s in front || s == last;
    }
  }

  lemma {:induction false} PinAllCounts(pins: Pins, segments: seq<Segment>, name: string)
    requires DistinctNames(segments) && Positive(pins)
    ensures PinCount(PinAll(pins, segments), name) == PinCount(pins, name) + One(Names(segments, name))
    ensures Positive(PinAll(pins, segments))
  {
    if |segments| > 0 {
      NamesSplit(segments, name);
      PinAllCounts(pins, segments[..|segments| - 1], name);
    }
  }

  lemma {:induction false} UnpinAllCounts(pins: Pins, segments: seq<Segment>, name: string)
    requires DistinctNames(segments) && Positive(pins)
    ensures PinCount(UnpinAll(pins, segments), name) ==
            if Names(segments, name) && PinCount(pins, name) > 0 then PinCount(pins, name) - 1 else PinCount(pins, name)
    ensures Positive(UnpinAll(pins, segments))
  {
    if |segments| > 0 {
      NamesSplit(segments, name);
      UnpinAllCounts(pins, segments[..|segments| - 1], name);
    }
  }

  /** Pinning a snapshot and unpinning it again leaves the pins as they were. */
  lemma UnpinUndoesPin(pins: Pins, segments: seq<Segment>)
    requires DistinctNames(segments) && Positive(pins)
    ensures UnpinAll(PinAll(pins, segments), segments) == pins
  {
    var p := PinAll(pins, segments);
    var u := UnpinAll(p, segments);
    PinAllCounts(pins, segments, "");
    forall name ensures PinCount(u, name) == PinCount(pins, name) {
      PinAllCounts(pins, segments, name);
      UnpinAllCounts(p, segments, name);
    }
    UnpinAllCounts(p, segments, "");
    SameCounts(u, pins);
  }

  lemma SameCounts(p: Pins, q: Pins)
    requires Positive(p) && Positive(q)
    requires forall name :: PinCount(p, name) == PinCount(q, name)
    ensures p == q
  {
    assert forall n :: n in p ==> PinCount(p, n) == PinCount(q, n);
    assert forall n :: n in q ==> PinCount(p, n) == PinCount(q, n);
  }

  // ---------------------------------------------------------------- the steps

  function WorkerPush(w: World, samples: seq<Sample>, locked: set<string>): World
    requires Inv(w.cache, w.history)
  {
    PushKeeps(w.cache, w.history, samples);
    var pushed := PushSamples(w.cache, samples);
    var t := Trim(pushed, w.pins.Keys, locked);
    w.(cache := t.cache, history := w.history + samples, failed := t.failed)
  }

  function WorkerTrim(w: World, locked: set<string>): World
    requires Inv(w.cache, w.history)
  {
    if w.trims == 0 then w
    else
      var t := Trim(w.cache, w.pins.Keys, locked);
      w.(cache := t.cache, trims := w.trims - 1, failed := t.failed)
  }

  /** The segments an export holds on to; a fixed range drops those it does not touch. */
  function Overlapping(segments: seq<Segment>, a: nat, b: nat): seq<Segment> {
    if |segments| == 0 then []
    else if segments[0].Overlaps(a, b) then [segments[0]] + Overlapping(segments[1..], a, b)
    else Overlapping(segments[1..], a, b)
  }

  function PieceOf(s: Segment, a: nat, b: nat): Piece
    requires a < b && s.Overlaps(a, b)
  {
    Piece(s.name, Max(a, s.start) - s.start, Max(a, s.start), Min(b, s.End()) - Max(a, s.start))
  }

  /** The pieces of files that a range needs, in order. */
  function Pieces(segments: seq<Segment>, a: nat, b: nat): seq<Piece>
    requires a < b
  {
    if |segments| == 0 then []
    else
      var s := segments[0];
      (if s.Overlaps(a, b) then [PieceOf(s, a, b)] else []) + Pieces(segments[1..], a, b)
  }

  function NewJob(segments: seq<Segment>, a: nat, b: nat): Job {
    Job(segments, a, b, if a < b then Pieces(segments, a, b) else [], [], true, b <= a)
  }

  /** None when a fixed range is empty, or no longer or not yet in the window. */
  function Freeze(c: Cache, request: Request): Option<Job> {
    var s := SnapshotOf(c);
    match request
    case Latest(n) =>
      Some(NewJob(s.segments, Max(if c.total < n then 0 else c.total - n, s.retainedStart), c.total))
    case Range(a, b, sameTimeline) =>
      if b <= a || !sameTimeline || a < s.retainedStart || b > s.total then None
      else Some(NewJob(Overlapping(s.segments, a, b), a, b))
  }

  function WorkerSave(w: World, id: nat, request: Request): World
    requires Inv(w.cache, w.history) && id !in w.jobs
  {
    var flushed := Flush(w.cache);
    match Freeze(flushed, request)
    case None => w.(cache := flushed)
    case Some(job) =>
      w.(cache := flushed, pins := PinAll(w.pins, job.segments), jobs := w.jobs[id := job])
  }

  /** The thread copies up to n samples of its current piece, or moves to the next one. */
  function CopyChunk(job: Job, disk: Disk, n: nat): Job {
    if !job.copying || job.broken || |job.plan| == 0 then job
    else
      var p := job.plan[0];
      if p.len == 0 then job.(plan := job.plan[1..])
      else
        var m := Max(1, Min(n, p.len));
        if p.name !in disk || |disk[p.name]| < p.at + m then job.(broken := true)
        else
          job.(plan := [Piece(p.name, p.at + m, p.pos + m, p.len - m)] + job.plan[1..],
               written := job.written + disk[p.name][p.at..p.at + m])
  }

  function ExportCopy(w: World, id: nat, n: nat): World {
    if id !in w.jobs then w
    else w.(jobs := w.jobs[id := CopyChunk(w.jobs[id], w.cache.disk, n)])
  }

  /** The thread is done, canceled or failed: it gives its files back. */
  function ExportRelease(w: World, id: nat): World {
    if id !in w.jobs || !w.jobs[id].copying then w
    else
      w.(pins := UnpinAll(w.pins, w.jobs[id].segments), jobs := w.jobs[id := w.jobs[id].(copying := false)])
  }

  /** Last act of the thread: a trim request to the worker. */
  function ExportNotify(w: World, id: nat): World {
    if id !in w.jobs || w.jobs[id].copying then w
    else w.(jobs := w.jobs - {id}, trims := w.trims + 1)
  }

  // ---------------------------------------------------------------- what a thread still owes

  predicate PieceIntact(p: Piece, disk: Disk, history: seq<Sample>) {
    && p.name in disk && |disk[p.name]| >= p.at + p.len && p.pos + p.len <= |history|
    && disk[p.name][p.at..p.at + p.len] == history[p.pos..p.pos + p.len]
  }

  predicate PlanWithin(plan: seq<Piece>, history: seq<Sample>) {
    forall p :: p in plan ==> p.pos + p.len <= |history|
  }

  /** The history the remaining pieces denote. */
  function Owed(plan: seq<Piece>, history: seq<Sample>): seq<Sample>
    requires PlanWithin(plan, history)
  {
    if |plan| == 0 then []
    else
      PlanRest(plan, history);
      history[plan[0].pos..plan[0].pos + plan[0].len] + Owed(plan[1..], history)
  }

  lemma PlanRest(plan: seq<Piece>, history: seq<Sample>)
    requires |plan| > 0 && PlanWithin(plan, history)
    ensures plan[0].pos + plan[0].len <= |history|
    ensures PlanWithin(plan[1..], history)
  {
    assert plan[0] in plan;
    assert forall p :: p in plan[1..] ==> p in plan;
  }

  lemma PieceOfIntact(s: Segment, disk: Disk, history: seq<Sample>, a: nat, b: nat)
    requires a < b && s.Overlaps(a, b) && SegmentIntact(s, disk, history)
    ensures PieceIntact(PieceOf(s, a, b), disk, history)
  {
    SegmentSlice(s, disk, history, Max(a, s.start), Min(b, s.End()));
  }

  lemma {:induction false} PiecesIntact(segments: seq<Segment>, disk: Disk, history: seq<Sample>, a: nat, b: nat)
    requires Frozen(segments, disk, history) && a < b
    ensures forall p :: p in Pieces(segments, a, b) ==> PieceIntact(p, disk, history) && Names(segments, p.name)
    ensures PlanWithin(Pieces(segments, a, b), history)
  {
    if |segments| > 0 {
      hide SegmentIntact;
      var s := segments[0];
      assert s in segments;
      assert forall x :: x in segments[1..] ==> x in segments;
      PiecesIntact(segments[1..], disk, history, a, b);
      if s.Overlaps(a, b) {
        PieceOfIntact(s, disk, history, a, b);
      }
      forall p | p in Pieces(segments, a, b) ensures PieceIntact(p, disk, history) && Names(segments, p.name) {
        if p in Pieces(segments[1..], a, b) {
          var x :| x in segments[1..] && x.name == p.name;
        } else {
          assert s.Overlaps(a, b) && p == PieceOf(s, a, b);
        }
      }
    }
  }

  /** What the pieces denote is what a read of the same range would return. */
  lemma {:induction false} PiecesRead(segments: seq<Segment>, disk: Disk, history: seq<Sample>, a: nat, b: nat)
    requires Frozen(segments, disk, history) && a < b
    requires PlanWithin(Pieces(segments, a, b), history)
    ensures ReadSegments(segments, disk, a, b) == Ok(Owed(Pieces(segments, a, b), history))
  {
    if |segments| > 0 {
      var s := segments[0];
      var rest := Pieces(segments[1..], a, b);
      assert s in segments;
      assert forall x :: x in segments[1..] ==> x in segments;
      PiecesIntact(segments[1..], disk, history, a, b);
      PiecesRead(segments[1..], disk, history, a, b);
      hide Frozen, SegmentIntact, PlanWithin;
      if s.Overlaps(a, b) {
        ReadOverlap(s, disk, history, a, b);
        assert Pieces(segments, a, b)[1..] == rest;
      } else {
        assert Pieces(segments, a, b) == rest;
      }
    }
  }

  lemma {:induction false} PiecesOverlapping(segments: seq<Segment>, a: nat, b: nat)
    requires a < b
    ensures Pieces(Overlapping(segments, a, b), a, b) == Pieces(segments, a, b)
    ensures forall s :: s in Overlapping(segments, a, b) ==> s in segments
  {
    if |segments| > 0 {
      PiecesOverlapping(segments[1..], a, b);
      var rest := Overlapping(segments[1..], a, b);
      if segments[0].Overlaps(a, b) {
        assert ([segments[0]] + rest)[1..] == rest;
      }
    }
  }

  lemma {:induction false} OverlappingDistinct(segments: seq<Segment>, a: nat, b: nat)
    requires DistinctNames(segments)
    ensures DistinctNames(Overlapping(segments, a, b))
    ensures forall s :: s in Overlapping(segments, a, b) ==> s in segments
  {
    if |segments| > 0 {
      OverlappingDistinct(segments[1..], a, b);
      forall x | x in segments[1..] ensures x in segments && x.name != segments[0].name {
        var i :| 0 <= i < |segments[1..]| && segments[1..][i] == x;
        assert segments[i + 1].name != segments[0].name;
      }
    }
  }

  lemma {:induction false} OwedStable(plan: seq<Piece>, history: seq<Sample>, more: seq<Sample>)
    requires PlanWithin(plan, history)
    ensures PlanWithin(plan, history + more)
    ensures Owed(plan, history + more) == Owed(plan, history)
  {
    if |plan| > 0 {
      PlanRest(plan, history);
      OwedStable(plan[1..], history, more);
    }
  }

  /** Every piece is there to be copied, from a file the thread has pinned. */
  predicate PlanSound(plan: seq<Piece>, segments: seq<Segment>, disk: Disk, history: seq<Sample>) {
    forall p :: p in plan ==> PieceIntact(p, disk, history) && Names(segments, p.name)
  }

  /** What is written and what is owed make up the range. */
  predicate Balanced(job: Job, history: seq<Sample>)
    requires PlanWithin(job.plan, history)
  {
    && job.to <= |history|
    && (job.broken <==> job.to <= job.from)
    && (!job.broken ==> job.written + Owed(job.plan, history) == history[job.from..job.to])
  }

  /** A thread that still copies. */
  predicate CopySound(job: Job, disk: Disk, history: seq<Sample>) {
    && Frozen(job.segments, disk, history)
    && DistinctNames(job.segments)
    && PlanSound(job.plan, job.segments, disk, history)
    && PlanWithin(job.plan, history)
    && Balanced(job, history)
  }

  /** A thread that has let go of its files, if it got to the end, wrote its exact range. */
  predicate ResultSound(job: Job, history: seq<Sample>) {
    job.Complete() ==>
      job.from < job.to <= |history| && job.written == history[job.from..job.to]
  }

  lemma PieceSplit(p: Piece, disk: Disk, history: seq<Sample>, m: nat)
    requires PieceIntact(p, disk, history) && m <= p.len
    ensures disk[p.name][p.at..p.at + m] == history[p.pos..p.pos + m]
    ensures history[p.pos..p.pos + m] + history[p.pos + m..p.pos + p.len] == history[p.pos..p.pos + p.len]
    ensures PieceIntact(Piece(p.name, p.at + m, p.pos + m, p.len - m), disk, history)
  {
    var f, h := disk[p.name][p.at..p.at + p.len], history[p.pos..p.pos + p.len];
    assert f[..m] == disk[p.name][p.at..p.at + m] && h[..m] == history[p.pos..p.pos + m];
    assert f[m..] == disk[p.name][p.at + m..p.at + p.len] && h[m..] == history[p.pos + m..p.pos + p.len];
  }

  lemma CopyDrops(job: Job, disk: Disk, history: seq<Sample>)
    requires CopySound(job, disk, history) && !job.broken && |job.plan| > 0 && job.plan[0].len == 0
    ensures CopySound(job.(plan := job.plan[1..]), disk, history)
  {
    var p := job.plan[0];
    PlanRest(job.plan, history);
    assert forall x :: x in job.plan[1..] ==> x in job.plan;
    hide Frozen, DistinctNames, Names, PieceIntact, PlanWithin;
    assert history[p.pos..p.pos + p.len] == [];
    assert [] + Owed(job.plan[1..], history) == Owed(job.plan[1..], history);
  }

  lemma PlanAfterRead(plan: seq<Piece>, segments: seq<Segment>, disk: Disk, history: seq<Sample>, m: nat)
    requires |plan| > 0 && m <= plan[0].len
    requires PlanSound(plan, segments, disk, history)
    ensures var p := plan[0];
            PlanSound([Piece(p.name, p.at + m, p.pos + m, p.len - m)] + plan[1..], segments, disk, history)
  {
    var p := plan[0];
    assert p in plan;
    PieceSplit(p, disk, history, m);
    hide PieceIntact, Names;
    var q := Piece(p.name, p.at + m, p.pos + m, p.len - m);
    assert forall x :: x in [q] + plan[1..] ==> x == q || x in plan;
  }

  lemma PlanStarts(plan: seq<Piece>, segments: seq<Segment>, disk: Disk, history: seq<Sample>)
    requires |plan| > 0 && PlanSound(plan, segments, disk, history)
    ensures PlanWithin(plan, history) && PieceIntact(plan[0], disk, history)
  {
    assert plan[0] in plan;
  }

  lemma OwedAfterRead(plan: seq<Piece>, disk: Disk, history: seq<Sample>, m: nat)
    requires |plan| > 0 && m <= plan[0].len && PlanWithin(plan, history)
    requires PieceIntact(plan[0], disk, history)
    ensures var p := plan[0];
            var plan' := [Piece(p.name, p.at + m, p.pos + m, p.len - m)] + plan[1..];
            && PlanWithin(plan', history)
            && Owed(plan, history) == disk[p.name][p.at..p.at + m] + Owed(plan', history)
  {
    var p := plan[0];
    var q := Piece(p.name, p.at + m, p.pos + m, p.len - m);
    PlanRest(plan, history);
    PieceSplit(p, disk, history, m);
    hide PieceIntact;
    assert forall x :: x in [q] + plan[1..] ==> x == q || x in plan[1..];
    assert ([q] + plan[1..])[1..] == plan[1..];
    var rest := Owed(plan[1..], history);
    hide PlanWithin;
    assert (history[p.pos..p.pos + m] + history[p.pos + m..p.pos + p.len]) + rest ==
           history[p.pos..p.pos + m] + (history[p.pos + m..p.pos + p.len] + rest);
  }

  lemma CopyReads(job: Job, disk: Disk, history: seq<Sample>, m: nat)
    requires CopySound(job, disk, history) && !job.broken && |job.plan| > 0 && m <= job.plan[0].len
    ensures var p := job.plan[0];
            && p.name in disk && p.at + m <= |disk[p.name]|
            && CopySound(job.(plan := [Piece(p.name, p.at + m, p.pos + m, p.len - m)] + job.plan[1..],
                              written := job.written + disk[p.name][p.at..p.at + m]), disk, history)
  {
    hide Frozen, DistinctNames, PlanSound, PlanWithin, Owed;
    PlanStarts(job.plan, job.segments, disk, history);
    PlanAfterRead(job.plan, job.segments, disk, history, m);
    OwedAfterRead(job.plan, disk, history, m);
  }

  /** Copying takes from what is owed exactly what it adds to what is written, and never breaks. */
  lemma CopyKeepsSound(job: Job, disk: Disk, history: seq<Sample>, n: nat)
    requires job.copying && CopySound(job, disk, history)
    ensures CopySound(CopyChunk(job, disk, n), disk, history)
  {
    hide CopySound;
    if !job.broken && |job.plan| > 0 {
      if job.plan[0].len == 0 {
        CopyDrops(job, disk, history);
      } else {
        MinBound(n, job.plan[0].len);
        CopyReads(job, disk, history, Max(1, Min(n, job.plan[0].len)));
      }
    }
  }

  lemma MinBound(a: nat, b: nat)
    ensures Min(a, b) <= a && Min(a, b) <= b
  {
  }

  lemma NewJobIsSound(c: Cache, history: seq<Sample>, segments: seq<Segment>, a: nat, b: nat)
    requires Inv(c, history) && Frozen(c.segments, c.disk, history)
    requires RetainedStart(c) <= a && b <= c.total
    requires Frozen(segments, c.disk, history) && DistinctNames(segments)
    requires a < b ==> Pieces(segments, a, b) == Pieces(c.segments, a, b)
    ensures CopySound(NewJob(segments, a, b), c.disk, history)
  {
    hide Live, Accounted, RetainedStart, Frozen, DistinctNames, PieceIntact, Pieces, Owed;
    if a < b {
      ReadIsExact(c, SnapshotOf(c), c.disk, history, a, b);
      PiecesIntact(segments, c.disk, history, a, b);
      PiecesIntact(c.segments, c.disk, history, a, b);
      PiecesRead(c.segments, c.disk, history, a, b);
      assert [] + history[a..b] == history[a..b];
    }
  }

  lemma FreezeIsSound(c: Cache, history: seq<Sample>, request: Request)
    requires Inv(c, history) && Frozen(c.segments, c.disk, history)
    requires Freeze(c, request).Some?
    ensures CopySound(Freeze(c, request).value, c.disk, history)
  {
    StartBounds(c);
    hide CopySound, RetainedStart, SegmentIntact, Covered, Shape;
    match request
    case Latest(n) =>
      NewJobIsSound(c, history, c.segments, Max(if c.total < n then 0 else c.total - n, RetainedStart(c)), c.total);
    case Range(a, b, _) =>
      PiecesOverlapping(c.segments, a, b);
      OverlappingDistinct(c.segments, a, b);
      NewJobIsSound(c, history, Overlapping(c.segments, a, b), a, b);
  }

  lemma IntactLater(s: Segment, disk: Disk, disk': Disk, history: seq<Sample>, more: seq<Sample>)
    requires SegmentIntact(s, disk, history)
    requires s.name in disk' && disk[s.name] <= disk'[s.name]
    ensures SegmentIntact(s, disk', history + more)
  {
    assert disk'[s.name][..s.count] == disk[s.name][..s.count];
    assert (history + more)[s.start..s.End()] == history[s.start..s.End()];
  }

  lemma PieceLater(p: Piece, disk: Disk, disk': Disk, history: seq<Sample>, more: seq<Sample>)
    requires PieceIntact(p, disk, history)
    requires p.name in disk' && disk[p.name] <= disk'[p.name]
    ensures PieceIntact(p, disk', history + more)
  {
    assert disk'[p.name][p.at..p.at + p.len] == disk[p.name][p.at..p.at + p.len];
    assert (history + more)[p.pos..p.pos + p.len] == history[p.pos..p.pos + p.len];
  }

  /** Files that only grow and a history that only grows leave a copying thread sound. */
  lemma CopySoundLater(job: Job, disk: Disk, disk': Disk, history: seq<Sample>, more: seq<Sample>)
    requires CopySound(job, disk, history)
    requires forall s :: s in job.segments ==> s.name in disk' && disk[s.name] <= disk'[s.name]
    ensures CopySound(job, disk', history + more)
  {
    forall s | s in job.segments ensures SegmentIntact(s, disk', history + more) {
      IntactLater(s, disk, disk', history, more);
    }
    forall p | p in job.plan ensures PieceIntact(p, disk', history + more) {
      var s :| s in job.segments && s.name == p.name;
      PieceLater(p, disk, disk', history, more);
    }
    OwedStable(job.plan, history, more);
    if !job.broken {
      assert (history + more)[job.from..job.to] == history[job.from..job.to];
    }
  }
}
