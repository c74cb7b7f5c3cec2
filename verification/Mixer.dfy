/** Capture on a fixed time axis: source queues, the integer mix and the frame clock. */
module Mixer {
  import opened Wrappers

  // ---------------------------------------------------------------- the frame clock

  datatype Frames = Frames(count: nat, fractional: nat)

  /** Ticks of 10 ms as whole frames, with the remainder carried on. */
  function FramesForTicks(rate: nat, fractional: nat, ticks: nat): Frames {
    var scaled := rate * ticks + fractional;
    Frames(scaled / 100, scaled % 100)
  }

  function TotalFrames(rate: nat, fractional: nat, ticks: seq<nat>): Frames
    decreases |ticks|
  {
    if |ticks| == 0 then Frames(0, fractional)
    else
      var first := FramesForTicks(rate, fractional, ticks[0]);
      var rest := TotalFrames(rate, first.fractional, ticks[1..]);
      Frames(first.count + rest.count, rest.fractional)
  }

  function TotalTicks(ticks: seq<nat>): nat {
    if |ticks| == 0 then 0 else ticks[0] + TotalTicks(ticks[1..])
  }

  lemma {:induction false} FramesFrom(rate: nat, fractional: nat, ticks: seq<nat>)
    requires fractional < 100
    ensures var t := TotalFrames(rate, fractional, ticks);
            100 * t.count + t.fractional == rate * TotalTicks(ticks) + fractional && t.fractional < 100
    decreases |ticks|
  {
    if |ticks| > 0 {
      var scaled := rate * ticks[0] + fractional;
      FramesFrom(rate, scaled % 100, ticks[1..]);
      assert rate * (ticks[0] + TotalTicks(ticks[1..])) == rate * ticks[0] + rate * TotalTicks(ticks[1..]);
    }
  }

  /**
   * No drift: however the ticks are batched, the frames produced so far are exactly the
   * whole frames of the elapsed time.
   */
  lemma NoDrift(rate: nat, ticks: seq<nat>)
    ensures TotalFrames(rate, 0, ticks).count == rate * TotalTicks(ticks) / 100
  {
    FramesFrom(rate, 0, ticks);
    var t := TotalFrames(rate, 0, ticks);
    var all := rate * TotalTicks(ticks);
    assert all == 100 * t.count + t.fractional;
  }

  /** In 32-bit operands the clock's 64-bit arithmetic cannot overflow. */
  lemma ClockFits(rate: nat, fractional: nat, ticks: nat)
    requires rate < 0x1_0000_0000 && ticks < 0x1_0000_0000 && fractional < 100
    ensures rate * ticks + fractional < 0x1_0000_0000_0000_0000
    ensures FramesForTicks(rate, fractional, ticks).fractional < 100
  {
    Product(rate, ticks, 0xffff_ffff, 0xffff_ffff);
  }

  lemma Product(a: nat, b: nat, c: nat, d: nat)
    requires a <= c && b <= d
    ensures a * b <= c * d
  {
    assert a * b <= c * b;
    assert c * b <= c * d;
  }

  class FrameClock {
    const rate: nat
    var fractional: nat
    ghost var ticks: seq<nat>
    ghost var frames: nat

    /** All frames so far are the whole frames of all ticks so far. */
    ghost predicate Valid()
      reads this
    {
      TotalFrames(rate, 0, ticks) == Frames(frames, fractional)
    }

    constructor (rate: nat)
      ensures Valid() && this.rate == rate && ticks == [] && frames == 0
    {
      this.rate, fractional := rate, 0;
      ticks, frames := [], 0;
    }

    method FramesFor(batch: nat) returns (count: nat)
      requires Valid()
      modifies this
      ensures Valid() && ticks == old(ticks) + [batch] && frames == old(frames) + count
      ensures frames == rate * TotalTicks(ticks) / 100
    {
      TotalMore(rate, 0, ticks, batch);
      NoDrift(rate, ticks + [batch]);
      var scaled := rate * batch + fractional;
      fractional := scaled % 100;
      count := scaled / 100;
      ticks, frames := ticks + [batch], frames + count;
    }
  }

  lemma {:induction false} TotalMore(rate: nat, fractional: nat, ticks: seq<nat>, batch: nat)
    ensures var t := TotalFrames(rate, fractional, ticks);
            var more := FramesForTicks(rate, t.fractional, batch);
            TotalFrames(rate, fractional, ticks + [batch]) == Frames(t.count + more.count, more.fractional)
    decreases |ticks|
  {
    if |ticks| == 0 {
      assert (ticks + [batch])[1..] == [];
    } else {
      TotalMore(rate, FramesForTicks(rate, fractional, ticks[0]).fractional, ticks[1..], batch);
      assert (ticks + [batch])[1..] == ticks[1..] + [batch];
    }
  }

  // ---------------------------------------------------------------- a source queue

  /** What became of a sample that left a queue. */
  datatype Fate = Delivered | Overflowed | Drifted

  datatype Queue = Queue(maxFrames: nat, highWater: nat, samples: seq<Sample>)

  datatype Enqueued = Enqueued(queue: Queue, dropped: nat)

  /** Newer samples push out the oldest ones beyond the bound. */
  function Enqueue(q: Queue, samples: seq<Sample>): Enqueued {
    var all := q.samples + samples;
    var dropped := if |all| > q.maxFrames then |all| - q.maxFrames else 0;
    Enqueued(q.(samples := all[dropped..]), dropped)
  }

  function Silence(n: nat): seq<Sample> {
    seq(n, _ => 0)
  }

  datatype Taken = Taken(queue: Queue, output: seq<Sample>, missing: nat, drifted: nat)

  function Min(a: nat, b: nat): nat {
    if a < b then a else b
  }

  /** One chunk of a fixed length: one old sample is skipped if the source runs ahead, silence fills a shortfall. */
  function TakeFrames(q: Queue, count: nat): Taken {
    var drifted := if |q.samples| > q.highWater then 1 else 0;
    var rest := q.samples[drifted..];
    var n := Min(count, |rest|);
    Taken(q.(samples := rest[n..]), rest[..n] + Silence(count - n), count - n, drifted)
  }

  /** An enqueue drops the oldest samples, exactly as many as the bound does not leave room for. */
  lemma EnqueueExactly(q: Queue, samples: seq<Sample>)
    ensures var e := Enqueue(q, samples);
            && e.dropped + |e.queue.samples| == |q.samples| + |samples|
            && e.queue == q.(samples := (q.samples + samples)[e.dropped..])
            && |e.queue.samples| <= q.maxFrames
            && (e.dropped > 0 ==> |e.queue.samples| == q.maxFrames)
  {
  }

  /**
   * A chunk is the next samples in order, then silence for what is missing; one sample is
   * skipped before it exactly if more than the high water mark are queued.
   */
  lemma TakeExactly(q: Queue, count: nat)
    ensures var t := TakeFrames(q, count);
            && (t.drifted == 1 <==> |q.samples| > q.highWater) && t.drifted <= 1
            && |t.output| == count && t.missing <= count
            && var given := count - t.missing;
            && t.drifted + given <= |q.samples| && (t.missing > 0 ==> t.drifted + given == |q.samples|)
            && (forall k :: 0 <= k < count ==> t.output[k] == if k < given then q.samples[t.drifted + k] else 0)
            && t.queue == q.(samples := q.samples[t.drifted + given..])
  {
    var t := TakeFrames(q, count);
    SliceSlice(q.samples, t.drifted, count - t.missing);
  }

  /** The samples that met one fate, in their order. */
  function Pick(samples: seq<Sample>, fates: seq<Fate>, fate: Fate): seq<Sample>
    requires |samples| == |fates|
  {
    if |samples| == 0 then []
    else
      var n := |samples| - 1;
      Pick(samples[..n], fates[..n], fate) + (if fates[n] == fate then [samples[n]] else [])
  }

  function Same(fate: Fate, n: nat): seq<Fate> {
    seq(n, _ => fate)
  }

  lemma {:induction false} PickMore(samples: seq<Sample>, fates: seq<Fate>, more: seq<Sample>, met: Fate, fate: Fate)
    requires |samples| == |fates|
    ensures Pick(samples + more, fates + Same(met, |more|), fate)
            == Pick(samples, fates, fate) + (if met == fate then more else [])
  {
    if |more| == 0 {
      assert samples + more == samples && fates + Same(met, 0) == fates;
      assert Pick(samples, fates, fate) + [] == Pick(samples, fates, fate);
    } else {
      var n := |more| - 1;
      PickMore(samples, fates, more[..n], met, fate);
      Appending(samples, more);
      Appending(fates, Same(met, |more|));
      assert Same(met, |more|)[..n] == Same(met, n);
      PickOne(samples + more[..n], fates + Same(met, n), more[n], met, fate);
      assert more == more[..n] + [more[n]];
      assert Pick(samples, fates, fate) + [] == Pick(samples, fates, fate);
      hide Pick;
    }
  }

  lemma Appending<T>(s: seq<T>, more: seq<T>)
    requires |more| > 0
    ensures s + more == s + more[..|more| - 1] + [more[|more| - 1]]
  {
  }

  lemma PickOne(samples: seq<Sample>, fates: seq<Fate>, x: Sample, met: Fate, fate: Fate)
    requires |samples| == |fates|
    ensures Pick(samples + [x], fates + [met], fate) == Pick(samples, fates, fate) + (if met == fate then [x] else [])
  {
    assert (samples + [x])[..|samples|] == samples && (fates + [met])[..|fates|] == fates;
  }

  lemma {:induction false} PickCounts(samples: seq<Sample>, fates: seq<Fate>)
    requires |samples| == |fates|
    ensures |Pick(samples, fates, Delivered)| + |Pick(samples, fates, Overflowed)| + |Pick(samples, fates, Drifted)|
            == |samples|
  {
    if |samples| > 0 {
      var n := |samples| - 1;
      PickCounts(samples[..n], fates[..n]);
    }
  }

  /** A sequence is found in another one in its order. */
  predicate Subsequence(part: seq<Sample>, whole: seq<Sample>) {
    if |part| == 0 then true
    else if |whole| == 0 then false
    else if part[|part| - 1] == whole[|whole| - 1] && Subsequence(part[..|part| - 1], whole[..|whole| - 1]) then true
    else Subsequence(part, whole[..|whole| - 1])
  }

  lemma {:induction false} PickIsSubsequence(samples: seq<Sample>, fates: seq<Fate>, fate: Fate)
    requires |samples| == |fates|
    ensures Subsequence(Pick(samples, fates, fate), samples)
  {
    if |samples| > 0 {
      var n := |samples| - 1;
      PickIsSubsequence(samples[..n], fates[..n], fate);
      var part := Pick(samples, fates, fate);
      if fates[n] == fate {
        assert part[..|part| - 1] == Pick(samples[..n], fates[..n], fate);
      } else {
        assert part == Pick(samples[..n], fates[..n], fate);
      }
    }
  }

  /** A queue with the record of all it was given, the fate of what left it, and what it handed on. */
  datatype Log = Log(queue: Queue, input: seq<Sample>, fates: seq<Fate>, handed: seq<Sample>)

  predicate LogOk(l: Log) {
    && |l.fates| <= |l.input|
    && l.queue.samples == l.input[|l.fates|..]
    && |l.queue.samples| <= l.queue.maxFrames
    && l.handed == Pick(l.input[..|l.fates|], l.fates, Delivered)
  }

  function LogEnqueue(l: Log, samples: seq<Sample>): Log {
    var e := Enqueue(l.queue, samples);
    Log(e.queue, l.input + samples, l.fates + Same(Overflowed, e.dropped), l.handed)
  }

  function LogTake(l: Log, count: nat): Log {
    var t := TakeFrames(l.queue, count);
    var n := count - t.missing;
    Log(t.queue, l.input, l.fates + Same(Drifted, t.drifted) + Same(Delivered, n), l.handed + t.output[..n])
  }

  lemma EnqueueKeeps(l: Log, samples: seq<Sample>)
    requires LogOk(l)
    ensures LogOk(LogEnqueue(l, samples))
  {
    var e := Enqueue(l.queue, samples);
    var m := LogEnqueue(l, samples);
    var k := |l.fates|;
    var all := l.input + samples;
    assert all[k..] == l.queue.samples + samples;
    assert all[k + e.dropped..] == all[k..][e.dropped..];
    var left := all[k..k + e.dropped];
    assert all[..k + e.dropped] == l.input[..k] + left;
    PickMore(l.input[..k], l.fates, left, Overflowed, Delivered);
  }

  lemma SliceSlice(s: seq<Sample>, a: nat, b: nat)
    requires a + b <= |s|
    ensures s[a..][b..] == s[a + b..] && s[a..][..b] == s[a..a + b] && s[..a + b] == s[..a] + s[a..a + b]
  {
  }

  /** What a chunk takes from the front: a skipped sample, then the ones handed on. */
  lemma TakeIs(l: Log, count: nat)
    requires LogOk(l)
    ensures var t := TakeFrames(l.queue, count);
            var k, n := |l.fates|, count - t.missing;
            && t.missing <= count && k + t.drifted + n <= |l.input|
            && t.queue.samples == l.input[k + t.drifted + n..]
            && t.output == l.input[k + t.drifted..k + t.drifted + n] + Silence(t.missing)
  {
    hide Pick;
    var t := TakeFrames(l.queue, count);
    var k, n := |l.fates|, count - t.missing;
    SliceSlice(l.input, k, t.drifted);
    SliceSlice(l.input, k + t.drifted, n);
  }

  lemma TakeKeeps(l: Log, count: nat)
    requires LogOk(l)
    ensures LogOk(LogTake(l, count))
    ensures var t := TakeFrames(l.queue, count);
            && |t.output| == count && t.missing <= count
            && t.output == LogTake(l, count).handed[|l.handed|..] + Silence(t.missing)
  {
    hide TakeFrames, Pick;
    TakeIs(l, count);
    var t := TakeFrames(l.queue, count);
    var k, n := |l.fates|, count - t.missing;
    var skipped := l.input[k..k + t.drifted];
    var given := l.input[k + t.drifted..k + t.drifted + n];
    SliceSlice(l.input, k, t.drifted);
    SliceSlice(l.input, k + t.drifted, n);
    PickMore(l.input[..k], l.fates, skipped, Drifted, Delivered);
    PickMore(l.input[..k + t.drifted], l.fates + Same(Drifted, t.drifted), given, Delivered, Delivered);
    assert t.output[..n] == given && l.handed + [] == l.handed;
    assert (l.handed + given)[|l.handed|..] == given;
    TakeShrinks(l.queue, count);
  }

  lemma TakeShrinks(q: Queue, count: nat)
    ensures var t := TakeFrames(q, count);
            |t.queue.samples| <= |q.samples| && t.queue.maxFrames == q.maxFrames && t.queue.highWater == q.highWater
  {
  }

  lemma PopStep(rest: seq<Sample>, k: nat)
    requires k < |rest|
    ensures rest[k..][0] == rest[k] && rest[k..][1..] == rest[k + 1..] && rest[..k] + [rest[k]] == rest[..k + 1]
  {
  }

  lemma SilenceStep(s: seq<Sample>, n: nat)
    ensures s + Silence(n) + [0] == s + Silence(n + 1) && s + Silence(0) == s
  {
  }

  datatype Event = Push(samples: seq<Sample>) | Pull(count: nat)

  function Step(l: Log, e: Event): Log {
    match e
    case Push(samples) => LogEnqueue(l, samples)
    case Pull(count) => LogTake(l, count)
  }

  function Run(l: Log, events: seq<Event>): Log
    decreases |events|
  {
    if |events| == 0 then l else Run(Step(l, events[0]), events[1..])
  }

  lemma {:induction false} RunKeeps(l: Log, events: seq<Event>)
    requires LogOk(l)
    ensures LogOk(Run(l, events))
    decreases |events|
  {
    if |events| > 0 {
      hide LogOk;
      match events[0] {
        case Push(samples) => EnqueueKeeps(l, samples);
        case Pull(count) => TakeKeeps(l, count);
      }
      RunKeeps(Step(l, events[0]), events[1..]);
    }
  }

  function NewLog(maxFrames: nat, highWater: nat): Log {
    Log(Queue(maxFrames, highWater, []), [], [], [])
  }

  /**
   * Conservation over every run: each sample given to a queue was handed on, or dropped
   * for overflow, or dropped for drift, or is still queued; what was handed on is a
   * subsequence of the input; and the queue never holds more than its bound.
   */
  lemma QueueConserves(maxFrames: nat, highWater: nat, events: seq<Event>)
    ensures var l := Run(NewLog(maxFrames, highWater), events);
            && |l.fates| <= |l.input|
            && var gone := l.input[..|l.fates|];
            && |l.input| == |l.handed| + |Pick(gone, l.fates, Overflowed)| + |Pick(gone, l.fates, Drifted)|
                            + |l.queue.samples|
            && Subsequence(l.handed, gone)
            && l.queue.samples == l.input[|l.fates|..]
            && |l.queue.samples| <= l.queue.maxFrames
  {
    RunKeeps(NewLog(maxFrames, highWater), events);
    var l := Run(NewLog(maxFrames, highWater), events);
    PickCounts(l.input[..|l.fates|], l.fates);
    PickIsSubsequence(l.input[..|l.fates|], l.fates, Delivered);
  }

  class SourceQueue {
    const maxFrames: nat
    const highWater: nat
    var samples: seq<Sample>
    ghost var input: seq<Sample>
    ghost var fates: seq<Fate>
    ghost var handed: seq<Sample>

    ghost function View(): Log
      reads this
    {
      Log(Queue(maxFrames, highWater, samples), input, fates, handed)
    }

    ghost predicate Valid()
      reads this
    {
      LogOk(View())
    }

    constructor (maxFrames: nat, highWater: nat)
      ensures Valid() && View() == NewLog(maxFrames, highWater)
    {
      this.maxFrames, this.highWater := maxFrames, highWater;
      samples, input, fates, handed := [], [], [], [];
    }

    method Add(more: seq<Sample>) returns (dropped: nat)
      requires Valid()
      modifies this
      ensures Valid() && View() == LogEnqueue(old(View()), more)
      ensures dropped == Enqueue(old(View()).queue, more).dropped
    {
      EnqueueKeeps(View(), more);
      samples := samples + more;
      dropped := if |samples| > maxFrames then |samples| - maxFrames else 0;
      if dropped != 0 {
        samples := samples[dropped..];
      }
      input, fates := input + more, fates + Same(Overflowed, dropped);
    }

    method TakeForTimeline(count: nat) returns (output: seq<Sample>, missing: nat, drifted: nat)
      requires Valid()
      modifies this
      ensures Valid() && View() == LogTake(old(View()), count)
      ensures Taken(View().queue, output, missing, drifted) == TakeFrames(old(View()).queue, count)
    {
      hide LogOk, LogTake;
      TakeKeeps(View(), count);
      ghost var q := View().queue;
      drifted := if |samples| > highWater then 1 else 0;
      if drifted != 0 {
        samples := samples[1..];
      }
      output, missing := PopFrames(count);
      fates := fates + Same(Drifted, drifted) + Same(Delivered, count - missing);
      handed := handed + output[..count - missing];
      assert View() == LogTake(old(View()), count) by {
        TakeLogged(old(View()), count, drifted, output, missing, View());
      }
    }

    /** Pops frames one by one, and counts those that are not there. */
    method PopFrames(count: nat) returns (output: seq<Sample>, missing: nat)
      modifies this`samples
      ensures var n := Min(count, |old(samples)|);
              && missing == count - n && samples == old(samples)[n..]
              && output == old(samples)[..n] + Silence(count - n)
    {
      ghost var rest := samples;
      output, missing := [], 0;
      var i := 0;
      SilenceStep([], 0);
      while i < count
        invariant i <= count && missing <= i && i - missing <= |rest|
        invariant missing > 0 ==> i - missing == |rest|
        invariant samples == rest[i - missing..] && output == rest[..i - missing] + Silence(missing)
      {
        SilenceStep(rest[..i - missing], missing);
        if |samples| > 0 {
          PopStep(rest, i);
          SilenceStep(rest[..i + 1], 0);
          output := output + [samples[0]];
          samples := samples[1..];
        } else {
          output := output + [0];
          missing := missing + 1;
        }
        i := i + 1;
      }
    }
  }

  lemma TakeLogged(l: Log, count: nat, drifted: nat, output: seq<Sample>, missing: nat, after: Log)
    requires LogOk(l) && drifted == (if |l.queue.samples| > l.queue.highWater then 1 else 0)
    requires var rest := l.queue.samples[drifted..];
             var n := Min(count, |rest|);
             && missing == count - n && output == rest[..n] + Silence(count - n)
             && after == Log(l.queue.(samples := rest[n..]), l.input,
                             l.fates + Same(Drifted, drifted) + Same(Delivered, count - missing),
                             l.handed + output[..count - missing])
    ensures after == LogTake(l, count)
    ensures TakeFrames(l.queue, count) == Taken(after.queue, output, missing, drifted)
  {
  }

  // ---------------------------------------------------------------- the mix

  /** Division that rounds toward zero. */
  function TruncatedDiv(a: int, b: int): int
    requires b > 0
  {
    if a >= 0 then a / b else -((-a) / b)
  }

  function Clamp(x: int): Sample {
    if x < -0x8000 then -0x8000 else if x > 0x7fff then 0x7fff else x
  }

  function MixedValue(mic: Sample, system: Sample, micOn: bool, systemOn: bool, micGain: nat, systemGain: nat): int {
    if micOn && systemOn then TruncatedDiv(mic * micGain + system * systemGain, 200)
    else if micOn then TruncatedDiv(mic * micGain, 100)
    else TruncatedDiv(system * systemGain, 100)
  }

  function Mixed(mic: Sample, system: Sample, micOn: bool, systemOn: bool, micGain: nat, systemGain: nat): Sample {
    Clamp(MixedValue(mic, system, micOn, systemOn, micGain, systemGain))
  }

  /**
   * A weighted sum divided and fitted into a sample: the quotient nearest to zero of which
   * the division leaves less than the divisor over, or the bound it passes.
   */
  predicate Scaled(p: int, divisor: int, y: Sample) {
    if p >= 0x8000 * divisor then y == 0x7fff
    else if p <= -0x8001 * divisor then y == -0x8000
    else
      var left := p - divisor * y;
      -divisor < left < divisor && (left > 0 ==> p > 0) && (left < 0 ==> p < 0)
  }

  lemma ClampedScales(p: int, divisor: int, y: Sample)
    requires divisor == 100 || divisor == 200
    requires y == Clamp(TruncatedDiv(p, divisor))
    ensures Scaled(p, divisor, y)
  {
  }

  /** The sum an output sample stands for: each source that is on, weighted by its own gain. */
  function Weighted(mic: Sample, system: Sample, micOn: bool, systemOn: bool, micGain: nat, systemGain: nat): int {
    (if micOn then mic * micGain else 0) + (if systemOn then system * systemGain else 0)
  }

  /**
   * The mix of two samples: only what is on counts, each source with its own gain; two
   * sources share the range, so each has half of it. A source that is off gives nothing.
   */
  lemma MixScales(mic: Sample, system: Sample, micOn: bool, systemOn: bool, micGain: nat, systemGain: nat)
    requires !micOn && !systemOn ==> system == 0
    ensures Scaled(Weighted(mic, system, micOn, systemOn, micGain, systemGain), if micOn && systemOn then 200 else 100,
                   Mixed(mic, system, micOn, systemOn, micGain, systemGain))
  {
    hide Scaled, Clamp, TruncatedDiv;
    var p := Weighted(mic, system, micOn, systemOn, micGain, systemGain);
    if !micOn && !systemOn {
      assert system * systemGain == 0;
    }
    ClampedScales(p, if micOn && systemOn then 200 else 100, Mixed(mic, system, micOn, systemOn, micGain, systemGain));
  }

  /**
   * At unity gain nothing is ever clipped: two sources give half their sum rounded toward
   * zero, and a single source passes unchanged.
   */
  lemma UnityGainNeverClips(mic: Sample, system: Sample, micOn: bool, systemOn: bool)
    ensures Mixed(mic, system, micOn, systemOn, 100, 100) == MixedValue(mic, system, micOn, systemOn, 100, 100)
    ensures Mixed(mic, system, micOn, systemOn, 100, 100)
            == if micOn && systemOn then TruncatedDiv(mic + system, 2) else if micOn then mic else system
  {
    assert mic * 100 + system * 100 == (mic + system) * 100;
  }

  /** Two sources clip exactly when their weighted sum leaves twice the sample range. */
  lemma DualClipsExactly(mic: Sample, system: Sample, micGain: nat, systemGain: nat)
    ensures var sum := mic * micGain + system * systemGain;
            Mixed(mic, system, true, true, micGain, systemGain) == MixedValue(mic, system, true, true, micGain, systemGain)
            <==> -0x8000 * 200 - 200 < sum < 0x8000 * 200
  {
    var sum := mic * micGain + system * systemGain;
    assert MixedValue(mic, system, true, true, micGain, systemGain) == TruncatedDiv(sum, 200);
    TruncatedRange(sum);
  }

  lemma TruncatedRange(sum: int)
    ensures -0x8000 <= TruncatedDiv(sum, 200) <= 0x7fff <==> -0x8000 * 200 - 200 < sum < 0x8000 * 200
  {
  }

  function MixAll(mic: seq<Sample>, system: seq<Sample>, micOn: bool, systemOn: bool, micGain: nat, systemGain: nat)
    : seq<Sample>
    requires |mic| == |system|
  {
    seq(|mic|, i requires 0 <= i < |mic| => Mixed(mic[i], system[i], micOn, systemOn, micGain, systemGain))
  }

  datatype TimelineResult = TimelineResult(micMissing: nat, systemMissing: nat, micDrifted: nat, systemDrifted: nat)

  class AudioTimeline {
    const micOn: bool
    const systemOn: bool
    const mic: SourceQueue
    const system: SourceQueue

    ghost predicate Valid()
      reads this, mic, system
    {
      mic != system && mic.Valid() && system.Valid()
    }

    constructor (micOn: bool, systemOn: bool, maxFrames: nat, highWater: nat)
      ensures Valid() && fresh(mic) && fresh(system) && this.micOn == micOn && this.systemOn == systemOn
    {
      this.micOn, this.systemOn := micOn, systemOn;
      var first := new SourceQueue(maxFrames, highWater);
      var second := new SourceQueue(maxFrames, highWater);
      mic, system := first, second;
    }

    /**
     * One chunk of exactly the asked length. A source that is off contributes silence and
     * its queue is left alone; the queues drain independently of each other.
     */
    method MixWithGains(count: nat, micGain: nat, systemGain: nat) returns (output: seq<Sample>, result: TimelineResult)
      requires Valid()
      modifies mic, system
      ensures Valid() && |output| == count
      ensures mic.View() == if micOn then LogTake(old(mic.View()), count) else old(mic.View())
      ensures system.View() == if systemOn then LogTake(old(system.View()), count) else old(system.View())
      ensures var m := TakeFrames(old(mic.View()).queue, count);
              var s := TakeFrames(old(system.View()).queue, count);
              && result == TimelineResult(if micOn then m.missing else 0, if systemOn then s.missing else 0,
                                          if micOn then m.drifted else 0, if systemOn then s.drifted else 0)
              && var fromMic := if micOn then m.output else Silence(count);
                 var fromSystem := if systemOn then s.output else Silence(count);
              && |fromMic| == |fromSystem| == count
              && output == MixAll(fromMic, fromSystem, micOn, systemOn, micGain, systemGain)
              && forall k :: 0 <= k < count ==>
                   Scaled((if micOn then m.output[k] * micGain else 0) + (if systemOn then s.output[k] * systemGain else 0),
                          if micOn && systemOn then 200 else 100, output[k])
    {
      hide LogOk, LogTake, Mixed, Scaled;
      var fromMic, micMissing, micDrifted := Silence(count), 0, 0;
      if micOn {
        fromMic, micMissing, micDrifted := mic.TakeForTimeline(count);
      }
      var fromSystem, systemMissing, systemDrifted := Silence(count), 0, 0;
      if systemOn {
        fromSystem, systemMissing, systemDrifted := system.TakeForTimeline(count);
      }
      result := TimelineResult(micMissing, systemMissing, micDrifted, systemDrifted);
      forall k | 0 <= k < count
        ensures Scaled(Weighted(fromMic[k], fromSystem[k], micOn, systemOn, micGain, systemGain),
                       if micOn && systemOn then 200 else 100,
                       Mixed(fromMic[k], fromSystem[k], micOn, systemOn, micGain, systemGain))
      {
        MixScales(fromMic[k], fromSystem[k], micOn, systemOn, micGain, systemGain);
      }
      output := [];
      var i := 0;
      while i < count
        invariant i <= count && |output| == i && |fromMic| == |fromSystem| == count
        invariant forall k :: 0 <= k < i ==>
                    output[k] == Mixed(fromMic[k], fromSystem[k], micOn, systemOn, micGain, systemGain)
      {
        output := output + [Mixed(fromMic[i], fromSystem[i], micOn, systemOn, micGain, systemGain)];
        i := i + 1;
      }
    }
  }
}
