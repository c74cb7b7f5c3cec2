/**
 * What a tick runs, what it records as missed and what a report makes of it: told from
 * the clock, the kinds of actions and the results alone.
 */
module SchedulerFiring {
  import opened Wrappers
  import opened SchedulerState
  import opened SchedulerRuns
  import opened SchedulerSafety
  import opened SchedulerEffects
  import opened SchedulerLists

  // ---------------------------------------------------------------- what is late

  const LATE: Option<string> := Some("LATE_GRACE_EXCEEDED")

  /** What is run and what is recorded as missed, by the clock: each action goes to exactly one of them, in order. */
  predicate SplitByClock(t: Task, now: int, run: seq<DueAction>, missed: seq<ActionResult>) {
    && (forall j :: 0 <= j < |run| ==>
          run[j].index < |t.actions| && run[j].action == t.actions[run[j].index] && !ComesTooLate(t, now, run[j].index))
    && (forall j :: 0 <= j < |missed| ==>
          && missed[j].index < |t.actions| && ComesTooLate(t, now, missed[j].index)
          && missed[j] == ActionResult(missed[j].index, ActionMissed, LATE))
    && (forall k :: 0 <= k < |t.actions| && !ComesTooLate(t, now, k) ==> DueAction(k, t.actions[k]) in run)
    && (forall k :: 0 <= k < |t.actions| && ComesTooLate(t, now, k) ==> ActionResult(k, ActionMissed, LATE) in missed)
    && (forall i, j :: 0 <= i < j < |run| ==> run[i].index < run[j].index)
    && (forall i, j :: 0 <= i < j < |missed| ==> missed[i].index < missed[j].index)
  }

  lemma {:induction false} ToMissAre(t: Task, now: int, from: nat)
    requires from <= |t.actions|
    ensures forall j :: 0 <= j < |ToMiss(t, now, from)| ==>
              ToMiss(t, now, from)[j] == ActionResult(ToMiss(t, now, from)[j].index, ActionMissed, LATE)
    decreases |t.actions| - from
  {
    hide TooLate;
    if from < |t.actions| {
      ToMissAre(t, now, from + 1);
    }
  }

  /** Firing splits a task's actions by the clock, however far it is off. */
  lemma SplitsByClock(t: Task, now: int)
    ensures SplitByClock(t, now, ToRun(t, now, 0), ToMiss(t, now, 0))
  {
    forall k: nat | k < |t.actions| ensures TooLate(t, now, t.actions[k]) <==> ComesTooLate(t, now, k) {
      TooLateIs(t, now, k);
    }
    hide ToRun, ToMiss, TooLate, ComesTooLate;
    ToRunFrom(t, now, 0);
    ToMissFrom(t, now, 0);
    ToMissAre(t, now, 0);
  }

  // ---------------------------------------------------------------- what a tick does

  /** What was handed out for one fired task, and what was recorded of it. */
  predicate FiredAs(t: Task, execution: string, now: int, d: Option<Due>, r: Record) {
    var nothing := forall k :: 0 <= k < |t.actions| ==> ComesTooLate(t, now, k);
    && (d.None? <==> nothing)
    && SplitByClock(t, now, if d.Some? then d.value.actions else [], r.results)
    && (d.Some? ==> d.value.execution == execution && d.value.task == t.id && d.value.revision == t.revision
                    && d.value.name == t.name && d.value.scheduledFor == t.trigger.due)
    && r.execution == execution && r.task == t.id && r.revision == t.revision && r.name == t.name
    && r.scheduledFor == t.trigger.due && r.started == now
    && (now - t.trigger.due <= I64_MAX ==> r.lateBy == if now < t.trigger.due then 0 else now - t.trigger.due)
    && r.finished == (if nothing then Some(now) else None)
    && r.result == (if nothing then ExecutionMissed else ExecutionRunning)
  }

  lemma FiredIs(t: Task, execution: string, now: int)
    ensures var d := FiredDue(t, execution, now);
            && |d| <= 1
            && FiredAs(t, execution, now, if |d| == 1 then Some(d[0]) else None, FiredRecord(t, execution, now))
  {
    SplitsByClock(t, now);
    hide ToRun, ToMiss, ComesTooLate;
    var run := ToRun(t, now, 0);
    if run != [] {
      assert !ComesTooLate(t, now, run[0].index);
    }
  }

  /** The tasks that a tick fires. */
  predicate IsDue(t: Task, now: int) {
    t.enabled && t.trigger.due <= now
  }

  /** Every hand-out and every record of a tick is that of a due task, under its own execution id. */
  predicate FromDueTask(tasks: seq<Task>, ids: seq<string>, now: int, i: nat, d: Option<Due>, r: Record)
    requires |ids| == |tasks|
  {
    i < |tasks| && IsDue(tasks[i], now) && FiredAs(tasks[i], ids[i], now, d, r)
  }

  lemma {:induction false} FireYields(tasks: seq<Task>, ids: seq<string>, now: int, i: nat)
      returns (d: Option<Due>, r: Record)
    requires |ids| == |tasks| && TasksOk(tasks) && i < |tasks| && IsDue(tasks[i], now)
    ensures FiredAs(tasks[i], ids[i], now, d, r)
    ensures r in Fire(tasks, ids, now).records && (d.Some? ==> d.value in Fire(tasks, ids, now).due)
  {
    hide FiredDue, FiredRecord, FiredTask, FiredAs;
    if i == 0 {
      FiredIs(tasks[0], ids[0], now);
      var handed := FiredDue(tasks[0], ids[0], now);
      d := if |handed| == 1 then Some(handed[0]) else None;
      r := FiredRecord(tasks[0], ids[0], now);
    } else {
      d, r := FireYields(tasks[1..], ids[1..], now, i - 1);
    }
  }

  lemma {:induction false} DueComesFrom(tasks: seq<Task>, ids: seq<string>, now: int, d: Due) returns (i: nat, r: Record)
    requires |ids| == |tasks| && TasksOk(tasks) && d in Fire(tasks, ids, now).due
    ensures FromDueTask(tasks, ids, now, i, Some(d), r)
  {
    hide FiredDue, FiredRecord, FiredTask, FiredAs;
    var rest := Fire(tasks[1..], ids[1..], now).due;
    if d in rest {
      var at, record := DueComesFrom(tasks[1..], ids[1..], now, d);
      i, r := at + 1, record;
    } else {
      FiredIs(tasks[0], ids[0], now);
      i, r := 0, FiredRecord(tasks[0], ids[0], now);
    }
  }

  lemma {:induction false} RecordComesFrom(tasks: seq<Task>, ids: seq<string>, now: int, r: Record)
    returns (i: nat, d: Option<Due>)
    requires |ids| == |tasks| && TasksOk(tasks) && r in Fire(tasks, ids, now).records
    ensures FromDueTask(tasks, ids, now, i, d, r)
  {
    hide FiredDue, FiredRecord, FiredTask, FiredAs;
    var rest := Fire(tasks[1..], ids[1..], now).records;
    if r in rest {
      var at, handed := RecordComesFrom(tasks[1..], ids[1..], now, r);
      i, d := at + 1, handed;
    } else {
      FiredIs(tasks[0], ids[0], now);
      var handed := FiredDue(tasks[0], ids[0], now);
      i, d := 0, if |handed| == 1 then Some(handed[0]) else None;
    }
  }

  lemma FireOnlyDue(tasks: seq<Task>, ids: seq<string>, now: int)
    requires |ids| == |tasks| && TasksOk(tasks)
    ensures forall d :: d in Fire(tasks, ids, now).due ==> exists i, r :: FromDueTask(tasks, ids, now, i, Some(d), r)
    ensures forall r :: r in Fire(tasks, ids, now).records ==> exists i, d :: FromDueTask(tasks, ids, now, i, d, r)
  {
    hide Fire, FromDueTask;
    forall d | d in Fire(tasks, ids, now).due ensures exists i, r :: FromDueTask(tasks, ids, now, i, Some(d), r) {
      var i, r := DueComesFrom(tasks, ids, now, d);
    }
    forall r | r in Fire(tasks, ids, now).records ensures exists i, d :: FromDueTask(tasks, ids, now, i, d, r) {
      var i, d := RecordComesFrom(tasks, ids, now, r);
    }
  }

  lemma {:induction false} FewRecords(tasks: seq<Task>, ids: seq<string>, now: int)
    requires |ids| == |tasks|
    ensures |Fire(tasks, ids, now).records| <= |tasks|
  {
    hide FiredDue, FiredRecord, FiredTask, DueBy;
    if |tasks| > 0 {
      FewRecords(tasks[1..], ids[1..], now);
    }
  }

  /** The history is kept from its newer end: nothing goes before it is 200 records back. */
  lemma NewestStay(history: seq<Record>)
    ensures var kept := Pruned(history);
            var n := |history| - |kept|;
            && 0 <= n && kept == history[n..] && |kept| <= 200 && (n > 0 ==> |kept| == 200)
  {
  }

  /** A tick, told from the clock. */
  ghost predicate TickedByClock(s: State, ids: seq<string>, now: int, after: State, due: seq<Due>)
    requires |ids| == |s.tasks|
  {
    && |after.tasks| == |s.tasks| && after == s.(tasks := after.tasks, history := after.history)
    && (forall i :: 0 <= i < |s.tasks| ==>
          if IsDue(s.tasks[i], now) then
            exists d: Option<Due>, r: Record ::
              && FiredAs(s.tasks[i], ids[i], now, d, r) && r in after.history && (d.Some? ==> d.value in due)
              && after.tasks[i] == s.tasks[i].(enabled := false, nextDue := None, lastExecution := Some(ids[i]),
                                               state := if d.Some? then Running else Missed)
          else after.tasks[i] == s.tasks[i])
    && (forall d :: d in due ==> exists i, r :: FromDueTask(s.tasks, ids, now, i, Some(d), r))
    && exists n, m :: 0 <= n <= |s.history| && 0 <= m <= |after.history|
         && after.history[..m] == s.history[n..]
         && forall r :: r in after.history[m..] ==> exists i, d :: FromDueTask(s.tasks, ids, now, i, d, r)
  }

  /**
   * Each task that is enabled and due is handed out under its execution id with exactly the
   * actions that do not come too late, unless all do; what comes too late is recorded as
   * missed, in a record at the end of the history. Nothing else is handed out, recorded or
   * changed.
   */
  lemma TickByClock(s: State, ids: seq<string>, now: int)
    requires TasksOk(s.tasks) && |ids| == |s.tasks| <= 200
    ensures TickedByClock(s, ids, now, Tick(s, ids, now).state, Tick(s, ids, now).due)
  {
    hide Fire, Pruned, FiredAs, FromDueTask, FiredTask;
    var after, due := Tick(s, ids, now).state, Tick(s, ids, now).due;
    var fired := Fire(s.tasks, ids, now);
    FireOnlyDue(s.tasks, ids, now);
    FewRecords(s.tasks, ids, now);
    FireIs(s.tasks, ids, now);
    NewestStay(s.history + fired.records);
    var n := |s.history + fired.records| - |after.history|;
    var m := |s.history| - n;
    assert after.history[..m] == s.history[n..] && after.history[m..] == fired.records;
    forall i | 0 <= i < |s.tasks| && IsDue(s.tasks[i], now)
      ensures exists d: Option<Due>, r: Record ::
                && FiredAs(s.tasks[i], ids[i], now, d, r) && r in after.history && (d.Some? ==> d.value in due)
                && after.tasks[i] == s.tasks[i].(enabled := false, nextDue := None, lastExecution := Some(ids[i]),
                                                 state := if d.Some? then Running else Missed)
    {
      var d, r := FireYields(s.tasks, ids, now, i);
      assert r in after.history[m..];
      FiredState(s.tasks[i], ids[i], now, d, r);
    }
  }

  lemma FiredState(t: Task, execution: string, now: int, d: Option<Due>, r: Record)
    requires FiredAs(t, execution, now, d, r)
    ensures FiredTask(t, execution, now)
            == t.(enabled := false, nextDue := None, lastExecution := Some(execution),
                  state := if d.Some? then Running else Missed)
  {
    SplitsByClock(t, now);
    hide ComesTooLate, ToRun, ToMiss;
    var run := ToRun(t, now, 0);
    if run != [] {
      assert !ComesTooLate(t, now, run[0].index);
    }
  }

  /** Where nothing is due there is nothing to do. */
  lemma NothingDue(s: State, ids: seq<string>, now: int)
    requires TasksOk(s.tasks) && |ids| == |s.tasks| && !AnyDue(s.tasks, now)
    ensures TickedByClock(s, ids, now, s, [])
  {
    hide FiredAs, FromDueTask;
    forall i | 0 <= i < |s.tasks| ensures !IsDue(s.tasks[i], now) {
      assert !DueBy(s.tasks[i], now);
    }
    assert s.history[..|s.history|] == s.history[0..] && s.history[|s.history|..] == [];
  }

  /** So does a tick in every reachable state. */
  lemma TicksOfAnyRun(steps: seq<Step>, ids: seq<string>, now: int)
    requires Run(START, steps).memory.Some? && |ids| == |Run(START, steps).memory.value.tasks|
    ensures var s := Run(START, steps).memory.value;
            TickedByClock(s, ids, now, Tick(s, ids, now).state, Tick(s, ids, now).due)
  {
    hide Run, Tick, TickedByClock;
    assert Inv(START);
    RunKeeps(START, steps);
    ListsStayBounded(steps);
    TickByClock(Run(START, steps).memory.value, ids, now);
  }
}
