/** What single operations of the scheduler achieve. */
module SchedulerEffects {
  import opened Wrappers
  import opened SchedulerState
  import opened SchedulerRuns
  import opened SchedulerSafety

  // ---------------------------------------------------------------- a tick

  predicate RunsAction(t: Task, now: int, k: nat) {
    exists j :: 0 <= j < |ToRun(t, now, 0)| && ToRun(t, now, 0)[j].index == k
  }

  lemma {:induction false} ToRunFrom(t: Task, now: int, from: nat)
    requires from <= |t.actions|
    ensures var r := ToRun(t, now, from);
            && (forall j :: 0 <= j < |r| ==>
                  from <= r[j].index < |t.actions| && r[j].action == t.actions[r[j].index] && !TooLate(t, now, r[j].action))
            && (forall i, j :: 0 <= i < j < |r| ==> r[i].index < r[j].index)
            && (forall k :: from <= k < |t.actions| && !TooLate(t, now, t.actions[k]) ==> DueAction(k, t.actions[k]) in r)
    decreases |t.actions| - from
  {
    if from < |t.actions| {
      hide TooLate;
      ToRunFrom(t, now, from + 1);
      var rest := ToRun(t, now, from + 1);
      var r := ToRun(t, now, from);
      forall k | from <= k < |t.actions| && !TooLate(t, now, t.actions[k]) ensures DueAction(k, t.actions[k]) in r {
        if k == from {
          assert r[0] == DueAction(k, t.actions[k]);
        } else {
          assert DueAction(k, t.actions[k]) in rest;
        }
      }
    }
  }

  lemma {:induction false} ToMissFrom(t: Task, now: int, from: nat)
    requires from <= |t.actions|
    ensures var r := ToMiss(t, now, from);
            && (forall j :: 0 <= j < |r| ==>
                  from <= r[j].index < |t.actions| && TooLate(t, now, t.actions[r[j].index]) && r[j].state == ActionMissed)
            && (forall i, j :: 0 <= i < j < |r| ==> r[i].index < r[j].index)
            && (forall k :: from <= k < |t.actions| && TooLate(t, now, t.actions[k]) ==>
                  ActionResult(k, ActionMissed, Some("LATE_GRACE_EXCEEDED")) in r)
    decreases |t.actions| - from
  {
    if from < |t.actions| {
      hide TooLate;
      ToMissFrom(t, now, from + 1);
      var rest := ToMiss(t, now, from + 1);
      var r := ToMiss(t, now, from);
      forall k | from <= k < |t.actions| && TooLate(t, now, t.actions[k])
        ensures ActionResult(k, ActionMissed, Some("LATE_GRACE_EXCEEDED")) in r
      {
        if k == from {
          assert r[0] == ActionResult(k, ActionMissed, Some("LATE_GRACE_EXCEEDED"));
        } else {
          assert ActionResult(k, ActionMissed, Some("LATE_GRACE_EXCEEDED")) in rest;
        }
      }
    }
  }

  lemma {:induction false} SplitCounts(t: Task, now: int, from: nat)
    requires from <= |t.actions|
    ensures |ToRun(t, now, from)| + |ToMiss(t, now, from)| == |t.actions| - from
    decreases |t.actions| - from
  {
    if from < |t.actions| {
      hide TooLate;
      SplitCounts(t, now, from + 1);
    }
  }

  /** More than five minutes after its time nothing is begun any more; recording and uploading can still be stopped. */
  predicate ComesTooLate(t: Task, now: int, k: nat)
    requires k < |t.actions|
  {
    && now - t.trigger.due > 300_000
    && match t.actions[k]
       case StartRecording => true
       case StopRecording => false
       case SetUploadEnabled(on) => on
       case SaveRecent(_, _, _) => true
  }

  lemma TooLateIs(t: Task, now: int, k: nat)
    requires k < |t.actions|
    ensures TooLate(t, now, t.actions[k]) <==> ComesTooLate(t, now, k)
  {
  }

  /**
   * Firing splits a task's actions: each index goes, in order and once, either to the
   * actions to run or to those recorded as missed, and it is missed exactly when it comes
   * too late by the clock.
   */
  lemma SplitIsExact(t: Task, now: int, k: nat)
    requires k < |t.actions|
    ensures RunsAction(t, now, k) <==> !ComesTooLate(t, now, k)
    ensures RunsAction(t, now, k) <==> DueAction(k, t.actions[k]) in ToRun(t, now, 0)
    ensures ActionResult(k, ActionMissed, Some("LATE_GRACE_EXCEEDED")) in ToMiss(t, now, 0) <==> ComesTooLate(t, now, k)
    ensures |ToRun(t, now, 0)| + |ToMiss(t, now, 0)| == |t.actions|
    ensures forall i, j :: 0 <= i < j < |ToRun(t, now, 0)| ==> ToRun(t, now, 0)[i].index < ToRun(t, now, 0)[j].index
    ensures forall i, j :: 0 <= i < j < |ToMiss(t, now, 0)| ==> ToMiss(t, now, 0)[i].index < ToMiss(t, now, 0)[j].index
  {
    hide ToRun, ToMiss, TooLate, ComesTooLate;
    TooLateIs(t, now, k);
    ToRunFrom(t, now, 0);
    ToMissFrom(t, now, 0);
    SplitCounts(t, now, 0);
  }

  lemma {:induction false} NextWakeupIs(tasks: seq<Task>)
    requires forall i :: 0 <= i < |tasks| ==> TaskOk(tasks[i])
    ensures match NextWakeup(tasks)
            case None => forall i :: 0 <= i < |tasks| ==> !tasks[i].enabled
            case Some(at) =>
              && (exists i :: 0 <= i < |tasks| && tasks[i].enabled && tasks[i].trigger.due == at)
              && (forall i :: 0 <= i < |tasks| && tasks[i].enabled ==> at <= tasks[i].trigger.due)
  {
    if |tasks| > 0 {
      NextWakeupIs(tasks[1..]);
      assert tasks == [tasks[0]] + tasks[1..];
      assert forall i :: 0 < i < |tasks| ==> tasks[i] == tasks[1..][i - 1];
      match NextWakeup(tasks[1..])
      case None =>
      case Some(at) =>
        var i :| 0 <= i < |tasks[1..]| && tasks[1..][i].enabled && tasks[1..][i].trigger.due == at;
        assert tasks[i + 1].enabled;
    }
  }

  /**
   * A tick fires exactly the tasks that are armed and due: they are disarmed under the
   * same revision with the execution that ran them, all others are untouched, and the
   * next time to wake up is then later than now.
   */
  lemma TickFiresExactly(s: State, ids: seq<string>, now: int)
    requires TasksOk(s.tasks) && |ids| == |s.tasks|
    ensures var after := Tick(s, ids, now).state.tasks;
            && |after| == |s.tasks|
            && (forall i :: 0 <= i < |after| ==>
                  if s.tasks[i].enabled && s.tasks[i].trigger.due <= now then
                    !after[i].enabled && after[i].lastExecution == Some(ids[i])
                    && after[i].id == s.tasks[i].id && after[i].revision == s.tasks[i].revision
                    && after[i].state in {TaskState.Running, TaskState.Missed}
                  else after[i] == s.tasks[i])
            && (NextWakeup(after).Some? ==> NextWakeup(after).value > now)
  {
    hide ToRun, NextWakeup;
    var after := Tick(s, ids, now).state.tasks;
    FireIs(s.tasks, ids, now);
    FireMatches(s.tasks, ids, now);
    NextWakeupIs(after);
  }

  /** A due task that has something to run is handed out, with exactly the actions to run. */
  lemma {:induction false} TickHandsOut(tasks: seq<Task>, ids: seq<string>, now: int, i: nat)
    requires |ids| == |tasks| && i < |tasks| && DueBy(tasks[i], now) && ToRun(tasks[i], now, 0) != []
    ensures var t := tasks[i];
            Due(ids[i], t.id, t.revision, t.name, t.trigger.due, LateBy(t, now), ToRun(t, now, 0))
              in Fire(tasks, ids, now).due
    ensures FiredRecord(tasks[i], ids[i], now) in Fire(tasks, ids, now).records
  {
    hide DueBy, ToRun, LateBy, FiredRecord;
    if i > 0 {
      TickHandsOut(tasks[1..], ids[1..], now, i - 1);
      assert tasks[1..][i - 1] == tasks[i] && ids[1..][i - 1] == ids[i];
    }
  }

  // ---------------------------------------------------------------- completions

  lemma {:induction false} SettleIs(tasks: seq<Task>, task: string, execution: string, state: TaskState)
    ensures var r := Settle(tasks, task, execution, state);
            && |r| == |tasks|
            && forall i :: 0 <= i < |tasks| ==>
                 r[i] == tasks[i] || (RunBy(tasks[i], task, execution) && r[i] == tasks[i].(state := state))
  {
    if |tasks| > 0 && !RunBy(tasks[0], task, execution) {
      SettleIs(tasks[1..], task, execution, state);
      assert Settle(tasks, task, execution, state)[1..] == Settle(tasks[1..], task, execution, state);
    }
  }

  /** A late report never touches a task that was armed again, nor one another execution ran. */
  lemma StaleReportIsHarmless(s: State, execution: string, results: seq<ActionResult>, now: int, i: nat)
    requires Complete(s, execution, results, now).Ok? && i < |s.tasks|
    requires s.tasks[i].lastExecution != Some(execution)
    ensures var after := Complete(s, execution, results, now).value.tasks;
            |after| == |s.tasks| && after[i] == s.tasks[i]
  {
    hide Completed;
    var p := RecordPosition(s.history, execution);
    var r := s.history[p.value];
    SettleIs(s.tasks, r.task, execution, StateFor(Completed(r, results, now).result));
  }

  lemma {:induction false} RecordPositionIs(history: seq<Record>, execution: string)
    ensures match RecordPosition(history, execution)
            case Some(p) => p < |history| && history[p].execution == execution
                            && forall k :: 0 <= k < p ==> history[k].execution != execution
            case None => forall k :: 0 <= k < |history| ==> history[k].execution != execution
  {
    if |history| > 0 && history[0].execution != execution {
      RecordPositionIs(history[1..], execution);
      assert forall k :: 0 < k < |history| ==> history[k] == history[1..][k - 1];
    }
  }

  /** The first report of an execution wins: a second one changes nothing. */
  lemma FirstReportWins(s: State, execution: string, first: seq<ActionResult>, second: seq<ActionResult>, now: int,
                        later: int)
    requires Complete(s, execution, first, now).Ok?
    ensures var after := Complete(s, execution, first, now).value;
            Complete(after, execution, second, later) == Ok(after)
  {
    hide RecordPosition, SortResults;
    var after := Complete(s, execution, first, now).value;
    RecordPositionIs(s.history, execution);
    RecordPositionIs(after.history, execution);
    var p, q := RecordPosition(s.history, execution).value, RecordPosition(after.history, execution);
    assert after.history[p].execution == execution;
    assert q.Some? && q.value <= p;
  }

  // ---------------------------------------------------------------- startup

  function Delay(t: Template): nat
    requires t.trigger.CountdownInput?
  {
    if t.trigger.delay < 1 then 1 else t.trigger.delay
  }

  /** The one instance of a template: armed for its delay from now. */
  predicate ArmedInstance(s: State, t: Template, now: int) {
    && t.trigger.CountdownInput? && t.id in s.instances
    && exists i :: 0 <= i < |s.tasks| && InstanceAt(s, t, now, i)
  }

  predicate InstanceAt(s: State, t: Template, now: int, i: nat)
    requires t.trigger.CountdownInput? && t.id in s.instances && i < |s.tasks|
  {
    var x := s.tasks[i];
    && x.id == s.instances[t.id] && x.enabled && x.state == Armed
    && x.trigger == Countdown(now, Delay(t), now + Delay(t)) && x.nextDue == Some(now + Delay(t))
    && NormalizeActions(t.actions) == Ok(x.actions)
  }

  predicate HasTask(s: State, id: string) {
    exists i :: 0 <= i < |s.tasks| && s.tasks[i].id == id
  }

  predicate LiveInstance(s: State, t: Template) {
    t.id in s.instances && HasTask(s, s.instances[t.id])
  }

  /** The enabled templates that have no task yet. */
  function Missing(s: State, templates: seq<Template>): nat {
    if |templates| == 0 then 0
    else (if templates[0].enabled && !LiveInstance(s, templates[0]) then 1 else 0) + Missing(s, templates[1..])
  }

  predicate DistinctTemplates(templates: seq<Template>) {
    forall i, j :: 0 <= i < j < |templates| ==> templates[i].id != templates[j].id
  }

  /** The task with this id is the instance of an enabled template. */
  predicate IsInstance(instances: map<string, string>, templates: seq<Template>, id: string) {
    exists i :: 0 <= i < |templates| && templates[i].enabled && templates[i].id in instances
        && instances[templates[i].id] == id
  }

  function Placed(s: State, t: Template, newId: string, now: int): State
    requires t.trigger.CountdownInput? && Upsert(s, TemplateInput(s, t), newId, now).Ok?
  {
    var u := Upsert(s, TemplateInput(s, t), newId, now).value;
    u.state.(instances := s.instances[t.id := u.task.id])
  }

  /** Placing one template: its instance is armed, and every other task is as it was. */
  lemma PlacedIs(s: State, t: Template, newId: string, now: int)
    requires t.trigger.CountdownInput? && Upsert(s, TemplateInput(s, t), newId, now).Ok?
    ensures var p := Placed(s, t, newId, now);
            && ArmedInstance(p, t, now)
            && p.instances == s.instances[t.id := if LiveInstance(s, t) then s.instances[t.id] else newId]
            && |p.tasks| == |s.tasks| + (if LiveInstance(s, t) then 0 else 1)
            && (forall i :: 0 <= i < |s.tasks| ==>
                  s.tasks[i].id != p.instances[t.id] ==> p.tasks[i] == s.tasks[i])
            && (forall i :: 0 <= i < |s.tasks| ==> p.tasks[i].id == s.tasks[i].id)
            && (|p.tasks| > |s.tasks| ==> p.tasks[|s.tasks|].id == newId)
  {
    hide ResolveName, NormalizeActions, Position;
    var input := TemplateInput(s, t);
    var u := Upsert(s, input, newId, now).value;
    if t.id in s.instances {
      PositionIs(s.tasks, s.instances[t.id]);
    }
    var p := Placed(s, t, newId, now);
    if LiveInstance(s, t) {
      var at := Position(s.tasks, s.instances[t.id]).value;
      assert InstanceAt(p, t, now, at);
    } else {
      assert InstanceAt(p, t, now, |s.tasks|);
    }
  }

  /** The task keeps its id and place, and another template's instance is not this one. */
  lemma OtherUntouched(s: State, t: Template, other: Template, newId: string, now: int, used: set<string>)
    requires t.trigger.CountdownInput? && Upsert(s, TemplateInput(s, t), newId, now).Ok?
    requires TasksKnown(s.tasks, used) && InstancesOk(s.instances, used) && newId !in used && other.id != t.id
    ensures var p := Placed(s, t, newId, now);
            && (LiveInstance(p, other) <==> LiveInstance(s, other))
            && (ArmedInstance(s, other, now) ==> ArmedInstance(p, other, now))
  {
    hide Placed, Upsert, TemplateInput, NormalizeActions;
    PlacedIs(s, t, newId, now);
    var p := Placed(s, t, newId, now);
    if LiveInstance(s, other) {
      var i :| 0 <= i < |s.tasks| && s.tasks[i].id == s.instances[other.id];
      assert p.tasks[i].id == p.instances[other.id];
    }
    if LiveInstance(p, other) {
      var i :| 0 <= i < |p.tasks| && p.tasks[i].id == p.instances[other.id];
      assert i < |s.tasks| && s.tasks[i].id == s.instances[other.id];
    }
    if ArmedInstance(s, other, now) {
      var i :| 0 <= i < |s.tasks| && InstanceAt(s, other, now, i);
      assert s.tasks[i].id != p.instances[t.id];
      assert InstanceAt(p, other, now, i);
    }
  }

  lemma MaterializeStep(s: State, templates: seq<Template>, ids: seq<string>, now: int)
    requires |ids| == |templates| > 0 && Materialize(s, templates, ids, now).Ok? && templates[0].enabled
    ensures templates[0].trigger.CountdownInput? && Upsert(s, TemplateInput(s, templates[0]), ids[0], now).Ok?
    ensures Materialize(s, templates, ids, now)
            == Materialize(Placed(s, templates[0], ids[0], now), templates[1..], ids[1..], now)
  {
    hide Upsert, TemplateInput;
  }

  /** Placing other templates leaves an armed instance armed and a task's absence or presence as it was. */
  lemma {:induction false} MaterializeLeaves(s: State, templates: seq<Template>, ids: seq<string>, now: int,
                                             delivered: seq<Arming>, used: set<string>, other: Template)
    requires Good(s, delivered, used) && DeliveredKnown(delivered, used)
    requires |ids| == |templates| && AllNew(ids, used) && Materialize(s, templates, ids, now).Ok?
    requires forall i :: 0 <= i < |templates| ==> templates[i].id != other.id
    requires ArmedInstance(s, other, now)
    ensures ArmedInstance(Materialize(s, templates, ids, now).value, other, now)
    decreases |templates|
  {
    if |templates| > 0 {
      hide Materialize, ArmedInstance, TasksOk, TasksKnown, InstancesOk, TemplatesOk, Guarded, AllNew, Placed;
      AllNewRest(ids, used);
      assert forall i :: 0 <= i < |templates[1..]| ==> templates[1..][i] == templates[i + 1];
      if templates[0].enabled {
        MaterializeStep(s, templates, ids, now);
        PlacedGood(s, templates[0], ids[0], now, delivered, used);
        OtherUntouched(s, templates[0], other, ids[0], now, used);
        MaterializeLeaves(Placed(s, templates[0], ids[0], now), templates[1..], ids[1..], now, delivered,
                          used + {ids[0]}, other);
      } else {
        MaterializeSkip(s, templates, ids, now);
        MaterializeLeaves(s, templates[1..], ids[1..], now, delivered, used, other);
      }
    } else {
      assert Materialize(s, templates, ids, now).value == s;
    }
  }

  lemma MaterializeSkip(s: State, templates: seq<Template>, ids: seq<string>, now: int)
    requires |ids| == |templates| > 0 && !templates[0].enabled
    ensures Materialize(s, templates, ids, now) == Materialize(s, templates[1..], ids[1..], now)
  {
  }

  lemma PlacedGood(s: State, t: Template, newId: string, now: int, delivered: seq<Arming>, used: set<string>)
    requires Good(s, delivered, used) && DeliveredKnown(delivered, used) && newId !in used
    requires t.trigger.CountdownInput? && Upsert(s, TemplateInput(s, t), newId, now).Ok?
    ensures Good(Placed(s, t, newId, now), delivered, used + {newId})
    ensures TasksKnown(s.tasks, used) && InstancesOk(s.instances, used)
  {
    hide Upsert, TemplateInput, TasksOk, TasksKnown, Guarded, InstancesOk, TemplatesOk;
    MaterializeOne(s, t, newId, now, delivered, used);
  }

  /** Placing a template does not change which later ones are still missing. */
  lemma {:induction false} MissingSame(s: State, t: Template, templates: seq<Template>, newId: string, now: int,
                                       used: set<string>)
    requires t.trigger.CountdownInput? && Upsert(s, TemplateInput(s, t), newId, now).Ok?
    requires TasksKnown(s.tasks, used) && InstancesOk(s.instances, used) && newId !in used
    requires forall i :: 0 <= i < |templates| ==> templates[i].id != t.id
    ensures Missing(Placed(s, t, newId, now), templates) == Missing(s, templates)
  {
    if |templates| > 0 {
      hide Placed, Upsert, TemplateInput, LiveInstance, TasksKnown, InstancesOk, ArmedInstance;
      assert forall i :: 0 <= i < |templates[1..]| ==> templates[1..][i] == templates[i + 1];
      OtherUntouched(s, t, templates[0], newId, now, used);
      MissingSame(s, t, templates[1..], newId, now, used);
    }
  }

  /** All enabled templates get their armed instance, and tasks are added only for those that had none. */
  lemma {:induction false} MaterializeArms(s: State, templates: seq<Template>, ids: seq<string>, now: int,
                                           delivered: seq<Arming>, used: set<string>)
    requires Good(s, delivered, used) && DeliveredKnown(delivered, used) && DistinctTemplates(templates)
    requires |ids| == |templates| && AllNew(ids, used) && Materialize(s, templates, ids, now).Ok?
    ensures var r := Materialize(s, templates, ids, now).value;
            && (forall i :: 0 <= i < |templates| && templates[i].enabled ==> ArmedInstance(r, templates[i], now))
            && |r.tasks| == |s.tasks| + Missing(s, templates)
    decreases |templates|
  {
    if |templates| > 0 {
      hide Materialize, ArmedInstance, TasksOk, TasksKnown, InstancesOk, TemplatesOk, Guarded, AllNew, Placed, LiveInstance;
      AllNewRest(ids, used);
      assert forall i :: 0 <= i < |templates[1..]| ==> templates[1..][i] == templates[i + 1];
      if templates[0].enabled {
        MaterializeStep(s, templates, ids, now);
        PlacedIs(s, templates[0], ids[0], now);
        PlacedGood(s, templates[0], ids[0], now, delivered, used);
        MissingSame(s, templates[0], templates[1..], ids[0], now, used);
        var p := Placed(s, templates[0], ids[0], now);
        MaterializeArms(p, templates[1..], ids[1..], now, delivered, used + {ids[0]});
        MaterializeLeaves(p, templates[1..], ids[1..], now, delivered, used + {ids[0]}, templates[0]);
      } else {
        MaterializeSkip(s, templates, ids, now);
        MaterializeArms(s, templates[1..], ids[1..], now, delivered, used);
      }
    } else {
      assert Materialize(s, templates, ids, now).value == s;
    }
  }

  /** Placing templates leaves a task that is no enabled template's instance as and where it was. */
  lemma {:induction false} MaterializeSpares(s: State, templates: seq<Template>, ids: seq<string>, now: int,
                                             delivered: seq<Arming>, used: set<string>, k: nat)
    requires Good(s, delivered, used) && DeliveredKnown(delivered, used) && DistinctTemplates(templates)
    requires |ids| == |templates| && AllNew(ids, used) && Materialize(s, templates, ids, now).Ok?
    requires k < |s.tasks| && !IsInstance(s.instances, templates, s.tasks[k].id)
    ensures var r := Materialize(s, templates, ids, now).value;
            k < |r.tasks| && r.tasks[k] == s.tasks[k]
    decreases |templates|
  {
    if |templates| > 0 {
      hide Materialize, ArmedInstance, TasksOk, InstancesOk, TemplatesOk, Guarded, AllNew, Placed, LiveInstance, IsInstance;
      AllNewRest(ids, used);
      assert forall i :: 0 <= i < |templates[1..]| ==> templates[1..][i] == templates[i + 1];
      if templates[0].enabled {
        MaterializeStep(s, templates, ids, now);
        PlacedIs(s, templates[0], ids[0], now);
        PlacedGood(s, templates[0], ids[0], now, delivered, used);
        var p := Placed(s, templates[0], ids[0], now);
        assert s.tasks[k].id in used;
        SparedRest(s, p, templates, ids[0], s.tasks[k].id);
        MaterializeSpares(p, templates[1..], ids[1..], now, delivered, used + {ids[0]}, k);
      } else {
        MaterializeSkip(s, templates, ids, now);
        SparedRest(s, s, templates, ids[0], s.tasks[k].id);
        MaterializeSpares(s, templates[1..], ids[1..], now, delivered, used, k);
      }
    } else {
      assert Materialize(s, templates, ids, now).value == s;
    }
  }

  lemma SparedRest(s: State, p: State, templates: seq<Template>, newId: string, id: string)
    requires |templates| > 0 && DistinctTemplates(templates) && !IsInstance(s.instances, templates, id) && id != newId
    requires p == s || (templates[0].enabled && p.instances == s.instances[templates[0].id :=
               if LiveInstance(s, templates[0]) then s.instances[templates[0].id] else newId])
    ensures !IsInstance(p.instances, templates[1..], id)
    ensures p != s ==> templates[0].id in p.instances && p.instances[templates[0].id] != id
  {
    forall i | 0 <= i < |templates[1..]|
      ensures templates[1..][i] == templates[i + 1] && templates[i + 1].id != templates[0].id
    {
    }
  }

  /**
   * A startup activation that succeeds gives every enabled template one armed instance,
   * due after the template's delay but at least a millisecond, and adds tasks only for
   * templates without one; no two templates share an instance, no task id repeats, and
   * a task that is no enabled template's instance is as it was.
   */
  lemma ActivationArms(s: State, token: string, ids: seq<string>, now: int, delivered: seq<Arming>, used: set<string>)
    requires Good(s, delivered, used) && DeliveredKnown(delivered, used)
    requires Activates(s, token) && |ids| == |StartupTemplates(s)| && AllNew(ids, used)
    requires Activate(s, token, ids, now).Ok?
    ensures ActivationDone(s, Activate(s, token, ids, now).value, now)
  {
    hide Materialize, ArmedInstance, TasksKnown, Guarded, AllNew, LiveInstance, IsInstance;
    var templates := StartupTemplates(s);
    var before := s.(startupTasks := templates);
    assert Good(before, delivered, used) && DistinctTemplates(templates);
    hide TemplatesOk;
    MaterializeArms(before, templates, ids, now, delivered, used);
    ActivateKeeps(s, token, ids, now, delivered, used);
    MissingAlike(s, before, templates);
    var after := Materialize(before, templates, ids, now).value;
    var r := after.(lastToken := Some(token));
    forall i | 0 <= i < |templates| && templates[i].enabled ensures ArmedInstance(r, templates[i], now) {
      ArmedAlike(after, r, templates[i], now);
    }
    forall k | 0 <= k < |s.tasks| && !IsInstance(s.instances, templates, s.tasks[k].id)
      ensures k < |r.tasks| && r.tasks[k] == s.tasks[k]
    {
      MaterializeSpares(before, templates, ids, now, delivered, used, k);
    }
  }

  predicate ActivationDone(s: State, r: State, now: int) {
    var templates := StartupTemplates(s);
    && (forall i :: 0 <= i < |templates| && templates[i].enabled ==> ArmedInstance(r, templates[i], now))
    && |r.tasks| == |s.tasks| + Missing(s, templates)
    && (forall a, b :: a in r.instances && b in r.instances && a != b ==> r.instances[a] != r.instances[b])
    && (forall i, j :: 0 <= i < j < |r.tasks| ==> r.tasks[i].id != r.tasks[j].id)
    && (forall k :: 0 <= k < |s.tasks| && !IsInstance(s.instances, templates, s.tasks[k].id) ==>
          k < |r.tasks| && r.tasks[k] == s.tasks[k])
  }

  /** So does one after any run of operations, failing writes, crashes and restarts. */
  lemma StartupAfterAnyRun(steps: seq<Step>, token: string, ids: seq<string>, now: int)
    requires var w := Run(START, steps);
             w.memory.Some? && Activates(w.memory.value, token) && |ids| == |StartupTemplates(w.memory.value)|
             && AllNew(ids, w.used) && Activate(w.memory.value, token, ids, now).Ok?
    ensures var s := Run(START, steps).memory.value;
            ActivationDone(s, Activate(s, token, ids, now).value, now)
  {
    hide Run, Good, Activate, ActivationDone, AllNew, Activates;
    assert Inv(START);
    RunKeeps(START, steps);
    var w := Run(START, steps);
    ActivationArms(w.memory.value, token, ids, now, w.delivered, w.used);
  }

  lemma ArmedAlike(s: State, t: State, x: Template, now: int)
    requires t.tasks == s.tasks && t.instances == s.instances && ArmedInstance(s, x, now)
    ensures ArmedInstance(t, x, now)
  {
    var i :| 0 <= i < |s.tasks| && InstanceAt(s, x, now, i);
    assert InstanceAt(t, x, now, i);
  }

  lemma {:induction false} MissingAlike(s: State, t: State, templates: seq<Template>)
    requires t.tasks == s.tasks && t.instances == s.instances
    ensures Missing(t, templates) == Missing(s, templates)
  {
    if |templates| > 0 {
      assert LiveInstance(t, templates[0]) == LiveInstance(s, templates[0]);
      MissingAlike(s, t, templates[1..]);
    }
  }

  /**
   * A token works once: repeating the last one changes nothing, also after the state was
   * written, the process ended and the file was opened again.
   */
  lemma TokenWorksOnce(s: State, token: string, ids: seq<string>, now: int, again: seq<string>, later: int,
                       found: StartupActions, reopened: int)
    requires |ids| == |StartupTemplates(s)| && Activates(s, token) && Activate(s, token, ids, now).Ok?
    ensures var after := Activate(s, token, ids, now).value;
            var back := Open(Some(after), found, reopened).state;
            && (|again| == |StartupTemplates(after)| ==> Activate(after, token, again, later) == Ok(after))
            && (|again| == |StartupTemplates(back)| ==> Activate(back, token, again, later) == Ok(back))
  {
    hide Materialize, Reconcile, Upsert;
  }

  /** An activation that fails, at whatever point short of a crash, leaves the state as it was. */
  lemma FailedActivationRestores(w: World, token: string, ids: seq<string>, now: int, o: Outcome)
    requires var op := ActivateStartup(token, ids, now);
             Enabled(w, Do(op, o)) && !o.ending.Crashed?
             && (Activate(w.memory.value, token, ids, now).Err? || o.ending.Errored?)
    ensures Apply(w, Do(ActivateStartup(token, ids, now), o)).memory == w.memory
  {
    hide Materialize;
  }
}
