/** Every step keeps the scheduler's invariant, so every arming fires at most once. */
module SchedulerSafety {
  import opened Wrappers
  import opened SchedulerState
  import opened SchedulerRuns

  // ---------------------------------------------------------------- lists of tasks

  lemma {:induction false} PositionIs(tasks: seq<Task>, id: string)
    ensures var p := Position(tasks, id);
            match p
            case Some(i) => i < |tasks| && tasks[i].id == id && forall k :: 0 <= k < i ==> tasks[k].id != id
            case None => forall k :: 0 <= k < |tasks| ==> tasks[k].id != id
  {
    if |tasks| > 0 && tasks[0].id != id {
      PositionIs(tasks[1..], id);
      assert forall k :: 0 < k < |tasks| ==> tasks[k] == tasks[1..][k - 1];
    }
  }

  predicate DeliveredKnown(delivered: seq<Arming>, used: set<string>) {
    forall k :: 0 <= k < |delivered| ==> delivered[k].task in used
  }

  /** Task by task the same id and revision, and nothing newly enabled. */
  predicate Matches(before: seq<Task>, after: seq<Task>) {
    && |after| == |before|
    && forall i :: 0 <= i < |after| ==>
         && after[i].id == before[i].id && after[i].revision == before[i].revision
         && (after[i].enabled ==> before[i].enabled) && TaskOk(after[i])
  }

  lemma MatchesKeeps(before: seq<Task>, after: seq<Task>, delivered: seq<Arming>, used: set<string>)
    requires TasksOk(before) && TasksKnown(before, used) && Matches(before, after)
    requires Guarded(before, delivered)
    ensures TasksOk(after) && TasksKnown(after, used) && Guarded(after, delivered)
  {
  }

  lemma {:induction false} RetainedIs(tasks: seq<Task>, keep: Task -> bool)
    ensures forall t :: t in Retained(tasks, keep) <==> t in tasks && keep(t)
    ensures TasksOk(tasks) ==> TasksOk(Retained(tasks, keep))
  {
    if |tasks| > 0 {
      RetainedIs(tasks[1..], keep);
      var rest := Retained(tasks[1..], keep);
      if TasksOk(tasks) {
        forall k | 0 <= k < |rest| ensures rest[k].id != tasks[0].id {
          assert rest[k] in tasks[1..];
        }
      }
    }
  }

  lemma RetainedKeeps(tasks: seq<Task>, keep: Task -> bool, delivered: seq<Arming>, used: set<string>)
    requires TasksOk(tasks) && TasksKnown(tasks, used) && Guarded(tasks, delivered)
    ensures var r := Retained(tasks, keep);
            TasksOk(r) && TasksKnown(r, used) && Guarded(r, delivered)
  {
    RetainedIs(tasks, keep);
    var r := Retained(tasks, keep);
    assert forall i :: 0 <= i < |r| ==> r[i] in r;
  }

  // ---------------------------------------------------------------- editing

  /** One task is replaced by its next revision, or one with a new id is added. */
  lemma ReplaceKeeps(tasks: seq<Task>, p: nat, t: Task, delivered: seq<Arming>, used: set<string>)
    requires TasksOk(tasks) && TasksKnown(tasks, used) && Guarded(tasks, delivered)
    requires p < |tasks| && t.id == tasks[p].id && t.revision > tasks[p].revision && TaskOk(t)
    ensures var r := tasks[p := t];
            TasksOk(r) && TasksKnown(r, used) && Guarded(r, delivered)
  {
  }

  lemma AddKeeps(tasks: seq<Task>, t: Task, delivered: seq<Arming>, used: set<string>)
    requires TasksOk(tasks) && TasksKnown(tasks, used) && Guarded(tasks, delivered) && DeliveredKnown(delivered, used)
    requires t.id !in used && TaskOk(t)
    ensures var r := tasks + [t];
            TasksOk(r) && TasksKnown(r, used + {t.id}) && Guarded(r, delivered)
  {
  }

  lemma KnownMore(s: State, delivered: seq<Arming>, used: set<string>, more: set<string>)
    requires Good(s, delivered, used) && used <= more
    ensures Good(s, delivered, more)
  {
  }

  lemma UpsertKeeps(s: State, input: Input, newId: string, now: int, delivered: seq<Arming>, used: set<string>)
    requires Good(s, delivered, used) && DeliveredKnown(delivered, used) && newId !in used
    requires Upsert(s, input, newId, now).Ok?
    ensures var u := Upsert(s, input, newId, now).value;
            && Good(u.state, delivered, used + {newId}) && u.state.instances == s.instances
            && u.task.id in used + {newId}
  {
    hide ResolveName, NormalizeActions, ResolveTrigger, TasksOk, TasksKnown, Guarded;
    var found := if input.id.Some? then Position(s.tasks, input.id.value) else None;
    var u := Upsert(s, input, newId, now).value;
    if input.id.Some? {
      PositionIs(s.tasks, input.id.value);
    }
    if found.Some? {
      ReplaceKeeps(s.tasks, found.value, u.task, delivered, used);
      TaskKnown(s.tasks, used, found.value);
      KnownMoreTasks(u.state.tasks, used, used + {newId});
    } else {
      AddKeeps(s.tasks, u.task, delivered, used);
    }
  }

  lemma TaskKnown(tasks: seq<Task>, used: set<string>, i: nat)
    requires TasksKnown(tasks, used) && i < |tasks|
    ensures tasks[i].id in used
  {
  }

  lemma KnownMoreTasks(tasks: seq<Task>, used: set<string>, more: set<string>)
    requires TasksKnown(tasks, used) && used <= more
    ensures TasksKnown(tasks, more)
  {
  }

  lemma SetEnabledKeeps(s: State, id: string, expected: Option<nat>, enabled: bool, now: int,
                        delivered: seq<Arming>, used: set<string>)
    requires Good(s, delivered, used) && SetEnabled(s, id, expected, enabled, now).Ok?
    ensures Good(SetEnabled(s, id, expected, enabled, now).value.state, delivered, used)
  {
    hide TasksOk, TasksKnown, Guarded, Rearmed;
    PositionIs(s.tasks, id);
    var u := SetEnabled(s, id, expected, enabled, now).value;
    ReplaceKeeps(s.tasks, Position(s.tasks, id).value, u.task, delivered, used);
  }

  // ---------------------------------------------------------------- firing

  lemma {:induction false} FireIs(tasks: seq<Task>, ids: seq<string>, now: int)
    requires |ids| == |tasks|
    ensures var r := Fire(tasks, ids, now).tasks;
            && |r| == |tasks|
            && forall i :: 0 <= i < |tasks| ==>
                 r[i] == if DueBy(tasks[i], now) then FiredTask(tasks[i], ids[i], now) else tasks[i]
  {
    if |tasks| > 0 {
      hide DueBy, FiredTask, FiredRecord, FiredDue;
      FireIs(tasks[1..], ids[1..], now);
      var r := Fire(tasks, ids, now).tasks;
      var rest := Fire(tasks[1..], ids[1..], now).tasks;
      assert r[1..] == rest;
      forall i | 0 <= i < |tasks|
        ensures r[i] == if DueBy(tasks[i], now) then FiredTask(tasks[i], ids[i], now) else tasks[i]
      {
        if i > 0 {
          assert r[i] == rest[i - 1] && tasks[1..][i - 1] == tasks[i] && ids[1..][i - 1] == ids[i];
        }
      }
    }
  }

  predicate FiresFrom(tasks: seq<Task>, now: int, a: Arming) {
    exists i :: 0 <= i < |tasks| && DueBy(tasks[i], now) && a == Arming(tasks[i].id, tasks[i].revision)
  }

  /** What a tick hands out are armed, due tasks of the list, each once. */
  lemma {:induction false} FireDelivers(tasks: seq<Task>, ids: seq<string>, now: int)
    requires |ids| == |tasks| && TasksOk(tasks)
    ensures var a := ArmingsOf(Fire(tasks, ids, now).due);
            OnceEach(a) && forall k :: 0 <= k < |a| ==> FiresFrom(tasks, now, a[k])
  {
    var a := ArmingsOf(Fire(tasks, ids, now).due);
    if |tasks| > 0 {
      hide DueBy, FiredTask, FiredRecord;
      FireDelivers(tasks[1..], ids[1..], now);
      var b := ArmingsOf(Fire(tasks[1..], ids[1..], now).due);
      forall k | 0 <= k < |b| ensures FiresFrom(tasks, now, b[k]) && b[k].task != tasks[0].id {
        assert FiresFrom(tasks[1..], now, b[k]);
        var i :| 0 <= i < |tasks[1..]| && DueBy(tasks[1..][i], now)
                 && b[k] == Arming(tasks[1..][i].id, tasks[1..][i].revision);
        assert tasks[i + 1] == tasks[1..][i];
      }
      hide FiredDue;
      FiredDueIs(tasks[0], ids[0], now);
      if a != b {
        assert a == [Arming(tasks[0].id, tasks[0].revision)] + b;
        assert FiresFrom(tasks, now, a[0]);
      }
    }
  }

  lemma FiredDueIs(t: Task, execution: string, now: int)
    ensures var d := FiredDue(t, execution, now);
            |d| <= 1 && (|d| == 1 ==> d[0].task == t.id && d[0].revision == t.revision)
  {
  }

  lemma FireMatches(tasks: seq<Task>, ids: seq<string>, now: int)
    requires |ids| == |tasks| && TasksOk(tasks)
    ensures Matches(tasks, Fire(tasks, ids, now).tasks)
    ensures forall i :: 0 <= i < |tasks| && DueBy(tasks[i], now) ==> !Fire(tasks, ids, now).tasks[i].enabled
  {
    hide ToRun;
    FireIs(tasks, ids, now);
  }

  /** Nothing handed out by a tick was handed out before, and nothing of it stays armed. */
  lemma TickKeeps(s: State, ids: seq<string>, now: int, delivered: seq<Arming>, used: set<string>)
    requires Good(s, delivered, used) && |ids| == |s.tasks| && OnceEach(delivered)
    ensures var r := Tick(s, ids, now);
            var all := delivered + ArmingsOf(r.due);
            && Good(r.state, delivered, used) && Good(r.state, all, used) && OnceEach(all)
            && forall k :: |delivered| <= k < |all| ==> all[k].task in used
  {
    hide DueBy, TasksKnown;
    var fired := Fire(s.tasks, ids, now);
    FireDelivers(s.tasks, ids, now);
    FireMatches(s.tasks, ids, now);
    hide Fire;
    MatchesKeeps(s.tasks, fired.tasks, delivered, used);
    var a := ArmingsOf(fired.due);
    forall k | 0 <= k < |a| ensures a[k].task in used && a[k] !in delivered {
      TickNew(s.tasks, delivered, used, now, a[k]);
    }
    GuardedMore(s.tasks, fired.tasks, delivered, a, now);
    assert OnceEach(delivered + a);
  }

  lemma TickNew(tasks: seq<Task>, delivered: seq<Arming>, used: set<string>, now: int, a: Arming)
    requires TasksKnown(tasks, used) && Guarded(tasks, delivered) && FiresFrom(tasks, now, a)
    ensures a.task in used && a !in delivered
  {
    var i :| 0 <= i < |tasks| && DueBy(tasks[i], now) && a == Arming(tasks[i].id, tasks[i].revision);
  }

  lemma GuardedMore(before: seq<Task>, after: seq<Task>, delivered: seq<Arming>, a: seq<Arming>, now: int)
    requires Guarded(after, delivered) && Matches(before, after) && TasksOk(before)
    requires forall k :: 0 <= k < |a| ==> FiresFrom(before, now, a[k])
    requires forall i :: 0 <= i < |before| && DueBy(before[i], now) ==> !after[i].enabled
    ensures Guarded(after, delivered + a)
  {
    hide DueBy, TaskOk;
    forall i, k | 0 <= i < |after| && 0 <= k < |a| && a[k].task == after[i].id
      ensures a[k].revision == after[i].revision && !after[i].enabled
    {
      var j :| 0 <= j < |before| && DueBy(before[j], now) && a[k] == Arming(before[j].id, before[j].revision);
      assert j == i;
    }
  }

  // ---------------------------------------------------------------- completing and restarting

  lemma {:induction false} SettleMatches(tasks: seq<Task>, task: string, execution: string, state: TaskState)
    requires forall i :: 0 <= i < |tasks| ==> TaskOk(tasks[i])
    requires state != Armed
    ensures Matches(tasks, Settle(tasks, task, execution, state))
  {
    if |tasks| > 0 && !RunBy(tasks[0], task, execution) {
      SettleMatches(tasks[1..], task, execution, state);
      var r := Settle(tasks, task, execution, state);
      assert r[1..] == Settle(tasks[1..], task, execution, state);
    }
  }

  lemma {:induction false} InterruptMatches(tasks: seq<Task>, r: Record)
    requires forall i :: 0 <= i < |tasks| ==> TaskOk(tasks[i])
    ensures Matches(tasks, Interrupt(tasks, r))
  {
    if |tasks| > 0 && !RunBy(tasks[0], r.task, r.execution) {
      InterruptMatches(tasks[1..], r);
      assert Interrupt(tasks, r)[1..] == Interrupt(tasks[1..], r);
    }
  }

  lemma {:induction false} ReconcileMatches(tasks: seq<Task>, history: seq<Record>, now: int)
    requires forall i :: 0 <= i < |tasks| ==> TaskOk(tasks[i])
    ensures Matches(tasks, Reconcile(tasks, history, now).tasks)
    decreases |history|
  {
    if |history| > 0 {
      if history[0].result == ExecutionRunning {
        InterruptMatches(tasks, history[0]);
        ReconcileMatches(Interrupt(tasks, history[0]), history[1..], now);
      } else {
        ReconcileMatches(tasks, history[1..], now);
      }
    }
  }

  lemma CompleteKeeps(s: State, execution: string, results: seq<ActionResult>, now: int,
                      delivered: seq<Arming>, used: set<string>)
    requires Good(s, delivered, used) && Complete(s, execution, results, now).Ok?
    ensures Good(Complete(s, execution, results, now).value, delivered, used)
  {
    hide Guarded, TasksKnown, Settle, Completed, RecordPosition;
    var next := Complete(s, execution, results, now).value;
    if next != s {
      var r := s.history[RecordPosition(s.history, execution).value];
      var state := StateFor(Completed(r, results, now).result);
      SettleMatches(s.tasks, r.task, execution, state);
      MatchesKeeps(s.tasks, next.tasks, delivered, used);
    }
  }

  lemma MigrateKeeps(s: State, found: StartupActions, delivered: seq<Arming>, used: set<string>)
    requires Good(s, delivered, used)
    ensures Good(Migrate(s, found), delivered, used)
  {
    hide Guarded, TasksKnown, TasksOk;
    RetainedKeeps(s.tasks, (t: Task) => t.id !in s.instances.Values || t.state == Running, delivered, used);
  }

  lemma OpenKeeps(disk: Option<State>, found: StartupActions, now: int, delivered: seq<Arming>, used: set<string>)
    requires STARTUP_ID in used && (disk.Some? ==> Good(disk.value, delivered, used))
    ensures Good(Open(disk, found, now).state, delivered, used)
  {
    hide Guarded, TasksKnown, Migrate, Reconcile;
    var before := if disk.Some? then disk.value else EMPTY;
    assert Good(before, delivered, used) by {
      EmptyGood(delivered, used);
    }
    MigrateKeeps(before, found, delivered, used);
    var s := Migrate(before, found);
    ReconcileMatches(s.tasks, s.history, now);
    MatchesKeeps(s.tasks, Reconcile(s.tasks, s.history, now).tasks, delivered, used);
  }

  lemma EmptyGood(delivered: seq<Arming>, used: set<string>)
    requires STARTUP_ID in used
    ensures Good(EMPTY, delivered, used)
  {
  }

  // ---------------------------------------------------------------- startup

  function IdSet(ids: seq<string>): set<string> {
    set i | 0 <= i < |ids| :: ids[i]
  }

  /** The task a template becomes is its own: the one it had, or a new one. */
  lemma TemplateTask(s: State, t: Template, newId: string, now: int)
    requires t.trigger.CountdownInput? && Upsert(s, TemplateInput(s, t), newId, now).Ok?
    ensures var id := Upsert(s, TemplateInput(s, t), newId, now).value.task.id;
            id == newId || (t.id in s.instances && id == s.instances[t.id])
  {
    hide ResolveName, NormalizeActions, ResolveTrigger;
    if t.id in s.instances {
      PositionIs(s.tasks, s.instances[t.id]);
    }
  }

  lemma InstancesKeep(instances: map<string, string>, template: string, id: string, newId: string, used: set<string>)
    requires InstancesOk(instances, used) && newId !in used
    requires id == newId || (template in instances && id == instances[template])
    ensures InstancesOk(instances[template := id], used + {newId})
  {
  }

  lemma MaterializeOne(s: State, t: Template, newId: string, now: int, delivered: seq<Arming>, used: set<string>)
    requires Good(s, delivered, used) && DeliveredKnown(delivered, used) && newId !in used
    requires t.trigger.CountdownInput? && Upsert(s, TemplateInput(s, t), newId, now).Ok?
    ensures var u := Upsert(s, TemplateInput(s, t), newId, now).value;
            Good(u.state.(instances := s.instances[t.id := u.task.id]), delivered, used + {newId})
  {
    hide Upsert, TemplateInput, TasksOk, TasksKnown, Guarded, InstancesOk;
    UpsertKeeps(s, TemplateInput(s, t), newId, now, delivered, used);
    TemplateTask(s, t, newId, now);
    InstancesKeep(s.instances, t.id, Upsert(s, TemplateInput(s, t), newId, now).value.task.id, newId, used);
  }

  lemma AllNewRest(ids: seq<string>, used: set<string>)
    requires AllNew(ids, used) && |ids| > 0
    ensures ids[0] !in used && AllNew(ids[1..], used + {ids[0]}) && AllNew(ids[1..], used)
    ensures used + {ids[0]} + IdSet(ids[1..]) == used + IdSet(ids)
  {
    forall x | x in IdSet(ids) ensures x in {ids[0]} + IdSet(ids[1..]) {
      var i :| 0 <= i < |ids| && ids[i] == x;
      if i > 0 {
        assert ids[1..][i - 1] == x;
      }
    }
    forall x | x in IdSet(ids[1..]) ensures x in IdSet(ids) {
      var i :| 0 <= i < |ids[1..]| && ids[1..][i] == x;
      assert ids[i + 1] == x;
    }
  }

  lemma {:induction false} MaterializeKeeps(s: State, templates: seq<Template>, ids: seq<string>, now: int,
                                            delivered: seq<Arming>, used: set<string>)
    requires Good(s, delivered, used) && DeliveredKnown(delivered, used)
    requires |ids| == |templates| && AllNew(ids, used) && Materialize(s, templates, ids, now).Ok?
    ensures Good(Materialize(s, templates, ids, now).value, delivered, used + IdSet(ids))
    decreases |templates|
  {
    hide Good, AllNew, Upsert, TemplateInput;
    if |templates| == 0 {
      KnownMore(s, delivered, used, used + IdSet(ids));
    } else {
      AllNewRest(ids, used);
      if !templates[0].enabled {
        MaterializeKeeps(s, templates[1..], ids[1..], now, delivered, used);
        KnownMore(Materialize(s, templates, ids, now).value, delivered, used + IdSet(ids[1..]), used + IdSet(ids));
      } else {
        var u := Upsert(s, TemplateInput(s, templates[0]), ids[0], now).value;
        MaterializeOne(s, templates[0], ids[0], now, delivered, used);
        MaterializeKeeps(u.state.(instances := s.instances[templates[0].id := u.task.id]), templates[1..], ids[1..], now,
                         delivered, used + {ids[0]});
      }
    }
  }

  lemma ActivateKeeps(s: State, token: string, ids: seq<string>, now: int, delivered: seq<Arming>, used: set<string>)
    requires Good(s, delivered, used) && DeliveredKnown(delivered, used) && Activates(s, token)
    requires |ids| == |StartupTemplates(s)| && AllNew(ids, used) && Activate(s, token, ids, now).Ok?
    ensures Good(Activate(s, token, ids, now).value, delivered, used + IdSet(ids))
  {
    hide Materialize, TasksOk, TasksKnown, Guarded, InstancesOk, AllNew;
    var before := s.(startupTasks := StartupTemplates(s));
    assert Good(before, delivered, used);
    MaterializeKeeps(before, StartupTemplates(s), ids, now, delivered, used);
  }

  lemma SettingsKeep(s: State, actions: StartupActions, delivered: seq<Arming>, used: set<string>)
    requires Good(s, delivered, used)
    ensures Good(SetStartupActions(s, actions), delivered, used)
  {
    hide Guarded, TasksKnown, TasksOk;
    RetainedKeeps(s.tasks, (t: Task) => t.id !in s.instances.Values || t.state == Running, delivered, used);
  }

  // ---------------------------------------------------------------- startup templates

  lemma {:induction false} TemplatePositionIs(templates: seq<Template>, id: string)
    ensures var p := TemplatePosition(templates, id);
            match p
            case Some(i) => i < |templates| && templates[i].id == id
            case None => forall k :: 0 <= k < |templates| ==> templates[k].id != id
  {
    if |templates| > 0 && templates[0].id != id {
      TemplatePositionIs(templates[1..], id);
      assert forall k :: 0 < k < |templates| ==> templates[k] == templates[1..][k - 1];
    }
  }

  /** A template is replaced in place, or one under a new id is added. */
  lemma SavedTemplateKeeps(s: State, input: Input, newId: string, now: int, delivered: seq<Arming>, used: set<string>)
    requires Good(s, delivered, used) && newId !in used && SaveStartupTask(s, input, newId, now).Ok?
    ensures Good(SaveStartupTask(s, input, newId, now).value, delivered, used + {newId})
  {
    hide TemplateParts, ResolveTrigger, TasksOk, TasksKnown, InstancesOk, Guarded;
    KnownMore(s, delivered, used, used + {newId});
    if input.id.Some? {
      TemplatePositionIs(s.startupTasks, input.id.value);
    }
  }

  lemma {:induction false} TemplatesWithoutIs(templates: seq<Template>, id: string, used: set<string>)
    requires TemplatesOk(templates, used)
    ensures TemplatesOk(TemplatesWithout(templates, id), used)
    ensures forall t :: t in TemplatesWithout(templates, id) ==> t in templates
  {
    if |templates| > 0 {
      assert forall i :: 0 <= i < |templates[1..]| ==> templates[1..][i] == templates[i + 1];
      TemplatesWithoutIs(templates[1..], id, used);
      var rest := TemplatesWithout(templates[1..], id);
      forall k | 0 <= k < |rest| ensures rest[k].id != templates[0].id {
        assert rest[k] in templates[1..];
      }
    }
  }

  lemma DroppedTemplateKeeps(s: State, id: string, delivered: seq<Arming>, used: set<string>)
    requires Good(s, delivered, used)
    ensures Good(DeleteStartupTask(s, id), delivered, used)
  {
    hide TasksOk, TasksKnown, Guarded, TemplatesOk;
    TemplatesWithoutIs(s.startupTasks, id, used);
  }

  // ---------------------------------------------------------------- every step

  /** What an operation writes is good, and what it hands out is new. */
  lemma TryKeeps(s: State, op: Op, delivered: seq<Arming>, used: set<string>)
    requires Good(s, delivered, used) && DeliveredKnown(delivered, used) && OnceEach(delivered)
    requires EnoughIds(s, op) && AllNew(FreshIds(s, op), used) && Try(s, op).Writes?
    ensures var t := Try(s, op);
            var all := delivered + ArmingsOf(t.due);
            var more := used + IdSet(FreshIds(s, op));
            && Good(t.next, delivered, more) && Good(t.next, all, more) && OnceEach(all) && DeliveredKnown(all, more)
  {
    hide TasksOk, TasksKnown, Guarded, InstancesOk, TemplatesOk, Upsert, SetEnabled, Complete, Materialize, Fire,
         SaveStartupTask, SavePreset, DeletePreset, OnceEach, Activate;
    var t := Try(s, op);
    var more := used + IdSet(FreshIds(s, op));
    if op.FireDue? {
      TickKeeps(s, op.ids, op.now, delivered, used);
      KnownMore(t.next, delivered, used, more);
      KnownMore(t.next, delivered + ArmingsOf(t.due), used, more);
    } else {
      assert delivered + ArmingsOf([]) == delivered;
      QuietKeeps(s, op, delivered, used);
    }
  }

  lemma QuietKeeps(s: State, op: Op, delivered: seq<Arming>, used: set<string>)
    requires Good(s, delivered, used) && DeliveredKnown(delivered, used)
    requires EnoughIds(s, op) && AllNew(FreshIds(s, op), used) && Try(s, op).Writes? && !op.FireDue?
    ensures Good(Try(s, op).next, delivered, used + IdSet(FreshIds(s, op))) && Try(s, op).due == []
  {
    hide TasksOk, TasksKnown, Guarded, InstancesOk, TemplatesOk, Upsert, SetEnabled, Complete, Materialize, Fire, Activate,
         ResolveName, NormalizeActions, ResolveTrigger, SaveStartupTask, DeleteStartupTask;
    var ids := FreshIds(s, op);
    var next := Try(s, op).next;
    match op
    case Edit(input, newId, now) =>
      assert ids[0] == newId && IdSet(ids) == {newId};
      UpsertKeeps(s, input, newId, now, delivered, used);
    case Switch(id, expected, enabled, now) =>
      SetEnabledKeeps(s, id, expected, enabled, now, delivered, used);
      KnownMore(next, delivered, used, used + IdSet(ids));
    case Remove(id) =>
      RetainedKeeps(s.tasks, (t: Task) => t.id != id, delivered, used);
      KnownMore(next, delivered, used, used + IdSet(ids));
    case Report(execution, results, now) =>
      CompleteKeeps(s, execution, results, now, delivered, used);
      KnownMore(next, delivered, used, used + IdSet(ids));
    case ActivateStartup(token, newIds, now) =>
      ActivateKeeps(s, token, newIds, now, delivered, used);
    case StartupSettings(actions) =>
      SettingsKeep(s, actions, delivered, used);
      KnownMore(next, delivered, used, used + IdSet(ids));
    case StartupSwitch(on) =>
      KnownMore(next, delivered, used, used + IdSet(ids));
    case PutStartupTask(input, newId, now) =>
      assert ids[0] == newId && IdSet(ids) == {newId};
      SavedTemplateKeeps(s, input, newId, now, delivered, used);
    case DropStartupTask(id) =>
      DroppedTemplateKeeps(s, id, delivered, used);
      KnownMore(next, delivered, used, used + IdSet(ids));
    case PutPreset(input, newId, now) =>
      KnownMore(next, delivered, used, used + IdSet(ids));
    case DropPreset(id) =>
      KnownMore(next, delivered, used, used + IdSet(ids));
  }

  lemma DoKeeps(w: World, op: Op, o: Outcome)
    requires Inv(w) && Enabled(w, Do(op, o))
    ensures Inv(Apply(w, Do(op, o)))
  {
    hide Good, Try, OnceEach, EnoughIds, AllNew, FreshIds, ArmingsOf;
    var s := w.memory.value;
    var more := w.used + IdSet(FreshIds(s, op));
    UsedMore(w, more);
    assert IdSet(FreshIds(s, op)) == set i | 0 <= i < |FreshIds(s, op)| :: FreshIds(s, op)[i];
    if Try(s, op).Writes? {
      TryKeeps(s, op, w.delivered, w.used);
      if w.disk.Some? && o.ending.Returned? {
        assert o.effect.Written?;
      }
    }
  }

  lemma UsedMore(w: World, more: set<string>)
    requires Inv(w) && w.used <= more
    ensures Inv(w.(used := more))
  {
    hide Good, OnceEach;
    if w.memory.Some? {
      KnownMore(w.memory.value, w.delivered, w.used, more);
    }
    if w.disk.Some? {
      KnownMore(w.disk.value, w.delivered, w.used, more);
    }
  }

  lemma RestartKeeps(w: World, found: StartupActions, now: int, o: Outcome)
    requires Inv(w) && Enabled(w, Restart(found, now, o))
    ensures Inv(Apply(w, Restart(found, now, o)))
  {
    hide Good, Open, OnceEach;
    OpenKeeps(w.disk, found, now, w.delivered, w.used);
    assert w.delivered + ArmingsOf([]) == w.delivered;
  }

  lemma StepKeeps(w: World, step: Step)
    requires Inv(w)
    ensures Inv(Apply(w, step))
  {
    if Enabled(w, step) {
      match step
      case Do(op, o) => DoKeeps(w, op, o);
      case Crash =>
      case Restart(found, now, o) => RestartKeeps(w, found, now, o);
    }
  }

  lemma {:induction false} RunKeeps(w: World, steps: seq<Step>)
    requires Inv(w)
    ensures Inv(Run(w, steps))
    decreases |steps|
  {
    hide Inv, Apply;
    if |steps| > 0 {
      StepKeeps(w, steps[0]);
      RunKeeps(Apply(w, steps[0]), steps[1..]);
    }
  }

  /**
   * At most once: over every run of edits, ticks, completions, startup activations,
   * failing writes, crashes and restarts, no arming of a task is handed out twice; and
   * neither memory nor disk ever holds a handed-out arming that could still fire.
   */
  lemma AtMostOnce(steps: seq<Step>)
    ensures var w := Run(START, steps);
            && (forall i, j :: 0 <= i < j < |w.delivered| ==> w.delivered[i] != w.delivered[j])
            && (w.memory.Some? ==> Guarded(w.memory.value.tasks, w.delivered))
            && (w.disk.Some? ==> Guarded(w.disk.value.tasks, w.delivered))
  {
    hide Run, TasksOk, TasksKnown, Guarded, InstancesOk;
    assert Inv(START);
    RunKeeps(START, steps);
  }

  /**
   * In every reachable state, in memory and on disk, a task is enabled exactly when it is
   * armed and exactly when it has a next time, which is its trigger's.
   */
  lemma ArmedMeansEnabled(steps: seq<Step>, i: nat)
    requires var w := Run(START, steps);
             w.memory.Some? && i < |w.memory.value.tasks|
    ensures var t := Run(START, steps).memory.value.tasks[i];
            && (t.enabled <==> t.state == Armed) && (t.enabled <==> t.nextDue == Some(t.trigger.due))
            && (t.nextDue.Some? ==> t.enabled) && (t.lastExecution.Some? ==> !t.enabled)
  {
    hide Run, TasksKnown, Guarded, InstancesOk;
    assert Inv(START);
    RunKeeps(START, steps);
    assert TaskOk(Run(START, steps).memory.value.tasks[i]);
  }
}
