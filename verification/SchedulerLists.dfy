/** What the scheduler's lists hold: actions in order, results in order, bounded lengths. */
module SchedulerLists {
  import opened Wrappers
  import opened SchedulerState
  import opened SchedulerRuns
  import opened SchedulerSafety

  // ---------------------------------------------------------------- actions

  predicate InOrder(actions: seq<Action>) {
    forall i, j :: 0 <= i < j < |actions| ==> actions[i].Order() <= actions[j].Order()
  }

  lemma ActionRest(sorted: seq<Action>)
    requires InOrder(sorted) && |sorted| > 0
    ensures InOrder(sorted[1..]) && forall x :: x in sorted ==> sorted[0].Order() <= x.Order()
  {
    assert forall i :: 0 <= i < |sorted[1..]| ==> sorted[1..][i] == sorted[i + 1];
  }

  lemma ActionCons(x: Action, sorted: seq<Action>)
    requires InOrder(sorted) && forall y :: y in sorted ==> x.Order() <= y.Order()
    ensures InOrder([x] + sorted)
  {
    var all := [x] + sorted;
    assert forall i :: 0 < i < |all| ==> all[i] == sorted[i - 1] && all[i] in sorted;
  }

  lemma {:induction false} InsertActionKeeps(a: Action, sorted: seq<Action>)
    requires InOrder(sorted)
    ensures InOrder(InsertAction(a, sorted)) && multiset(InsertAction(a, sorted)) == multiset(sorted) + multiset{a}
  {
    hide InOrder;
    if |sorted| > 0 {
      ActionRest(sorted);
    }
    if |sorted| == 0 || a.Order() <= sorted[0].Order() {
      ActionCons(a, sorted);
      assert multiset([a] + sorted) == multiset{a} + multiset(sorted);
    } else {
      InsertActionKeeps(a, sorted[1..]);
      var rest := InsertAction(a, sorted[1..]);
      assert sorted == [sorted[0]] + sorted[1..];
      forall x | x in rest ensures sorted[0].Order() <= x.Order() {
        assert x in multiset(rest);
        assert x == a || x in sorted[1..];
      }
      ActionCons(sorted[0], rest);
    }
  }

  /** Sorting actions neither loses nor repeats one. */
  lemma {:induction false} SortActionsSorts(actions: seq<Action>)
    ensures InOrder(SortActions(actions)) && multiset(SortActions(actions)) == multiset(actions)
  {
    if |actions| > 0 {
      hide InOrder, InsertAction;
      SortActionsSorts(actions[1..]);
      InsertActionKeeps(actions[0], SortActions(actions[1..]));
      assert actions == [actions[0]] + actions[1..];
    }
  }

  predicate DurationFits(a: Action) {
    a.SaveRecent? ==> 0 < a.seconds <= 86_400 && (a.wav ==> a.seconds <= 14_400)
  }

  /** At most one action of a kind. */
  predicate AtMostOne(actions: seq<Action>, keep: Action -> bool) {
    forall i, j :: 0 <= i < j < |actions| ==> !(keep(actions[i]) && keep(actions[j]))
  }

  lemma {:induction false} CountIs(actions: seq<Action>, keep: Action -> bool)
    ensures CountOf(actions, keep) == 0 <==> forall i :: 0 <= i < |actions| ==> !keep(actions[i])
    ensures CountOf(actions, keep) <= 1 <==> AtMostOne(actions, keep)
  {
    if |actions| > 0 {
      CountIs(actions[1..], keep);
      assert forall i :: 0 < i < |actions| ==> actions[i] == actions[1..][i - 1];
      if CountOf(actions, keep) > 1 {
        if keep(actions[0]) {
          var i :| 0 <= i < |actions[1..]| && keep(actions[1..][i]);
          assert keep(actions[0]) && keep(actions[i + 1]);
        } else {
          var i, j :| 0 <= i < j < |actions[1..]| && keep(actions[1..][i]) && keep(actions[1..][j]);
          assert keep(actions[i + 1]) && keep(actions[j + 1]);
        }
      } else {
        assert forall i :: 0 <= i < |actions[1..]| ==> actions[1..][i] == actions[i + 1];
      }
    }
  }

  lemma {:induction false} SaveErrorIs(actions: seq<Action>)
    ensures SaveError(actions).None? <==> forall i :: 0 <= i < |actions| ==> DurationFits(actions[i])
  {
    if |actions| > 0 {
      SaveErrorIs(actions[1..]);
      assert forall i :: 0 < i < |actions| ==> actions[i] == actions[1..][i - 1];
      assert forall i :: 0 <= i < |actions[1..]| ==> actions[1..][i] == actions[i + 1];
    }
  }

  /** Starting and stopping at once. */
  predicate Conflict(actions: seq<Action>) {
    (exists i :: 0 <= i < |actions| && actions[i].StartRecording?)
    && (exists j :: 0 <= j < |actions| && actions[j].StopRecording?)
  }

  /** The upload is switched before anything else, and saving comes last. */
  predicate Arranged(actions: seq<Action>) {
    forall i, j :: 0 <= i < j < |actions| ==>
      (actions[j].SetUploadEnabled? ==> actions[i].SetUploadEnabled?) && (actions[i].SaveRecent? ==> actions[j].SaveRecent?)
  }

  lemma OrderArranges(actions: seq<Action>)
    requires InOrder(actions)
    ensures Arranged(actions)
  {
    forall i, j | 0 <= i < j < |actions|
      ensures actions[j].SetUploadEnabled? ==> actions[i].SetUploadEnabled?
      ensures actions[i].SaveRecent? ==> actions[j].SaveRecent?
    {
      assert actions[i].Order() <= actions[j].Order();
    }
  }

  /**
   * Actions are accepted exactly when there are at most eight, no kind twice, no start
   * beside a stop and no duration out of range; accepted ones are the same actions with
   * uploads first, recording next and saving last.
   */
  lemma NormalizedActions(actions: seq<Action>)
    ensures NormalizeActions(actions).Ok? <==>
            && |actions| <= MAX_TASK_ACTIONS && !Conflict(actions)
            && AtMostOne(actions, (a: Action) => a.StartRecording?) && AtMostOne(actions, (a: Action) => a.StopRecording?)
            && AtMostOne(actions, (a: Action) => a.SetUploadEnabled?) && AtMostOne(actions, (a: Action) => a.SaveRecent?)
            && forall i :: 0 <= i < |actions| ==> DurationFits(actions[i])
    ensures NormalizeActions(actions).Ok? ==>
              var r := NormalizeActions(actions).value;
              multiset(r) == multiset(actions) && InOrder(r) && Arranged(r)
  {
    hide CountOf, AtMostOne, SaveError, DurationFits, InOrder, SortActions;
    CountIs(actions, (a: Action) => a.StartRecording?);
    CountIs(actions, (a: Action) => a.StopRecording?);
    CountIs(actions, (a: Action) => a.SetUploadEnabled?);
    CountIs(actions, (a: Action) => a.SaveRecent?);
    SaveErrorIs(actions);
    SortActionsSorts(actions);
    if NormalizeActions(actions).Ok? {
      OrderArranges(NormalizeActions(actions).value);
    }
  }

  // ---------------------------------------------------------------- results

  predicate ByIndex(results: seq<ActionResult>) {
    forall i, j :: 0 <= i < j < |results| ==> results[i].index <= results[j].index
  }

  lemma ResultRest(sorted: seq<ActionResult>)
    requires ByIndex(sorted) && |sorted| > 0
    ensures ByIndex(sorted[1..]) && forall x :: x in sorted ==> sorted[0].index <= x.index
  {
    assert forall i :: 0 <= i < |sorted[1..]| ==> sorted[1..][i] == sorted[i + 1];
  }

  lemma ResultCons(x: ActionResult, sorted: seq<ActionResult>)
    requires ByIndex(sorted) && forall y :: y in sorted ==> x.index <= y.index
    ensures ByIndex([x] + sorted)
  {
    var all := [x] + sorted;
    assert forall i :: 0 < i < |all| ==> all[i] == sorted[i - 1] && all[i] in sorted;
  }

  lemma {:induction false} InsertResultKeeps(r: ActionResult, sorted: seq<ActionResult>)
    requires ByIndex(sorted)
    ensures ByIndex(InsertResult(r, sorted)) && multiset(InsertResult(r, sorted)) == multiset(sorted) + multiset{r}
  {
    hide ByIndex;
    if |sorted| > 0 {
      ResultRest(sorted);
    }
    if |sorted| == 0 || r.index <= sorted[0].index {
      ResultCons(r, sorted);
      assert multiset([r] + sorted) == multiset{r} + multiset(sorted);
    } else {
      InsertResultKeeps(r, sorted[1..]);
      var rest := InsertResult(r, sorted[1..]);
      assert sorted == [sorted[0]] + sorted[1..];
      forall x | x in rest ensures sorted[0].index <= x.index {
        assert x in multiset(rest);
        assert x == r || x in sorted[1..];
      }
      ResultCons(sorted[0], rest);
    }
  }

  lemma {:induction false} SortResultsSorts(results: seq<ActionResult>)
    ensures ByIndex(SortResults(results)) && multiset(SortResults(results)) == multiset(results)
  {
    if |results| > 0 {
      SortResultsSorts(results[1..]);
      InsertResultKeeps(results[0], SortResults(results[1..]));
      assert results == [results[0]] + results[1..];
    }
  }

  function Successes(results: seq<ActionResult>): nat {
    if |results| == 0 then 0 else (if Success(results[0]) then 1 else 0) + Successes(results[1..])
  }

  lemma {:induction false} SuccessesAre(results: seq<ActionResult>)
    ensures Successes(results) <= |results|
    ensures Successes(results) == |results| <==> forall i :: 0 <= i < |results| ==> Success(results[i])
    ensures Successes(results) == 0 <==> forall i :: 0 <= i < |results| ==> !Success(results[i])
  {
    if |results| > 0 {
      SuccessesAre(results[1..]);
      assert forall i :: 0 < i < |results| ==> results[i] == results[1..][i - 1];
      assert forall i :: 0 <= i < |results[1..]| ==> results[1..][i] == results[i + 1];
    }
  }

  /** The summary in terms of how many results are successes, and never a running one. */
  lemma SummaryByCounts(results: seq<ActionResult>)
    ensures var n := Successes(results);
            var missed := forall i :: 0 <= i < |results| ==> results[i].state.ActionMissed?;
            Summary(results) == if n == |results| then ExecutionSucceeded
                                else if n == 0 && missed then ExecutionMissed
                                else if n == 0 then ExecutionFailed
                                else ExecutionPartial
  {
    SuccessesAre(results);
    if |results| > 0 && (forall i :: 0 <= i < |results| ==> results[i].state.ActionMissed?) {
      assert !Success(results[0]);
    }
  }

  /** A completed record lists what was missed at the start and what was reported, by action. */
  lemma CompletedRecord(r: Record, results: seq<ActionResult>, now: int)
    ensures var done := Completed(r, results, now);
            && multiset(done.results) == multiset(r.results) + multiset(results) && ByIndex(done.results)
            && done.finished == Some(now) && done.result != ExecutionRunning
            && done.(results := r.results, finished := r.finished, result := r.result) == r
  {
    SortResultsSorts(r.results + results);
  }

  // ---------------------------------------------------------------- new armings

  /** Whatever arms a task sets a time that is still to come, so nothing fires as it is armed. */
  lemma NewArmingsAreLater(s: State, input: Input, newId: string, id: string, expected: Option<nat>, enabled: bool,
                           now: int)
    ensures Upsert(s, input, newId, now).Ok? ==>
              var t := Upsert(s, input, newId, now).value.task;
              t.enabled == input.enabled && t.actions != [] && (t.enabled ==> t.trigger.due > now && !DueBy(t, now))
    ensures SetEnabled(s, id, expected, enabled, now).Ok? ==>
              var t := SetEnabled(s, id, expected, enabled, now).value.task;
              t.id == id && t.enabled == enabled
              && (enabled && (t.trigger.Countdown? ==> t.trigger.delay > 0) ==> t.trigger.due > now && !DueBy(t, now))
  {
    hide ResolveName, NormalizeActions;
    NormalizedActions(input.actions);
    PositionIs(s.tasks, id);
    if input.id.Some? {
      PositionIs(s.tasks, input.id.value);
    }
  }

  // ---------------------------------------------------------------- lengths

  predicate Bounded(s: State) {
    && |s.tasks| <= MAX_SCHEDULED_TASKS && |s.history| <= MAX_EXECUTION_HISTORY
    && |s.presets| <= MAX_SCHEDULE_PRESETS && |s.startupTasks| <= MAX_SCHEDULED_TASKS
  }

  lemma {:induction false} RetainedShorter(tasks: seq<Task>, keep: Task -> bool)
    ensures |Retained(tasks, keep)| <= |tasks|
  {
    if |tasks| > 0 {
      RetainedShorter(tasks[1..], keep);
    }
  }

  lemma {:induction false} TemplatesShorter(templates: seq<Template>, id: string)
    ensures |TemplatesWithout(templates, id)| <= |templates|
  {
    if |templates| > 0 {
      TemplatesShorter(templates[1..], id);
    }
  }

  lemma {:induction false} SettleLength(tasks: seq<Task>, task: string, execution: string, state: TaskState)
    ensures |Settle(tasks, task, execution, state)| == |tasks|
  {
    if |tasks| > 0 && !RunBy(tasks[0], task, execution) {
      SettleLength(tasks[1..], task, execution, state);
    }
  }

  lemma {:induction false} InterruptLength(tasks: seq<Task>, r: Record)
    ensures |Interrupt(tasks, r)| == |tasks|
  {
    if |tasks| > 0 && !RunBy(tasks[0], r.task, r.execution) {
      InterruptLength(tasks[1..], r);
    }
  }

  lemma {:induction false} ReconcileLength(tasks: seq<Task>, history: seq<Record>, now: int)
    ensures var r := Reconcile(tasks, history, now);
            |r.tasks| == |tasks| && |r.history| == |history|
    decreases |history|
  {
    if |history| > 0 {
      if history[0].result == ExecutionRunning {
        InterruptLength(tasks, history[0]);
        ReconcileLength(Interrupt(tasks, history[0]), history[1..], now);
      } else {
        ReconcileLength(tasks, history[1..], now);
      }
    }
  }

  lemma UpsertBounded(s: State, input: Input, newId: string, now: int)
    requires Bounded(s) && Upsert(s, input, newId, now).Ok?
    ensures var u := Upsert(s, input, newId, now).value.state;
            Bounded(u) && u.startupTasks == s.startupTasks && u.presets == s.presets
  {
    hide ResolveName, NormalizeActions, ResolveTrigger;
    if input.id.Some? {
      PositionIs(s.tasks, input.id.value);
    }
  }

  lemma {:induction false} MaterializeBounded(s: State, templates: seq<Template>, ids: seq<string>, now: int)
    requires Bounded(s) && |ids| == |templates| && Materialize(s, templates, ids, now).Ok?
    ensures Bounded(Materialize(s, templates, ids, now).value)
    decreases |templates|
  {
    hide Upsert, TemplateInput;
    if |templates| > 0 {
      if templates[0].enabled {
        var input := TemplateInput(s, templates[0]);
        UpsertBounded(s, input, ids[0], now);
        var u := Upsert(s, input, ids[0], now).value;
        MaterializeBounded(u.state.(instances := s.instances[templates[0].id := u.task.id]), templates[1..], ids[1..], now);
      } else {
        MaterializeBounded(s, templates[1..], ids[1..], now);
      }
    }
  }

  lemma PendingBounded(s: State, actions: StartupActions)
    requires Bounded(s)
    ensures Bounded(SetStartupActions(s, actions)) && Bounded(Migrate(s, actions))
  {
    RetainedShorter(s.tasks, (t: Task) => t.id !in s.instances.Values || t.state == Running);
  }

  lemma SettingsBounded(s: State, input: Input, newId: string, id: string, now: int)
    requires Bounded(s)
    ensures SaveStartupTask(s, input, newId, now).Ok? ==> Bounded(SaveStartupTask(s, input, newId, now).value)
    ensures SavePreset(s, input, newId, now).Ok? ==> Bounded(SavePreset(s, input, newId, now).value)
    ensures DeletePreset(s, id).Ok? ==> Bounded(DeletePreset(s, id).value)
    ensures Bounded(DeleteStartupTask(s, id))
  {
    hide ResolveName, NormalizeActions, ResolveTrigger;
    TemplatesShorter(s.startupTasks, id);
    TemplatePositionIs(s.presets, id);
    if input.id.Some? {
      TemplatePositionIs(s.startupTasks, input.id.value);
    }
  }

  lemma TaskOpsBounded(s: State, op: Op)
    requires Bounded(s) && EnoughIds(s, op) && Try(s, op).Writes?
    requires op.Edit? || op.Switch? || op.Remove? || op.FireDue? || op.Report?
    ensures Bounded(Try(s, op).next)
  {
    hide Upsert, Fire, Retained, Settle, Completed, Rearmed;
    match op
    case Edit(input, newId, now) => UpsertBounded(s, input, newId, now);
    case Switch(id, _, _, _) => PositionIs(s.tasks, id);
    case Remove(id) => RetainedShorter(s.tasks, (t: Task) => t.id != id);
    case FireDue(ids, now) => FireIs(s.tasks, ids, now);
    case Report(execution, results, now) =>
      var p := RecordPosition(s.history, execution);
      if p.Some? && p.value < |s.history| {
        var r := s.history[p.value];
        SettleLength(s.tasks, r.task, execution, StateFor(Completed(r, results, now).result));
      }
  }

  lemma TryBounded(s: State, op: Op)
    requires Bounded(s) && EnoughIds(s, op) && Try(s, op).Writes?
    ensures Bounded(Try(s, op).next)
  {
    hide Upsert, SetEnabled, Delete, Tick, Complete, Materialize, SaveStartupTask, SavePreset, DeletePreset,
         DeleteStartupTask, SetStartupActions;
    match op
    case ActivateStartup(token, ids, now) =>
      MaterializeBounded(s.(startupTasks := StartupTemplates(s)), StartupTemplates(s), ids, now);
    case StartupSettings(actions) => PendingBounded(s, actions);
    case StartupSwitch(on) =>
    case PutStartupTask(input, newId, now) => SettingsBounded(s, input, newId, "", now);
    case DropStartupTask(id) => SettingsBounded(s, Input(None, None, "", "", false, CountdownInput(0), []), "", id, 0);
    case PutPreset(input, newId, now) => SettingsBounded(s, input, newId, "", now);
    case DropPreset(id) => SettingsBounded(s, Input(None, None, "", "", false, CountdownInput(0), []), "", id, 0);
    case _ => TaskOpsBounded(s, op);
  }

  lemma OpenBounded(file: Option<State>, found: StartupActions, now: int)
    requires file.Some? ==> Bounded(file.value)
    ensures Bounded(Open(file, found, now).state)
  {
    hide Migrate, Reconcile;
    var before := if file.Some? then file.value else EMPTY;
    PendingBounded(before, found);
    var s := Migrate(before, found);
    ReconcileLength(s.tasks, s.history, now);
  }

  predicate AllBounded(w: World) {
    (w.memory.Some? ==> Bounded(w.memory.value)) && (w.disk.Some? ==> Bounded(w.disk.value))
  }

  lemma StepBounded(w: World, step: Step)
    requires AllBounded(w)
    ensures AllBounded(Apply(w, step))
  {
    hide Bounded, Try, Open, AllNew, EnoughIds;
    if Enabled(w, step) {
      match step
      case Crash =>
      case Restart(found, now, o) => OpenBounded(w.disk, found, now);
      case Do(op, o) =>
        if Try(w.memory.value, op).Writes? {
          TryBounded(w.memory.value, op);
        }
    }
  }

  lemma {:induction false} RunBounded(w: World, steps: seq<Step>)
    requires AllBounded(w)
    ensures AllBounded(Run(w, steps))
    decreases |steps|
  {
    hide AllBounded, Apply;
    if |steps| > 0 {
      StepBounded(w, steps[0]);
      RunBounded(Apply(w, steps[0]), steps[1..]);
    }
  }

  /** In every reachable state, in memory and on disk, the lists stay within their limits. */
  lemma ListsStayBounded(steps: seq<Step>)
    ensures var w := Run(START, steps);
            && (w.memory.Some? ==> Bounded(w.memory.value))
            && (w.disk.Some? ==> Bounded(w.disk.value))
  {
    hide Run;
    RunBounded(START, steps);
  }
}
