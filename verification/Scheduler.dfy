/**
 * The scheduler as the object it is: its state is changed in place and then written to
 * its file. Each method is proved to compute the operation of SchedulerState.dfy.
 */
module SchedulerObject {
  import opened Wrappers
  import opened SchedulerState
  import opened SchedulerRuns
  import opened SchedulerSafety
  import opened SchedulerFiring

  lemma JoinOne<T>(done: seq<T>, x: T, rest: seq<T>)
    ensures done + ([x] + rest) == done + [x] + rest
    ensures done + ([] + rest) == done + rest
  {
  }

  lemma ToRunStep(t: Task, now: int, k: nat, run: seq<DueAction>)
    requires k < |t.actions|
    ensures run + ToRun(t, now, k)
            == (if TooLate(t, now, t.actions[k]) then run else run + [DueAction(k, t.actions[k])]) + ToRun(t, now, k + 1)
  {
  }

  lemma ToMissStep(t: Task, now: int, k: nat, missed: seq<ActionResult>)
    requires k < |t.actions|
    ensures missed + ToMiss(t, now, k)
            == (if TooLate(t, now, t.actions[k])
                then missed + [ActionResult(k, ActionMissed, Some("LATE_GRACE_EXCEEDED"))] else missed)
               + ToMiss(t, now, k + 1)
  {
  }

  lemma FireStep(tasks: seq<Task>, ids: seq<string>, now: int, i: nat)
    requires |ids| == |tasks| && i < |tasks|
    ensures var all, rest := Fire(tasks[i..], ids[i..], now), Fire(tasks[i + 1..], ids[i + 1..], now);
            all == if DueBy(tasks[i], now) then
                     Ticked([FiredTask(tasks[i], ids[i], now)] + rest.tasks,
                            [FiredRecord(tasks[i], ids[i], now)] + rest.records,
                            FiredDue(tasks[i], ids[i], now) + rest.due)
                   else Ticked([tasks[i]] + rest.tasks, rest.records, rest.due)
  {
    assert tasks[i..][1..] == tasks[i + 1..] && ids[i..][1..] == ids[i + 1..];
  }

  /** The actions of a due task, split by one pass into those to run and those missed. */
  method SplitActions(t: Task, now: int) returns (run: seq<DueAction>, missed: seq<ActionResult>)
    ensures run == ToRun(t, now, 0) && missed == ToMiss(t, now, 0)
    ensures SplitByClock(t, now, run, missed)
  {
    hide SplitByClock;
    SplitsByClock(t, now);
    var late := LateBy(t, now);
    var veryLate := late > LATE_GRACE_MILLIS;
    run, missed := [], [];
    var k := 0;
    assert [] + ToRun(t, now, 0) == ToRun(t, now, 0) && [] + ToMiss(t, now, 0) == ToMiss(t, now, 0);
    while k < |t.actions|
      invariant k <= |t.actions|
      invariant run + ToRun(t, now, k) == ToRun(t, now, 0)
      invariant missed + ToMiss(t, now, k) == ToMiss(t, now, 0)
    {
      ToRunStep(t, now, k, run);
      ToMissStep(t, now, k, missed);
      if veryLate && !t.actions[k].RunsWhenVeryLate() {
        missed := missed + [ActionResult(k, ActionMissed, Some("LATE_GRACE_EXCEEDED"))];
      } else {
        run := run + [DueAction(k, t.actions[k])];
      }
      k := k + 1;
    }
    assert run + [] == run && missed + [] == missed;
  }

  /** The number of an automatic name: the first one that is free or does not fit. */
  method AutomaticNumber(names: set<string>, prefix: string) returns (number: nat)
    ensures number == FirstFree(names, prefix, 1)
  {
    number := 1;
    while |Candidate(prefix, number)| <= MAX_NAME && Candidate(prefix, number) in names
      invariant number >= 1 && AllTaken(names, prefix, number)
      invariant FirstFree(names, prefix, number) == FirstFree(names, prefix, 1)
      decreases |names| + 1 - number
    {
      Pigeonhole(names, prefix, number + 1);
      number := number + 1;
    }
  }

  class Scheduler {
    var tasks: seq<Task>
    var history: seq<Record>
    var presets: seq<Template>
    var startupEnabled: bool
    var startupActions: Option<StartupActions>
    var startupTasks: seq<Template>
    var lastToken: Option<string>
    var instances: map<string, string>
    var file: Option<State>

    function View(): State
      reads this
    {
      State(tasks, history, presets, startupEnabled, startupActions, startupTasks, lastToken, instances)
    }

    /** Puts back a copy of the state taken before. */
    method Restore(s: State)
      modifies this
      ensures View() == s && file == old(file)
    {
      tasks, history, presets, startupEnabled := s.tasks, s.history, s.presets, s.startupEnabled;
      startupActions, startupTasks, lastToken, instances := s.startupActions, s.startupTasks, s.lastToken, s.instances;
    }

    /** Writes the state; a failing write may leave the old file or none. */
    method Persist(effect: Effect) returns (ok: bool)
      modifies this`file
      ensures ok == effect.Written?
      ensures file == match effect case Written => Some(View()) case Kept => old(file) case Gone => None
    {
      match effect
      case Written =>
        file := Some(View());
        return true;
      case Kept => return false;
      case Gone =>
        file := None;
        return false;
    }

    /** What a call that wrote leaves behind, as the runs of the scheduler have it. */
    static ghost predicate Wrote(before: State, next: State, undone: bool, effect: Effect,
                                 oldFile: Option<State>, after: State, newFile: Option<State>)
    {
      var w := World(Some(before), oldFile, [], {});
      var c := Commit(w, w.memory, next, [], undone, Outcome(effect, if effect.Written? then Returned else Errored));
      c.memory == Some(after) && c.disk == newFile
    }

    /** Takes over what the file holds. */
    constructor (stored: Option<State>)
      ensures View() == (if stored.Some? then stored.value else EMPTY) && file == stored
    {
      var s := if stored.Some? then stored.value else EMPTY;
      tasks, history, presets, startupEnabled := s.tasks, s.history, s.presets, s.startupEnabled;
      startupActions, startupTasks, lastToken, instances := s.startupActions, s.startupTasks, s.lastToken, s.instances;
      file := stored;
    }

    /** Takes over startup settings of an older kind, and drops the pending instances they made. */
    method MigrateStartupActions(found: StartupActions) returns (migrated: bool)
      modifies this
      ensures View() == Migrate(old(View()), found) && file == old(file)
      ensures migrated == old(startupActions).None?
    {
      migrated := startupActions.None?;
      Restore(Migrate(View(), found));
    }

    /**
     * Opens the stored state: pending startup instances of old settings go, running
     * executions are interrupted, and a changed state is written back. No scheduler
     * comes of it if that fails.
     */
    static method Open(stored: Option<State>, found: StartupActions, now: int, effect: Effect)
      returns (r: Option<Scheduler>, file: Option<State>)
      ensures var w := Apply(World(None, stored, [], {}),
                             Restart(found, now, Outcome(effect, if effect.Written? then Returned else Errored)));
              w.memory == (if r.Some? then Some(r.value.View()) else None) && w.disk == file
      ensures r.Some? ==> fresh(r.value) && r.value.file == file
    {
      hide Migrate, Reconcile;
      var s := new Scheduler(stored);
      var migrated := s.MigrateStartupActions(found);
      var changed := s.ReconcileInterrupted(now);
      if changed || migrated {
        var ok := s.Persist(effect);
        if !ok {
          return None, s.file;
        }
      }
      return Some(s), s.file;
    }

    /** The first task with an id. */
    method FindTask(id: string) returns (found: Option<nat>)
      ensures found == Position(tasks, id)
      ensures found.Some? ==> found.value < |tasks| && tasks[found.value].id == id
    {
      PositionIs(tasks, id);
      var i := 0;
      while i < |tasks|
        invariant i <= |tasks| && forall k :: 0 <= k < i ==> tasks[k].id != id
      {
        if tasks[i].id == id {
          return Some(i);
        }
        i := i + 1;
      }
      return None;
    }

    method ResolveName(name: string, prefix: string) returns (r: Result<string, Error>)
      ensures r == SchedulerState.ResolveName(Names(View()), name, prefix)
    {
      var trimmed := Trim(name);
      if trimmed != "" {
        if |trimmed| > MAX_NAME {
          return Err(NAME_ERROR);
        }
        return Ok(trimmed);
      }
      var number := AutomaticNumber(Names(View()), PrefixOf(prefix));
      var candidate := Candidate(PrefixOf(prefix), number);
      if |candidate| > MAX_NAME {
        return Err(NAME_ERROR);
      }
      return Ok(candidate);
    }

    /** Adds or replaces a task in memory only. */
    method UpsertUnpersisted(input: Input, newId: string, now: int) returns (r: Result<Task, Error>)
      modifies this`tasks
      ensures match SchedulerState.Upsert(old(View()), input, newId, now)
              case Err(e) => r == Err(e) && View() == old(View())
              case Ok(u) => r == Ok(u.task) && View() == u.state
    {
      hide SchedulerState.ResolveName, NormalizeActions, ResolveTrigger, Position;
      var name := ResolveName(input.name, input.prefix);
      if name.Err? {
        return Err(name.error);
      }
      var actions := NormalizeActions(input.actions);
      if actions.Err? {
        return Err(actions.error);
      }
      if |actions.value| == 0 {
        return Err(Validation("scheduled task must contain at least one action"));
      }
      var found: Option<nat> := None;
      if input.id.Some? {
        found := FindTask(input.id.value);
      }
      if found.None? && |tasks| >= MAX_SCHEDULED_TASKS {
        return Err(Validation("scheduled task limit reached"));
      }
      var id, revision, created := newId, 1, now;
      if found.Some? {
        var existing := tasks[found.value];
        if input.expected.Some? && input.expected.value != existing.revision {
          return Err(RevisionConflict(input.expected.value, existing.revision));
        }
        id, revision, created := existing.id, existing.revision + 1, existing.created;
      } else if input.id.Some? && Trim(input.id.value) != "" {
        return Err(NotFound(input.id.value));
      }
      var trigger := ResolveTrigger(input.trigger, input.enabled, now);
      if trigger.Err? {
        return Err(trigger.error);
      }
      var task := Made(id, revision, created, name.value, input, actions.value, trigger.value, now);
      if found.Some? {
        tasks := tasks[found.value := task];
      } else {
        tasks := tasks + [task];
      }
      return Ok(task);
    }

    /** Adds or replaces a task; a failed write puts the state back. */
    method Upsert(input: Input, newId: string, now: int, effect: Effect) returns (r: Result<Task, Error>)
      modifies this
      ensures match SchedulerState.Upsert(old(View()), input, newId, now)
              case Err(e) => r == Err(e) && View() == old(View()) && file == old(file)
              case Ok(u) =>
                && r == (if effect.Written? then Ok(u.task) else Err(Io))
                && Wrote(old(View()), u.state, true, effect, old(file), View(), file)
    {
      hide SchedulerState.Upsert;
      var previous := View();
      r := UpsertUnpersisted(input, newId, now);
      if r.Ok? {
        var ok := Persist(effect);
        if !ok {
          r := Err(Io);
        }
      }
      if r.Err? {
        Restore(previous);
      }
    }

    /** Arms or disarms a task; the change stays in memory even if it cannot be written. */
    method SetEnabled(id: string, expected: Option<nat>, enabled: bool, now: int, effect: Effect)
        returns (r: Result<Task, Error>)
      modifies this
      ensures match SchedulerState.SetEnabled(old(View()), id, expected, enabled, now)
              case Err(e) => r == Err(e) && View() == old(View()) && file == old(file)
              case Ok(u) =>
                && r == (if effect.Written? then Ok(u.task) else Err(Io))
                && Wrote(old(View()), u.state, false, effect, old(file), View(), file)
    {
      hide Position;
      var found := FindTask(id);
      if found.None? {
        return Err(NotFound(id));
      }
      var task := tasks[found.value];
      if expected.Some? && expected.value != task.revision {
        return Err(RevisionConflict(expected.value, task.revision));
      }
      var trigger := task.trigger;
      if enabled {
        var rearmed := Rearmed(task, now);
        if rearmed.Err? {
          return Err(rearmed.error);
        }
        trigger := rearmed.value;
      }
      task := task.(revision := task.revision + 1, updated := now, enabled := enabled, lastExecution := None,
                    trigger := trigger);
      if enabled {
        task := task.(state := Armed, nextDue := Some(trigger.due));
      } else {
        task := task.(state := Disabled, nextDue := None);
      }
      tasks := tasks[found.value := task];
      var ok := Persist(effect);
      return if ok then Ok(task) else Err(Io);
    }

    method Delete(id: string, effect: Effect) returns (r: Result<bool, Error>)
      modifies this
      ensures match SchedulerState.Delete(old(View()), id)
              case Err(e) => r == Err(e) && View() == old(View()) && file == old(file)
              case Ok(next) =>
                && r == (if effect.Written? then Ok(true) else Err(Io))
                && Wrote(old(View()), next, false, effect, old(file), View(), file)
    {
      var found := FindTask(id);
      if found.None? {
        return Err(NotFound(id));
      }
      tasks := Retained(tasks, (t: Task) => t.id != id);
      var ok := Persist(effect);
      return if ok then Ok(true) else Err(Io);
    }

    /** The earliest time of an armed task. */
    method NextWakeup() returns (at: Option<int>)
      ensures at == SchedulerState.NextWakeup(tasks)
    {
      at := None;
      var i := |tasks|;
      assert tasks[i..] == [];
      while i > 0
        invariant i <= |tasks| && at == SchedulerState.NextWakeup(tasks[i..])
      {
        i := i - 1;
        assert tasks[i..][1..] == tasks[i + 1..];
        var t := tasks[i];
        if t.enabled && t.state == Armed && t.nextDue.Some? && (at.None? || t.nextDue.value <= at.value) {
          at := t.nextDue;
        }
      }
      assert tasks[0..] == tasks;
    }

    /** Disarms one due task, records its execution, and says what it is to run. */
    method FireTask(i: nat, execution: string, now: int) returns (due: seq<Due>)
      requires i < |tasks|
      modifies this`tasks, this`history
      ensures tasks == old(tasks)[i := FiredTask(old(tasks[i]), execution, now)]
      ensures history == old(history) + [FiredRecord(old(tasks[i]), execution, now)]
      ensures due == FiredDue(old(tasks[i]), execution, now)
    {
      var task := tasks[i];
      var run, missed := SplitActions(task, now);
      tasks := tasks[i := task.(enabled := false, nextDue := None, lastExecution := Some(execution),
                                state := if run == [] then Missed else Running)];
      history := history + [Record(execution, task.id, task.revision, task.name, task.trigger.due, now,
                                   if run == [] then Some(now) else None, LateBy(task, now), missed,
                                   if run == [] then ExecutionMissed else ExecutionRunning)];
      due := [];
      if run != [] {
        due := [Due(execution, task.id, task.revision, task.name, task.trigger.due, LateBy(task, now), run)];
      }
    }

    /** Fires every due task in list order. */
    method FireDue(ids: seq<string>, now: int) returns (due: seq<Due>, any: bool)
      requires |ids| == |tasks|
      modifies this`tasks, this`history
      ensures var fired := Fire(old(tasks), ids, now);
              tasks == fired.tasks && history == old(history) + fired.records && due == fired.due
      ensures any <==> AnyDue(old(tasks), now)
      ensures !any ==> tasks == old(tasks) && history == old(history) && due == []
    {
      hide DueBy, FiredTask, FiredRecord, FiredDue, Fire, FiredSoFar;
      ghost var before, earlier := tasks, history;
      ghost var records: seq<Record> := [];
      due, any := [], false;
      var i := 0;
      FiredStart(tasks, ids, now);
      assert history + [] == history;
      while i < |tasks|
        invariant i <= |tasks| == |before| && FiredSoFar(before, ids, now, i, tasks, records, due, any)
        invariant history == earlier + records
      {
        FiredStep(before, ids, now, i, tasks, records, due, any);
        if DueBy(tasks[i], now) {
          any := true;
          records := records + [FiredRecord(tasks[i], ids[i], now)];
          var fromTask := FireTask(i, ids[i], now);
          due := due + fromTask;
        }
        i := i + 1;
      }
      FiredEnd(before, ids, now, tasks, records, due, any);
      assert earlier + [] == earlier;
    }

    /** Fires what is due, writes the result, and only then hands the actions out. */
    method Tick(ids: seq<string>, now: int, effect: Effect) returns (r: Result<seq<Due>, Error>)
      requires |ids| == |tasks|
      modifies this
      ensures if AnyDue(old(tasks), now) then
                var t := SchedulerState.Tick(old(View()), ids, now);
                && r == (if effect.Written? then Ok(t.due) else Err(Io))
                && Wrote(old(View()), t.state, false, effect, old(file), View(), file)
              else r == Ok([]) && View() == old(View()) && file == old(file)
      ensures TasksOk(old(tasks)) && |ids| <= 200 && r.Ok? ==> TickedByClock(old(View()), ids, now, View(), r.value)
    {
      hide DueBy, Fire, TickedByClock, TasksOk;
      if TasksOk(tasks) && |ids| <= 200 {
        TickByClock(View(), ids, now);
        if !AnyDue(tasks, now) {
          NothingDue(View(), ids, now);
        }
      }
      var due, any := FireDue(ids, now);
      if !any {
        return Ok([]);
      }
      if |history| > MAX_EXECUTION_HISTORY {
        history := history[|history| - MAX_EXECUTION_HISTORY..];
      }
      var ok := Persist(effect);
      return if ok then Ok(due) else Err(Io);
    }

    /** Records a report once and settles what was run, if it is still that execution's. */
    method CompleteExecution(execution: string, results: seq<ActionResult>, now: int, effect: Effect)
      returns (r: Result<Record, Error>)
      modifies this
      ensures match Complete(old(View()), execution, results, now)
              case Err(e) => r == Err(e) && View() == old(View()) && file == old(file)
              case Ok(next) =>
                if next == old(View()) then r.Ok? && View() == old(View()) && file == old(file)
                else
                  && (r.Ok? <==> effect.Written?)
                  && Wrote(old(View()), next, false, effect, old(file), View(), file)
      ensures r.Ok? ==>
                var p := RecordPosition(old(history), execution);
                p.Some? && p.value < |history| && r.value == history[p.value]
    {
      hide Completed, Settle, RecordPosition;
      var found := FindRecord(execution);
      if found.None? {
        return Err(NotFound(execution));
      }
      var record := history[found.value];
      if record.result != ExecutionRunning {
        return Ok(record);
      }
      CompletedIsOver(record, results, now);
      record := Completed(record, results, now);
      history := history[found.value := record];
      var i := 0;
      SettleFrom(tasks, record.task, execution, StateFor(record.result));
      while i < |tasks| && !RunBy(tasks[i], record.task, execution)
        invariant i <= |tasks| && file == old(file)
        invariant View() == old(View()).(history := old(history)[found.value := record])
        invariant Settle(tasks, record.task, execution, StateFor(record.result))
                  == tasks[..i] + Settle(tasks[i..], record.task, execution, StateFor(record.result))
      {
        SettleStep(tasks, i, record.task, execution, StateFor(record.result));
        i := i + 1;
      }
      SettleEnd(tasks, i, record.task, execution, StateFor(record.result));
      if i < |tasks| {
        tasks := tasks[i := tasks[i].(state := StateFor(record.result))];
      }
      var ok := Persist(effect);
      return if ok then Ok(record) else Err(Io);
    }

    method FindRecord(execution: string) returns (found: Option<nat>)
      ensures found == RecordPosition(history, execution)
      ensures found.Some? ==> found.value < |history|
    {
      var i := |history|;
      found := None;
      assert history[i..] == [];
      while i > 0
        invariant i <= |history|
        invariant found == (if RecordPosition(history[i..], execution).None? then None
                            else Some(RecordPosition(history[i..], execution).value + i))
        invariant found.Some? ==> found.value < |history|
      {
        i := i - 1;
        assert history[i..][1..] == history[i + 1..];
        if history[i].execution == execution {
          found := Some(i);
        }
      }
      assert history[0..] == history;
    }

    /** Interrupts every execution that was running, and fails the tasks they had not settled. */
    method ReconcileInterrupted(now: int) returns (changed: bool)
      modifies this`tasks, this`history
      ensures var r := Reconcile(old(tasks), old(history), now);
              tasks == r.tasks && history == r.history && changed == r.changed
    {
      hide Interrupt, ReconciledSoFar;
      ghost var start, before := tasks, history;
      changed := false;
      var i := 0;
      ReconciledStart(tasks, history, now);
      while i < |history|
        invariant i <= |before| == |history| && ReconciledSoFar(start, before, now, i, tasks, history, changed)
      {
        ReconciledStep(start, before, now, i, tasks, history, changed);
        var r := history[i];
        if r.result == ExecutionRunning {
          history := history[i := r.(result := ExecutionInterrupted, finished := Some(now))];
          changed := true;
          tasks := Interrupt(tasks, r);
        }
        i := i + 1;
      }
      ReconciledEnd(start, before, now, tasks, history, changed);
    }

    /** Turns the enabled templates into armed tasks once per token; any failure puts the state back. */
    method ActivateStartupTasks(token: string, ids: seq<string>, now: int, effect: Effect) returns (r: Result<bool, Error>)
      requires |ids| == |StartupTemplates(View())|
      modifies this
      ensures match Activate(old(View()), token, ids, now)
              case Err(e) => r == Err(e) && View() == old(View()) && file == old(file)
              case Ok(next) =>
                if !Activates(old(View()), token) then r == Ok(true) && View() == old(View()) && file == old(file)
                else
                  && r == (if effect.Written? then Ok(true) else Err(Io))
                  && Wrote(old(View()), next, true, effect, old(file), View(), file)
    {
      hide SchedulerState.Upsert, TemplateInput, Materialize;
      if |token| == 0 || |token| > 200 {
        return Err(Validation("INVALID_STARTUP_TOKEN"));
      }
      if !startupEnabled || lastToken == Some(token) {
        return Ok(true);
      }
      var previous := View();
      var templates := StartupTemplates(View());
      startupTasks := templates;
      ghost var start := View();
      var i := 0;
      assert templates[0..] == templates && ids[0..] == ids;
      while i < |templates|
        invariant i <= |templates| == |ids| && file == old(file)
        invariant Materialize(start, templates, ids, now) == Materialize(View(), templates[i..], ids[i..], now)
      {
        MaterializeNext(View(), templates, ids, i, now);
        var template := templates[i];
        if template.enabled {
          if !template.trigger.CountdownInput? {
            Restore(previous);
            return Err(Validation("STARTUP_COUNTDOWN_ONLY"));
          }
          ghost var was := View();
          var task := UpsertUnpersisted(TemplateInput(View(), template), ids[i], now);
          if task.Err? {
            Restore(previous);
            return Err(task.error);
          }
          instances := instances[template.id := task.value.id];
        }
        i := i + 1;
      }
      MaterializeDone(View(), templates, ids, now);
      lastToken := Some(token);
      var ok := Persist(effect);
      if !ok {
        Restore(previous);
        return Err(Io);
      }
      return Ok(true);
    }
  }

  // ---------------------------------------------------------------- unfolding, one step at a time

  /** The tasks before a place have fired if they were due, the others are as they were. */
  ghost predicate FiredSoFar(before: seq<Task>, ids: seq<string>, now: int, i: nat, tasks: seq<Task>, records: seq<Record>,
                             due: seq<Due>, any: bool)
  {
    && i <= |before| == |tasks| == |ids| && tasks[i..] == before[i..]
    && var rest := Fire(before[i..], ids[i..], now);
    && Fire(before, ids, now) == Ticked(tasks[..i] + rest.tasks, records + rest.records, due + rest.due)
    && (any <==> exists k :: 0 <= k < i && DueBy(before[k], now))
    && (!any ==> tasks == before && records == [] && due == [])
  }

  lemma FiredStart(tasks: seq<Task>, ids: seq<string>, now: int)
    requires |ids| == |tasks|
    ensures FiredSoFar(tasks, ids, now, 0, tasks, [], [], false)
  {
    hide DueBy, Fire;
    assert tasks[0..] == tasks && ids[0..] == ids;
    var f := Fire(tasks, ids, now);
    assert tasks[..0] + f.tasks == f.tasks && [] + f.records == f.records && [] + f.due == f.due;
  }

  lemma FiredStep(before: seq<Task>, ids: seq<string>, now: int, i: nat, tasks: seq<Task>, records: seq<Record>,
                  due: seq<Due>, any: bool)
    requires FiredSoFar(before, ids, now, i, tasks, records, due, any) && i < |tasks|
    ensures var t := tasks[i];
            if DueBy(t, now) then
              FiredSoFar(before, ids, now, i + 1, tasks[i := FiredTask(t, ids[i], now)],
                         records + [FiredRecord(t, ids[i], now)], due + FiredDue(t, ids[i], now), true)
            else FiredSoFar(before, ids, now, i + 1, tasks, records, due, any)
  {
    hide DueBy, FiredTask, FiredRecord, FiredDue, Fire;
    var t := tasks[i];
    assert tasks[i..][0] == before[i..][0] && t == before[i];
    FireStep(before, ids, now, i);
    var rest := Fire(before[i + 1..], ids[i + 1..], now);
    FireSplit(tasks[..i], records, due, t, ids[i], now, rest);
    SuffixStep(before, tasks, i, FiredTask(t, ids[i], now));
    SuffixStep(before, tasks, i, t);
    assert tasks[i := t] == tasks;
  }

  lemma SuffixStep(before: seq<Task>, tasks: seq<Task>, i: nat, x: Task)
    requires i < |before| == |tasks| && tasks[i..] == before[i..]
    ensures tasks[i := x][i + 1..] == before[i + 1..] && tasks[i := x][..i + 1] == tasks[..i] + [x]
  {
    assert tasks[i..][1..] == tasks[i + 1..] && before[i..][1..] == before[i + 1..];
  }

  lemma FiredEnd(before: seq<Task>, ids: seq<string>, now: int, tasks: seq<Task>, records: seq<Record>, due: seq<Due>,
                 any: bool)
    requires FiredSoFar(before, ids, now, |before|, tasks, records, due, any)
    ensures Fire(before, ids, now) == Ticked(tasks, records, due) && (any <==> AnyDue(before, now))
    ensures !any ==> tasks == before && records == [] && due == []
  {
    hide DueBy;
    var n := |before|;
    assert Fire(before[n..], ids[n..], now) == Ticked([], [], []);
    assert tasks[..n] + [] == tasks && records + [] == records && due + [] == due;
  }

  lemma FireSplit(done: seq<Task>, records: seq<Record>, due: seq<Due>, t: Task, id: string, now: int, rest: Ticked)
    ensures done + ([FiredTask(t, id, now)] + rest.tasks) == done + [FiredTask(t, id, now)] + rest.tasks
    ensures done + ([t] + rest.tasks) == done + [t] + rest.tasks
    ensures records + ([FiredRecord(t, id, now)] + rest.records) == records + [FiredRecord(t, id, now)] + rest.records
    ensures due + (FiredDue(t, id, now) + rest.due) == due + FiredDue(t, id, now) + rest.due
  {
  }

  lemma CompletedIsOver(r: Record, results: seq<ActionResult>, now: int)
    ensures var done := Completed(r, results, now);
            done.result != ExecutionRunning && done.task == r.task && done.execution == r.execution
  {
  }

  lemma SettleFrom(tasks: seq<Task>, task: string, execution: string, state: TaskState)
    ensures Settle(tasks, task, execution, state) == tasks[..0] + Settle(tasks[0..], task, execution, state)
  {
    assert tasks[0..] == tasks;
  }

  lemma SettleStep(tasks: seq<Task>, i: nat, task: string, execution: string, state: TaskState)
    requires i < |tasks| && !RunBy(tasks[i], task, execution)
    ensures tasks[..i] + Settle(tasks[i..], task, execution, state)
            == tasks[..i + 1] + Settle(tasks[i + 1..], task, execution, state)
  {
    assert tasks[i..][1..] == tasks[i + 1..];
  }

  lemma SettleEnd(tasks: seq<Task>, i: nat, task: string, execution: string, state: TaskState)
    requires i <= |tasks| && (i < |tasks| ==> RunBy(tasks[i], task, execution))
    ensures tasks[..i] + Settle(tasks[i..], task, execution, state)
            == if i < |tasks| then tasks[i := tasks[i].(state := state)] else tasks
  {
  }

  lemma ReconcileStep(tasks: seq<Task>, history: seq<Record>, i: nat, now: int)
    requires i < |history|
    ensures var r := history[i];
            var running := r.result == ExecutionRunning;
            var rest := Reconcile(if running then Interrupt(tasks, r) else tasks, history[i + 1..], now);
            Reconcile(tasks, history[i..], now)
            == if running then
                 Reconciled(rest.tasks, [r.(result := ExecutionInterrupted, finished := Some(now))] + rest.history, true)
               else Reconciled(rest.tasks, [r] + rest.history, rest.changed)
  {
    assert history[i..][1..] == history[i + 1..];
  }

  /** The records before a place are reconciled, the others are as they were. */
  ghost predicate ReconciledSoFar(start: seq<Task>, before: seq<Record>, now: int, i: nat, tasks: seq<Task>,
                                  history: seq<Record>, changed: bool)
  {
    && i <= |before| == |history| && history[i..] == before[i..]
    && var rest := Reconcile(tasks, before[i..], now);
    && Reconcile(start, before, now) == Reconciled(rest.tasks, history[..i] + rest.history, changed || rest.changed)
  }

  lemma ReconciledStart(tasks: seq<Task>, history: seq<Record>, now: int)
    ensures ReconciledSoFar(tasks, history, now, 0, tasks, history, false)
  {
    hide Reconcile;
    assert history[0..] == history;
    assert history[..0] + Reconcile(tasks, history, now).history == Reconcile(tasks, history, now).history;
  }

  lemma ReconciledStep(start: seq<Task>, before: seq<Record>, now: int, i: nat, tasks: seq<Task>,
                       history: seq<Record>, changed: bool)
    requires ReconciledSoFar(start, before, now, i, tasks, history, changed) && i < |history|
    ensures var r := history[i];
            if r.result == ExecutionRunning then
              ReconciledSoFar(start, before, now, i + 1, Interrupt(tasks, r),
                              history[i := r.(result := ExecutionInterrupted, finished := Some(now))], true)
            else ReconciledSoFar(start, before, now, i + 1, tasks, history, changed)
  {
    hide Reconcile, Interrupt;
    var r := history[i];
    assert history[i..][0] == before[i..][0] && r == before[i];
    ReconcileStep(tasks, before, i, now);
    var done := r.(result := ExecutionInterrupted, finished := Some(now));
    RecordStep(before, history, i, done);
    RecordStep(before, history, i, r);
    assert history[i := r] == history;
    JoinOne(history[..i], done, Reconcile(Interrupt(tasks, r), before[i + 1..], now).history);
    JoinOne(history[..i], r, Reconcile(tasks, before[i + 1..], now).history);
  }

  lemma RecordStep(before: seq<Record>, history: seq<Record>, i: nat, x: Record)
    requires i < |before| == |history| && history[i..] == before[i..]
    ensures history[i := x][i + 1..] == before[i + 1..] && history[i := x][..i + 1] == history[..i] + [x]
  {
    assert history[i..][1..] == history[i + 1..] && before[i..][1..] == before[i + 1..];
  }

  lemma ReconciledEnd(start: seq<Task>, before: seq<Record>, now: int, tasks: seq<Task>, history: seq<Record>,
                      changed: bool)
    requires ReconciledSoFar(start, before, now, |before|, tasks, history, changed)
    ensures Reconcile(start, before, now) == Reconciled(tasks, history, changed)
  {
    assert history[..|before|] + [] == history;
  }

  lemma MaterializeNext(s: State, templates: seq<Template>, ids: seq<string>, i: nat, now: int)
    requires |ids| == |templates| && i < |templates|
    ensures var t := templates[i];
            Materialize(s, templates[i..], ids[i..], now)
            == if !t.enabled then Materialize(s, templates[i + 1..], ids[i + 1..], now)
               else if !t.trigger.CountdownInput? then Err(Validation("STARTUP_COUNTDOWN_ONLY"))
               else
                 var u := SchedulerState.Upsert(s, TemplateInput(s, t), ids[i], now);
                 if u.Err? then Err(u.error)
                 else
                   Materialize(u.value.state.(instances := s.instances[t.id := u.value.task.id]), templates[i + 1..],
                               ids[i + 1..], now)
  {
    hide SchedulerState.Upsert, TemplateInput;
    assert templates[i..][1..] == templates[i + 1..] && ids[i..][1..] == ids[i + 1..];
  }

  lemma MaterializeDone(s: State, templates: seq<Template>, ids: seq<string>, now: int)
    requires |ids| == |templates|
    ensures Materialize(s, templates[|templates|..], ids[|templates|..], now) == Ok(s)
  {
  }
}
