/** What a report, a restart and new settings do to the tasks and their history, exactly. */
module SchedulerReports {
  import opened Wrappers
  import opened SchedulerState
  import opened SchedulerRuns
  import opened SchedulerSafety
  import opened SchedulerEffects
  import opened SchedulerLists
  import opened SchedulerEdits

  // ---------------------------------------------------------------- reports

  predicate Counted(r: ActionResult) {
    r.state in {ActionSucceeded, ActionNoOp, ActionPartial}
  }

  /** How a task stands after results: all good, all missed, none good, or some. */
  predicate Stands(state: TaskState, results: seq<ActionResult>) {
    match state
    case Succeeded => forall i :: 0 <= i < |results| ==> Counted(results[i])
    case Missed => results != [] && forall i :: 0 <= i < |results| ==> results[i].state == ActionMissed
    case Failed =>
      (forall i :: 0 <= i < |results| ==> !Counted(results[i]))
      && exists i :: 0 <= i < |results| && results[i].state != ActionMissed
    case PartiallySucceeded =>
      (exists i :: 0 <= i < |results| && Counted(results[i])) && exists i :: 0 <= i < |results| && !Counted(results[i])
    case _ => false
  }

  lemma SummaryStands(results: seq<ActionResult>)
    ensures Stands(StateFor(Summary(results)), results)
    ensures Summary(results) in {ExecutionSucceeded, ExecutionPartial, ExecutionFailed, ExecutionMissed}
  {
  }

  /** The record of an execution. */
  predicate RecordAt(history: seq<Record>, execution: string, p: int) {
    0 <= p < |history| && history[p].execution == execution && forall k :: 0 <= k < p ==> history[k].execution != execution
  }

  /** The task that an execution was the last of. */
  predicate RanLast(t: Task, r: Record) {
    t.id == r.task && t.lastExecution == Some(r.execution)
  }

  lemma {:induction false} SettleExactly(tasks: seq<Task>, task: string, execution: string, state: TaskState)
    requires forall i, j :: 0 <= i < j < |tasks| ==> tasks[i].id != tasks[j].id
    ensures var r := Settle(tasks, task, execution, state);
            && |r| == |tasks|
            && forall i :: 0 <= i < |tasks| ==>
                 r[i] == if tasks[i].id == task && tasks[i].lastExecution == Some(execution)
                         then tasks[i].(state := state) else tasks[i]
  {
    if |tasks| > 0 && !RunBy(tasks[0], task, execution) {
      SettleExactly(tasks[1..], task, execution, state);
      assert Settle(tasks, task, execution, state)[1..] == Settle(tasks[1..], task, execution, state);
    }
  }

  /**
   * A report counts exactly if its execution has a record that is still running. Then the
   * record is finished now with what was missed and what is reported, in order, and the
   * task it was the last execution of stands as these results say. Nothing else changes.
   */
  lemma ReportsExactly(s: State, execution: string, results: seq<ActionResult>, now: int, p: int)
    requires TasksOk(s.tasks) && RecordAt(s.history, execution, p)
    ensures var c := Complete(s, execution, results, now);
            var r := s.history[p];
            && c.Ok? && c.value == s.(tasks := c.value.tasks, history := c.value.history)
            && (r.result != ExecutionRunning ==> c.value == s)
            && (r.result == ExecutionRunning ==>
                  && |c.value.history| == |s.history| && |c.value.tasks| == |s.tasks|
                  && (forall k :: 0 <= k < |s.history| && k != p ==> c.value.history[k] == s.history[k])
                  && var done := c.value.history[p];
                  && done == r.(results := done.results, finished := Some(now), result := done.result)
                  && multiset(done.results) == multiset(r.results) + multiset(results) && ByIndex(done.results)
                  && done.result in {ExecutionSucceeded, ExecutionPartial, ExecutionFailed, ExecutionMissed}
                  && Stands(StateFor(done.result), done.results)
                  && forall i :: 0 <= i < |s.tasks| ==>
                       if RanLast(s.tasks[i], r) then
                         c.value.tasks[i] == s.tasks[i].(state := c.value.tasks[i].state)
                         && Stands(c.value.tasks[i].state, done.results)
                       else c.value.tasks[i] == s.tasks[i])
  {
    hide Settle, Summary, SortResults, Stands;
    RecordPositionIs(s.history, execution);
    var r := s.history[p];
    if r.result == ExecutionRunning {
      var done := Completed(r, results, now);
      CompletedRecord(r, results, now);
      SummaryStands(done.results);
      SettleExactly(s.tasks, r.task, execution, StateFor(done.result));
      hide StateFor;
    }
  }

  lemma UnknownReport(s: State, execution: string, results: seq<ActionResult>, now: int)
    requires forall k :: 0 <= k < |s.history| ==> s.history[k].execution != execution
    ensures Complete(s, execution, results, now) == Err(NotFound(execution))
  {
    RecordPositionIs(s.history, execution);
  }

  // ---------------------------------------------------------------- restarting

  /** The task's last execution was running when the program ended. */
  predicate WasRunning(t: Task, history: seq<Record>) {
    exists k :: 0 <= k < |history| && history[k].result == ExecutionRunning && RanLast(t, history[k])
  }

  function Broken(t: Task): Task {
    t.(state := Failed, enabled := false, nextDue := None)
  }

  lemma {:induction false} InterruptExactly(tasks: seq<Task>, r: Record)
    requires forall i, j :: 0 <= i < j < |tasks| ==> tasks[i].id != tasks[j].id
    ensures var after := Interrupt(tasks, r);
            && |after| == |tasks|
            && forall i :: 0 <= i < |tasks| ==> after[i] == if RanLast(tasks[i], r) then Broken(tasks[i]) else tasks[i]
  {
    if |tasks| > 0 && !RunBy(tasks[0], r.task, r.execution) {
      InterruptExactly(tasks[1..], r);
      assert Interrupt(tasks, r)[1..] == Interrupt(tasks[1..], r);
    }
  }

  /** Exactly the running records end as interrupted, and exactly the tasks they were the last executions of fail. */
  lemma {:induction false} ReconcilesExactly(tasks: seq<Task>, history: seq<Record>, now: int)
    requires forall i, j :: 0 <= i < j < |tasks| ==> tasks[i].id != tasks[j].id
    ensures var r := Reconcile(tasks, history, now);
            && |r.tasks| == |tasks| && |r.history| == |history|
            && (forall k :: 0 <= k < |history| ==>
                  r.history[k] == if history[k].result == ExecutionRunning
                                  then history[k].(result := ExecutionInterrupted, finished := Some(now)) else history[k])
            && (forall i :: 0 <= i < |tasks| ==>
                  r.tasks[i] == if WasRunning(tasks[i], history) then Broken(tasks[i]) else tasks[i])
            && (r.changed <==> exists k :: 0 <= k < |history| && history[k].result == ExecutionRunning)
    decreases |history|
  {
    if |history| > 0 {
      hide Interrupt;
      var first, rest := history[0], history[1..];
      var between := if first.result == ExecutionRunning then Interrupt(tasks, first) else tasks;
      InterruptExactly(tasks, first);
      ReconcilesExactly(between, rest, now);
      assert forall k :: 0 < k < |history| ==> history[k] == rest[k - 1];
      forall i | 0 <= i < |tasks|
        ensures WasRunning(tasks[i], history)
                <==> (first.result == ExecutionRunning && RanLast(tasks[i], first)) || WasRunning(between[i], rest)
      {
        RunningSplit(tasks[i], between[i], history);
      }
    }
  }

  lemma RunningSplit(t: Task, between: Task, history: seq<Record>)
    requires |history| > 0 && between.id == t.id && between.lastExecution == t.lastExecution
    ensures WasRunning(t, history)
            <==> (history[0].result == ExecutionRunning && RanLast(t, history[0])) || WasRunning(between, history[1..])
  {
    if k :| 0 <= k < |history| && history[k].result == ExecutionRunning && RanLast(t, history[k]) {
      if k > 0 {
        assert history[1..][k - 1] == history[k];
      }
    }
    if k :| 0 <= k < |history[1..]| && history[1..][k].result == ExecutionRunning && RanLast(between, history[1..][k]) {
      assert history[k + 1] == history[1..][k];
    }
  }

  /** Tasks that came from old startup templates and have not begun. */
  predicate Leftover(t: Task, instances: map<string, string>) {
    t.state != Running && exists a :: a in instances && instances[a] == t.id
  }

  /** Those and only those go, the others keep their order. */
  lemma {:induction false} PendingExactly(tasks: seq<Task>, instances: map<string, string>)
    ensures PendingGone(tasks, instances)
            == if |tasks| == 0 then []
               else PendingGone(tasks[..|tasks| - 1], instances)
                    + (if Leftover(tasks[|tasks| - 1], instances) then [] else [tasks[|tasks| - 1]])
  {
    if |tasks| > 0 {
      var front, last := tasks[..|tasks| - 1], [tasks[|tasks| - 1]];
      assert tasks == front + last;
      RetainedJoin(front, last, (t: Task) => t.id !in instances.Values || t.state == Running);
      assert last[1..] == [];
    }
  }

  /** What taking over old settings changes: once, and nothing but the settings, their templates and their pending tasks. */
  lemma MigratesOnce(s: State, found: StartupActions)
    ensures var m := Migrate(s, found);
            && (s.startupActions.Some? ==> m == s)
            && (s.startupActions.None? ==>
                  && m == s.(tasks := PendingGone(s.tasks, s.instances), instances := map[], startupActions := Some(found),
                             startupTasks := m.startupTasks)
                  && (s.startupTasks == [] ==> m.startupTasks == [])
                  && (s.startupTasks != [] ==> m.startupTasks == [DefaultTemplate(found)]))
  {
  }

  function DefaultTemplate(a: StartupActions): Template {
    Template("startup-actions", "EchoClip", true, CountdownInput(0),
             [SetUploadEnabled(a.upload), if a.recording then StartRecording else StopRecording])
  }

  /** Settings of the startup take the place of all templates and of their tasks that have not begun. */
  lemma SettingsExactly(s: State, a: StartupActions)
    ensures SetStartupActions(s, a)
            == s.(tasks := PendingGone(s.tasks, s.instances), instances := map[], startupActions := Some(a),
                  startupTasks := [DefaultTemplate(a)])
  {
  }

  /**
   * Opening, exactly: the file's state with its old settings taken over, in which every
   * execution that was running is interrupted and its task has failed. It is written back
   * exactly if that changed it.
   */
  lemma OpensExactly(file: Option<State>, found: StartupActions, now: int)
    requires file.Some? ==> TasksOk(file.value.tasks)
    ensures var o := Open(file, found, now);
            var m := Migrate(if file.Some? then file.value else EMPTY, found);
            && o.state == m.(tasks := o.state.tasks, history := o.state.history)
            && |o.state.history| == |m.history| && |o.state.tasks| == |m.tasks|
            && (forall k :: 0 <= k < |m.history| ==>
                  o.state.history[k] == if m.history[k].result == ExecutionRunning
                                        then m.history[k].(result := ExecutionInterrupted, finished := Some(now))
                                        else m.history[k])
            && (forall i :: 0 <= i < |m.tasks| ==>
                  o.state.tasks[i] == if WasRunning(m.tasks[i], m.history) then Broken(m.tasks[i]) else m.tasks[i])
            && (file.Some? && !o.changed ==> o.state == file.value)
            && (file.None? ==> o.changed)
  {
    hide Reconcile;
    var before := if file.Some? then file.value else EMPTY;
    RetainedIs(before.tasks, (t: Task) => t.id !in before.instances.Values || t.state == Running);
    var m := Migrate(before, found);
    ReconcilesExactly(m.tasks, m.history, now);
    var o := Open(file, found, now);
    if file.Some? && !o.changed {
      assert o.state.history == m.history;
      assert o.state.tasks == m.tasks;
    }
  }
}
