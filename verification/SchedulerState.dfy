/** One-shot tasks: the scheduler's state and what each operation makes of it. */
module SchedulerState {
  import opened Wrappers
  import D = Decimal

  const MAX_SCHEDULED_TASKS := 128
  const MAX_SCHEDULE_PRESETS := 9
  const MAX_TASK_ACTIONS := 8
  const MAX_EXECUTION_HISTORY := 200
  const MAX_NAME := 80
  const STARTUP_ID := "startup-actions"
  const LATE_GRACE_MILLIS := 5 * 60 * 1_000
  const MAX_COUNTDOWN_MILLIS := 365 * 24 * 60 * 60 * 1_000
  const I64_MIN := -0x8000_0000_0000_0000
  const I64_MAX := 0x7fff_ffff_ffff_ffff

  datatype Error = Io | Validation(message: string) | NotFound(id: string) | RevisionConflict(expected: nat, actual: nat)

  datatype TriggerInput =
    | CountdownInput(delay: nat)
    | TimePointInput(at: int, local: string, zone: string, offset: int)

  datatype Trigger =
    | Countdown(created: int, delay: nat, due: int)
    | TimePoint(due: int, local: string, zone: string, offset: int)

  datatype Action =
    | SetUploadEnabled(on: bool)
    | StartRecording
    | StopRecording
    | SaveRecent(seconds: nat, wav: bool, allowPartial: bool)
  {
    function Order(): nat {
      if SetUploadEnabled? then 0 else if SaveRecent? then 2 else 1
    }

    /** What still makes sense long after the time it was meant for. */
    predicate RunsWhenVeryLate() {
      StopRecording? || this == SetUploadEnabled(false)
    }
  }

  datatype TaskState = Armed | Running | Succeeded | PartiallySucceeded | Failed | Missed | Disabled | Canceled

  datatype Task = Task(id: string, revision: nat, name: string, enabled: bool, trigger: Trigger, actions: seq<Action>,
                       state: TaskState, created: int, updated: int, nextDue: Option<int>, lastExecution: Option<string>)

  datatype ActionState = ActionSucceeded | ActionNoOp | ActionPartial | ActionFailed | ActionMissed | ActionBlocked

  datatype ActionResult = ActionResult(index: nat, state: ActionState, error: Option<string>)

  datatype ExecutionState = ExecutionRunning | ExecutionSucceeded | ExecutionPartial | ExecutionFailed | ExecutionMissed
                          | ExecutionInterrupted

  datatype Record = Record(execution: string, task: string, revision: nat, name: string, scheduledFor: int, started: int,
                           finished: Option<int>, lateBy: nat, results: seq<ActionResult>, result: ExecutionState)

  datatype DueAction = DueAction(index: nat, action: Action)

  datatype Due = Due(execution: string, task: string, revision: nat, name: string, scheduledFor: int, lateBy: nat,
                     actions: seq<DueAction>)

  datatype Template = Template(id: string, name: string, enabled: bool, trigger: TriggerInput, actions: seq<Action>)

  datatype StartupActions = StartupActions(recording: bool, upload: bool)

  datatype Input = Input(id: Option<string>, expected: Option<nat>, name: string, prefix: string, enabled: bool,
                         trigger: TriggerInput, actions: seq<Action>)

  datatype State = State(tasks: seq<Task>, history: seq<Record>, presets: seq<Template>, startupEnabled: bool,
                         startupActions: Option<StartupActions>, startupTasks: seq<Template>, lastToken: Option<string>,
                         instances: map<string, string>)

  const EMPTY := State([], [], [], false, None, [], None, map[])

  // ---------------------------------------------------------------- names

  predicate IsSpace(c: char) {
    c == ' ' || ('\t' <= c <= '\r')
  }

  function TrimStart(s: string): string {
    if |s| > 0 && IsSpace(s[0]) then TrimStart(s[1..]) else s
  }

  function TrimEnd(s: string): string {
    if |s| > 0 && IsSpace(s[|s| - 1]) then TrimEnd(s[..|s| - 1]) else s
  }

  function Trim(s: string): string {
    TrimEnd(TrimStart(s))
  }

  function TaskNames(tasks: seq<Task>): set<string> {
    set i | 0 <= i < |tasks| :: tasks[i].name
  }

  function TemplateNames(templates: seq<Template>): set<string> {
    set i | 0 <= i < |templates| :: templates[i].name
  }

  function Names(s: State): set<string> {
    TaskNames(s.tasks) + TemplateNames(s.presets) + TemplateNames(s.startupTasks)
  }

  function Candidate(prefix: string, number: nat): string {
    prefix + " " + D.Text(number)
  }

  predicate AllTaken(names: set<string>, prefix: string, number: nat) {
    forall k :: 1 <= k < number ==> Candidate(prefix, k) in names
  }

  lemma CandidatesAreDistinct(prefix: string, i: nat, j: nat)
    requires Candidate(prefix, i) == Candidate(prefix, j)
    ensures i == j
  {
    assert Candidate(prefix, i)[|prefix| + 1..] == D.Text(i);
    assert Candidate(prefix, j)[|prefix| + 1..] == D.Text(j);
    D.TextIsInjective(i, j);
  }

  /** There are no more taken numbers than names. */
  lemma {:induction false} Pigeonhole(names: set<string>, prefix: string, number: nat)
    requires number >= 1 && AllTaken(names, prefix, number)
    ensures number - 1 <= |names|
    decreases number
  {
    if number > 1 {
      var last := Candidate(prefix, number - 1);
      forall k | 1 <= k < number - 1 ensures Candidate(prefix, k) in names - {last} {
        if Candidate(prefix, k) == last {
          CandidatesAreDistinct(prefix, k, number - 1);
        }
      }
      Pigeonhole(names - {last}, prefix, number - 1);
    }
  }

  /** The first number from the given one whose candidate is too long or not taken. */
  function FirstFree(names: set<string>, prefix: string, number: nat): (n: nat)
    requires number >= 1 && AllTaken(names, prefix, number)
    ensures n >= number && AllTaken(names, prefix, n) && n - 1 <= |names|
    ensures |Candidate(prefix, n)| > MAX_NAME || Candidate(prefix, n) !in names
    ensures forall k :: number <= k < n ==> |Candidate(prefix, k)| <= MAX_NAME
    decreases |names| + 1 - number
  {
    Pigeonhole(names, prefix, number);
    if |Candidate(prefix, number)| > MAX_NAME || Candidate(prefix, number) !in names then number
    else
      Pigeonhole(names, prefix, number + 1);
      FirstFree(names, prefix, number + 1)
  }

  function PrefixOf(prefix: string): string {
    if Trim(prefix) == "" then "Task" else Trim(prefix)
  }

  const NAME_ERROR := Validation("task name must contain 1 to 80 characters")

  /** The given name, or the first free automatic one. */
  function ResolveName(names: set<string>, name: string, prefix: string): Result<string, Error> {
    if Trim(name) != "" then
      if |Trim(name)| > MAX_NAME then Err(NAME_ERROR) else Ok(Trim(name))
    else
      var p := PrefixOf(prefix);
      var n := FirstFree(names, p, 1);
      if |Candidate(p, n)| > MAX_NAME then Err(NAME_ERROR) else Ok(Candidate(p, n))
  }

  /**
   * An automatic name is the one with the smallest number that nothing else has, found
   * after at most one more attempt than there are names; only a name that is too long
   * makes the search fail.
   */
  lemma AutomaticNameIsSmallest(names: set<string>, name: string, prefix: string)
    requires Trim(name) == ""
    ensures var p := PrefixOf(prefix);
            match ResolveName(names, name, prefix)
            case Ok(found) =>
              && found !in names && |found| <= MAX_NAME
              && exists n :: 1 <= n <= |names| + 1 && found == Candidate(p, n) && AllTaken(names, p, n)
            case Err(error) =>
              && error == NAME_ERROR
              && exists n :: 1 <= n <= |names| + 1 && |Candidate(p, n)| > MAX_NAME && AllTaken(names, p, n)
  {
    var p := PrefixOf(prefix);
    var n := FirstFree(names, p, 1);
    assert AllTaken(names, p, n) && Candidate(p, n) == Candidate(p, n);
  }

  // ---------------------------------------------------------------- actions and triggers

  function CountOf(actions: seq<Action>, keep: Action -> bool): nat {
    if |actions| == 0 then 0 else (if keep(actions[0]) then 1 else 0) + CountOf(actions[1..], keep)
  }

  function InsertAction(a: Action, sorted: seq<Action>): seq<Action> {
    if |sorted| == 0 || a.Order() <= sorted[0].Order() then [a] + sorted else [sorted[0]] + InsertAction(a, sorted[1..])
  }

  /** A stable sort by the order in which actions are carried out. */
  function SortActions(actions: seq<Action>): seq<Action> {
    if |actions| == 0 then [] else InsertAction(actions[0], SortActions(actions[1..]))
  }

  function SaveError(actions: seq<Action>): Option<Error> {
    if |actions| == 0 then None
    else if actions[0].SaveRecent? && (actions[0].seconds == 0 || actions[0].seconds > 86_400) then
      Some(Validation("DURATION_OUT_OF_RANGE"))
    else if actions[0].SaveRecent? && actions[0].wav && actions[0].seconds > 14_400 then
      Some(Validation("wav_duration_limit_4_hours"))
    else SaveError(actions[1..])
  }

  function NormalizeActions(actions: seq<Action>): Result<seq<Action>, Error> {
    var starts := CountOf(actions, (a: Action) => a.StartRecording?);
    var stops := CountOf(actions, (a: Action) => a.StopRecording?);
    if |actions| > MAX_TASK_ACTIONS then Err(Validation("too many actions"))
    else if starts != 0 && stops != 0 then Err(Validation("ACTION_CONFLICT"))
    else if starts > 1 || stops > 1 then Err(Validation("duplicate recording action"))
    else if CountOf(actions, (a: Action) => a.SetUploadEnabled?) > 1 then Err(Validation("duplicate upload action"))
    else if CountOf(actions, (a: Action) => a.SaveRecent?) > 1 then Err(Validation("duplicate save action"))
    else if SaveError(actions).Some? then Err(SaveError(actions).value)
    else Ok(SortActions(actions))
  }

  function CheckedDue(now: int, delay: nat): Result<int, Error> {
    if delay > I64_MAX then Err(Validation("countdown is too large"))
    else if now + delay > I64_MAX then Err(Validation("countdown overflows clock"))
    else Ok(now + delay)
  }

  function ResolveTrigger(input: TriggerInput, enabled: bool, now: int): Result<Trigger, Error> {
    match input
    case CountdownInput(delay) =>
      if delay == 0 || delay > MAX_COUNTDOWN_MILLIS then
        Err(Validation("countdown must be between one millisecond and 365 days"))
      else if CheckedDue(now, delay).Err? then Err(CheckedDue(now, delay).error)
      else Ok(Countdown(now, delay, CheckedDue(now, delay).value))
    case TimePointInput(due, local, zone, offset) =>
      if enabled && due <= now then Err(Validation("TIME_POINT_IN_PAST"))
      else if Trim(local) == "" || Trim(zone) == "" then Err(Validation("time point requires local date/time and timezone"))
      else if offset < -1440 || offset > 1440 then Err(Validation("invalid UTC offset"))
      else Ok(TimePoint(due, local, zone, offset))
  }

  // ---------------------------------------------------------------- editing tasks

  function Position(tasks: seq<Task>, id: string): Option<nat> {
    if |tasks| == 0 then None
    else if tasks[0].id == id then Some(0)
    else
      var rest := Position(tasks[1..], id);
      if rest.None? then None else Some(rest.value + 1)
  }

  datatype Upserted = Upserted(state: State, task: Task)

  /** The task a valid input describes, armed if it is to be enabled. */
  function Made(id: string, revision: nat, created: int, name: string, input: Input, actions: seq<Action>,
                trigger: Trigger, now: int): Task
  {
    Task(id, revision, name, input.enabled, trigger, actions, if input.enabled then Armed else Disabled, created, now,
         if input.enabled then Some(trigger.due) else None, None)
  }

  /** Creates a task, or replaces one under its next revision; nothing is written yet. */
  function Upsert(s: State, input: Input, newId: string, now: int): Result<Upserted, Error> {
    var name := ResolveName(Names(s), input.name, input.prefix);
    var actions := NormalizeActions(input.actions);
    var found := if input.id.Some? then Position(s.tasks, input.id.value) else None;
    if name.Err? then Err(name.error)
    else if actions.Err? then Err(actions.error)
    else if |actions.value| == 0 then Err(Validation("scheduled task must contain at least one action"))
    else if found.None? && |s.tasks| >= MAX_SCHEDULED_TASKS then Err(Validation("scheduled task limit reached"))
    else if found.Some? && found.value < |s.tasks| && input.expected.Some?
            && input.expected.value != s.tasks[found.value].revision then
      Err(RevisionConflict(input.expected.value, s.tasks[found.value].revision))
    else if found.None? && input.id.Some? && Trim(input.id.value) != "" then Err(NotFound(input.id.value))
    else
      var trigger := ResolveTrigger(input.trigger, input.enabled, now);
      if trigger.Err? then Err(trigger.error)
      else if found.Some? && found.value < |s.tasks| then
        var previous := s.tasks[found.value];
        var task := Made(previous.id, previous.revision + 1, previous.created, name.value, input, actions.value,
                         trigger.value, now);
        Ok(Upserted(s.(tasks := s.tasks[found.value := task]), task))
      else
        var task := Made(newId, 1, now, name.value, input, actions.value, trigger.value, now);
        Ok(Upserted(s.(tasks := s.tasks + [task]), task))
  }

  /** The tasks to keep, in order. */
  function Retained(tasks: seq<Task>, keep: Task -> bool): seq<Task> {
    if |tasks| == 0 then []
    else (if keep(tasks[0]) then [tasks[0]] else []) + Retained(tasks[1..], keep)
  }

  function Delete(s: State, id: string): Result<State, Error> {
    if Position(s.tasks, id).None? then Err(NotFound(id)) else Ok(s.(tasks := Retained(s.tasks, (t: Task) => t.id != id)))
  }

  function Rearmed(t: Task, now: int): Result<Trigger, Error> {
    match t.trigger
    case Countdown(_, delay, _) =>
      if CheckedDue(now, delay).Err? then Err(CheckedDue(now, delay).error)
      else Ok(Countdown(now, delay, CheckedDue(now, delay).value))
    case TimePoint(due, _, _, _) => if due <= now then Err(Validation("TIME_POINT_IN_PAST")) else Ok(t.trigger)
  }

  /** Arms or disarms a task under its next revision; a countdown starts over. */
  function SetEnabled(s: State, id: string, expected: Option<nat>, enabled: bool, now: int): Result<Upserted, Error> {
    var found := Position(s.tasks, id);
    if found.None? || found.value >= |s.tasks| then Err(NotFound(id))
    else
      var t := s.tasks[found.value];
      if expected.Some? && expected.value != t.revision then Err(RevisionConflict(expected.value, t.revision))
      else if enabled && Rearmed(t, now).Err? then Err(Rearmed(t, now).error)
      else
        var trigger := if enabled then Rearmed(t, now).value else t.trigger;
        var task := t.(revision := t.revision + 1, updated := now, enabled := enabled, lastExecution := None,
                       trigger := trigger, state := if enabled then Armed else Disabled,
                       nextDue := if enabled then Some(trigger.due) else None);
        Ok(Upserted(s.(tasks := s.tasks[found.value := task]), task))
  }

  // ---------------------------------------------------------------- firing

  predicate DueBy(t: Task, now: int) {
    t.enabled && t.state == Armed && t.nextDue.Some? && t.nextDue.value <= now
  }

  function SaturatingSub(a: int, b: int): int {
    if a - b > I64_MAX then I64_MAX else if a - b < I64_MIN then I64_MIN else a - b
  }

  function LateBy(t: Task, now: int): nat {
    var late := SaturatingSub(now, t.trigger.due);
    if late < 0 then 0 else late
  }

  predicate TooLate(t: Task, now: int, a: Action) {
    LateBy(t, now) > LATE_GRACE_MILLIS && !a.RunsWhenVeryLate()
  }

  /** The actions of a due task from an index on that are to run. */
  function ToRun(t: Task, now: int, from: nat): seq<DueAction>
    requires from <= |t.actions|
    decreases |t.actions| - from
  {
    if from == |t.actions| then []
    else (if TooLate(t, now, t.actions[from]) then [] else [DueAction(from, t.actions[from])]) + ToRun(t, now, from + 1)
  }

  function ToMiss(t: Task, now: int, from: nat): seq<ActionResult>
    requires from <= |t.actions|
    decreases |t.actions| - from
  {
    if from == |t.actions| then []
    else (if TooLate(t, now, t.actions[from]) then [ActionResult(from, ActionMissed, Some("LATE_GRACE_EXCEEDED"))] else [])
         + ToMiss(t, now, from + 1)
  }

  /** A fired task is disarmed under the revision it fired with. */
  function FiredTask(t: Task, execution: string, now: int): Task {
    t.(enabled := false, nextDue := None, lastExecution := Some(execution),
       state := if ToRun(t, now, 0) == [] then Missed else Running)
  }

  function FiredRecord(t: Task, execution: string, now: int): Record {
    var none := ToRun(t, now, 0) == [];
    Record(execution, t.id, t.revision, t.name, t.trigger.due, now, if none then Some(now) else None, LateBy(t, now),
           ToMiss(t, now, 0), if none then ExecutionMissed else ExecutionRunning)
  }

  function FiredDue(t: Task, execution: string, now: int): seq<Due> {
    if ToRun(t, now, 0) == [] then []
    else [Due(execution, t.id, t.revision, t.name, t.trigger.due, LateBy(t, now), ToRun(t, now, 0))]
  }

  datatype Ticked = Ticked(tasks: seq<Task>, records: seq<Record>, due: seq<Due>)

  /** Fires every due task in list order; `ids` holds an execution id for each place. */
  function Fire(tasks: seq<Task>, ids: seq<string>, now: int): Ticked
    requires |ids| == |tasks|
  {
    if |tasks| == 0 then Ticked([], [], [])
    else
      var t := tasks[0];
      var rest := Fire(tasks[1..], ids[1..], now);
      if DueBy(t, now) then
        Ticked([FiredTask(t, ids[0], now)] + rest.tasks, [FiredRecord(t, ids[0], now)] + rest.records,
               FiredDue(t, ids[0], now) + rest.due)
      else Ticked([t] + rest.tasks, rest.records, rest.due)
  }

  predicate AnyDue(tasks: seq<Task>, now: int) {
    exists i :: 0 <= i < |tasks| && DueBy(tasks[i], now)
  }

  function Pruned(history: seq<Record>): seq<Record> {
    if |history| > MAX_EXECUTION_HISTORY then history[|history| - MAX_EXECUTION_HISTORY..] else history
  }

  datatype TickResult = TickResult(state: State, due: seq<Due>)

  /** All due tasks fire at once; what they deliver is handed out once the result is written. */
  function Tick(s: State, ids: seq<string>, now: int): TickResult
    requires |ids| == |s.tasks|
  {
    var fired := Fire(s.tasks, ids, now);
    TickResult(s.(tasks := fired.tasks, history := Pruned(s.history + fired.records)), fired.due)
  }

  function NextWakeup(tasks: seq<Task>): Option<int> {
    if |tasks| == 0 then None
    else
      var rest := NextWakeup(tasks[1..]);
      if tasks[0].enabled && tasks[0].state == Armed && tasks[0].nextDue.Some? then
        if rest.None? || tasks[0].nextDue.value <= rest.value then tasks[0].nextDue else rest
      else rest
  }

  // ---------------------------------------------------------------- completing

  function RecordPosition(history: seq<Record>, execution: string): Option<nat> {
    if |history| == 0 then None
    else if history[0].execution == execution then Some(0)
    else
      var rest := RecordPosition(history[1..], execution);
      if rest.None? then None else Some(rest.value + 1)
  }

  function InsertResult(r: ActionResult, sorted: seq<ActionResult>): seq<ActionResult> {
    if |sorted| == 0 || r.index <= sorted[0].index then [r] + sorted else [sorted[0]] + InsertResult(r, sorted[1..])
  }

  function SortResults(results: seq<ActionResult>): seq<ActionResult> {
    if |results| == 0 then [] else InsertResult(results[0], SortResults(results[1..]))
  }

  predicate Success(r: ActionResult) {
    r.state.ActionSucceeded? || r.state.ActionNoOp? || r.state.ActionPartial?
  }

  function Summary(results: seq<ActionResult>): ExecutionState {
    if forall i :: 0 <= i < |results| ==> Success(results[i]) then ExecutionSucceeded
    else if forall i :: 0 <= i < |results| ==> results[i].state.ActionMissed? then ExecutionMissed
    else if forall i :: 0 <= i < |results| ==> !Success(results[i]) then ExecutionFailed
    else ExecutionPartial
  }

  function StateFor(result: ExecutionState): TaskState {
    match result
    case ExecutionSucceeded => Succeeded
    case ExecutionPartial => PartiallySucceeded
    case ExecutionMissed => Missed
    case ExecutionRunning => Running
    case ExecutionFailed => Failed
    case ExecutionInterrupted => Failed
  }

  predicate RunBy(t: Task, task: string, execution: string) {
    t.id == task && t.lastExecution == Some(execution)
  }

  /** The first task that the execution belongs to changes, unless it has been armed again. */
  function Settle(tasks: seq<Task>, task: string, execution: string, state: TaskState): seq<Task> {
    if |tasks| == 0 then []
    else if RunBy(tasks[0], task, execution) then [tasks[0].(state := state)] + tasks[1..]
    else [tasks[0]] + Settle(tasks[1..], task, execution, state)
  }

  function Completed(r: Record, results: seq<ActionResult>, now: int): Record {
    var all := SortResults(r.results + results);
    r.(results := all, finished := Some(now), result := Summary(all))
  }

  /** What a completion report changes; the second report of an execution changes nothing. */
  function Complete(s: State, execution: string, results: seq<ActionResult>, now: int): Result<State, Error> {
    var found := RecordPosition(s.history, execution);
    if found.None? || found.value >= |s.history| then Err(NotFound(execution))
    else
      var r := s.history[found.value];
      if r.result != ExecutionRunning then Ok(s)
      else
        var done := Completed(r, results, now);
        Ok(s.(history := s.history[found.value := done],
              tasks := Settle(s.tasks, r.task, execution, StateFor(done.result))))
  }

  // ---------------------------------------------------------------- starting up

  function Interrupt(tasks: seq<Task>, r: Record): seq<Task> {
    if |tasks| == 0 then []
    else if RunBy(tasks[0], r.task, r.execution) then
      [tasks[0].(state := Failed, enabled := false, nextDue := None)] + tasks[1..]
    else [tasks[0]] + Interrupt(tasks[1..], r)
  }

  datatype Reconciled = Reconciled(tasks: seq<Task>, history: seq<Record>, changed: bool)

  /** Executions that were running when the process ended will not be reported. */
  function Reconcile(tasks: seq<Task>, history: seq<Record>, now: int): Reconciled
    decreases |history|
  {
    if |history| == 0 then Reconciled(tasks, [], false)
    else
      var r := history[0];
      if r.result == ExecutionRunning then
        var rest := Reconcile(Interrupt(tasks, r), history[1..], now);
        Reconciled(rest.tasks, [r.(result := ExecutionInterrupted, finished := Some(now))] + rest.history, true)
      else
        var rest := Reconcile(tasks, history[1..], now);
        Reconciled(rest.tasks, [r] + rest.history, rest.changed)
  }

  /** Delayed startup instances that have not begun go; running ones stay. */
  function PendingGone(tasks: seq<Task>, instances: map<string, string>): seq<Task> {
    Retained(tasks, (t: Task) => t.id !in instances.Values || t.state == Running)
  }

  function StartupTemplate(a: StartupActions): Template {
    Template(STARTUP_ID, "EchoClip", true, CountdownInput(0),
             [SetUploadEnabled(a.upload), if a.recording then StartRecording else StopRecording])
  }

  /** The settings a migration finds in old startup templates are a parameter. */
  function Migrate(s: State, actions: StartupActions): State {
    if s.startupActions.Some? then s
    else
      s.(tasks := PendingGone(s.tasks, s.instances), instances := map[], startupActions := Some(actions),
         startupTasks := if |s.startupTasks| > 0 then [StartupTemplate(actions)] else s.startupTasks)
  }

  datatype Opened = Opened(state: State, changed: bool)

  /** The state an opening scheduler takes over from its file, and whether it must be written back. */
  function Open(file: Option<State>, actions: StartupActions, now: int): Opened {
    var s := Migrate(if file.Some? then file.value else EMPTY, actions);
    var r := Reconcile(s.tasks, s.history, now);
    Opened(s.(tasks := r.tasks, history := r.history), r.changed || file.None? || file.value.startupActions.None?)
  }

  function TemplateInput(s: State, t: Template): Input
    requires t.trigger.CountdownInput?
  {
    var id := if t.id in s.instances then s.instances[t.id] else "";
    var found := if t.id in s.instances then Position(s.tasks, id) else None;
    Input(if found.Some? then Some(id) else None,
          if found.Some? && found.value < |s.tasks| then Some(s.tasks[found.value].revision) else None,
          t.name, "Task", true, CountdownInput(if t.trigger.delay < 1 then 1 else t.trigger.delay), t.actions)
  }

  /** Turns the enabled templates into armed tasks, one after another. */
  function Materialize(s: State, templates: seq<Template>, ids: seq<string>, now: int): Result<State, Error>
    requires |ids| == |templates|
    decreases |templates|
  {
    if |templates| == 0 then Ok(s)
    else if !templates[0].enabled then Materialize(s, templates[1..], ids[1..], now)
    else if !templates[0].trigger.CountdownInput? then Err(Validation("STARTUP_COUNTDOWN_ONLY"))
    else
      var u := Upsert(s, TemplateInput(s, templates[0]), ids[0], now);
      if u.Err? then Err(u.error)
      else
        Materialize(u.value.state.(instances := s.instances[templates[0].id := u.value.task.id]),
                    templates[1..], ids[1..], now)
  }

  function StartupTemplates(s: State): seq<Template> {
    if |s.startupTasks| > 0 then s.startupTasks
    else [StartupTemplate(if s.startupActions.Some? then s.startupActions.value else StartupActions(false, false))]
  }

  predicate Activates(s: State, token: string) {
    s.startupEnabled && s.lastToken != Some(token)
  }

  function Activate(s: State, token: string, ids: seq<string>, now: int): Result<State, Error>
    requires |ids| == |StartupTemplates(s)|
  {
    if |token| == 0 || |token| > 200 then Err(Validation("INVALID_STARTUP_TOKEN"))
    else if !Activates(s, token) then Ok(s)
    else
      var m := Materialize(s.(startupTasks := StartupTemplates(s)), StartupTemplates(s), ids, now);
      if m.Err? then Err(m.error) else Ok(m.value.(lastToken := Some(token)))
  }

  /** New startup settings: pending instances go and one template takes their place. */
  function SetStartupActions(s: State, actions: StartupActions): State {
    s.(tasks := PendingGone(s.tasks, s.instances), instances := map[], startupActions := Some(actions),
       startupTasks := [StartupTemplate(actions)])
  }

  function TemplatePosition(templates: seq<Template>, id: string): Option<nat> {
    if |templates| == 0 then None
    else if templates[0].id == id then Some(0)
    else
      var rest := TemplatePosition(templates[1..], id);
      if rest.None? then None else Some(rest.value + 1)
  }

  /** What a template must satisfy before it is stored: its name, and its actions in order. */
  function TemplateParts(s: State, input: Input): Result<(string, seq<Action>), Error> {
    var name := ResolveName(Names(s), input.name, input.prefix);
    var actions := NormalizeActions(input.actions);
    if name.Err? then Err(name.error)
    else if actions.Err? then Err(actions.error)
    else if |actions.value| == 0 then Err(Validation("scheduled task must contain at least one action"))
    else Ok((name.value, actions.value))
  }

  function SaveStartupTask(s: State, input: Input, newId: string, now: int): Result<State, Error> {
    if !input.trigger.CountdownInput? then Err(Validation("STARTUP_COUNTDOWN_ONLY"))
    else
      var delay := input.trigger.delay;
      var checked := ResolveTrigger(CountdownInput(if delay < 1 then 1 else delay), false, now);
      var parts := TemplateParts(s, input);
      var found := if input.id.Some? then TemplatePosition(s.startupTasks, input.id.value) else None;
      if checked.Err? then Err(checked.error)
      else if parts.Err? then Err(parts.error)
      else if input.id.Some? && found.None? then Err(NotFound(input.id.value))
      else if found.None? && |s.startupTasks| >= MAX_SCHEDULED_TASKS then Err(Validation("STARTUP_TASK_LIMIT_REACHED"))
      else
        var id := if input.id.Some? then input.id.value else newId;
        var t := Template(id, parts.value.0, input.enabled, input.trigger, parts.value.1);
        Ok(s.(startupTasks := if found.Some? && found.value < |s.startupTasks| then s.startupTasks[found.value := t]
                              else s.startupTasks + [t]))
  }

  function TemplatesWithout(templates: seq<Template>, id: string): seq<Template> {
    if |templates| == 0 then []
    else (if templates[0].id == id then [] else [templates[0]]) + TemplatesWithout(templates[1..], id)
  }

  function DeleteStartupTask(s: State, id: string): State {
    s.(startupTasks := TemplatesWithout(s.startupTasks, id), instances := s.instances - {id})
  }

  function SavePreset(s: State, input: Input, newId: string, now: int): Result<State, Error> {
    var parts := TemplateParts(s, input);
    if |s.presets| >= MAX_SCHEDULE_PRESETS then Err(Validation("PRESET_LIMIT_REACHED"))
    else if parts.Err? then Err(parts.error)
    else
      var checked := ResolveTrigger(input.trigger, false, now);
      if checked.Err? then Err(checked.error)
      else Ok(s.(presets := s.presets + [Template(newId, parts.value.0, input.enabled, input.trigger, parts.value.1)]))
  }

  function DeletePreset(s: State, id: string): Result<State, Error> {
    var found := TemplatePosition(s.presets, id);
    if found.None? || found.value >= |s.presets| then Err(NotFound(id))
    else Ok(s.(presets := s.presets[..found.value] + s.presets[found.value + 1..]))
  }
}
