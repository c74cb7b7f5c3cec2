/**
 * The scheduler in memory and on disk: edits, ticks, failing writes, crashes and restarts
 * in any order, with a log of every arming whose actions were handed out.
 */
module SchedulerRuns {
  import opened Wrappers
  import opened SchedulerState

  /** A task under one of its revisions: what can fire once. */
  datatype Arming = Arming(task: string, revision: nat)

  datatype World = World(memory: Option<State>, disk: Option<State>, delivered: seq<Arming>, used: set<string>)

  /** The one id that is not generated is in use from the start. */
  const START := World(None, None, [], {STARTUP_ID})

  /** What a write did to the file, and how the call ended. */
  datatype Effect = Written | Kept | Gone
  datatype Ending = Returned | Errored | Crashed
  datatype Outcome = Outcome(effect: Effect, ending: Ending)

  datatype Op =
    | Edit(input: Input, newId: string, now: int)
    | Switch(id: string, expected: Option<nat>, enabled: bool, now: int)
    | Remove(id: string)
    | FireDue(ids: seq<string>, now: int)
    | Report(execution: string, results: seq<ActionResult>, now: int)
    | ActivateStartup(token: string, ids: seq<string>, now: int)
    | StartupSettings(actions: StartupActions)
    | StartupSwitch(on: bool)
    | PutStartupTask(input: Input, newId: string, now: int)
    | DropStartupTask(id: string)
    | PutPreset(input: Input, newId: string, now: int)
    | DropPreset(id: string)

  datatype Step = Do(op: Op, outcome: Outcome) | Crash | Restart(found: StartupActions, now: int, outcome: Outcome)

  /** An operation that got as far as writing: the new state, what it hands out, and whether a failed write undoes it. */
  datatype Attempt = Quiet | Writes(next: State, due: seq<Due>, undone: bool)

  function Wrote(r: Result<State, Error>, undone: bool): Attempt {
    if r.Ok? then Writes(r.value, [], undone) else Quiet
  }

  function FreshIds(s: State, op: Op): seq<string> {
    match op
    case Edit(_, newId, _) => [newId]
    case FireDue(ids, _) => ids
    case ActivateStartup(_, ids, _) => ids
    case PutStartupTask(_, newId, _) => [newId]
    case PutPreset(_, newId, _) => [newId]
    case _ => []
  }

  predicate EnoughIds(s: State, op: Op) {
    match op
    case FireDue(ids, _) => |ids| == |s.tasks|
    case ActivateStartup(_, ids, _) => |ids| == |StartupTemplates(s)|
    case _ => true
  }

  function Try(s: State, op: Op): Attempt
    requires EnoughIds(s, op)
  {
    match op
    case Edit(input, newId, now) =>
      var r := Upsert(s, input, newId, now);
      if r.Ok? then Writes(r.value.state, [], true) else Quiet
    case Switch(id, expected, enabled, now) =>
      var r := SetEnabled(s, id, expected, enabled, now);
      if r.Ok? then Writes(r.value.state, [], false) else Quiet
    case Remove(id) => Wrote(Delete(s, id), false)
    case FireDue(ids, now) =>
      if AnyDue(s.tasks, now) then Writes(Tick(s, ids, now).state, Tick(s, ids, now).due, false) else Quiet
    case Report(execution, results, now) =>
      var r := Complete(s, execution, results, now);
      if r.Ok? && r.value != s then Writes(r.value, [], false) else Quiet
    case ActivateStartup(token, ids, now) =>
      if Activates(s, token) then Wrote(Activate(s, token, ids, now), true) else Quiet
    case StartupSettings(actions) => Writes(SetStartupActions(s, actions), [], true)
    case StartupSwitch(on) => Writes(s.(startupEnabled := on), [], true)
    case PutStartupTask(input, newId, now) => Wrote(SaveStartupTask(s, input, newId, now), true)
    case DropStartupTask(id) => Writes(DeleteStartupTask(s, id), [], true)
    case PutPreset(input, newId, now) => Wrote(SavePreset(s, input, newId, now), true)
    case DropPreset(id) => Wrote(DeletePreset(s, id), true)
  }

  function ArmingsOf(due: seq<Due>): seq<Arming> {
    seq(|due|, i requires 0 <= i < |due| => Arming(due[i].task, due[i].revision))
  }

  /** A write ends one way or another; actions are handed out only by a call that returned. */
  function Commit(w: World, before: Option<State>, next: State, due: seq<Due>, undone: bool, o: Outcome): World {
    w.(disk := match o.effect
               case Written => Some(next)
               case Kept => w.disk
               case Gone => None,
       memory := match o.ending
                 case Returned => Some(next)
                 case Errored => if undone then before else Some(next)
                 case Crashed => None,
       delivered := if o.ending.Returned? then w.delivered + ArmingsOf(due) else w.delivered)
  }

  predicate Possible(o: Outcome) {
    o.ending.Returned? ==> o.effect.Written?
  }

  predicate AllNew(ids: seq<string>, used: set<string>) {
    && (forall i :: 0 <= i < |ids| ==> ids[i] !in used)
    && (forall i, j :: 0 <= i < j < |ids| ==> ids[i] != ids[j])
  }

  predicate Enabled(w: World, step: Step) {
    match step
    case Do(op, o) =>
      w.memory.Some? && Possible(o) && EnoughIds(w.memory.value, op) && AllNew(FreshIds(w.memory.value, op), w.used)
    case Crash => true
    case Restart(_, _, o) => w.memory.None? && Possible(o)
  }

  function Apply(w: World, step: Step): World {
    if !Enabled(w, step) then w
    else
      match step
      case Crash => w.(memory := None)
      case Restart(found, now, o) =>
        var taken := Open(w.disk, found, now);
        if !taken.changed then w.(memory := Some(taken.state))
        else Commit(w, None, taken.state, [], true, o)
      case Do(op, o) =>
        var s := w.memory.value;
        var ids := FreshIds(s, op);
        var u := w.(used := w.used + set i | 0 <= i < |ids| :: ids[i]);
        match Try(s, op)
        case Quiet => u
        case Writes(next, due, undone) => Commit(u, w.memory, next, due, undone, o)
  }

  function Run(w: World, steps: seq<Step>): World
    decreases |steps|
  {
    if |steps| == 0 then w else Run(Apply(w, steps[0]), steps[1..])
  }

  // ---------------------------------------------------------------- the invariant

  /** Enabled, armed and having a next time are one and the same, and a fired task is none of them. */
  predicate TaskOk(t: Task) {
    && (t.enabled <==> t.state == Armed)
    && t.nextDue == (if t.enabled then Some(t.trigger.due) else None)
    && (t.lastExecution.Some? ==> !t.enabled)
  }

  predicate TasksOk(tasks: seq<Task>) {
    && (forall i :: 0 <= i < |tasks| ==> TaskOk(tasks[i]))
    && (forall i, j :: 0 <= i < j < |tasks| ==> tasks[i].id != tasks[j].id)
  }

  predicate TasksKnown(tasks: seq<Task>, used: set<string>) {
    forall i :: 0 <= i < |tasks| ==> tasks[i].id in used
  }

  /** Each template has an instance of its own. */
  predicate InstancesOk(instances: map<string, string>, used: set<string>) {
    && (forall a :: a in instances ==> instances[a] in used)
    && (forall a, b :: a in instances && b in instances && a != b ==> instances[a] != instances[b])
  }

  /** What was handed out is behind every copy of its task: replaced by a later revision, or disarmed. */
  predicate Guarded(tasks: seq<Task>, delivered: seq<Arming>) {
    forall i, k :: 0 <= i < |tasks| && 0 <= k < |delivered| && delivered[k].task == tasks[i].id ==>
      delivered[k].revision < tasks[i].revision || (delivered[k].revision == tasks[i].revision && !tasks[i].enabled)
  }

  /** No two startup templates share an id, and a new one never takes an id in use. */
  predicate TemplatesOk(templates: seq<Template>, used: set<string>) {
    && STARTUP_ID in used
    && (forall i :: 0 <= i < |templates| ==> templates[i].id in used)
    && (forall i, j :: 0 <= i < j < |templates| ==> templates[i].id != templates[j].id)
  }

  predicate Good(s: State, delivered: seq<Arming>, used: set<string>) {
    && TasksOk(s.tasks) && TasksKnown(s.tasks, used) && InstancesOk(s.instances, used)
    && TemplatesOk(s.startupTasks, used) && Guarded(s.tasks, delivered)
  }

  predicate OnceEach(delivered: seq<Arming>) {
    forall i, j :: 0 <= i < j < |delivered| ==> delivered[i] != delivered[j]
  }

  predicate Inv(w: World) {
    && (w.memory.Some? ==> Good(w.memory.value, w.delivered, w.used))
    && (w.disk.Some? ==> Good(w.disk.value, w.delivered, w.used))
    && OnceEach(w.delivered) && STARTUP_ID in w.used
    && (forall k :: 0 <= k < |w.delivered| ==> w.delivered[k].task in w.used)
  }
}
