/**
 * When the scheduler accepts an edit, a switch, a report or a startup, and all it changes
 * then: told from the input, the clock and the lists alone.
 */
module SchedulerEdits {
  import opened Wrappers
  import opened SchedulerState
  import opened SchedulerRuns
  import opened SchedulerSafety
  import opened SchedulerLists
  import D = Decimal

  // ---------------------------------------------------------------- names

  predicate Blank(s: string) {
    forall i :: 0 <= i < |s| ==> s[i] in {' ', '\t', '\n', '\U{000B}', '\U{000C}', '\r'}
  }

  /** Trimming takes off the white space on both sides and nothing else. */
  lemma TrimmedIs(s: string) returns (before: string, after: string)
    ensures s == before + Trim(s) + after && Blank(before) && Blank(after)
    ensures Trim(s) != "" ==> !Blank([Trim(s)[0]]) && !Blank([Trim(s)[|Trim(s)| - 1]])
  {
    before := TrimmedStart(s);
    after := TrimmedEnd(TrimStart(s));
    assert s == before + (Trim(s) + after) == before + Trim(s) + after;
    if Trim(s) != "" {
      assert TrimStart(s)[0] == Trim(s)[0];
    }
  }

  lemma {:induction false} TrimmedStart(s: string) returns (before: string)
    ensures s == before + TrimStart(s) && Blank(before)
    ensures TrimStart(s) != "" ==> !Blank([TrimStart(s)[0]])
  {
    if |s| > 0 && IsSpace(s[0]) {
      var rest := TrimmedStart(s[1..]);
      before := [s[0]] + rest;
      assert s == [s[0]] + s[1..];
    } else {
      before := [];
      if |s| > 0 {
        assert [s[0]][0] == s[0];
      }
    }
  }

  lemma {:induction false} TrimmedEnd(s: string) returns (after: string)
    ensures s == TrimEnd(s) + after && Blank(after)
    ensures TrimEnd(s) != "" ==> !Blank([TrimEnd(s)[|TrimEnd(s)| - 1]])
  {
    if |s| > 0 && IsSpace(s[|s| - 1]) {
      var rest := TrimmedEnd(s[..|s| - 1]);
      after := rest + [s[|s| - 1]];
      assert s == s[..|s| - 1] + [s[|s| - 1]];
    } else {
      after := [];
      if |s| > 0 {
        assert [s[|s| - 1]][0] == s[|s| - 1];
      }
    }
  }

  /** Some task, preset or startup template has the name. */
  predicate InUse(s: State, name: string) {
    || (exists i :: 0 <= i < |s.tasks| && s.tasks[i].name == name)
    || (exists i :: 0 <= i < |s.presets| && s.presets[i].name == name)
    || (exists i :: 0 <= i < |s.startupTasks| && s.startupTasks[i].name == name)
  }

  /**
   * A given name is taken as it is, without the white space around it; without one an
   * edit gets a name that no task, preset or startup template has. Only a name of more
   * than 80 characters is refused.
   */
  lemma NameGiven(s: State, name: string, prefix: string)
    ensures var r := ResolveName(Names(s), name, prefix);
            && (Trim(name) != "" ==> r == if |Trim(name)| <= 80 then Ok(Trim(name)) else Err(NAME_ERROR))
            && (Trim(name) == "" && r.Ok? ==>
                  && !InUse(s, r.value) && |r.value| <= 80
                  && exists n ::
                       n >= 1 && r.value == (if Trim(prefix) == "" then "Task" else Trim(prefix)) + " " + D.Text(n))
  {
    hide Trim;
    if Trim(name) == "" {
      AutomaticNameIsSmallest(Names(s), name, prefix);
    }
  }

  // ---------------------------------------------------------------- creating and changing tasks

  /**
   * A trigger that can be set now: a countdown of at most a year that the clock can hold, or a
   * time point that is named well.
   */
  predicate CanBeSet(trigger: TriggerInput, enabled: bool, now: int) {
    match trigger
    case CountdownInput(delay) => 1 <= delay <= 31_536_000_000 && now + delay <= 0x7fff_ffff_ffff_ffff
    case TimePointInput(at, local, zone, offset) =>
      (enabled ==> at > now) && Trim(local) != "" && Trim(zone) != "" && -1440 <= offset <= 1440
  }

  function Set(trigger: TriggerInput, now: int): Trigger {
    match trigger
    case CountdownInput(delay) => Countdown(now, delay, now + delay)
    case TimePointInput(at, local, zone, offset) => TimePoint(at, local, zone, offset)
  }

  lemma TriggerIs(trigger: TriggerInput, enabled: bool, now: int)
    ensures var r := ResolveTrigger(trigger, enabled, now);
            (r.Ok? <==> CanBeSet(trigger, enabled, now)) && (r.Ok? ==> r.value == Set(trigger, now))
  {
    hide Trim;
  }

  predicate IsAt(tasks: seq<Task>, id: string, i: int) {
    0 <= i < |tasks| && tasks[i].id == id && forall k :: 0 <= k < i ==> tasks[k].id != id
  }

  /** The edit names a task of the list, in the revision it expects, or is one for a new task that there is room for. */
  ghost predicate HasPlace(s: State, input: Input) {
    if input.id.Some? && exists i :: IsAt(s.tasks, input.id.value, i) then
      exists i :: IsAt(s.tasks, input.id.value, i) && (input.expected.Some? ==> input.expected.value == s.tasks[i].revision)
    else (input.id.None? || Trim(input.id.value) == "") && |s.tasks| < 128
  }

  predicate Sensible(s: State, input: Input, now: int) {
    && ResolveName(Names(s), input.name, input.prefix).Ok? && NormalizeActions(input.actions).Ok? && input.actions != []
    && CanBeSet(input.trigger, input.enabled, now)
  }

  /** The task that an edit makes, but for its id, revision and age. */
  predicate MadeFrom(s: State, t: Task, input: Input, now: int) {
    && ResolveName(Names(s), input.name, input.prefix) == Ok(t.name) && NormalizeActions(input.actions) == Ok(t.actions)
    && t.enabled == input.enabled && t.trigger == Set(input.trigger, now) && t.updated == now && t.lastExecution == None
    && t.state == (if t.enabled then Armed else Disabled)
    && t.nextDue == (if t.enabled then Some(t.trigger.due) else None)
  }

  lemma PositionAt(tasks: seq<Task>, id: string)
    ensures var p := Position(tasks, id);
            && (p.Some? ==> IsAt(tasks, id, p.value))
            && (p.None? ==> forall i :: !IsAt(tasks, id, i))
            && (forall i :: IsAt(tasks, id, i) ==> p == Some(i))
  {
    PositionIs(tasks, id);
  }

  lemma NoneLost(actions: seq<Action>)
    ensures NormalizeActions(actions).Ok? ==> |NormalizeActions(actions).value| == |actions|
  {
    hide SortActions;
    NormalizedActions(actions);
    if NormalizeActions(actions).Ok? {
      var r := NormalizeActions(actions).value;
      assert |multiset(r)| == |r| && |multiset(actions)| == |actions|;
    }
  }

  /**
   * An edit is accepted exactly if its name, actions and trigger are sensible and it has a
   * place in the list. Then it replaces exactly the task it names, under the next revision
   * and with the same id and age, or adds one at the end under the new id. Nothing else
   * changes.
   */
  lemma EditsExactly(s: State, input: Input, newId: string, now: int)
    ensures var r := Upsert(s, input, newId, now);
            && (r.Ok? <==> Sensible(s, input, now) && HasPlace(s, input))
            && (r.Ok? ==>
                  var t := r.value.task;
                  && MadeFrom(s, t, input, now)
                  && (forall i :: input.id.Some? && IsAt(s.tasks, input.id.value, i) ==>
                        && r.value.state == s.(tasks := s.tasks[i := t])
                        && t.id == s.tasks[i].id && t.revision == s.tasks[i].revision + 1
                        && t.created == s.tasks[i].created)
                  && ((input.id.None? || forall i :: !IsAt(s.tasks, input.id.value, i)) ==>
                        && r.value.state == s.(tasks := s.tasks + [t])
                        && t.id == newId && t.revision == 1 && t.created == now))
            && (Sensible(s, input, now) && input.id.Some? ==>
                  forall i :: IsAt(s.tasks, input.id.value, i) && input.expected.Some?
                              && input.expected.value != s.tasks[i].revision ==>
                    r == Err(RevisionConflict(input.expected.value, s.tasks[i].revision)))
  {
    hide ResolveName, NormalizeActions, ResolveTrigger, Trim, IsAt, CanBeSet, Set;
    TriggerIs(input.trigger, input.enabled, now);
    NoneLost(input.actions);
    if input.id.Some? {
      PositionAt(s.tasks, input.id.value);
      var p := Position(s.tasks, input.id.value);
      if p.Some? {
        AtIndex(s.tasks, input.id.value, p.value);
      }
    }
  }

  lemma AtIndex(tasks: seq<Task>, id: string, i: nat)
    requires IsAt(tasks, id, i)
    ensures i < |tasks| && tasks[i].id == id
  {
  }

  /** A task that can be armed again: a countdown the clock can hold, or a time point still to come. */
  predicate CanBeArmed(t: Task, now: int) {
    match t.trigger
    case Countdown(_, delay, _) => delay <= 0x7fff_ffff_ffff_ffff && now + delay <= 0x7fff_ffff_ffff_ffff
    case TimePoint(due, _, _, _) => due > now
  }

  /**
   * Arming or disarming is accepted exactly for a task of the list in the revision that is
   * expected, and if it is to be armed its time must still be to come; a countdown starts
   * over. Exactly that task changes, to its next revision.
   */
  lemma SwitchesExactly(s: State, id: string, expected: Option<nat>, enabled: bool, now: int, i: nat)
    requires IsAt(s.tasks, id, i)
    ensures var r := SetEnabled(s, id, expected, enabled, now);
            var t := s.tasks[i];
            && (r.Ok? <==> (expected == None || expected == Some(t.revision)) && (enabled ==> CanBeArmed(t, now)))
            && (r.Ok? ==>
                  var u := r.value.task;
                  && r.value.state == s.(tasks := s.tasks[i := u])
                  && u.trigger == (if enabled && t.trigger.Countdown?
                                   then Countdown(now, t.trigger.delay, now + t.trigger.delay) else t.trigger)
                  && u == t.(revision := t.revision + 1, updated := now, enabled := enabled, lastExecution := None,
                             trigger := u.trigger, state := if enabled then Armed else Disabled,
                             nextDue := if enabled then Some(u.trigger.due) else None))
            && (expected.Some? && expected.value != t.revision ==> r == Err(RevisionConflict(expected.value, t.revision)))
  {
    PositionAt(s.tasks, id);
  }

  /** What is not in the list can be neither switched nor deleted. */
  lemma UnknownIsRefused(s: State, id: string, expected: Option<nat>, enabled: bool, now: int)
    requires forall i :: 0 <= i < |s.tasks| ==> s.tasks[i].id != id
    ensures SetEnabled(s, id, expected, enabled, now) == Err(NotFound(id)) && Delete(s, id) == Err(NotFound(id))
  {
    PositionIs(s.tasks, id);
  }

  lemma {:induction false} RetainedJoin(a: seq<Task>, b: seq<Task>, keep: Task -> bool)
    ensures Retained(a + b, keep) == Retained(a, keep) + Retained(b, keep)
  {
    if |a| == 0 {
      assert a + b == b;
    } else {
      RetainedJoin(a[1..], b, keep);
      assert (a + b)[1..] == a[1..] + b && (a + b)[0] == a[0];
      var first := if keep(a[0]) then [a[0]] else [];
      Regroup(first, Retained(a[1..], keep), Retained(b, keep));
    }
  }

  lemma Regroup(a: seq<Task>, b: seq<Task>, c: seq<Task>)
    ensures a + (b + c) == (a + b) + c
  {
  }

  lemma {:induction false} RetainedAll(tasks: seq<Task>, keep: Task -> bool)
    requires forall i :: 0 <= i < |tasks| ==> keep(tasks[i])
    ensures Retained(tasks, keep) == tasks
  {
    if |tasks| > 0 {
      RetainedAll(tasks[1..], keep);
      assert tasks == [tasks[0]] + tasks[1..];
    }
  }

  lemma {:induction false} RetainedWithout(tasks: seq<Task>, keep: Task -> bool, i: nat)
    requires i < |tasks| && forall k :: 0 <= k < |tasks| ==> (keep(tasks[k]) <==> k != i)
    ensures Retained(tasks, keep) == tasks[..i] + tasks[i + 1..]
  {
    var rest := tasks[1..];
    assert forall k :: 0 <= k < |rest| ==> rest[k] == tasks[k + 1];
    if i == 0 {
      RetainedAll(rest, keep);
      assert tasks[..0] + rest == rest;
    } else {
      RetainedWithout(rest, keep, i - 1);
      WithoutLater(tasks, i);
    }
  }

  lemma WithoutLater(tasks: seq<Task>, i: nat)
    requires 0 < i < |tasks|
    ensures [tasks[0]] + (tasks[1..][..i - 1] + tasks[1..][i..]) == tasks[..i] + tasks[i + 1..]
  {
  }

  /** Deleting takes exactly the task with the id out of the list. */
  lemma DeletesExactly(s: State, id: string, i: nat)
    requires TasksOk(s.tasks) && i < |s.tasks| && s.tasks[i].id == id
    ensures Delete(s, id) == Ok(s.(tasks := s.tasks[..i] + s.tasks[i + 1..]))
  {
    PositionIs(s.tasks, id);
    RetainedWithout(s.tasks, (t: Task) => t.id != id, i);
  }
}
