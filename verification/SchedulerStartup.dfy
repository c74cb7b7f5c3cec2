/**
 * When a startup event is carried out, and what settings edits store: told from the templates,
 * the limits and the clock.
 */
module SchedulerStartup {
  import opened Wrappers
  import opened SchedulerState
  import opened SchedulerRuns
  import opened SchedulerSafety
  import opened SchedulerEffects
  import opened SchedulerLists
  import opened SchedulerEdits
  import D = Decimal

  // ---------------------------------------------------------------- carrying out a startup event

  /** A template whose task can be made now. */
  predicate Placeable(t: Template, now: int) {
    && t.trigger.CountdownInput? && Delay(t) <= 31_536_000_000 && now + Delay(t) <= 0x7fff_ffff_ffff_ffff
    && |Trim(t.name)| <= 80 && NormalizeActions(t.actions).Ok? && t.actions != []
  }

  predicate Named(templates: seq<Template>) {
    forall i :: 0 <= i < |templates| ==> Trim(templates[i].name) != ""
  }

  predicate AllPlaceable(templates: seq<Template>, now: int) {
    forall i :: 0 <= i < |templates| && templates[i].enabled ==> Placeable(templates[i], now)
  }

  lemma PlacesExactly(s: State, t: Template, newId: string, now: int)
    requires t.trigger.CountdownInput? && Trim(t.name) != ""
    ensures Upsert(s, TemplateInput(s, t), newId, now).Ok? <==>
            Placeable(t, now) && (LiveInstance(s, t) || |s.tasks| < 128)
  {
    hide Trim, NormalizeActions, ResolveName, Upsert, CanBeSet;
    var input := TemplateInput(s, t);
    NameGiven(s, input.name, input.prefix);
    EditsExactly(s, input, newId, now);
    if t.id in s.instances {
      PositionAt(s.tasks, s.instances[t.id]);
      HasTaskAt(s, s.instances[t.id]);
    }
    InputIs(s, t, now);
  }

  lemma HasTaskAt(s: State, id: string)
    ensures HasTask(s, id) <==> Position(s.tasks, id).Some?
  {
    PositionIs(s.tasks, id);
  }

  lemma InputIs(s: State, t: Template, now: int)
    requires t.trigger.CountdownInput?
    ensures var input := TemplateInput(s, t);
            && input.name == t.name && input.actions == t.actions && input.enabled
            && input.trigger == CountdownInput(Delay(t))
            && (CanBeSet(input.trigger, true, now) <==>
                  Delay(t) <= 31_536_000_000 && now + Delay(t) <= 0x7fff_ffff_ffff_ffff)
            && (HasPlace(s, input) <==> LiveInstance(s, t) || |s.tasks| < 128)
  {
    hide Position;
    var input := TemplateInput(s, t);
    if t.id in s.instances {
      PositionAt(s.tasks, s.instances[t.id]);
      HasTaskAt(s, s.instances[t.id]);
      if Position(s.tasks, s.instances[t.id]).Some? {
        assert IsAt(s.tasks, input.id.value, Position(s.tasks, s.instances[t.id]).value);
      }
    }
  }

  lemma {:induction false} MaterializesExactly(s: State, templates: seq<Template>, ids: seq<string>, now: int,
                                               delivered: seq<Arming>, used: set<string>)
    requires Good(s, delivered, used) && DeliveredKnown(delivered, used) && DistinctTemplates(templates) && Named(templates)
    requires |ids| == |templates| && AllNew(ids, used) && |s.tasks| <= 128
    ensures Materialize(s, templates, ids, now).Ok? <==>
            AllPlaceable(templates, now) && |s.tasks| + Missing(s, templates) <= 128
    decreases |templates|
  {
    if |templates| > 0 {
      hide TasksOk, TasksKnown, InstancesOk, TemplatesOk, Guarded, AllNew, Placed, LiveInstance, Upsert,
          TemplateInput, Placeable, Trim;
      var t, rest := templates[0], templates[1..];
      AllNewRest(ids, used);
      assert forall i :: 0 <= i < |rest| ==> rest[i] == templates[i + 1];
      PlaceableRest(templates, now);
      if !t.enabled {
        MaterializesExactly(s, rest, ids[1..], now, delivered, used);
      } else if t.trigger.CountdownInput? {
        PlacesExactly(s, t, ids[0], now);
        if Upsert(s, TemplateInput(s, t), ids[0], now).Ok? {
          MaterializePlaced(s, templates, ids, now);
          PlacedGood(s, t, ids[0], now, delivered, used);
          MissingSame(s, t, rest, ids[0], now, used);
          PlacedIs(s, t, ids[0], now);
          MaterializesExactly(Placed(s, t, ids[0], now), rest, ids[1..], now, delivered, used + {ids[0]});
        }
      } else {
        assert !Placeable(t, now) by {
          NotCountdown(t, now);
        }
      }
    }
  }

  lemma NotCountdown(t: Template, now: int)
    requires !t.trigger.CountdownInput?
    ensures !Placeable(t, now)
  {
  }

  lemma MaterializePlaced(s: State, templates: seq<Template>, ids: seq<string>, now: int)
    requires |ids| == |templates| > 0 && templates[0].enabled && templates[0].trigger.CountdownInput?
    requires Upsert(s, TemplateInput(s, templates[0]), ids[0], now).Ok?
    ensures Materialize(s, templates, ids, now)
            == Materialize(Placed(s, templates[0], ids[0], now), templates[1..], ids[1..], now)
  {
    hide Upsert, TemplateInput;
  }

  lemma PlaceableRest(templates: seq<Template>, now: int)
    requires |templates| > 0
    ensures AllPlaceable(templates, now) <==>
            (templates[0].enabled ==> Placeable(templates[0], now)) && AllPlaceable(templates[1..], now)
  {
    hide Placeable;
    assert forall i :: 0 < i < |templates| ==> templates[i] == templates[1..][i - 1];
  }

  predicate StartedExactly(s: State, token: string, ids: seq<string>, now: int)
    requires |ids| == |StartupTemplates(s)|
  {
    var r := Activate(s, token, ids, now);
    var templates := StartupTemplates(s);
    && (1 <= |token| <= 200 && (!s.startupEnabled || s.lastToken == Some(token)) ==> r == Ok(s))
    && (r.Ok? <==>
          && 1 <= |token| <= 200
          && (s.startupEnabled && s.lastToken != Some(token) ==>
                AllPlaceable(templates, now) && |s.tasks| + Missing(s, templates) <= 128))
    && (r.Ok? && s.startupEnabled && s.lastToken != Some(token) ==>
          r.value == s.(tasks := r.value.tasks, instances := r.value.instances, lastToken := Some(token),
                        startupTasks := templates))
  }

  lemma StartsExactly(s: State, token: string, ids: seq<string>, now: int, delivered: seq<Arming>, used: set<string>)
    requires Good(s, delivered, used) && DeliveredKnown(delivered, used) && |s.tasks| <= 128
    requires |ids| == |StartupTemplates(s)| && AllNew(ids, used) && Named(StartupTemplates(s))
    ensures StartedExactly(s, token, ids, now)
  {
    hide TasksOk, TasksKnown, InstancesOk, Guarded, AllNew, Materialize, AllPlaceable;
    var templates := StartupTemplates(s);
    var before := s.(startupTasks := templates);
    assert Good(before, delivered, used) && DistinctTemplates(templates) by {
      TemplatesGood(s, delivered, used);
    }
    hide TemplatesOk;
    MaterializesExactly(before, templates, ids, now, delivered, used);
    MissingAlike(s, before, templates);
    if Materialize(before, templates, ids, now).Ok? {
      MaterializeOnly(before, templates, ids, now);
    }
  }

  // ---------------------------------------------------------------- in every run

  /** A name that an edit got is not blank. */
  lemma GivenNameIsNamed(names: set<string>, name: string, prefix: string)
    ensures ResolveName(names, name, prefix).Ok? ==> Trim(ResolveName(names, name, prefix).value) != ""
  {
    var r := ResolveName(names, name, prefix);
    if r.Ok? {
      if Trim(name) != "" {
        var before, after := TrimmedIs(name);
        NotBlank(r.value, 0);
      } else {
        hide Trim;
        AutomaticNameIsSmallest(names, name, prefix);
        var p := PrefixOf(prefix);
        var n :| n >= 1 && r.value == Candidate(p, n) && n <= |names| + 1;
        D.ValueOfText(n);
        assert r.value[|r.value| - 1] == D.Text(n)[|D.Text(n)| - 1];
        assert D.IsDigit(D.Text(n)[|D.Text(n)| - 1]);
        NotBlank(r.value, |r.value| - 1);
      }
    }
  }

  lemma NotBlank(s: string, i: nat)
    requires i < |s| && !Blank([s[i]])
    ensures Trim(s) != ""
  {
    var before, after := TrimmedIs(s);
    assert [s[i]][0] == s[i];
  }

  predicate MemoryNamed(m: Option<State>) {
    m.Some? ==> Named(m.value.startupTasks)
  }

  lemma TryNamed(s: State, op: Op)
    requires Named(s.startupTasks) && EnoughIds(s, op) && Try(s, op).Writes?
    ensures Named(Try(s, op).next.startupTasks)
  {
    hide Upsert, SetEnabled, Delete, Tick, Complete, Materialize, SavePreset, DeletePreset, Trim, ResolveName,
         NormalizeActions, ResolveTrigger;
    match op
    case Edit(input, newId, now) => EditLeaves(s, input, newId, now);
    case Switch(id, expected, enabled, now) => SwitchLeaves(s, id, expected, enabled, now);
    case Remove(id) => DeleteLeaves(s, id);
    case Report(execution, results, now) => ReportLeaves(s, execution, results, now);
    case FireDue(ids, now) => TickLeaves(s, ids, now);
    case ActivateStartup(token, ids, now) =>
      DefaultNamed();
      MaterializeOnly(s.(startupTasks := StartupTemplates(s)), StartupTemplates(s), ids, now);
    case StartupSettings(actions) => DefaultNamed();
    case PutStartupTask(input, newId, now) => PutNamed(s, input, newId, now);
    case DropStartupTask(id) => DropNamed(s, id);
    case PutPreset(input, newId, now) => PresetLeaves(s, input, newId, now);
    case DropPreset(id) => DropPresetLeaves(s, id);
    case StartupSwitch(_) =>
  }

  lemma DefaultNamed()
    ensures Trim("EchoClip") != ""
  {
    assert ["EchoClip"[0]][0] == 'E';
    NotBlank("EchoClip", 0);
  }

  lemma EditLeaves(s: State, input: Input, newId: string, now: int)
    ensures Upsert(s, input, newId, now).Ok? ==> Upsert(s, input, newId, now).value.state.startupTasks == s.startupTasks
  {
    hide ResolveName, NormalizeActions, ResolveTrigger, Position;
  }

  lemma SwitchLeaves(s: State, id: string, expected: Option<nat>, enabled: bool, now: int)
    ensures SetEnabled(s, id, expected, enabled, now).Ok? ==>
              SetEnabled(s, id, expected, enabled, now).value.state.startupTasks == s.startupTasks
  {
    hide Position, Rearmed;
  }

  lemma DeleteLeaves(s: State, id: string)
    ensures Delete(s, id).Ok? ==> Delete(s, id).value.startupTasks == s.startupTasks
  {
  }

  lemma ReportLeaves(s: State, execution: string, results: seq<ActionResult>, now: int)
    ensures Complete(s, execution, results, now).Ok? ==>
              Complete(s, execution, results, now).value.startupTasks == s.startupTasks
  {
  }

  lemma TickLeaves(s: State, ids: seq<string>, now: int)
    requires |ids| == |s.tasks|
    ensures Tick(s, ids, now).state.startupTasks == s.startupTasks
  {
  }

  lemma PresetLeaves(s: State, input: Input, newId: string, now: int)
    ensures SavePreset(s, input, newId, now).Ok? ==> SavePreset(s, input, newId, now).value.startupTasks == s.startupTasks
  {
  }

  lemma DropPresetLeaves(s: State, id: string)
    ensures DeletePreset(s, id).Ok? ==> DeletePreset(s, id).value.startupTasks == s.startupTasks
  {
  }

  lemma PutNamed(s: State, input: Input, newId: string, now: int)
    requires Named(s.startupTasks) && SaveStartupTask(s, input, newId, now).Ok?
    ensures Named(SaveStartupTask(s, input, newId, now).value.startupTasks)
  {
    hide Trim, ResolveName, NormalizeActions, ResolveTrigger, TemplatePosition;
    GivenNameIsNamed(Names(s), input.name, input.prefix);
  }

  lemma DropNamed(s: State, id: string)
    requires Named(s.startupTasks)
    ensures Named(DeleteStartupTask(s, id).startupTasks)
  {
    hide Trim;
    TemplatesAre(s.startupTasks, id);
    var r := DeleteStartupTask(s, id).startupTasks;
    assert forall i :: 0 <= i < |r| ==> r[i] in r;
  }

  lemma OpenNamed(file: Option<State>, found: StartupActions, now: int)
    requires MemoryNamed(file)
    ensures Named(Open(file, found, now).state.startupTasks)
  {
    hide Trim, Reconcile;
    DefaultNamed();
  }

  lemma StepNamed(w: World, step: Step)
    requires MemoryNamed(w.memory) && MemoryNamed(w.disk)
    ensures MemoryNamed(Apply(w, step).memory) && MemoryNamed(Apply(w, step).disk)
  {
    hide Named, Try, Open, AllNew, EnoughIds;
    if Enabled(w, step) {
      match step
      case Crash =>
      case Restart(found, now, o) => OpenNamed(w.disk, found, now);
      case Do(op, o) =>
        if Try(w.memory.value, op).Writes? {
          TryNamed(w.memory.value, op);
        }
    }
  }

  lemma {:induction false} RunNamed(w: World, steps: seq<Step>)
    requires MemoryNamed(w.memory) && MemoryNamed(w.disk)
    ensures MemoryNamed(Run(w, steps).memory) && MemoryNamed(Run(w, steps).disk)
    decreases |steps|
  {
    hide MemoryNamed, Apply;
    if |steps| > 0 {
      StepNamed(w, steps[0]);
      RunNamed(Apply(w, steps[0]), steps[1..]);
    }
  }

  /**
   * In every reachable state a startup event with a token of 1 to 200 bytes is carried out
   * exactly if startup is enabled and the token is not the last one; and it succeeds
   * exactly if each enabled template can be placed and there is room for those that have no
   * task yet. It then keeps the token and the templates; history, presets and settings stay.
   */
  lemma StartsInAnyRun(steps: seq<Step>, token: string, ids: seq<string>, now: int)
    requires var w := Run(START, steps);
             w.memory.Some? && |ids| == |StartupTemplates(w.memory.value)| && AllNew(ids, w.used)
    ensures StartedExactly(Run(START, steps).memory.value, token, ids, now)
  {
    hide Run, Good, StartedExactly, AllNew, Named, StartupTemplates;
    assert Inv(START);
    RunKeeps(START, steps);
    ListsStayBounded(steps);
    RunNamed(START, steps);
    var w := Run(START, steps);
    TakenAreNamed(w.memory.value);
    StartsExactly(w.memory.value, token, ids, now, w.delivered, w.used);
  }

  lemma TakenAreNamed(s: State)
    requires Named(s.startupTasks)
    ensures Named(StartupTemplates(s))
  {
    hide Trim;
    DefaultNamed();
  }

  lemma TemplatesGood(s: State, delivered: seq<Arming>, used: set<string>)
    requires Good(s, delivered, used)
    ensures Good(s.(startupTasks := StartupTemplates(s)), delivered, used) && DistinctTemplates(StartupTemplates(s))
  {
    hide TasksOk, TasksKnown, InstancesOk, Guarded;
  }

  lemma {:induction false} MaterializeOnly(s: State, templates: seq<Template>, ids: seq<string>, now: int)
    requires |ids| == |templates| && Materialize(s, templates, ids, now).Ok?
    ensures var r := Materialize(s, templates, ids, now).value;
            r == s.(tasks := r.tasks, instances := r.instances)
    decreases |templates|
  {
    if |templates| > 0 {
      hide Upsert, TemplateInput, Placed;
      if templates[0].enabled {
        MaterializeStep(s, templates, ids, now);
        PlacedOnly(s, templates[0], ids[0], now);
        MaterializeOnly(Placed(s, templates[0], ids[0], now), templates[1..], ids[1..], now);
      } else {
        MaterializeOnly(s, templates[1..], ids[1..], now);
      }
    }
  }

  lemma PlacedOnly(s: State, t: Template, newId: string, now: int)
    requires t.trigger.CountdownInput? && Upsert(s, TemplateInput(s, t), newId, now).Ok?
    ensures var p := Placed(s, t, newId, now);
            p == s.(tasks := p.tasks, instances := p.instances)
  {
    hide ResolveName, NormalizeActions, ResolveTrigger, TemplateInput, Position;
  }

  /** Without stored templates the one of the settings is taken. */
  lemma TemplatesTaken(s: State)
    ensures s.startupTasks != [] ==> StartupTemplates(s) == s.startupTasks
    ensures s.startupTasks == [] && s.startupActions.Some? ==>
              StartupTemplates(s)
              == [Template("startup-actions", "EchoClip", true, CountdownInput(0),
                           [SetUploadEnabled(s.startupActions.value.upload),
                            if s.startupActions.value.recording then StartRecording else StopRecording])]
  {
  }

  // ---------------------------------------------------------------- templates and presets

  predicate TemplateAt(templates: seq<Template>, id: string, i: int) {
    0 <= i < |templates| && templates[i].id == id && forall k :: 0 <= k < i ==> templates[k].id != id
  }

  lemma TemplateFound(templates: seq<Template>, id: string)
    ensures var p := TemplatePosition(templates, id);
            && (p.Some? ==> TemplateAt(templates, id, p.value))
            && (p.None? ==> forall i :: !TemplateAt(templates, id, i))
            && (forall i :: TemplateAt(templates, id, i) ==> p == Some(i))
  {
    TemplatePositionIs(templates, id);
    if TemplatePosition(templates, id).None? {
      forall i ensures !TemplateAt(templates, id, i) {
      }
    }
  }

  /** What is stored: the name and the actions as edits have them, the trigger as it was given. */
  predicate Stored(s: State, t: Template, input: Input) {
    && ResolveName(Names(s), input.name, input.prefix) == Ok(t.name) && NormalizeActions(input.actions) == Ok(t.actions)
    && t.enabled == input.enabled && t.trigger == input.trigger
  }

  predicate Fine(s: State, input: Input) {
    ResolveName(Names(s), input.name, input.prefix).Ok? && NormalizeActions(input.actions).Ok? && input.actions != []
  }

  /** A preset is stored exactly if there are fewer than nine and it is fine; it becomes the last. */
  lemma PresetsExactly(s: State, input: Input, newId: string, now: int)
    ensures var r := SavePreset(s, input, newId, now);
            && (r.Ok? <==> |s.presets| < 9 && Fine(s, input) && CanBeSet(input.trigger, false, now))
            && (r.Ok? ==>
                  && |r.value.presets| == |s.presets| + 1 && r.value == s.(presets := r.value.presets)
                  && r.value.presets[..|s.presets|] == s.presets
                  && r.value.presets[|s.presets|].id == newId && Stored(s, r.value.presets[|s.presets|], input))
  {
    hide ResolveName, NormalizeActions, ResolveTrigger, CanBeSet;
    NoneLost(input.actions);
    TriggerIs(input.trigger, false, now);
  }

  /** Deleting a preset takes out exactly the one with the id. */
  lemma PresetGone(s: State, id: string, i: int)
    requires TemplateAt(s.presets, id, i)
    ensures DeletePreset(s, id) == Ok(s.(presets := s.presets[..i] + s.presets[i + 1..]))
  {
    TemplateFound(s.presets, id);
  }

  /**
   * A startup template is stored exactly if it is a countdown of at most a year, is fine,
   * and names a stored one or is a new one that there is room for; it takes that one's
   * place or becomes the last.
   */
  lemma StartupTasksExactly(s: State, input: Input, newId: string, now: int)
    ensures var r := SaveStartupTask(s, input, newId, now);
            && (r.Ok? <==>
                  && input.trigger.CountdownInput? && Fine(s, input)
                  && CanBeSet(CountdownInput(if input.trigger.delay < 1 then 1 else input.trigger.delay), false, now)
                  && (if input.id.Some? then TemplatePosition(s.startupTasks, input.id.value).Some?
                      else |s.startupTasks| < 128))
            && (r.Ok? ==>
                  && r.value == s.(startupTasks := r.value.startupTasks)
                  && (forall i :: input.id.Some? && TemplateAt(s.startupTasks, input.id.value, i) ==>
                        exists t :: r.value.startupTasks == s.startupTasks[i := t] && t.id == input.id.value
                            && Stored(s, t, input))
                  && (input.id.None? ==>
                        exists t :: r.value.startupTasks == s.startupTasks + [t] && t.id == newId && Stored(s, t, input)))
  {
    hide ResolveName, NormalizeActions, ResolveTrigger, CanBeSet, TemplateAt;
    NoneLost(input.actions);
    if input.trigger.CountdownInput? {
      TriggerIs(CountdownInput(if input.trigger.delay < 1 then 1 else input.trigger.delay), false, now);
    }
    if input.id.Some? {
      TemplateFound(s.startupTasks, input.id.value);
      TemplatePositionIs(s.startupTasks, input.id.value);
    }
  }

  /** Deleting a startup template takes out those with the id and forgets its task, which stays. */
  lemma StartupTaskGone(s: State, id: string)
    ensures var r := DeleteStartupTask(s, id);
            && r == s.(startupTasks := r.startupTasks, instances := s.instances - {id})
            && (forall t :: t in r.startupTasks <==> t in s.startupTasks && t.id != id)
  {
    TemplatesAre(s.startupTasks, id);
  }

  lemma {:induction false} TemplatesAre(templates: seq<Template>, id: string)
    ensures forall t :: t in TemplatesWithout(templates, id) <==> t in templates && t.id != id
  {
    if |templates| > 0 {
      TemplatesAre(templates[1..], id);
    }
  }
}
