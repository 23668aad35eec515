/**
 Asynchronous tasks: each is announced once, its states follow the announcement and never
 repeat, and the AIR ids map one to one to host items.
 */
module FoldTasks {
  import opened Options
  import opened FoldTypes
  import opened Fold

  /** What the editor has been told about one task. */
  datatype Phase = Unseen | Active | In(outcome: TaskOutcome) | Broken

  /** The protocol: `Broken` is a second announcement, an early state or a repeated one. */
  function NextPhase(phase: Phase, m: Mark, task: Id): Phase {
    if !m.Sent? then phase
    else
      match m.note
      case TaskSpawned(x, _) => if x != task then phase else if phase == Unseen then Active else Broken
      case TaskState(x, outcome) =>
        if x != task then phase
        else if phase == Active || (phase.In? && phase.outcome != outcome) then In(outcome)
        else Broken
      case _ => phase
  }

  function PhaseOf(log: seq<Mark>, task: Id): Phase {
    if log == [] then Unseen
    else NextPhase(PhaseOf(log[..|log| - 1], task), log[|log| - 1], task)
  }

  ghost function Expected(t: Tasks, task: Id): Phase {
    if task !in t.announced then Unseen
    else if task in t.states then In(t.states[task])
    else Active
  }

  /** At most one AIR id stands for any host item. */
  ghost predicate OneToOne(hostIds: map<Id, Id>) {
    forall a, b :: a in hostIds && b in hostIds && hostIds[a] == hostIds[b] ==> a == b
  }

  ghost predicate Inv(t: Tasks, log: seq<Mark>) {
    && OneToOne(t.hostIds)
    && t.hostIds.Keys <= t.announced
    && t.states.Keys <= t.announced
    && forall task :: PhaseOf(log, task) == Expected(t, task)
  }

  lemma PhaseAppend(a: seq<Mark>, m: Mark)
    ensures forall task :: PhaseOf(a + [m], task) == NextPhase(PhaseOf(a, task), m, task)
  {
    assert (a + [m])[..|a|] == a;
  }

  lemma SpawnKeeps(t: Tasks, task: Id, toolCall: Option<Id>, log: seq<Mark>)
    requires OneToOne(t.hostIds) && t.hostIds.Keys <= t.announced + {task} && t.states.Keys <= t.announced
    requires forall x :: PhaseOf(log, x) == Expected(t, x)
    ensures var (t1, marks) := SpawnTask(t, task, toolCall); Inv(t1, log + marks) && task in t1.announced
  {
    assert log + [] == log;
    PhaseAppend(log, Sent(TaskSpawned(task, toolCall)));
  }

  lemma StateKeeps(t: Tasks, task: Id, outcome: TaskOutcome, log: seq<Mark>)
    requires Inv(t, log) && task in t.announced
    ensures var (t1, marks) := StateOnce(t, task, outcome); Inv(t1, log + marks)
  {
    assert log + [] == log;
    PhaseAppend(log, Sent(TaskState(task, outcome)));
  }

  lemma TaskIdForUnique(hostIds: map<Id, Id>, item: Id, fallback: Id)
    requires OneToOne(hostIds)
    ensures var task := TaskIdFor(hostIds, item, fallback);
      && (task in hostIds || task == fallback)
      && (forall air :: air in hostIds && hostIds[air] == item ==> air == task)
  {
  }

  lemma ShellTaskKeeps(t: Tasks, item: Item, tc: Id, log: seq<Mark>)
    requires Inv(t, log)
    ensures var (t1, marks) := ShellTask(t, item, tc); Inv(t1, log + marks)
  {
    var task := TaskIdFor(t.hostIds, item.id, tc);
    TaskIdForUnique(t.hostIds, item.id, tc);
    var t0 := if task in t.hostIds then t else t.(hostIds := t.hostIds[task := item.id]);
    SpawnKeeps(t0, task, Some(tc), log);
    var (t1, spawn) := AnnounceTask(t, item.id, task, Some(tc));
    var outcome := TaskStateOf(item.status);
    if outcome.Some? {
      var t2 := t1.(hostIds := t1.hostIds - {task});
      StateKeeps(t2, task, outcome.value, log + spawn);
      var (_, state) := StateOnce(t2, task, outcome.value);
      assert log + (spawn + state) == log + spawn + state;
    } else {
      assert spawn + [] == spawn;
    }
  }

  lemma BackgroundTaskKeeps(t: Tasks, item: Item, tc: Id, log: seq<Mark>)
    requires Inv(t, log)
    ensures var (t1, marks) := BackgroundTask(t, item, tc); Inv(t1, log + marks)
  {
    hide PhaseOf, ShellTask;
    assert log + [] == log;
    if IsBackgrounded(t, item, tc) {
      if tc in t.backgrounded {
        ShellTaskKeeps(t, item, tc, log);
      } else {
        var t0 := t.(backgrounded := t.backgrounded + {tc});
        var m := Sent(Backgrounded(tc));
        PhaseAppend(log, m);
        ShellTaskKeeps(t0, item, tc, log + [m]);
        assert log + ([m] + ShellTask(t0, item, tc).1) == log + [m] + ShellTask(t0, item, tc).1;
      }
    }
  }

  lemma WorkflowTaskKeeps(t: Tasks, item: Item, tc: Id, log: seq<Mark>)
    requires Inv(t, log)
    ensures var (t1, marks) := WorkflowTask(t, item, tc); Inv(t1, log + marks)
  {
    assert log + [] == log;
    if item.runId != "" {
      var t0 := t.(workflows := t.workflows + {item.runId});
      SpawnKeeps(t0, item.runId, Some(tc), log);
      var (t1, spawn) := SpawnTask(t0, item.runId, Some(tc));
      var outcome := TaskStateOf(item.status);
      if outcome.Some? {
        var t2 := t1.(workflows := t1.workflows - {item.runId});
        StateKeeps(t2, item.runId, outcome.value, log + spawn);
        var (_, state) := StateOnce(t2, item.runId, outcome.value);
        assert log + (spawn + state) == log + spawn + state;
      }
    }
  }

  /** A background-completion record sends at most one state, and never for a task that has one. */
  lemma SettleBackgroundKeeps(cfg: Config, t: Tasks, items: map<Id, Role>, item: Item, log: seq<Mark>)
    requires Inv(t, log)
    ensures var (t1, marks) := SettleBackground(cfg, t, items, item);
      && Inv(t1, log + marks)
      && (forall task :: task in t.states ==> task in t1.states && t1.states[task] == t.states[task])
      && (forall m :: m in marks ==> m.Sent? && m.note.TaskState? && m.note.task in t.announced - t.states.Keys)
      && |marks| <= 1
  {
    assert log + [] == log;
    var task := CompletionTask(t, items, item);
    var outcome := TaskStateOf(item.taskStatus);
    if task.Some? && outcome.Some? {
      StateKeeps(t.(workflows := t.workflows - {task.value}), task.value, outcome.value, log);
    }
  }

  lemma SeedTaskKeeps(t: Tasks, task: Id, foreground: bool, log: seq<Mark>)
    requires Inv(t, log)
    ensures var (t1, marks) := SeedTask(t, task, foreground); Inv(t1, log + marks)
  {
    assert log + [] == log;
    if task !in t.announced && task !in t.hostIds.Values {
      var hostIds := t.hostIds[task := task];
      assert forall a :: a in t.hostIds ==> t.hostIds[a] in t.hostIds.Values;
      SpawnKeeps(t.(hostIds := hostIds), task, None, log);
    }
  }

  /** After the sweep of a lost connection, every task it walked has a state; reported states stay. */
  lemma {:induction false} DisconnectKeeps(t: Tasks, order: seq<Id>, log: seq<Mark>)
    requires Inv(t, log)
    ensures var (t1, marks) := Disconnect(t, order);
      && Inv(t1, log + marks)
      && t1.announced == t.announced
      && (forall task :: task in t.states ==> task in t1.states && t1.states[task] == t.states[task])
      && (forall task :: task in order && task in t.announced ==> task in t1.states)
  {
    if order == [] {
      assert log + [] == log;
    } else {
      var rest, task := order[..|order| - 1], order[|order| - 1];
      DisconnectKeeps(t, rest, log);
      var (t1, marks) := Disconnect(t, rest);
      assert order == rest + [task];
      if task in t1.announced && task !in t1.states {
        StateKeeps(t1, task, TaskFailed, log + marks);
        var (_, state) := StateOnce(t1, task, TaskFailed);
        assert log + (marks + state) == log + marks + state;
      }
    }
  }

  /** Entries outside the task feed change nothing. */
  lemma {:induction false} SilentPhase(log: seq<Mark>, marks: seq<Mark>, task: Id)
    requires Silent(marks, Feed)
    ensures PhaseOf(log + marks, task) == PhaseOf(log, task)
  {
    if marks == [] {
      assert log + marks == log;
    } else {
      SilentPhase(log, marks[..|marks| - 1], task);
      assert (log + marks)[..|log + marks| - 1] == log + marks[..|marks| - 1];
    }
  }

  lemma SilentKeeps(t: Tasks, log: seq<Mark>, marks: seq<Mark>)
    requires Inv(t, log) && Silent(marks, Feed)
    ensures Inv(t, log + marks)
  {
    forall task ensures PhaseOf(log + marks, task) == Expected(t, task) {
      SilentPhase(log, marks, task);
    }
  }

  ghost predicate About(m: Mark, task: Id) {
    m.Sent? && (m.note.TaskSpawned? || m.note.TaskState?) && m.note.task == task
  }

  /** What the protocol says, entry by entry: the first update announces the task and no
      other does, and a state differs from the one before it. */
  lemma {:induction false} PhaseMeaning(log: seq<Mark>, task: Id, i: nat)
    requires PhaseOf(log, task) != Broken && i < |log| && About(log[i], task)
    ensures log[i].note.TaskSpawned? <==> forall j :: 0 <= j < i ==> !About(log[j], task)
    ensures (forall j :: i < j < |log| ==> !About(log[j], task)) ==>
      PhaseOf(log, task) == if log[i].note.TaskSpawned? then Active else In(log[i].note.outcome)
    ensures forall j :: i < j < |log| && About(log[j], task) && (forall h :: i < h < j ==> !About(log[h], task)) ==>
      log[j].note.TaskState? && (log[i].note.TaskState? ==> log[i].note.outcome != log[j].note.outcome)
  {
    var rest := log[..|log| - 1];
    assert forall j :: 0 <= j < |rest| ==> rest[j] == log[j];
    if i < |log| - 1 {
      PhaseMeaning(rest, task, i);
    } else {
      Silence(rest, task);
    }
  }

  lemma {:induction false} Silence(log: seq<Mark>, task: Id)
    requires PhaseOf(log, task) != Broken
    ensures PhaseOf(log, task) == Unseen <==> forall j :: 0 <= j < |log| ==> !About(log[j], task)
  {
    if log != [] {
      var rest := log[..|log| - 1];
      Silence(rest, task);
      assert forall j :: 0 <= j < |rest| ==> rest[j] == log[j];
    }
  }

  // ---------- every task is announced, and its states reach the editor ----------

  /** The outcome a terminal status stands for. */
  function Outcome(status: Status): Option<TaskOutcome> {
    if status == Completed then Some(TaskCompleted)
    else if status == Failed || status == Rejected then Some(TaskFailed)
    else if status == Cancelled || status == TimedOut then Some(TaskStopped)
    else None
  }

  /** After an item with this status: a terminal status is the last state told, and any other
      leaves an announced task as it was. */
  predicate Reported(before: Phase, after: Phase, status: Status) {
    if Outcome(status).Some? then after == In(Outcome(status).value)
    else after == if before == Unseen then Active else before
  }

  /** The task of a host item: the AIR id already mapped to it, or the card's id. */
  lemma TaskOfItem(t: Tasks, item: Id, tc: Id)
    requires OneToOne(t.hostIds)
    ensures var task := TaskIdFor(t.hostIds, item, tc);
      (forall air :: air in t.hostIds && t.hostIds[air] == item ==> task == air)
      && (item !in t.hostIds.Values ==> task == tc)
  {
  }

  lemma ShellTaskTold(t: Tasks, item: Item, tc: Id, log: seq<Mark>)
    requires Inv(t, log)
    ensures var task := TaskIdFor(t.hostIds, item.id, tc);
      Reported(PhaseOf(log, task), PhaseOf(log + ShellTask(t, item, tc).1, task), item.status)
  {
    hide PhaseOf;
    ShellTaskKeeps(t, item, tc, log);
  }

  lemma BackgroundTaskTold(t: Tasks, item: Item, tc: Id, log: seq<Mark>)
    requires Inv(t, log) && (item.background || tc in t.announced || tc in t.backgrounded)
    ensures var task := TaskIdFor(t.hostIds, item.id, tc);
      Reported(PhaseOf(log, task), PhaseOf(log + BackgroundTask(t, item, tc).1, task), item.status)
  {
    hide PhaseOf, ShellTask;
    if tc in t.backgrounded {
      ShellTaskTold(t, item, tc, log);
    } else {
      var t0 := t.(backgrounded := t.backgrounded + {tc});
      var m := Sent(Backgrounded(tc));
      PhaseAppend(log, m);
      ShellTaskTold(t0, item, tc, log + [m]);
      assert log + ([m] + ShellTask(t0, item, tc).1) == log + [m] + ShellTask(t0, item, tc).1;
    }
  }

  lemma WorkflowTaskTold(t: Tasks, item: Item, tc: Id, log: seq<Mark>)
    requires Inv(t, log) && item.runId != ""
    ensures Reported(PhaseOf(log, item.runId), PhaseOf(log + WorkflowTask(t, item, tc).1, item.runId), item.status)
  {
    hide PhaseOf;
    WorkflowTaskKeeps(t, item, tc, log);
  }

  /** A background-completion record gives an announced task without a state its state. */
  lemma BackgroundRecordTold(cfg: Config, t: Tasks, items: map<Id, Role>, item: Item, log: seq<Mark>)
    requires Inv(t, log) && cfg.airTasks && item.kind == BackgroundCompletion && item.taskCall != ""
    requires item.taskCall in t.announced && item.taskCall !in t.states && Outcome(item.taskStatus).Some?
    ensures PhaseOf(log + SettleBackground(cfg, t, items, item).1, item.taskCall) == In(Outcome(item.taskStatus).value)
  {
    hide PhaseOf;
    SettleBackgroundKeeps(cfg, t, items, item, log);
  }

  /** A background row of the task list that is not known yet is announced. */
  lemma SeedTold(t: Tasks, task: Id, log: seq<Mark>)
    requires Inv(t, log) && task != "" && PhaseOf(log, task) == Unseen && task !in t.hostIds.Values
    ensures PhaseOf(log + SeedTask(t, task, false).1, task) == Active
  {
    hide PhaseOf;
    SeedTaskKeeps(t, task, false, log);
  }
}
