/**
 Every snapshot and every live completion of a shell, a backgrounded tool call or a workflow
 is reported to the task feed: its task is announced, and a terminal status becomes its state.
 */
module FoldReports {
  import opened Options
  import opened FoldTypes
  import opened Fold
  import opened FoldEffects
  import opened FoldShapes
  import opened FoldTasks

  /** The item has a task: a user shell, a backgrounded tool call, or a named workflow run. */
  ghost predicate HasTask(s: State, item: Item) {
    || item.kind == UserShell
    || (item.kind == ToolCall &&
        (item.background || CardId(s, item) in s.tasks.announced || CardId(s, item) in s.tasks.backgrounded))
    || (item.kind == Workflow && item.runId != "")
  }

  ghost function TaskOf(s: State, item: Item): Id {
    if item.kind == Workflow then item.runId else TaskIdFor(s.tasks.hostIds, item.id, CardId(s, item))
  }

  lemma TasksTold(s: State, item: Item, log: seq<Mark>)
    requires FoldTasks.Inv(s.tasks, log) && s.cfg.airTasks && HasTask(s, item)
    ensures var task := TaskOf(s, item);
      Reported(PhaseOf(log, task), PhaseOf(log + SnapshotTasks(s, item).1, task), item.status)
  {
    hide PhaseOf, CardId, BackgroundTask, ShellTask, WorkflowTask, FoldTasks.Inv;
    var tc := CardId(s, item);
    match item.kind
    case ToolCall => BackgroundTaskTold(s.tasks, item, tc, log);
    case UserShell => ShellTaskTold(s.tasks, item, tc, log);
    case Workflow => WorkflowTaskTold(s.tasks, item, tc, log);
  }

  /** The step's entries outside the feed change no task. */
  lemma EffectsTold(s: State, s1: State, r: State, item: Item, m: Mark, kids: (Children, seq<Mark>),
                    shells: (Shells, seq<Mark>), before: seq<Mark>, after: seq<Mark>)
    requires FoldTasks.Inv(s.tasks, s.log) && s.cfg.airTasks && HasTask(s1, item)
    requires s1.tasks == s.tasks && s1.cfg == s.cfg && s1.log == s.log + [m] && !m.Sent?
    requires Effects(s1, r, item, kids, shells, SnapshotTasks(s1, item), before, after)
    requires OnlyOn(kids.1, Kids) && OnlyOn(shells.1, Terminals)
    ensures Reported(PhaseOf(s.log, TaskOf(s1, item)), PhaseOf(r.log, TaskOf(s1, item)), item.status)
  {
    hide PhaseOf, TaskOf, SnapshotTasks, HasTask;
    var lead := [m] + kids.1 + shells.1 + before;
    var feed := SnapshotTasks(s1, item).1;
    var task := TaskOf(s1, item);
    LeadSilent(m, kids.1, shells.1, before);
    assert Silent(after, Feed);
    hide Plain, On, FoldTasks.Inv;
    assert r.log == s.log + lead + feed + after;
    SilentKeeps(s.tasks, s.log, lead);
    SilentPhase(s.log, lead, task);
    TasksTold(s1, item, s.log + lead);
    SilentPhase(s.log + lead + feed, after, task);
  }

  lemma LeadSilent(m: Mark, kids: seq<Mark>, shells: seq<Mark>, before: seq<Mark>)
    requires !m.Sent? && OnlyOn(kids, Kids) && OnlyOn(shells, Terminals) && Plain(before)
    ensures Silent([m] + kids + shells + before, Feed)
  {
    assert Silent(before, Feed);
    hide Plain;
  }

  /** A snapshot of an item that has not settled. */
  lemma SnapshotReported(s: State, item: Item)
    requires FoldTasks.Inv(s.tasks, s.log) && s.cfg.airTasks && item.id !in s.done && HasTask(s, item)
    ensures Reported(PhaseOf(s.log, TaskOf(s, item)), PhaseOf(Snapshot(s, item).log, TaskOf(s, item)), item.status)
  {
    hide SnapshotKind, MarkCutOff, Effects, KidsOf, SnapshotTasks, ObserveWorkflow, PhaseOf, FoldTasks.Inv;
    var s1 := Emit(s.(flows := ObserveWorkflow(s.flows, item, false)), [Seen(item)]);
    SameTask(s, s1, item);
    hide TaskOf, HasTask;
    var before, after := SnapshotKindEffects(s1, item);
    SnapshotShellsSilent(s1, item);
    EffectsTold(s, s1, SnapshotKind(s1, item), item, Seen(item),
                KidsOf(s1, item), SnapshotShells(s1, item), before, after);
  }

  lemma SameTask(s: State, s1: State, item: Item)
    requires s1.tasks == s.tasks && s1.items == s.items && s1.next == s.next
    ensures HasTask(s1, item) == HasTask(s, item) && TaskOf(s1, item) == TaskOf(s, item)
  {
  }

  /** A live completion of an item that has not settled. */
  lemma CompletionReported(s: State, item: Item)
    requires FoldTasks.Inv(s.tasks, s.log) && s.cfg.airTasks && item.id !in s.done && HasTask(s, item) && !s.replaying
    ensures Reported(PhaseOf(s.log, TaskOf(s, item)), PhaseOf(Complete(s, item).log, TaskOf(s, item)), item.status)
  {
    hide CompleteKind, MarkCutOff, Effects, KidsOf, SnapshotTasks, CompleteShells, ObserveWorkflow, PhaseOf;
    hide FoldTasks.Inv;
    var s1 := Settling(Observed(s, item), item);
    SameTask(s, s1, item);
    assert item.kind != AgentMessage;
    hide TaskOf, HasTask;
    var before, after := CompleteKindEffects(s1, item);
    EffectsTold(s, s1, CompleteKind(s1, item), item, Settled(item, false),
                KidsOf(s1, item), CompleteShells(s1, item), before, after);
  }
}
