/**
 The fold's invariant over every run: rows, children, tasks, terminals, messages and
 workflow listings stay consistent with the whole log, whatever events arrive.
 */
module FoldRuns {
  import opened Options
  import opened FoldTypes
  import opened Fold
  import opened FoldEffects
  import FoldChildren
  import FoldTasks
  import FoldTerminals
  import FoldMessages

  /** How often an item passed the settle guard. */
  function Settles(log: seq<Mark>, id: Id): nat {
    if log == [] then 0
    else
      var m := log[|log| - 1];
      Settles(log[..|log| - 1], id) + if m.Settled? && m.item.id == id then 1 else 0
  }

  /** Exactly the settled items passed the guard, once each. */
  ghost predicate RowsInv(done: set<Id>, log: seq<Mark>) {
    forall id :: Settles(log, id) == if id in done then 1 else 0
  }

  ghost predicate FlowsInv(f: Flows) {
    f.listed.Keys !! f.superseded
  }

  /** `strays` are the children with a transcript read that ended before they were announced. */
  ghost predicate Core(s: State, strays: set<ChildId>) {
    && RowsInv(s.done, s.log)
    && (s.cfg.air ==> FoldChildren.Inv(s.kids, s.log, strays))
    && FoldTasks.Inv(s.tasks, s.log)
    && FoldTerminals.Inv(s.cfg, s.shells, s.done, s.log)
    && FlowsInv(s.flows)
  }

  ghost predicate Inv(s: State, strays: set<ChildId>) {
    Core(s, strays) && FoldMessages.Inv(s)
  }

  // ---------- steps that leave a component alone ----------

  lemma {:induction false} SilentRows(done: set<Id>, log: seq<Mark>, marks: seq<Mark>)
    requires RowsInv(done, log) && Silent(marks, Rows)
    ensures RowsInv(done, log + marks)
  {
    if marks == [] {
      assert log + marks == log;
    } else {
      var rest := marks[..|marks| - 1];
      SilentRows(done, log, rest);
      assert (log + marks)[..|log + marks| - 1] == log + rest;
    }
  }

  lemma SettleRow(done: set<Id>, log: seq<Mark>, item: Item, direct: bool)
    requires RowsInv(done, log) && item.id !in done
    ensures RowsInv(done + {item.id}, log + [Settled(item, direct)])
  {
    assert (log + [Settled(item, direct)])[..|log|] == log;
  }

  /** Only the workflow listing, roles and messages may differ. */
  ghost predicate SameCore(s: State, r: State) {
    r.cfg == s.cfg && r.done == s.done && r.kids == s.kids && r.tasks == s.tasks && r.shells == s.shells
  }

  ghost predicate Quiet(marks: seq<Mark>) {
    forall ch :: ch != Messages ==> Silent(marks, ch)
  }

  lemma QuietKeeps(s: State, r: State, marks: seq<Mark>, strays: set<ChildId>)
    requires Core(s, strays) && SameCore(s, r) && FlowsInv(r.flows) && r.log == s.log + marks && Quiet(marks)
    ensures Core(r, strays)
  {
    hide RowsInv, FoldChildren.Inv, FoldTasks.Inv, FoldTerminals.Inv, FlowsInv, Silent;
    SilentRows(s.done, s.log, marks);
    if s.cfg.air { FoldChildren.SilentKeeps(s.kids, s.log, marks, strays); }
    FoldTasks.SilentKeeps(s.tasks, s.log, marks);
    FoldTerminals.SilentKeeps(s.cfg, s.shells, s.done, s.log, marks);
  }

  lemma ObserveWorkflowKeeps(f: Flows, item: Item, completed: bool)
    requires FlowsInv(f)
    ensures FlowsInv(ObserveWorkflow(f, item, completed))
  {
  }

  // ---------- the kinds ----------

  lemma TasksKeep(s: State, item: Item, log: seq<Mark>)
    requires FoldTasks.Inv(s.tasks, log)
    ensures FoldTasks.Inv(SnapshotTasks(s, item).0, log + SnapshotTasks(s, item).1)
    ensures FoldTasks.Inv(CompleteTasks(s, item).0, log + CompleteTasks(s, item).1)
  {
    hide FoldTasks.Inv, BackgroundTask, ShellTask, WorkflowTask, SettleBackground;
    var tc := CardId(s, item);
    assert log + [] == log;
    FoldTasks.BackgroundTaskKeeps(s.tasks, item, tc, log);
    FoldTasks.ShellTaskKeeps(s.tasks, item, tc, log);
    FoldTasks.WorkflowTaskKeeps(s.tasks, item, tc, log);
    FoldTasks.SettleBackgroundKeeps(s.cfg, s.tasks, s.items, item, log);
  }

  lemma KidsKeep(s: State, item: Item, log: seq<Mark>, strays: set<ChildId>)
    requires s.cfg.air && FoldChildren.Inv(s.kids, log, strays)
    ensures FoldChildren.Inv(KidsOf(s, item).0, log + KidsOf(s, item).1, strays)
  {
    hide FoldChildren.Inv, NativeSubagent;
    assert log + [] == log;
    FoldChildren.NativeSubagentKeeps(s.kids, item, log, strays);
  }

  /** One item event: each component's own entries keep it, and the others' are silent to it. */
  lemma EffectsKeep(s: State, r: State, item: Item, kids: (Children, seq<Mark>), shells: (Shells, seq<Mark>),
                    tasks: (Tasks, seq<Mark>), before: seq<Mark>, after: seq<Mark>, strays: set<ChildId>)
    requires Core(s, strays) && Effects(s, r, item, kids, shells, tasks, before, after)
    requires kids == KidsOf(s, item) && (tasks == SnapshotTasks(s, item) || tasks == CompleteTasks(s, item))
    requires OnlyOn(shells.1, Terminals)
    requires FoldTerminals.Inv(s.cfg, shells.0, s.done, s.log + kids.1 + shells.1)
    ensures Core(r, strays)
  {
    hide RowsInv, FoldChildren.Inv, FoldTasks.Inv, FoldTerminals.Inv, FlowsInv, KidsOf, SnapshotTasks, CompleteTasks;
    var rest := before + tasks.1 + after;
    var lead := kids.1 + shells.1 + before;
    forall ch ensures ch != Feed ==> Silent(rest, ch) {
      assert Silent(before, ch) && Silent(after, ch);
    }
    assert Silent(lead, Feed) by { assert Silent(before, Feed); }
    assert r.log == s.log + (kids.1 + shells.1 + rest);
    SilentRows(s.done, s.log, kids.1 + shells.1 + rest) by { assert Silent(rest, Rows); }
    if s.cfg.air {
      KidsKeep(s, item, s.log, strays);
      assert r.log == s.log + kids.1 + (shells.1 + rest);
      FoldChildren.SilentKeeps(kids.0, s.log + kids.1, shells.1 + rest, strays) by { assert Silent(rest, Kids); }
    }
    FoldTasks.SilentKeeps(s.tasks, s.log, lead);
    TasksKeep(s, item, s.log + lead);
    assert Silent(after, Feed);
    FoldTasks.SilentKeeps(tasks.0, s.log + lead + tasks.1, after);
    assert r.log == s.log + lead + tasks.1 + after;
    assert Silent(rest, Terminals);
    FoldTerminals.SilentKeeps(s.cfg, shells.0, s.done, s.log + kids.1 + shells.1, rest);
    assert r.log == s.log + kids.1 + shells.1 + rest;
  }

  // ---------- snapshots ----------

  lemma SnapshotCore(s: State, item: Item, strays: set<ChildId>)
    requires Core(s, strays) && item.id !in s.done && !IsMessage(item.kind)
    ensures Core(SnapshotKind(s, item), strays)
  {
    hide Core, SnapshotKind, Effects, KidsOf, SnapshotTasks, FoldTerminals.Inv, FoldTerminals.ScreenOf, NoteShell;
    var before, after := SnapshotKindEffects(s, item);
    ShellsSnapshot(s, item, strays);
    EffectsKeep(s, SnapshotKind(s, item), item, KidsOf(s, item), SnapshotShells(s, item), SnapshotTasks(s, item),
      before, after, strays);
  }

  lemma ShellsSnapshot(s: State, item: Item, strays: set<ChildId>)
    requires Core(s, strays) && item.id !in s.done
    ensures FoldTerminals.Inv(s.cfg, SnapshotShells(s, item).0, s.done, s.log + KidsOf(s, item).1 + SnapshotShells(s,
      item).1)
  {
    hide RowsInv, FoldChildren.Inv, FoldTasks.Inv, FlowsInv, KidsOf, CardId, FoldTerminals.ScreenOf;
    var log := s.log + KidsOf(s, item).1;
    assert log + [] == log;
    FoldTerminals.SilentKeeps(s.cfg, s.shells, s.done, s.log, KidsOf(s, item).1);
    assert FoldTerminals.Fits(s.cfg, s.shells, s.done, item.id, FoldTerminals.ScreenOf(log, item.id));
    FoldTerminals.NoteShellKeeps(s.cfg, s.shells, s.done, item, CardId(s, item), log);
  }

  /** `item/started` and `item/updated` keep the invariant. */
  lemma SnapshotKeeps(s: State, item: Item, strays: set<ChildId>)
    requires Inv(s, strays)
    ensures Inv(Snapshot(s, item), strays)
  {
    hide FoldMessages.Inv, RowsInv, FoldChildren.Inv, FoldTasks.Inv, FoldTerminals.Inv, FlowsInv, ObserveWorkflow;
    hide SnapshotKind, MarkCutOff;
    ObserveWorkflowKeeps(s.flows, item, false);
    var s0 := s.(flows := ObserveWorkflow(s.flows, item, false));
    assert s.log + [] == s.log;
    FoldMessages.Unchanged(s, s0, []);
    if item.id in s.done {
      MarkCutOffKeeps(s0, item, strays);
    } else {
      var s1 := Emit(s0, [Seen(item)]);
      QuietKeeps(s0, s1, [Seen(item)], strays);
      if IsMessage(item.kind) {
        MessageSnapshotKeeps(s0, item, strays);
      } else {
        SnapshotCore(s1, item, strays);
        OtherSnapshotMessages(s0, item);
      }
    }
  }

  lemma MarkCutOffKeeps(s: State, item: Item, strays: set<ChildId>)
    requires Inv(s, strays)
    ensures Inv(MarkCutOff(s, item), strays)
  {
    hide Core, FoldMessages.Inv, MarkableMessage;
    var r := MarkCutOff(s, item);
    FoldMessages.MarkCutOffKeeps(s, item);
    QuietMarkCutOff(s, item, strays);
  }

  lemma QuietMarkCutOff(s: State, item: Item, strays: set<ChildId>)
    requires Core(s, strays)
    ensures Core(MarkCutOff(s, item), strays)
  {
    hide Core, MarkableMessage, RowsInv, FoldChildren.Inv, FoldTasks.Inv, FoldTerminals.Inv;
    var r := MarkCutOff(s, item);
    if r != s {
      assert FlowsInv(s.flows) by { FlowsOf(s, strays); }
      QuietKeeps(s, r, [r.log[|r.log| - 1]], strays);
    }
  }

  lemma FlowsOf(s: State, strays: set<ChildId>)
    requires Core(s, strays)
    ensures FlowsInv(s.flows)
  {
  }

  lemma MessageSnapshotKeeps(s: State, item: Item, strays: set<ChildId>)
    requires Inv(s, strays) && item.id !in s.done && IsMessage(item.kind)
    ensures Inv(SnapshotKind(Emit(s, [Seen(item)]), item), strays)
  {
    hide Core, FoldMessages.Inv, MarkCutOff;
    var s1 := Emit(s, [Seen(item)]);
    var s2 := OpenMessage(s1, item.id);
    FoldMessages.OpenMessageKeeps(s, item);
    FlowsOf(s, strays);
    QuietKeeps(s, s2, [Seen(item)], strays);
    MarkCutOffKeeps(s2, item, strays);
    assert SnapshotKind(s1, item) == MarkCutOff(s2, item);
  }

  lemma OtherSnapshotMessages(s: State, item: Item)
    requires FoldMessages.Inv(s) && item.id !in s.done && !IsMessage(item.kind)
    ensures FoldMessages.Inv(SnapshotKind(Emit(s, [Seen(item)]), item))
  {
    hide FoldMessages.Inv, SnapshotKind, KidsOf, SnapshotTasks, SnapshotShells, NoteShell;
    var s1 := Emit(s, [Seen(item)]);
    var r := SnapshotKind(s1, item);
    var before, after := SnapshotKindEffects(s1, item);
    SnapshotShellsQuiet(s1, item);
    OtherKindMessages(s, s1, r, item, Seen(item), KidsOf(s1, item), SnapshotShells(s1, item), SnapshotTasks(s1,
      item), before, after);
  }

  lemma SnapshotShellsQuiet(s: State, item: Item)
    ensures SnapshotShells(s, item).1 == []
  {
    hide NoteShell;
  }

  /** The message side of an event of another kind. */
  lemma OtherKindMessages(s: State, s1: State, r: State, item: Item, m: Mark, kids: (Children, seq<Mark>),
                  shells: (Shells, seq<Mark>), tasks: (Tasks, seq<Mark>), before: seq<Mark>, after: seq<Mark>)
    requires FoldMessages.Inv(s) && item.kind != AgentMessage && (m == Seen(item) || m == Settled(item, false))
    requires s1 == s.(done := s1.done, log := s.log + [m]) && (s1.done == s.done || s1.done == s.done + {item.id})
    requires Effects(s1, r, item, kids, shells, tasks, before, after)
    requires OnlyOn(kids.1, Kids) && OnlyOn(shells.1, Terminals) && OnlyOn(tasks.1, Feed)
    ensures FoldMessages.Inv(r)
  {
    hide FoldMessages.Inv;
    var marks := kids.1 + shells.1 + before + tasks.1 + after;
    assert Silent(marks, Messages) by { assert Silent(before, Messages) && Silent(after, Messages); }
    assert r.log == s.log + [m] + marks;
    FoldMessages.OtherKindKeeps(s, r, item, m, marks);
  }

  // ---------- completions ----------

  lemma ShellsComplete(s: State, item: Item, strays: set<ChildId>)
    requires Core(s, strays) && item.id !in s.done
    ensures var s1 := Settling(s, item);
      FoldTerminals.Inv(s1.cfg, CompleteShells(s1, item).0, s1.done, s1.log + KidsOf(s1, item).1 + CompleteShells(s1,
        item).1)
  {
    hide RowsInv, FoldChildren.Inv, FoldTasks.Inv, FlowsInv, KidsOf, CardId, FoldTerminals.ScreenOf, FoldTerminals.Inv;
    hide NoteShell, FinishTerminal;
    var s1 := Settling(s, item);
    var log := s1.log + KidsOf(s1, item).1;
    assert log + [] == log;
    FoldTerminals.SettleKeeps(s.cfg, s.shells, s.done, item, false, s.log);
    FoldTerminals.SilentKeeps(s.cfg, s.shells, s1.done, s1.log, KidsOf(s1, item).1);
    FoldTerminals.SilentScreen(s1.log, KidsOf(s1, item).1, item.id);
    var tc := CardId(s1, item);
    FoldTerminals.NoteShellKeeps(s.cfg, s.shells, s1.done, item, tc, log);
    FoldTerminals.FinishTerminalKeeps(s.cfg, NoteShell(s.cfg, s.shells, item, tc), s1.done, item, log);
  }

  lemma SettlingCore(s: State, item: Item, strays: set<ChildId>)
    requires Core(s, strays) && item.id !in s.done
    ensures Core(Settling(s, item), strays)
  {
    hide RowsInv, FoldChildren.Inv, FoldTasks.Inv, FlowsInv, FoldTerminals.Inv;
    var marks := [Settled(item, false)];
    SettleRow(s.done, s.log, item, false);
    if s.cfg.air { FoldChildren.SilentKeeps(s.kids, s.log, marks, strays); }
    FoldTasks.SilentKeeps(s.tasks, s.log, marks);
    FoldTerminals.SettleKeeps(s.cfg, s.shells, s.done, item, false, s.log);
  }

  lemma CompleteCore(s: State, item: Item, strays: set<ChildId>)
    requires Core(s, strays) && item.id !in s.done && item.kind != AgentMessage
    ensures Core(CompleteKind(Settling(s, item), item), strays)
  {
    hide Core, CompleteKind, Settling, Effects, KidsOf, CompleteTasks, CompleteShells, FoldTerminals.Inv;
    var s1 := Settling(s, item);
    SettlingCore(s, item, strays);
    ShellsComplete(s, item, strays);
    var before, after := CompleteKindEffects(s1, item);
    EffectsKeep(s1, CompleteKind(s1, item), item, KidsOf(s1, item), CompleteShells(s1, item), CompleteTasks(s1,
      item), before, after, strays);
  }

  lemma AgentMessageCore(s: State, item: Item, strays: set<ChildId>)
    requires Core(s, strays) && item.id !in s.done && item.kind == AgentMessage
    ensures Core(CompleteMessage(Settling(s, item), item), strays)
  {
    hide Core;
    var s1 := Settling(s, item);
    var r := CompleteMessage(s1, item);
    SettlingCore(s, item, strays);
    FlowsOf(s, strays);
    assert s1.log + [] == s1.log;
    QuietKeeps(s1, r, r.log[|s1.log|..], strays);
  }

  /** A completion passing or failing the settle guard keeps the invariant. */
  lemma CompleteKeeps(s: State, item: Item, strays: set<ChildId>)
    requires Inv(s, strays)
    ensures Inv(Complete(s, item), strays)
  {
    hide FoldMessages.Inv, Core, CompleteKind, MarkCutOff, Settling;
    var s0 := Observed(s, item);
    ObservedKeeps(s, item, strays);
    if item.id in s.done {
      MarkCutOffKeeps(s0, item, strays);
    } else if item.kind == AgentMessage {
      FoldMessages.CompleteMessageKeeps(s0, item);
      AgentMessageCore(s0, item, strays);
      AgentMessageKind(Settling(s0, item), item);
    } else {
      CompleteCore(s0, item, strays);
      OtherCompleteMessages(s0, item);
    }
  }

  lemma AgentMessageKind(s: State, item: Item)
    requires item.kind == AgentMessage
    ensures CompleteKind(s, item) == CompleteMessage(s, item)
  {
    hide CompleteMessage;
  }

  lemma ObservedKeeps(s: State, item: Item, strays: set<ChildId>)
    requires Inv(s, strays)
    ensures Inv(Observed(s, item), strays)
  {
    hide FoldMessages.Inv, RowsInv, FoldChildren.Inv, FoldTasks.Inv, FoldTerminals.Inv, FlowsInv, ObserveWorkflow;
    ObserveWorkflowKeeps(s.flows, item, true);
    assert s.log + [] == s.log;
    FoldMessages.Unchanged(s, Observed(s, item), []);
  }

  lemma OtherCompleteMessages(s: State, item: Item)
    requires FoldMessages.Inv(s) && item.id !in s.done && item.kind != AgentMessage
    ensures FoldMessages.Inv(CompleteKind(Settling(s, item), item))
  {
    hide FoldMessages.Inv, CompleteKind, KidsOf, CompleteTasks, CompleteShells;
    var s1 := Settling(s, item);
    var r := CompleteKind(s1, item);
    var before, after := CompleteKindEffects(s1, item);
    OtherKindMessages(s, s1, r, item, Settled(item, false), KidsOf(s1, item), CompleteShells(s1, item),
      CompleteTasks(s1, item), before, after);
  }

  // ---------- held rows and history ----------

  /** The mode, the held rows and the output budgets are outside the invariant. */
  lemma OutsideKeeps(s: State, r: State, strays: set<ChildId>)
    requires Inv(s, strays) && r == s.(awaiting := r.awaiting, replaying := r.replaying,
      streamedOutput := r.streamedOutput)
    ensures Inv(r, strays)
  {
    hide FoldMessages.Inv, RowsInv, FoldChildren.Inv, FoldTasks.Inv, FoldTerminals.Inv, FlowsInv;
    assert s.log + [] == s.log;
    FoldMessages.Unchanged(s, r, []);
  }

  lemma {:induction false} CompleteAllKeeps(s: State, rows: seq<Held>, strays: set<ChildId>)
    requires Inv(s, strays)
    ensures Inv(CompleteAll(s, rows), strays)
  {
    hide Inv, Complete;
    if rows != [] {
      CompleteAllKeeps(s, rows[..|rows| - 1], strays);
      CompleteKeeps(CompleteAll(s, rows[..|rows| - 1]), rows[|rows| - 1].item, strays);
    }
  }

  lemma ReleaseKeeps(s: State, anchor: Id, strays: set<ChildId>)
    requires Inv(s, strays)
    ensures Inv(Release(s, anchor), strays)
  {
    hide Inv, CompleteAll;
    var s1 := s.(awaiting := Select(s.awaiting, {anchor}, false));
    OutsideKeeps(s, s1, strays);
    CompleteAllKeeps(s1, Select(s.awaiting, {anchor}, true), strays);
  }

  lemma FlushKeeps(s: State, coming: set<Id>, strays: set<ChildId>)
    requires Inv(s, strays)
    ensures Inv(FlushUnless(s, coming), strays)
  {
    hide Inv, CompleteAll;
    var s1 := s.(awaiting := Select(s.awaiting, coming, true));
    OutsideKeeps(s, s1, strays);
    CompleteAllKeeps(s1, Select(s.awaiting, coming, false), strays);
  }

  lemma ItemCompletedKeeps(s: State, item: Item, strays: set<ChildId>)
    requires Inv(s, strays)
    ensures Inv(ItemCompleted(s, item), strays)
  {
    hide Inv, Release, Complete;
    var s1 := s.(streamedOutput := s.streamedOutput - {item.id});
    OutsideKeeps(s, s1, strays);
    var anchor := Deferring(s1, item);
    if anchor.Some? {
      OutsideKeeps(s1, Hold(s1, anchor.value, item), strays);
    } else {
      CompleteKeeps(s1, item, strays);
      ReleaseKeeps(Complete(s1, item), item.id, strays);
    }
  }

  lemma ReplayMessageKeeps(s: State, item: Item, strays: set<ChildId>)
    requires Inv(s, strays) && item.id !in s.done && IsMessage(item.kind)
    ensures Inv(ReplayMessage(s, item), strays)
  {
    hide Core, FoldMessages.Inv;
    FoldMessages.ReplayMessageKeeps(s, item);
    var r := ReplayMessage(s, item);
    var s1 := Emit(s.(done := s.done + {item.id}), [Settled(item, true)]);
    DirectlySettled(s, item, strays);
    FlowsOf(s, strays);
    var rest := r.log[|s1.log|..];
    assert r.log == s1.log + rest;
    QuietKeeps(s1, r, rest, strays);
  }

  lemma DirectlySettled(s: State, item: Item, strays: set<ChildId>)
    requires Core(s, strays) && item.id !in s.done
    ensures Core(Emit(s.(done := s.done + {item.id}), [Settled(item, true)]), strays)
  {
    hide RowsInv, FoldChildren.Inv, FoldTasks.Inv, FlowsInv, FoldTerminals.Inv;
    var marks := [Settled(item, true)];
    SettleRow(s.done, s.log, item, true);
    if s.cfg.air { FoldChildren.SilentKeeps(s.kids, s.log, marks, strays); }
    FoldTasks.SilentKeeps(s.tasks, s.log, marks);
    FoldTerminals.SettleKeeps(s.cfg, s.shells, s.done, item, true, s.log);
  }

  lemma ReplayPrefixKeeps(s: State, item: Item, strays: set<ChildId>)
    requires Inv(s, strays) && item.id !in s.done && IsMessage(item.kind)
    ensures Inv(ReplayPrefix(s, item), strays)
  {
    hide Core, FoldMessages.Inv;
    FoldMessages.ReplayPrefixKeeps(s, item);
    FlowsOf(s, strays);
    var r := ReplayPrefix(s, item);
    var marks := r.log[|s.log|..];
    assert r.log == s.log + marks;
    QuietKeeps(s, r, marks, strays);
  }

  /** One history item, settled or in flight, keeps the invariant. */
  lemma ReplayItemKeeps(s: State, item: Item, strays: set<ChildId>)
    requires Inv(s, strays)
    ensures Inv(ReplayItem(s, item), strays)
  {
    hide Core, FoldMessages.Inv, Snapshot, ReplayPrefix, ReplayMessage, ItemCompleted, ObserveWorkflow;
    var s1 := s.(flows := ObserveWorkflow(s.flows, item, !InFlight(item)));
    ListingKeeps(s, item, !InFlight(item), strays);
    if item.id in s.done {
    } else if InFlight(item) {
      SnapshotKeeps(s1, item, strays);
      if IsMessage(item.kind) {
        SnapshotDone(s1, item);
        ReplayPrefixKeeps(Snapshot(s1, item), item, strays);
      }
    } else if IsMessage(item.kind) {
      ReplayMessageKeeps(s1, item, strays);
    } else {
      ItemCompletedKeeps(s1, item, strays);
    }
  }

  lemma ListingKeeps(s: State, item: Item, completed: bool, strays: set<ChildId>)
    requires Inv(s, strays)
    ensures Inv(s.(flows := ObserveWorkflow(s.flows, item, completed)), strays)
  {
    hide FoldMessages.Inv, RowsInv, FoldChildren.Inv, FoldTasks.Inv, FoldTerminals.Inv, FlowsInv, ObserveWorkflow;
    ObserveWorkflowKeeps(s.flows, item, completed);
    assert s.log + [] == s.log;
    FoldMessages.Unchanged(s, s.(flows := ObserveWorkflow(s.flows, item, completed)), []);
  }

  lemma SnapshotDone(s: State, item: Item)
    requires IsMessage(item.kind)
    ensures Snapshot(s, item).done == s.done
  {
    hide ObserveWorkflow, MarkableMessage, SnapshotToolCall, SnapshotHostCard, SnapshotOther, ChildItem, MonitorUpdate;
  }

  lemma {:induction false} ReplayFromKeeps(s: State, batch: seq<Wire>, turn: Option<Id>, strays: set<ChildId>)
    requires Inv(s, strays)
    ensures Inv(ReplayFrom(s, batch, turn), strays)
    decreases batch
  {
    hide Inv, FlushUnless, Release, ReplayItem;
    if batch != [] {
      FlushKeeps(s, Ids(batch), strays);
      var s1 := Boundary(s, batch, turn);
      if batch[0].Named? {
        ReplayItemKeeps(s1, batch[0].item, strays);
        ReleaseKeeps(ReplayItem(s1, batch[0].item), batch[0].item.id, strays);
      }
      ReplayFromKeeps(Consume(s1, batch[0]), batch[1..], NextTurn(batch[0], turn), strays);
    }
  }

  lemma ReplayKeeps(s: State, batch: seq<Wire>, strays: set<ChildId>)
    requires Inv(s, strays)
    ensures Inv(Replay(s, batch), strays)
  {
    hide Inv, FlushUnless, ReplayFrom;
    var s1 := s.(replaying := true);
    OutsideKeeps(s, s1, strays);
    ReplayFromKeeps(s1, batch, None, strays);
    var s2 := ReplayFrom(s1, batch, None);
    FlushKeeps(s2, {}, strays);
    OutsideKeeps(Flush(s2), Replay(s, batch), strays);
  }

  // ---------- deltas ----------

  lemma OutputDeltaKeeps(s: State, id: Id, delta: string, strays: set<ChildId>)
    requires Inv(s, strays)
    ensures Inv(OutputDelta(s, id, delta), strays)
  {
    hide FoldMessages.Inv, RowsInv, FoldChildren.Inv, FoldTasks.Inv, FoldTerminals.Inv, FlowsInv, TerminalDelta,
      Budgeted;
    var r := OutputDelta(s, id, delta);
    if s.cfg.v2 && id in s.shells.commands {
      var (shells, marks) := TerminalDelta(s.cfg, s.shells, id, delta);
      SilentRows(s.done, s.log, marks);
      if s.cfg.air { FoldChildren.SilentKeeps(s.kids, s.log, marks, strays); }
      FoldTasks.SilentKeeps(s.tasks, s.log, marks);
      FoldTerminals.TerminalDeltaKeeps(s.cfg, s.shells, s.done, id, delta, s.log);
      FoldMessages.Unchanged(s, r, marks);
    } else {
      var marks := r.log[|s.log|..];
      assert r.log == s.log + marks;
      QuietKeeps(s, r, marks, strays);
      FoldMessages.Unchanged(s, r, marks);
    }
  }

  lemma MessageDeltaKeeps(s: State, id: Id, delta: string, strays: set<ChildId>)
    requires Inv(s, strays) && delta != ""
    ensures Inv(MessageDelta(s, id, delta), strays)
  {
    hide Core, FoldMessages.Inv;
    FoldMessages.MessageDeltaKeeps(s, id, delta);
    FlowsOf(s, strays);
    var r := MessageDelta(s, id, delta);
    var marks := r.log[|s.log|..];
    assert r.log == s.log + marks;
    QuietKeeps(s, r, marks, strays);
  }

  lemma SummaryDeltaKeeps(s: State, id: Id, part: nat, delta: string, strays: set<ChildId>)
    requires Inv(s, strays)
    ensures Inv(SummaryDelta(s, id, part, delta), strays)
  {
    hide Core;
    FlowsOf(s, strays);
    var r := SummaryDelta(s, id, part, delta);
    var marks := r.log[|s.log|..];
    assert r.log == s.log + marks;
    QuietKeeps(s, r, marks, strays);
    FoldMessages.ThoughtKeeps(s, r, marks);
  }

  // ---------- runs ----------

  /** The child of an event that ends a read before the child was announced. */
  ghost function Stray(s: State, e: Event): set<ChildId> {
    if e.ReadEnds? then FoldChildren.StrayRead(s.kids, e.child, e.generation) else {}
  }

  /** The children with such a read among the events. */
  ghost function Strays(s: State, events: seq<Event>): set<ChildId> {
    if events == [] then {}
    else
      var rest := events[..|events| - 1];
      Strays(s, rest) + Stray(Run(s, rest), events[|events| - 1])
  }

  lemma OnTasksKeeps(s: State, out: (Tasks, seq<Mark>), strays: set<ChildId>)
    requires Inv(s, strays) && OnlyOn(out.1, Feed) && FoldTasks.Inv(out.0, s.log + out.1)
    ensures Inv(OnTasks(s, out), strays)
  {
    hide FoldMessages.Inv, RowsInv, FoldChildren.Inv, FoldTasks.Inv, FoldTerminals.Inv, FlowsInv;
    SilentRows(s.done, s.log, out.1);
    if s.cfg.air { FoldChildren.SilentKeeps(s.kids, s.log, out.1, strays); }
    FoldTerminals.SilentKeeps(s.cfg, s.shells, s.done, s.log, out.1);
    FoldMessages.Unchanged(s, OnTasks(s, out), out.1);
  }

  lemma OnKidsKeeps(s: State, out: (Children, seq<Mark>), strays: set<ChildId>, more: set<ChildId>)
    requires Inv(s, strays) && OnlyOn(out.1, Kids)
    requires s.cfg.air ==> FoldChildren.Inv(out.0, s.log + out.1, strays + more)
    ensures Inv(OnKids(s, out), strays + more)
  {
    hide FoldMessages.Inv, RowsInv, FoldChildren.Inv, FoldTasks.Inv, FoldTerminals.Inv, FlowsInv;
    SilentRows(s.done, s.log, out.1);
    FoldTasks.SilentKeeps(s.tasks, s.log, out.1);
    FoldTerminals.SilentKeeps(s.cfg, s.shells, s.done, s.log, out.1);
    FoldMessages.Unchanged(s, OnKids(s, out), out.1);
  }

  lemma TasksOf(s: State, strays: set<ChildId>)
    requires Inv(s, strays)
    ensures FoldTasks.Inv(s.tasks, s.log) && (s.cfg.air ==> FoldChildren.Inv(s.kids, s.log, strays))
  {
  }

  lemma TaskEventKeeps(s: State, e: Event, strays: set<ChildId>)
    requires Inv(s, strays) && (e.TaskRow? || e.BackgroundRecord? || e.ConnectionLost?)
    ensures Inv(Step(s, e), strays)
  {
    hide Inv, FoldTasks.Inv, OnTasks, SeedTask, SettleBackground, Disconnect;
    hide Snapshot, Delta, ItemCompleted, Replay, Flush, EndChildRead;
    TasksOf(s, strays);
    match e
    case TaskRow(task, foreground) =>
      FoldTasks.SeedTaskKeeps(s.tasks, task, foreground, s.log);
      OnTasksKeeps(s, SeedTask(s.tasks, task, foreground), strays);
    case BackgroundRecord(record) =>
      FoldTasks.SettleBackgroundKeeps(s.cfg, s.tasks, s.items, record, s.log);
      OnTasksKeeps(s, SettleBackground(s.cfg, s.tasks, s.items, record), strays);
    case ConnectionLost(order) =>
      FoldTasks.DisconnectKeeps(s.tasks, order, s.log);
      OnTasksKeeps(s, Disconnect(s.tasks, order), strays);
  }

  lemma ReadEventKeeps(s: State, e: Event, strays: set<ChildId>)
    requires Inv(s, strays) && (e.TakeRead? || e.ReadBegins? || e.ReadEnds?)
    ensures Inv(Step(s, e), strays + Stray(s, e))
  {
    hide Inv, OnTasks, SeedTask, SettleBackground, Disconnect, FoldChildren.StageOf, SessionName;
    hide Snapshot, Delta, ItemCompleted, Replay, Flush, EndChildRead;
    TasksOf(s, strays);
    match e
    case TakeRead(child) =>
      assert s.log + [] == s.log;
      OnKidsKeeps(s, (s.kids.(toRead := s.kids.toRead - {child}), []), strays, {});
    case ReadBegins(child) =>
      assert s.log + [] == s.log;
      OnKidsKeeps(s, (s.kids.(inFlight := s.kids.inFlight + {ChildSessionId(s.kids, child)}), []), strays, {});
    case ReadEnds(child, generation) =>
      if s.cfg.air { FoldChildren.EndChildReadKeeps(s.kids, child, generation, s.log, strays); }
      OnKidsKeeps(s, EndChildRead(s.cfg.air, s.kids, child, SessionName(child, generation)), strays, Stray(s, e));
  }

  lemma StepKeeps(s: State, e: Event, strays: set<ChildId>)
    requires Inv(s, strays)
    ensures Inv(Step(s, e), strays + Stray(s, e))
  {
    hide Inv, OnTasks, OnKids, SeedTask, SettleBackground, Disconnect, EndChildRead;
    assert strays + {} == strays;
    hide Snapshot, OutputDelta, MessageDelta, SummaryDelta, ItemCompleted, Replay, FlushUnless;
    match e
    case SnapshotEvent(w) => if w.Named? { SnapshotKeeps(s, w.item, strays); }
    case DeltaEvent(id, field, text) =>
      if text != "" {
        OutputDeltaKeeps(s, id, text, strays);
        MessageDeltaKeeps(s, id, text, strays);
        if field.Summary? { SummaryDeltaKeeps(s, id, field.part, text, strays); }
      }
    case CompletedEvent(w) => if w.Named? { ItemCompletedKeeps(s, w.item, strays); }
    case HistoryEvent(batch) => ReplayKeeps(s, batch, strays);
    case TurnEnds => FlushKeeps(s, {}, strays);
    case TaskRow(_, _) => TaskEventKeeps(s, e, strays);
    case BackgroundRecord(_) => TaskEventKeeps(s, e, strays);
    case ConnectionLost(_) => TaskEventKeeps(s, e, strays);
    case _ => ReadEventKeeps(s, e, strays);
  }

  lemma FreshInv(cfg: Config)
    ensures Inv(Fresh(cfg), {})
  {
    forall c: ChildId, g: nat {:trigger SessionName(c, g)} | 1 <= g
      ensures FoldChildren.StageOf([], SessionName(c, g)) == FoldChildren.Expected(Fresh(cfg).kids, c, g, {})
    {
    }
  }

  /** Every reachable state of every run. */
  lemma {:induction false} RunInv(cfg: Config, events: seq<Event>)
    ensures Inv(Run(Fresh(cfg), events), Strays(Fresh(cfg), events))
  {
    hide Inv, Step, Fresh;
    if events == [] {
      FreshInv(cfg);
    } else {
      var rest := events[..|events| - 1];
      RunInv(cfg, rest);
      StepKeeps(Run(Fresh(cfg), rest), events[|events| - 1], Strays(Fresh(cfg), rest));
    }
  }
}
