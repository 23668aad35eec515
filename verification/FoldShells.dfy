/**
 Shell output reaches its terminal: every output delta of a shell that was seen is fed to
 its screen, and a shell that ran ends with one exit that carries its bounded output.
 */
module FoldShells {
  import opened Options
  import opened FoldTypes
  import opened Fold
  import opened Text
  import opened FoldEffects
  import opened FoldShapes
  import opened FoldTerminals
  import FoldInduction

  predicate ShowsCommand(item: Item) {
    (item.kind == ToolCall || item.kind == UserShell) && item.command.Some?
  }

  /** A snapshot of the item named a shell command. */
  ghost predicate ShellSeen(log: seq<Mark>, id: Id) {
    exists i :: 0 <= i < |log| && log[i].Seen? && log[i].item.id == id && ShowsCommand(log[i].item)
  }

  /** On ACP v2, the command of every shell that was seen and has not settled is noted. */
  ghost predicate Noted(s: State) {
    s.cfg.v2 ==> forall id :: ShellSeen(s.log, id) && id !in s.done ==> id in s.shells.commands
  }

  lemma SeenAppend(log: seq<Mark>, marks: seq<Mark>, id: Id)
    requires NotesOnly(marks)
    ensures ShellSeen(log + marks, id) <==> ShellSeen(log, id)
  {
    if ShellSeen(log, id) {
      var i :| 0 <= i < |log| && log[i].Seen? && log[i].item.id == id && ShowsCommand(log[i].item);
      assert (log + marks)[i] == log[i];
    }
    if ShellSeen(log + marks, id) {
      var i :| 0 <= i < |log + marks| && (log + marks)[i].Seen? && (log + marks)[i].item.id == id
        && ShowsCommand((log + marks)[i].item);
      assert i < |log|;
    }
  }

  lemma SeenOne(log: seq<Mark>, m: Mark, id: Id)
    ensures ShellSeen(log + [m], id) ==>
      ShellSeen(log, id) || (m.Seen? && m.item.id == id && ShowsCommand(m.item))
  {
    if ShellSeen(log + [m], id) {
      var i :| 0 <= i < |log| + 1 && (log + [m])[i].Seen? && (log + [m])[i].item.id == id
        && ShowsCommand((log + [m])[i].item);
      if i < |log| {
        assert log[i] == (log + [m])[i];
      }
    }
  }

  /** A step that takes one fact and may note more commands, or drop those of settled items. */
  lemma StepNotes(s: State, r: State, facts: seq<Mark>, marks: seq<Mark>)
    requires Noted(s) && Wrote(s, r, facts, marks) && |facts| <= 1 && r.cfg == s.cfg && s.done <= r.done
    requires forall id :: id in s.shells.commands && id !in r.done ==> id in r.shells.commands
    requires facts != [] && facts[0].Seen? && ShowsCommand(facts[0].item) && s.cfg.v2 ==>
      facts[0].item.id in r.shells.commands
    ensures Noted(r)
  {
    hide ShellSeen;
    if s.cfg.v2 {
      forall id | ShellSeen(r.log, id) && id !in r.done ensures id in r.shells.commands {
        SeenAppend(s.log + facts, marks, id);
        if facts != [] {
          assert facts == [facts[0]];
          SeenOne(s.log, facts[0], id);
        } else {
          assert s.log + facts == s.log;
        }
      }
    }
  }

  lemma SnapshotNotes(s: State, item: Item)
    requires Noted(s)
    ensures Noted(Snapshot(s, item))
  {
    hide Snapshot, Noted;
    var marks := SnapshotShape(s, item);
    SnapshotCommands(s, item);
    StepNotes(s, Snapshot(s, item), if item.id in s.done then [] else [Seen(item)], marks);
  }

  lemma SnapshotCommands(s: State, item: Item)
    ensures var r := Snapshot(s, item);
      && r.cfg == s.cfg && r.done == s.done
      && (forall id :: id in s.shells.commands ==> id in r.shells.commands)
      && (item.id !in s.done && ShowsCommand(item) && s.cfg.v2 ==> item.id in r.shells.commands)
  {
    hide SnapshotKind, MarkCutOff, KidsOf, SnapshotTasks, ObserveWorkflow, CardId, Plain;
    var s0 := s.(flows := ObserveWorkflow(s.flows, item, false));
    var s1 := Emit(s0, [Seen(item)]);
    if item.id in s.done {
      MarkShells(s0, item);
    } else if IsMessage(item.kind) {
      MessageShells(s1, item);
    } else {
      var before, after := SnapshotKindEffects(s1, item);
    }
  }

  lemma MarkShells(s: State, item: Item)
    ensures var r := MarkCutOff(s, item); r.cfg == s.cfg && r.done == s.done && r.shells == s.shells
  {
    hide MarkableMessage;
  }

  lemma MessageShells(s: State, item: Item)
    requires IsMessage(item.kind)
    ensures var r := SnapshotKind(s, item); r.cfg == s.cfg && r.done == s.done && r.shells == s.shells
  {
    hide SnapshotToolCall, SnapshotHostCard, SnapshotOther, ChildItem, MonitorUpdate, MarkCutOff;
    MarkShells(OpenMessage(s, item.id), item);
  }

  lemma CompleteNotes(s: State, item: Item)
    requires Noted(s)
    ensures Noted(Complete(s, item))
  {
    hide Complete, Noted;
    var marks := CompleteShape(s, item);
    CompleteCommands(s, item);
    StepNotes(s, Complete(s, item), if item.id in s.done then [] else [Settled(item, false)], marks);
  }

  lemma CompleteCommands(s: State, item: Item)
    ensures var r := Complete(s, item);
      && r.cfg == s.cfg
      && (forall id :: id in s.shells.commands && id != item.id ==> id in r.shells.commands)
      && (item.id in s.done ==> r.shells == s.shells)
      && (item.id !in s.done && (item.kind == ToolCall || item.kind == UserShell) ==>
            r.shells == CompleteShells(Settling(Observed(s, item), item), item).0)
  {
    hide CompleteKind, MarkCutOff, KidsOf, CompleteTasks, ObserveWorkflow, CardId, Plain, Settling, CompleteShells;
    var s0 := Observed(s, item);
    var s1 := Settling(s0, item);
    assert s1.cfg == s.cfg && s1.shells == s.shells by { SettlingShells(s0, item); }
    if item.id in s.done {
      MarkShells(s0, item);
    } else if item.kind == AgentMessage {
      ReplyShells(s1, item);
    } else {
      var before, after := CompleteKindEffects(s1, item);
      FinishedCommands(s1, item);
    }
  }

  lemma SettlingShells(s: State, item: Item)
    ensures Settling(s, item).cfg == s.cfg && Settling(s, item).shells == s.shells
  {
  }

  lemma ReplyShells(s: State, item: Item)
    requires item.kind == AgentMessage
    ensures CompleteKind(s, item).cfg == s.cfg && CompleteKind(s, item).shells == s.shells
  {
    hide CompleteToolCall, CompleteHostCard, CompleteOther, ChildItem, CompleteReasoning, MonitorUpdate;
  }

  lemma FinishedCommands(s: State, item: Item)
    ensures forall id :: id in s.shells.commands && id != item.id ==> id in CompleteShells(s, item).0.commands
  {
    hide CardId, Truncate;
  }

  lemma QuietNotes(s: State, r: State, facts: seq<Mark>, marks: seq<Mark>)
    requires Noted(s) && Wrote(s, r, facts, marks) && |facts| <= 1 && (facts != [] ==> !facts[0].Seen?)
    requires r.cfg == s.cfg && s.done <= r.done && s.shells.commands.Keys <= r.shells.commands.Keys
    ensures Noted(r)
  {
    hide Noted;
    StepNotes(s, r, facts, marks);
  }

  lemma HistoryNotes(s: State, item: Item)
    requires Noted(s)
    ensures Noted(ReplayPrefix(s, item)) && Noted(ReplayMessage(s, item))
  {
    hide Noted;
    var a := PrefixShape(s, item);
    QuietNotes(s, ReplayPrefix(s, item), if Fold.MessageText(item) == "" then [] else [Prefix(item)], a);
    var b := ReplayMessageShape(s, item);
    QuietNotes(s, ReplayMessage(s, item), [Settled(item, true)], b);
  }

  lemma DeltaNotes(s: State, id: Id, field: Field, text: string)
    requires Noted(s)
    ensures Noted(Delta(s, id, field, text))
  {
    hide Noted, Delta;
    var marks := DeltaShape(s, id, field, text);
    DeltaCommands(s, id, field, text);
    QuietNotes(s, Delta(s, id, field, text), DeltaFact(s, id, field, text), marks);
  }

  lemma DeltaCommands(s: State, id: Id, field: Field, text: string)
    ensures Delta(s, id, field, text).shells.commands == s.shells.commands
  {
    hide Budgeted;
  }

  lemma NotesKept()
    ensures FoldInduction.Kept(s => Noted(s))
  {
    hide Noted, Snapshot, Complete, ReplayPrefix, ReplayMessage, Delta, Step;
    var P := (s: State) => Noted(s);
    assert FoldInduction.KeptByItems(P) by {
      forall s: State, item: Item | P(s) ensures P(Snapshot(s, item)) && P(Complete(s, item)) {
        SnapshotNotes(s, item);
        CompleteNotes(s, item);
      }
    }
    assert FoldInduction.KeptByHistory(P) by {
      forall s: State, item: Item | P(s) && IsMessage(item.kind) && item.id !in s.done
        ensures P(ReplayPrefix(s, item)) && P(ReplayMessage(s, item))
      {
        HistoryNotes(s, item);
      }
    }
    assert FoldInduction.KeptByDeltas(P) by {
      forall s, id, field, text | P(s) ensures P(Delta(s, id, field, text)) {
        DeltaNotes(s, id, field, text);
      }
    }
    assert FoldInduction.KeptByControl(P) by {
      forall s, e | P(s) && FoldInduction.Control(e) ensures P(Step(s, e)) {
        var marks := ControlShape(s, e);
        QuietNotes(s, Step(s, e), [], marks);
      }
    }
    assert FoldInduction.KeptOutside(P) by {
      forall s, r | P(s) && FoldInduction.Outside(s, r) ensures P(r) {
        assert s.log + [] + [] == s.log;
        QuietNotes(s, r, [], []);
      }
    }
  }

  lemma RunNotes(cfg: Config, events: seq<Event>)
    ensures Noted(Run(Fresh(cfg), events))
  {
    hide Run, FoldInduction.Kept;
    assert Noted(Fresh(cfg));
    hide Noted, Fresh;
    NotesKept();
    FoldInduction.RunKeeps(s => Noted(s), Fresh(cfg), events);
  }

  // ---------- output is fed, and a shell that ran exits ----------

  function Fed(screen: Screen): string {
    if screen.Broken? then "" else screen.fed
  }

  lemma {:induction false} NotesFeed(log: seq<Mark>, marks: seq<Mark>, id: Id)
    requires NotesOnly(marks) && !ScreenOf(log + marks, id).Broken?
    ensures !ScreenOf(log, id).Broken? && Fed(ScreenOf(log + marks, id)) == Fed(ScreenOf(log, id))
  {
    if marks == [] {
      assert log + marks == log;
    } else {
      assert (log + marks)[..|log + marks| - 1] == log + marks[..|marks| - 1];
      NotesFeed(log, marks[..|marks| - 1], id);
    }
  }

  /** An output delta of a noted shell is fed to its screen, whole. */
  lemma DeltaIsFed(s: State, id: Id, text: string)
    requires FoldTerminals.Inv(s.cfg, s.shells, s.done, s.log) && s.cfg.v2 && id in s.shells.commands && text != ""
    ensures var r := Delta(s, id, Output, text);
      !ScreenOf(r.log, id).Broken? && Fed(ScreenOf(r.log, id)) == Fed(ScreenOf(s.log, id)) + text
  {
    hide FoldTerminals.Inv, ScreenOf, NextScreen, OutputDelta;
    var r := Delta(s, id, Output, text);
    DeltaKeepsScreens(s, id, text);
    var marks := DeltaShape(s, id, Output, text);
    Unbroken(s, id);
    Unbroken(r, id);
    NotesFeed(s.log + [Routed(id, text)], marks, id);
    ScreenStep(s.log, Routed(id, text), id);
    RoutedFeeds(ScreenOf(s.log, id), id, text);
  }

  lemma RoutedFeeds(screen: Screen, id: Id, text: string)
    requires !screen.Broken? && !NextScreen(screen, Routed(id, text), id).Broken?
    ensures Fed(NextScreen(screen, Routed(id, text), id)) == Fed(screen) + text
  {
  }

  lemma Unbroken(s: State, id: Id)
    requires FoldTerminals.Inv(s.cfg, s.shells, s.done, s.log)
    ensures !ScreenOf(s.log, id).Broken?
  {
    assert Fits(s.cfg, s.shells, s.done, id, ScreenOf(s.log, id));
  }

  lemma DeltaKeepsScreens(s: State, id: Id, text: string)
    requires FoldTerminals.Inv(s.cfg, s.shells, s.done, s.log) && s.cfg.v2 && id in s.shells.commands && text != ""
    ensures var r := Delta(s, id, Output, text); FoldTerminals.Inv(r.cfg, r.shells, r.done, r.log)
  {
    hide FoldTerminals.Inv, TerminalDelta;
    TerminalDeltaKeeps(s.cfg, s.shells, s.done, id, text, s.log);
  }

  /** Whether a shell's item says that the command ran. */
  predicate SaysItRan(item: Item) {
    item.status == Completed || item.status == Absent || (item.status == Failed && item.output != "")
  }

  /** A live shell on ACP v2 whose command is known and ran, or whose terminal is open, exits when
      it settles, with its bounded output, and its terminal is forgotten. */
  lemma ShellExits(s: State, item: Item)
    requires s.cfg.v2 && !s.replaying && item.id !in s.done && (item.kind == ToolCall || item.kind == UserShell)
    requires item.id in s.shells.open ==> item.id in s.shells.commands
    requires item.id in s.shells.commands || item.command.Some?
    requires item.id in s.shells.open || SaysItRan(item)
    ensures var r := Complete(s, item);
      && (exists i :: |s.log| <= i < |r.log|
            && r.log[i] == Sent(TerminalExited(item.id, Truncate(item.output, s.cfg.maxContent))))
      && item.id !in r.shells.open && item.id !in r.shells.commands
  {
    hide CompleteKind, MarkCutOff, KidsOf, CompleteTasks, ObserveWorkflow, CardId, Plain, CompleteShells, Truncate;
    var s1 := Settling(Observed(s, item), item);
    var before, after := CompleteKindEffects(s1, item);
    ExitMarks(s1, item);
    var screen := CompleteShells(s1, item).1;
    var lead := s1.log + KidsOf(s1, item).1;
    var r := Complete(s, item);
    var i := |lead| + |screen| - 1;
    assert r.log[i] == (lead + screen)[i] == screen[|screen| - 1];
  }

  lemma ExitMarks(s: State, item: Item)
    requires s.cfg.v2 && !s.replaying && (item.kind == ToolCall || item.kind == UserShell)
    requires item.id in s.shells.open ==> item.id in s.shells.commands
    requires item.id in s.shells.commands || item.command.Some?
    requires item.id in s.shells.open || SaysItRan(item)
    ensures var (h, marks) := CompleteShells(s, item);
      && marks != [] && item.id !in h.open && item.id !in h.commands
      && marks[|marks| - 1] == Sent(TerminalExited(item.id, Truncate(item.output, s.cfg.maxContent)))
  {
    hide CardId, Truncate;
  }
}
