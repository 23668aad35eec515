/**
 What each elementary step writes into the log: the input fact it takes, and notes only
 after it. So the facts in the log are the inputs, whatever the notes are.
 */
module FoldShapes {
  import opened Options
  import opened FoldTypes
  import opened Text
  import opened Fold
  import opened FoldEffects

  ghost predicate NotesOnly(marks: seq<Mark>) {
    forall i :: 0 <= i < |marks| ==> marks[i].Sent?
  }

  /** The step appended the fact, when there is one, and notes. */
  ghost predicate Wrote(s: State, r: State, facts: seq<Mark>, marks: seq<Mark>) {
    r.log == s.log + facts + marks && NotesOnly(marks)
  }

  lemma PlainIsNotes(marks: seq<Mark>)
    requires Plain(marks)
    ensures NotesOnly(marks)
  {
    forall i | 0 <= i < |marks| ensures marks[i].Sent? {
      assert Silent(marks, Messages) && Silent(marks, Rows) && Silent(marks, Terminals);
      assert !On(marks[i], Messages) && !On(marks[i], Rows) && !On(marks[i], Terminals);
    }
  }

  lemma ChannelIsNotes(marks: seq<Mark>, ch: Channel)
    requires OnlyOn(marks, ch) && (ch == Kids || ch == Feed)
    ensures NotesOnly(marks)
  {
    forall i | 0 <= i < |marks| ensures marks[i].Sent? {
      assert On(marks[i], Messages) ==> Messages == ch;
      assert On(marks[i], Rows) ==> Rows == ch;
      assert On(marks[i], Terminals) ==> Terminals == ch;
    }
  }

  lemma ShellIsNotes(s: State, item: Item, tc: Id)
    ensures NotesOnly(CompleteShell(s, item, tc).1)
  {
    hide Truncate, NoteShell;
  }

  lemma EffectsShape(s: State, r: State, item: Item, kids: (Children, seq<Mark>), shells: (Shells, seq<Mark>),
                     tasks: (Tasks, seq<Mark>), before: seq<Mark>, after: seq<Mark>) returns (marks: seq<Mark>)
    requires Effects(s, r, item, kids, shells, tasks, before, after)
    requires OnlyOn(kids.1, Kids) && NotesOnly(shells.1) && OnlyOn(tasks.1, Feed)
    ensures r.log == s.log + marks && NotesOnly(marks) && r.done == s.done
  {
    hide Plain, OnlyOn;
    ChannelIsNotes(kids.1, Kids);
    ChannelIsNotes(tasks.1, Feed);
    PlainIsNotes(before);
    PlainIsNotes(after);
    marks := kids.1 + shells.1 + before + tasks.1 + after;
    assert r.log == s.log + marks;
  }

  lemma MarkShape(s: State, item: Item) returns (marks: seq<Mark>)
    ensures Wrote(s, MarkCutOff(s, item), [], marks) && MarkCutOff(s, item).done == s.done
    ensures Silent(marks, Kids) && MarkCutOff(s, item).kids == s.kids && MarkCutOff(s, item).cfg == s.cfg
  {
    hide MarkableMessage;
    var r := MarkCutOff(s, item);
    marks := r.log[|s.log|..];
    assert s.log + [] == s.log;
    assert r.log == s.log + marks;
  }

  /** A snapshot of an item that has not settled is recorded as seen. */
  lemma SnapshotShape(s: State, item: Item) returns (marks: seq<Mark>)
    ensures Wrote(s, Snapshot(s, item), if item.id in s.done then [] else [Seen(item)], marks)
    ensures Snapshot(s, item).done == s.done
  {
    hide SnapshotKind, MarkCutOff, Effects, KidsOf, SnapshotShells, SnapshotTasks, ObserveWorkflow;
    var s0 := s.(flows := ObserveWorkflow(s.flows, item, false));
    var s1 := Emit(s0, [Seen(item)]);
    if item.id in s.done {
      marks := MarkShape(s0, item);
    } else if IsMessage(item.kind) {
      marks := MessageShape(s1, item);
    } else {
      var before, after := SnapshotKindEffects(s1, item);
      SnapshotShellsSilent(s1, item);
      marks := EffectsShape(s1, SnapshotKind(s1, item), item, KidsOf(s1, item), SnapshotShells(s1, item),
        SnapshotTasks(s1, item), before, after);
    }
  }

  lemma SnapshotShellsSilent(s: State, item: Item)
    ensures SnapshotShells(s, item).1 == []
  {
    hide NoteShell;
  }

  lemma MessageShape(s: State, item: Item) returns (marks: seq<Mark>)
    requires IsMessage(item.kind)
    ensures SnapshotKind(s, item).log == s.log + marks && NotesOnly(marks) && SnapshotKind(s, item).done == s.done
    ensures Silent(marks, Kids) && SnapshotKind(s, item).kids == s.kids && SnapshotKind(s, item).cfg == s.cfg
  {
    hide SnapshotToolCall, SnapshotHostCard, SnapshotOther, ChildItem, MonitorUpdate, MarkCutOff;
    marks := MarkShape(OpenMessage(s, item.id), item);
    assert s.log + [] == s.log;
  }

  /** A completion of an item that has not settled settles it. */
  lemma CompleteShape(s: State, item: Item) returns (marks: seq<Mark>)
    ensures Wrote(s, Complete(s, item), if item.id in s.done then [] else [Settled(item, false)], marks)
    ensures Complete(s, item).done == s.done + {item.id}
  {
    hide CompleteKind, MarkCutOff, Effects, KidsOf, CompleteShells, CompleteTasks, ObserveWorkflow;
    var s0 := Observed(s, item);
    var s1 := Settling(s0, item);
    if item.id in s.done {
      marks := MarkShape(s0, item);
      assert s.done + {item.id} == s.done;
    } else if item.kind == AgentMessage {
      marks := ReplyShape(s1, item);
    } else {
      var before, after := CompleteKindEffects(s1, item);
      CompleteShellsNotes(s1, item);
      marks := EffectsShape(s1, CompleteKind(s1, item), item, KidsOf(s1, item), CompleteShells(s1, item),
        CompleteTasks(s1, item), before, after);
    }
  }

  lemma CompleteShellsNotes(s: State, item: Item)
    ensures NotesOnly(CompleteShells(s, item).1)
  {
    hide CompleteShell, CardId;
    ShellIsNotes(s, item, CardId(s, item));
  }

  lemma ReplyShape(s: State, item: Item) returns (marks: seq<Mark>)
    requires item.kind == AgentMessage
    ensures CompleteKind(s, item).log == s.log + marks && NotesOnly(marks) && CompleteKind(s, item).done == s.done
    ensures Silent(marks, Kids) && CompleteKind(s, item).kids == s.kids && CompleteKind(s, item).cfg == s.cfg
  {
    hide CompleteToolCall, CompleteHostCard, CompleteOther, ChildItem, CompleteReasoning, MonitorUpdate;
    var r := CompleteKind(s, item);
    marks := r.log[|s.log|..];
    assert r.log == s.log + marks;
  }

  /** The text so far of an in-flight message in a batch is recorded. */
  lemma PrefixShape(s: State, item: Item) returns (marks: seq<Mark>)
    ensures Wrote(s, ReplayPrefix(s, item), if MessageText(item) == "" then [] else [Prefix(item)], marks)
    ensures ReplayPrefix(s, item).done == s.done
    ensures Silent(marks, Kids) && ReplayPrefix(s, item).kids == s.kids && ReplayPrefix(s, item).cfg == s.cfg
  {
    var r := ReplayPrefix(s, item);
    if MessageText(item) == "" {
      marks := [];
    } else {
      marks := r.log[|s.log| + 1..];
      assert r.log == s.log + [Prefix(item)] + marks;
    }
  }

  lemma ReplayMessageShape(s: State, item: Item) returns (marks: seq<Mark>)
    ensures Wrote(s, ReplayMessage(s, item), [Settled(item, true)], marks)
    ensures ReplayMessage(s, item).done == s.done + {item.id}
    ensures Silent(marks, Kids) && ReplayMessage(s, item).kids == s.kids && ReplayMessage(s, item).cfg == s.cfg
  {
    var r := ReplayMessage(s, item);
    marks := r.log[|s.log| + 1..];
    assert r.log == s.log + [Settled(item, true)] + marks;
  }

  /** The fact of a delta: text always, output when it goes to a shell's terminal. */
  ghost function DeltaFact(s: State, id: Id, field: Field, delta: string): seq<Mark> {
    if delta == "" then []
    else if field == Words then [TextDelta(id, delta)]
    else if field == Output && s.cfg.v2 && id in s.shells.commands then [Routed(id, delta)]
    else []
  }

  lemma DeltaShape(s: State, id: Id, field: Field, delta: string) returns (marks: seq<Mark>)
    ensures Wrote(s, Delta(s, id, field, delta), DeltaFact(s, id, field, delta), marks)
    ensures Delta(s, id, field, delta).done == s.done
    ensures Silent(marks, Kids) && Delta(s, id, field, delta).kids == s.kids && Delta(s, id, field, delta).cfg == s.cfg
  {
    hide OutputDelta, MessageDelta, SummaryDelta, Wrote;
    marks := [];
    if delta == "" || field == OtherField {
      NothingWritten(s);
    } else {
      match field
      case Words => marks := WordsShape(s, id, delta);
      case Output => marks := OutputShape(s, id, delta);
      case Summary(part) => marks := SummaryShape(s, id, part, delta);
    }
  }

  lemma NothingWritten(s: State)
    ensures Wrote(s, s, [], [])
  {
  }

  lemma WordsShape(s: State, id: Id, delta: string) returns (marks: seq<Mark>)
    ensures Wrote(s, MessageDelta(s, id, delta), [TextDelta(id, delta)], marks)
    ensures MessageDelta(s, id, delta).done == s.done
    ensures Silent(marks, Kids) && MessageDelta(s, id, delta).kids == s.kids && MessageDelta(s, id, delta).cfg == s.cfg
  {
    var r := MessageDelta(s, id, delta);
    marks := r.log[|s.log| + 1..];
    assert r.log == s.log + [TextDelta(id, delta)] + marks;
  }

  lemma OutputShape(s: State, id: Id, delta: string) returns (marks: seq<Mark>)
    ensures var fact := if s.cfg.v2 && id in s.shells.commands then [Routed(id, delta)] else [];
      Wrote(s, OutputDelta(s, id, delta), fact, marks)
    ensures OutputDelta(s, id, delta).done == s.done
    ensures Silent(marks, Kids) && OutputDelta(s, id, delta).kids == s.kids && OutputDelta(s, id, delta).cfg == s.cfg
  {
    hide Budgeted;
    var r := OutputDelta(s, id, delta);
    if s.cfg.v2 && id in s.shells.commands {
      marks := r.log[|s.log| + 1..];
      assert r.log == s.log + [Routed(id, delta)] + marks;
    } else {
      marks := r.log[|s.log|..];
      assert r.log == s.log + [] + marks;
    }
  }

  lemma SummaryShape(s: State, id: Id, part: nat, delta: string) returns (marks: seq<Mark>)
    ensures Wrote(s, SummaryDelta(s, id, part, delta), [], marks)
    ensures SummaryDelta(s, id, part, delta).done == s.done
    ensures Silent(marks, Kids)
    ensures SummaryDelta(s, id, part, delta).kids == s.kids && SummaryDelta(s, id, part, delta).cfg == s.cfg
  {
    var r := SummaryDelta(s, id, part, delta);
    marks := r.log[|s.log|..];
    assert r.log == s.log + [] + marks;
  }

  lemma ControlShape(s: State, e: Event) returns (marks: seq<Mark>)
    requires !(e.SnapshotEvent? || e.DeltaEvent? || e.CompletedEvent? || e.HistoryEvent? || e.TurnEnds?)
    ensures Wrote(s, Step(s, e), [], marks) && Step(s, e).done == s.done && Step(s, e).items == s.items
    ensures Step(s, e).awaiting == s.awaiting && Step(s, e).cfg == s.cfg && Step(s, e).shells == s.shells
  {
    hide SeedTask, SettleBackground, Disconnect, EndChildRead, ChildSessionId, OnlyOn;
    hide Snapshot, Delta, ItemCompleted, Replay, FlushUnless;
    marks := [];
    if e.TaskRow? && s.cfg.airTasks {
      marks := SeedTask(s.tasks, e.task, e.foreground).1;
      ChannelIsNotes(marks, Feed);
    } else if e.BackgroundRecord? {
      marks := SettleBackground(s.cfg, s.tasks, s.items, e.record).1;
      ChannelIsNotes(marks, Feed);
    } else if e.ConnectionLost? {
      marks := Disconnect(s.tasks, e.order).1;
      ChannelIsNotes(marks, Feed);
    } else if e.ReadEnds? {
      marks := EndChildRead(s.cfg.air, s.kids, e.child, SessionName(e.child, e.generation)).1;
      ChannelIsNotes(marks, Kids);
    }
    assert s.log + [] + marks == s.log + marks;
  }
}
