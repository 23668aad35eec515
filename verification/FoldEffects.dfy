/**
 What one item event does to each part of the fold: the item kinds dispatch to the child,
 task and terminal bookkeeping, and leave everything else alone.
 */
module FoldEffects {
  import opened Options
  import opened FoldTypes
  import opened Fold

  /** Entries on no channel: cards and the like. */
  ghost predicate Plain(marks: seq<Mark>) {
    forall ch :: Silent(marks, ch)
  }

  /** The step's entries: child updates, terminal entries and the task feed, among plain ones. */
  ghost predicate Effects(s: State, r: State, item: Item, kids: (Children, seq<Mark>), shells: (Shells, seq<Mark>),
                          tasks: (Tasks, seq<Mark>), before: seq<Mark>, after: seq<Mark>) {
    && r.cfg == s.cfg && r.done == s.done && r.awaiting == s.awaiting && r.replaying == s.replaying
    && r.flows == s.flows && r.cutOff == s.cutOff && r.lastMessage == s.lastMessage
    && r.streamedOutput == s.streamedOutput
    && r.kids == kids.0 && r.tasks == tasks.0 && r.shells == shells.0
    && Plain(before) && Plain(after)
    && r.log == s.log + kids.1 + shells.1 + before + tasks.1 + after
    && (forall x :: x != item.id ==> (x in r.items <==> x in s.items) && (x in s.items ==> r.items[x] == s.items[x]))
    && (item.id in r.items && r.items[item.id].Message? && r.items[item.id].streamed > 0 ==>
          item.id in s.items && r.items[item.id] == s.items[item.id])
  }

  ghost function KidsOf(s: State, item: Item): (r: (Children, seq<Mark>))
    ensures OnlyOn(r.1, Kids)
  {
    if item.kind == Subagent && s.cfg.native then NativeSubagent(s.cfg.air, s.kids, item) else (s.kids, [])
  }

  function CardId(s: State, item: Item): Id {
    if item.kind == ToolCall then ToolRole(s, item).tc else HostRole(s, item.id, HostPrefix(item.kind)).tc
  }

  ghost function SnapshotTasks(s: State, item: Item): (r: (Tasks, seq<Mark>))
    ensures OnlyOn(r.1, Feed)
  {
    match item.kind
    case ToolCall => if s.cfg.airTasks then BackgroundTask(s.tasks, item, CardId(s, item)) else (s.tasks, [])
    case Workflow => HostTask(s, item, CardId(s, item))
    case UserShell => HostTask(s, item, CardId(s, item))
    case BackgroundCompletion => SettleBackground(s.cfg, s.tasks, s.items, item)
    case _ => (s.tasks, [])
  }

  ghost function CompleteTasks(s: State, item: Item): (r: (Tasks, seq<Mark>))
    ensures OnlyOn(r.1, Feed)
  {
    if s.replaying && item.kind != BackgroundCompletion then (s.tasks, []) else SnapshotTasks(s, item)
  }

  ghost function SnapshotShells(s: State, item: Item): (Shells, seq<Mark>) {
    if item.kind == ToolCall || item.kind == UserShell then (NoteShell(s.cfg, s.shells, item, CardId(s, item)), [])
    else (s.shells, [])
  }

  ghost function CompleteShells(s: State, item: Item): (r: (Shells, seq<Mark>))
    ensures OnlyOn(r.1, Terminals)
  {
    var (shells, marks, _) := CompleteShell(s, item, CardId(s, item));
    (shells, marks)
  }

  /** The kinds without a task. */
  lemma NoTask(s: State, item: Item, tc: Id)
    ensures item.kind == Subagent || item.kind == HookRun ==> HostTask(s, item, tc) == (s.tasks, [])
    ensures item.kind != BackgroundCompletion ==> SettleBackground(s.cfg, s.tasks, s.items, item) == (s.tasks, [])
  {
  }

  lemma CardsArePlain(marks: seq<Mark>)
    requires forall m :: m in marks ==> m.Sent? && (m.note.Card? || m.note.TerminalReference?)
    ensures Plain(marks) && Plain([])
  {
    assert forall i :: 0 <= i < |marks| ==> marks[i] in marks;
  }

  // ---------- snapshots ----------

  lemma SnapshotToolCallEffects(s: State, item: Item) returns (before: seq<Mark>)
    requires item.kind == ToolCall
    ensures Effects(s, SnapshotToolCall(s, item), item, (s.kids, []), SnapshotShells(s, item), SnapshotTasks(s,
      item), before, [])
  {
    hide BackgroundTask, NoteShell, ToolRole, ToolNext, Plain;
    var role := ToolRole(s, item);
    before := [Sent(Card(role.tc, !role.announced, item, false, false))];
    CardsArePlain(before);
    assert s.log + [] + [] + before + SnapshotTasks(s, item).1 + [] == s.log + (before + SnapshotTasks(s, item).1);
  }

  lemma SnapshotHostCardEffects(s: State, item: Item) returns (before: seq<Mark>)
    requires item.kind in {Subagent, Workflow, UserShell, HookRun} && (item.kind == Subagent ==> !s.cfg.native)
    ensures Effects(s, SnapshotHostCard(s, item), item, (s.kids, []), SnapshotShells(s, item), SnapshotTasks(s,
      item), before, [])
  {
    hide HostTask, NoteShell, HostRole, HostPrefix, Plain;
    NoTask(s, item, CardId(s, item));
    var role := HostRole(s, item.id, HostPrefix(item.kind));
    var inTerminal := item.kind == UserShell && item.id in s.shells.open;
    before := if item.title == "" then [] else [Sent(Card(role.tc, !role.announced, item, false, inTerminal))];
    CardsArePlain(before);
    assert s.log + [] + [] + before + SnapshotTasks(s, item).1 + [] == s.log + (before + SnapshotTasks(s, item).1);
  }

  lemma SnapshotOtherEffects(s: State, item: Item) returns (after: seq<Mark>)
    requires item.kind == BackgroundCompletion || item.kind == OtherKind
    ensures Effects(s, SnapshotOther(s, item), item, (s.kids, []), (s.shells, []), SnapshotTasks(s, item), [], after)
  {
    hide SettleBackground, HostRole, Plain;
    NoTask(s, item, "");
    var role := HostRole(s, item.id, "item-");
    after := if item.title == "" then [] else [Sent(Card(role.tc, !role.announced, item, false, false))];
    CardsArePlain(after);
    assert s.log + [] + [] + [] + SnapshotTasks(s, item).1 + after == s.log + (SnapshotTasks(s, item).1 + after);
    assert SnapshotTasks(s, item).1 + [] == SnapshotTasks(s, item).1;
  }

  lemma ChildItemEffects(s: State, item: Item)
    requires item.kind == Subagent && s.cfg.native
    ensures Effects(s, ChildItem(s, item), item, KidsOf(s, item), (s.shells, []), (s.tasks, []), [], [])
  {
    hide NativeSubagent;
    assert s.log + KidsOf(s, item).1 + [] + [] + [] + [] == s.log + KidsOf(s, item).1;
  }

  /** A step that only touches the item's own role and sends plain entries. */
  lemma PlainStep(s: State, r: State, item: Item, before: seq<Mark>)
    requires r == s.(items := r.items, next := r.next, monitorCards := r.monitorCards, log := s.log + before)
    requires Plain(before)
    requires forall x :: x != item.id ==> (x in r.items <==> x in s.items)
    requires forall x :: x != item.id && x in r.items && x in s.items ==> r.items[x] == s.items[x]
    requires item.id in r.items && r.items != s.items ==> !r.items[item.id].Message?
    ensures Effects(s, r, item, (s.kids, []), (s.shells, []), (s.tasks, []), before, [])
  {
    assert s.log + [] + [] + before + [] + [] == s.log + before;
  }

  lemma SmallSnapshotEffects(s: State, item: Item) returns (before: seq<Mark>)
    requires item.kind in {Reasoning, Compaction, MonitorFeed, ReminderChild}
    ensures Effects(s, SnapshotKind(s, item), item, (s.kids, []), (s.shells, []), (s.tasks, []), before, [])
  {
    hide MonitorRole, MonitorCardId, SnapshotToolCall, SnapshotHostCard, SnapshotOther, ChildItem, OpenMessage,
      MarkCutOff;
    hide Effects;
    var r := SnapshotKind(s, item);
    before := r.log[|s.log|..];
    PlainStep(s, r, item, before);
  }

  /** Every event of an item that is not a message, before the item is settled. */
  lemma SnapshotKindEffects(s: State, item: Item) returns (before: seq<Mark>, after: seq<Mark>)
    requires !IsMessage(item.kind)
    ensures Effects(s, SnapshotKind(s, item), item, KidsOf(s, item), SnapshotShells(s, item), SnapshotTasks(s, item),
      before, after)
  {
    hide SnapshotToolCall, SnapshotHostCard, SnapshotOther, ChildItem, Effects;
    before, after := [], [];
    match item.kind
    case ToolCall => before := SnapshotToolCallEffects(s, item);
    case Subagent => if s.cfg.native { ChildItemEffects(s, item); } else { before := SnapshotHostCardEffects(s, item); }
    case Workflow => before := SnapshotHostCardEffects(s, item);
    case UserShell => before := SnapshotHostCardEffects(s, item);
    case HookRun => before := SnapshotHostCardEffects(s, item);
    case BackgroundCompletion => after := SnapshotOtherEffects(s, item);
    case OtherKind => after := SnapshotOtherEffects(s, item);
    case _ => before := SmallSnapshotEffects(s, item);
  }

  // ---------- completions ----------

  lemma CompleteToolCallEffects(s: State, item: Item) returns (before: seq<Mark>)
    requires item.kind == ToolCall
    ensures Effects(s, CompleteToolCall(s, item), item, (s.kids, []), CompleteShells(s, item), CompleteTasks(s,
      item), before, [])
  {
    hide BackgroundTask, CompleteShell, ToolRole, ToolNext, Plain;
    var role := ToolRole(s, item);
    var (_, screen, inTerminal) := CompleteShell(s, item, role.tc);
    before := [Sent(Card(role.tc, !role.announced, item, true, inTerminal))];
    CardsArePlain(before);
    var feed := CompleteTasks(s, item).1;
    assert s.log + [] + screen + before + feed + [] == s.log + (screen + before + feed);
  }

  lemma HostCardTasks(s: State, item: Item)
    requires item.kind in {Subagent, Workflow, UserShell, HookRun}
    ensures CompleteTasks(s, item) == if s.replaying then (s.tasks, []) else HostTask(s, item, CardId(s, item))
    ensures CardId(s, item) == HostRole(s, item.id, HostPrefix(item.kind)).tc
  {
    hide HostRole, HostPrefix;
    NoTask(s, item, CardId(s, item));
  }

  lemma CompleteHostCardEffects(s: State, item: Item) returns (before: seq<Mark>)
    requires item.kind in {Subagent, Workflow, UserShell, HookRun} && (item.kind == Subagent ==> !s.cfg.native)
    ensures Effects(s, CompleteHostCard(s, item), item, (s.kids, []), CompleteShells(s, item), CompleteTasks(s,
      item), before, [])
  {
    hide HostTask, CompleteShell, HostRole, HostPrefix, Plain, CompleteTasks, CardId;
    HostCardTasks(s, item);
    var role := HostRole(s, item.id, HostPrefix(item.kind));
    var (_, screen, inTerminal) := CompleteShell(s, item, role.tc);
    var card := if item.title == "" then [] else [Sent(Card(role.tc, !role.announced, item, true, inTerminal))];
    var reference := if inTerminal then [Sent(TerminalReference(role.tc, item.id))] else [];
    before := card + reference;
    CardsArePlain(before);
    var feed := CompleteTasks(s, item).1;
    assert s.log + [] + screen + before + feed + [] == s.log + (screen + card + reference + feed);
  }

  lemma OtherTasks(s: State, item: Item)
    requires item.kind == BackgroundCompletion || item.kind == OtherKind || item.kind == UserMessage
    ensures CompleteTasks(s, item) == SettleBackground(s.cfg, s.tasks, s.items, item)
  {
    NoTask(s, item, "");
  }

  lemma CompleteOtherEffects(s: State, item: Item) returns (after: seq<Mark>)
    requires item.kind == BackgroundCompletion || item.kind == OtherKind || item.kind == UserMessage
    ensures Effects(s, CompleteOther(s, item), item, (s.kids, []), (s.shells, []), CompleteTasks(s, item), [], after)
  {
    hide SettleBackground, HostRole, Plain, CompleteTasks;
    OtherTasks(s, item);
    var role := HostRole(s, item.id, "item-");
    var announced := item.id in s.items && s.items[item.id].Tool?;
    after := if item.title == "" && !announced then [] else [Sent(Card(role.tc, !role.announced, item, true, false))];
    CardsArePlain(after);
    assert s.log + [] + [] + [] + CompleteTasks(s, item).1 + after == s.log + (CompleteTasks(s, item).1 + after);
  }

  lemma ForgottenChildEffects(s: State, item: Item)
    requires item.kind == Subagent && s.cfg.native
    ensures Effects(s, Forget(ChildItem(s, item), item.id), item, KidsOf(s, item), (s.shells, []), (s.tasks, []), [],
      [])
  {
    hide ChildItem, KidsOf;
    ChildItemEffects(s, item);
  }

  lemma CompleteReasoningEffects(s: State, item: Item) returns (before: seq<Mark>)
    requires item.kind == Reasoning
    ensures Effects(s, CompleteReasoning(s, item), item, (s.kids, []), (s.shells, []), (s.tasks, []), before, [])
  {
    hide Effects;
    var r := CompleteReasoning(s, item);
    before := if r.next == s.next then [] else [Sent(ThoughtChunk(s.next, item.text))];
    assert s.log + [] == s.log;
    PlainStep(s, r, item, before);
  }

  lemma SmallCompleteEffects(s: State, item: Item) returns (before: seq<Mark>)
    requires item.kind in {Reasoning, Compaction, MonitorFeed, ReminderChild}
    ensures Effects(s, CompleteKind(s, item), item, (s.kids, []), (s.shells, []), (s.tasks, []), before, [])
  {
    hide MonitorRole, MonitorCardId, CompleteToolCall, CompleteHostCard, CompleteOther, ChildItem, CompleteMessage;
    hide Effects, CompleteReasoning;
    if item.kind == Reasoning {
      before := CompleteReasoningEffects(s, item);
    } else {
      var r := CompleteKind(s, item);
      before := r.log[|s.log|..];
      PlainStep(s, r, item, before);
    }
  }

  /** Every event of an item that is not an agent message, once it is settled. */
  lemma CompleteKindEffects(s: State, item: Item) returns (before: seq<Mark>, after: seq<Mark>)
    requires item.kind != AgentMessage
    ensures Effects(s, CompleteKind(s, item), item, KidsOf(s, item), CompleteShells(s, item), CompleteTasks(s, item),
      before, after)
  {
    hide CompleteToolCall, CompleteHostCard, CompleteOther, ChildItem, Effects;
    before, after := [], [];
    match item.kind
    case ToolCall => before := CompleteToolCallEffects(s, item);
    case Subagent =>
      if s.cfg.native { ForgottenChildEffects(s, item); } else { before := CompleteHostCardEffects(s, item); }
    case Workflow => before := CompleteHostCardEffects(s, item);
    case UserShell => before := CompleteHostCardEffects(s, item);
    case HookRun => before := CompleteHostCardEffects(s, item);
    case BackgroundCompletion => after := CompleteOtherEffects(s, item);
    case OtherKind => after := CompleteOtherEffects(s, item);
    case UserMessage => after := CompleteOtherEffects(s, item);
    case _ => before := SmallCompleteEffects(s, item);
  }
}
