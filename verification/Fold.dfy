/**
 The session fold (`SessionFold`): how each item event changes the fold's state and what
 it sends, as functions on states. `SessionFold` in SessionFold.dfy performs the same
 steps in place and is proved to agree with these functions.
 */
module Fold {
  import opened Options
  import opened FoldTypes
  import opened Text

  // ---------- the log ----------

  function Emit(s: State, marks: seq<Mark>): State {
    s.(log := s.log + marks)
  }

  // ---------- what an item says ----------

  function RowAnchor(item: Item): Option<Id> {
    if item.terminalRowAfter != "" then Some(item.terminalRowAfter)
    else if item.replayHintAfter != "" then Some(item.replayHintAfter)
    else None
  }

  predicate InFlight(item: Item) {
    item.status in {Pending, InProgress, Running, Started}
  }

  predicate IsMessage(kind: Kind) {
    kind == AgentMessage || kind == UserMessage
  }

  function MessageText(item: Item): string {
    if item.kind == UserMessage && item.displayText.Some? then item.displayText.value else item.text
  }

  function MessagePhase(item: Item): Phase {
    if item.kind == AgentMessage && item.commentary then Commentary else FinalAnswer
  }

  predicate IsCutOff(item: Item) {
    item.kind == AgentMessage && item.cutOff
  }

  function TaskStateOf(status: Status): Option<TaskOutcome> {
    match status
    case Completed => Some(TaskCompleted)
    case Failed => Some(TaskFailed)
    case Rejected => Some(TaskFailed)
    case Cancelled => Some(TaskStopped)
    case TimedOut => Some(TaskStopped)
    case _ => None
  }

  function ChildStateOf(item: Item): Option<ChildOutcome> {
    match item.status
    case Completed => Some(ChildCompleted)
    case Failed => Some(ChildFailed)
    case Rejected => Some(ChildFailed)
    case Cancelled => Some(ChildCancelled)
    case TimedOut => Some(ChildCancelled)
    case _ =>
      match item.control
      case ResultReady => Some(if item.resultError then ChildFailed else ChildCompleted)
      case Recovering => Some(ChildDisconnected)
      case _ => None
  }

  /** Whether a settled shell's command ran: only then does it get a terminal. */
  predicate Ran(item: Item) {
    item.status == Completed || item.status == Absent || (item.status == Failed && item.output != "")
  }

  function HostPrefix(kind: Kind): string {
    match kind
    case Subagent => "subagent-"
    case Workflow => "workflow-"
    case UserShell => "shell-"
    case _ => "item-"
  }

  // ---------- workflow listing ----------

  function ObserveWorkflow(f: Flows, item: Item, completed: bool): Flows {
    if item.kind != Workflow || item.runId == "" || item.runId in f.superseded then f
    else if completed || item.status in {Completed, Failed, Cancelled} then
      f.(listed := f.listed - {item.runId})
    else
      var f1 :=
        if item.resumeFrom != "" && item.resumeFrom != item.runId then
          Flows(f.listed - {item.resumeFrom}, f.superseded + {item.resumeFrom})
        else f;
      if item.resumeFrom == "" && item.runId in f1.listed && f1.listed[item.runId].revision > item.revision then f1
      else f1.(listed := f1.listed[item.runId := Observation(item.revision, item.paused)])
  }

  // ---------- asynchronous tasks ----------

  /** The AIR task id already announced for a host item, or `fallback`. */
  ghost function TaskIdFor(hostIds: map<Id, Id>, item: Id, fallback: Id): Id {
    if air :| air in hostIds && hostIds[air] == item then air else fallback
  }

  function SpawnTask(t: Tasks, task: Id, toolCall: Option<Id>): (r: (Tasks, seq<Mark>))
    ensures OnlyOn(r.1, Feed)
  {
    if task in t.announced then (t, [])
    else (t.(announced := t.announced + {task}), [Sent(TaskSpawned(task, toolCall))])
  }

  function AnnounceTask(t: Tasks, item: Id, task: Id, toolCall: Option<Id>): (r: (Tasks, seq<Mark>))
    ensures OnlyOn(r.1, Feed)
  {
    SpawnTask(if task in t.hostIds then t else t.(hostIds := t.hostIds[task := item]), task, toolCall)
  }

  /** Send a task's state unless it is the last one sent. */
  function StateOnce(t: Tasks, task: Id, outcome: TaskOutcome): (r: (Tasks, seq<Mark>))
    ensures OnlyOn(r.1, Feed)
  {
    if task in t.states && t.states[task] == outcome then (t, [])
    else (t.(states := t.states[task := outcome]), [Sent(TaskState(task, outcome))])
  }

  function EmitTaskState(t: Tasks, task: Id, status: Status): (r: (Tasks, seq<Mark>))
    ensures OnlyOn(r.1, Feed)
  {
    match TaskStateOf(status)
    case None => (t, [])
    case Some(outcome) => StateOnce(t.(hostIds := t.hostIds - {task}), task, outcome)
  }

  function WorkflowTaskState(t: Tasks, run: Id, outcome: TaskOutcome): (r: (Tasks, seq<Mark>))
    ensures OnlyOn(r.1, Feed)
  {
    StateOnce(t.(workflows := t.workflows - {run}), run, outcome)
  }

  /** Announce the task of a shell item, then send its state when it has ended. */
  ghost function ShellTask(t: Tasks, item: Item, tc: Id): (r: (Tasks, seq<Mark>))
    ensures OnlyOn(r.1, Feed)
  {
    var task := TaskIdFor(t.hostIds, item.id, tc);
    var (t1, spawn) := AnnounceTask(t, item.id, task, Some(tc));
    var (t2, state) := EmitTaskState(t1, task, item.status);
    (t2, spawn + state)
  }

  predicate IsBackgrounded(t: Tasks, item: Item, tc: Id) {
    item.background || tc in t.announced || tc in t.backgrounded
  }

  /** A backgrounded tool call: its card is marked once, and it has a task. */
  ghost function BackgroundTask(t: Tasks, item: Item, tc: Id): (r: (Tasks, seq<Mark>))
    ensures OnlyOn(r.1, Feed)
  {
    if !IsBackgrounded(t, item, tc) then (t, [])
    else if tc in t.backgrounded then ShellTask(t, item, tc)
    else
      var (t1, marks) := ShellTask(t.(backgrounded := t.backgrounded + {tc}), item, tc);
      (t1, [Sent(Backgrounded(tc))] + marks)
  }

  function WorkflowTask(t: Tasks, item: Item, tc: Id): (r: (Tasks, seq<Mark>))
    ensures OnlyOn(r.1, Feed)
  {
    if item.runId == "" then (t, [])
    else
      var (t1, spawn) := SpawnTask(t.(workflows := t.workflows + {item.runId}), item.runId, Some(tc));
      match TaskStateOf(item.status)
      case None => (t1, spawn)
      case Some(outcome) =>
        var (t2, state) := WorkflowTaskState(t1, item.runId, outcome);
        (t2, spawn + state)
  }

  /** The task a background-completion record names, when this fold announced it. */
  ghost function CompletionTask(t: Tasks, items: map<Id, Role>, item: Item): Option<Id> {
    if item.taskCall in t.announced then Some(item.taskCall)
    else if item.holder in items && items[item.holder].Tool? && items[item.holder].tc == item.taskCall then
      var task := TaskIdFor(t.hostIds, item.holder, item.taskCall);
      if task in t.announced then Some(task) else None
    else None
  }

  ghost function SettleBackground(cfg: Config, t: Tasks, items: map<Id, Role>, item: Item): (r: (Tasks, seq<Mark>))
    ensures OnlyOn(r.1, Feed)
  {
    if item.kind != BackgroundCompletion || !cfg.airTasks || item.taskCall == "" then (t, [])
    else
      var task := CompletionTask(t, items, item);
      var outcome := TaskStateOf(item.taskStatus);
      if task.None? || task.value in t.states || outcome.None? then (t, [])
      else WorkflowTaskState(t, task.value, outcome.value)
  }

  /** One `task/list` row; `foreground` rows are the running turn's own work. */
  function SeedTask(t: Tasks, task: Id, foreground: bool): (r: (Tasks, seq<Mark>))
    ensures OnlyOn(r.1, Feed)
  {
    if foreground || task == "" || task in t.announced || task in t.states || task in t.hostIds.Values then (t, [])
    else SpawnTask(t.(hostIds := t.hostIds[task := task]), task, None)
  }

  /** Retire the tasks of a lost connection, in the order the task set is walked. */
  function Disconnect(t: Tasks, order: seq<Id>): (r: (Tasks, seq<Mark>))
    ensures OnlyOn(r.1, Feed)
  {
    if order == [] then (t, [])
    else
      var (t1, marks) := Disconnect(t, order[..|order| - 1]);
      var task := order[|order| - 1];
      if task in t1.announced && task !in t1.states then
        var (t2, state) := StateOnce(t1, task, TaskFailed);
        (t2, marks + state)
      else (t1, marks)
  }

  // ---------- child sessions ----------

  function Generation(k: Children, child: ChildId): nat {
    if child in k.generations then k.generations[child] else 1
  }

  /** The session id of one generation of a child; the first keeps the child's own id. */
  function SessionName(child: ChildId, generation: nat): Id {
    if generation <= 1 then child else child + GENERATION + Decimal(generation)
  }

  /** The program formats every recorded generation, and records only those from 2 on. */
  function ChildSessionId(k: Children, child: ChildId): Id {
    SessionName(child, Generation(k, child))
  }

  predicate ChildFinished(air: bool, k: Children, child: ChildId) {
    air && child in k.states
  }

  /** A settled AIR child runs again: the state held for it leaves, then the new session is announced. */
  function NewGeneration(k: Children, child: ChildId): (r: (Children, seq<Mark>))
    ensures OnlyOn(r.1, Kids)
  {
    var session := ChildSessionId(k, child);
    var k1 := k.(states := k.states - {child}, held := k.held - {session},
                 generations := k.generations[child := Generation(k, child) + 1], toRead := k.toRead + {child});
    var spawned := Sent(ChildSpawned(ChildSessionId(k1, child)));
    (k1, if session in k.held then [Sent(ChildState(session, k.held[session])), spawned] else [spawned])
  }

  function SettleChild(air: bool, k: Children, child: ChildId, item: Item): (r: (Children, seq<Mark>))
    ensures OnlyOn(r.1, Kids)
  {
    match ChildStateOf(item)
    case None =>
      if item.control != ControlRunning || child !in k.states then (k, [])
      else if air then NewGeneration(k, child)
      else (k.(states := k.states - {child}), [Sent(ChildState(child, ChildRunning))])
    case Some(state) =>
      if child in k.states && (air || k.states[child] == state) then (k, [])
      else
        var k1 := k.(states := k.states[child := state]);
        var session := ChildSessionId(k, child);
        var note := ChildState(session, state);
        if air && session in k.inFlight then (k1.(held := k1.held[session := state]), [])
        else (k1, [Sent(note)])
  }

  /** A native subagent item: announce the child once, then send its state. */
  function NativeSubagent(air: bool, k: Children, item: Item): (r: (Children, seq<Mark>))
    ensures OnlyOn(r.1, Kids)
  {
    if item.child == "" then (k, [])
    else if item.child in k.spawned then SettleChild(air, k, item.child, item)
    else
      var (k1, marks) := SettleChild(air, k.(spawned := k.spawned + {item.child}), item.child, item);
      (k1, [Sent(ChildSpawned(item.child))] + marks)
  }

  predicate TranscriptSendable(air: bool, k: Children, child: ChildId, session: Id) {
    !(air && session !in k.held && (ChildSessionId(k, child) != session || ChildFinished(air, k, child)))
  }

  /** The read ends: its transcript goes out when it may, then the state held for it. */
  function EndChildRead(air: bool, k: Children, child: ChildId, session: Id): (r: (Children, seq<Mark>))
    ensures OnlyOn(r.1, Kids)
  {
    var k1 := k.(inFlight := k.inFlight - {session}, held := k.held - {session});
    var transcript :=
      if TranscriptSendable(air, k, child, session) then [Sent(ChildTranscript(session))] else [];
    (k1, if session in k.held then transcript + [Sent(ChildState(session, k.held[session]))] else transcript)
  }

  // ---------- terminals ----------

  function NoteShell(cfg: Config, h: Shells, item: Item, tc: Id): Shells {
    if !cfg.v2 || item.id in h.commands || item.command.None? then h
    else h.(commands := h.commands[item.id := tc])
  }

  /** Open a noted shell's terminal on first use. */
  function OpenTerminal(h: Shells, id: Id): (r: (Shells, seq<Mark>))
    ensures OnlyOn(r.1, Terminals)
  {
    if id in h.open || id !in h.commands then (h, [])
    else
      (h.(open := h.open[id := 0]),
       [Sent(TerminalOpened(id)), Sent(TerminalReference(h.commands[id], id))])
  }

  /** Settle a shell's terminal; the flag says that the card shows it. */
  function FinishTerminal(cfg: Config, h: Shells, item: Item): (r: (Shells, seq<Mark>, bool))
    ensures OnlyOn(r.1, Terminals)
  {
    if item.id !in h.open && !Ran(item) then (h.(commands := h.commands - {item.id}), [], false)
    else
      var (h1, marks) := OpenTerminal(h, item.id);
      if item.id !in h1.open then (h1, marks, false)
      else
        (Shells(h1.commands - {item.id}, h1.open - {item.id}),
         marks + [Sent(TerminalExited(item.id, Truncate(item.output, cfg.maxContent)))], true)
  }

  /** How many of a delta's characters the display budget still takes. */
  function Budgeted(max: Limit, streamed: nat, delta: string): string {
    var budget := if streamed <= max then max - streamed else 0;
    if |delta| <= budget then delta else delta[..budget]
  }

  /** An output delta for a noted shell: within the budget it reaches the terminal. */
  function TerminalDelta(cfg: Config, h: Shells, id: Id, delta: string): (r: (Shells, seq<Mark>))
    requires id in h.commands
    ensures OnlyOn(r.1, Terminals)
  {
    var (h1, marks) := OpenTerminal(h, id);
    var text := Budgeted(cfg.maxContent, h1.open[id], delta);
    if text == "" then (h1, [Routed(id, delta)] + marks)
    else
      (h1.(open := h1.open[id := h1.open[id] + |text|]),
       [Routed(id, delta)] + marks + [Sent(TerminalOutput(id, text))])
  }

  // ---------- messages ----------

  predicate MessageStreaming(items: map<Id, Role>) {
    exists id :: id in items && items[id].Message? && items[id].streamed > 0
  }

  /** The message a late cut-off mark may still name. */
  function MarkableMessage(s: State, id: Id): Option<nat> {
    if id in s.items then
      if s.items[id].Message? && s.items[id].streamed > 0 then Some(s.items[id].msg) else None
    else if s.lastMessage.Some? && s.lastMessage.value.0 == id && (s.cfg.v2 || !MessageStreaming(s.items)) then
      Some(s.lastMessage.value.1)
    else None
  }

  predicate ClaimsCutOff(s: State, item: Item) {
    IsCutOff(item) && item.id !in s.cutOff
  }

  function Claim(s: State, item: Item): set<Id> {
    if ClaimsCutOff(s, item) then s.cutOff + {item.id} else s.cutOff
  }

  ghost function MarkCutOff(s: State, item: Item): State {
    var msg := MarkableMessage(s, item.id);
    if !ClaimsCutOff(s, item) || msg.None? then s
    else
      Emit(s.(cutOff := Claim(s, item)), [Sent(MessageChunk(item.id, msg.value, "", None, true))])
  }

  /** A completed reply: its text when nothing streamed, else an empty chunk; both carry its phase. */
  ghost function CompleteMessage(s: State, item: Item): State {
    var role := if item.id in s.items && s.items[item.id].Message? then Some(s.items[item.id]) else None;
    var streamed := role.Some? && role.value.streamed > 0;
    if !streamed && item.text == "" then s.(items := s.items - {item.id})
    else
      var msg := if role.Some? then role.value.msg else s.next;
      var note := MessageChunk(item.id, msg, if streamed then "" else item.text,
                               Some(MessagePhase(item)), ClaimsCutOff(s, item));
      Emit(s.(items := s.items - {item.id}, cutOff := Claim(s, item), lastMessage := Some((item.id, msg)),
              next := if role.Some? then s.next else s.next + 1),
           [Sent(note)])
  }

  /** A history batch's in-flight message: its text so far, unless some is already shown. */
  ghost function ReplayPrefix(s: State, item: Item): State {
    var text := MessageText(item);
    if text == "" then s
    else if !(item.id in s.items && s.items[item.id].Message? && s.items[item.id].streamed == 0) then
      Emit(s, [Prefix(item)])
    else
      var msg := s.items[item.id].msg;
      Emit(s.(items := s.items[item.id := Message(msg, |text|)], cutOff := Claim(s, item)),
           [Prefix(item), Sent(MessageChunk(item.id, msg, text, None, ClaimsCutOff(s, item)))])
  }

  /** A history batch's settled message. */
  ghost function ReplayMessage(s: State, item: Item): State {
    var text := MessageText(item);
    if text == "" then Emit(s.(done := s.done + {item.id}), [Settled(item, true)])
    else
      var agent := item.kind == AgentMessage;
      var note := MessageChunk(item.id, s.next, text, if agent then Some(MessagePhase(item)) else None,
                               ClaimsCutOff(s, item));
      Emit(s.(done := s.done + {item.id}, cutOff := Claim(s, item), next := s.next + 1,
              lastMessage := if agent then Some((item.id, s.next)) else s.lastMessage),
           [Settled(item, true), Sent(note)])
  }

  ghost function OpenMessage(s: State, id: Id): State {
    if id in s.items then s
    else s.(items := s.items[id := Message(s.next, 0)], next := s.next + 1)
  }

  // ---------- cards ----------

  /** A tool call's card id and whether it was announced. */
  function ToolRole(s: State, item: Item): (role: Role)
    ensures role.Tool?
  {
    if item.id in s.items && s.items[item.id].Tool? then s.items[item.id]
    else if item.callId.Some? then Tool(item.callId.value, false)
    else Tool("tc-" + Decimal(s.next), false)
  }

  /** The id counter after `ToolRole`, which mints an id when the item has none. */
  function ToolNext(s: State, item: Item): nat {
    if (item.id in s.items && s.items[item.id].Tool?) || item.callId.Some? then s.next else s.next + 1
  }

  /** The same for host cards, whose id is made from the item's. */
  function HostRole(s: State, id: Id, prefix: string): (role: Role)
    ensures role.Tool?
  {
    if id in s.items && s.items[id].Tool? then s.items[id] else Tool(prefix + id, false)
  }

  function MonitorCardId(item: Item): Id {
    "monitor-" + (if item.monitorId != "" then item.monitorId else item.id)
  }

  function MonitorRole(s: State, item: Item): (role: Role)
    ensures role.Monitor?
  {
    if item.id in s.items && s.items[item.id].Monitor? then
      s.items[item.id].(text := if item.text != "" then item.text else s.items[item.id].text)
    else Monitor(MonitorCardId(item), item.text)
  }

  ghost function MonitorUpdate(s: State, item: Item, final: bool): State {
    var tc := MonitorCardId(item);
    var role := MonitorRole(s, item);
    Emit(s.(items := if final then s.items - {item.id} else s.items[item.id := role],
            monitorCards := s.monitorCards + {tc}),
         [Sent(MonitorCard(tc, tc !in s.monitorCards, role.text, final))])
  }

  ghost function Ignore(s: State, id: Id): State {
    if id in s.items then s else s.(items := s.items[id := Ignored])
  }

  ghost function Forget(s: State, id: Id): State {
    s.(items := s.items - {id})
  }

  // ---------- item/started and item/updated ----------

  ghost function SnapshotToolCall(s: State, item: Item): State {
    var role := ToolRole(s, item);
    var card := Sent(Card(role.tc, !role.announced, item, false, false));
    var (tasks, marks) := if s.cfg.airTasks then BackgroundTask(s.tasks, item, role.tc) else (s.tasks, []);
    Emit(s.(items := s.items[item.id := Tool(role.tc, true)], next := ToolNext(s, item),
            shells := NoteShell(s.cfg, s.shells, item, role.tc), tasks := tasks),
         [card] + marks)
  }

  /** The task side of a host card: a user shell's or a workflow run's. */
  ghost function HostTask(s: State, item: Item, tc: Id): (r: (Tasks, seq<Mark>))
    ensures OnlyOn(r.1, Feed)
  {
    if !s.cfg.airTasks then (s.tasks, [])
    else if item.kind == UserShell then ShellTask(s.tasks, item, tc)
    else if item.kind == Workflow then WorkflowTask(s.tasks, item, tc)
    else (s.tasks, [])
  }

  ghost function SnapshotHostCard(s: State, item: Item): State {
    var role := HostRole(s, item.id, HostPrefix(item.kind));
    var inTerminal := item.kind == UserShell && item.id in s.shells.open;
    var card := if item.title == "" then [] else [Sent(Card(role.tc, !role.announced, item, false, inTerminal))];
    var (tasks, marks) := HostTask(s, item, role.tc);
    Emit(s.(items := s.items[item.id := role], tasks := tasks,
            shells := if item.kind == UserShell then NoteShell(s.cfg, s.shells, item, role.tc) else s.shells),
         card + marks)
  }

  ghost function SnapshotOther(s: State, item: Item): State {
    var (tasks, marks) := SettleBackground(s.cfg, s.tasks, s.items, item);
    if item.title == "" then Emit(Ignore(s, item.id).(tasks := tasks), marks)
    else
      var role := HostRole(s, item.id, "item-");
      Emit(s.(items := s.items[item.id := role], tasks := tasks),
           marks + [Sent(Card(role.tc, !role.announced, item, false, false))])
  }

  ghost function ChildItem(s: State, item: Item): State {
    var (kids, marks) := NativeSubagent(s.cfg.air, s.kids, item);
    Emit(s.(kids := kids), marks)
  }

  ghost function SnapshotKind(s: State, item: Item): State {
    match item.kind
    case ToolCall => SnapshotToolCall(s, item)
    case AgentMessage => MarkCutOff(OpenMessage(s, item.id), item)
    case UserMessage => MarkCutOff(OpenMessage(s, item.id), item)
    case Reasoning =>
      if item.id in s.items then s
      else s.(items := s.items[item.id := Thought(s.next, 0, 0)], next := s.next + 1)
    case Compaction => Emit(s, [Sent(CompactionUpdate(item, false))])
    case Subagent => if s.cfg.native then ChildItem(s, item) else SnapshotHostCard(s, item)
    case Workflow => SnapshotHostCard(s, item)
    case UserShell => SnapshotHostCard(s, item)
    case HookRun => SnapshotHostCard(s, item)
    case MonitorFeed => MonitorUpdate(s, item, false)
    case ReminderChild => Ignore(s, item.id)
    case BackgroundCompletion => SnapshotOther(s, item)
    case OtherKind => SnapshotOther(s, item)
  }

  ghost function Snapshot(s: State, item: Item): State {
    var flows := ObserveWorkflow(s.flows, item, false);
    if item.id in s.done then MarkCutOff(s.(flows := flows), item)
    else SnapshotKind(Emit(s.(flows := flows), [Seen(item)]), item)
  }

  // ---------- item/delta ----------

  ghost function OutputDelta(s: State, id: Id, delta: string): State {
    if !s.cfg.v2 then s
    else if id in s.shells.commands then
      var (shells, marks) := TerminalDelta(s.cfg, s.shells, id, delta);
      Emit(s.(shells := shells), marks)
    else if id in s.items && s.items[id].Tool? then
      var streamed := if id in s.streamedOutput then s.streamedOutput[id] else 0;
      var text := Budgeted(s.cfg.maxContent, streamed, delta);
      Emit(s.(streamedOutput := s.streamedOutput[id := streamed + |text|]),
           if text == "" then [] else [Sent(OutputChunk(s.items[id].tc, text))])
    else s
  }

  ghost function MessageDelta(s: State, id: Id, delta: string): State {
    if id !in s.items then Emit(s, [TextDelta(id, delta)])
    else
      match s.items[id]
      case Message(msg, streamed) =>
        Emit(s.(items := s.items[id := Message(msg, streamed + |delta|)]),
             [TextDelta(id, delta), Sent(MessageChunk(id, msg, delta, None, false))])
      case Monitor(tc, text) =>
        Emit(s.(items := s.items[id := Monitor(tc, text + delta)]),
             [TextDelta(id, delta), Sent(MonitorCard(tc, false, text + delta, false))])
      case _ => Emit(s, [TextDelta(id, delta)])
  }

  ghost function SummaryDelta(s: State, id: Id, part: nat, delta: string): State {
    if !(id in s.items && s.items[id].Thought?) || part < s.items[id].part then s
    else
      var role := s.items[id];
      var text := if part > role.part then "\n\n" + delta else delta;
      Emit(s.(items := s.items[id := Thought(role.msg, role.streamed + |text|, part)]),
           [Sent(ThoughtChunk(role.msg, text))])
  }

  ghost function Delta(s: State, id: Id, field: Field, delta: string): State {
    if delta == "" then s
    else
      match field
      case Output => OutputDelta(s, id, delta)
      case Words => MessageDelta(s, id, delta)
      case Summary(part) => SummaryDelta(s, id, part, delta)
      case OtherField => s
  }

  // ---------- item/completed ----------

  /** The terminal side of a settled shell item; history never opens or closes a terminal. */
  function CompleteShell(s: State, item: Item, tc: Id): (r: (Shells, seq<Mark>, bool))
    ensures OnlyOn(r.1, Terminals)
  {
    if s.replaying || !(item.kind == ToolCall || item.kind == UserShell) then (s.shells, [], false)
    else FinishTerminal(s.cfg, NoteShell(s.cfg, s.shells, item, tc), item)
  }

  ghost function CompleteToolCall(s: State, item: Item): State {
    var role := ToolRole(s, item);
    var (shells, marks, inTerminal) := CompleteShell(s, item, role.tc);
    var card := Sent(Card(role.tc, !role.announced, item, true, inTerminal));
    var (tasks, feed) :=
      if s.cfg.airTasks && !s.replaying then BackgroundTask(s.tasks, item, role.tc) else (s.tasks, []);
    Emit(s.(items := s.items - {item.id}, next := ToolNext(s, item), shells := shells, tasks := tasks),
         marks + [card] + feed)
  }

  ghost function CompleteHostCard(s: State, item: Item): State {
    var role := HostRole(s, item.id, HostPrefix(item.kind));
    var (shells, marks, inTerminal) := CompleteShell(s, item, role.tc);
    var card := if item.title == "" then [] else [Sent(Card(role.tc, !role.announced, item, true, inTerminal))];
    var ref := if inTerminal then [Sent(TerminalReference(role.tc, item.id))] else [];
    var (tasks, feed) := if s.replaying then (s.tasks, []) else HostTask(s, item, role.tc);
    Emit(s.(items := s.items - {item.id}, shells := shells, tasks := tasks), marks + card + ref + feed)
  }

  ghost function CompleteReasoning(s: State, item: Item): State {
    var streamed := item.id in s.items && s.items[item.id].Thought? && s.items[item.id].streamed > 0;
    if streamed || item.text == "" then Forget(s, item.id)
    else Emit(Forget(s, item.id).(next := s.next + 1), [Sent(ThoughtChunk(s.next, item.text))])
  }

  ghost function CompleteOther(s: State, item: Item): State {
    var (tasks, feed) := SettleBackground(s.cfg, s.tasks, s.items, item);
    var role := HostRole(s, item.id, "item-");
    var announced := item.id in s.items && s.items[item.id].Tool?;
    var card :=
      if item.title == "" && !announced then []
      else [Sent(Card(role.tc, !role.announced, item, true, false))];
    Emit(Forget(s, item.id).(tasks := tasks), feed + card)
  }

  ghost function CompleteKind(s: State, item: Item): State {
    match item.kind
    case ToolCall => CompleteToolCall(s, item)
    case AgentMessage => CompleteMessage(s, item)
    case Reasoning => CompleteReasoning(s, item)
    case Compaction => Emit(s, [Sent(CompactionUpdate(item, true))])
    case Subagent => if s.cfg.native then Forget(ChildItem(s, item), item.id) else CompleteHostCard(s, item)
    case Workflow => CompleteHostCard(s, item)
    case UserShell => CompleteHostCard(s, item)
    case HookRun => CompleteHostCard(s, item)
    case MonitorFeed => MonitorUpdate(s, item, true)
    case ReminderChild => Forget(s, item.id)
    case UserMessage => CompleteOther(s, item)
    case BackgroundCompletion => CompleteOther(s, item)
    case OtherKind => CompleteOther(s, item)
  }

  /** The item passes the settle guard. */
  ghost function Settling(s: State, item: Item): State {
    Emit(s.(done := s.done + {item.id}), [Settled(item, false)])
  }

  /** What every completion updates before the settle guard. */
  ghost function Observed(s: State, item: Item): State {
    s.(streamedOutput := s.streamedOutput - {item.id}, flows := ObserveWorkflow(s.flows, item, true))
  }

  ghost function Complete(s: State, item: Item): State {
    var s1 := Observed(s, item);
    if item.id in s.done then MarkCutOff(s1, item) else CompleteKind(Settling(s1, item), item)
  }

  // ---------- rows held for an anchor ----------

  /** The anchor an item's row must still wait for. */
  function Deferring(s: State, item: Item): Option<Id> {
    var anchor := RowAnchor(item);
    if anchor.None? || anchor.value == item.id || anchor.value in s.items || anchor.value in s.done then None
    else anchor
  }

  predicate IsHeld(rows: seq<Held>, anchor: Id, id: Id) {
    exists h :: h in rows && h.anchor == anchor && h.item.id == id
  }

  ghost function Hold(s: State, anchor: Id, item: Item): State {
    if IsHeld(s.awaiting, anchor, item.id) then s
    else s.(awaiting := s.awaiting + [Held(anchor, item)])
  }

  /** The held rows whose anchor is, or is not, in `anchors`, in order. */
  function Select(rows: seq<Held>, anchors: set<Id>, inside: bool): seq<Held> {
    if rows == [] then []
    else
      var rest := Select(rows[..|rows| - 1], anchors, inside);
      if (rows[|rows| - 1].anchor in anchors) == inside then rest + [rows[|rows| - 1]] else rest
  }

  ghost function CompleteAll(s: State, rows: seq<Held>): State {
    if rows == [] then s
    else Complete(CompleteAll(s, rows[..|rows| - 1]), rows[|rows| - 1].item)
  }

  ghost function Release(s: State, anchor: Id): State {
    CompleteAll(s.(awaiting := Select(s.awaiting, {anchor}, false)), Select(s.awaiting, {anchor}, true))
  }

  /** Settle the held rows whose anchor is not in `coming`; keep the others waiting. */
  ghost function FlushUnless(s: State, coming: set<Id>): State {
    CompleteAll(s.(awaiting := Select(s.awaiting, coming, true)), Select(s.awaiting, coming, false))
  }

  ghost function Flush(s: State): State {
    FlushUnless(s, {})
  }

  ghost function ItemCompleted(s: State, item: Item): State {
    var s1 := s.(streamedOutput := s.streamedOutput - {item.id});
    match Deferring(s1, item)
    case Some(anchor) => Hold(s1, anchor, item)
    case None => Release(Complete(s1, item), item.id)
  }

  // ---------- history batches ----------

  ghost function ReplayItem(s: State, item: Item): State {
    var s1 := s.(flows := ObserveWorkflow(s.flows, item, !InFlight(item)));
    if item.id in s1.done then s1
    else if InFlight(item) then
      if IsMessage(item.kind) then ReplayPrefix(Snapshot(s1, item), item) else Snapshot(s1, item)
    else if IsMessage(item.kind) then ReplayMessage(s1, item)
    else ItemCompleted(s1, item)
  }

  /** The item ids a batch still carries. */
  function Ids(batch: seq<Wire>): set<Id> {
    set w | w in batch && w.Named? :: w.item.id
  }

  /** A new turn id ends the previous turn: rows whose anchor is not still to come settle. */
  ghost function Boundary(s: State, batch: seq<Wire>, turn: Option<Id>): State
    requires batch != []
  {
    if batch[0].Turn().Some? && batch[0].Turn() != turn then FlushUnless(s, Ids(batch)) else s
  }

  function NextTurn(w: Wire, turn: Option<Id>): Option<Id> {
    if w.Turn().Some? then w.Turn() else turn
  }

  ghost function Consume(s: State, w: Wire): State {
    if w.Named? then Release(ReplayItem(s, w.item), w.item.id) else s
  }

  ghost function ReplayFrom(s: State, batch: seq<Wire>, turn: Option<Id>): State
    decreases batch
  {
    if batch == [] then s
    else ReplayFrom(Consume(Boundary(s, batch, turn), batch[0]), batch[1..], NextTurn(batch[0], turn))
  }

  ghost function Replay(s: State, batch: seq<Wire>): State {
    Flush(ReplayFrom(s.(replaying := true), batch, None)).(replaying := s.replaying)
  }

  // ---------- runs ----------

  datatype Event =
    | SnapshotEvent(wire: Wire)
    | DeltaEvent(id: Id, field: Field, text: string)
    | CompletedEvent(wire: Wire)
    | HistoryEvent(batch: seq<Wire>)
    | TurnEnds
    | TaskRow(task: Id, foreground: bool)
    | BackgroundRecord(record: Item)
    | ConnectionLost(order: seq<Id>)
    | TakeRead(child: ChildId)
    | ReadBegins(child: ChildId)
    | ReadEnds(child: ChildId, generation: nat)

  ghost function OnTasks(s: State, out: (Tasks, seq<Mark>)): State {
    Emit(s.(tasks := out.0), out.1)
  }

  ghost function OnKids(s: State, out: (Children, seq<Mark>)): State {
    Emit(s.(kids := out.0), out.1)
  }

  ghost function Step(s: State, e: Event): State {
    match e
    case SnapshotEvent(w) => if w.Named? then Snapshot(s, w.item) else s
    case DeltaEvent(id, field, text) => Delta(s, id, field, text)
    case CompletedEvent(w) => if w.Named? then ItemCompleted(s, w.item) else s
    case HistoryEvent(batch) => Replay(s, batch)
    case TurnEnds => Flush(s)
    case TaskRow(task, foreground) =>
      if s.cfg.airTasks then OnTasks(s, SeedTask(s.tasks, task, foreground)) else s
    case BackgroundRecord(record) => OnTasks(s, SettleBackground(s.cfg, s.tasks, s.items, record))
    case ConnectionLost(order) => OnTasks(s, Disconnect(s.tasks, order))
    case TakeRead(child) => s.(kids := s.kids.(toRead := s.kids.toRead - {child}))
    case ReadBegins(child) =>
      s.(kids := s.kids.(inFlight := s.kids.inFlight + {ChildSessionId(s.kids, child)}))
    case ReadEnds(child, generation) =>
      OnKids(s, EndChildRead(s.cfg.air, s.kids, child, SessionName(child, generation)))
  }

  ghost function Run(s: State, events: seq<Event>): State {
    if events == [] then s else Step(Run(s, events[..|events| - 1]), events[|events| - 1])
  }
}
