/**
 The vocabulary of the session fold: Muse items reduced to the fields that decide
 control flow, the notes sent to the editor, and the log in which both the notes and
 the inputs that explain them are recorded in order.
 */
module FoldTypes {
  import opened Options
  import opened Text

  type Id = string

  const GENERATION := ":generation:"

  predicate MarkerAt(s: string, i: int) {
    0 <= i && i + |GENERATION| <= |s| && s[i..i + |GENERATION|] == GENERATION
  }

  predicate FreeOfMarker(s: string) {
    forall i :: 0 <= i < |s| ==> !MarkerAt(s, i)
  }

  /** Muse child session ids; a later generation's id is made with the marker. */
  type ChildId = s: string | FreeOfMarker(s) witness ""

  datatype Kind =
    | ToolCall | AgentMessage | UserMessage | Reasoning | Compaction | Subagent | Workflow
    | UserShell | HookRun | MonitorFeed | ReminderChild | BackgroundCompletion | OtherKind

  datatype Status =
    | Absent | Pending | InProgress | Running | Started
    | Completed | Failed | Rejected | Cancelled | TimedOut | OtherStatus

  /** `controlStatus`; `Recovering` stands for `recoveryPending` and `manualReconciliation`. */
  datatype Control = ControlRunning | ResultReady | Recovering | OtherControl

  /**
   One Muse item. The empty string stands for an absent or empty identifier where the
   program treats the two alike. `title` is the host card's title (empty: no card) and
   `command` the shell command of a shell tool call or user shell. `holder` is the item
   that the role table's iteration order yields first for `taskCall`: the order of a hash
   map is the environment's choice, so every frame brings its own.
   */
  datatype Item = Item(
    id: Id, kind: Kind, status: Status,
    terminalRowAfter: Id, replayHintAfter: Id, turn: Option<Id>,
    callId: Option<Id>, background: bool, command: Option<string>, output: string, title: string,
    child: ChildId, control: Control, resultError: bool,
    text: string, displayText: Option<string>, cutOff: bool, commentary: bool,
    runId: Id, revision: nat, resumeFrom: Id, paused: bool,
    monitorId: Id, taskCall: Id, taskStatus: Status, holder: Id)

  /** A JSON item as it arrives: the program ignores one without an `itemId`. */
  datatype Wire = Named(item: Item) | Anonymous(anonymousTurn: Option<Id>) {
    function Turn(): Option<Id> {
      if Named? then item.turn else anonymousTurn
    }
  }

  datatype Field = Words | Output | Summary(part: nat) | OtherField

  datatype TaskOutcome = TaskCompleted | TaskFailed | TaskStopped

  datatype ChildOutcome = ChildRunning | ChildCompleted | ChildFailed | ChildCancelled | ChildDisconnected

  datatype Phase = Commentary | FinalAnswer

  /**
   What the editor receives. A note holds the item it renders instead of the rendered
   text: titles and metadata are functions of the item.
   */
  datatype Note =
    | Card(tc: Id, create: bool, item: Item, final: bool, inTerminal: bool)
    | TerminalReference(tc: Id, shell: Id)
    | Backgrounded(tc: Id)
    | OutputChunk(tc: Id, text: string)
    | MonitorCard(tc: Id, create: bool, text: string, final: bool)
    | CompactionUpdate(item: Item, final: bool)
    | MessageChunk(owner: Id, msg: nat, text: string, phase: Option<Phase>, cut: bool)
    | ThoughtChunk(msg: nat, text: string)
    | TaskSpawned(task: Id, toolCall: Option<Id>)
    | TaskState(task: Id, outcome: TaskOutcome)
    | ChildSpawned(session: Id)
    | ChildState(session: Id, state: ChildOutcome)
    | ChildTranscript(session: Id)
    | TerminalOpened(shell: Id)
    | TerminalOutput(shell: Id, text: string)
    | TerminalExited(shell: Id, text: string)

  /**
   One entry of the log. `Sent` is output. The others record input facts at the place
   where the fold takes them: a snapshot of an unsettled item, the text of an in-flight
   message in a history batch, a text delta, an output delta routed to a terminal, and an
   item passing the settle guard (`direct` when a history batch settles a message).
   */
  datatype Mark =
    | Sent(note: Note)
    | Seen(item: Item)
    | Prefix(item: Item)
    | TextDelta(id: Id, text: string)
    | Routed(id: Id, text: string)
    | Settled(item: Item, direct: bool)

  datatype Channel = Rows | Kids | Feed | Terminals | Messages

  predicate On(m: Mark, ch: Channel) {
    match ch
    case Rows => m.Settled?
    case Kids => m.Sent? && (m.note.ChildSpawned? || m.note.ChildState? || m.note.ChildTranscript?)
    case Feed => m.Sent? && (m.note.TaskSpawned? || m.note.TaskState?)
    case Terminals =>
      m.Routed? || m.Settled? ||
      (m.Sent? && (m.note.TerminalOpened? || m.note.TerminalOutput? || m.note.TerminalExited?))
    case Messages =>
      m.Seen? || m.Prefix? || m.TextDelta? || m.Settled? || (m.Sent? && m.note.MessageChunk?)
  }

  /** The entries touch no channel but `ch`. */
  ghost predicate OnlyOn(marks: seq<Mark>, ch: Channel) {
    forall i, c :: 0 <= i < |marks| && On(marks[i], c) ==> c == ch
  }

  /** The entries leave `ch` alone. */
  ghost predicate Silent(marks: seq<Mark>, ch: Channel) {
    forall i :: 0 <= i < |marks| ==> !On(marks[i], ch)
  }

  datatype Role =
    | Message(msg: nat, streamed: nat)
    | Thought(msg: nat, streamed: nat, part: nat)
    | Tool(tc: Id, announced: bool)
    | Monitor(tc: Id, text: string)
    | Ignored

  datatype Held = Held(anchor: Id, item: Item)

  /** The AIR bookkeeping of child sessions. */
  datatype Children = Children(
    spawned: set<ChildId>, states: map<ChildId, ChildOutcome>, generations: map<ChildId, nat>,
    toRead: set<ChildId>, inFlight: set<Id>, held: map<Id, ChildOutcome>)

  /** The asynchronous-task bookkeeping; `hostIds` maps an AIR task id to the host's item id. */
  datatype Tasks = Tasks(
    announced: set<Id>, hostIds: map<Id, Id>, states: map<Id, TaskOutcome>,
    workflows: set<Id>, backgrounded: set<Id>)

  datatype Observation = Observation(revision: nat, paused: bool)

  datatype Flows = Flows(listed: map<Id, Observation>, superseded: set<Id>)

  /** Noted shell commands by item id (the card that shows each), and open terminals with
      the number of characters already appended. */
  datatype Shells = Shells(commands: map<Id, Id>, open: map<Id, nat>)

  datatype Config = Config(v2: bool, native: bool, air: bool, airTasks: bool, maxContent: Limit)

  datatype State = State(
    cfg: Config, items: map<Id, Role>, done: set<Id>, awaiting: seq<Held>,
    kids: Children, tasks: Tasks, flows: Flows, shells: Shells,
    streamedOutput: map<Id, nat>, monitorCards: set<Id>,
    cutOff: set<Id>, lastMessage: Option<(Id, nat)>, next: nat, replaying: bool,
    log: seq<Mark>)

  function Fresh(cfg: Config): State {
    State(cfg, map[], {}, [], Children({}, map[], map[], {}, {}, map[]),
          Tasks({}, map[], map[], {}, {}), Flows(map[], {}), Shells(map[], map[]),
          map[], {}, {}, None, 1, false, [])
  }
}
