/**
 What the editor is told about AIR children, from the items alone: every child is announced
 with its first item, every generation's state is the first one its items report, and it
 reaches the editor unless it is held for a read in flight.
 */
module FoldStories {
  import opened Options
  import opened FoldTypes
  import opened Fold
  import opened FoldEffects
  import opened FoldShapes
  import FoldChildren
  import FoldInduction

  // ---------- the story the items tell ----------

  /** The states that a child's generations ended in, and whether the next one is running. */
  datatype Story = Story(outcomes: seq<ChildOutcome>, running: bool) {
    predicate Untold() { outcomes == [] && !running }

    function Generations(): nat { |outcomes| + if running then 1 else 0 }
  }

  const UNTOLD := Story([], false)

  /** The state an item reports: its status decides, then its control status. */
  function Report(item: Item): Option<ChildOutcome> {
    if item.status == Completed then Some(ChildCompleted)
    else if item.status == Failed || item.status == Rejected then Some(ChildFailed)
    else if item.status == Cancelled || item.status == TimedOut then Some(ChildCancelled)
    else if item.control == ResultReady && item.resultError then Some(ChildFailed)
    else if item.control == ResultReady then Some(ChildCompleted)
    else if item.control == Recovering then Some(ChildDisconnected)
    else None
  }

  function Begun(st: Story): Story {
    if st.Untold() then Story([], true) else st
  }

  /** A running generation ends with the first state reported; an ended child starts another
      when an item says it is running again. */
  function Continued(st: Story, item: Item): Story {
    if st.running then
      if Report(item).Some? then Story(st.outcomes + [Report(item).value], false) else st
    else if Report(item).None? && item.control == ControlRunning then Story(st.outcomes, true)
    else st
  }

  predicate Concerns(m: Mark, child: ChildId) {
    (m.Seen? || (m.Settled? && !m.direct)) && m.item.kind == Subagent && m.item.child == child && child != ""
  }

  function NextStory(st: Story, m: Mark, child: ChildId): Story {
    if Concerns(m, child) then Continued(Begun(st), m.item) else st
  }

  function StoryOf(log: seq<Mark>, child: ChildId): Story {
    if log == [] then UNTOLD
    else NextStory(StoryOf(log[..|log| - 1], child), log[|log| - 1], child)
  }

  // ---------- what the editor was told ----------

  /** How often a session was announced, and the states sent for it. */
  datatype Tell = Tell(announced: nat, states: seq<ChildOutcome>)

  function NextTell(t: Tell, m: Mark, session: Id): Tell {
    if !m.Sent? then t
    else
      match m.note
      case ChildSpawned(x) => if x == session then Tell(t.announced + 1, t.states) else t
      case ChildState(x, state) => if x == session then Tell(t.announced, t.states + [state]) else t
      case _ => t
  }

  function TellOf(log: seq<Mark>, session: Id): Tell {
    if log == [] then Tell(0, [])
    else NextTell(TellOf(log[..|log| - 1], session), log[|log| - 1], session)
  }

  lemma Steps(log: seq<Mark>, m: Mark)
    ensures forall child :: StoryOf(log + [m], child) == NextStory(StoryOf(log, child), m, child)
    ensures forall session :: TellOf(log + [m], session) == NextTell(TellOf(log, session), m, session)
  {
    assert (log + [m])[..|log|] == log;
  }

  // ---------- the tables agree ----------

  ghost predicate Agrees(k: Children, child: ChildId, g: nat, st: Story, tell: Tell)
    requires 1 <= g
  {
    var session := SessionName(child, g);
    && (child in k.spawned <==> !st.Untold())
    && (child in k.spawned ==> Generation(k, child) == st.Generations())
    && (child in k.states <==> child in k.spawned && !st.running)
    && tell.announced == (if g <= st.Generations() then 1 else 0)
    && tell.states == (if g <= |st.outcomes| && session !in k.held then [st.outcomes[g - 1]] else [])
    && (session in k.held ==> g == |st.outcomes| && !st.running && k.held[session] == st.outcomes[g - 1])
  }

  /** The tables agree with the log, when `child`'s story is `st`. */
  ghost predicate InvAs(k: Children, log: seq<Mark>, child: ChildId, st: Story) {
    && FoldChildren.Valid(k) && "" !in k.spawned
    && forall c: ChildId, g: nat {:trigger SessionName(c, g)} :: 1 <= g && c != "" ==>
      Agrees(k, c, g, if c == child then st else StoryOf(log, c), TellOf(log, SessionName(c, g)))
  }

  ghost predicate Inv(k: Children, log: seq<Mark>) {
    && FoldChildren.Valid(k) && "" !in k.spawned
    && forall c: ChildId, g: nat {:trigger SessionName(c, g)} ::
      1 <= g && c != "" ==> Agrees(k, c, g, StoryOf(log, c), TellOf(log, SessionName(c, g)))
  }

  /** A note about one session, after which the child's story goes on. */
  lemma Update(
    k: Children, log: seq<Mark>, k1: Children, m: Mark, child: ChildId, generation: nat, st: Story, st1: Story)
    requires InvAs(k, log, child, st) && FoldChildren.Valid(k1) && 1 <= generation && child != "" && "" !in k1.spawned
    requires m.Sent? && (m.note.ChildSpawned? || m.note.ChildState?) && m.note.session == SessionName(child, generation)
    requires forall c: ChildId :: c != child ==>
      && (c in k1.spawned <==> c in k.spawned) && (c in k1.states <==> c in k.states)
      && Generation(k1, c) == Generation(k, c)
    requires forall x :: x in k.held || x in k1.held ==>
      x == SessionName(child, generation) || (x in k1.held && x in k.held && k1.held[x] == k.held[x])
    requires forall g: nat {:trigger SessionName(child, g)} :: 1 <= g ==>
      Agrees(k1, child, g, st1, NextTell(TellOf(log, SessionName(child, g)), m, SessionName(child, g)))
    ensures InvAs(k1, log + [m], child, st1)
  {
    hide StoryOf, TellOf;
    Steps(log, m);
    FoldChildren.NamesApart(child, generation);
    hide SessionName;
  }

  /** The first item announces the child. */
  lemma Announces(k: Children, log: seq<Mark>, child: ChildId)
    requires InvAs(k, log, child, UNTOLD) && child != ""
    ensures InvAs(k.(spawned := k.spawned + {child}), log + [Sent(ChildSpawned(child))], child, Story([], true))
  {
    hide StoryOf, TellOf;
    assert SessionName(child, 1) == child;
    FoldChildren.NamesApart(child, 1);
    var k1 := k.(spawned := k.spawned + {child});
    assert child !in k.spawned by { assert Agrees(k, child, 1, UNTOLD, TellOf(log, SessionName(child, 1))); }
    Update(k, log, k1, Sent(ChildSpawned(child)), child, 1, UNTOLD, Story([], true));
  }

  /** The running generation's first state leaves. */
  lemma OutcomeLeaves(k: Children, log: seq<Mark>, child: ChildId, st: Story, state: ChildOutcome)
    requires InvAs(k, log, child, st) && child != "" && st.running
    ensures var g := Generation(k, child);
      && g == st.Generations() && child in k.spawned && child !in k.states
      && InvAs(k.(states := k.states[child := state]), log + [Sent(ChildState(SessionName(child, g), state))], child,
               Story(st.outcomes + [state], false))
  {
    hide StoryOf, TellOf, SessionName;
    var g := st.Generations();
    assert Agrees(k, child, g, st, TellOf(log, SessionName(child, g)));
    FoldChildren.NamesApart(child, g);
    var k1 := k.(states := k.states[child := state]);
    Update(k, log, k1, Sent(ChildState(SessionName(child, g), state)), child, g, st,
           Story(st.outcomes + [state], false));
  }

  /** Or it is held for the read in flight. */
  lemma OutcomeHeld(k: Children, log: seq<Mark>, child: ChildId, st: Story, state: ChildOutcome)
    requires InvAs(k, log, child, st) && child != "" && st.running && ChildSessionId(k, child) in k.inFlight
    ensures InvAs(k.(states := k.states[child := state], held := k.held[ChildSessionId(k, child) := state]), log, child,
                  Story(st.outcomes + [state], false))
  {
    hide StoryOf, TellOf, SessionName;
    var g := st.Generations();
    assert Agrees(k, child, g, st, TellOf(log, SessionName(child, g)));
    FoldChildren.NamesApart(child, g);
  }

  /** The held state of the ended generation leaves. */
  lemma HeldLeaves(k: Children, log: seq<Mark>, child: ChildId, g: nat, st: Story)
    requires InvAs(k, log, child, st) && child != "" && 1 <= g && SessionName(child, g) in k.held
    ensures var session := SessionName(child, g);
      InvAs(k.(held := k.held - {session}), log + [Sent(ChildState(session, k.held[session]))], child, st)
  {
    hide StoryOf, TellOf, SessionName;
    var session := SessionName(child, g);
    assert Agrees(k, child, g, st, TellOf(log, session));
    FoldChildren.NamesApart(child, g);
    Update(k, log, k.(held := k.held - {session}), Sent(ChildState(session, k.held[session])), child, g, st, st);
  }

  /** The next generation is announced. */
  lemma RunsAgain(k: Children, log: seq<Mark>, child: ChildId, st: Story)
    requires InvAs(k, log, child, st) && child != "" && child in k.states && ChildSessionId(k, child) !in k.held
    ensures var g := Generation(k, child) + 1;
      InvAs(k.(states := k.states - {child}, generations := k.generations[child := g], toRead := k.toRead + {child}),
            log + [Sent(ChildSpawned(SessionName(child, g)))], child, Story(st.outcomes, true))
  {
    hide StoryOf, TellOf, SessionName;
    var g := Generation(k, child) + 1;
    assert Agrees(k, child, g, st, TellOf(log, SessionName(child, g)));
    FoldChildren.NamesApart(child, g);
    var k1 := k.(states := k.states - {child}, generations := k.generations[child := g], toRead := k.toRead + {child});
    Update(k, log, k1, Sent(ChildSpawned(SessionName(child, g))), child, g, st, Story(st.outcomes, true));
  }

  lemma AsValid(k: Children, log: seq<Mark>, child: ChildId, st: Story)
    requires InvAs(k, log, child, st)
    ensures FoldChildren.Valid(k) && Generation(k, child) >= 1
  {
  }

  lemma NewGenerationTells(k: Children, log: seq<Mark>, child: ChildId, st: Story)
    requires InvAs(k, log, child, st) && child != "" && child in k.states
    ensures var (k1, marks) := NewGeneration(k, child); InvAs(k1, log + marks, child, Story(st.outcomes, true))
  {
    hide StoryOf, TellOf, SessionName, InvAs;
    AsValid(k, log, child, st);
    var session := ChildSessionId(k, child);
    var (_, marks) := NewGeneration(k, child);
    var k1 := k.(held := k.held - {session});
    if session in k.held {
      HeldLeaves(k, log, child, Generation(k, child), st);
      RunsAgain(k1, log + [marks[0]], child, st);
      assert log + marks == log + [marks[0]] + [marks[1]];
    } else {
      assert k1 == k;
      RunsAgain(k, log, child, st);
    }
  }

  /** An item of an announced child carries its story on. */
  lemma SettleTells(k: Children, log: seq<Mark>, child: ChildId, st: Story, item: Item)
    requires InvAs(k, log, child, st) && child != "" && !st.Untold()
    ensures var (k1, marks) := SettleChild(true, k, child, item); InvAs(k1, log + marks, child, Continued(st, item))
  {
    hide StoryOf, TellOf, SessionName;
    assert Agrees(k, child, 1, st, TellOf(log, SessionName(child, 1)));
    hide InvAs;
    assert Report(item) == ChildStateOf(item);
    assert log + [] == log;
    if st.running && Report(item).Some? {
      OutcomeLeaves(k, log, child, st, Report(item).value);
      if ChildSessionId(k, child) in k.inFlight {
        OutcomeHeld(k, log, child, st, Report(item).value);
      }
    } else if !st.running && Report(item).None? && item.control == ControlRunning {
      NewGenerationTells(k, log, child, st);
    }
  }

  /** One subagent item, recorded as `m`: the child's story goes on by exactly that item. */
  lemma ItemTells(k: Children, log: seq<Mark>, item: Item, m: Mark)
    requires Inv(k, log) && item.kind == Subagent && (m == Seen(item) || m == Settled(item, false))
    ensures var (k1, marks) := NativeSubagent(true, k, item); Inv(k1, log + [m] + marks)
  {
    hide StoryOf, TellOf, SessionName;
    var child := item.child;
    var (k1, marks) := NativeSubagent(true, k, item);
    Steps(log, m);
    if child == "" {
      assert log + [m] + [] == log + [m];
    } else {
      var st := StoryOf(log, child);
      Recorded(k, log, m, child);
      assert Agrees(k, child, 1, st, TellOf(log, SessionName(child, 1)));
      hide Inv, InvAs;
      if child in k.spawned {
        SettleTells(k, log + [m], child, st, item);
      } else {
        var k0 := k.(spawned := k.spawned + {child});
        var spawned := Sent(ChildSpawned(child));
        assert st == UNTOLD;
        Announces(k, log + [m], child);
        SettleTells(k0, log + [m] + [spawned], child, Story([], true), item);
        var rest := SettleChild(true, k0, child, item).1;
        assert log + [m] + ([spawned] + rest) == log + [m] + [spawned] + rest;
      }
      NotesTellNoStory(log + [m], marks, child);
      Closes(k1, log + [m] + marks, child, Continued(Begun(st), item));
    }
  }

  lemma Recorded(k: Children, log: seq<Mark>, m: Mark, child: ChildId)
    requires Inv(k, log) && !m.Sent? && forall c: ChildId :: c != child ==> !Concerns(m, c)
    ensures InvAs(k, log + [m], child, StoryOf(log, child))
  {
    hide StoryOf, TellOf, SessionName;
    Steps(log, m);
  }

  lemma Closes(k: Children, log: seq<Mark>, child: ChildId, st: Story)
    requires InvAs(k, log, child, st) && StoryOf(log, child) == st
    ensures Inv(k, log)
  {
  }

  lemma {:induction false} NotesTellNoStory(log: seq<Mark>, marks: seq<Mark>, child: ChildId)
    requires forall i :: 0 <= i < |marks| ==> !marks[i].Seen? && !marks[i].Settled?
    ensures StoryOf(log + marks, child) == StoryOf(log, child)
  {
    if marks == [] {
      assert log + marks == log;
    } else {
      NotesTellNoStory(log, marks[..|marks| - 1], child);
      assert (log + marks)[..|log + marks| - 1] == log + marks[..|marks| - 1];
    }
  }

  lemma {:induction false} SilentTell(log: seq<Mark>, marks: seq<Mark>, session: Id)
    requires Silent(marks, Kids)
    ensures TellOf(log + marks, session) == TellOf(log, session)
  {
    if marks == [] {
      assert log + marks == log;
    } else {
      SilentTell(log, marks[..|marks| - 1], session);
      assert (log + marks)[..|log + marks| - 1] == log + marks[..|marks| - 1];
    }
  }

  /** Entries that are neither items nor child updates. */
  lemma SilentKeeps(k: Children, log: seq<Mark>, marks: seq<Mark>)
    requires Inv(k, log) && Silent(marks, Kids)
    requires forall i, c :: 0 <= i < |marks| ==> !Concerns(marks[i], c)
    ensures Inv(k, log + marks)
  {
    hide StoryOf, TellOf, SessionName, Agrees;
    forall c: ChildId, g: nat {:trigger SessionName(c, g)} | 1 <= g && c != ""
      ensures Agrees(k, c, g, StoryOf(log + marks, c), TellOf(log + marks, SessionName(c, g)))
    {
      UnconcernedStory(log, marks, c);
      SilentTell(log, marks, SessionName(c, g));
    }
  }

  lemma {:induction false} UnconcernedStory(log: seq<Mark>, marks: seq<Mark>, child: ChildId)
    requires forall i :: 0 <= i < |marks| ==> !Concerns(marks[i], child)
    ensures StoryOf(log + marks, child) == StoryOf(log, child)
  {
    if marks == [] {
      assert log + marks == log;
    } else {
      UnconcernedStory(log, marks[..|marks| - 1], child);
      assert (log + marks)[..|log + marks| - 1] == log + marks[..|marks| - 1];
    }
  }

  lemma TranscriptTells(k: Children, log: seq<Mark>, session: Id)
    requires Inv(k, log)
    ensures Inv(k, log + [Sent(ChildTranscript(session))])
  {
    hide StoryOf, TellOf, SessionName, Agrees;
    Steps(log, Sent(ChildTranscript(session)));
  }

  lemma FlightEnds(k: Children, log: seq<Mark>, session: Id)
    requires Inv(k, log) && session !in k.held
    ensures Inv(k.(inFlight := k.inFlight - {session}, held := k.held - {session}), log)
  {
    hide StoryOf, TellOf, SessionName;
    assert k.held - {session} == k.held;
  }

  lemma HeldReadTells(k: Children, log: seq<Mark>, child: ChildId, g: nat)
    requires Inv(k, log) && 1 <= g && SessionName(child, g) in k.held
    ensures var session := SessionName(child, g);
      Inv(k.(held := k.held - {session}), log + [Sent(ChildState(session, k.held[session]))])
  {
    hide StoryOf, TellOf, SessionName;
    var session := SessionName(child, g);
    var m := Sent(ChildState(session, k.held[session]));
    assert child in k.states && child != "";
    var st := StoryOf(log, child);
    assert InvAs(k, log, child, st);
    Steps(log, m);
    HeldLeaves(k, log, child, g, st);
    hide InvAs, Inv;
    Closes(k.(held := k.held - {session}), log + [m], child, st);
  }

  /** The end of a read sends the state held for it, and only that. */
  lemma ReadTells(k: Children, log: seq<Mark>, child: ChildId, generation: nat)
    requires Inv(k, log)
    ensures var (k1, marks) := EndChildRead(true, k, child, SessionName(child, generation)); Inv(k1, log + marks)
  {
    var g := if generation == 0 then 1 else generation;
    var session := SessionName(child, g);
    assert session == SessionName(child, generation);
    hide Inv, SessionName;
    var (k1, marks) := EndChildRead(true, k, child, session);
    var transcript := Sent(ChildTranscript(session));
    TranscriptTells(k, log, session);
    assert log + [] == log;
    if session in k.held {
      HeldReadTells(k, log + [transcript], child, g);
      assert log + marks == log + [transcript] + [marks[1]];
      FlightEnds(k.(held := k.held - {session}), log + marks, session);
      assert k.held - {session} - {session} == k.held - {session};
    } else {
      FlightEnds(k, log + marks, session);
    }
  }

  // ---------- over every run ----------

  ghost predicate Told(s: State) {
    s.cfg.air && s.cfg.native ==> Inv(s.kids, s.log)
  }

  /** Entries of one item's step: its record, its child updates, and others. */
  lemma StepTells(s: State, r: State, item: Item, m: Mark, kids: (Children, seq<Mark>), rest: seq<Mark>)
    requires Told(s) && (m == Seen(item) || m == Settled(item, false)) && r.cfg == s.cfg
    requires kids == KidsOf(s, item) && r.kids == kids.0 && r.log == s.log + [m] + kids.1 + rest
    requires Silent(rest, Kids) && NotesOnly(rest)
    ensures Told(r)
  {
    hide Inv, NativeSubagent;
    if s.cfg.air && s.cfg.native {
      if item.kind == Subagent {
        ItemTells(s.kids, s.log, item, m);
        SilentKeeps(r.kids, s.log + [m] + kids.1, rest);
      } else {
        assert r.log == s.log + ([m] + rest);
        SilentKeeps(s.kids, s.log, [m] + rest);
      }
    }
  }

  /** A step that takes no item of a child and sends no child update. */
  lemma QuietTells(s: State, r: State, marks: seq<Mark>)
    requires Told(s) && r.cfg == s.cfg && r.kids == s.kids && r.log == s.log + marks && Silent(marks, Kids)
    requires forall i :: 0 <= i < |marks| && (marks[i].Seen? || marks[i].Settled?) ==>
      IsMessage(marks[i].item.kind)
    ensures Told(r)
  {
    hide Inv;
    if s.cfg.air && s.cfg.native {
      SilentKeeps(s.kids, s.log, marks);
    }
  }

  lemma EffectsTell(s: State, s1: State, r: State, item: Item, m: Mark, shells: (Shells, seq<Mark>),
                    tasks: (Tasks, seq<Mark>), before: seq<Mark>, after: seq<Mark>)
    requires Told(s) && (m == Seen(item) || m == Settled(item, false))
    requires s1.cfg == s.cfg && s1.kids == s.kids && s1.log == s.log + [m]
    requires Effects(s1, r, item, KidsOf(s1, item), shells, tasks, before, after)
    requires OnlyOn(shells.1, Terminals) && NotesOnly(shells.1) && OnlyOn(tasks.1, Feed)
    ensures Told(r)
  {
    hide Told, KidsOf, On;
    var kids := KidsOf(s1, item);
    var rest := shells.1 + before + tasks.1 + after;
    assert Silent(before, Kids) && Silent(after, Kids);
    PlainIsNotes(before);
    PlainIsNotes(after);
    ChannelIsNotes(tasks.1, Feed);
    assert r.log == s.log + [m] + kids.1 + rest;
    KidsSame(s, s1, item);
    StepTells(s, r, item, m, kids, rest);
  }

  lemma KidsSame(s: State, s1: State, item: Item)
    requires s1.cfg == s.cfg && s1.kids == s.kids
    ensures KidsOf(s1, item) == KidsOf(s, item)
  {
  }

  lemma SnapshotTells(s: State, item: Item)
    requires Told(s)
    ensures Told(Snapshot(s, item))
  {
    hide Told, SnapshotKind, MarkCutOff, Effects, KidsOf, SnapshotShells, SnapshotTasks, ObserveWorkflow;
    var s0 := s.(flows := ObserveWorkflow(s.flows, item, false));
    var s1 := Emit(s0, [Seen(item)]);
    if item.id in s.done {
      var marks := MarkShape(s0, item);
      assert s.log + [] + marks == s.log + marks;
      QuietTells(s, Snapshot(s, item), marks);
    } else if IsMessage(item.kind) {
      var marks := MessageShape(s1, item);
      assert s1.log + marks == s.log + ([Seen(item)] + marks);
      QuietTells(s, Snapshot(s, item), [Seen(item)] + marks);
    } else {
      var before, after := SnapshotKindEffects(s1, item);
      SnapshotShellsSilent(s1, item);
      EffectsTell(s, s1, SnapshotKind(s1, item), item, Seen(item), SnapshotShells(s1, item),
        SnapshotTasks(s1, item), before, after);
    }
  }

  lemma CompleteTells(s: State, item: Item)
    requires Told(s)
    ensures Told(Complete(s, item))
  {
    hide Told, CompleteKind, MarkCutOff, Effects, KidsOf, CompleteShells, CompleteTasks, ObserveWorkflow;
    var s0 := Observed(s, item);
    var s1 := Settling(s0, item);
    if item.id in s.done {
      var marks := MarkShape(s0, item);
      assert s.log + [] + marks == s.log + marks;
      QuietTells(s, Complete(s, item), marks);
    } else if item.kind == AgentMessage {
      var marks := ReplyShape(s1, item);
      assert s1.log + marks == s.log + ([Settled(item, false)] + marks);
      QuietTells(s, Complete(s, item), [Settled(item, false)] + marks);
    } else {
      var before, after := CompleteKindEffects(s1, item);
      CompleteShellsNotes(s1, item);
      EffectsTell(s, s1, CompleteKind(s1, item), item, Settled(item, false), CompleteShells(s1, item),
        CompleteTasks(s1, item), before, after);
    }
  }

  lemma HistoryTells(s: State, item: Item)
    requires Told(s) && IsMessage(item.kind)
    ensures Told(ReplayPrefix(s, item)) && Told(ReplayMessage(s, item))
  {
    hide Told, ReplayPrefix, ReplayMessage;
    var a := PrefixShape(s, item);
    var fact := if MessageText(item) == "" then [] else [Prefix(item)];
    assert s.log + fact + a == s.log + (fact + a);
    QuietTells(s, ReplayPrefix(s, item), fact + a);
    var b := ReplayMessageShape(s, item);
    assert s.log + [Settled(item, true)] + b == s.log + ([Settled(item, true)] + b);
    QuietTells(s, ReplayMessage(s, item), [Settled(item, true)] + b);
  }

  lemma DeltaTells(s: State, id: Id, field: Field, text: string)
    requires Told(s)
    ensures Told(Delta(s, id, field, text))
  {
    hide Told, Delta;
    var marks := DeltaShape(s, id, field, text);
    var fact := DeltaFact(s, id, field, text);
    assert s.log + fact + marks == s.log + (fact + marks);
    QuietTells(s, Delta(s, id, field, text), fact + marks);
  }

  lemma ControlTells(s: State, e: Event)
    requires Told(s) && FoldInduction.Control(e)
    ensures Told(Step(s, e))
  {
    hide Told, SeedTask, SettleBackground, Disconnect, EndChildRead, ChildSessionId;
    hide Snapshot, Delta, ItemCompleted, Replay, FlushUnless, On;
    if e.TakeRead? || e.ReadBegins? || e.ReadEnds? {
      ReadEventTells(s, e);
    } else {
      var marks := ControlShape(s, e);
      assert s.log + [] + marks == s.log + marks;
      FeedIsQuiet(s, e, marks);
      QuietTells(s, Step(s, e), marks);
    }
  }

  lemma FeedIsQuiet(s: State, e: Event, marks: seq<Mark>)
    requires (e.TaskRow? || e.BackgroundRecord? || e.ConnectionLost?) && Step(s, e).log == s.log + marks
    ensures Silent(marks, Kids) && Step(s, e).kids == s.kids
  {
    hide SeedTask, SettleBackground, Disconnect, On;
    var added := Step(s, e).log[|s.log|..];
    assert added == marks;
    var feed := if e.TaskRow? then SeedTask(s.tasks, e.task, e.foreground).1
      else if e.BackgroundRecord? then SettleBackground(s.cfg, s.tasks, s.items, e.record).1
      else Disconnect(s.tasks, e.order).1;
    assert OnlyOn(feed, Feed);
    assert marks == feed || marks == [];
  }

  lemma ReadEventTells(s: State, e: Event)
    requires Told(s) && (e.TakeRead? || e.ReadBegins? || e.ReadEnds?)
    ensures Told(Step(s, e))
  {
    hide SeedTask, SettleBackground, Disconnect, EndChildRead, ChildSessionId, SessionName, Inv;
    hide Snapshot, Delta, ItemCompleted, Replay, FlushUnless;
    if s.cfg.air && s.cfg.native {
      if e.ReadEnds? {
        ReadTells(s.kids, s.log, e.child, e.generation);
      } else {
        FlightBegins(s.kids, Step(s, e).kids, s.log);
      }
    }
  }

  lemma FlightBegins(k: Children, k1: Children, log: seq<Mark>)
    requires Inv(k, log) && k1 == k.(toRead := k1.toRead, inFlight := k1.inFlight) && k.inFlight <= k1.inFlight
    ensures Inv(k1, log)
  {
    hide StoryOf, TellOf, SessionName;
  }

  lemma StoriesKept()
    ensures FoldInduction.Kept(s => Told(s))
  {
    hide Told, Snapshot, Complete, ReplayPrefix, ReplayMessage, Delta, Step;
    var P := (s: State) => Told(s);
    assert FoldInduction.KeptByItems(P) by {
      forall s: State, item: Item | P(s) ensures P(Snapshot(s, item)) && P(Complete(s, item)) {
        SnapshotTells(s, item);
        CompleteTells(s, item);
      }
    }
    assert FoldInduction.KeptByHistory(P) by {
      forall s: State, item: Item | P(s) && IsMessage(item.kind) && item.id !in s.done
        ensures P(ReplayPrefix(s, item)) && P(ReplayMessage(s, item))
      {
        HistoryTells(s, item);
      }
    }
    assert FoldInduction.KeptByDeltas(P) by {
      forall s, id, field, text | P(s) ensures P(Delta(s, id, field, text)) {
        DeltaTells(s, id, field, text);
      }
    }
    assert FoldInduction.KeptByControl(P) by {
      forall s, e | P(s) && FoldInduction.Control(e) ensures P(Step(s, e)) {
        ControlTells(s, e);
      }
    }
    assert FoldInduction.KeptOutside(P) by {
      forall s, r | P(s) && FoldInduction.Outside(s, r) ensures P(r) {
        OutsideTells(s, r);
      }
    }
  }

  lemma OutsideTells(s: State, r: State)
    requires Told(s) && FoldInduction.Outside(s, r)
    ensures Told(r)
  {
    hide Inv;
  }

  lemma FreshTells(cfg: Config)
    ensures Told(Fresh(cfg))
  {
  }

  lemma RunTells(cfg: Config, events: seq<Event>)
    ensures Told(Run(Fresh(cfg), events))
  {
    hide Told, Run, Fresh, FoldInduction.Kept;
    FreshTells(cfg);
    StoriesKept();
    FoldInduction.RunKeeps(s => Told(s), Fresh(cfg), events);
  }
}
