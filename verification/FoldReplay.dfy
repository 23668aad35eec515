/**
 History and live agree: replayed settled rows look like live completions, history opens
 no terminal and announces no task, and replaying a settled history again says nothing.
 */
module FoldReplay {
  import opened Options
  import opened FoldTypes
  import opened Fold
  import opened FoldEffects
  import opened FoldRows

  // ---------- replay refines live ----------

  /** Live completions of a batch's items, one by one. */
  ghost function Live(s: State, batch: seq<Wire>): State
    decreases batch
  {
    if batch == [] then s
    else Live(if batch[0].Named? then ItemCompleted(s, batch[0].item) else s, batch[1..])
  }

  /** A settled row that is not a message and waits for no anchor, or an item without an id. */
  ghost predicate PlainRow(w: Wire) {
    w.Named? ==> !InFlight(w.item) && !IsMessage(w.item.kind) && RowAnchor(w.item).None?
  }

  /** A fold of an ACP v1 client without AIR tasks, holding nothing. */
  ghost predicate Ready(s: State) {
    && !s.cfg.v2 && !s.cfg.airTasks && s.awaiting == [] && s.streamedOutput == map[]
    && s.shells == Shells(map[], map[])
  }

  lemma ShellIgnoresMode(s: State, item: Item, tc: Id)
    requires Ready(s)
    ensures CompleteShell(s, item, tc) == (s.shells, [], false)
  {
  }

  lemma ToolCallIgnoresMode(s: State, item: Item)
    requires Ready(s) && item.kind == ToolCall
    ensures CompleteToolCall(s.(replaying := true), item) == CompleteToolCall(s, item).(replaying := true)
  {
    hide CompleteShell;
    var role := ToolRole(s, item);
    ShellIgnoresMode(s, item, role.tc);
    ShellIgnoresMode(s.(replaying := true), item, role.tc);
  }

  lemma HostCardIgnoresMode(s: State, item: Item)
    requires Ready(s)
    ensures CompleteHostCard(s.(replaying := true), item) == CompleteHostCard(s, item).(replaying := true)
  {
    hide CompleteShell;
    var role := HostRole(s, item.id, HostPrefix(item.kind));
    ShellIgnoresMode(s, item, role.tc);
    ShellIgnoresMode(s.(replaying := true), item, role.tc);
  }

  lemma KindIgnoresMode(s: State, item: Item)
    requires Ready(s) && !IsMessage(item.kind)
    ensures CompleteKind(s.(replaying := true), item) == CompleteKind(s, item).(replaying := true)
  {
    hide CompleteToolCall, CompleteHostCard, NativeSubagent;
    if item.kind == ToolCall {
      ToolCallIgnoresMode(s, item);
    } else {
      HostCardIgnoresMode(s, item);
    }
  }

  lemma KindStaysReady(s: State, item: Item)
    requires Ready(s) && !IsMessage(item.kind)
    ensures var r := CompleteKind(s, item); Ready(r) && r.replaying == s.replaying
  {
    hide CompleteKind, KidsOf, CompleteTasks, CompleteShell, CardId;
    ShellIgnoresMode(s, item, CardId(s, item));
    var before, after := CompleteKindEffects(s, item);
  }

  lemma ObserveTwice(f: Flows, item: Item)
    ensures ObserveWorkflow(ObserveWorkflow(f, item, true), item, true) == ObserveWorkflow(f, item, true)
  {
  }

  lemma NothingHeld(s: State, anchors: set<Id>)
    requires s.awaiting == []
    ensures FlushUnless(s, anchors) == s
    ensures forall a :: Release(s, a) == s
  {
    hide Complete;
  }

  lemma CompleteRow(s: State, item: Item)
    requires Ready(s) && !s.replaying && !IsMessage(item.kind)
    ensures var r := Complete(s, item); Ready(r) && !r.replaying
    ensures var s1 := s.(replaying := true, flows := ObserveWorkflow(s.flows, item, true));
      && (item.id in s.done ==> s1 == Complete(s, item).(replaying := true))
      && (item.id !in s.done ==> Complete(s1, item) == Complete(s, item).(replaying := true))
  {
    hide CompleteKind, ObserveWorkflow;
    ObserveTwice(s.flows, item);
    assert s.streamedOutput - {item.id} == map[];
    var s1 := Settling(Observed(s, item), item);
    KindIgnoresMode(s1, item);
    KindStaysReady(s1, item);
    assert Settling(Observed(s.(replaying := true, flows := ObserveWorkflow(s.flows, item, true)), item), item)
      == s1.(replaying := true);
  }

  /** One row: the batch and the live completion do the same. */
  lemma RowAgrees(s: State, w: Wire)
    requires Ready(s) && !s.replaying && w.Named? && PlainRow(w)
    ensures var r := ItemCompleted(s, w.item); Ready(r) && !r.replaying
    ensures Consume(s.(replaying := true), w) == ItemCompleted(s, w.item).(replaying := true)
  {
    hide Complete, Release, ObserveWorkflow;
    var item := w.item;
    CompleteRow(s, item);
    assert s.streamedOutput - {item.id} == s.streamedOutput;
    NothingHeld(Complete(s, item), {});
    NothingHeld(Complete(s, item).(replaying := true), {});
  }

  lemma {:induction false} ReplayFromIsLive(s: State, batch: seq<Wire>, turn: Option<Id>)
    requires Ready(s) && !s.replaying && forall w :: w in batch ==> PlainRow(w)
    ensures ReplayFrom(s.(replaying := true), batch, turn) == Live(s, batch).(replaying := true)
    ensures Ready(Live(s, batch)) && !Live(s, batch).replaying
    decreases batch
  {
    hide ItemCompleted, ReplayItem, FlushUnless, Release, PlainRow;
    if batch != [] {
      var s0 := s.(replaying := true);
      NothingHeld(s0, Ids(batch));
      assert Boundary(s0, batch, turn) == s0;
      assert batch[0] in batch;
      if batch[0].Named? { RowAgrees(s, batch[0]); }
      ReplayFromIsLive(if batch[0].Named? then ItemCompleted(s, batch[0].item) else s, batch[1..], NextTurn(batch[0],
        turn));
    }
  }

  /**
   Replay refines live: for every history of settled, unanchored rows that are not messages,
   a fold of an ACP v1 client without AIR tasks replays it into exactly the state, and so
   exactly the notes, that completing the rows live one by one gives.
   */
  lemma ReplayIsLive(cfg: Config, batch: seq<Wire>)
    requires !cfg.v2 && !cfg.airTasks && forall w :: w in batch ==> PlainRow(w)
    ensures Replay(Fresh(cfg), batch) == Live(Fresh(cfg), batch)
  {
    hide ItemCompleted, ReplayFrom, Live, FlushUnless;
    ReplayFromIsLive(Fresh(cfg), batch, None);
    NothingHeld(Live(Fresh(cfg), batch).(replaying := true), {});
  }

  // ---------- history opens no terminal and announces no task ----------

  /** A note only live work may send. */
  ghost predicate LiveOnly(m: Mark) {
    m.Sent? && (m.note.TerminalOpened? || m.note.TerminalOutput? || m.note.TerminalExited?
                || m.note.TaskSpawned?)
  }

  ghost predicate NoLiveNotes(s: State, r: State) {
    s.log <= r.log && forall i :: |s.log| <= i < |r.log| ==> !LiveOnly(r.log[i])
  }

  lemma NoLiveTransitive(s: State, t: State, r: State)
    requires NoLiveNotes(s, t) && NoLiveNotes(t, r)
    ensures NoLiveNotes(s, r)
  {
    assert forall i :: 0 <= i < |t.log| ==> r.log[i] == t.log[i];
  }

  lemma ReplayedTasks(s: State, item: Item)
    requires s.replaying
    ensures forall i :: 0 <= i < |CompleteTasks(s, item).1| ==> !LiveOnly(CompleteTasks(s, item).1[i])
    ensures CompleteShells(s, item).1 == []
  {
    hide TaskIdFor, CardId;
  }

  lemma CompleteNoLive(s: State, item: Item)
    requires s.replaying
    ensures NoLiveNotes(s, Complete(s, item)) && Complete(s, item).replaying
  {
    hide CompleteKind, MarkCutOff, Effects, KidsOf, CompleteTasks, CompleteShells, ObserveWorkflow;
    var s0 := Observed(s, item);
    var s1 := Settling(s0, item);
    if item.id in s.done {
      MarkNoLive(s0, item);
    } else if item.kind == AgentMessage {
      ReplyNoLive(s1, item);
      NoLiveTransitive(s0, s1, CompleteKind(s1, item));
    } else {
      var before, after := CompleteKindEffects(s1, item);
      ReplayedTasks(s1, item);
      EffectsNoLive(s1, CompleteKind(s1, item), item, KidsOf(s1, item), CompleteShells(s1, item), CompleteTasks(s1,
        item), before, after);
      NoLiveTransitive(s0, s1, CompleteKind(s1, item));
    }
  }

  lemma MarkNoLive(s: State, item: Item)
    ensures NoLiveNotes(s, MarkCutOff(s, item)) && MarkCutOff(s, item).replaying == s.replaying
  {
    hide MarkableMessage;
  }

  lemma ReplyNoLive(s: State, item: Item)
    requires item.kind == AgentMessage
    ensures NoLiveNotes(s, CompleteKind(s, item)) && CompleteKind(s, item).replaying == s.replaying
  {
    hide CompleteToolCall, CompleteHostCard, CompleteOther, ChildItem, CompleteReasoning, MonitorUpdate;
  }

  lemma EffectsNoLive(s: State, r: State, item: Item, kids: (Children, seq<Mark>), shells: (Shells, seq<Mark>),
                      tasks: (Tasks, seq<Mark>), before: seq<Mark>, after: seq<Mark>)
    requires Effects(s, r, item, kids, shells, tasks, before, after) && shells.1 == [] && OnlyOn(kids.1, Kids)
    requires forall i :: 0 <= i < |tasks.1| ==> !LiveOnly(tasks.1[i])
    ensures NoLiveNotes(s, r) && r.replaying == s.replaying
  {
    var marks := kids.1 + before + tasks.1 + after;
    assert r.log == s.log + marks;
    assert forall m: Mark :: LiveOnly(m) ==> On(m, Feed) || On(m, Terminals);
    forall i | 0 <= i < |marks| ensures !LiveOnly(marks[i]) {
      assert Silent(before, Feed) && Silent(before, Terminals) && Silent(after, Feed) && Silent(after, Terminals);
    }
    assert forall i :: |s.log| <= i < |r.log| ==> r.log[i] == marks[i - |s.log|];
  }

  lemma {:induction false} CompleteAllNoLive(s: State, rows: seq<Held>)
    requires s.replaying
    ensures NoLiveNotes(s, CompleteAll(s, rows)) && CompleteAll(s, rows).replaying
  {
    hide Complete;
    if rows != [] {
      var s1 := CompleteAll(s, rows[..|rows| - 1]);
      CompleteAllNoLive(s, rows[..|rows| - 1]);
      CompleteNoLive(s1, rows[|rows| - 1].item);
      NoLiveTransitive(s, s1, CompleteAll(s, rows));
    }
  }

  lemma ReleaseNoLive(s: State, anchor: Id)
    requires s.replaying
    ensures NoLiveNotes(s, Release(s, anchor)) && Release(s, anchor).replaying
  {
    hide CompleteAll;
    CompleteAllNoLive(s.(awaiting := Select(s.awaiting, {anchor}, false)), Select(s.awaiting, {anchor}, true));
  }

  lemma FlushNoLive(s: State, coming: set<Id>)
    requires s.replaying
    ensures NoLiveNotes(s, FlushUnless(s, coming)) && FlushUnless(s, coming).replaying
  {
    hide CompleteAll;
    CompleteAllNoLive(s.(awaiting := Select(s.awaiting, coming, true)), Select(s.awaiting, coming, false));
  }

  lemma ReplayItemNoLive(s: State, item: Item)
    requires s.replaying && !InFlight(item)
    ensures NoLiveNotes(s, ReplayItem(s, item)) && ReplayItem(s, item).replaying
  {
    hide Complete, Release, ReplayMessage, ObserveWorkflow;
    var s1 := s.(flows := ObserveWorkflow(s.flows, item, true));
    if item.id !in s.done {
      if IsMessage(item.kind) {
        MessageNoLive(s1, item);
      } else {
        var s2 := s1.(streamedOutput := s1.streamedOutput - {item.id});
        CompleteNoLive(s2, item);
        ReleaseNoLive(Complete(s2, item), item.id);
        NoLiveTransitive(s2, Complete(s2, item), Release(Complete(s2, item), item.id));
      }
    }
  }

  lemma MessageNoLive(s: State, item: Item)
    ensures NoLiveNotes(s, ReplayMessage(s, item)) && ReplayMessage(s, item).replaying == s.replaying
  {
  }

  lemma {:induction false} ReplayFromNoLive(s: State, batch: seq<Wire>, turn: Option<Id>)
    requires s.replaying && forall w :: w in batch && w.Named? ==> !InFlight(w.item)
    ensures NoLiveNotes(s, ReplayFrom(s, batch, turn)) && ReplayFrom(s, batch, turn).replaying
    decreases batch
  {
    hide FlushUnless, Release, ReplayItem;
    if batch != [] {
      FlushNoLive(s, Ids(batch));
      var s1 := Boundary(s, batch, turn);
      var s3 := Consume(s1, batch[0]);
      assert batch[0] in batch;
      if batch[0].Named? {
        var s2 := ReplayItem(s1, batch[0].item);
        ReplayItemNoLive(s1, batch[0].item);
        ReleaseNoLive(s2, batch[0].item.id);
        NoLiveTransitive(s1, s2, s3);
      }
      NoLiveTransitive(s, s1, s3);
      ReplayFromNoLive(s3, batch[1..], NextTurn(batch[0], turn));
      NoLiveTransitive(s, s3, ReplayFrom(s, batch, turn));
    }
  }

  /** On any version and from any state, a settled history opens, feeds and closes no terminal
      and announces no task. */
  lemma SettledHistoryIsNotLive(s: State, batch: seq<Wire>)
    requires forall w :: w in batch && w.Named? ==> !InFlight(w.item)
    ensures NoLiveNotes(s, Replay(s, batch))
  {
    hide ReplayFrom, FlushUnless;
    var s0 := s.(replaying := true);
    ReplayFromNoLive(s0, batch, None);
    var s1 := ReplayFrom(s0, batch, None);
    FlushNoLive(s1, {});
    NoLiveTransitive(s0, s1, Flush(s1));
  }

  // ---------- a second replay ----------

  /** Replaying settled items adds nothing to the log. */
  lemma {:induction false} ReplayDone(s: State, batch: seq<Wire>, turn: Option<Id>)
    requires s.awaiting == [] && forall w :: w in batch && w.Named? ==> w.item.id in s.done
    ensures var r := ReplayFrom(s, batch, turn); r.log == s.log && r.awaiting == [] && r.replaying == s.replaying
    decreases batch
  {
    hide FlushUnless, Release, ObserveWorkflow, Snapshot, ItemCompleted, ReplayMessage, ReplayPrefix;
    if batch != [] {
      NothingHeld(s, Ids(batch));
      assert batch[0] in batch;
      var s1 := s;
      if batch[0].Named? {
        s1 := ReplayItem(s, batch[0].item);
        NothingHeld(s1, {});
      }
      ReplayDone(s1, batch[1..], NextTurn(batch[0], turn));
    }
  }

  /** Replaying a settled history a second time sends nothing, from any state. */
  lemma SecondReplayIsSilent(s: State, batch: seq<Wire>)
    requires Anchored(s.awaiting) && forall w :: w in batch && w.Named? ==> !InFlight(w.item)
    ensures Replay(Replay(s, batch), batch).log == Replay(s, batch).log
  {
    hide ReplayFrom, FlushUnless;
    var s0 := s.(replaying := true);
    ReplayGrows(s0, batch, None);
    FlushSettlesAll(ReplayFrom(s0, batch, None));
    var r := Replay(s, batch).(replaying := true);
    ReplayDone(r, batch, None);
    NothingHeld(ReplayFrom(r, batch, None), {});
  }
}
