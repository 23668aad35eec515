/**
 Induction over runs: a property of the fold's state that every elementary step keeps holds
 after every run, however the steps are put together by completions, anchors, turn
 boundaries and history batches.
 */
module FoldInduction {
  import opened Options
  import opened FoldTypes
  import opened Fold
  import FoldRows

  /** The states differ only in what no elementary step shows: the held rows, the mode, the
      output counters and the workflow listing. */
  ghost predicate Outside(s: State, r: State) {
    r == s.(awaiting := r.awaiting, replaying := r.replaying, streamedOutput := r.streamedOutput, flows := r.flows)
  }

  ghost predicate Control(e: Event) {
    e.TaskRow? || e.BackgroundRecord? || e.ConnectionLost? || e.TakeRead? || e.ReadBegins? || e.ReadEnds?
  }

  ghost predicate KeptByItems(P: State -> bool) {
    forall s: State, item: Item :: P(s) ==> P(Snapshot(s, item)) && P(Complete(s, item))
  }

  ghost predicate KeptByHistory(P: State -> bool) {
    forall s: State, item: Item :: P(s) && IsMessage(item.kind) && item.id !in s.done ==>
      P(ReplayPrefix(s, item)) && P(ReplayMessage(s, item))
  }

  ghost predicate KeptByDeltas(P: State -> bool) {
    forall s, id, field, text :: P(s) ==> P(Delta(s, id, field, text))
  }

  ghost predicate KeptByControl(P: State -> bool) {
    forall s, e :: P(s) && Control(e) ==> P(Step(s, e))
  }

  ghost predicate KeptOutside(P: State -> bool) {
    forall s, r :: P(s) && Outside(s, r) ==> P(r)
  }

  ghost predicate Kept(P: State -> bool) {
    KeptByItems(P) && KeptByHistory(P) && KeptByDeltas(P) && KeptByControl(P) && KeptOutside(P)
  }

  lemma {:induction false} CompleteAllKeeps(P: State -> bool, s: State, rows: seq<Held>)
    requires KeptByItems(P) && P(s)
    ensures P(CompleteAll(s, rows))
  {
    hide Complete, Snapshot;
    if rows != [] {
      CompleteAllKeeps(P, s, rows[..|rows| - 1]);
    }
  }

  lemma ReleaseKeeps(P: State -> bool, s: State, anchor: Id)
    requires KeptByItems(P) && KeptOutside(P) && P(s)
    ensures P(Release(s, anchor))
  {
    hide CompleteAll;
    var s1 := s.(awaiting := Select(s.awaiting, {anchor}, false));
    assert Outside(s, s1);
    CompleteAllKeeps(P, s1, Select(s.awaiting, {anchor}, true));
  }

  lemma FlushKeeps(P: State -> bool, s: State, coming: set<Id>)
    requires KeptByItems(P) && KeptOutside(P) && P(s)
    ensures P(FlushUnless(s, coming))
  {
    hide CompleteAll;
    var s1 := s.(awaiting := Select(s.awaiting, coming, true));
    assert Outside(s, s1);
    CompleteAllKeeps(P, s1, Select(s.awaiting, coming, false));
  }

  lemma ItemCompletedKeeps(P: State -> bool, s: State, item: Item)
    requires KeptByItems(P) && KeptOutside(P) && P(s)
    ensures P(ItemCompleted(s, item))
  {
    hide Complete, Release, Snapshot;
    var s1 := s.(streamedOutput := s.streamedOutput - {item.id});
    assert Outside(s, s1);
    var anchor := Deferring(s1, item);
    if anchor.Some? {
      assert Outside(s1, Hold(s1, anchor.value, item));
    } else {
      ReleaseKeeps(P, Complete(s1, item), item.id);
    }
  }

  lemma ReplayItemKeeps(P: State -> bool, s: State, item: Item)
    requires KeptByItems(P) && KeptByHistory(P) && KeptOutside(P) && P(s)
    ensures P(ReplayItem(s, item))
  {
    hide Complete, Snapshot, ItemCompleted, ReplayPrefix, ReplayMessage, ObserveWorkflow;
    var s1 := s.(flows := ObserveWorkflow(s.flows, item, !InFlight(item)));
    assert Outside(s, s1);
    FoldRows.SnapshotFrame(s1, item);
    ItemCompletedKeeps(P, s1, item);
  }

  lemma {:induction false} ReplayFromKeeps(P: State -> bool, s: State, batch: seq<Wire>, turn: Option<Id>)
    requires KeptByItems(P) && KeptByHistory(P) && KeptOutside(P) && P(s)
    ensures P(ReplayFrom(s, batch, turn))
    decreases batch
  {
    hide FlushUnless, ReplayItem, Release, KeptByItems, KeptByHistory, KeptOutside;
    if batch != [] {
      FlushKeeps(P, s, Ids(batch));
      var s1 := Boundary(s, batch, turn);
      if batch[0].Named? {
        ReplayItemKeeps(P, s1, batch[0].item);
        ReleaseKeeps(P, ReplayItem(s1, batch[0].item), batch[0].item.id);
      }
      ReplayFromKeeps(P, Consume(s1, batch[0]), batch[1..], NextTurn(batch[0], turn));
    }
  }

  lemma ReplayKeeps(P: State -> bool, s: State, batch: seq<Wire>)
    requires KeptByItems(P) && KeptByHistory(P) && KeptOutside(P) && P(s)
    ensures P(Replay(s, batch))
  {
    hide FlushUnless, ReplayFrom;
    var s0 := s.(replaying := true);
    assert Outside(s, s0);
    ReplayFromKeeps(P, s0, batch, None);
    var s1 := ReplayFrom(s0, batch, None);
    FlushKeeps(P, s1, {});
    assert Outside(Flush(s1), Flush(s1).(replaying := s.replaying));
  }

  lemma StepKeeps(P: State -> bool, s: State, e: Event)
    requires Kept(P) && P(s)
    ensures P(Step(s, e))
  {
    hide Snapshot, Delta, ItemCompleted, Replay, FlushUnless, SeedTask, SettleBackground, Disconnect, EndChildRead;
    hide ChildSessionId, Complete;
    match e
    case SnapshotEvent(w) =>
    case DeltaEvent(id, field, text) =>
    case CompletedEvent(w) => if w.Named? { ItemCompletedKeeps(P, s, w.item); }
    case HistoryEvent(batch) => ReplayKeeps(P, s, batch);
    case TurnEnds => FlushKeeps(P, s, {});
    case _ => assert Control(e);
  }

  lemma {:induction false} RunKeeps(P: State -> bool, s: State, events: seq<Event>)
    requires Kept(P) && P(s)
    ensures P(Run(s, events))
  {
    hide Step, Kept;
    if events != [] {
      RunKeeps(P, s, events[..|events| - 1]);
      StepKeeps(P, Run(s, events[..|events| - 1]), events[|events| - 1]);
    }
  }
}
