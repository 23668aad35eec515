/**
 The text of agent messages, from the events alone: a reading defined by recursion over the
 frames that the events carry, in the order they carry them, and proved equal to what the
 fold takes from them over every run.
 */
module FoldFrames {
  import opened Options
  import opened FoldTypes
  import opened Fold
  import opened FoldShapes
  import opened FoldRows
  import opened FoldMessages

  // ---------- the frames of the events ----------

  /** One item or delta as it arrives: a snapshot, a completion, an item of a history batch, or
      a text delta. */
  datatype Frame = Snap(item: Item) | Fin(item: Item) | Past(item: Item) | Text(id: Id, text: string)

  function BatchFrames(batch: seq<Wire>): seq<Frame> {
    if batch == [] then []
    else (if batch[0].Named? then [Past(batch[0].item)] else []) + BatchFrames(batch[1..])
  }

  function FramesOf(e: Event): seq<Frame> {
    match e
    case SnapshotEvent(w) => if w.Named? then [Snap(w.item)] else []
    case CompletedEvent(w) => if w.Named? then [Fin(w.item)] else []
    case HistoryEvent(batch) => BatchFrames(batch)
    case DeltaEvent(id, field, text) => if field == Words && text != "" then [Text(id, text)] else []
    case _ => []
  }

  function Frames(events: seq<Event>): seq<Frame> {
    if events == [] then [] else Frames(events[..|events| - 1]) + FramesOf(events[|events| - 1])
  }

  // ---------- the text they give ----------

  datatype Follow = Follow(reading: Reading, settled: bool)

  /** An in-flight message of a batch opens it, and shows its text when none was shown. */
  function AfterPrefix(r: Reading, item: Item): Reading {
    if item.kind != AgentMessage then Mixed
    else if r.Unread? || r == Open("") then Open(item.text)
    else r
  }

  function AfterSnap(r: Reading, item: Item): Reading {
    if item.kind != AgentMessage then Mixed else if r.Unread? then Open("") else r
  }

  /** A completion: what streamed stays, or the completed text is shown. */
  function AfterFin(r: Reading, item: Item): Reading {
    if item.kind != AgentMessage || r.Mixed? then Mixed
    else if r.Open? && r.text != "" then Closed(r.text, item)
    else Closed(item.text, item)
  }

  /** A settled message of a batch: shown, and after what an open message showed. */
  function AfterPast(r: Reading, item: Item): Reading {
    if item.kind != AgentMessage || r.Mixed? then Mixed
    else if r.Open? then Reopened(r.text, item.text, "", item)
    else Closed(item.text, item)
  }

  function AfterText(r: Reading, text: string): Reading {
    match r
    case Open(shown) => Open(shown + text)
    case Reopened(before, settled, after, final) => Reopened(before, settled, after + text, final)
    case _ => r
  }

  function NextFollow(x: Follow, f: Frame, id: Id): Follow {
    match f
    case Text(i, text) => if i == id then Follow(AfterText(x.reading, text), x.settled) else x
    case Snap(item) =>
      if item.id != id || x.settled then x else Follow(AfterSnap(x.reading, item), false)
    case Fin(item) =>
      if item.id != id || x.settled then x else Follow(AfterFin(x.reading, item), true)
    case Past(item) =>
      if item.id != id || x.settled then x
      else if InFlight(item) then Follow(AfterPrefix(x.reading, item), false)
      else if IsMessage(item.kind) then Follow(AfterPast(x.reading, item), true)
      else Follow(AfterFin(x.reading, item), true)
  }

  function FollowOf(frames: seq<Frame>, id: Id): Follow {
    if frames == [] then Follow(Unread, false)
    else NextFollow(FollowOf(frames[..|frames| - 1], id), frames[|frames| - 1], id)
  }

  lemma {:induction false} FollowAppend(a: seq<Frame>, b: seq<Frame>, id: Id)
    ensures FollowOf(a + b, id) == FollowFrom(FollowOf(a, id), b, id)
  {
    if b == [] {
      assert a + b == a;
    } else {
      FollowAppend(a, b[..|b| - 1], id);
      assert (a + b)[..|a + b| - 1] == a + b[..|b| - 1];
    }
  }

  function FollowFrom(x: Follow, frames: seq<Frame>, id: Id): Follow {
    if frames == [] then x
    else NextFollow(FollowFrom(x, frames[..|frames| - 1], id), frames[|frames| - 1], id)
  }

  lemma {:induction false} FollowFirst(x: Follow, f: Frame, rest: seq<Frame>, id: Id)
    ensures FollowFrom(x, [f] + rest, id) == FollowFrom(NextFollow(x, f, id), rest, id)
  {
    var all := [f] + rest;
    if rest == [] {
      assert all == [f] && [f][..0] == [];
    } else {
      assert all[..|all| - 1] == [f] + rest[..|rest| - 1];
      FollowFirst(x, f, rest[..|rest| - 1], id);
    }
  }

  // ---------- what each step takes ----------

  lemma {:induction false} NotesRead(log: seq<Mark>, marks: seq<Mark>, id: Id)
    requires NotesOnly(marks)
    ensures ReadingOf(log + marks, id) == ReadingOf(log, id)
  {
    if marks == [] {
      assert log + marks == log;
    } else {
      NotesRead(log, marks[..|marks| - 1], id);
      assert (log + marks)[..|log + marks| - 1] == log + marks[..|marks| - 1];
    }
  }

  lemma FactRead(s: State, r: State, facts: seq<Mark>, marks: seq<Mark>, id: Id)
    requires Wrote(s, r, facts, marks) && |facts| <= 1
    ensures ReadingOf(r.log, id) ==
      if facts == [] then ReadingOf(s.log, id) else NextReading(ReadingOf(s.log, id), facts[0], id)
  {
    hide ReadingOf, NextReading;
    NotesRead(s.log + facts, marks, id);
    if facts == [] {
      assert s.log + facts == s.log;
    } else {
      assert facts == [facts[0]];
      Steps(s.log, facts[0], id);
    }
  }

  lemma SnapRead(s: State, item: Item, id: Id)
    ensures ReadingOf(Snapshot(s, item).log, id) ==
      if item.id in s.done then ReadingOf(s.log, id) else NextReading(ReadingOf(s.log, id), Seen(item), id)
    ensures Snapshot(s, item).done == s.done && Snapshot(s, item).awaiting == s.awaiting
  {
    hide ReadingOf, NextReading, Snapshot;
    var marks := SnapshotShape(s, item);
    FactRead(s, Snapshot(s, item), if item.id in s.done then [] else [Seen(item)], marks, id);
    SnapshotFrame(s, item);
  }

  lemma CompleteRead(s: State, item: Item, id: Id)
    ensures ReadingOf(Complete(s, item).log, id) ==
      if item.id in s.done then ReadingOf(s.log, id) else NextReading(ReadingOf(s.log, id), Settled(item, false), id)
    ensures Complete(s, item).done == s.done + {item.id} && Complete(s, item).awaiting == s.awaiting
  {
    hide ReadingOf, NextReading, Complete;
    var marks := CompleteShape(s, item);
    FactRead(s, Complete(s, item), if item.id in s.done then [] else [Settled(item, false)], marks, id);
    CompleteFrame(s, item);
  }

  /** Rows of other items that settle leave the message alone. */
  lemma {:induction false} RowsRead(s: State, rows: seq<Held>, id: Id)
    requires id !in HeldIds(rows)
    ensures var r := CompleteAll(s, rows);
      ReadingOf(r.log, id) == ReadingOf(s.log, id) && (id in r.done <==> id in s.done) && r.awaiting == s.awaiting
  {
    hide ReadingOf, Complete;
    if rows != [] {
      var rest, last := rows[..|rows| - 1], rows[|rows| - 1];
      assert rows == rest + [last];
      assert last in rows && forall h :: h in rest ==> h in rows;
      RowsRead(s, rest, id);
      CompleteRead(CompleteAll(s, rest), last.item, id);
    }
  }

  lemma ReleaseRead(s: State, anchor: Id, id: Id)
    requires id !in HeldIds(s.awaiting)
    ensures var r := Release(s, anchor);
      && ReadingOf(r.log, id) == ReadingOf(s.log, id) && (id in r.done <==> id in s.done)
      && id !in HeldIds(r.awaiting)
  {
    hide ReadingOf, CompleteAll, Select;
    SelectSplits(s.awaiting, {anchor});
    RowsRead(s.(awaiting := Select(s.awaiting, {anchor}, false)), Select(s.awaiting, {anchor}, true), id);
  }

  lemma FlushRead(s: State, coming: set<Id>, id: Id)
    requires id !in HeldIds(s.awaiting)
    ensures var r := FlushUnless(s, coming);
      && ReadingOf(r.log, id) == ReadingOf(s.log, id) && (id in r.done <==> id in s.done)
      && id !in HeldIds(r.awaiting)
  {
    hide ReadingOf, CompleteAll, Select;
    SelectSplits(s.awaiting, coming);
    RowsRead(s.(awaiting := Select(s.awaiting, coming, true)), Select(s.awaiting, coming, false), id);
  }

  // ---------- the fold follows the frames ----------

  /** The fold has taken what `x` says of the message, and holds no completion of it. */
  ghost predicate Follows(s: State, x: Follow, id: Id) {
    ReadingOf(s.log, id) == x.reading && (id in s.done <==> x.settled) && id !in HeldIds(s.awaiting)
    && (x.settled ==> !x.reading.Unread? && !x.reading.Open?)
    && (!x.settled ==> !x.reading.Closed? && !x.reading.Reopened?)
  }

  /** The completion names no other item to wait for. */
  predicate Free(item: Item, id: Id) {
    item.id == id ==> RowAnchor(item).None? || RowAnchor(item) == Some(id)
  }

  predicate FreeFrame(f: Frame, id: Id) {
    match f
    case Fin(item) => Free(item, id)
    case Past(item) => InFlight(item) || IsMessage(item.kind) || Free(item, id)
    case _ => true
  }

  lemma SnapFollows(s: State, x: Follow, item: Item, id: Id)
    requires Follows(s, x, id)
    ensures Follows(Snapshot(s, item), NextFollow(x, Snap(item), id), id)
  {
    hide ReadingOf, Snapshot;
    SnapRead(s, item, id);
  }

  lemma TextFollows(s: State, x: Follow, i: Id, field: Field, text: string, id: Id)
    requires Follows(s, x, id)
    ensures Follows(Delta(s, i, field, text), FollowFrom(x, FramesOf(DeltaEvent(i, field, text)), id), id)
  {
    hide ReadingOf, Delta;
    var marks := DeltaShape(s, i, field, text);
    var fact := DeltaFact(s, i, field, text);
    FactRead(s, Delta(s, i, field, text), fact, marks, id);
    DeltaFrame(s, i, field, text);
    var frames := FramesOf(DeltaEvent(i, field, text));
    if frames != [] {
      assert frames[..0] == [];
    }
  }

  /** A completion, held or not, of this message or of another item. */
  lemma FinFollows(s: State, x: Follow, item: Item, id: Id)
    requires Follows(s, x, id) && Free(item, id)
    ensures Follows(ItemCompleted(s, item), NextFollow(x, Fin(item), id), id)
  {
    hide ReadingOf, Complete, Release, RowAnchor;
    var s1 := s.(streamedOutput := s.streamedOutput - {item.id});
    var anchor := Deferring(s1, item);
    if anchor.Some? {
      HoldFrame(s1, anchor.value, item);
    } else {
      CompleteRead(s1, item, id);
      ReleaseRead(Complete(s1, item), item.id, id);
    }
  }

  lemma PastFollows(s: State, x: Follow, item: Item, id: Id)
    requires Follows(s, x, id) && FreeFrame(Past(item), id)
    ensures Follows(ReplayItem(s, item), NextFollow(x, Past(item), id), id)
  {
    hide ReadingOf, Snapshot, ItemCompleted, ReplayPrefix, ReplayMessage, ObserveWorkflow, FramesOf;
    var s1 := s.(flows := ObserveWorkflow(s.flows, item, !InFlight(item)));
    if item.id in s.done {
    } else if InFlight(item) {
      InFlightFollows(s1, x, item, id);
    } else if IsMessage(item.kind) {
      DirectFollows(s1, x, item, id);
    } else {
      FinFollows(s1, x, item, id);
    }
  }

  lemma InFlightFollows(s: State, x: Follow, item: Item, id: Id)
    requires Follows(s, x, id) && InFlight(item) && item.id !in s.done
    ensures var t := Snapshot(s, item);
      Follows(if IsMessage(item.kind) then ReplayPrefix(t, item) else t, NextFollow(x, Past(item), id), id)
  {
    hide ReadingOf, Snapshot, ReplayPrefix;
    var t := Snapshot(s, item);
    SnapRead(s, item, id);
    if IsMessage(item.kind) {
      var marks := PrefixShape(t, item);
      FactRead(t, ReplayPrefix(t, item), if MessageText(item) == "" then [] else [Prefix(item)], marks, id);
      PrefixFrame(t, item);
    }
  }

  lemma DirectFollows(s: State, x: Follow, item: Item, id: Id)
    requires Follows(s, x, id) && !InFlight(item) && IsMessage(item.kind) && item.id !in s.done
    ensures Follows(ReplayMessage(s, item), NextFollow(x, Past(item), id), id)
  {
    hide ReadingOf, ReplayMessage;
    var marks := ReplayMessageShape(s, item);
    FactRead(s, ReplayMessage(s, item), [Settled(item, true)], marks, id);
    ReplayMessageFrame(s, item);
  }

  lemma {:induction false} BatchFollows(s: State, x: Follow, batch: seq<Wire>, turn: Option<Id>, id: Id)
    requires Follows(s, x, id) && forall f :: f in BatchFrames(batch) ==> FreeFrame(f, id)
    ensures Follows(ReplayFrom(s, batch, turn), FollowFrom(x, BatchFrames(batch), id), id)
    decreases batch
  {
    hide FlushUnless, Release, ReplayItem, FreeFrame, NextFollow, Follows;
    if batch != [] {
      var rest := BatchFrames(batch[1..]);
      BoundaryFollows(s, x, batch, turn, id);
      var s1 := Boundary(s, batch, turn);
      var s2 := Consume(s1, batch[0]);
      if batch[0].Named? {
        var f := Past(batch[0].item);
        assert f in BatchFrames(batch) && forall g :: g in rest ==> g in BatchFrames(batch);
        PastFollows(s1, x, batch[0].item, id);
        ReleaseFollows(ReplayItem(s1, batch[0].item), NextFollow(x, f, id), batch[0].item.id, id);
        BatchFollows(s2, NextFollow(x, f, id), batch[1..], NextTurn(batch[0], turn), id);
        FollowFirst(x, f, rest, id);
      } else {
        assert BatchFrames(batch) == rest;
        BatchFollows(s2, x, batch[1..], NextTurn(batch[0], turn), id);
      }
    }
  }

  lemma BoundaryFollows(s: State, x: Follow, batch: seq<Wire>, turn: Option<Id>, id: Id)
    requires Follows(s, x, id) && batch != []
    ensures Follows(Boundary(s, batch, turn), x, id)
  {
    hide ReadingOf, FlushUnless;
    FlushRead(s, Ids(batch), id);
  }

  lemma ReleaseFollows(s: State, x: Follow, anchor: Id, id: Id)
    requires Follows(s, x, id)
    ensures Follows(Release(s, anchor), x, id)
  {
    hide ReadingOf, Release;
    ReleaseRead(s, anchor, id);
  }

  lemma FlushFollows(s: State, x: Follow, id: Id)
    requires Follows(s, x, id)
    ensures Follows(Flush(s), x, id)
  {
    hide ReadingOf, FlushUnless;
    FlushRead(s, {}, id);
  }

  lemma ModeFollows(s: State, x: Follow, replaying: bool, id: Id)
    requires Follows(s, x, id)
    ensures Follows(s.(replaying := replaying), x, id)
  {
    hide ReadingOf;
  }

  lemma StepFollows(s: State, x: Follow, e: Event, id: Id)
    requires Follows(s, x, id) && forall f :: f in FramesOf(e) ==> FreeFrame(f, id)
    ensures Follows(Step(s, e), FollowFrom(x, FramesOf(e), id), id)
  {
    hide Snapshot, Delta, ItemCompleted, ReplayFrom, FlushUnless, Follows, FreeFrame, NextFollow;
    hide SeedTask, SettleBackground, Disconnect, EndChildRead;
    var frames := FramesOf(e);
    if |frames| == 1 {
      assert frames[..0] == [] && frames[0] in frames;
    }
    match e
    case SnapshotEvent(w) => if w.Named? { SnapFollows(s, x, w.item, id); }
    case DeltaEvent(i, field, text) => TextFollows(s, x, i, field, text, id);
    case CompletedEvent(w) =>
      if w.Named? {
        FreeFin(w.item, id);
        FinFollows(s, x, w.item, id);
      }
    case HistoryEvent(batch) =>
      var s0 := s.(replaying := true);
      ModeFollows(s, x, true, id);
      BatchFollows(s0, x, batch, None, id);
      var y := FollowFrom(x, frames, id);
      var s1 := ReplayFrom(s0, batch, None);
      FlushFollows(s1, y, id);
      ModeFollows(Flush(s1), y, s.replaying, id);
    case TurnEnds => FlushFollows(s, x, id);
    case _ => ControlFollows(s, x, e, id);
  }

  lemma FreeFin(item: Item, id: Id)
    requires FreeFrame(Fin(item), id)
    ensures Free(item, id)
  {
  }

  lemma ControlFollows(s: State, x: Follow, e: Event, id: Id)
    requires Follows(s, x, id)
    requires !(e.SnapshotEvent? || e.DeltaEvent? || e.CompletedEvent? || e.HistoryEvent? || e.TurnEnds?)
    ensures Follows(Step(s, e), x, id)
  {
    hide ReadingOf, Step;
    var marks := ControlShape(s, e);
    FactRead(s, Step(s, e), [], marks, id);
  }

  /** Over every run in which no completion of the message waits for another item, what the
      fold takes is what the frames give. */
  lemma {:induction false} RunFollows(cfg: Config, events: seq<Event>, id: Id)
    requires forall f :: f in Frames(events) ==> FreeFrame(f, id)
    ensures Follows(Run(Fresh(cfg), events), FollowOf(Frames(events), id), id)
  {
    hide Step, FreeFrame, FramesOf, NextFollow, Follows;
    if events == [] {
      FreshFollows(cfg, id);
    } else {
      var rest, e := events[..|events| - 1], events[|events| - 1];
      assert forall f :: f in Frames(rest) || f in FramesOf(e) ==> f in Frames(events);
      RunFollows(cfg, rest, id);
      StepFollows(Run(Fresh(cfg), rest), FollowOf(Frames(rest), id), e, id);
      FollowAppend(Frames(rest), FramesOf(e), id);
    }
  }

  lemma FreshFollows(cfg: Config, id: Id)
    ensures Follows(Fresh(cfg), Follow(Unread, false), id)
  {
  }

  // ---------- before a message settles ----------

  /** A completion, or a settled item of a batch. */
  predicate Settles(f: Frame, id: Id) {
    (f.Fin? && f.item.id == id) || (f.Past? && f.item.id == id && !InFlight(f.item))
  }

  /** The frames that do not settle the message. */
  function Opening(frames: seq<Frame>, id: Id): seq<Frame> {
    if frames == [] then []
    else
      var rest, f := Opening(frames[..|frames| - 1], id), frames[|frames| - 1];
      if Settles(f, id) then rest else rest + [f]
  }

  lemma {:induction false} OpeningAppend(a: seq<Frame>, b: seq<Frame>, id: Id)
    ensures Opening(a + b, id) == Opening(a, id) + Opening(b, id)
  {
    if b == [] {
      assert a + b == a;
    } else {
      OpeningAppend(a, b[..|b| - 1], id);
      assert (a + b)[..|a + b| - 1] == a + b[..|b| - 1];
    }
  }

  /** Unless it has settled, the fold has taken what `x` says of the message. */
  ghost predicate Tracks(s: State, x: Follow, id: Id) {
    id !in s.done ==> ReadingOf(s.log, id) == x.reading && !x.settled
  }

  lemma RowsTrack(s: State, rows: seq<Held>, x: Follow, id: Id)
    requires Tracks(s, x, id)
    ensures Tracks(CompleteAll(s, rows), x, id)
  {
    hide ReadingOf, CompleteAll;
    CompleteAllFrame(s, rows);
    if id !in HeldIds(rows) {
      RowsRead(s, rows, id);
    }
  }

  lemma ReleaseTracks(s: State, anchor: Id, x: Follow, id: Id)
    requires Tracks(s, x, id)
    ensures Tracks(Release(s, anchor), x, id)
  {
    hide ReadingOf, CompleteAll;
    RowsTrack(s.(awaiting := Select(s.awaiting, {anchor}, false)), Select(s.awaiting, {anchor}, true), x, id);
  }

  lemma FlushTracks(s: State, coming: set<Id>, x: Follow, id: Id)
    requires Tracks(s, x, id)
    ensures Tracks(FlushUnless(s, coming), x, id)
  {
    hide ReadingOf, CompleteAll;
    RowsTrack(s.(awaiting := Select(s.awaiting, coming, true)), Select(s.awaiting, coming, false), x, id);
  }

  lemma FinTracks(s: State, item: Item, x: Follow, id: Id)
    requires Tracks(s, x, id)
    ensures Tracks(ItemCompleted(s, item), FollowFrom(x, Opening([Fin(item)], id), id), id)
  {
    hide ReadingOf, Complete, Release;
    One(x, Fin(item), id);
    var s1 := s.(streamedOutput := s.streamedOutput - {item.id});
    if Deferring(s1, item).None? {
      CompleteRead(s1, item, id);
      ReleaseTracks(Complete(s1, item), item.id, x, id);
    }
  }

  lemma One(x: Follow, f: Frame, id: Id)
    ensures FollowFrom(x, Opening([f], id), id) == if Settles(f, id) then x else NextFollow(x, f, id)
  {
    hide NextFollow, Settles;
    assert [f][..0] == [];
    assert [] + [f] == [f];
  }

  lemma PastTracks(s: State, item: Item, x: Follow, id: Id)
    requires Tracks(s, x, id)
    ensures Tracks(ReplayItem(s, item), FollowFrom(x, Opening([Past(item)], id), id), id)
  {
    hide ReadingOf, Snapshot, ItemCompleted, ReplayPrefix, ReplayMessage, ObserveWorkflow;
    One(x, Past(item), id);
    One(x, Fin(item), id);
    var s1 := s.(flows := ObserveWorkflow(s.flows, item, !InFlight(item)));
    if item.id in s.done {
    } else if InFlight(item) {
      InFlightTracks(s1, x, item, id);
    } else if IsMessage(item.kind) {
      DirectTracks(s1, x, item, id);
    } else {
      FinTracks(s1, item, x, id);
    }
  }

  lemma InFlightTracks(s: State, x: Follow, item: Item, id: Id)
    requires Tracks(s, x, id) && InFlight(item) && item.id !in s.done
    ensures var t := Snapshot(s, item);
      Tracks(if IsMessage(item.kind) then ReplayPrefix(t, item) else t, NextFollow(x, Past(item), id), id)
  {
    hide ReadingOf, Snapshot, ReplayPrefix;
    var t := Snapshot(s, item);
    SnapRead(s, item, id);
    if IsMessage(item.kind) {
      var marks := PrefixShape(t, item);
      FactRead(t, ReplayPrefix(t, item), if MessageText(item) == "" then [] else [Prefix(item)], marks, id);
    }
  }

  lemma DirectTracks(s: State, x: Follow, item: Item, id: Id)
    requires Tracks(s, x, id) && !InFlight(item) && IsMessage(item.kind)
    ensures Tracks(ReplayMessage(s, item), x, id)
  {
    hide ReadingOf, ReplayMessage;
    var marks := ReplayMessageShape(s, item);
    FactRead(s, ReplayMessage(s, item), [Settled(item, true)], marks, id);
  }

  lemma {:induction false} BatchTracks(s: State, x: Follow, batch: seq<Wire>, turn: Option<Id>, id: Id)
    requires Tracks(s, x, id)
    ensures Tracks(ReplayFrom(s, batch, turn), FollowFrom(x, Opening(BatchFrames(batch), id), id), id)
    decreases batch
  {
    hide FlushUnless, Release, ReplayItem, NextFollow, Tracks, Opening;
    if batch == [] {
      NoOpening(x, id);
    } else {
      var rest := BatchFrames(batch[1..]);
      FlushTracks(s, Ids(batch), x, id);
      var s1 := Boundary(s, batch, turn);
      var s2 := Consume(s1, batch[0]);
      if batch[0].Named? {
        var f := Past(batch[0].item);
        var y := FollowFrom(x, Opening([f], id), id);
        PastTracks(s1, batch[0].item, x, id);
        ReleaseTracks(ReplayItem(s1, batch[0].item), batch[0].item.id, y, id);
        BatchTracks(s2, y, batch[1..], NextTurn(batch[0], turn), id);
        OpeningAppend([f], rest, id);
        FollowThrough(x, Opening([f], id), Opening(rest, id), id);
      } else {
        assert BatchFrames(batch) == rest;
        BatchTracks(s2, x, batch[1..], NextTurn(batch[0], turn), id);
      }
    }
  }

  lemma NoOpening(x: Follow, id: Id)
    ensures FollowFrom(x, Opening([], id), id) == x
  {
  }

  lemma {:induction false} FollowThrough(x: Follow, a: seq<Frame>, b: seq<Frame>, id: Id)
    ensures FollowFrom(x, a + b, id) == FollowFrom(FollowFrom(x, a, id), b, id)
  {
    hide NextFollow;
    if b == [] {
      assert a + b == a;
    } else {
      FollowThrough(x, a, b[..|b| - 1], id);
      assert (a + b)[..|a + b| - 1] == a + b[..|b| - 1];
    }
  }

  lemma SnapTracks(s: State, x: Follow, item: Item, id: Id)
    requires Tracks(s, x, id)
    ensures Tracks(Snapshot(s, item), NextFollow(x, Snap(item), id), id)
  {
    hide ReadingOf, Snapshot;
    SnapRead(s, item, id);
  }

  lemma TextTracks(s: State, x: Follow, i: Id, field: Field, text: string, id: Id)
    requires Tracks(s, x, id)
    ensures Tracks(Delta(s, i, field, text), FollowFrom(x, Opening(FramesOf(DeltaEvent(i, field, text)), id), id), id)
  {
    hide ReadingOf, Delta, Wrote, FollowFrom, Opening, NextReading;
    var marks := DeltaShape(s, i, field, text);
    var fact := DeltaFact(s, i, field, text);
    FactRead(s, Delta(s, i, field, text), fact, marks, id);
    if field == Words && text != "" {
      One(x, Text(i, text), id);
      TextTaken(x.reading, i, text, id);
    } else {
      NoOpening(x, id);
      RoutedTaken(ReadingOf(s.log, id), i, text, id);
    }
  }

  lemma TextTaken(r: Reading, i: Id, text: string, id: Id)
    ensures NextReading(r, TextDelta(i, text), id) == if i == id then AfterText(r, text) else r
  {
  }

  lemma RoutedTaken(r: Reading, i: Id, text: string, id: Id)
    ensures NextReading(r, Routed(i, text), id) == r
  {
  }

  lemma StepTracks(s: State, x: Follow, e: Event, id: Id)
    requires Tracks(s, x, id)
    ensures Tracks(Step(s, e), FollowFrom(x, Opening(FramesOf(e), id), id), id)
  {
    hide Snapshot, Delta, ItemCompleted, ReplayFrom, FlushUnless, NextFollow, Opening, ReadingOf;
    hide SeedTask, SettleBackground, Disconnect, EndChildRead;
    NoOpening(x, id);
    match e
    case SnapshotEvent(w) =>
      if w.Named? {
        SnapTracks(s, x, w.item, id);
        One(x, Snap(w.item), id);
      }
    case DeltaEvent(i, field, text) => TextTracks(s, x, i, field, text, id);
    case CompletedEvent(w) => if w.Named? { FinTracks(s, w.item, x, id); }
    case HistoryEvent(batch) =>
      var s0 := s.(replaying := true);
      BatchTracks(s0, x, batch, None, id);
      FlushTracks(ReplayFrom(s0, batch, None), {}, FollowFrom(x, Opening(FramesOf(e), id), id), id);
    case TurnEnds => FlushTracks(s, {}, x, id);
    case _ => ControlTracks(s, x, e, id);
  }

  lemma ControlTracks(s: State, x: Follow, e: Event, id: Id)
    requires Tracks(s, x, id)
    requires !(e.SnapshotEvent? || e.DeltaEvent? || e.CompletedEvent? || e.HistoryEvent? || e.TurnEnds?)
    ensures Tracks(Step(s, e), x, id)
  {
    hide ReadingOf, Step;
    var marks := ControlShape(s, e);
    FactRead(s, Step(s, e), [], marks, id);
  }

  /** Over every run, whatever waits for what: until a message settles, what the fold has taken
      of it is what its other frames give. */
  lemma {:induction false} RunTracks(cfg: Config, events: seq<Event>, id: Id)
    ensures Tracks(Run(Fresh(cfg), events), FollowOf(Opening(Frames(events), id), id), id)
  {
    hide Step, FramesOf, NextFollow, Tracks, Opening;
    if events == [] {
      FreshTracks(cfg, id);
    } else {
      var rest, e := events[..|events| - 1], events[|events| - 1];
      RunTracks(cfg, rest, id);
      StepTracks(Run(Fresh(cfg), rest), FollowOf(Opening(Frames(rest), id), id), e, id);
      OpeningAppend(Frames(rest), FramesOf(e), id);
      FollowAppend(Opening(Frames(rest), id), Opening(FramesOf(e), id), id);
    }
  }

  lemma FreshTracks(cfg: Config, id: Id)
    ensures Tracks(Fresh(cfg), FollowOf(Opening(Frames([]), id), id), id)
  {
  }

  // ---------- every item is taken ----------

  lemma ItemTaken(s: State, item: Item)
    requires item.id !in s.done && InFlight(item)
    ensures Seen(item) in ReplayItem(s, item).log
  {
    hide Snapshot, ItemCompleted, ReplayPrefix, ReplayMessage, ObserveWorkflow;
    var s1 := s.(flows := ObserveWorkflow(s.flows, item, false));
    var marks := SnapshotShape(s1, item);
    var t := Snapshot(s1, item);
    assert t.log[|s.log|] == Seen(item);
    PrefixFrame(t, item);
    assert IsMessage(item.kind) ==> ReplayPrefix(t, item).log[|s.log|] == t.log[|s.log|];
  }

  /** Every in-flight item of a batch that has not settled by its end is recorded as seen. */
  lemma {:induction false} BatchTaken(s: State, batch: seq<Wire>, turn: Option<Id>, w: Wire)
    requires Anchored(s.awaiting) && w in batch && w.Named? && InFlight(w.item)
    requires w.item.id !in ReplayFrom(s, batch, turn).done
    ensures Seen(w.item) in ReplayFrom(s, batch, turn).log
    decreases batch
  {
    hide Boundary, Consume, ReplayItem, Release, InFlight;
    var s1 := Boundary(s, batch, turn);
    BoundaryGrows(s, batch, turn);
    var s2 := Consume(s1, batch[0]);
    ConsumeGrows(s1, batch[0]);
    var r := ReplayFrom(s2, batch[1..], NextTurn(batch[0], turn));
    ReplayGrows(s2, batch[1..], NextTurn(batch[0], turn));
    if batch[0] == w {
      ConsumeTaken(s1, w);
      var i :| 0 <= i < |s2.log| && s2.log[i] == Seen(w.item);
      assert r.log[i] == s2.log[i];
    } else {
      BatchTaken(s2, batch[1..], NextTurn(batch[0], turn), w);
    }
  }

  lemma ConsumeTaken(s: State, w: Wire)
    requires w.Named? && InFlight(w.item) && w.item.id !in s.done
    ensures Seen(w.item) in Consume(s, w).log
  {
    hide ReplayItem, Release, InFlight;
    ItemTaken(s, w.item);
    var t := ReplayItem(s, w.item);
    ReleaseFrame(t, w.item.id);
    var i :| 0 <= i < |t.log| && t.log[i] == Seen(w.item);
    assert Release(t, w.item.id).log[i] == t.log[i];
  }

  /** What an event shows of an item that has not settled is recorded: by a snapshot, or by a
      batch that carries it in flight. */
  lemma EveryItemTaken(s: State, e: Event, item: Item)
    requires Anchored(s.awaiting) && item.id !in s.done && item.id !in Step(s, e).done
    requires e == SnapshotEvent(Named(item)) || (e.HistoryEvent? && Named(item) in e.batch && InFlight(item))
    ensures Seen(item) in Step(s, e).log
  {
    hide Snapshot, ReplayFrom, FlushUnless, InFlight;
    if e.SnapshotEvent? {
      var marks := SnapshotShape(s, item);
      assert Snapshot(s, item).log[|s.log|] == Seen(item);
    } else {
      var s0 := s.(replaying := true);
      var s1 := ReplayFrom(s0, e.batch, None);
      FlushFrame(s1, {});
      BatchTaken(s0, e.batch, None, Named(item));
      var i :| 0 <= i < |s1.log| && s1.log[i] == Seen(item);
      assert Flush(s1).log[i] == s1.log[i];
    }
  }
}
