/**
 Rows held for an anchor: nothing completed is lost, and in a history batch a row anchored
 to an item of the batch settles only after that item arrived.
 */
module FoldRows {
  import opened Options
  import opened FoldTypes
  import opened Fold
  import opened FoldEffects

  // ---------- frames ----------

  /** The configuration, mode and held rows stay, and the log only grows. */
  ghost predicate Frame(s: State, r: State) {
    r.cfg == s.cfg && r.awaiting == s.awaiting && r.replaying == s.replaying && s.log <= r.log
  }

  lemma MarkCutOffFrame(s: State, item: Item)
    ensures var r := MarkCutOff(s, item); Frame(s, r) && r.done == s.done && r.items == s.items && NoSettle(s, r)
  {
    hide MarkableMessage;
  }

  /** The new entries settle nothing. */
  ghost predicate NoSettle(s: State, r: State) {
    forall i :: |s.log| <= i < |r.log| ==> !r.log[i].Settled?
  }

  lemma EffectsFrame(s: State, r: State, item: Item, kids: (Children, seq<Mark>), shells: (Shells, seq<Mark>),
                     tasks: (Tasks, seq<Mark>), before: seq<Mark>, after: seq<Mark>)
    requires Effects(s, r, item, kids, shells, tasks, before, after)
    requires OnlyOn(kids.1, Kids) && OnlyOn(shells.1, Terminals) && OnlyOn(tasks.1, Feed)
    requires forall i :: 0 <= i < |shells.1| ==> !shells.1[i].Settled?
    ensures Frame(s, r) && r.done == s.done && NoSettle(s, r)
    ensures forall x :: x != item.id ==> (x in r.items <==> x in s.items)
  {
    var marks := kids.1 + shells.1 + before + tasks.1 + after;
    assert r.log == s.log + marks;
    forall i | 0 <= i < |marks| ensures !marks[i].Settled? {
      assert Silent(before, Rows) && Silent(after, Rows);
      assert marks[i].Settled? ==> On(marks[i], Rows);
    }
    forall i | |s.log| <= i < |r.log| ensures !r.log[i].Settled? {
      assert r.log[i] == marks[i - |s.log|];
    }
  }

  /** A completion settles its item, and nothing else. */
  lemma CompleteFrame(s: State, item: Item)
    ensures var r := Complete(s, item);
      && Frame(s, r) && r.done == s.done + {item.id}
      && (forall x :: x != item.id ==> (x in r.items <==> x in s.items))
      && (forall i :: |s.log| <= i < |r.log| && r.log[i].Settled? ==> r.log[i] == Settled(item, false))
      && (item.id !in s.done ==> |s.log| < |r.log| && r.log[|s.log|] == Settled(item, false))
  {
    hide CompleteKind, MarkCutOff, Effects, KidsOf, CompleteShells, CompleteTasks, ObserveWorkflow;
    var s0 := Observed(s, item);
    var s1 := Settling(s0, item);
    if item.id in s.done {
      MarkCutOffFrame(s0, item);
    } else if item.kind == AgentMessage {
      ReplyFrame(s1, item);
      SettledOnce(s0, s1, Complete(s, item), item);
    } else {
      var before, after := CompleteKindEffects(s1, item);
      ShellEntries(s1, item);
      EffectsFrame(s1, CompleteKind(s1, item), item, KidsOf(s1, item), CompleteShells(s1, item), CompleteTasks(s1,
        item), before, after);
      SettledOnce(s0, s1, Complete(s, item), item);
    }
  }

  lemma SettledOnce(s0: State, s1: State, r: State, item: Item)
    requires s1 == Settling(s0, item) && Frame(s1, r) && NoSettle(s1, r)
    ensures forall i :: |s0.log| <= i < |r.log| && r.log[i].Settled? ==> r.log[i] == Settled(item, false)
    ensures |s0.log| < |r.log| && r.log[|s0.log|] == Settled(item, false)
    ensures s0.log <= r.log
  {
    assert s1.log[|s0.log|] == Settled(item, false);
    assert forall i :: 0 <= i < |s1.log| ==> r.log[i] == s1.log[i];
  }

  lemma ReplyFrame(s: State, item: Item)
    requires item.kind == AgentMessage
    ensures var r := CompleteKind(s, item);
      && Frame(s, r) && r.done == s.done && NoSettle(s, r)
      && forall x :: x != item.id ==> (x in r.items <==> x in s.items)
  {
    hide CompleteToolCall, CompleteHostCard, CompleteOther, ChildItem, CompleteReasoning, MonitorUpdate;
  }

  lemma ShellEntries(s: State, item: Item)
    ensures forall i :: 0 <= i < |CompleteShells(s, item).1| ==> !CompleteShells(s, item).1[i].Settled?
  {
    hide NoteShell, CardId;
  }

  lemma SnapshotFrame(s: State, item: Item)
    ensures var r := Snapshot(s, item);
      && Frame(s, r) && r.done == s.done && NoSettle(s, r)
      && (forall x :: x != item.id ==> (x in r.items <==> x in s.items))
  {
    hide SnapshotKind, MarkCutOff, Effects, KidsOf, SnapshotShells, SnapshotTasks, ObserveWorkflow;
    var s0 := s.(flows := ObserveWorkflow(s.flows, item, false));
    var s1 := Emit(s0, [Seen(item)]);
    if item.id in s.done {
      MarkCutOffFrame(s0, item);
    } else if IsMessage(item.kind) {
      MessageSnapshotFrame(s1, item);
    } else {
      var before, after := SnapshotKindEffects(s1, item);
      SnapshotEntries(s1, item);
      EffectsFrame(s1, SnapshotKind(s1, item), item, KidsOf(s1, item), SnapshotShells(s1, item), SnapshotTasks(s1,
        item), before, after);
    }
  }

  lemma SnapshotEntries(s: State, item: Item)
    ensures SnapshotShells(s, item).1 == []
  {
    hide NoteShell, CardId;
  }

  lemma MessageSnapshotFrame(s: State, item: Item)
    requires IsMessage(item.kind)
    ensures var r := SnapshotKind(s, item);
      && Frame(s, r) && r.done == s.done && NoSettle(s, r)
      && forall x :: x != item.id ==> (x in r.items <==> x in s.items)
  {
    hide SnapshotToolCall, SnapshotHostCard, SnapshotOther, ChildItem, MonitorUpdate, MarkCutOff;
    MarkCutOffFrame(OpenMessage(s, item.id), item);
  }

  // ---------- held rows ----------

  function HeldIds(rows: seq<Held>): set<Id> {
    set h | h in rows :: h.item.id
  }

  /** The settled and the held: everything completed so far. */
  function Covered(s: State): set<Id> {
    s.done + HeldIds(s.awaiting)
  }

  /** The entry settles one of the rows. */
  ghost predicate SettlesOneOf(m: Mark, rows: seq<Held>) {
    m.Settled? ==> exists h :: h in rows && m == Settled(h.item, false)
  }

  lemma {:induction false} CompleteAllFrame(s: State, rows: seq<Held>)
    ensures var r := CompleteAll(s, rows);
      && Frame(s, r) && r.done == s.done + HeldIds(rows)
      && (forall x :: x !in HeldIds(rows) ==> (x in r.items <==> x in s.items))
      && (forall i :: |s.log| <= i < |r.log| ==> SettlesOneOf(r.log[i], rows))
  {
    hide Complete;
    if rows != [] {
      var rest, h := rows[..|rows| - 1], rows[|rows| - 1];
      CompleteAllFrame(s, rest);
      var s1 := CompleteAll(s, rest);
      CompleteFrame(s1, h.item);
      var r := CompleteAll(s, rows);
      assert rows == rest + [h];
      assert HeldIds(rows) == HeldIds(rest) + {h.item.id};
      forall i | |s.log| <= i < |r.log| ensures SettlesOneOf(r.log[i], rows) {
        if i < |s1.log| {
          assert r.log[i] == s1.log[i];
          assert SettlesOneOf(s1.log[i], rest);
        }
      }
    }
  }

  lemma {:induction false} SelectSplits(rows: seq<Held>, anchors: set<Id>)
    ensures forall h :: h in Select(rows, anchors, true) <==> h in rows && h.anchor in anchors
    ensures forall h :: h in Select(rows, anchors, false) <==> h in rows && h.anchor !in anchors
    ensures HeldIds(Select(rows, anchors, true)) + HeldIds(Select(rows, anchors, false)) == HeldIds(rows)
  {
    if rows != [] {
      var rest := rows[..|rows| - 1];
      SelectSplits(rest, anchors);
      assert rows == rest + [rows[|rows| - 1]];
    }
  }

  /** Releasing an anchor settles exactly the rows held for it. */
  lemma ReleaseFrame(s: State, anchor: Id)
    ensures var r := Release(s, anchor);
      && r.cfg == s.cfg && r.replaying == s.replaying && s.log <= r.log
      && r.awaiting == Select(s.awaiting, {anchor}, false)
      && r.done == s.done + HeldIds(Select(s.awaiting, {anchor}, true))
      && Covered(r) == Covered(s)
      && (forall x :: x !in HeldIds(s.awaiting) ==> (x in r.items <==> x in s.items))
      && (forall i :: |s.log| <= i < |r.log| ==> SettlesOneOf(r.log[i], Select(s.awaiting, {anchor}, true)))
  {
    hide CompleteAll;
    var s1 := s.(awaiting := Select(s.awaiting, {anchor}, false));
    CompleteAllFrame(s1, Select(s.awaiting, {anchor}, true));
    SelectSplits(s.awaiting, {anchor});
  }

  /** A turn boundary settles exactly the rows whose anchor is not still to come. */
  lemma FlushFrame(s: State, coming: set<Id>)
    ensures var r := FlushUnless(s, coming);
      && r.cfg == s.cfg && r.replaying == s.replaying && s.log <= r.log
      && r.awaiting == Select(s.awaiting, coming, true)
      && r.done == s.done + HeldIds(Select(s.awaiting, coming, false))
      && Covered(r) == Covered(s)
      && (forall x :: x !in HeldIds(s.awaiting) ==> (x in r.items <==> x in s.items))
      && (forall i :: |s.log| <= i < |r.log| ==> SettlesOneOf(r.log[i], Select(s.awaiting, coming, false)))
  {
    hide CompleteAll;
    var s1 := s.(awaiting := Select(s.awaiting, coming, true));
    CompleteAllFrame(s1, Select(s.awaiting, coming, false));
    SelectSplits(s.awaiting, coming);
  }

  lemma {:induction false} NoneSelected(rows: seq<Held>)
    ensures Select(rows, {}, true) == []
  {
    if rows != [] { NoneSelected(rows[..|rows| - 1]); }
  }

  /** The end of a turn leaves nothing held: everything completed is settled. */
  lemma FlushSettlesAll(s: State)
    ensures Flush(s).awaiting == [] && Flush(s).done == Covered(s) && s.log <= Flush(s).log
  {
    hide CompleteAll, FlushUnless;
    FlushFrame(s, {});
    NoneSelected(s.awaiting);
    SelectSplits(s.awaiting, {});
  }

  /** The rows are held for the anchors their items name. */
  ghost predicate Anchored(rows: seq<Held>) {
    forall h :: h in rows ==> RowAnchor(h.item) == Some(h.anchor) && h.anchor != h.item.id
  }

  /** An item's arrival without the release that follows it. */
  ghost function Arrive(s: State, item: Item): State {
    var s1 := s.(flows := ObserveWorkflow(s.flows, item, !InFlight(item)));
    if item.id in s1.done then s1
    else if InFlight(item) then
      if IsMessage(item.kind) then ReplayPrefix(Snapshot(s1, item), item) else Snapshot(s1, item)
    else if IsMessage(item.kind) then ReplayMessage(s1, item)
    else
      var s2 := s1.(streamedOutput := s1.streamedOutput - {item.id});
      match Deferring(s2, item)
      case Some(anchor) => Hold(s2, anchor, item)
      case None => Complete(s2, item)
  }

  lemma ReplayItemArrives(s: State, item: Item)
    ensures ReplayItem(s, item) == Arrive(s, item) || ReplayItem(s, item) == Release(Arrive(s, item), item.id)
  {
    hide Snapshot, ReplayPrefix, ReplayMessage, Complete, Release, ObserveWorkflow, Hold, Deferring;
  }

  /** An item that arrives is settled, held, or still in flight; nothing held or settled is lost. */
  ghost predicate Arrived(s: State, r: State, item: Item) {
    && r.cfg == s.cfg && r.replaying == s.replaying && s.log <= r.log && Anchored(r.awaiting)
    && s.done <= r.done && Covered(s) <= Covered(r) && Covered(r) <= Covered(s) + {item.id}
    && (!InFlight(item) ==> item.id in Covered(r))
    && (forall x :: x != item.id ==> (x in r.items <==> x in s.items))
    && (forall i :: |s.log| <= i < |r.log| && r.log[i].Settled? && !r.log[i].direct ==>
          r.log[i].item == item && Deferring(s, item).None?)
  }

  lemma ArriveFrame(s: State, item: Item)
    requires Anchored(s.awaiting)
    ensures Arrived(s, Arrive(s, item), item)
  {
    hide Snapshot, ReplayPrefix, ReplayMessage, Complete, ObserveWorkflow, Hold;
    var s1 := s.(flows := ObserveWorkflow(s.flows, item, !InFlight(item)));
    if item.id in s.done {
    } else if InFlight(item) {
      SnapshotFrame(s1, item);
      PrefixFrame(Snapshot(s1, item), item);
    } else if IsMessage(item.kind) {
      ReplayMessageFrame(s1, item);
    } else {
      SettledArrives(s1.(streamedOutput := s1.streamedOutput - {item.id}), item);
    }
  }

  lemma SettledArrives(s: State, item: Item)
    requires Anchored(s.awaiting) && !InFlight(item)
    ensures Deferring(s, item).None? ==> Arrived(s, Complete(s, item), item)
    ensures Deferring(s, item).Some? ==> Arrived(s, Hold(s, Deferring(s, item).value, item), item)
  {
    hide Complete;
    CompleteFrame(s, item);
    if Deferring(s, item).Some? {
      HoldFrame(s, Deferring(s, item).value, item);
    }
  }

  lemma HoldFrame(s: State, anchor: Id, item: Item)
    ensures var r := Hold(s, anchor, item); Covered(r) == Covered(s) + {item.id}
  {
    var r := Hold(s, anchor, item);
    if r != s {
      assert HeldIds(r.awaiting) == HeldIds(s.awaiting) + {item.id};
    }
  }

  lemma PrefixFrame(s: State, item: Item)
    ensures var r := ReplayPrefix(s, item);
      && Frame(s, r) && r.done == s.done && NoSettle(s, r)
      && forall x :: x != item.id ==> (x in r.items <==> x in s.items)
  {
  }

  lemma ReplayMessageFrame(s: State, item: Item)
    ensures var r := ReplayMessage(s, item);
      && Frame(s, r) && r.done == s.done + {item.id} && r.items == s.items
      && forall i :: |s.log| <= i < |r.log| && r.log[i].Settled? ==> r.log[i] == Settled(item, true)
  {
  }

  // ---------- order in a history batch ----------

  /** A held row settling: one whose item is anchored to `a`. */
  ghost predicate RowOf(m: Mark, a: Id) {
    m.Settled? && !m.direct && RowAnchor(m.item) == Some(a) && m.item.id != a
  }

  /** No row anchored to `a` settles between the two states. */
  ghost predicate Spares(s: State, r: State, a: Id) {
    s.log <= r.log && forall i :: |s.log| <= i < |r.log| ==> !RowOf(r.log[i], a)
  }

  lemma SparesTransitive(s: State, t: State, r: State, a: Id)
    requires Spares(s, t, a) && Spares(t, r, a)
    ensures Spares(s, r, a)
  {
    assert forall i :: 0 <= i < |t.log| ==> r.log[i] == t.log[i];
  }

  /** `a` is unknown: neither shown, settled nor held. */
  ghost predicate Unknown(s: State, a: Id) {
    a !in s.items && a !in Covered(s)
  }

  /** A boundary keeps waiting for an anchor the batch still carries. */
  lemma BoundarySpares(s: State, batch: seq<Wire>, turn: Option<Id>, a: Id)
    requires batch != [] && Anchored(s.awaiting) && a in Ids(batch)
    ensures var r := Boundary(s, batch, turn);
      && Spares(s, r, a) && Anchored(r.awaiting) && (Unknown(s, a) ==> Unknown(r, a))
      && Covered(r) == Covered(s) && s.done <= r.done && r.replaying == s.replaying
  {
    hide FlushUnless;
    FlushFrame(s, Ids(batch));
    SelectSplits(s.awaiting, Ids(batch));
    var rows := Select(s.awaiting, Ids(batch), false);
    RowsSpare(s, FlushUnless(s, Ids(batch)), rows, a);
  }

  /** Settling rows held for other anchors settles no row of `a`. */
  lemma RowsSpare(s: State, r: State, rows: seq<Held>, a: Id)
    requires s.log <= r.log && Anchored(rows) && forall h :: h in rows ==> h.anchor != a
    requires forall i :: |s.log| <= i < |r.log| ==> SettlesOneOf(r.log[i], rows)
    ensures Spares(s, r, a)
  {
    forall i | |s.log| <= i < |r.log| ensures !RowOf(r.log[i], a) {
      assert SettlesOneOf(r.log[i], rows);
    }
  }

  lemma ReleaseSpares(s: State, anchor: Id, a: Id)
    requires Anchored(s.awaiting) && anchor != a
    ensures var r := Release(s, anchor);
      Spares(s, r, a) && Anchored(r.awaiting) && (Unknown(s, a) ==> Unknown(r, a))
  {
    hide Release;
    ReleaseFrame(s, anchor);
    SelectSplits(s.awaiting, {anchor});
    RowsSpare(s, Release(s, anchor), Select(s.awaiting, {anchor}, true), a);
  }

  /** Any other item may arrive before the anchor: no row of the anchor settles. */
  lemma ConsumeSpares(s: State, w: Wire, a: Id)
    requires Anchored(s.awaiting) && Unknown(s, a) && (w.Named? ==> w.item.id != a)
    ensures var r := Consume(s, w); Spares(s, r, a) && Anchored(r.awaiting) && Unknown(r, a)
  {
    hide Release, ReplayItem, Arrive;
    if w.Named? {
      var id := w.item.id;
      var s1 := Arrive(s, w.item);
      ArriveFrame(s, w.item);
      ReplayItemArrives(s, w.item);
      assert Spares(s, s1, a) && Unknown(s1, a);
      ReleaseSpares(s1, id, a);
      var s2 := ReplayItem(s, w.item);
      if s2 != s1 { SparesTransitive(s, s1, s2, a); }
      ReleaseSpares(s2, id, a);
      SparesTransitive(s, s2, Release(s2, id), a);
    }
  }

  /** The state when item `j` of the batch has just arrived. */
  ghost function Upto(s: State, batch: seq<Wire>, turn: Option<Id>, j: nat): State
    requires j < |batch| && batch[j].Named?
    decreases j
  {
    var s1 := Boundary(s, batch, turn);
    if j == 0 then Arrive(s1, batch[0].item)
    else Upto(Consume(s1, batch[0]), batch[1..], NextTurn(batch[0], turn), j - 1)
  }

  /** `j` is where the batch first carries `a`. */
  ghost predicate FirstAt(batch: seq<Wire>, j: nat, a: Id) {
    j < |batch| && batch[j].Named? && batch[j].item.id == a
    && forall i :: 0 <= i < j ==> !(batch[i].Named? && batch[i].item.id == a)
  }

  lemma {:induction false} UptoSpares(s: State, batch: seq<Wire>, turn: Option<Id>, j: nat, a: Id)
    requires Anchored(s.awaiting) && Unknown(s, a) && FirstAt(batch, j, a)
    ensures var r := Upto(s, batch, turn, j); Spares(s, r, a) && r.log <= ReplayFrom(s, batch, turn).log
    decreases j
  {
    hide Boundary, Consume, Arrive, ReplayItem, Release;
    assert batch[j] in batch;
    var s1 := Boundary(s, batch, turn);
    BoundarySpares(s, batch, turn, a);
    if j == 0 {
      var s2 := Arrive(s1, batch[0].item);
      ArriveFrame(s1, batch[0].item);
      SparesTransitive(s, s1, s2, a);
      ConsumeGrows(s1, batch[0]);
      ReplayGrows(Consume(s1, batch[0]), batch[1..], NextTurn(batch[0], turn));
    } else {
      ConsumeSpares(s1, batch[0], a);
      var s2 := Consume(s1, batch[0]);
      assert FirstAt(batch[1..], j - 1, a) by {
        assert forall i :: 0 <= i < j - 1 ==> batch[1..][i] == batch[i + 1];
      }
      UptoSpares(s2, batch[1..], NextTurn(batch[0], turn), j - 1, a);
      SparesTransitive(s, s1, s2, a);
      SparesTransitive(s, s2, Upto(s, batch, turn, j), a);
    }
  }

  lemma ConsumeGrows(s: State, w: Wire)
    requires Anchored(s.awaiting)
    ensures var r := Consume(s, w);
      && s.log <= r.log && Anchored(r.awaiting) && s.done <= r.done && Covered(s) <= Covered(r)
      && r.replaying == s.replaying && r.cfg == s.cfg
      && (w.Named? ==> Arrive(s, w.item).log <= r.log)
      && (w.Named? && !InFlight(w.item) ==> w.item.id in Covered(r))
  {
    hide Release, ReplayItem, Arrive;
    if w.Named? {
      var id := w.item.id;
      var s1 := Arrive(s, w.item);
      ArriveFrame(s, w.item);
      ReplayItemArrives(s, w.item);
      ReleaseFrame(s1, id);
      SelectSplits(s1.awaiting, {id});
      var s2 := ReplayItem(s, w.item);
      ReleaseFrame(s2, id);
      SelectSplits(s2.awaiting, {id});
    }
  }

  lemma BoundaryGrows(s: State, batch: seq<Wire>, turn: Option<Id>)
    requires batch != [] && Anchored(s.awaiting)
    ensures var r := Boundary(s, batch, turn);
      && s.log <= r.log && Anchored(r.awaiting) && s.done <= r.done && Covered(r) == Covered(s)
      && r.replaying == s.replaying && r.cfg == s.cfg
  {
    hide FlushUnless, Covered;
    FlushFrame(s, Ids(batch));
    SelectSplits(s.awaiting, Ids(batch));
  }

  /** Everything a batch carries settled, and everything covered before, is covered after it. */
  lemma {:induction false} ReplayGrows(s: State, batch: seq<Wire>, turn: Option<Id>)
    requires Anchored(s.awaiting)
    ensures var r := ReplayFrom(s, batch, turn);
      && s.log <= r.log && Anchored(r.awaiting) && s.done <= r.done && Covered(s) <= Covered(r)
      && r.replaying == s.replaying && r.cfg == s.cfg
      && forall w :: w in batch && w.Named? && !InFlight(w.item) ==> w.item.id in Covered(r)
    decreases batch
  {
    hide Boundary, Consume, Covered;
    if batch != [] {
      var s1 := Boundary(s, batch, turn);
      BoundaryGrows(s, batch, turn);
      ConsumeGrows(s1, batch[0]);
      ReplayGrows(Consume(s1, batch[0]), batch[1..], NextTurn(batch[0], turn));
      assert forall w :: w in batch ==> w == batch[0] || w in batch[1..];
    }
  }

  /**
   Order: in a history batch, no row anchored to an item that the batch carries, and that
   was unknown before, settles until that item has arrived, whatever turn boundaries lie
   between; and every such row is settled when the batch ends.
   */
  lemma RowsFollowTheirAnchor(s: State, batch: seq<Wire>, j: nat, a: Id)
    requires Anchored(s.awaiting) && Unknown(s, a) && FirstAt(batch, j, a)
    ensures var at := Upto(s.(replaying := true), batch, None, j);
      var r := Replay(s, batch);
      && at.log <= r.log
      && (forall i :: |s.log| <= i < |r.log| && RowOf(r.log[i], a) ==> |at.log| <= i)
      && (forall w :: w in batch && w.Named? && !InFlight(w.item) ==> w.item.id in r.done)
      && r.awaiting == []
  {
    hide Upto, ReplayFrom, FlushUnless;
    var s0 := s.(replaying := true);
    assert Unknown(s0, a);
    UptoSpares(s0, batch, None, j, a);
    ReplayGrows(s0, batch, None);
    var s1 := ReplayFrom(s0, batch, None);
    FlushSettlesAll(s1);
    var at := Upto(s0, batch, None, j);
    assert forall i :: |s.log| <= i < |at.log| ==> at.log[i] == Replay(s, batch).log[i];
  }

  /** A settled row that waits for nothing settles when it arrives. */
  lemma AnchorSettlesOnArrival(s: State, item: Item)
    requires !InFlight(item) && !IsMessage(item.kind) && item.id !in s.done && Deferring(s, item).None?
    ensures var r := Arrive(s, item); |s.log| < |r.log| && r.log[|s.log|] == Settled(item, false)
  {
    hide Complete, ObserveWorkflow;
    var s1 := s.(flows := ObserveWorkflow(s.flows, item, true), streamedOutput := s.streamedOutput - {item.id});
    CompleteFrame(s1, item);
  }

  /** Where such a row of a batch settles: when it arrives, at the latest. */
  lemma {:induction false} UptoSettles(s: State, batch: seq<Wire>, turn: Option<Id>, j: nat, a: Id) returns (p: nat)
    requires Anchored(s.awaiting) && Unknown(s, a) && FirstAt(batch, j, a)
    requires var item := batch[j].item; !InFlight(item) && !IsMessage(item.kind) && RowAnchor(item).None?
    ensures var r := Upto(s, batch, turn, j);
      |s.log| <= p < |r.log| && r.log[p] == Settled(batch[j].item, false)
    decreases j
  {
    hide Boundary, Consume, Arrive, InFlight, IsMessage, RowAnchor;
    assert batch[j] in batch;
    var s1 := Boundary(s, batch, turn);
    BoundarySpares(s, batch, turn, a);
    if j == 0 {
      AnchorSettlesOnArrival(s1, batch[0].item);
      p := |s1.log|;
    } else {
      ConsumeSpares(s1, batch[0], a);
      var s2 := Consume(s1, batch[0]);
      assert FirstAt(batch[1..], j - 1, a) by {
        assert forall i :: 0 <= i < j - 1 ==> batch[1..][i] == batch[i + 1];
      }
      p := UptoSettles(s2, batch[1..], NextTurn(batch[0], turn), j - 1, a);
    }
  }

  /**
   Order, row by row: an anchor that a history batch carries as a settled, unanchored row
   settles in that batch, and every row anchored to it that settles in the batch does so
   later, whatever turn boundaries lie between.
   */
  lemma AnchorBeforeItsRows(s: State, batch: seq<Wire>, j: nat, a: Id) returns (p: nat)
    requires Anchored(s.awaiting) && Unknown(s, a) && FirstAt(batch, j, a)
    requires var item := batch[j].item; !InFlight(item) && !IsMessage(item.kind) && RowAnchor(item).None?
    ensures var r := Replay(s, batch);
      && |s.log| <= p < |r.log| && r.log[p] == Settled(batch[j].item, false)
      && (forall i :: |s.log| <= i < |r.log| && RowOf(r.log[i], a) ==> p < i)
  {
    hide Upto, Replay, RowOf, InFlight, IsMessage, RowAnchor;
    var s0 := s.(replaying := true);
    RowsFollowTheirAnchor(s, batch, j, a);
    p := UptoSettles(s0, batch, None, j, a);
    assert Upto(s0, batch, None, j).log[p] == Replay(s, batch).log[p];
  }

  // ---------- nothing is lost ----------

  lemma ItemCompletedCovers(s: State, item: Item)
    requires Anchored(s.awaiting)
    ensures var r := ItemCompleted(s, item);
      && s.log <= r.log && Anchored(r.awaiting) && s.done <= r.done && Covered(s) <= Covered(r)
      && item.id in Covered(r)
  {
    hide Complete, Release;
    var s1 := s.(streamedOutput := s.streamedOutput - {item.id});
    CompleteFrame(s1, item);
    var anchor := Deferring(s1, item);
    if anchor.Some? {
      HoldFrame(s1, anchor.value, item);
    } else {
      var s2 := Complete(s1, item);
      ReleaseFrame(s2, item.id);
      SelectSplits(s2.awaiting, {item.id});
    }
  }

  lemma DeltaFrame(s: State, id: Id, field: Field, delta: string)
    ensures Frame(s, Delta(s, id, field, delta)) && Delta(s, id, field, delta).done == s.done
  {
    hide TerminalDelta, Budgeted;
  }

  /** What every event keeps: settled items stay settled, held rows are held or settled, and a
      completed item is one or the other. */
  ghost predicate Keeps(s: State, r: State) {
    s.log <= r.log && Anchored(r.awaiting) && s.done <= r.done && Covered(s) <= Covered(r)
  }

  lemma StepCovers(s: State, e: Event)
    requires Anchored(s.awaiting)
    ensures Keeps(s, Step(s, e))
    ensures e.CompletedEvent? && e.wire.Named? ==> e.wire.item.id in Covered(Step(s, e))
    ensures e.HistoryEvent? ==>
      forall w :: w in e.batch && w.Named? && !InFlight(w.item) ==> w.item.id in Step(s, e).done
    ensures e.HistoryEvent? || e.TurnEnds? ==> Step(s, e).awaiting == []
  {
    hide Snapshot, Delta, ItemCompleted, ReplayFrom, FlushUnless, SeedTask, SettleBackground, Disconnect, EndChildRead;
    match e
    case SnapshotEvent(w) => if w.Named? { SnapshotFrame(s, w.item); }
    case DeltaEvent(id, field, text) => DeltaFrame(s, id, field, text);
    case CompletedEvent(w) => if w.Named? { ItemCompletedCovers(s, w.item); }
    case HistoryEvent(batch) =>
      ReplayGrows(s.(replaying := true), batch, None);
      FlushSettlesAll(ReplayFrom(s.(replaying := true), batch, None));
    case TurnEnds => FlushSettlesAll(s);
    case _ =>
  }

  lemma {:induction false} RunCovers(s: State, events: seq<Event>)
    requires Anchored(s.awaiting)
    ensures Keeps(s, Run(s, events))
    ensures forall e :: e in events && e.CompletedEvent? && e.wire.Named? ==> e.wire.item.id in Covered(Run(s, events))
  {
    hide Step, Covered;
    if events != [] {
      var rest := events[..|events| - 1];
      RunCovers(s, rest);
      StepCovers(Run(s, rest), events[|events| - 1]);
      assert events == rest + [events[|events| - 1]];
    }
  }
}
