/**
 Workflow listings: every event changes them by observations alone, a superseded run never
 comes back, and a listed run's revision only falls at a resume.
 */
module FoldFlows {
  import opened Options
  import opened FoldTypes
  import opened Fold
  import opened FoldEffects
  import FoldRows

  datatype Sighting = Sighting(item: Item, completed: bool)

  function ObserveAll(f: Flows, seen: seq<Sighting>): Flows {
    if seen == [] then f
    else
      var last := seen[|seen| - 1];
      ObserveWorkflow(ObserveAll(f, seen[..|seen| - 1]), last.item, last.completed)
  }

  lemma {:induction false} ObserveAppend(f: Flows, a: seq<Sighting>, b: seq<Sighting>)
    ensures ObserveAll(f, a + b) == ObserveAll(ObserveAll(f, a), b)
  {
    if b == [] {
      assert a + b == a;
    } else {
      ObserveAppend(f, a, b[..|b| - 1]);
      assert (a + b)[..|a + b| - 1] == a + b[..|b| - 1];
    }
  }

  /** A sighting that starts a new generation of the run. */
  predicate Resumes(o: Sighting, run: Id) {
    o.item.runId == run && o.item.resumeFrom != ""
  }

  lemma ObserveStep(f: Flows, item: Item, completed: bool)
    requires f.listed.Keys !! f.superseded
    ensures var g := ObserveWorkflow(f, item, completed);
      && f.superseded <= g.superseded
      && g.listed.Keys !! g.superseded
      && (forall run :: run in f.listed && run in g.listed && !Resumes(Sighting(item, completed), run) ==>
            f.listed[run].revision <= g.listed[run].revision)
  {
  }

  /** Whatever is observed, a superseded run stays superseded and is not listed. */
  lemma {:induction false} SupersededForever(f: Flows, seen: seq<Sighting>)
    requires f.listed.Keys !! f.superseded
    ensures var g := ObserveAll(f, seen); f.superseded <= g.superseded && g.listed.Keys !! g.superseded
  {
    if seen != [] {
      SupersededForever(f, seen[..|seen| - 1]);
      var last := seen[|seen| - 1];
      ObserveStep(ObserveAll(f, seen[..|seen| - 1]), last.item, last.completed);
    }
  }

  /** While a run stays listed and is not resumed, its revision never falls. */
  lemma {:induction false} RevisionsRise(f: Flows, seen: seq<Sighting>, run: Id)
    requires f.listed.Keys !! f.superseded
    requires forall i :: 0 <= i <= |seen| ==> run in ObserveAll(f, seen[..i]).listed
    requires forall o :: o in seen ==> !Resumes(o, run)
    ensures run in f.listed && run in ObserveAll(f, seen).listed
    ensures f.listed[run].revision <= ObserveAll(f, seen).listed[run].revision
  {
    assert seen[..|seen|] == seen && ObserveAll(f, seen[..0]) == f;
    if seen != [] {
      var rest, last := seen[..|seen| - 1], seen[|seen| - 1];
      assert forall i :: 0 <= i <= |rest| ==> rest[..i] == seen[..i];
      RevisionsRise(f, rest, run);
      SupersededForever(f, rest);
      ObserveStep(ObserveAll(f, rest), last.item, last.completed);
    }
  }

  /** A sighting that ends the run, resumes it, or supersedes it. */
  predicate Disturbs(o: Sighting, run: Id) {
    || (o.item.runId == run && (o.completed || o.item.status in {Completed, Failed, Cancelled}))
    || (o.item.runId == run && o.item.resumeFrom != "")
    || (o.item.resumeFrom == run && o.item.runId != run)
  }

  /** An undisturbed run stays listed, and its revision never falls. */
  lemma {:induction false} Undisturbed(f: Flows, seen: seq<Sighting>, run: Id)
    requires f.listed.Keys !! f.superseded && run in f.listed
    requires forall o :: o in seen ==> !Disturbs(o, run)
    ensures var g := ObserveAll(f, seen);
      run in g.listed && f.listed[run].revision <= g.listed[run].revision
  {
    if seen != [] {
      var rest, last := seen[..|seen| - 1], seen[|seen| - 1];
      assert last in seen;
      Undisturbed(f, rest, run);
      SupersededForever(f, rest);
      ObserveStep(ObserveAll(f, rest), last.item, last.completed);
    }
  }

  // ---------- what the events can show ----------

  /** The sightings that held rows will make when they settle. */
  ghost function HeldSightings(rows: seq<Held>): set<Sighting> {
    set h | h in rows :: Sighting(h.item, true)
  }

  ghost function BatchSightings(batch: seq<Wire>): set<Sighting> {
    set w | w in batch && w.Named? :: Sighting(w.item, !InFlight(w.item))
  }

  ghost function EventSightings(e: Event): set<Sighting> {
    match e
    case SnapshotEvent(w) => if w.Named? then {Sighting(w.item, false)} else {}
    case CompletedEvent(w) => if w.Named? then {Sighting(w.item, true)} else {}
    case HistoryEvent(batch) => BatchSightings(batch)
    case _ => {}
  }

  ghost function Sightings(events: seq<Event>): set<Sighting> {
    if events == [] then {} else Sightings(events[..|events| - 1]) + EventSightings(events[|events| - 1])
  }

  /** In this order among others. */
  predicate Within(a: seq<Sighting>, b: seq<Sighting>) {
    if a == [] then true
    else if b == [] then false
    else
      || (a[|a| - 1] == b[|b| - 1] && Within(a[..|a| - 1], b[..|b| - 1]))
      || Within(a, b[..|b| - 1])
  }

  lemma {:induction false} WithinAppend(a: seq<Sighting>, b: seq<Sighting>, c: seq<Sighting>, d: seq<Sighting>)
    requires Within(a, b) && Within(c, d)
    ensures Within(a + c, b + d)
    decreases |d|
  {
    if d == [] {
      assert a + c == a && b + d == b;
    } else {
      assert (b + d)[..|b + d| - 1] == b + d[..|d| - 1];
      if c != [] && c[|c| - 1] == d[|d| - 1] && Within(c[..|c| - 1], d[..|d| - 1]) {
        assert (a + c)[..|a + c| - 1] == a + c[..|c| - 1];
        WithinAppend(a, b, c[..|c| - 1], d[..|d| - 1]);
      } else {
        WithinAppend(a, b, c, d[..|d| - 1]);
      }
    }
  }

  lemma WithinFirst(o: Sighting, rest: seq<Sighting>)
    ensures Within([o], [o] + rest)
  {
    assert [o][..0] == [] && Within([o], [o]);
    WithinAppend([o], [o], [], rest);
    assert [o] + [] == [o];
  }

  /** The observations an event makes for certain: of every snapshot, of every item of a batch,
      and of every completion that names no other item to wait for. */
  function BatchDue(batch: seq<Wire>): seq<Sighting> {
    if batch == [] then []
    else
      (if batch[0].Named? then [Sighting(batch[0].item, !InFlight(batch[0].item))] else []) + BatchDue(batch[1..])
  }

  function DueOf(e: Event): seq<Sighting> {
    match e
    case SnapshotEvent(w) => if w.Named? then [Sighting(w.item, false)] else []
    case CompletedEvent(w) => if w.Named? && RowAnchor(w.item).None? then [Sighting(w.item, true)] else []
    case HistoryEvent(batch) => BatchDue(batch)
    case _ => []
  }

  function Due(events: seq<Event>): seq<Sighting> {
    if events == [] then [] else Due(events[..|events| - 1]) + DueOf(events[|events| - 1])
  }

  lemma SelectHeld(rows: seq<Held>, anchors: set<Id>, inside: bool)
    ensures HeldSightings(Select(rows, anchors, inside)) <= HeldSightings(rows)
  {
    hide Select;
    FoldRows.SelectSplits(rows, anchors);
  }

  // ---------- every event only observes ----------

  lemma MarkCutOffFlows(s: State, item: Item)
    ensures MarkCutOff(s, item).flows == s.flows
  {
    hide MarkableMessage;
  }

  lemma CompleteFlows(s: State, item: Item)
    ensures Complete(s, item).flows == ObserveWorkflow(s.flows, item, true)
  {
    hide CompleteKind, MarkCutOff, KidsOf, CompleteShells, CompleteTasks, ObserveWorkflow, Settling;
    var s0 := Observed(s, item);
    var s1 := Settling(s0, item);
    SettlingFlows(s0, item);
    if item.id in s.done {
      MarkCutOffFlows(s0, item);
    } else if item.kind == AgentMessage {
      ReplyFlows(s1, item);
    } else {
      var before, after := CompleteKindEffects(s1, item);
    }
  }

  lemma SettlingFlows(s: State, item: Item)
    ensures Settling(s, item).flows == s.flows
  {
  }

  lemma ReplyFlows(s: State, item: Item)
    requires item.kind == AgentMessage
    ensures CompleteKind(s, item).flows == s.flows
  {
    hide CompleteToolCall, CompleteHostCard, CompleteOther, ChildItem, CompleteReasoning, MonitorUpdate;
  }

  lemma SnapshotFlows(s: State, item: Item)
    ensures Snapshot(s, item).flows == ObserveWorkflow(s.flows, item, false)
  {
    hide SnapshotKind, MarkCutOff, KidsOf, SnapshotShells, SnapshotTasks, ObserveWorkflow;
    var s0 := s.(flows := ObserveWorkflow(s.flows, item, false));
    var s1 := Emit(s0, [Seen(item)]);
    if item.id in s.done {
      MarkCutOffFlows(s0, item);
    } else if IsMessage(item.kind) {
      MessageFlows(s1, item);
    } else {
      var before, after := SnapshotKindEffects(s1, item);
    }
  }

  lemma MessageFlows(s: State, item: Item)
    requires IsMessage(item.kind)
    ensures SnapshotKind(s, item).flows == s.flows
  {
    hide SnapshotToolCall, SnapshotHostCard, SnapshotOther, ChildItem, MonitorUpdate, MarkCutOff;
    MarkCutOffFlows(OpenMessage(s, item.id), item);
  }

  /** The state observed what `seen` lists, all of it from `pool`, and holds no other rows. */
  ghost predicate Observes(s: State, r: State, seen: seq<Sighting>, pool: set<Sighting>) {
    && r.flows == ObserveAll(s.flows, seen)
    && (forall o :: o in seen ==> o in pool)
    && HeldSightings(r.awaiting) <= pool
  }

  lemma ObservedThrough(s: State, t: State, r: State, a: seq<Sighting>, b: seq<Sighting>, pool: set<Sighting>)
    requires Observes(s, t, a, pool) && Observes(t, r, b, pool)
    ensures Observes(s, r, a + b, pool)
  {
    ObserveAppend(s.flows, a, b);
  }

  /** Nothing was observed and nothing new is held. */
  lemma ObservedNothing(s: State, r: State, pool: set<Sighting>)
    requires r.flows == s.flows && r.awaiting == s.awaiting && HeldSightings(s.awaiting) <= pool
    ensures Observes(s, r, [], pool)
  {
  }

  lemma ObservedOne(s: State, r: State, o: Sighting, pool: set<Sighting>)
    requires r.flows == ObserveWorkflow(s.flows, o.item, o.completed) && o in pool && HeldSightings(r.awaiting) <= pool
    ensures Observes(s, r, [o], pool)
  {
    hide ObserveWorkflow;
    assert [o][..0] == [];
    assert ObserveAll(s.flows, [o]) == ObserveWorkflow(ObserveAll(s.flows, []), o.item, o.completed);
  }

  lemma {:induction false} CompleteAllFlows(s: State, rows: seq<Held>) returns (seen: seq<Sighting>)
    ensures CompleteAll(s, rows).flows == ObserveAll(s.flows, seen)
    ensures forall o :: o in seen ==> o in HeldSightings(rows)
  {
    hide Complete, ObserveWorkflow;
    seen := [];
    if rows != [] {
      var rest := CompleteAllFlows(s, rows[..|rows| - 1]);
      var item := rows[|rows| - 1].item;
      CompleteFlows(CompleteAll(s, rows[..|rows| - 1]), item);
      seen := rest + [Sighting(item, true)];
      assert seen[..|seen| - 1] == rest;
      assert rows == rows[..|rows| - 1] + [rows[|rows| - 1]];
    }
  }

  lemma ReleaseFlows(s: State, anchor: Id, pool: set<Sighting>) returns (seen: seq<Sighting>)
    requires HeldSightings(s.awaiting) <= pool
    ensures Observes(s, Release(s, anchor), seen, pool)
  {
    hide CompleteAll, ObserveAll;
    seen := CompleteAllFlows(s.(awaiting := Select(s.awaiting, {anchor}, false)), Select(s.awaiting, {anchor}, true));
    SelectHeld(s.awaiting, {anchor}, true);
    SelectHeld(s.awaiting, {anchor}, false);
    FoldRows.ReleaseFrame(s, anchor);
  }

  lemma FlushFlows(s: State, coming: set<Id>, pool: set<Sighting>) returns (seen: seq<Sighting>)
    requires HeldSightings(s.awaiting) <= pool
    ensures Observes(s, FlushUnless(s, coming), seen, pool)
  {
    hide CompleteAll, ObserveAll;
    seen := CompleteAllFlows(s.(awaiting := Select(s.awaiting, coming, true)), Select(s.awaiting, coming, false));
    SelectHeld(s.awaiting, coming, true);
    SelectHeld(s.awaiting, coming, false);
    FoldRows.FlushFrame(s, coming);
  }

  lemma ItemCompletedFlows(s: State, item: Item, pool: set<Sighting>) returns (seen: seq<Sighting>)
    requires HeldSightings(s.awaiting) <= pool && Sighting(item, true) in pool
    ensures Observes(s, ItemCompleted(s, item), seen, pool)
    ensures RowAnchor(item).None? ==> Within([Sighting(item, true)], seen)
  {
    hide Complete, Release, ObserveWorkflow, Observes, Within;
    var s1 := s.(streamedOutput := s.streamedOutput - {item.id});
    if Deferring(s1, item).None? {
      var t := Complete(s1, item);
      CompleteFlows(s1, item);
      FoldRows.CompleteFrame(s1, item);
      ObservedOne(s, t, Sighting(item, true), pool);
      var rest := ReleaseFlows(t, item.id, pool);
      ObservedThrough(s, t, Release(t, item.id), [Sighting(item, true)], rest, pool);
      seen := [Sighting(item, true)] + rest;
      WithinFirst(Sighting(item, true), rest);
    } else {
      seen := [];
      HeldNothingSeen(s, item, pool);
    }
  }

  lemma HeldNothingSeen(s: State, item: Item, pool: set<Sighting>)
    requires HeldSightings(s.awaiting) <= pool && Sighting(item, true) in pool && Deferring(s, item).Some?
    ensures Observes(s, ItemCompleted(s, item), [], pool)
  {
    hide Complete, Release;
  }

  lemma ReplayItemFlows(s: State, item: Item, pool: set<Sighting>) returns (seen: seq<Sighting>)
    requires HeldSightings(s.awaiting) <= pool && Sighting(item, !InFlight(item)) in pool
    ensures Observes(s, ReplayItem(s, item), seen, pool)
    ensures Within([Sighting(item, !InFlight(item))], seen)
  {
    hide Snapshot, ItemCompleted, ObserveWorkflow, Observes, ReplayPrefix, ReplayMessage, Within;
    var one := Sighting(item, !InFlight(item));
    var s1 := s.(flows := ObserveWorkflow(s.flows, item, !InFlight(item)));
    var r := ReplayItem(s, item);
    ObservedOne(s, s1, one, pool);
    var rest: seq<Sighting>;
    if item.id in s.done {
      rest := [];
      ObservedNothing(s1, r, pool);
    } else if InFlight(item) {
      rest := [Sighting(item, false)];
      SnapshotFlows(s1, item);
      FoldRows.SnapshotFrame(s1, item);
      PrefixFlows(Snapshot(s1, item), item);
      ObservedOne(s1, r, Sighting(item, false), pool);
    } else if IsMessage(item.kind) {
      rest := [];
      ReplayMessageFlows(s1, item);
      ObservedNothing(s1, r, pool);
    } else {
      rest := ItemCompletedFlows(s1, item, pool);
    }
    ObservedThrough(s, s1, r, [one], rest, pool);
    seen := [one] + rest;
    WithinFirst(one, rest);
  }

  lemma ReplayMessageFlows(s: State, item: Item)
    ensures ReplayMessage(s, item).flows == s.flows && ReplayMessage(s, item).awaiting == s.awaiting
  {
  }

  lemma PrefixFlows(s: State, item: Item)
    ensures ReplayPrefix(s, item).flows == s.flows && ReplayPrefix(s, item).awaiting == s.awaiting
  {
  }

  lemma BoundaryFlows(s: State, batch: seq<Wire>, turn: Option<Id>, pool: set<Sighting>) returns (seen: seq<Sighting>)
    requires batch != [] && HeldSightings(s.awaiting) <= pool
    ensures Observes(s, Boundary(s, batch, turn), seen, pool)
  {
    hide FlushUnless, Observes;
    seen := FlushFlows(s, Ids(batch), pool);
    if Boundary(s, batch, turn) != FlushUnless(s, Ids(batch)) {
      seen := [];
      ObservedNothing(s, s, pool);
    }
  }

  lemma ConsumeFlows(s: State, w: Wire, pool: set<Sighting>) returns (seen: seq<Sighting>)
    requires HeldSightings(s.awaiting) <= pool && (w.Named? ==> Sighting(w.item, !InFlight(w.item)) in pool)
    ensures Observes(s, Consume(s, w), seen, pool)
    ensures w.Named? ==> Within([Sighting(w.item, !InFlight(w.item))], seen)
  {
    hide Release, ReplayItem, Observes, Within;
    if w.Named? {
      var t := ReplayItem(s, w.item);
      var a := ReplayItemFlows(s, w.item, pool);
      HeldWithin(s, t, a, pool);
      var b := ReleaseFlows(t, w.item.id, pool);
      ObservedThrough(s, t, Release(t, w.item.id), a, b, pool);
      seen := a + b;
      WithinAfter([Sighting(w.item, !InFlight(w.item))], a, b);
    } else {
      seen := [];
      ObservedNothing(s, s, pool);
    }
  }

  lemma HeldWithin(s: State, r: State, seen: seq<Sighting>, pool: set<Sighting>)
    requires Observes(s, r, seen, pool)
    ensures HeldSightings(r.awaiting) <= pool && r.flows == ObserveAll(s.flows, seen)
    ensures forall o :: o in seen ==> o in pool
  {
  }

  lemma {:induction false} ReplayFromFlows(s: State, batch: seq<Wire>, turn: Option<Id>, pool: set<Sighting>)
    returns (seen: seq<Sighting>)
    requires HeldSightings(s.awaiting) <= pool && BatchSightings(batch) <= pool
    ensures Observes(s, ReplayFrom(s, batch, turn), seen, pool) && Within(BatchDue(batch), seen)
    decreases batch
  {
    hide Boundary, Consume, Observes, HeldSightings, Within;
    if batch == [] {
      seen := [];
      ObservedNothing(s, s, pool);
      WithinNothing([]);
    } else {
      assert batch[0] in batch && BatchSightings(batch[1..]) <= BatchSightings(batch);
      var s1 := Boundary(s, batch, turn);
      var a := BoundaryFlows(s, batch, turn, pool);
      HeldWithin(s, s1, a, pool);
      var s2 := Consume(s1, batch[0]);
      var b := ConsumeFlows(s1, batch[0], pool);
      HeldWithin(s1, s2, b, pool);
      var c := ReplayFromFlows(s2, batch[1..], NextTurn(batch[0], turn), pool);
      ObservedThrough(s, s1, s2, a, b, pool);
      ObservedThrough(s, s2, ReplayFrom(s, batch, turn), a + b, c, pool);
      seen := a + b + c;
      BatchWithin(batch, a, b, c);
    }
  }

  lemma BatchWithin(batch: seq<Wire>, a: seq<Sighting>, b: seq<Sighting>, c: seq<Sighting>)
    requires batch != [] && Within(BatchDue(batch[1..]), c)
    requires batch[0].Named? ==> Within([Sighting(batch[0].item, !InFlight(batch[0].item))], b)
    ensures Within(BatchDue(batch), a + b + c)
  {
    hide Within;
    var first := if batch[0].Named? then [Sighting(batch[0].item, !InFlight(batch[0].item))] else [];
    WithinNothing(a);
    WithinNothing(b);
    WithinAppend([], a, first, b);
    assert [] + first == first;
    WithinAppend(first, a + b, BatchDue(batch[1..]), c);
  }

  lemma WithinNothing(b: seq<Sighting>)
    ensures Within([], b)
  {
  }

  lemma WithinAfter(a: seq<Sighting>, b: seq<Sighting>, more: seq<Sighting>)
    requires Within(a, b)
    ensures Within(a, b + more)
  {
    hide Within;
    WithinNothing(more);
    WithinAppend(a, b, [], more);
    assert a + [] == a;
  }

  lemma DeltaFlows(s: State, id: Id, field: Field, delta: string)
    ensures Delta(s, id, field, delta).flows == s.flows
  {
    hide TerminalDelta, Budgeted;
  }

  lemma StepFlows(s: State, e: Event, pool: set<Sighting>) returns (seen: seq<Sighting>)
    requires HeldSightings(s.awaiting) <= pool && EventSightings(e) <= pool
    ensures Observes(s, Step(s, e), seen, pool) && Within(DueOf(e), seen)
  {
    hide Snapshot, Delta, ItemCompleted, Replay, FlushUnless, SeedTask, SettleBackground, Disconnect, EndChildRead;
    hide ObserveWorkflow, Observes, HeldSightings, BatchSightings, Within, BatchDue;
    seen := [];
    WithinNothing([]);
    match e
    case SnapshotEvent(w) =>
      if w.Named? {
        SnapshotFlows(s, w.item);
        FoldRows.SnapshotFrame(s, w.item);
        seen := [Sighting(w.item, false)];
        ObservedOne(s, Snapshot(s, w.item), seen[0], pool);
        WithinFirst(seen[0], []);
        assert seen + [] == seen;
      } else {
        ObservedNothing(s, s, pool);
      }
    case DeltaEvent(id, field, text) =>
      DeltaFlows(s, id, field, text);
      FoldRows.DeltaFrame(s, id, field, text);
      ObservedNothing(s, Step(s, e), pool);
    case CompletedEvent(w) =>
      if w.Named? {
        seen := ItemCompletedFlows(s, w.item, pool);
        WithinNothing(seen);
      } else {
        ObservedNothing(s, s, pool);
      }
    case HistoryEvent(batch) => seen := ReplayFlows(s, batch, pool);
    case TurnEnds =>
      seen := FlushFlows(s, {}, pool);
      WithinNothing(seen);
    case _ => ObservedNothing(s, Step(s, e), pool);
  }

  lemma ReplayFlows(s: State, batch: seq<Wire>, pool: set<Sighting>) returns (seen: seq<Sighting>)
    requires HeldSightings(s.awaiting) <= pool && BatchSightings(batch) <= pool
    ensures Observes(s, Replay(s, batch), seen, pool) && Within(BatchDue(batch), seen)
  {
    hide ReplayFrom, FlushUnless, HeldSightings, BatchSightings, ObserveAll, Within, BatchDue;
    var s0 := s.(replaying := true);
    var t := ReplayFrom(s0, batch, None);
    var a := ReplayFromFlows(s0, batch, None, pool);
    var b := FlushFlows(t, {}, pool);
    ObservedThrough(s0, t, Flush(t), a, b, pool);
    seen := a + b;
    WithinAfter(BatchDue(batch), a, b);
  }

  /** Over every run, the listing is what a sequence of observations gives, each of an item that
      the events carry or that was held, as a completion only where it is one; every snapshot,
      every batch item and every completion that waits for nothing is among them, in order. */
  lemma {:induction false} RunFlows(s: State, events: seq<Event>) returns (seen: seq<Sighting>)
    ensures Run(s, events).flows == ObserveAll(s.flows, seen)
    ensures forall o :: o in seen ==> o in HeldSightings(s.awaiting) + Sightings(events)
    ensures Within(Due(events), seen)
  {
    hide Run, ObserveAll, Within;
    seen := RunObserves(s, events, HeldSightings(s.awaiting) + Sightings(events));
  }

  lemma {:induction false} RunObserves(s: State, events: seq<Event>, pool: set<Sighting>) returns (seen: seq<Sighting>)
    requires HeldSightings(s.awaiting) <= pool && Sightings(events) <= pool
    ensures Observes(s, Run(s, events), seen, pool) && Within(Due(events), seen)
  {
    hide Step, Observes, HeldSightings, EventSightings, Within, DueOf;
    if events == [] {
      seen := [];
      ObservedNothing(s, s, pool);
      WithinNothing([]);
    } else {
      var rest := events[..|events| - 1];
      var t := Run(s, rest);
      var a := RunObserves(s, rest, pool);
      HeldWithin(s, t, a, pool);
      var b := StepFlows(t, events[|events| - 1], pool);
      ObservedThrough(s, t, Run(s, events), a, b, pool);
      seen := a + b;
      WithinAppend(Due(rest), a, DueOf(events[|events| - 1]), b);
    }
  }
}
