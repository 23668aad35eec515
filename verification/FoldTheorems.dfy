/**
 What the session fold promises over every run, from a fresh fold and for whatever events
 arrive in whatever order.
 */
module FoldTheorems {
  import opened Options
  import Text
  import opened FoldTypes
  import opened Fold
  import opened FoldRuns
  import FoldRows
  import FoldFlows
  import FoldListings
  import FoldReplay
  import FoldChildren
  import FoldTasks
  import FoldTerminals
  import FoldMessages
  import FoldStories
  import FoldDecks
  import FoldFrames
  import FoldShells
  import FoldReports

  /** Event `i` ends a read of the child's first session before the child was announced. */
  ghost predicate StrayAt(s: State, events: seq<Event>, child: ChildId, i: int) {
    && 0 <= i < |events| && events[i].ReadEnds? && events[i].child == child && events[i].generation <= 1
    && child !in Run(s, events[..i]).kids.spawned
  }

  /**
   AIR children, over every run. The first session of a child gets an update out of turn
   (see `StageMeaning`) exactly when a read of it ends before the child was announced; a
   later generation never does. Every held state belongs to a read still in flight, on a
   session that is live, so none is stranded.
   */
  lemma ChildSessions(cfg: Config, events: seq<Event>, child: ChildId, generation: nat)
    requires cfg.air && 1 <= generation
    ensures var s := Run(Fresh(cfg), events);
      var stage := FoldChildren.StageOf(s.log, SessionName(child, generation));
      && (stage == FoldChildren.Broken <==> generation == 1 && exists i :: StrayAt(Fresh(cfg), events, child, i))
      && s.kids.held.Keys <= s.kids.inFlight
      && (SessionName(child, generation) in s.kids.held && stage != FoldChildren.Broken ==> stage == FoldChildren.Live)
  {
    hide Run, Fresh, FoldMessages.Inv, FoldTasks.Inv, FoldTerminals.Inv, RowsInv, SessionName, StrayAt;
    RunInv(cfg, events);
    RunConfig(cfg, events);
    StraysMeaning(Fresh(cfg), events, child);
    var s := Run(Fresh(cfg), events);
    assert FoldChildren.StageOf(s.log, SessionName(child, generation))
      == FoldChildren.Expected(s.kids, child, generation, Strays(Fresh(cfg), events));
  }

  lemma {:induction false} StraysMeaning(s: State, events: seq<Event>, child: ChildId)
    ensures child in Strays(s, events) <==> exists i :: StrayAt(s, events, child, i)
  {
    hide Run;
    if events != [] {
      var n := |events| - 1;
      var rest := events[..n];
      StraysMeaning(s, rest, child);
      forall i | 0 <= i < n ensures StrayAt(s, events, child, i) <==> StrayAt(s, rest, child, i) {
        assert rest[..i] == events[..i];
      }
      if child in Strays(s, rest) {
        var i :| StrayAt(s, rest, child, i);
        assert StrayAt(s, events, child, i);
      } else if child in Strays(s, events) {
        assert StrayAt(s, events, child, n);
      }
    }
  }

  /** A run that breaks the protocol: a child's completion waits for an anchor, so the child is
      not announced, but its transcript is read and sent. */
  lemma EarlyTranscript(cfg: Config, item: Item)
    requires cfg.air && item.kind == Subagent && item.terminalRowAfter != "" && item.terminalRowAfter != item.id
    ensures var events := [CompletedEvent(Named(item)), ReadBegins(item.child), ReadEnds(item.child, 1)];
      FoldChildren.StageOf(Run(Fresh(cfg), events).log, item.child) == FoldChildren.Broken
  {
    hide Run, StrayAt, FoldChildren.StageOf;
    var events := [CompletedEvent(Named(item)), ReadBegins(item.child), ReadEnds(item.child, 1)];
    EarlyEnd(cfg, item);
    ChildSessions(cfg, events, item.child, 1);
  }

  lemma EarlyEnd(cfg: Config, item: Item)
    requires item.terminalRowAfter != "" && item.terminalRowAfter != item.id
    ensures var events := [CompletedEvent(Named(item)), ReadBegins(item.child), ReadEnds(item.child, 1)];
      StrayAt(Fresh(cfg), events, item.child, 2)
  {
    hide Step, Run;
    var events := [CompletedEvent(Named(item)), ReadBegins(item.child), ReadEnds(item.child, 1)];
    HeldChild(cfg, item);
    RunLast(Fresh(cfg), [], events[0]);
    RunLast(Fresh(cfg), [events[0]], events[1]);
    assert [] + [events[0]] == [events[0]] && [events[0]] + [events[1]] == events[..2];
  }

  lemma HeldChild(cfg: Config, item: Item)
    requires item.terminalRowAfter != "" && item.terminalRowAfter != item.id
    ensures var s := Step(Fresh(cfg), CompletedEvent(Named(item)));
      Step(s, ReadBegins(item.child)).kids.spawned == {} && Run(Fresh(cfg), []) == Fresh(cfg)
  {
    hide Complete, Release;
  }

  /**
   What the editor is told of AIR children, over every run, from the items alone (see
   `FoldStories.StoryOf`): a generation is announced once it began, its state is the first one
   its items report, and that state was sent, once, or is held for a read still in flight.
   */
  lemma ChildStates(cfg: Config, events: seq<Event>, child: ChildId, generation: nat)
    requires cfg.air && cfg.native && child != "" && 1 <= generation
    ensures var s := Run(Fresh(cfg), events);
      var session := SessionName(child, generation);
      var story, tell := FoldStories.StoryOf(s.log, child), FoldStories.TellOf(s.log, session);
      && tell.announced == (if generation <= story.Generations() then 1 else 0)
      && (generation > |story.outcomes| ==> tell.states == [])
      && (generation <= |story.outcomes| ==>
            var outcome := story.outcomes[generation - 1];
            || tell.states == [outcome]
            || (tell.states == [] && session in s.kids.held && s.kids.held[session] == outcome
                && session in s.kids.inFlight))
  {
    hide Run, Fresh, SessionName;
    FoldStories.RunTells(cfg, events);
    RunConfig(cfg, events);
    var s := Run(Fresh(cfg), events);
    var session := SessionName(child, generation);
    assert FoldStories.Agrees(s.kids, child, generation, FoldStories.StoryOf(s.log, child),
                              FoldStories.TellOf(s.log, session));
  }

  /** The configuration is fixed for a session, and no batch is being replayed between events. */
  lemma {:induction false} RunConfig(cfg: Config, events: seq<Event>)
    ensures Run(Fresh(cfg), events).cfg == cfg && !Run(Fresh(cfg), events).replaying
  {
    hide Step;
    if events != [] {
      RunConfig(cfg, events[..|events| - 1]);
      StepConfig(Run(Fresh(cfg), events[..|events| - 1]), events[|events| - 1]);
    }
  }

  lemma StepConfig(s: State, e: Event)
    ensures Step(s, e).cfg == s.cfg && Step(s, e).replaying == s.replaying
  {
    hide Snapshot, Delta, ItemCompleted, ReplayFrom, FlushUnless, SeedTask, SettleBackground, Disconnect, EndChildRead;
    match e
    case SnapshotEvent(w) => if w.Named? { FoldRows.SnapshotFrame(s, w.item); }
    case DeltaEvent(id, field, text) => FoldRows.DeltaFrame(s, id, field, text);
    case CompletedEvent(w) => if w.Named? { ItemCompletedConfig(s, w.item); }
    case HistoryEvent(batch) =>
      ReplayConfig(s.(replaying := true), batch, None);
      FoldRows.FlushFrame(ReplayFrom(s.(replaying := true), batch, None), {});
    case TurnEnds => FoldRows.FlushFrame(s, {});
    case _ =>
  }

  lemma ItemCompletedConfig(s: State, item: Item)
    ensures ItemCompleted(s, item).cfg == s.cfg && ItemCompleted(s, item).replaying == s.replaying
  {
    hide Complete, Release;
    var s1 := s.(streamedOutput := s.streamedOutput - {item.id});
    FoldRows.CompleteFrame(s1, item);
    FoldRows.ReleaseFrame(Complete(s1, item), item.id);
  }

  lemma {:induction false} ReplayConfig(s: State, batch: seq<Wire>, turn: Option<Id>)
    ensures ReplayFrom(s, batch, turn).cfg == s.cfg
    decreases batch
  {
    hide FlushUnless, Release, Snapshot, ItemCompleted, ObserveWorkflow, ReplayPrefix, ReplayMessage;
    if batch != [] {
      FoldRows.FlushFrame(s, Ids(batch));
      var s1 := Boundary(s, batch, turn);
      if batch[0].Named? {
        var item := batch[0].item;
        var s2 := s1.(flows := ObserveWorkflow(s1.flows, item, !InFlight(item)));
        FoldRows.SnapshotFrame(s2, item);
        FoldRows.PrefixFrame(Snapshot(s2, item), item);
        FoldRows.ReplayMessageFrame(s2, item);
        ItemCompletedConfig(s2, item);
        FoldRows.ReleaseFrame(ReplayItem(s1, item), item.id);
      }
      ReplayConfig(Consume(s1, batch[0]), batch[1..], NextTurn(batch[0], turn));
    }
  }

  /** Tasks: no update out of turn (see `PhaseMeaning`), and the AIR ids map one to one. */
  lemma AsyncTasks(cfg: Config, events: seq<Event>, task: Id)
    ensures var s := Run(Fresh(cfg), events);
      && FoldTasks.PhaseOf(s.log, task) != FoldTasks.Broken
      && FoldTasks.OneToOne(s.tasks.hostIds)
  {
    hide Run, Fresh, FoldMessages.Inv, FoldChildren.Inv, FoldTerminals.Inv, RowsInv;
    RunInv(cfg, events);
  }

  /** A lost connection leaves every announced task with a state. */
  lemma DisconnectSettlesTasks(cfg: Config, events: seq<Event>, order: seq<Id>, task: Id)
    requires forall t :: t in Run(Fresh(cfg), events).tasks.announced ==> t in order
    ensures var s := Run(Fresh(cfg), events);
      var r := Step(s, ConnectionLost(order));
      FoldTasks.PhaseOf(s.log, task) != FoldTasks.Unseen ==> FoldTasks.PhaseOf(r.log, task).In?
  {
    hide Run, Fresh, FoldMessages.Inv, FoldChildren.Inv, FoldTerminals.Inv, RowsInv;
    hide Snapshot, Delta, ItemCompleted, Replay, Flush, SeedTask, SettleBackground, EndChildRead;
    RunInv(cfg, events);
    var s := Run(Fresh(cfg), events);
    FoldTasks.DisconnectKeeps(s.tasks, order, s.log);
  }

  /** Terminals: opened only once the command ran, then output, then at most one exit; shown
      is the first `maxContent` characters of what was routed to it. */
  lemma TerminalOutputIsBounded(cfg: Config, events: seq<Event>, id: Id)
    ensures var screen := FoldTerminals.ScreenOf(Run(Fresh(cfg), events).log, id);
      && screen != FoldTerminals.Broken
      && (screen.Showing? || screen.Exited? ==> screen.shown == FoldTerminals.FirstChars(screen.fed, cfg.maxContent))
      && (screen.Idle? ==> screen.fed == "")
  {
    hide Run, Fresh, FoldMessages.Inv, FoldChildren.Inv, FoldTasks.Inv, RowsInv;
    RunInv(cfg, events);
    RunConfig(cfg, events);
    var s := Run(Fresh(cfg), events);
    assert FoldTerminals.Fits(s.cfg, s.shells, s.done, id, FoldTerminals.ScreenOf(s.log, id));
  }

  /** Over every run on ACP v2, an output delta of a shell that was seen and has not settled is
      fed to its screen, whole. */
  lemma OutputIsFed(cfg: Config, events: seq<Event>, id: Id, text: string)
    requires cfg.v2 && text != "" && id !in Run(Fresh(cfg), events).done
    requires FoldShells.ShellSeen(Run(Fresh(cfg), events).log, id)
    ensures var s := Run(Fresh(cfg), events);
      var r := Run(Fresh(cfg), events + [DeltaEvent(id, Output, text)]);
      FoldShells.Fed(FoldTerminals.ScreenOf(r.log, id)) == FoldShells.Fed(FoldTerminals.ScreenOf(s.log, id)) + text
  {
    hide Run, Fresh, Delta, FoldMessages.Inv, FoldChildren.Inv, FoldTasks.Inv, RowsInv, FoldShells.Fed;
    var s := Run(Fresh(cfg), events);
    RunInv(cfg, events);
    RunConfig(cfg, events);
    FoldShells.RunNotes(cfg, events);
    RunLast(Fresh(cfg), events, DeltaEvent(id, Output, text));
    hide FoldTerminals.Inv, FoldTerminals.ScreenOf;
    FoldShells.DeltaIsFed(s, id, text);
  }

  /** Over every run on ACP v2, a shell that settles live after it ran, or whose terminal is open,
      exits with its bounded output. */
  lemma ShellsExit(cfg: Config, events: seq<Event>, item: Item)
    requires cfg.v2 && item.id !in Run(Fresh(cfg), events).done && (item.kind == ToolCall || item.kind == UserShell)
    requires FoldShells.ShellSeen(Run(Fresh(cfg), events).log, item.id) || item.command.Some?
    requires FoldShells.SaysItRan(item) || FoldTerminals.ScreenOf(Run(Fresh(cfg), events).log, item.id).Showing?
    ensures var s := Run(Fresh(cfg), events);
      var r := Complete(s, item);
      exists i :: |s.log| <= i < |r.log|
        && r.log[i] == Sent(TerminalExited(item.id, Text.Truncate(item.output, cfg.maxContent)))
  {
    hide Run, Fresh, Complete, FoldMessages.Inv, FoldChildren.Inv, FoldTasks.Inv, RowsInv, FoldTerminals.ScreenOf;
    var s := Run(Fresh(cfg), events);
    RunInv(cfg, events);
    RunConfig(cfg, events);
    FoldShells.RunNotes(cfg, events);
    assert FoldTerminals.Fits(s.cfg, s.shells, s.done, item.id, FoldTerminals.ScreenOf(s.log, item.id));
    FoldShells.ShellExits(s, item);
  }

  /** Over every run with AIR tasks, a snapshot of an unsettled shell, backgrounded tool call or
      workflow, and its live completion, is reported: its task is announced, and a terminal
      status is the last state told. */
  lemma TasksAreReported(cfg: Config, events: seq<Event>, item: Item)
    requires cfg.airTasks && item.id !in Run(Fresh(cfg), events).done
    requires FoldReports.HasTask(Run(Fresh(cfg), events), item)
    ensures var s := Run(Fresh(cfg), events);
      var task := FoldReports.TaskOf(s, item);
      var before := FoldTasks.PhaseOf(s.log, task);
      && FoldTasks.Reported(before, FoldTasks.PhaseOf(Snapshot(s, item).log, task), item.status)
      && FoldTasks.Reported(before, FoldTasks.PhaseOf(Complete(s, item).log, task), item.status)
  {
    hide Run, Fresh, Snapshot, Complete, FoldMessages.Inv, FoldChildren.Inv, FoldTerminals.Inv, RowsInv;
    hide FoldReports.HasTask, FoldReports.TaskOf, FoldTasks.PhaseOf;
    var s := Run(Fresh(cfg), events);
    RunInv(cfg, events);
    RunConfig(cfg, events);
    hide FoldTasks.Inv;
    FoldReports.SnapshotReported(s, item);
    FoldReports.CompletionReported(s, item);
  }

  /** Messages: the phase and the cut-off mark go out at most once, the mark never before any
      text, and the text shown is the one the inputs give. */
  lemma MessageText(cfg: Config, events: seq<Event>, id: Id)
    ensures var log := Run(Fresh(cfg), events).log;
      var d := FoldMessages.DisplayOf(log, id);
      var r := FoldMessages.ReadingOf(log, id);
      && |d.phases| <= 1 && d.cuts <= 1 && !d.early
      && (r.Unread? ==> d.shown == "")
      && (r.Open? || r.Closed? ==> d.shown == r.text)
      && (r.Reopened? ==> d.shown == r.before + r.settled + r.after)
      && (r.Closed? && r.text != "" ==> FoldMessages.Declared(d, r.final))
      && (r.Reopened? && r.settled != "" ==> FoldMessages.Declared(d, r.final))
  {
    hide Run, Fresh, FoldTerminals.Inv, FoldChildren.Inv, FoldTasks.Inv, RowsInv;
    RunInv(cfg, events);
    var s := Run(Fresh(cfg), events);
    assert FoldMessages.Fits(s, id, FoldMessages.ReadingOf(s.log, id), FoldMessages.DisplayOf(s.log, id));
  }

  /** The text shown, from the frames of the events alone, over every run in which no completion
      of the message waits for another item. */
  lemma TextFromEvents(cfg: Config, events: seq<Event>, id: Id)
    requires forall f :: f in FoldFrames.Frames(events) ==> FoldFrames.FreeFrame(f, id)
    ensures var shown := FoldMessages.DisplayOf(Run(Fresh(cfg), events).log, id).shown;
      match FoldFrames.FollowOf(FoldFrames.Frames(events), id).reading
      case Unread => shown == ""
      case Open(text) => shown == text
      case Closed(text, _) => shown == text
      case Reopened(before, settled, after, _) => shown == before + settled + after
      case Mixed => true
  {
    hide Run, Fresh, FoldMessages.ReadingOf, FoldMessages.DisplayOf, FoldFrames.FollowOf, FoldFrames.Frames;
    FoldFrames.RunFollows(cfg, events, id);
    MessageText(cfg, events, id);
  }

  /** And whatever waits for what: until it settles, a message shows what its snapshots, batches
      and deltas give. */
  lemma TextWhileOpen(cfg: Config, events: seq<Event>, id: Id)
    requires id !in Run(Fresh(cfg), events).done
    ensures var shown := FoldMessages.DisplayOf(Run(Fresh(cfg), events).log, id).shown;
      match FoldFrames.FollowOf(FoldFrames.Opening(FoldFrames.Frames(events), id), id).reading
      case Unread => shown == ""
      case Open(text) => shown == text
      case _ => true
  {
    hide Run, Fresh, FoldMessages.ReadingOf, FoldMessages.DisplayOf, FoldFrames.FollowOf, FoldFrames.Frames;
    FoldFrames.RunTracks(cfg, events, id);
    MessageText(cfg, events, id);
  }

  /** Every completed item is settled or held, and no item settles twice. */
  lemma NothingLostOrRepeated(cfg: Config, events: seq<Event>, id: Id)
    ensures var s := Run(Fresh(cfg), events);
      && Settles(s.log, id) == (if id in s.done then 1 else 0)
      && ((exists e :: e in events && e.CompletedEvent? && e.wire.Named? && e.wire.item.id == id) ==>
            id in s.done || id in FoldRows.HeldIds(s.awaiting))
  {
    hide Run, Fresh, FoldTerminals.Inv, FoldChildren.Inv, FoldTasks.Inv, FoldMessages.Inv;
    RunInv(cfg, events);
    assert Fresh(cfg).awaiting == [] by { FreshHoldsNothing(cfg); }
    FoldRows.RunCovers(Fresh(cfg), events);
  }

  /**
   Cards, over every run, for every item whose kind stays the same: the cards sent with the
   item are exactly those its snapshots and completion ask for (see `FoldDecks.Asked`), under
   one card id, the call id when the first item names one. A settled tool call, and a settled
   host item with a title, has one final card, the last, with the item as it settled; a tool
   call's first card creates it and no later one does.
   */
  lemma EveryCard(cfg: Config, events: seq<Event>, id: Id)
    ensures var s := Run(Fresh(cfg), events);
      var deck, cards := FoldDecks.DeckOf(s.log, id, cfg.native), FoldDecks.CardsOf(s.log, id);
      var ids := FoldDecks.CardIds(s.log, id);
      && (deck.NoItem? ==> cards == [] && id !in s.done)
      && (deck.Deck? ==>
            && cards == deck.cards && (id in s.done <==> deck.settled)
            && FoldDecks.FinalLast(cards, deck.settled)
            && (deck.settled && FoldDecks.NeedsCard(deck.last, cfg.native) ==> FoldDecks.SettledCard(cards, deck.last))
            && (deck.kind == ToolCall ==> cards != [] && FoldDecks.CreatedOnce(cards) && exists tc :: ids == {tc})
            && (deck.kind == ToolCall && cards[0].item.callId.Some? ==> ids == {cards[0].item.callId.value})
            && (FoldDecks.IsHost(deck.kind, cfg.native) ==> ids <= {FoldDecks.HostCardId(deck.kind, id)})
            && (FoldDecks.IsOther(deck.kind) ==> ids <= {"item-" + id}))
  {
    hide Run, Fresh, FoldDecks.DeckOf, FoldDecks.CardsOf, FoldDecks.CardIds;
    hide FoldDecks.FinalLast, FoldDecks.SettledCard, FoldDecks.CreatedOnce;
    FoldDecks.RunPlays(cfg, events);
    RunConfig(cfg, events);
    var s := Run(Fresh(cfg), events);
    assert FoldDecks.Fits(s, id, FoldDecks.DeckOf(s.log, id, cfg.native), FoldDecks.CardsOf(s.log, id),
                          FoldDecks.CardIds(s.log, id));
  }

  lemma FreshHoldsNothing(cfg: Config)
    ensures Fresh(cfg).awaiting == []
  {
  }

  /** At the end of a turn every completed item has settled exactly once and nothing is held. */
  lemma TurnEndSettlesEverything(cfg: Config, events: seq<Event>, id: Id)
    requires exists e :: e in events && e.CompletedEvent? && e.wire.Named? && e.wire.item.id == id
    ensures var r := Run(Fresh(cfg), events + [TurnEnds]);
      r.awaiting == [] && Settles(r.log, id) == 1
  {
    hide Run, Fresh, FlushUnless;
    var s := Run(Fresh(cfg), events);
    RunLast(Fresh(cfg), events, TurnEnds);
    FoldRows.FlushSettlesAll(s);
    NothingLostOrRepeated(cfg, events, id);
    NothingLostOrRepeated(cfg, events + [TurnEnds], id);
  }

  lemma RunLast(s: State, events: seq<Event>, e: Event)
    ensures Run(s, events + [e]) == Step(Run(s, events), e)
  {
    hide Step;
    assert (events + [e])[..|events|] == events;
  }

  /** Workflow runs: listed and superseded runs are disjoint, and a run superseded after some
      events is never listed again, whatever follows. */
  lemma SupersededRunsStayGone(cfg: Config, events: seq<Event>, more: seq<Event>)
    ensures var s := Run(Fresh(cfg), events);
      var r := Run(Fresh(cfg), events + more);
      s.flows.listed.Keys !! s.flows.superseded && s.flows.superseded <= r.flows.superseded
      && r.flows.listed.Keys !! s.flows.superseded
  {
    hide Run, Step, FoldFlows.ObserveAll;
    var seen := FoldFlows.RunFlows(Fresh(cfg), events);
    FoldFlows.SupersededForever(Fresh(cfg).flows, seen);
    var s := Run(Fresh(cfg), events);
    RunAppend(Fresh(cfg), events, more);
    var later := FoldFlows.RunFlows(s, more);
    FoldFlows.SupersededForever(s.flows, later);
  }

  /** A listed run that no later item ends, resumes or supersedes, whether the item arrives or
      was held, stays listed over every run, and its revision never falls. */
  lemma RevisionsNeverFall(cfg: Config, events: seq<Event>, more: seq<Event>, run: Id)
    requires run in Run(Fresh(cfg), events).flows.listed
    requires forall o ::
      o in FoldFlows.HeldSightings(Run(Fresh(cfg), events).awaiting) + FoldFlows.Sightings(more)
      ==> !FoldFlows.Disturbs(o, run)
    ensures var s := Run(Fresh(cfg), events);
      var r := Run(Fresh(cfg), events + more);
      run in r.flows.listed && s.flows.listed[run].revision <= r.flows.listed[run].revision
  {
    hide Run, Fresh, FoldFlows.ObserveAll, FoldFlows.Disturbs;
    var s := Run(Fresh(cfg), events);
    SupersededRunsStayGone(cfg, events, more);
    RunAppend(Fresh(cfg), events, more);
    var seen := FoldFlows.RunFlows(s, more);
    FoldFlows.Undisturbed(s.flows, seen, run);
  }

  /**
   The workflow listing over every run, from observations that include every snapshot, every batch
   item and every completion that waits for nothing, in order: a run is gone when a run that is
   not gone resumes from it; it is listed exactly when it is not gone and was last observed live;
   and it shows the highest revision since its last start.
   */
  lemma WorkflowListing(cfg: Config, events: seq<Event>, run: Id) returns (seen: seq<FoldFlows.Sighting>)
    requires run != ""
    ensures FoldFlows.Within(FoldFlows.Due(events), seen)
    ensures forall o :: o in seen ==> o in FoldFlows.Sightings(events)
    ensures var f := Run(Fresh(cfg), events).flows;
      && (run in f.superseded <==> FoldListings.Gone(seen, run))
      && (run in f.listed <==> !FoldListings.Gone(seen, run) && FoldListings.LastIsLive(seen, run))
      && (run in f.listed ==>
            exists start: nat, i: nat :: i < |seen| && FoldListings.Best(seen, run, start, i)
              && f.listed[run] == Observation(seen[i].item.revision, seen[i].item.paused))
  {
    hide Run, FoldFlows.ObserveAll, FoldFlows.Within, FoldListings.Gone, FoldListings.LastIsLive, FoldListings.Best;
    seen := FoldFlows.RunFlows(Fresh(cfg), events);
    FoldListings.ListedMeaning(seen, run);
    if run in Run(Fresh(cfg), events).flows.listed {
      var start, i := FoldListings.ListedBest(seen, run);
    }
  }

  lemma {:induction false} RunAppend(s: State, a: seq<Event>, b: seq<Event>)
    ensures Run(s, a + b) == Run(Run(s, a), b)
  {
    hide Step;
    if b == [] {
      assert a + b == a;
    } else {
      RunAppend(s, a, b[..|b| - 1]);
      assert (a + b)[..|a + b| - 1] == a + b[..|b| - 1];
    }
  }

  // ---------- the message promise that history can break ----------

  /** The promised text: what streamed, or the settled text when nothing did. */
  function Promised(streamed: string, settled: string): string {
    if streamed != "" then streamed else settled
  }

  /**
   A history batch that settles a message still open shows its settled text after the text
   already shown, and later deltas still follow. Over every run, the result is the promised
   text exactly when the settled text is empty or nothing ever streamed.
   */
  lemma SettledOverOpen(cfg: Config, events: seq<Event>, id: Id)
    requires FoldMessages.ReadingOf(Run(Fresh(cfg), events).log, id).Reopened?
    ensures var r := FoldMessages.ReadingOf(Run(Fresh(cfg), events).log, id);
      var shown := FoldMessages.DisplayOf(Run(Fresh(cfg), events).log, id).shown;
      && shown == r.before + r.settled + r.after
      && (shown == Promised(r.before + r.after, r.settled) <==> r.settled == "" || (r.before == "" && r.after == ""))
  {
    hide Run;
    MessageText(cfg, events, id);
    var r := FoldMessages.ReadingOf(Run(Fresh(cfg), events).log, id);
    if r.settled == "" {
      assert r.before + r.settled + r.after == r.before + r.after;
    } else {
      assert |r.before + r.settled + r.after| == |r.before + r.after| + |r.settled|;
    }
  }

  /** A run that breaks it: a reply starts, streams "ab", and a history batch then carries the
      settled reply with the same text. The editor shows "abab". */
  lemma RepeatedReply(cfg: Config, item: Item)
    requires item.kind == AgentMessage && item.status == Running && item.text == "ab"
    ensures var events := [SnapshotEvent(Named(item)), DeltaEvent(item.id, Words, "ab"),
                           HistoryEvent([Named(item.(status := Completed))])];
      FoldMessages.DisplayOf(Run(Fresh(cfg), events).log, item.id).shown == "abab"
  {
    hide Snapshot, Delta, Replay, Run, FoldMessages.DisplayOf, FoldMessages.ReadingOf;
    var settled := item.(status := Completed);
    var s1 := Snapshot(Fresh(cfg), item);
    var s2 := Delta(s1, item.id, Words, "ab");
    var events := [SnapshotEvent(Named(item)), DeltaEvent(item.id, Words, "ab"), HistoryEvent([Named(settled)])];
    StartedReply(cfg, item);
    DeltaReading(s1, item.id, "ab");
    RunThree(Fresh(cfg), events[0], events[1], events[2]);
    HistoryReading(s2, settled);
    MessageText(cfg, events, item.id);
  }

  /** Another: the batch settles the reply before anything streamed, and its deltas arrive
      afterwards. The editor shows "abab" again. */
  lemma ResumedReply(cfg: Config, item: Item)
    requires item.kind == AgentMessage && item.status == Running && item.text == "ab"
    ensures var events := [SnapshotEvent(Named(item)), HistoryEvent([Named(item.(status := Completed))]),
                           DeltaEvent(item.id, Words, "ab")];
      FoldMessages.DisplayOf(Run(Fresh(cfg), events).log, item.id).shown == "abab"
  {
    hide Snapshot, Delta, Replay, Run, FoldMessages.DisplayOf, FoldMessages.ReadingOf;
    var settled := item.(status := Completed);
    var s1 := Snapshot(Fresh(cfg), item);
    var s2 := Replay(s1, [Named(settled)]);
    var events := [SnapshotEvent(Named(item)), HistoryEvent([Named(settled)]), DeltaEvent(item.id, Words, "ab")];
    StartedReply(cfg, item);
    HistoryReading(s1, settled);
    DeltaReading(s2, item.id, "ab");
    RunThree(Fresh(cfg), events[0], events[1], events[2]);
    MessageText(cfg, events, item.id);
  }

  lemma RunThree(s: State, a: Event, b: Event, c: Event)
    ensures Run(s, [a, b, c]) == Step(Step(Step(s, a), b), c)
  {
    hide Step;
    RunLast(s, [], a);
    RunLast(s, [a], b);
    RunLast(s, [a, b], c);
    assert [] + [a] == [a] && [a] + [b] == [a, b] && [a, b] + [c] == [a, b, c];
  }

  /** A reply that has just started is open and empty. */
  lemma StartedReply(cfg: Config, item: Item)
    requires item.kind == AgentMessage
    ensures var s := Snapshot(Fresh(cfg), item);
      s.awaiting == [] && s.done == {} && FoldMessages.ReadingOf(s.log, item.id) == FoldMessages.Open("")
  {
    var s := Snapshot(Fresh(cfg), item);
    assert s.log == [Seen(item)];
    assert [Seen(item)] == [] + [Seen(item)];
    FoldMessages.Steps([], Seen(item), item.id);
  }

  lemma DeltaReading(s: State, id: Id, delta: string)
    requires delta != ""
    ensures var r := Delta(s, id, Words, delta);
      && r.awaiting == s.awaiting && r.done == s.done
      && FoldMessages.ReadingOf(r.log, id)
        == FoldMessages.NextReading(FoldMessages.ReadingOf(s.log, id), TextDelta(id, delta), id)
  {
    hide FoldMessages.ReadingOf, FoldMessages.DisplayOf;
    var r := Delta(s, id, Words, delta);
    var m := TextDelta(id, delta);
    FoldMessages.Steps(s.log, m, id);
    if r.log != s.log + [m] {
      var note := r.log[|r.log| - 1];
      assert r.log == s.log + [m] + [note];
      FoldMessages.Steps(s.log + [m], note, id);
    }
  }

  lemma HistoryReading(s: State, item: Item)
    requires s.awaiting == [] && item.id !in s.done && item.kind == AgentMessage && !InFlight(item)
    requires FoldMessages.ReadingOf(s.log, item.id).Open?
    ensures FoldMessages.ReadingOf(Replay(s, [Named(item)]).log, item.id)
      == FoldMessages.Reopened(FoldMessages.ReadingOf(s.log, item.id).text, item.text, "", item)
  {
    hide FoldMessages.ReadingOf, FoldMessages.DisplayOf, Replay, ObserveWorkflow, Snapshot, ItemCompleted, ReplayPrefix;
    OneSettledMessage(s, item);
    var r := ReplayItem(s.(replaying := true), item);
    var m := Settled(item, true);
    FoldMessages.Steps(s.log, m, item.id);
    if r.log != s.log + [m] {
      var chunk := r.log[|r.log| - 1];
      assert r.log == s.log + [m] + [chunk];
      FoldMessages.Steps(s.log + [m], chunk, item.id);
    }
  }

  lemma OneSettledMessage(s: State, item: Item)
    requires s.awaiting == [] && item.id !in s.done && IsMessage(item.kind) && !InFlight(item)
    ensures Replay(s, [Named(item)]).log == ReplayItem(s.(replaying := true), item).log
  {
    hide ObserveWorkflow, Complete, Snapshot, ItemCompleted;
    var s0 := s.(replaying := true);
    FoldReplay.NothingHeld(s0, Ids([Named(item)]));
    var s1 := ReplayItem(s0, item);
    FoldRows.ReplayMessageFrame(s0.(flows := ObserveWorkflow(s0.flows, item, true)), item);
    hide ReplayItem, FlushUnless, Release;
    FoldReplay.NothingHeld(s1, {});
    assert [Named(item)][1..] == [];
    assert ReplayFrom(s0, [Named(item)], None) == s1;
  }
}
