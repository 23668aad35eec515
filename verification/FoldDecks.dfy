/**
 Cards: for every tool call and every host item, the cards the editor gets are one per
 snapshot and completion, with that item, under one card id, and the last one final.
 */
module FoldDecks {
  import opened Options
  import opened FoldTypes
  import opened Fold
  import opened FoldShapes
  import FoldInduction

  // ---------- the cards the items ask for ----------

  /** A card as the editor gets it. */
  datatype Shown = Shown(create: bool, item: Item, final: bool)

  /** The cards an item's snapshots and completion ask for, as long as its kind stays the same,
      and the item as it came last. */
  datatype Deck = NoItem | Deck(kind: Kind, cards: seq<Shown>, settled: bool, last: Item) | Mixed

  predicate IsHost(kind: Kind, native: bool) {
    kind == Workflow || kind == UserShell || kind == HookRun || (kind == Subagent && !native)
  }

  predicate IsOther(kind: Kind) {
    kind == BackgroundCompletion || kind == OtherKind
  }

  /** The card for one more snapshot or completion. A tool call always has one, and its first
      creates it; host cards need a title; other kinds also settle a card they showed before. */
  function Asked(cards: seq<Shown>, item: Item, final: bool, native: bool): seq<Shown> {
    if item.kind == ToolCall then [Shown(cards == [], item, final)]
    else if IsHost(item.kind, native) then (if item.title == "" then [] else [Shown(true, item, final)])
    else if IsOther(item.kind) then
      if item.title == "" && !(final && cards != []) then [] else [Shown(true, item, final)]
    else if item.kind == UserMessage && final && item.title != "" then [Shown(true, item, true)]
    else []
  }

  predicate About(m: Mark, id: Id) {
    (m.Seen? || m.Settled?) && m.item.id == id
  }

  function NextDeck(d: Deck, m: Mark, id: Id, native: bool): Deck {
    if !About(m, id) then d
    else if d.Mixed? || (d.Deck? && d.kind != m.item.kind) then Mixed
    else
      var cards := if d.Deck? then d.cards else [];
      var final := m.Settled?;
      if final && m.direct then Deck(m.item.kind, cards, true, m.item)
      else Deck(m.item.kind, cards + Asked(cards, m.item, final, native), final, m.item)
  }

  function DeckOf(log: seq<Mark>, id: Id, native: bool): Deck {
    if log == [] then NoItem
    else NextDeck(DeckOf(log[..|log| - 1], id, native), log[|log| - 1], id, native)
  }

  // ---------- the cards that were sent ----------

  predicate IsCard(m: Mark) { m.Sent? && m.note.Card? }

  /** The cards with this item, in order. */
  function CardsOf(log: seq<Mark>, id: Id): seq<Shown> {
    if log == [] then []
    else
      var rest, m := CardsOf(log[..|log| - 1], id), log[|log| - 1];
      if IsCard(m) && m.note.item.id == id then rest + [Shown(m.note.create, m.note.item, m.note.final)] else rest
  }

  /** The card ids they were sent under. */
  function CardIds(log: seq<Mark>, id: Id): set<Id> {
    set m | m in log && IsCard(m) && m.note.item.id == id :: m.note.tc
  }

  lemma Steps(log: seq<Mark>, m: Mark, id: Id, native: bool)
    ensures DeckOf(log + [m], id, native) == NextDeck(DeckOf(log, id, native), m, id, native)
    ensures CardsOf(log + [m], id) == CardsOf(log, id) +
      if IsCard(m) && m.note.item.id == id then [Shown(m.note.create, m.note.item, m.note.final)] else []
    ensures CardIds(log + [m], id) == CardIds(log, id) + if IsCard(m) && m.note.item.id == id then {m.note.tc} else {}
  {
    assert (log + [m])[..|log|] == log;
  }

  /** Entries that are neither cards nor items. */
  ghost predicate Bare(marks: seq<Mark>) {
    forall i :: 0 <= i < |marks| ==> !IsCard(marks[i]) && !marks[i].Seen? && !marks[i].Settled?
  }

  lemma {:induction false} BareSteps(log: seq<Mark>, marks: seq<Mark>, id: Id, native: bool)
    requires Bare(marks)
    ensures DeckOf(log + marks, id, native) == DeckOf(log, id, native)
    ensures CardsOf(log + marks, id) == CardsOf(log, id) && CardIds(log + marks, id) == CardIds(log, id)
  {
    if marks == [] {
      assert log + marks == log;
    } else {
      var rest, m := marks[..|marks| - 1], marks[|marks| - 1];
      BareSteps(log, rest, id, native);
      Steps(log + rest, m, id, native);
      assert log + marks == log + rest + [m];
    }
  }

  // ---------- the tables agree ----------

  /** The card id of a host card. */
  function HostCardId(kind: Kind, id: Id): Id {
    if kind == Subagent then "subagent-" + id
    else if kind == Workflow then "workflow-" + id
    else if kind == UserShell then "shell-" + id
    else "item-" + id
  }

  /** The card id that a tool call's items name: the first call id. */
  function CallId(cards: seq<Shown>): Option<Id> {
    if cards == [] then None else cards[0].item.callId
  }

  /** Only the last card is final, and only once the item has settled. */
  predicate FinalLast(cards: seq<Shown>, settled: bool) {
    forall i :: 0 <= i < |cards| && cards[i].final ==> settled && i == |cards| - 1
  }

  /** The last card is final and shows the item as it settled. */
  predicate SettledCard(cards: seq<Shown>, item: Item) {
    cards != [] && cards[|cards| - 1].final && cards[|cards| - 1].item == item
  }

  predicate CreatedOnce(cards: seq<Shown>) {
    forall i :: 0 <= i < |cards| ==> (cards[i].create <==> i == 0)
  }

  /** Tool calls, and host items with a title. */
  predicate NeedsCard(item: Item, native: bool) {
    item.kind == ToolCall || ((IsHost(item.kind, native) || IsOther(item.kind)) && item.title != "")
  }

  ghost predicate Fits(s: State, id: Id, d: Deck, cards: seq<Shown>, ids: set<Id>) {
    match d
    case NoItem => cards == [] && ids == {} && id !in s.items && id !in s.done
    case Mixed => true
    case Deck(kind, asked, settled, last) =>
      && cards == asked && (id in s.done <==> settled)
      && FinalLast(cards, settled) && (settled && NeedsCard(last, s.cfg.native) ==> SettledCard(cards, last))
      && (kind == ToolCall ==>
            && cards != [] && CreatedOnce(cards) && (exists tc :: ids == {tc})
            && (CallId(cards).Some? ==> ids == {CallId(cards).value})
            && (!settled ==> id in s.items && s.items[id].Tool? && s.items[id].announced && ids == {s.items[id].tc}))
      && (IsHost(kind, s.cfg.native) ==>
            && ids <= {HostCardId(kind, id)}
            && (!settled ==> id in s.items && s.items[id] == Tool(HostCardId(kind, id), false)))
      && (IsOther(kind) ==>
            && ids <= {"item-" + id}
            && (!settled ==> id in s.items)
            && (!settled ==> s.items[id] == if cards == [] then Ignored else Tool("item-" + id, false)))
      && (kind == UserMessage && !settled ==> id in s.items && s.items[id].Message? && cards == [])
  }

  ghost predicate Inv(s: State) {
    forall id {:trigger DeckOf(s.log, id, s.cfg.native)} {:trigger CardsOf(s.log, id)} ::
      Fits(s, id, DeckOf(s.log, id, s.cfg.native), CardsOf(s.log, id), CardIds(s.log, id))
  }

  /** Roles other than the item's are as before. */
  ghost predicate OtherRoles(s: State, r: State, id: Id) {
    && r.cfg == s.cfg
    && (forall x :: x != id ==> (x in r.items <==> x in s.items) && (x in s.items ==> r.items[x] == s.items[x]))
    && (forall x :: x != id ==> (x in r.done <==> x in s.done))
  }

  /** A card with the item, or none. */
  ghost predicate CardFor(card: seq<Mark>, item: Item) {
    card == [] || (|card| == 1 && IsCard(card[0]) && card[0].note.item == item)
  }

  function ShownBy(card: seq<Mark>): seq<Shown>
    requires card != [] ==> IsCard(card[0])
  {
    if card == [] then [] else [Shown(card[0].note.create, card[0].note.item, card[0].note.final)]
  }

  function IdBy(card: seq<Mark>): set<Id>
    requires card != [] ==> IsCard(card[0])
  {
    if card == [] then {} else {card[0].note.tc}
  }

  /** One item's step: its record, then at most one card with it, among bare entries. */
  ghost predicate Played(s: State, r: State, item: Item, m: Mark, pre: seq<Mark>, card: seq<Mark>, post: seq<Mark>) {
    && OtherRoles(s, r, item.id) && About(m, item.id) && m.item == item && CardFor(card, item)
    && Bare(pre) && Bare(post) && r.log == s.log + [m] + pre + card + post
  }

  lemma OneItem(s: State, r: State, item: Item, m: Mark, pre: seq<Mark>, card: seq<Mark>, post: seq<Mark>)
    requires Inv(s) && Played(s, r, item, m, pre, card, post)
    requires Fits(r, item.id, NextDeck(DeckOf(s.log, item.id, s.cfg.native), m, item.id, s.cfg.native),
      CardsOf(s.log, item.id) + ShownBy(card), CardIds(s.log, item.id) + IdBy(card))
    ensures Inv(r)
  {
    hide DeckOf, CardsOf, CardIds, NextDeck, Fits;
    forall id ensures Fits(r, id, DeckOf(r.log, id, r.cfg.native), CardsOf(r.log, id), CardIds(r.log, id)) {
      PlayedReads(s, r, item, m, pre, card, post, id);
      if id != item.id {
        assert Fits(s, id, DeckOf(s.log, id, s.cfg.native), CardsOf(s.log, id), CardIds(s.log, id));
        assert CardsOf(s.log, id) + [] == CardsOf(s.log, id) && CardIds(s.log, id) + {} == CardIds(s.log, id);
        Unaffected(s, r, id, item.id);
      }
    }
  }

  /** What the step adds to an item's deck, cards and card ids. */
  lemma PlayedReads(
    s: State, r: State, item: Item, m: Mark, pre: seq<Mark>, card: seq<Mark>, post: seq<Mark>, id: Id)
    requires Played(s, r, item, m, pre, card, post)
    ensures var deck := DeckOf(s.log, id, s.cfg.native);
      DeckOf(r.log, id, s.cfg.native) == if id == item.id then NextDeck(deck, m, id, s.cfg.native) else deck
    ensures CardsOf(r.log, id) == CardsOf(s.log, id) + if id == item.id then ShownBy(card) else []
    ensures CardIds(r.log, id) == CardIds(s.log, id) + if id == item.id then IdBy(card) else {}
  {
    hide DeckOf, CardsOf, CardIds;
    var native := s.cfg.native;
    var log := s.log + [m] + pre;
    Steps(s.log, m, id, native);
    BareSteps(s.log + [m], pre, id, native);
    assert CardsOf(s.log, id) + [] == CardsOf(s.log, id) && CardIds(s.log, id) + {} == CardIds(s.log, id);
    if card == [] {
      assert log + card == log;
    } else {
      Steps(log, card[0], id, native);
      assert card == [card[0]];
    }
    BareSteps(log + card, post, id, native);
  }

  lemma Unaffected(s: State, r: State, id: Id, other: Id)
    requires OtherRoles(s, r, other) && id != other
    requires Fits(s, id, DeckOf(s.log, id, s.cfg.native), CardsOf(s.log, id), CardIds(s.log, id))
    ensures Fits(r, id, DeckOf(s.log, id, s.cfg.native), CardsOf(s.log, id), CardIds(s.log, id))
  {
    hide DeckOf, CardsOf, CardIds;
  }

  // ---------- no cards among the other entries ----------

  lemma TasksBare(t: Tasks, item: Item, tc: Id)
    ensures Bare(BackgroundTask(t, item, tc).1) && Bare(ShellTask(t, item, tc).1) && Bare(WorkflowTask(t, item, tc).1)
  {
  }

  lemma HostTaskBare(s: State, item: Item, tc: Id)
    ensures Bare(HostTask(s, item, tc).1)
  {
    hide ShellTask, WorkflowTask;
    TasksBare(s.tasks, item, tc);
  }

  lemma BackgroundBare(cfg: Config, t: Tasks, items: map<Id, Role>, item: Item)
    ensures Bare(SettleBackground(cfg, t, items, item).1)
  {
  }

  lemma ShellBare(s: State, item: Item, tc: Id)
    ensures Bare(CompleteShell(s, item, tc).1)
  {
    hide NoteShell;
  }

  lemma KidsBare(air: bool, k: Children, item: Item)
    ensures Bare(NativeSubagent(air, k, item).1)
  {
    hide ChildSessionId;
  }

  // ---------- one more card ----------

  /** The deck of one item before a step that takes it. */
  ghost predicate Open(s: State, item: Item, d: Deck, cards: seq<Shown>, ids: set<Id>) {
    item.id !in s.done && Fits(s, item.id, d, cards, ids)
  }

  /** A tool call: its card id is the role's, and the first card creates it. */
  lemma ToolCallFits(s: State, r: State, item: Item, m: Mark, d: Deck, cards: seq<Shown>, ids: set<Id>, role: Role)
    requires Open(s, item, d, cards, ids) && item.kind == ToolCall && role == ToolRole(s, item) && r.cfg == s.cfg
    requires m == Seen(item) || m == Settled(item, false)
    requires m.Seen? ==> r.done == s.done && item.id in r.items && r.items[item.id] == Tool(role.tc, true)
    requires m.Settled? ==> item.id in r.done
    ensures Fits(r, item.id, NextDeck(d, m, item.id, s.cfg.native),
      cards + [Shown(!role.announced, item, m.Settled?)], ids + {role.tc})
  {
  }

  lemma HostFits(s: State, r: State, item: Item, m: Mark, d: Deck, cards: seq<Shown>, ids: set<Id>, role: Role)
    requires Open(s, item, d, cards, ids) && IsHost(item.kind, s.cfg.native) && r.cfg == s.cfg
    requires role == HostRole(s, item.id, HostPrefix(item.kind)) && (m == Seen(item) || m == Settled(item, false))
    requires m.Seen? ==> r.done == s.done && item.id in r.items && r.items[item.id] == role
    requires m.Settled? ==> item.id in r.done
    ensures Fits(r, item.id, NextDeck(d, m, item.id, s.cfg.native),
      cards + (if item.title == "" then [] else [Shown(!role.announced, item, m.Settled?)]),
      ids + (if item.title == "" then {} else {role.tc}))
  {
  }

  lemma OtherFits(s: State, r: State, item: Item, m: Mark, d: Deck, cards: seq<Shown>, ids: set<Id>, role: Role)
    requires Open(s, item, d, cards, ids) && IsOther(item.kind) && r.cfg == s.cfg
    requires role == HostRole(s, item.id, "item-") && (m == Seen(item) || m == Settled(item, false))
    requires m.Seen? ==> r.done == s.done && item.id in r.items
    requires m.Seen? ==> r.items[item.id] == if item.title != "" then role
      else if item.id in s.items then s.items[item.id] else Ignored
    requires m.Settled? ==> item.id in r.done
    ensures var quiet := item.title == "" && !(m.Settled? && item.id in s.items && s.items[item.id].Tool?);
      Fits(r, item.id, NextDeck(d, m, item.id, s.cfg.native),
        cards + (if quiet then [] else [Shown(!role.announced, item, m.Settled?)]),
        ids + (if quiet then {} else {role.tc}))
  {
  }

  /** A user message that completes live is settled like any other kind. */
  lemma UserMessageFits(s: State, r: State, item: Item, d: Deck, cards: seq<Shown>, ids: set<Id>, role: Role)
    requires Open(s, item, d, cards, ids) && item.kind == UserMessage && r.cfg == s.cfg && item.id in r.done
    requires role == HostRole(s, item.id, "item-")
    ensures var quiet := item.title == "" && !(item.id in s.items && s.items[item.id].Tool?);
      Fits(r, item.id, NextDeck(d, Settled(item, false), item.id, s.cfg.native),
        cards + (if quiet then [] else [Shown(!role.announced, item, true)]),
        ids + (if quiet then {} else {role.tc}))
  {
  }

  /** The kinds without a card. */
  lemma CardlessFits(s: State, r: State, item: Item, m: Mark, d: Deck, cards: seq<Shown>, ids: set<Id>)
    requires Open(s, item, d, cards, ids) && About(m, item.id) && m.item == item && r.cfg == s.cfg
    requires item.kind != ToolCall && !IsHost(item.kind, s.cfg.native) && !IsOther(item.kind)
    requires item.kind == UserMessage ==> m.Seen? || m.direct
    requires m.Seen? ==> r.done == s.done
    requires m.Seen? && item.kind == UserMessage ==>
      item.id in r.items && (item.id !in s.items || s.items[item.id].Message? ==> r.items[item.id].Message?)
    requires m.Settled? ==> item.id in r.done
    ensures Fits(r, item.id, NextDeck(d, m, item.id, s.cfg.native), cards + [], ids + {})
  {
    assert cards + [] == cards && ids + {} == ids;
  }

  // ---------- snapshots ----------

  /** The state with the item recorded, before its kind is handled. */
  ghost predicate Recorded(s: State, s1: State, m: Mark) {
    s1 == s.(flows := s1.flows, streamedOutput := s1.streamedOutput, done := s1.done, log := s.log + [m])
    && (m.Seen? || m.Settled?) && s1.done == (if m.Seen? then s.done else s.done + {m.item.id})
  }

  lemma Opened(s: State, item: Item)
    requires Inv(s) && item.id !in s.done
    ensures Open(s, item, DeckOf(s.log, item.id, s.cfg.native), CardsOf(s.log, item.id), CardIds(s.log, item.id))
  {
  }

  lemma ToolCallSeen(s: State, s1: State, item: Item)
    requires Inv(s) && item.id !in s.done && item.kind == ToolCall && Recorded(s, s1, Seen(item))
    ensures Inv(SnapshotToolCall(s1, item))
  {
    hide Inv, DeckOf, CardsOf, CardIds, BackgroundTask, NoteShell, Fits, NextDeck;
    var r := SnapshotToolCall(s1, item);
    var role := ToolRole(s, item);
    assert role == ToolRole(s1, item);
    hide ToolRole, ToolNext;
    var card := [Sent(Card(role.tc, !role.announced, item, false, false))];
    var feed := if s.cfg.airTasks then BackgroundTask(s.tasks, item, role.tc).1 else [];
    TasksBare(s.tasks, item, role.tc);
    assert r.log == s.log + [Seen(item)] + [] + card + feed;
    Opened(s, item);
    ToolCallFits(s, r, item, Seen(item), DeckOf(s.log, item.id, s.cfg.native), CardsOf(s.log, item.id),
      CardIds(s.log, item.id), role);
    OneItem(s, r, item, Seen(item), [], card, feed);
  }

  lemma HostSeen(s: State, s1: State, item: Item)
    requires Inv(s) && item.id !in s.done && IsHost(item.kind, s.cfg.native) && Recorded(s, s1, Seen(item))
    ensures Inv(SnapshotHostCard(s1, item))
  {
    hide Inv, DeckOf, CardsOf, CardIds, HostTask, NoteShell, Fits, NextDeck, HostPrefix;
    var r := SnapshotHostCard(s1, item);
    var role := HostRole(s, item.id, HostPrefix(item.kind));
    assert role == HostRole(s1, item.id, HostPrefix(item.kind));
    hide HostRole;
    var inTerminal := item.kind == UserShell && item.id in s.shells.open;
    var card := if item.title == "" then [] else [Sent(Card(role.tc, !role.announced, item, false, inTerminal))];
    var feed := HostTask(s1, item, role.tc).1;
    HostTaskBare(s1, item, role.tc);
    assert r.log == s.log + [Seen(item)] + [] + card + feed;
    Opened(s, item);
    HostFits(s, r, item, Seen(item), DeckOf(s.log, item.id, s.cfg.native), CardsOf(s.log, item.id),
      CardIds(s.log, item.id), role);
    OneItem(s, r, item, Seen(item), [], card, feed);
  }

  lemma OtherSeen(s: State, s1: State, item: Item)
    requires Inv(s) && item.id !in s.done && IsOther(item.kind) && Recorded(s, s1, Seen(item))
    ensures Inv(SnapshotOther(s1, item))
  {
    hide Inv, DeckOf, CardsOf, CardIds, SettleBackground, Fits, NextDeck;
    var r := SnapshotOther(s1, item);
    var role := HostRole(s, item.id, "item-");
    assert role == HostRole(s1, item.id, "item-");
    hide HostRole;
    var card := if item.title == "" then [] else [Sent(Card(role.tc, !role.announced, item, false, false))];
    var feed := SettleBackground(s1.cfg, s1.tasks, s1.items, item).1;
    BackgroundBare(s1.cfg, s1.tasks, s1.items, item);
    assert r.log == s.log + [Seen(item)] + feed + card + [];
    Opened(s, item);
    OtherFits(s, r, item, Seen(item), DeckOf(s.log, item.id, s.cfg.native), CardsOf(s.log, item.id),
      CardIds(s.log, item.id), role);
    OneItem(s, r, item, Seen(item), feed, card, []);
  }

  /** A step of an item that has no card. */
  lemma Cardless(s: State, r: State, item: Item, m: Mark, marks: seq<Mark>)
    requires Inv(s) && item.id !in s.done && OtherRoles(s, r, item.id) && About(m, item.id) && m.item == item
    requires Bare(marks) && r.log == s.log + [m] + marks
    requires item.kind != ToolCall && !IsHost(item.kind, s.cfg.native) && !IsOther(item.kind)
    requires item.kind == UserMessage ==> m.Seen? || m.direct
    requires m.Seen? ==> r.done == s.done
    requires m.Seen? && item.kind == UserMessage ==>
      item.id in r.items && (item.id !in s.items || s.items[item.id].Message? ==> r.items[item.id].Message?)
    requires m.Settled? ==> item.id in r.done
    ensures Inv(r)
  {
    hide Inv, DeckOf, CardsOf, CardIds, Fits, NextDeck;
    Opened(s, item);
    CardlessFits(s, r, item, m, DeckOf(s.log, item.id, s.cfg.native), CardsOf(s.log, item.id), CardIds(s.log, item.id));
    assert s.log + [m] + marks + [] + [] == s.log + [m] + marks;
    OneItem(s, r, item, m, marks, [], []);
  }

  lemma MessageSeen(s: State, s1: State, item: Item)
    requires Inv(s) && item.id !in s.done && IsMessage(item.kind) && Recorded(s, s1, Seen(item))
    ensures Inv(SnapshotKind(s1, item))
  {
    hide Inv, SnapshotToolCall, SnapshotHostCard, SnapshotOther, ChildItem, MonitorUpdate, MarkCutOff;
    var s2 := OpenMessage(s1, item.id);
    assert s.log + [Seen(item)] + [] == s.log + [Seen(item)];
    Cardless(s, s2, item, Seen(item), []);
    MarkPlays(s2, s2, item);
  }

  lemma SmallSeen(s: State, s1: State, item: Item)
    requires Inv(s) && item.id !in s.done && Recorded(s, s1, Seen(item))
    requires item.kind in {Reasoning, Compaction, MonitorFeed, ReminderChild} || (item.kind == Subagent && s.cfg.native)
    ensures Inv(SnapshotKind(s1, item))
  {
    hide Inv, SnapshotToolCall, SnapshotHostCard, SnapshotOther, ChildItem, MonitorUpdate, OpenMessage, MarkCutOff;
    var r := SnapshotKind(s1, item);
    var log1 := s.log + [Seen(item)];
    assert log1 + [] == log1;
    if item.kind == Subagent {
      ChildPlays(s, s1, item, Seen(item));
    } else if item.kind == MonitorFeed {
      MonitorPlays(s, s1, item, Seen(item));
    } else if item.kind == Compaction {
      Cardless(s, r, item, Seen(item), [Sent(CompactionUpdate(item, false))]);
    } else {
      Cardless(s, r, item, Seen(item), []);
    }
  }

  lemma ChildPlays(s: State, s1: State, item: Item, m: Mark)
    requires Inv(s) && item.id !in s.done && item.kind == Subagent && s.cfg.native && Recorded(s, s1, m)
    requires m == Seen(item) || m == Settled(item, false)
    ensures Inv(ChildItem(s1, item)) && (m.Settled? ==> Inv(Forget(ChildItem(s1, item), item.id)))
  {
    hide Inv, NativeSubagent;
    KidsBare(s1.cfg.air, s1.kids, item);
    var marks := NativeSubagent(s1.cfg.air, s1.kids, item).1;
    Cardless(s, ChildItem(s1, item), item, m, marks);
    if m.Settled? {
      Cardless(s, Forget(ChildItem(s1, item), item.id), item, m, marks);
    }
  }

  lemma MonitorPlays(s: State, s1: State, item: Item, m: Mark)
    requires Inv(s) && item.id !in s.done && item.kind == MonitorFeed && Recorded(s, s1, m)
    requires m == Seen(item) || m == Settled(item, false)
    ensures Inv(MonitorUpdate(s1, item, m.Settled?))
  {
    hide Inv, MonitorRole, MonitorCardId;
    var r := MonitorUpdate(s1, item, m.Settled?);
    Cardless(s, r, item, m, [r.log[|r.log| - 1]]);
  }

  lemma SnapshotPlays(s: State, item: Item)
    requires Inv(s)
    ensures Inv(Snapshot(s, item))
  {
    hide Inv, SnapshotToolCall, SnapshotHostCard, SnapshotOther, ChildItem, MonitorUpdate, MarkCutOff, ObserveWorkflow;
    hide OpenMessage;
    var s0 := s.(flows := ObserveWorkflow(s.flows, item, false));
    var s1 := Emit(s0, [Seen(item)]);
    if item.id in s.done {
      MarkPlays(s, s0, item);
    } else if IsMessage(item.kind) {
      MessageSeen(s, s1, item);
    } else if item.kind == ToolCall {
      ToolCallSeen(s, s1, item);
    } else if IsHost(item.kind, s.cfg.native) {
      HostSeen(s, s1, item);
    } else if IsOther(item.kind) {
      OtherSeen(s, s1, item);
    } else {
      SmallSeen(s, s1, item);
    }
  }

  /** A role that may change its text only. */
  predicate SameUse(a: Role, b: Role) {
    a == b || (a.Message? && b.Message?) || a.Monitor? || a.Thought?
  }

  /** Entries that are no cards, and roles that stay what they are. */
  lemma BarePlays(s: State, r: State, marks: seq<Mark>)
    requires Inv(s) && r.cfg == s.cfg && r.done == s.done && Bare(marks) && r.log == s.log + marks
    requires r.items.Keys == s.items.Keys
    requires forall x :: x in s.items ==> SameUse(s.items[x], r.items[x])
    ensures Inv(r)
  {
    hide DeckOf, CardsOf, CardIds;
    forall id ensures Fits(r, id, DeckOf(r.log, id, r.cfg.native), CardsOf(r.log, id), CardIds(r.log, id)) {
      BareSteps(s.log, marks, id, s.cfg.native);
      assert Fits(s, id, DeckOf(s.log, id, s.cfg.native), CardsOf(s.log, id), CardIds(s.log, id));
    }
  }

  lemma MarkPlays(s: State, s0: State, item: Item)
    requires Inv(s) && s0 == s.(flows := s0.flows, streamedOutput := s0.streamedOutput)
    ensures Inv(MarkCutOff(s0, item))
  {
    hide Inv, MarkableMessage;
    var r := MarkCutOff(s0, item);
    var marks := r.log[|s.log|..];
    assert r.log == s.log + marks;
    BarePlays(s, r, marks);
  }

  // ---------- completions ----------

  lemma ToolCallSettled(s: State, s1: State, item: Item)
    requires Inv(s) && item.id !in s.done && item.kind == ToolCall && Recorded(s, s1, Settled(item, false))
    ensures Inv(CompleteToolCall(s1, item))
  {
    hide Inv, DeckOf, CardsOf, CardIds, BackgroundTask, CompleteShell, Fits, NextDeck;
    var m := Settled(item, false);
    var r := CompleteToolCall(s1, item);
    var role := ToolRole(s, item);
    assert role == ToolRole(s1, item);
    hide ToolRole, ToolNext;
    var (_, screen, inTerminal) := CompleteShell(s1, item, role.tc);
    var card := [Sent(Card(role.tc, !role.announced, item, true, inTerminal))];
    var feed := if s1.cfg.airTasks && !s1.replaying then BackgroundTask(s1.tasks, item, role.tc).1 else [];
    TasksBare(s1.tasks, item, role.tc);
    ShellBare(s1, item, role.tc);
    assert r.log == s.log + [m] + screen + card + feed;
    Opened(s, item);
    ToolCallFits(s, r, item, m, DeckOf(s.log, item.id, s.cfg.native), CardsOf(s.log, item.id),
      CardIds(s.log, item.id), role);
    OneItem(s, r, item, m, screen, card, feed);
  }

  lemma HostSettled(s: State, s1: State, item: Item)
    requires Inv(s) && item.id !in s.done && IsHost(item.kind, s.cfg.native) && Recorded(s, s1, Settled(item, false))
    ensures Inv(CompleteHostCard(s1, item))
  {
    hide Inv, DeckOf, CardsOf, CardIds, CompleteHostCard, Fits, NextDeck, HostPrefix, Played;
    var m := Settled(item, false);
    var r := CompleteHostCard(s1, item);
    var role := HostRole(s, item.id, HostPrefix(item.kind));
    hide HostRole;
    var screen, inTerminal, post := HostPlayed(s, s1, item, role);
    Opened(s, item);
    HostFits(s, r, item, m, DeckOf(s.log, item.id, s.cfg.native), CardsOf(s.log, item.id),
      CardIds(s.log, item.id), role);
    OneItem(s, r, item, m, screen, HostCard(item, role, inTerminal), post);
  }

  /** The card of a settled host item, with or without a title. */
  function HostCard(item: Item, role: Role, inTerminal: bool): seq<Mark>
    requires role.Tool?
  {
    if item.title == "" then [] else [Sent(Card(role.tc, !role.announced, item, true, inTerminal))]
  }

  lemma HostPlayed(s: State, s1: State, item: Item, role: Role)
    returns (screen: seq<Mark>, inTerminal: bool, post: seq<Mark>)
    requires Recorded(s, s1, Settled(item, false)) && role == HostRole(s, item.id, HostPrefix(item.kind))
    ensures var r := CompleteHostCard(s1, item);
      && Played(s, r, item, Settled(item, false), screen, HostCard(item, role, inTerminal), post)
      && r.cfg == s.cfg && item.id in r.done
  {
    hide HostTask, CompleteShell, HostPrefix;
    assert role == HostRole(s1, item.id, HostPrefix(item.kind));
    hide HostRole;
    var (_, marks, shown) := CompleteShell(s1, item, role.tc);
    screen, inTerminal := marks, shown;
    var card := HostCard(item, role, inTerminal);
    var reference := if inTerminal then [Sent(TerminalReference(role.tc, item.id))] else [];
    var feed := if s1.replaying then [] else HostTask(s1, item, role.tc).1;
    post := reference + feed;
    HostTaskBare(s1, item, role.tc);
    ShellBare(s1, item, role.tc);
    assert CompleteHostCard(s1, item).log == s1.log + (screen + card + reference + feed);
    hide CompleteHostCard;
    Regroup(s1.log, screen, card, reference, feed);
    SettledRoles(s, s1, item);
  }

  lemma SettledRoles(s: State, s1: State, item: Item)
    requires Recorded(s, s1, Settled(item, false))
    ensures var r := CompleteHostCard(s1, item); OtherRoles(s, r, item.id) && r.cfg == s.cfg && item.id in r.done
  {
    hide HostTask, CompleteShell, HostRole, HostPrefix;
  }

  lemma Regroup(log: seq<Mark>, a: seq<Mark>, b: seq<Mark>, c: seq<Mark>, d: seq<Mark>)
    ensures log + (a + b + c + d) == log + a + b + (c + d)
  {
  }

  lemma OtherSettled(s: State, s1: State, item: Item)
    requires Inv(s) && item.id !in s.done && Recorded(s, s1, Settled(item, false))
    requires IsOther(item.kind) || item.kind == UserMessage
    ensures Inv(CompleteOther(s1, item))
  {
    hide Inv, DeckOf, CardsOf, CardIds, SettleBackground, Fits, NextDeck;
    var m := Settled(item, false);
    var r := CompleteOther(s1, item);
    var role := HostRole(s, item.id, "item-");
    assert role == HostRole(s1, item.id, "item-");
    hide HostRole;
    var shown := item.title != "" || (item.id in s.items && s.items[item.id].Tool?);
    var card := if shown then [Sent(Card(role.tc, !role.announced, item, true, false))] else [];
    var feed := SettleBackground(s1.cfg, s1.tasks, s1.items, item).1;
    BackgroundBare(s1.cfg, s1.tasks, s1.items, item);
    assert r.log == s.log + [m] + feed + card + [];
    Opened(s, item);
    var d, cards, ids := DeckOf(s.log, item.id, s.cfg.native), CardsOf(s.log, item.id), CardIds(s.log, item.id);
    if IsOther(item.kind) {
      OtherFits(s, r, item, m, d, cards, ids, role);
    } else {
      UserMessageFits(s, r, item, d, cards, ids, role);
    }
    OneItem(s, r, item, m, feed, card, []);
  }

  lemma SmallSettled(s: State, s1: State, item: Item)
    requires Inv(s) && item.id !in s.done && Recorded(s, s1, Settled(item, false))
    requires item.kind in {AgentMessage, Reasoning, Compaction, MonitorFeed, ReminderChild}
      || (item.kind == Subagent && s.cfg.native)
    ensures Inv(CompleteKind(s1, item))
  {
    hide Inv, CompleteToolCall, CompleteHostCard, CompleteOther, ChildItem, MonitorUpdate, CompleteMessage;
    hide CompleteReasoning;
    var m := Settled(item, false);
    match item.kind
    case Subagent => ChildPlays(s, s1, item, m);
    case MonitorFeed => MonitorPlays(s, s1, item, m);
    case AgentMessage => ReplySettled(s, s1, item);
    case Reasoning => ReasoningSettled(s, s1, item);
    case Compaction => Cardless(s, CompleteKind(s1, item), item, m, [Sent(CompactionUpdate(item, true))]);
    case _ => Cardless(s, CompleteKind(s1, item), item, m, []);
  }

  lemma ReplySettled(s: State, s1: State, item: Item)
    requires Inv(s) && item.id !in s.done && item.kind == AgentMessage && Recorded(s, s1, Settled(item, false))
    ensures Inv(CompleteMessage(s1, item))
  {
    hide Inv;
    var r := CompleteMessage(s1, item);
    var marks := r.log[|s1.log|..];
    assert r.log == s.log + [Settled(item, false)] + marks;
    Cardless(s, r, item, Settled(item, false), marks);
  }

  lemma ReasoningSettled(s: State, s1: State, item: Item)
    requires Inv(s) && item.id !in s.done && item.kind == Reasoning && Recorded(s, s1, Settled(item, false))
    ensures Inv(CompleteReasoning(s1, item))
  {
    hide Inv;
    var r := CompleteReasoning(s1, item);
    var marks := r.log[|s1.log|..];
    assert r.log == s.log + [Settled(item, false)] + marks;
    Cardless(s, r, item, Settled(item, false), marks);
  }

  lemma CompletePlays(s: State, item: Item)
    requires Inv(s)
    ensures Inv(Complete(s, item))
  {
    hide Inv, CompleteToolCall, CompleteHostCard, CompleteOther, ChildItem, MonitorUpdate, MarkCutOff, ObserveWorkflow;
    hide CompleteMessage, CompleteReasoning;
    var s0 := Observed(s, item);
    var s1 := Settling(s0, item);
    if item.id in s.done {
      MarkPlays(s, s0, item);
    } else if item.kind == ToolCall {
      ToolCallSettled(s, s1, item);
    } else if IsHost(item.kind, s.cfg.native) {
      HostSettled(s, s1, item);
    } else if IsOther(item.kind) || item.kind == UserMessage {
      OtherSettled(s, s1, item);
    } else {
      SmallSettled(s, s1, item);
    }
  }

  // ---------- the other steps ----------

  lemma PrefixPlays(s: State, item: Item)
    requires Inv(s)
    ensures Inv(ReplayPrefix(s, item))
  {
    hide Inv;
    var r := ReplayPrefix(s, item);
    var marks := r.log[|s.log|..];
    assert r.log == s.log + marks;
    BarePlays(s, r, marks);
  }

  lemma ReplayMessagePlays(s: State, item: Item)
    requires Inv(s) && IsMessage(item.kind) && item.id !in s.done
    ensures Inv(ReplayMessage(s, item))
  {
    hide Inv;
    var r := ReplayMessage(s, item);
    var marks := r.log[|s.log| + 1..];
    assert r.log == s.log + [Settled(item, true)] + marks;
    Cardless(s, r, item, Settled(item, true), marks);
  }

  lemma WordsPlay(s: State, id: Id, text: string)
    requires Inv(s)
    ensures Inv(MessageDelta(s, id, text))
  {
    hide Inv;
    var r := MessageDelta(s, id, text);
    var marks := r.log[|s.log|..];
    assert r.log == s.log + marks;
    BarePlays(s, r, marks);
  }

  lemma OutputPlays(s: State, id: Id, text: string)
    requires Inv(s)
    ensures Inv(OutputDelta(s, id, text))
  {
    hide Inv, Budgeted, TerminalDelta;
    var r := OutputDelta(s, id, text);
    if s.cfg.v2 && id in s.shells.commands {
      TerminalBare(s, id, text);
      BarePlays(s, r, TerminalDelta(s.cfg, s.shells, id, text).1);
    } else if s.cfg.v2 && id in s.items && s.items[id].Tool? {
      var streamed := if id in s.streamedOutput then s.streamedOutput[id] else 0;
      var shown := Budgeted(s.cfg.maxContent, streamed, text);
      BarePlays(s, r, if shown == "" then [] else [Sent(OutputChunk(s.items[id].tc, shown))]);
    }
  }

  lemma TerminalBare(s: State, id: Id, text: string)
    requires id in s.shells.commands
    ensures Bare(TerminalDelta(s.cfg, s.shells, id, text).1)
  {
    hide Budgeted;
  }

  lemma SummaryPlays(s: State, id: Id, part: nat, text: string)
    requires Inv(s)
    ensures Inv(SummaryDelta(s, id, part, text))
  {
    hide Inv;
    var r := SummaryDelta(s, id, part, text);
    var marks := r.log[|s.log|..];
    assert r.log == s.log + marks;
    BarePlays(s, r, marks);
  }

  lemma DeltaPlays(s: State, id: Id, field: Field, text: string)
    requires Inv(s)
    ensures Inv(Delta(s, id, field, text))
  {
    hide Inv, OutputDelta, MessageDelta, SummaryDelta;
    match field
    case Words => WordsPlay(s, id, text);
    case Output => OutputPlays(s, id, text);
    case Summary(part) => SummaryPlays(s, id, part, text);
    case OtherField =>
  }

  lemma ControlPlays(s: State, e: Event)
    requires Inv(s) && FoldInduction.Control(e)
    ensures Inv(Step(s, e))
  {
    hide Inv, Step;
    var marks := ControlShape(s, e);
    ControlBare(s, e, marks);
    assert s.log + [] + marks == s.log + marks;
    BarePlays(s, Step(s, e), marks);
  }

  lemma ControlBare(s: State, e: Event, marks: seq<Mark>)
    requires FoldInduction.Control(e) && Step(s, e).log == s.log + marks
    ensures Bare(marks)
  {
    hide Snapshot, Delta, ItemCompleted, Replay, FlushUnless, ChildSessionId, SessionName;
    var added := Step(s, e).log[|s.log|..];
    assert added == marks;
    if e.ConnectionLost? {
      DisconnectBare(s.tasks, e.order);
    }
  }

  lemma {:induction false} DisconnectBare(t: Tasks, order: seq<Id>)
    ensures Bare(Disconnect(t, order).1)
  {
    if order != [] {
      DisconnectBare(t, order[..|order| - 1]);
    }
  }

  lemma OutsidePlays(s: State, r: State)
    requires Inv(s) && FoldInduction.Outside(s, r)
    ensures Inv(r)
  {
    hide Inv;
    assert r.log == s.log + [];
    BarePlays(s, r, []);
  }

  lemma DecksKept()
    ensures FoldInduction.Kept(s => Inv(s))
  {
    hide Inv, Snapshot, Complete, ReplayPrefix, ReplayMessage, Delta, Step;
    var P := (s: State) => Inv(s);
    assert FoldInduction.KeptByItems(P) by {
      forall s: State, item: Item | P(s) ensures P(Snapshot(s, item)) && P(Complete(s, item)) {
        SnapshotPlays(s, item);
        CompletePlays(s, item);
      }
    }
    assert FoldInduction.KeptByHistory(P) by {
      forall s: State, item: Item | P(s) && IsMessage(item.kind) && item.id !in s.done
        ensures P(ReplayPrefix(s, item)) && P(ReplayMessage(s, item))
      {
        PrefixPlays(s, item);
        ReplayMessagePlays(s, item);
      }
    }
    assert FoldInduction.KeptByDeltas(P) by {
      forall s, id, field, text | P(s) ensures P(Delta(s, id, field, text)) {
        DeltaPlays(s, id, field, text);
      }
    }
    assert FoldInduction.KeptByControl(P) by {
      forall s, e | P(s) && FoldInduction.Control(e) ensures P(Step(s, e)) {
        ControlPlays(s, e);
      }
    }
    assert FoldInduction.KeptOutside(P) by {
      forall s, r | P(s) && FoldInduction.Outside(s, r) ensures P(r) {
        OutsidePlays(s, r);
      }
    }
  }

  lemma FreshPlays(cfg: Config)
    ensures Inv(Fresh(cfg))
  {
  }

  lemma RunPlays(cfg: Config, events: seq<Event>)
    ensures Inv(Run(Fresh(cfg), events))
  {
    hide Inv, Run, Fresh, FoldInduction.Kept;
    FreshPlays(cfg);
    DecksKept();
    FoldInduction.RunKeeps(s => Inv(s), Fresh(cfg), events);
  }
}
