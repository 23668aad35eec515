/**
 Agent messages: the text shown, the phase and the cut-off mark, whatever mix of replayed
 prefix, deltas, duplicates and completions arrives.
 */
module FoldMessages {
  import opened Options
  import opened FoldTypes
  import opened Fold

  /** The text one agent message should show, read off the inputs alone. `Reopened` is a
      message that a history batch settled while it was open: the text before, the settled
      text and the deltas that still follow. `final` is the item that settled it. `Mixed`
      gives no promise: the host changed the item's kind. */
  datatype Reading =
    | Unread
    | Open(text: string)
    | Closed(text: string, final: Item)
    | Reopened(before: string, settled: string, after: string, final: Item)
    | Mixed

  function NextReading(r: Reading, m: Mark, id: Id): Reading {
    match m
    case Seen(item) =>
      if item.id != id then r
      else if item.kind != AgentMessage then Mixed
      else if r.Unread? then Open("")
      else r
    case Prefix(item) =>
      if item.id != id then r
      else if item.kind != AgentMessage then Mixed
      else if r == Open("") then Open(item.text)
      else r
    case TextDelta(x, text) =>
      if x != id then r
      else if r.Open? then Open(r.text + text)
      else if r.Reopened? then Reopened(r.before, r.settled, r.after + text, r.final)
      else r
    case Settled(item, direct) =>
      if item.id != id then r
      else if item.kind != AgentMessage || r.Mixed? || r.Closed? || r.Reopened? then Mixed
      else if direct && r.Open? then Reopened(r.text, item.text, "", item)
      else if r.Open? && r.text != "" then Closed(r.text, item)
      else Closed(item.text, item)
    case _ => r
  }

  function ReadingOf(log: seq<Mark>, id: Id): Reading {
    if log == [] then Unread
    else NextReading(ReadingOf(log[..|log| - 1], id), log[|log| - 1], id)
  }

  /** What the editor shows for an item: its text, the phases declared for it, how often its
      cut-off mark was sent, and whether a mark came before any text. */
  datatype Display = Display(shown: string, phases: seq<Phase>, cuts: nat, early: bool)

  function NextDisplay(d: Display, m: Mark, id: Id): Display {
    if !(m.Sent? && m.note.MessageChunk? && m.note.owner == id) then d
    else
      var n := m.note;
      var shown := d.shown + n.text;
      Display(shown,
              if n.phase.Some? then d.phases + [n.phase.value] else d.phases,
              if n.cut then d.cuts + 1 else d.cuts,
              d.early || (n.cut && shown == ""))
  }

  function DisplayOf(log: seq<Mark>, id: Id): Display {
    if log == [] then Display("", [], 0, false)
    else NextDisplay(DisplayOf(log[..|log| - 1], id), log[|log| - 1], id)
  }

  /** The settled item's phase was declared, and it was marked when it is cut off. */
  predicate Declared(d: Display, item: Item) {
    d.phases == [if item.commentary then Commentary else FinalAnswer] && (item.cutOff ==> d.cuts == 1)
  }

  /** The fold's state for one item agrees with its display and its reading. */
  ghost predicate Fits(s: State, id: Id, r: Reading, d: Display) {
    && d.cuts == (if id in s.cutOff then 1 else 0)
    && !d.early
    && (d.phases == [] || (|d.phases| == 1 && id in s.done))
    && (id in s.items && s.items[id].Message? && s.items[id].streamed > 0 ==> d.shown != "")
    && (s.lastMessage.Some? && s.lastMessage.value.0 == id ==> d.shown != "")
    && (r.Unread? ==> id !in s.items && id !in s.done && d.shown == "")
    && (r.Open? ==>
          && id !in s.done && id in s.items && s.items[id].Message?
          && (s.items[id].streamed > 0 <==> r.text != "")
          && d.shown == r.text)
    && (r.Closed? ==> id in s.done && id !in s.items && d.shown == r.text && (r.text != "" ==> Declared(d, r.final)))
    && (r.Reopened? ==>
          && id in s.done && id in s.items && s.items[id].Message?
          && d.shown == r.before + r.settled + r.after && (r.settled != "" ==> Declared(d, r.final)))
  }

  ghost predicate Inv(s: State) {
    forall id {:trigger ReadingOf(s.log, id)} {:trigger DisplayOf(s.log, id)} ::
      Fits(s, id, ReadingOf(s.log, id), DisplayOf(s.log, id))
  }

  lemma Steps(log: seq<Mark>, m: Mark, id: Id)
    ensures ReadingOf(log + [m], id) == NextReading(ReadingOf(log, id), m, id)
    ensures DisplayOf(log + [m], id) == NextDisplay(DisplayOf(log, id), m, id)
  {
    assert (log + [m])[..|log|] == log;
  }

  /** Entries about one item leave the others alone. */
  ghost predicate AboutOnly(marks: seq<Mark>, id: Id) {
    forall i :: 0 <= i < |marks| ==>
      match marks[i]
      case Seen(item) => item.id == id
      case Prefix(item) => item.id == id
      case TextDelta(x, _) => x == id
      case Settled(item, _) => item.id == id
      case Sent(MessageChunk(x, _, _, _, _)) => x == id
      case _ => true
  }

  lemma {:induction false} OthersKeep(log: seq<Mark>, marks: seq<Mark>, id: Id, x: Id)
    requires AboutOnly(marks, id) && x != id
    ensures ReadingOf(log + marks, x) == ReadingOf(log, x) && DisplayOf(log + marks, x) == DisplayOf(log, x)
  {
    if marks == [] {
      assert log + marks == log;
    } else {
      var rest := marks[..|marks| - 1];
      OthersKeep(log, rest, id, x);
      assert (log + marks)[..|log + marks| - 1] == log + rest;
    }
  }

  /** Everything but one item is as before. */
  ghost predicate SameBut(s: State, r: State, id: Id) {
    && (forall x :: x != id ==> (x in r.items <==> x in s.items) && (x in s.items ==> r.items[x] == s.items[x]))
    && (forall x :: x != id ==> (x in r.done <==> x in s.done) && (x in r.cutOff <==> x in s.cutOff))
    && (r.lastMessage == s.lastMessage || (r.lastMessage.Some? && r.lastMessage.value.0 == id))
  }

  lemma OneMessage(s: State, r: State, id: Id, marks: seq<Mark>)
    requires Inv(s) && SameBut(s, r, id) && AboutOnly(marks, id) && r.log == s.log + marks
    requires Fits(r, id, ReadingOf(r.log, id), DisplayOf(r.log, id))
    ensures Inv(r)
  {
    forall x ensures Fits(r, x, ReadingOf(r.log, x), DisplayOf(r.log, x)) {
      if x != id { OthersKeep(s.log, marks, id, x); }
    }
  }

  /** Entries that are not about messages change nothing. */
  lemma {:induction false} SilentMessage(log: seq<Mark>, marks: seq<Mark>, id: Id)
    requires Silent(marks, Messages)
    ensures ReadingOf(log + marks, id) == ReadingOf(log, id) && DisplayOf(log + marks, id) == DisplayOf(log, id)
  {
    if marks == [] {
      assert log + marks == log;
    } else {
      SilentMessage(log, marks[..|marks| - 1], id);
      assert (log + marks)[..|log + marks| - 1] == log + marks[..|marks| - 1];
    }
  }

  lemma MarkCutOffKeeps(s: State, item: Item)
    requires Inv(s)
    ensures Inv(MarkCutOff(s, item))
  {
    var r := MarkCutOff(s, item);
    if r != s {
      var marks := [Sent(MessageChunk(item.id, MarkableMessage(s, item.id).value, "", None, true))];
      Steps(s.log, marks[0], item.id);
      assert Fits(s, item.id, ReadingOf(s.log, item.id), DisplayOf(s.log, item.id));
      hide Inv, ReadingOf, DisplayOf;
      OneMessage(s, r, item.id, marks);
    }
  }

  /** A snapshot of an unsettled message opens it. */
  lemma OpenMessageKeeps(s: State, item: Item)
    requires Inv(s) && item.id !in s.done && IsMessage(item.kind)
    ensures Inv(OpenMessage(Emit(s, [Seen(item)]), item.id))
  {
    var r := OpenMessage(Emit(s, [Seen(item)]), item.id);
    Steps(s.log, Seen(item), item.id);
    assert Fits(s, item.id, ReadingOf(s.log, item.id), DisplayOf(s.log, item.id));
    hide Inv, ReadingOf, DisplayOf;
    OneMessage(s, r, item.id, [Seen(item)]);
  }

  /** An input entry followed by a chunk of the same message. */
  lemma Answered(s: State, r: State, id: Id, m: Mark, n: Note)
    requires Inv(s) && SameBut(s, r, id) && !m.Sent? && AboutOnly([m], id) && n.MessageChunk? && n.owner == id
    requires r.log == s.log + [m, Sent(n)]
    requires Fits(r, id, NextReading(ReadingOf(s.log, id), m, id), NextDisplay(DisplayOf(s.log, id), Sent(n), id))
    ensures Inv(r)
  {
    hide Inv, Fits, SameBut;
    Steps(s.log, m, id);
    Steps(s.log + [m], Sent(n), id);
    assert s.log + [m] + [Sent(n)] == r.log;
    OneMessage(s, r, id, [m, Sent(n)]);
  }

  lemma MessageDeltaKeeps(s: State, id: Id, delta: string)
    requires Inv(s) && delta != ""
    ensures Inv(MessageDelta(s, id, delta))
  {
    assert Fits(s, id, ReadingOf(s.log, id), DisplayOf(s.log, id));
    hide Inv, ReadingOf, DisplayOf;
    if id in s.items && s.items[id].Message? {
      var chunk := MessageChunk(id, s.items[id].msg, delta, None, false);
      Answered(s, MessageDelta(s, id, delta), id, TextDelta(id, delta), chunk);
    } else {
      Dropped(s, id, delta);
    }
  }

  /** A text delta for anything but an open message shows no message text. */
  lemma Dropped(s: State, id: Id, delta: string)
    requires Inv(s) && !(id in s.items && s.items[id].Message?)
    ensures Inv(MessageDelta(s, id, delta))
  {
    var r := MessageDelta(s, id, delta);
    var m := TextDelta(id, delta);
    Steps(s.log, m, id);
    assert Fits(s, id, ReadingOf(s.log, id), DisplayOf(s.log, id));
    hide Inv, ReadingOf, DisplayOf;
    if id in s.items && s.items[id].Monitor? {
      var card := r.log[|r.log| - 1];
      Steps(s.log + [m], card, id);
      assert s.log + [m] + [card] == r.log;
      OneMessage(s, r, id, [m, card]);
    } else {
      OneMessage(s, r, id, [m]);
    }
  }

  lemma ReplayPrefixKeeps(s: State, item: Item)
    requires Inv(s) && IsMessage(item.kind) && item.id !in s.done
    ensures Inv(ReplayPrefix(s, item))
  {
    if MessageText(item) == "" {
    } else if item.id in s.items && s.items[item.id].Message? && s.items[item.id].streamed == 0 {
      PrefixShown(s, item);
    } else {
      Steps(s.log, Prefix(item), item.id);
      assert Fits(s, item.id, ReadingOf(s.log, item.id), DisplayOf(s.log, item.id));
      hide Inv, ReadingOf, DisplayOf;
      OneMessage(s, ReplayPrefix(s, item), item.id, [Prefix(item)]);
    }
  }

  lemma PrefixShown(s: State, item: Item)
    requires Inv(s) && IsMessage(item.kind) && item.id !in s.done && MessageText(item) != ""
    requires item.id in s.items && s.items[item.id].Message? && s.items[item.id].streamed == 0
    ensures Inv(ReplayPrefix(s, item))
  {
    assert Fits(s, item.id, ReadingOf(s.log, item.id), DisplayOf(s.log, item.id));
    hide Inv, ReadingOf, DisplayOf;
    var chunk := MessageChunk(item.id, s.items[item.id].msg, MessageText(item), None, ClaimsCutOff(s, item));
    Answered(s, ReplayPrefix(s, item), item.id, Prefix(item), chunk);
  }

  lemma ReplayMessageKeeps(s: State, item: Item)
    requires Inv(s) && IsMessage(item.kind) && item.id !in s.done
    ensures Inv(ReplayMessage(s, item))
  {
    if MessageText(item) == "" {
      SettledUnshown(s, ReplayMessage(s, item), item, true);
    } else {
      ReplayShown(s, item);
    }
  }

  /** A message settles with nothing left to show. */
  lemma SettledUnshown(s: State, r: State, item: Item, direct: bool)
    requires Inv(s) && item.id !in s.done && r.log == s.log + [Settled(item, direct)]
    requires r == s.(done := s.done + {item.id}, log := r.log, items := r.items)
    requires direct ==> r.items == s.items
    requires !direct ==> r.items == s.items - {item.id}
    requires !(item.id in s.items && s.items[item.id].Message? && s.items[item.id].streamed > 0) || direct
    requires item.kind == AgentMessage ==> item.text == ""
    ensures Inv(r)
  {
    Steps(s.log, Settled(item, direct), item.id);
    assert Fits(s, item.id, ReadingOf(s.log, item.id), DisplayOf(s.log, item.id));
    hide Inv, ReadingOf, DisplayOf;
    OneMessage(s, r, item.id, [Settled(item, direct)]);
  }

  lemma ReplayShown(s: State, item: Item)
    requires Inv(s) && IsMessage(item.kind) && item.id !in s.done && MessageText(item) != ""
    ensures Inv(ReplayMessage(s, item))
  {
    var r := ReplayMessage(s, item);
    assert Fits(s, item.id, ReadingOf(s.log, item.id), DisplayOf(s.log, item.id));
    hide Inv, ReadingOf, DisplayOf;
    Answered(s, r, item.id, Settled(item, true), r.log[|r.log| - 1].note);
  }

  /** A completed reply whose text streamed: only its phase is left to say. */
  lemma StreamedReplyKeeps(s: State, item: Item)
    requires Inv(s) && item.kind == AgentMessage && item.id !in s.done
    requires item.id in s.items && s.items[item.id].Message? && s.items[item.id].streamed > 0
    ensures Inv(CompleteMessage(Settling(s, item), item))
  {
    assert Fits(s, item.id, ReadingOf(s.log, item.id), DisplayOf(s.log, item.id));
    hide Inv, ReadingOf, DisplayOf;
    var chunk := MessageChunk(item.id, s.items[item.id].msg, "", Some(MessagePhase(item)), ClaimsCutOff(s, item));
    Answered(s, CompleteMessage(Settling(s, item), item), item.id, Settled(item, false), chunk);
  }

  /** A completed reply that showed nothing yet. */
  lemma UnstreamedReplyKeeps(s: State, item: Item)
    requires Inv(s) && item.kind == AgentMessage && item.id !in s.done
    requires !(item.id in s.items && s.items[item.id].Message? && s.items[item.id].streamed > 0)
    ensures Inv(CompleteMessage(Settling(s, item), item))
  {
    var r := CompleteMessage(Settling(s, item), item);
    if item.text == "" {
      SettledUnshown(s, r, item, false);
    } else {
      ResentReplyKeeps(s, item);
    }
  }

  lemma ResentReplyKeeps(s: State, item: Item)
    requires Inv(s) && item.kind == AgentMessage && item.id !in s.done && item.text != ""
    requires !(item.id in s.items && s.items[item.id].Message? && s.items[item.id].streamed > 0)
    ensures Inv(CompleteMessage(Settling(s, item), item))
  {
    var r := CompleteMessage(Settling(s, item), item);
    assert Fits(s, item.id, ReadingOf(s.log, item.id), DisplayOf(s.log, item.id));
    hide Inv, ReadingOf, DisplayOf;
    Answered(s, r, item.id, Settled(item, false), r.log[|r.log| - 1].note);
  }

  lemma CompleteMessageKeeps(s: State, item: Item)
    requires Inv(s) && item.kind == AgentMessage && item.id !in s.done
    ensures Inv(CompleteMessage(Settling(s, item), item))
  {
    hide Inv, CompleteMessage, Settling;
    if item.id in s.items && s.items[item.id].Message? && s.items[item.id].streamed > 0 {
      StreamedReplyKeeps(s, item);
    } else {
      UnstreamedReplyKeeps(s, item);
    }
  }

  /** An event of an item of another kind: one input entry, then entries not about messages. */
  lemma OtherKindKeeps(s: State, r: State, item: Item, m: Mark, marks: seq<Mark>)
    requires Inv(s) && item.kind != AgentMessage && (m == Seen(item) || m == Settled(item, false))
    requires SameBut(s, r, item.id) && r.lastMessage == s.lastMessage && r.cutOff == s.cutOff && s.done <= r.done
    requires item.id in r.items && r.items[item.id].Message? && r.items[item.id].streamed > 0 ==>
      item.id in s.items && r.items[item.id] == s.items[item.id]
    requires r.log == s.log + [m] + marks && Silent(marks, Messages)
    ensures Inv(r)
  {
    hide ReadingOf, DisplayOf;
    Steps(s.log, m, item.id);
    SilentMessage(s.log + [m], marks, item.id);
    assert Fits(s, item.id, ReadingOf(s.log, item.id), DisplayOf(s.log, item.id));
    OtherKindFits(s, r, item, ReadingOf(s.log, item.id), DisplayOf(s.log, item.id));
    hide Inv, Fits;
    assert s.log + [m] + marks == s.log + ([m] + marks);
    OneMessage(s, r, item.id, [m] + marks);
  }

  lemma OtherKindFits(s: State, r: State, item: Item, reading: Reading, d: Display)
    requires Fits(s, item.id, reading, d)
    requires r.lastMessage == s.lastMessage && r.cutOff == s.cutOff && s.done <= r.done
    requires item.id in r.items && r.items[item.id].Message? && r.items[item.id].streamed > 0 ==>
      item.id in s.items && r.items[item.id] == s.items[item.id]
    ensures Fits(r, item.id, Mixed, d)
  {
  }

  /** Nothing about messages changes. */
  lemma Unchanged(s: State, r: State, marks: seq<Mark>)
    requires Inv(s) && r.log == s.log + marks && Silent(marks, Messages)
    requires r.items == s.items && r.done == s.done && r.cutOff == s.cutOff && r.lastMessage == s.lastMessage
    ensures Inv(r)
  {
    forall x ensures Fits(r, x, ReadingOf(r.log, x), DisplayOf(r.log, x)) {
      SilentMessage(s.log, marks, x);
    }
  }

  /** A thought's role changes; no message does. */
  lemma ThoughtKeeps(s: State, r: State, marks: seq<Mark>)
    requires Inv(s) && r.log == s.log + marks && Silent(marks, Messages)
    requires r == s.(items := r.items, log := r.log)
    requires r.items.Keys == s.items.Keys
    requires forall x :: x in s.items ==> r.items[x] == s.items[x] || (s.items[x].Thought? && r.items[x].Thought?)
    ensures Inv(r)
  {
    forall x ensures Fits(r, x, ReadingOf(r.log, x), DisplayOf(r.log, x)) {
      SilentMessage(s.log, marks, x);
      assert Fits(s, x, ReadingOf(s.log, x), DisplayOf(s.log, x));
    }
  }
}
