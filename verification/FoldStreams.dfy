/**
 Streams to one item: the summary of a reasoning item is shown part by part, or whole when
 nothing streamed, and the output of a tool call that is no shell is shown up to the budget.
 */
module FoldStreams {
  import opened Options
  import opened FoldTypes
  import opened Fold
  import FoldTerminals

  function Concat(texts: seq<string>): string {
    if texts == [] then "" else Concat(texts[..|texts| - 1]) + texts[|texts| - 1]
  }

  function Deltas(id: Id, field: Field, texts: seq<string>): seq<Event> {
    seq(|texts|, i requires 0 <= i < |texts| => DeltaEvent(id, field, texts[i]))
  }

  lemma DeltasLast(id: Id, field: Field, texts: seq<string>)
    requires texts != []
    ensures var all := Deltas(id, field, texts);
      && |all| == |texts| && all[|all| - 1] == DeltaEvent(id, field, texts[|texts| - 1])
      && all[..|all| - 1] == Deltas(id, field, texts[..|texts| - 1])
  {
  }

  lemma RunDeltas(s: State, id: Id, field: Field, texts: seq<string>)
    requires texts != []
    ensures Run(s, Deltas(id, field, texts)) ==
      Delta(Run(s, Deltas(id, field, texts[..|texts| - 1])), id, field, texts[|texts| - 1])
  {
    hide Snapshot, Delta, Deltas, ItemCompleted, Replay, FlushUnless, SeedTask, SettleBackground, Disconnect;
    hide EndChildRead;
    DeltasLast(id, field, texts);
  }

  lemma RunNothing(s: State)
    ensures Run(s, []) == s
  {
  }

  lemma {:induction false} RunInParts(s: State, a: seq<Event>, b: seq<Event>)
    ensures Run(s, a + b) == Run(Run(s, a), b)
    decreases |b|
  {
    hide Step;
    if b == [] {
      assert a + b == a;
    } else {
      assert (a + b)[..|a + b| - 1] == a + b[..|b| - 1];
      RunInParts(s, a, b[..|b| - 1]);
    }
  }

  // ---------- the output of tool calls ----------

  /** The output sent to a card. */
  function OutputText(log: seq<Mark>, tc: Id): string {
    if log == [] then ""
    else
      var rest, m := OutputText(log[..|log| - 1], tc), log[|log| - 1];
      if m.Sent? && m.note.OutputChunk? && m.note.tc == tc then rest + m.note.text else rest
  }

  lemma OutputAppend(log: seq<Mark>, m: Mark, tc: Id)
    ensures OutputText(log + [m], tc) ==
      OutputText(log, tc) + if m.Sent? && m.note.OutputChunk? && m.note.tc == tc then m.note.text else ""
  {
    assert (log + [m])[..|log|] == log;
  }

  /** The output streamed to a tool call that is no shell is shown up to the budget. */
  lemma {:induction false} ToolOutputShown(s: State, id: Id, texts: seq<string>)
    requires s.cfg.v2 && id !in s.shells.commands && id !in s.streamedOutput && id in s.items && s.items[id].Tool?
    ensures var r, tc := Run(s, Deltas(id, Output, texts)), s.items[id].tc;
      var shown := FoldTerminals.FirstChars(Concat(texts), s.cfg.maxContent);
      && OutputText(r.log, tc) == OutputText(s.log, tc) + shown
      && r.streamedOutput == (if id in r.streamedOutput then s.streamedOutput[id := |shown|] else s.streamedOutput)
      && (id !in r.streamedOutput ==> shown == "")
      && r == s.(log := r.log, streamedOutput := r.streamedOutput)
    decreases |texts|
  {
    hide Run, Delta, Deltas, Budgeted, OutputText, FoldTerminals.FirstChars;
    var tc, max := s.items[id].tc, s.cfg.maxContent;
    if texts == [] {
      FoldTerminals.NothingFits(max);
      NoDeltas(id, Output);
      RunNothing(s);
      assert OutputText(s.log, tc) + "" == OutputText(s.log, tc);
    } else {
      var rest, text := texts[..|texts| - 1], texts[|texts| - 1];
      var t := Run(s, Deltas(id, Output, rest));
      ToolOutputShown(s, id, rest);
      RunDeltas(s, id, Output, texts);
      var shown := FoldTerminals.FirstChars(Concat(rest), max);
      FoldTerminals.BudgetShows(max, Concat(rest), shown, text);
      if text == "" {
        EmptyDelta(t, id, Output);
        assert Concat(texts) == Concat(rest);
      } else {
        hide Concat;
        OneChunk(t, id, text, |shown|);
        assert OutputText(s.log, tc) + shown + Budgeted(max, |shown|, text)
            == OutputText(s.log, tc) + (shown + Budgeted(max, |shown|, text));
      }
    }
  }

  lemma EmptyDelta(s: State, id: Id, field: Field)
    ensures Delta(s, id, field, "") == s
  {
  }

  lemma NoDeltas(id: Id, field: Field)
    ensures Deltas(id, field, []) == []
  {
  }

  lemma OneChunk(s: State, id: Id, text: string, streamed: nat)
    requires s.cfg.v2 && id !in s.shells.commands && id in s.items && s.items[id].Tool? && text != ""
    requires streamed == if id in s.streamedOutput then s.streamedOutput[id] else 0
    ensures var r, more := Delta(s, id, Output, text), Budgeted(s.cfg.maxContent, streamed, text);
      && OutputText(r.log, s.items[id].tc) == OutputText(s.log, s.items[id].tc) + more
      && r == s.(log := r.log, streamedOutput := s.streamedOutput[id := streamed + |more|])
  {
    hide Budgeted, OutputText;
    var more := Budgeted(s.cfg.maxContent, streamed, text);
    var tc := s.items[id].tc;
    if more == "" {
      assert s.log + [] == s.log && OutputText(s.log, tc) + "" == OutputText(s.log, tc);
    } else {
      OutputAppend(s.log, Sent(OutputChunk(tc, more)), tc);
    }
  }

  // ---------- reasoning ----------

  /** The reasoning sent under a message id. */
  function ThoughtText(log: seq<Mark>, msg: nat): string {
    if log == [] then ""
    else
      var rest, m := ThoughtText(log[..|log| - 1], msg), log[|log| - 1];
      if m.Sent? && m.note.ThoughtChunk? && m.note.msg == msg then rest + m.note.text else rest
  }

  lemma ThoughtAppend(log: seq<Mark>, m: Mark, msg: nat)
    ensures ThoughtText(log + [m], msg) ==
      ThoughtText(log, msg) + if m.Sent? && m.note.ThoughtChunk? && m.note.msg == msg then m.note.text else ""
  {
    assert (log + [m])[..|log|] == log;
  }

  /** A part of a summary: at least one delta, none of them empty. */
  predicate Part(texts: seq<string>) {
    texts != [] && forall i :: 0 <= i < |texts| ==> texts[i] != ""
  }

  /** The parts as paragraphs, with an empty line between them. */
  function Paragraphs(parts: seq<seq<string>>): string {
    if parts == [] then ""
    else if |parts| == 1 then Concat(parts[0])
    else Paragraphs(parts[..|parts| - 1]) + "\n\n" + Concat(parts[|parts| - 1])
  }

  function Summaries(id: Id, parts: seq<seq<string>>): seq<Event> {
    if parts == [] then []
    else Summaries(id, parts[..|parts| - 1]) + Deltas(id, Summary(|parts| - 1), parts[|parts| - 1])
  }

  /** Between two states the reasoning item showed `more`, and now stands at this part. */
  ghost predicate Thinks(s: State, r: State, id: Id, more: string, part: nat) {
    && id in s.items && s.items[id].Thought?
    && var msg := s.items[id].msg;
    && ThoughtText(r.log, msg) == ThoughtText(s.log, msg) + more
    && r == s.(log := r.log, items := s.items[id := Thought(msg, s.items[id].streamed + |more|, part)])
  }

  lemma ThinksThrough(s: State, t: State, r: State, id: Id, a: string, b: string, p: nat, q: nat)
    requires Thinks(s, t, id, a, p) && Thinks(t, r, id, b, q)
    ensures Thinks(s, r, id, a + b, q)
  {
    hide ThoughtText;
    var msg := s.items[id].msg;
    var now := Thought(msg, s.items[id].streamed + |a + b|, q);
    assert t.items[id := now] == s.items[id := now];
    assert ThoughtText(s.log, msg) + a + b == ThoughtText(s.log, msg) + (a + b);
  }

  lemma ThinksNothing(s: State, id: Id)
    requires id in s.items && s.items[id].Thought?
    ensures Thinks(s, s, id, "", s.items[id].part)
  {
    hide ThoughtText;
    assert s.items[id := s.items[id]] == s.items;
    assert ThoughtText(s.log, s.items[id].msg) + "" == ThoughtText(s.log, s.items[id].msg);
  }

  lemma ThinksAt(s: State, r: State, id: Id, more: string, part: nat)
    requires Thinks(s, r, id, more, part)
    ensures id in s.items && s.items[id].Thought? && id in r.items
    ensures r.items[id] == Thought(s.items[id].msg, s.items[id].streamed + |more|, part)
  {
  }

  /** A delta of this part or a later one, which starts with an empty line. */
  lemma OneSummary(s: State, id: Id, part: nat, text: string)
    requires text != "" && id in s.items && s.items[id].Thought? && s.items[id].part <= part
    ensures var before := if part > s.items[id].part then "\n\n" else "";
      Thinks(s, Delta(s, id, Summary(part), text), id, before + text, part)
  {
    hide ThoughtText;
    var more := (if part > s.items[id].part then "\n\n" else "") + text;
    assert "" + text == text;
    ThoughtAppend(s.log, Sent(ThoughtChunk(s.items[id].msg, more)), s.items[id].msg);
  }

  /** The deltas of one part are shown one after the other, after an empty line if the part is new. */
  lemma {:induction false} PartShown(s: State, id: Id, part: nat, texts: seq<string>)
    requires Part(texts) && id in s.items && s.items[id].Thought? && s.items[id].part <= part
    ensures var before := if part > s.items[id].part then "\n\n" else "";
      && Thinks(s, Run(s, Deltas(id, Summary(part), texts)), id, before + Concat(texts), part)
      && Concat(texts) != ""
    decreases |texts|
  {
    hide Thinks, Deltas, Delta, Run;
    var rest, text := texts[..|texts| - 1], texts[|texts| - 1];
    RunDeltas(s, id, Summary(part), texts);
    var t := Run(s, Deltas(id, Summary(part), rest));
    var before := if part > s.items[id].part then "\n\n" else "";
    if rest == [] {
      NoDeltas(id, Summary(part));
      RunNothing(s);
      OneSummary(s, id, part, text);
      assert Concat(texts) == "" + text == text;
    } else {
      PartShown(s, id, part, rest);
      ThinksAt(s, t, id, before + Concat(rest), part);
      OneSummary(t, id, part, text);
      ThinksThrough(s, t, Delta(t, id, Summary(part), text), id, before + Concat(rest), "" + text, part, part);
      assert before + Concat(rest) + ("" + text) == before + Concat(texts);
    }
  }

  /** A summary that streams in parts is shown as paragraphs. */
  lemma {:induction false} SummaryShown(s: State, id: Id, parts: seq<seq<string>>)
    requires id in s.items && s.items[id].Thought? && s.items[id].part == 0
    requires forall i :: 0 <= i < |parts| ==> Part(parts[i])
    ensures Thinks(s, Run(s, Summaries(id, parts)), id, Paragraphs(parts), if parts == [] then 0 else |parts| - 1)
    ensures parts != [] ==> Paragraphs(parts) != ""
    decreases |parts|
  {
    hide Thinks, Deltas, Part, Run, Concat, Paragraphs;
    if parts == [] {
      RunNothing(s);
      NoSummaries(id);
      ThinksNothing(s, id);
    } else {
      var rest, last := parts[..|parts| - 1], parts[|parts| - 1];
      var part := |parts| - 1;
      SummaryShown(s, id, rest);
      RunInParts(s, Summaries(id, rest), Deltas(id, Summary(part), last));
      var t, at := Run(s, Summaries(id, rest)), if rest == [] then 0 else |rest| - 1;
      ThinksAt(s, t, id, Paragraphs(rest), at);
      PartShown(t, id, part, last);
      var more := (if part > at then "\n\n" else "") + Concat(last);
      ThinksThrough(s, t, Run(t, Deltas(id, Summary(part), last)), id, Paragraphs(rest), more, at, part);
      LastParagraph(parts);
    }
  }

  lemma LastParagraph(parts: seq<seq<string>>)
    requires parts != []
    ensures var rest, last := parts[..|parts| - 1], Concat(parts[|parts| - 1]);
      Paragraphs(parts) == Paragraphs(rest) + ((if |parts| > 1 then "\n\n" else "") + last)
  {
    hide Concat;
    assert "" + ("" + Concat(parts[|parts| - 1])) == Concat(parts[|parts| - 1]);
  }

  /** Reasoning that streamed, from its first snapshot to its completion: it shows its paragraphs,
      and the completed text is not shown again. */
  lemma ReasoningShown(s: State, first: Item, parts: seq<seq<string>>, final: Item)
    requires first.kind == Reasoning && final.kind == Reasoning && first.id == final.id
    requires first.id !in s.items && first.id !in s.done
    requires parts != [] && forall i :: 0 <= i < |parts| ==> Part(parts[i])
    ensures var t := Run(Snapshot(s, first), Summaries(first.id, parts));
      && ThoughtText(t.log, s.next) == ThoughtText(s.log, s.next) + Paragraphs(parts)
      && forall msg :: ThoughtText(Complete(t, final).log, msg) == ThoughtText(t.log, msg)
  {
    hide *;
    var s1 := Snapshot(s, first);
    ReasoningStarts(s, first, s.next);
    SummaryShown(s1, first.id, parts);
    var t, text, part := Run(s1, Summaries(first.id, parts)), Paragraphs(parts), |parts| - 1;
    ThinksAt(s1, t, first.id, text, part);
    ThinksFrom(s1, t, first.id, text, part);
    assert t.items[final.id].streamed > 0;
    ReasoningSettles(t, final);
  }

  lemma ThinksFrom(s: State, r: State, id: Id, more: string, part: nat)
    requires Thinks(s, r, id, more, part)
    ensures id in s.items && s.items[id].Thought? && r.done == s.done
    ensures ThoughtText(r.log, s.items[id].msg) == ThoughtText(s.log, s.items[id].msg) + more
  {
    hide ThoughtText;
  }

  /** Reasoning that never streamed shows the completed text, once, under a new message id. */
  lemma ReasoningWhole(s: State, first: Item, final: Item)
    requires first.kind == Reasoning && final.kind == Reasoning && first.id == final.id
    requires first.id !in s.items && first.id !in s.done
    ensures var r := Complete(Snapshot(s, first), final);
      forall msg :: ThoughtText(r.log, msg) ==
        if msg == s.next + 1 then ThoughtText(s.log, msg) + final.text else ThoughtText(s.log, msg)
  {
    hide ThoughtText, Snapshot, Complete;
    ReasoningStarts(s, first, s.next);
    ReasoningSettles(Snapshot(s, first), final);
    forall msg ensures ThoughtText(Snapshot(s, first).log, msg) == ThoughtText(s.log, msg) {
      ReasoningStarts(s, first, msg);
    }
  }

  lemma ReasoningStarts(s: State, item: Item, msg: nat)
    requires item.kind == Reasoning && item.id !in s.items && item.id !in s.done
    ensures var r := Snapshot(s, item);
      && item.id in r.items && r.items[item.id] == Thought(s.next, 0, 0)
      && r.next == s.next + 1 && r.done == s.done
      && ThoughtText(r.log, msg) == ThoughtText(s.log, msg)
  {
    hide ThoughtText, ObserveWorkflow;
    ThoughtAppend(s.log, Seen(item), msg);
  }

  lemma NoSummaries(id: Id)
    ensures Summaries(id, []) == [] && Paragraphs([]) == ""
  {
  }

  lemma ReasoningSettles(s: State, item: Item)
    requires item.kind == Reasoning && item.id !in s.done && item.id in s.items && s.items[item.id].Thought?
    ensures var whole := s.items[item.id].streamed == 0;
      forall msg :: ThoughtText(Complete(s, item).log, msg) ==
        if whole && msg == s.next then ThoughtText(s.log, msg) + item.text else ThoughtText(s.log, msg)
  {
    hide ThoughtText, ObserveWorkflow;
    var r := Complete(s, item);
    var chunk := Sent(ThoughtChunk(s.next, item.text));
    forall msg ensures ThoughtText(r.log, msg) ==
      if msg == s.next && s.items[item.id].streamed == 0 then ThoughtText(s.log, msg) + item.text
      else ThoughtText(s.log, msg)
    {
      ThoughtAppend(s.log, Settled(item, false), msg);
      ThoughtAppend(s.log + [Settled(item, false)], chunk, msg);
      assert ThoughtText(s.log, msg) + "" == ThoughtText(s.log, msg);
    }
  }
}
