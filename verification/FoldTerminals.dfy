/**
 Agent-owned terminals: opened only for a command that ran, then output, then at most one
 exit; the output shown is the first `maxContent` characters of the output routed to it.
 */
module FoldTerminals {
  import opened Options
  import opened FoldTypes
  import opened Fold
  import opened Text

  /** One item's terminal: the output routed to it so far and what was shown of it. `ran`
      records evidence that the command ran: output, or a settled status that says so. */
  datatype Screen =
    | Idle(ran: bool, fed: string)
    | Showing(fed: string, shown: string)
    | Exited(fed: string, shown: string)
    | Broken

  function NextScreen(screen: Screen, m: Mark, id: Id): Screen {
    match m
    case Routed(x, text) =>
      if x != id then screen
      else if screen.Idle? then Idle(true, screen.fed + text)
      else if screen.Showing? then Showing(screen.fed + text, screen.shown)
      else Broken
    case Settled(item, _) =>
      if item.id == id && screen.Idle? && Ran(item) then Idle(true, screen.fed) else screen
    case Sent(TerminalOpened(x)) =>
      if x != id then screen else if screen.Idle? && screen.ran then Showing(screen.fed, "") else Broken
    case Sent(TerminalOutput(x, text)) =>
      if x != id then screen else if screen.Showing? then Showing(screen.fed, screen.shown + text) else Broken
    case Sent(TerminalExited(x, _)) =>
      if x != id then screen else if screen.Showing? then Exited(screen.fed, screen.shown) else Broken
    case _ => screen
  }

  function ScreenOf(log: seq<Mark>, id: Id): Screen {
    if log == [] then Idle(false, "")
    else NextScreen(ScreenOf(log[..|log| - 1], id), log[|log| - 1], id)
  }

  function FirstChars(s: string, max: nat): string {
    if |s| <= max then s else s[..max]
  }

  ghost predicate Fits(cfg: Config, h: Shells, done: set<Id>, id: Id, screen: Screen) {
    match screen
    case Idle(_, fed) => fed == "" && id !in h.open
    case Showing(fed, shown) =>
      && id in h.open && id in h.commands && h.open[id] == |shown|
      && shown == FirstChars(fed, cfg.maxContent)
    case Exited(fed, shown) =>
      && id !in h.open && id !in h.commands && id in done
      && shown == FirstChars(fed, cfg.maxContent)
    case Broken => false
  }

  ghost predicate Inv(cfg: Config, h: Shells, done: set<Id>, log: seq<Mark>) {
    forall id :: Fits(cfg, h, done, id, ScreenOf(log, id))
  }

  lemma ScreenAppend(log: seq<Mark>, m: Mark)
    ensures forall id :: ScreenOf(log + [m], id) == NextScreen(ScreenOf(log, id), m, id)
  {
    assert (log + [m])[..|log|] == log;
  }

  lemma NoteShellKeeps(cfg: Config, h: Shells, done: set<Id>, item: Item, tc: Id, log: seq<Mark>)
    requires Inv(cfg, h, done, log) && !ScreenOf(log, item.id).Exited?
    ensures Inv(cfg, NoteShell(cfg, h, item, tc), done, log)
  {
  }

  /** Entries about one item leave the other terminals alone. */
  ghost predicate AboutOnly(marks: seq<Mark>, id: Id) {
    forall i :: 0 <= i < |marks| ==>
      match marks[i]
      case Routed(x, _) => x == id
      case Sent(TerminalOpened(x)) => x == id
      case Sent(TerminalOutput(x, _)) => x == id
      case Sent(TerminalExited(x, _)) => x == id
      case Settled(_, _) => false
      case _ => true
  }

  lemma {:induction false} OthersKeep(log: seq<Mark>, marks: seq<Mark>, id: Id, x: Id)
    requires AboutOnly(marks, id) && x != id
    ensures ScreenOf(log + marks, x) == ScreenOf(log, x)
  {
    if marks == [] {
      assert log + marks == log;
    } else {
      var rest := marks[..|marks| - 1];
      OthersKeep(log, rest, id, x);
      assert (log + marks)[..|log + marks| - 1] == log + rest;
    }
  }

  /** One item's terminal changes; the invariant needs to be shown for that item alone. */
  lemma OneTerminal(cfg: Config, h: Shells, h1: Shells, done: set<Id>, id: Id, log: seq<Mark>, marks: seq<Mark>)
    requires Inv(cfg, h, done, log) && AboutOnly(marks, id) && Fits(cfg, h1, done, id, ScreenOf(log + marks, id))
    requires forall x :: x != id ==>
      && (x in h1.commands <==> x in h.commands) && (x in h1.open <==> x in h.open)
      && (x in h.open ==> h1.open[x] == h.open[x])
    ensures Inv(cfg, h1, done, log + marks)
  {
    forall x ensures Fits(cfg, h1, done, x, ScreenOf(log + marks, x)) {
      if x != id { OthersKeep(log, marks, id, x); }
    }
  }

  lemma ScreenStep(log: seq<Mark>, m: Mark, id: Id)
    ensures ScreenOf(log + [m], id) == NextScreen(ScreenOf(log, id), m, id)
  {
    assert (log + [m])[..|log|] == log;
  }

  lemma Opened(h: Shells, id: Id, log: seq<Mark>)
    requires id in h.commands
    requires if id in h.open then ScreenOf(log, id).Showing? else ScreenOf(log, id).Idle? && ScreenOf(log, id).ran
    ensures var (h1, marks) := OpenTerminal(h, id);
      ScreenOf(log + marks, id) == if id in h.open then ScreenOf(log, id) else Showing(ScreenOf(log, id).fed, "")
  {
    var (h1, marks) := OpenTerminal(h, id);
    if id in h.open {
      assert log + marks == log;
    } else {
      ScreenStep(log, marks[0], id);
      ScreenStep(log + [marks[0]], marks[1], id);
      assert log + marks == log + [marks[0]] + [marks[1]];
    }
  }

  /** The budget arithmetic: what the terminal shows stays the first `max` characters. */
  lemma BudgetShows(max: Limit, fed: string, shown: string, delta: string)
    requires shown == FirstChars(fed, max)
    ensures shown + Budgeted(max, |shown|, delta) == FirstChars(fed + delta, max)
  {
    if |fed| <= max {
      assert fed + delta[..] == fed + delta;
      if |fed + delta| > max {
        assert (fed + delta)[..max] == fed + delta[..max - |fed|];
      }
    } else {
      assert (fed + delta)[..max] == fed[..max];
      assert shown + [] == shown;
    }
  }

  lemma NothingFits(max: Limit)
    ensures FirstChars("", max) == ""
  {
  }

  lemma TerminalDeltaKeeps(cfg: Config, h: Shells, done: set<Id>, id: Id, delta: string, log: seq<Mark>)
    requires Inv(cfg, h, done, log) && id in h.commands
    ensures var (h1, marks) := TerminalDelta(cfg, h, id, delta); Inv(cfg, h1, done, log + marks)
  {
    hide ScreenOf, Budgeted, FirstChars;
    var before := ScreenOf(log, id);
    assert Fits(cfg, h, done, id, before);
    NothingFits(cfg.maxContent);
    var (h2, marks) := TerminalDelta(cfg, h, id, delta);
    var (h1, open) := OpenTerminal(h, id);
    var log1 := log + [Routed(id, delta)];
    ScreenStep(log, Routed(id, delta), id);
    Opened(h, id, log1);
    var shown := if before.Showing? then before.shown else "";
    assert ScreenOf(log1 + open, id) == Showing(before.fed + delta, shown);
    BudgetShows(cfg.maxContent, before.fed, shown, delta);
    var text := Budgeted(cfg.maxContent, |shown|, delta);
    if text == "" {
      assert log + marks == log1 + open;
      assert shown + "" == shown;
    } else {
      ScreenStep(log1 + open, Sent(TerminalOutput(id, text)), id);
      assert log + marks == log1 + open + [Sent(TerminalOutput(id, text))];
    }
    OneTerminal(cfg, h, h2, done, id, log, marks);
  }

  /** An item's settlement, with or without its terminal being finished. */
  lemma SettleKeeps(cfg: Config, h: Shells, done: set<Id>, item: Item, direct: bool, log: seq<Mark>)
    requires Inv(cfg, h, done, log) && item.id !in done
    ensures var log1 := log + [Settled(item, direct)];
      && Inv(cfg, h, done + {item.id}, log1)
      && !ScreenOf(log1, item.id).Exited?
      && (Ran(item) ==> ScreenOf(log1, item.id).Showing? || ScreenOf(log1, item.id) == Idle(true, ""))
  {
    ScreenAppend(log, Settled(item, direct));
  }

  lemma FinishTerminalKeeps(cfg: Config, h: Shells, done: set<Id>, item: Item, log: seq<Mark>)
    requires Inv(cfg, h, done, log) && item.id in done && !ScreenOf(log, item.id).Exited?
    requires Ran(item) ==> ScreenOf(log, item.id).Showing? || ScreenOf(log, item.id) == Idle(true, "")
    ensures var (h1, marks, _) := FinishTerminal(cfg, h, item); Inv(cfg, h1, done, log + marks)
  {
    hide ScreenOf, FirstChars, Truncate;
    var id := item.id;
    assert Fits(cfg, h, done, id, ScreenOf(log, id));
    NothingFits(cfg.maxContent);
    var (h2, marks, _) := FinishTerminal(cfg, h, item);
    if (id in h.open || Ran(item)) && id in h.commands {
      Opened(h, id, log);
      var (h1, open) := OpenTerminal(h, id);
      var exit := marks[|marks| - 1];
      ScreenStep(log + open, exit, id);
      assert log + open + [exit] == log + marks;
    } else {
      assert log + marks == log;
    }
    OneTerminal(cfg, h, h2, done, id, log, marks);
  }

  /** Entries that are not about terminals change nothing. */
  lemma {:induction false} SilentScreen(log: seq<Mark>, marks: seq<Mark>, id: Id)
    requires Silent(marks, Terminals)
    ensures ScreenOf(log + marks, id) == ScreenOf(log, id)
  {
    if marks == [] {
      assert log + marks == log;
    } else {
      SilentScreen(log, marks[..|marks| - 1], id);
      assert (log + marks)[..|log + marks| - 1] == log + marks[..|marks| - 1];
    }
  }

  lemma SilentKeeps(cfg: Config, h: Shells, done: set<Id>, log: seq<Mark>, marks: seq<Mark>)
    requires Inv(cfg, h, done, log) && Silent(marks, Terminals)
    ensures Inv(cfg, h, done, log + marks)
  {
    forall id ensures Fits(cfg, h, done, id, ScreenOf(log + marks, id)) {
      SilentScreen(log, marks, id);
    }
  }
}
