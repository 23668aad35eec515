/**
 AIR child sessions: every session is announced once before anything else is said about
 it, gets at most one state, and no transcript after that state.
 */
module FoldChildren {
  import opened Options
  import opened FoldTypes
  import opened Fold
  import opened Text

  /** What the editor has been told about one child session. */
  datatype Stage = Unannounced | Live | Ended | Broken

  /** The protocol: `Broken` is an update out of turn. */
  function NextStage(stage: Stage, m: Mark, session: Id): Stage {
    if !m.Sent? then stage
    else
      match m.note
      case ChildSpawned(x) => if x != session then stage else if stage == Unannounced then Live else Broken
      case ChildState(x, _) => if x != session then stage else if stage == Live then Ended else Broken
      case ChildTranscript(x) => if x != session then stage else if stage == Live then Live else Broken
      case _ => stage
  }

  function StageOf(log: seq<Mark>, session: Id): Stage {
    if log == [] then Unannounced
    else NextStage(StageOf(log[..|log| - 1], session), log[|log| - 1], session)
  }

  /** Two markers in one name do not overlap when the first is followed by a digit. */
  lemma MarkersApart(name: string, i: nat, j: nat)
    requires MarkerAt(name, i) && MarkerAt(name, j) && i < j
    requires i + |GENERATION| < |name| && IsDigit(name[i + |GENERATION|])
    ensures i + |GENERATION| <= j
  {
    var m := |GENERATION|;
    assert name[j] == name[j..j + m][0] == ':';
    assert name[j + 1] == name[j..j + m][1] == 'g';
    if j < i + m {
      assert name[j] == name[i..i + m][j - i] == GENERATION[j - i];
      assert forall d :: 0 < d < m - 1 ==> GENERATION[d] != ':';
    }
  }

  lemma MarkerPlace(c1: ChildId, g1: nat, c2: ChildId, g2: nat)
    requires 1 < g1 && 1 < g2 && SessionName(c1, g1) == SessionName(c2, g2)
    ensures |c2| <= |c1|
  {
    var name := SessionName(c1, g1);
    assert MarkerAt(name, |c1|) && MarkerAt(name, |c2|);
    if |c1| < |c2| {
      MarkersApart(name, |c1|, |c2|);
      assert c2[|c1|..|c1| + |GENERATION|] == name[|c1|..|c1| + |GENERATION|];
      assert MarkerAt(c2, |c1|);
    }
  }

  /** Different children or generations never share a session id. */
  lemma SessionNameInjective(c1: ChildId, g1: nat, c2: ChildId, g2: nat)
    requires 1 <= g1 && 1 <= g2 && SessionName(c1, g1) == SessionName(c2, g2)
    ensures c1 == c2 && g1 == g2
  {
    var name := SessionName(c1, g1);
    if g1 > 1 && g2 > 1 {
      MarkerPlace(c1, g1, c2, g2);
      MarkerPlace(c2, g2, c1, g1);
      assert c1 == name[..|c1|] == c2;
      assert Decimal(g1) == name[|c1| + |GENERATION|..] == Decimal(g2);
      DecimalInjective(g1, g2);
    } else if g1 > 1 {
      assert MarkerAt(name, |c1|);
    } else if g2 > 1 {
      assert MarkerAt(name, |c2|);
    }
  }

  /** `strays` are the children whose transcript left before they were announced: only their
      first session is `Broken`. */
  ghost function Expected(k: Children, child: ChildId, generation: nat, strays: set<ChildId>): Stage {
    if generation == 1 && child in strays then Broken
    else if child !in k.spawned || generation > Generation(k, child) then Unannounced
    else if generation == Generation(k, child)
            && (child !in k.states || SessionName(child, generation) in k.held) then Live
    else Ended
  }

  ghost predicate Valid(k: Children) {
    && (forall c :: c in k.states ==> c in k.spawned)
    && (forall c :: c in k.generations ==> c in k.spawned && k.generations[c] >= 2)
    && (forall x :: x in k.held ==> x in k.inFlight)
    && (forall c: ChildId, g: nat {:trigger SessionName(c, g)} ::
          1 <= g && SessionName(c, g) in k.held ==> c in k.states && g == Generation(k, c))
  }

  /** The bookkeeping agrees with what the log says about every session. */
  ghost predicate Inv(k: Children, log: seq<Mark>, strays: set<ChildId>) {
    Valid(k) &&
    forall c: ChildId, g: nat {:trigger SessionName(c, g)} ::
      1 <= g ==> StageOf(log, SessionName(c, g)) == Expected(k, c, g, strays)
  }

  /** The same is expected of every session but one. */
  ghost predicate SameBut(
    k: Children, strays: set<ChildId>, k1: Children, strays1: set<ChildId>, child: ChildId, generation: nat)
  {
    forall c: ChildId, g: nat {:trigger Expected(k1, c, g, strays1)} ::
      1 <= g && !(c == child && g == generation) ==> Expected(k1, c, g, strays1) == Expected(k, c, g, strays)
  }

  /** One update about one session. */
  lemma Update(
    k: Children, strays: set<ChildId>, log: seq<Mark>, k1: Children, strays1: set<ChildId>, m: Mark,
    child: ChildId, generation: nat)
    requires Inv(k, log, strays) && Valid(k1) && 1 <= generation && SameBut(k, strays, k1, strays1, child, generation)
    requires m.Sent? && (m.note.ChildSpawned? || m.note.ChildState? || m.note.ChildTranscript?)
    requires m.note.session == SessionName(child, generation)
    requires NextStage(Expected(k, child, generation, strays), m, m.note.session)
      == Expected(k1, child, generation, strays1)
    ensures Inv(k1, log + [m], strays1)
  {
    assert (log + [m])[..|log|] == log;
    forall c: ChildId, g: nat {:trigger SessionName(c, g)} | 1 <= g
      ensures StageOf(log + [m], SessionName(c, g)) == Expected(k1, c, g, strays1)
    {
      if SessionName(c, g) == m.note.session { SessionNameInjective(c, g, child, generation); }
    }
  }

  lemma NamesApart(child: ChildId, generation: nat)
    requires 1 <= generation
    ensures forall c: ChildId, g: nat {:trigger SessionName(c, g)} ::
      1 <= g && SessionName(c, g) == SessionName(child, generation) ==> c == child && g == generation
  {
    forall c: ChildId, g: nat {:trigger SessionName(c, g)}
      | 1 <= g && SessionName(c, g) == SessionName(child, generation)
      ensures c == child && g == generation
    {
      SessionNameInjective(c, g, child, generation);
    }
  }

  /** A child's outcome leaves at once. */
  lemma OutcomeLeaves(k: Children, child: ChildId, state: ChildOutcome, log: seq<Mark>, strays: set<ChildId>)
    requires Inv(k, log, strays) && child in k.spawned && child !in k.states
    ensures Inv(k.(states := k.states[child := state]), log + [Sent(ChildState(ChildSessionId(k, child), state))],
      strays)
  {
    hide SessionName, StageOf;
    var g := Generation(k, child);
    Update(k, strays, log, k.(states := k.states[child := state]), strays, Sent(ChildState(SessionName(child, g),
      state)), child, g);
  }

  /** A child's outcome is held for the read in flight. */
  lemma OutcomeHeld(k: Children, child: ChildId, state: ChildOutcome, log: seq<Mark>, strays: set<ChildId>)
    requires Inv(k, log, strays) && child in k.spawned && child !in k.states && ChildSessionId(k, child) in k.inFlight
    ensures Inv(k.(states := k.states[child := state], held := k.held[ChildSessionId(k, child) := state]), log, strays)
  {
    hide SessionName, StageOf;
    NamesApart(child, Generation(k, child));
  }

  /** A held outcome leaves. */
  lemma HeldLeaves(k: Children, child: ChildId, generation: nat, log: seq<Mark>, strays: set<ChildId>)
    requires Inv(k, log, strays) && 1 <= generation && SessionName(child, generation) in k.held
    ensures var session := SessionName(child, generation);
      Inv(k.(held := k.held - {session}), log + [Sent(ChildState(session, k.held[session]))], strays)
  {
    hide SessionName, StageOf;
    var session := SessionName(child, generation);
    NamesApart(child, generation);
    Update(k, strays, log, k.(held := k.held - {session}), strays, Sent(ChildState(session, k.held[session])), child,
      generation);
  }

  /** An ended child's next generation is announced. */
  lemma RunsAgain(k: Children, child: ChildId, log: seq<Mark>, strays: set<ChildId>)
    requires Inv(k, log, strays) && child in k.states && ChildSessionId(k, child) !in k.held
    ensures var g := Generation(k, child) + 1;
      Inv(k.(states := k.states - {child}, generations := k.generations[child := g], toRead := k.toRead + {child}),
          log + [Sent(ChildSpawned(SessionName(child, g)))], strays)
  {
    hide SessionName, StageOf;
    var g := Generation(k, child) + 1;
    var k1 := k.(states := k.states - {child}, generations := k.generations[child := g], toRead := k.toRead + {child});
    Update(k, strays, log, k1, strays, Sent(ChildSpawned(SessionName(child, g))), child, g);
  }

  lemma NewGenerationKeeps(k: Children, child: ChildId, log: seq<Mark>, strays: set<ChildId>)
    requires Inv(k, log, strays) && child in k.states
    ensures var (k1, marks) := NewGeneration(k, child); Inv(k1, log + marks, strays)
  {
    hide SessionName, StageOf;
    var g := Generation(k, child);
    var session := ChildSessionId(k, child);
    var (_, marks) := NewGeneration(k, child);
    var k1 := k.(held := k.held - {session});
    if session in k.held {
      HeldLeaves(k, child, g, log, strays);
      RunsAgain(k1, child, log + [marks[0]], strays);
      assert log + marks == log + [marks[0]] + [marks[1]];
    } else {
      assert k1 == k;
      RunsAgain(k, child, log, strays);
    }
  }

  lemma SettleChildKeeps(k: Children, child: ChildId, item: Item, log: seq<Mark>, strays: set<ChildId>)
    requires Inv(k, log, strays) && child in k.spawned
    ensures var (k1, marks) := SettleChild(true, k, child, item); Inv(k1, log + marks, strays)
  {
    var (k1, marks) := SettleChild(true, k, child, item);
    assert log + [] == log;
    var state := ChildStateOf(item);
    if state.None? && child in k.states {
      NewGenerationKeeps(k, child, log, strays);
    } else if state.Some? && child !in k.states {
      OutcomeLeaves(k, child, state.value, log, strays);
      if ChildSessionId(k, child) in k.inFlight { OutcomeHeld(k, child, state.value, log, strays); }
    }
  }

  /** Every subagent item, snapshot or completion, keeps the protocol. */
  lemma NativeSubagentKeeps(k: Children, item: Item, log: seq<Mark>, strays: set<ChildId>)
    requires Inv(k, log, strays)
    ensures var (k1, marks) := NativeSubagent(true, k, item); Inv(k1, log + marks, strays)
  {
    assert log + [] == log;
    if item.child != "" {
      if item.child in k.spawned {
        SettleChildKeeps(k, item.child, item, log, strays);
      } else {
        var k1 := k.(spawned := k.spawned + {item.child});
        var m := Sent(ChildSpawned(item.child));
        assert SessionName(item.child, 1) == item.child;
        Update(k, strays, log, k1, strays, m, item.child, 1);
        var (_, marks) := SettleChild(true, k1, item.child, item);
        SettleChildKeeps(k1, item.child, item, log + [m], strays);
        assert log + ([m] + marks) == log + [m] + marks;
      }
    }
  }

  /** The child of a read that ends before the child was announced. */
  function StrayRead(k: Children, child: ChildId, generation: nat): set<ChildId> {
    if generation <= 1 && child !in k.spawned then {child} else {}
  }

  /** The end of any read keeps the protocol of every session, but for the first session of a
      child that was not announced. */
  lemma EndChildReadKeeps(k: Children, child: ChildId, generation: nat, log: seq<Mark>, strays: set<ChildId>)
    requires Inv(k, log, strays)
    ensures var (k1, marks) := EndChildRead(true, k, child, SessionName(child, generation));
      Inv(k1, log + marks, strays + StrayRead(k, child, generation))
  {
    var g := if generation == 0 then 1 else generation;
    assert SessionName(child, generation) == SessionName(child, g);
    assert strays + {} == strays;
    if child in k.spawned && g <= Generation(k, child) {
      KnownReadEnds(k, child, g, log, strays);
    } else if g == 1 {
      StrayReadEnds(k, child, log, strays);
    } else {
      UnknownReadEnds(k, child, g, log, strays);
    }
  }

  /** A read of an announced session, current or superseded. */
  lemma KnownReadEnds(k: Children, child: ChildId, generation: nat, log: seq<Mark>, strays: set<ChildId>)
    requires Inv(k, log, strays) && child in k.spawned && 1 <= generation <= Generation(k, child)
    ensures var (k1, marks) := EndChildRead(true, k, child, SessionName(child, generation));
      Inv(k1, log + marks, strays)
  {
    hide SessionName, StageOf;
    var session := SessionName(child, generation);
    NamesApart(child, Generation(k, child));
    var (k1, marks) := EndChildRead(true, k, child, session);
    var transcript := Sent(ChildTranscript(session));
    assert log + [] == log;
    if session in k.held {
      Update(k, strays, log, k, strays, transcript, child, generation);
      HeldLeaves(k, child, generation, log + [transcript], strays);
      assert log + marks == log + [transcript] + [marks[1]];
    } else {
      assert k1.held == k.held;
      if marks != [] {
        Update(k, strays, log, k1, strays, transcript, child, generation);
      }
    }
  }

  /** A read of a child that was never announced: its transcript leaves all the same. */
  lemma StrayReadEnds(k: Children, child: ChildId, log: seq<Mark>, strays: set<ChildId>)
    requires Inv(k, log, strays) && child !in k.spawned
    ensures var (k1, marks) := EndChildRead(true, k, child, SessionName(child, 1));
      marks == [Sent(ChildTranscript(child))] && Inv(k1, log + marks, strays + {child})
  {
    hide StageOf;
    var (k1, marks) := EndChildRead(true, k, child, SessionName(child, 1));
    assert k1.held == k.held;
    Update(k, strays, log, k1, strays + {child}, Sent(ChildTranscript(child)), child, 1);
  }

  /** A read of a generation still to come sends nothing. */
  lemma UnknownReadEnds(k: Children, child: ChildId, generation: nat, log: seq<Mark>, strays: set<ChildId>)
    requires Inv(k, log, strays) && 1 < generation && Generation(k, child) < generation
    ensures var (k1, marks) := EndChildRead(true, k, child, SessionName(child, generation));
      marks == [] && Inv(k1, log + marks, strays)
  {
    hide SessionName, StageOf;
    NamesApart(child, generation);
    var (k1, marks) := EndChildRead(true, k, child, SessionName(child, generation));
    assert k1.held == k.held && log + [] == log;
  }

  ghost predicate About(m: Mark, session: Id) {
    m.Sent? && (m.note.ChildSpawned? || m.note.ChildState? || m.note.ChildTranscript?) && m.note.session == session
  }

  /** What the protocol says, entry by entry: the first update announces the session and no
      other does, and nothing follows its state. */
  lemma {:induction false} StageMeaning(log: seq<Mark>, session: Id, i: nat)
    requires StageOf(log, session) != Broken && i < |log| && About(log[i], session)
    ensures log[i].note.ChildSpawned? <==> forall j :: 0 <= j < i ==> !About(log[j], session)
    ensures log[i].note.ChildState? ==> forall j :: i < j < |log| ==> !About(log[j], session)
    ensures StageOf(log, session) != Unannounced
    ensures log[i].note.ChildState? ==> StageOf(log, session) == Ended
  {
    var rest := log[..|log| - 1];
    if i < |log| - 1 {
      StageMeaning(rest, session, i);
      assert forall j :: 0 <= j < i ==> rest[j] == log[j];
    } else {
      Silence(rest, session);
      assert forall j :: 0 <= j < i ==> rest[j] == log[j];
    }
  }

  lemma {:induction false} Silence(log: seq<Mark>, session: Id)
    requires StageOf(log, session) != Broken
    ensures StageOf(log, session) == Unannounced <==> forall j :: 0 <= j < |log| ==> !About(log[j], session)
  {
    if log != [] {
      var rest := log[..|log| - 1];
      Silence(rest, session);
      assert forall j :: 0 <= j < |rest| ==> rest[j] == log[j];
    }
  }

  /** Entries that are not child updates change nothing. */
  lemma {:induction false} SilentStage(log: seq<Mark>, marks: seq<Mark>, session: Id)
    requires Silent(marks, Kids)
    ensures StageOf(log + marks, session) == StageOf(log, session)
  {
    if marks == [] {
      assert log + marks == log;
    } else {
      SilentStage(log, marks[..|marks| - 1], session);
      assert (log + marks)[..|log + marks| - 1] == log + marks[..|marks| - 1];
    }
  }

  lemma SilentKeeps(k: Children, log: seq<Mark>, marks: seq<Mark>, strays: set<ChildId>)
    requires Inv(k, log, strays) && Silent(marks, Kids)
    ensures Inv(k, log + marks, strays)
  {
    forall c: ChildId, g: nat {:trigger SessionName(c, g)} | 1 <= g
      ensures StageOf(log + marks, SessionName(c, g)) == Expected(k, c, g, strays)
    {
      SilentStage(log, marks, SessionName(c, g));
    }
  }
}
