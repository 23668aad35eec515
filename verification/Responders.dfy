/**
 The table of open editor requests (`src/editor.rs`). Any number of threads answer requests
 or sweep at shutdown; each step below is one atomic access to the shared state, and a run
 is any interleaving of such steps. Requests have distinct ids and the connection is live.
 */
module Responders {

  type Id = string

  /** What a thread is about to do. */
  datatype Pc =
    | Idle
    | Checked(id: Id)        // `take_responder` saw the connection unsealed
    | Holding(id: Id)        // it removed the responder and will answer
    | Swapped                // `fail_unanswered` sealed the connection
    | Sweeping(open: seq<Id>) // it drained the table and answers one by one

  datatype Answer = Answer(id: Id, swept: bool)

  /** `held` is every id ever received; `answers` is what the client was sent. */
  datatype State = State(sealed: bool, table: set<Id>, threads: seq<Pc>, held: set<Id>, answers: seq<Answer>)

  /** `order` is the order in which the drained table is walked. */
  datatype Step =
    | Hold(id: Id)
    | Check(t: nat, id: Id)
    | Take(t: nat)
    | Respond(t: nat)
    | Swap(t: nat)
    | Drain(t: nat, order: seq<Id>)
    | RespondNext(t: nat)

  function Init(threads: nat): State {
    State(false, {}, seq(threads, _ => Idle), {}, [])
  }

  predicate At(s: State, t: nat, pc: Pc) {
    t < |s.threads| && s.threads[t] == pc
  }

  function Goto(s: State, t: nat, pc: Pc): State
    requires t < |s.threads|
  {
    s.(threads := s.threads[t := pc])
  }

  predicate Lists(order: seq<Id>, ids: set<Id>) {
    && (forall i :: 0 <= i < |order| ==> order[i] in ids)
    && (forall id :: id in ids ==> id in order)
    && (forall i, j :: 0 <= i < j < |order| ==> order[i] != order[j])
  }

  predicate Enabled(s: State, step: Step) {
    match step
    case Hold(id) => id !in s.held
    case Check(t, id) => At(s, t, Idle)
    case Take(t) => t < |s.threads| && s.threads[t].Checked?
    case Respond(t) => t < |s.threads| && s.threads[t].Holding?
    case Swap(t) => At(s, t, Idle)
    case Drain(t, order) => At(s, t, Swapped) && Lists(order, s.table)
    case RespondNext(t) => t < |s.threads| && s.threads[t].Sweeping?
  }

  /** One atomic step; a step that is not enabled does not happen. */
  function Next(s: State, step: Step): State {
    if !Enabled(s, step) then s
    else
      match step
      case Hold(id) => s.(table := s.table + {id}, held := s.held + {id})
      case Check(t, id) => if s.sealed then s else Goto(s, t, Checked(id))
      case Take(t) =>
        var id := s.threads[t].id;
        if id in s.table then Goto(s.(table := s.table - {id}), t, Holding(id)) else Goto(s, t, Idle)
      case Respond(t) => Goto(s.(answers := s.answers + [Answer(s.threads[t].id, false)]), t, Idle)
      case Swap(t) => if s.sealed then s else Goto(s.(sealed := true), t, Swapped)
      case Drain(t, order) => Goto(s.(table := {}), t, Sweeping(order))
      case RespondNext(t) =>
        var open := s.threads[t].open;
        if open == [] then Goto(s, t, Idle)
        else Goto(s.(answers := s.answers + [Answer(open[0], true)]), t, Sweeping(open[1..]))
  }

  function Run(s: State, steps: seq<Step>): State {
    if steps == [] then s else Next(Run(s, steps[..|steps| - 1]), steps[|steps| - 1])
  }

  // ---------- where a request is ----------

  /** How often a thread has the request in hand, to answer it as `swept` says. */
  function InHand(pc: Pc, id: Id, swept: bool): nat {
    match pc
    case Holding(x) => if x == id && !swept then 1 else 0
    case Sweeping(open) => if swept then multiset(open)[id] else 0
    case _ => 0
  }

  function InHands(threads: seq<Pc>, id: Id, swept: bool): nat {
    if threads == [] then 0
    else InHands(threads[..|threads| - 1], id, swept) + InHand(threads[|threads| - 1], id, swept)
  }

  function Answers(answers: seq<Answer>, id: Id, swept: bool): nat {
    if answers == [] then 0
    else
      Answers(answers[..|answers| - 1], id, swept) + (if answers[|answers| - 1] == Answer(id, swept) then 1 else 0)
  }

  /** Answered by, or in the hands of, the sweep (or the answering threads). */
  function Served(s: State, id: Id, swept: bool): nat {
    InHands(s.threads, id, swept) + Answers(s.answers, id, swept)
  }

  function TimesAnswered(s: State, id: Id): nat {
    Answers(s.answers, id, false) + Answers(s.answers, id, true)
  }

  /** Conservation: a received request is in the table, in one hand or answered, just once. */
  ghost predicate Inv(s: State) {
    forall id :: (if id in s.table then 1 else 0) + Served(s, id, false) + Served(s, id, true)
              == (if id in s.held then 1 else 0)
  }

  lemma {:induction false} HandsUpdate(threads: seq<Pc>, t: nat, pc: Pc, id: Id, swept: bool)
    requires t < |threads|
    ensures InHands(threads[t := pc], id, swept) + InHand(threads[t], id, swept)
      == InHands(threads, id, swept) + InHand(pc, id, swept)
  {
    var n := |threads| - 1;
    if t < n {
      HandsUpdate(threads[..n], t, pc, id, swept);
      assert threads[t := pc][..n] == threads[..n][t := pc];
    } else {
      assert threads[t := pc][..n] == threads[..n];
    }
  }

  lemma AnswersAppend(answers: seq<Answer>, a: Answer, id: Id, swept: bool)
    ensures Answers(answers + [a], id, swept) == Answers(answers, id, swept) + if a == Answer(id, swept) then 1 else 0
  {
    assert (answers + [a])[..|answers|] == answers;
  }

  /** A thread that gives a request away answers it, in the same step. */
  lemma Handover(s: State, t: nat, a: Answer, pc: Pc, id: Id, swept: bool)
    requires t < |s.threads|
    requires InHand(s.threads[t], id, swept) == InHand(pc, id, swept) + if a == Answer(id, swept) then 1 else 0
    ensures Served(Goto(s.(answers := s.answers + [a]), t, pc), id, swept) == Served(s, id, swept)
  {
    HandsUpdate(s.threads, t, pc, id, swept);
    AnswersAppend(s.answers, a, id, swept);
  }

  lemma FirstOpen(open: seq<Id>, id: Id)
    requires open != []
    ensures multiset(open)[id] == multiset(open[1..])[id] + if open[0] == id then 1 else 0
  {
    assert open == [open[0]] + open[1..];
  }

  lemma {:induction false} ListsOnce(order: seq<Id>, ids: set<Id>, id: Id)
    requires Lists(order, ids)
    ensures multiset(order)[id] == if id in ids then 1 else 0
  {
    if order == [] {
      assert id !in ids;
    } else {
      var rest := order[1..];
      assert order == [order[0]] + rest;
      assert forall x :: x in rest <==> exists i :: 1 <= i < |order| && order[i] == x;
      assert Lists(rest, ids - {order[0]}) by {
        forall x | x in ids - {order[0]} ensures x in rest {
          var i :| 0 <= i < |order| && order[i] == x;
          assert rest[i - 1] == x;
        }
      }
      ListsOnce(rest, ids - {order[0]}, id);
    }
  }

  predicate Leaves(s: State, step: Step, id: Id) {
    id in s.table && id !in Next(s, step).table
  }

  /** One more for the hands that a request in the table goes to by this step. */
  function Gain(s: State, step: Step, id: Id, swept: bool): nat {
    if Leaves(s, step, id) && step.Drain? == swept then 1 else 0
  }

  /** A thread without the request keeps none, and answers nothing. */
  lemma EmptyHanded(s: State, t: nat, pc: Pc, id: Id, swept: bool)
    requires t < |s.threads| && InHand(s.threads[t], id, swept) == 0
    ensures Served(Goto(s, t, pc), id, swept) == Served(s, id, swept) + InHand(pc, id, swept)
  {
    HandsUpdate(s.threads, t, pc, id, swept);
  }

  lemma TakeMoves(s: State, t: nat, id: Id, swept: bool)
    requires Enabled(s, Take(t))
    ensures Served(Next(s, Take(t)), id, swept) == Served(s, id, swept) + Gain(s, Take(t), id, swept)
  {
    var x := s.threads[t].id;
    EmptyHanded(s, t, if x in s.table then Holding(x) else Idle, id, swept);
  }

  lemma DrainMoves(s: State, t: nat, order: seq<Id>, id: Id, swept: bool)
    requires Enabled(s, Drain(t, order))
    ensures Served(Next(s, Drain(t, order)), id, swept) == Served(s, id, swept) + Gain(s, Drain(t, order), id, swept)
  {
    ListsOnce(order, s.table, id);
    EmptyHanded(s, t, Sweeping(order), id, swept);
  }

  lemma RespondMoves(s: State, t: nat, id: Id, swept: bool)
    requires Enabled(s, Respond(t))
    ensures Served(Next(s, Respond(t)), id, swept) == Served(s, id, swept)
  {
    Handover(s, t, Answer(s.threads[t].id, false), Idle, id, swept);
  }

  lemma RespondNextMoves(s: State, t: nat, id: Id, swept: bool)
    requires Enabled(s, RespondNext(t))
    ensures Served(Next(s, RespondNext(t)), id, swept) == Served(s, id, swept)
  {
    var open := s.threads[t].open;
    if open == [] {
      EmptyHanded(s, t, Idle, id, swept);
    } else {
      FirstOpen(open, id);
      Handover(s, t, Answer(open[0], true), Sweeping(open[1..]), id, swept);
    }
  }

  /** Looking at or sealing the connection moves no request. */
  lemma LookMoves(s: State, step: Step, id: Id, swept: bool)
    requires Enabled(s, step) && (step.Check? || step.Swap?)
    ensures Served(Next(s, step), id, swept) == Served(s, id, swept)
  {
    EmptyHanded(s, step.t, Next(s, step).threads[step.t], id, swept);
  }

  lemma TableMoves(s: State, step: Step, id: Id)
    ensures var r := Next(s, step);
      && s.held <= r.held
      && (id !in s.table && id in r.table <==> id !in s.table && id in r.held && id !in s.held)
      && (id in r.held && id !in s.held ==> id in r.table)
      && (Leaves(s, step, id) ==> Enabled(s, step) && (step.Take? || step.Drain?))
  {
  }

  lemma ServedMoves(s: State, step: Step, id: Id, swept: bool)
    ensures Served(Next(s, step), id, swept) == Served(s, id, swept) + Gain(s, step, id, swept)
  {
    TableMoves(s, step, id);
    if !Enabled(s, step) {
      return;
    }
    hide Served;
    match step
    case Hold(x) => HoldMoves(s, x, id, swept);
    case Check(_, _) => LookMoves(s, step, id, swept);
    case Take(t) => TakeMoves(s, t, id, swept);
    case Respond(t) => RespondMoves(s, t, id, swept);
    case Swap(_) => LookMoves(s, step, id, swept);
    case Drain(t, order) => DrainMoves(s, t, order, id, swept);
    case RespondNext(t) => RespondNextMoves(s, t, id, swept);
  }

  lemma HoldMoves(s: State, x: Id, id: Id, swept: bool)
    ensures Served(Next(s, Hold(x)), id, swept) == Served(s, id, swept)
  {
  }

  /** How one step moves one request: into the table when it arrives, and from the table into
      the sweep's hands by a drain or into a thread's by a take. */
  lemma Moves(s: State, step: Step, id: Id)
    ensures var r := Next(s, step);
      && s.held <= r.held
      && (id !in s.table && id in r.table <==> id !in s.table && id in r.held && id !in s.held)
      && (id in r.held && id !in s.held ==> id in r.table)
      && Served(r, id, false) == Served(s, id, false) + (if Leaves(s, step, id) && !step.Drain? then 1 else 0)
      && Served(r, id, true) == Served(s, id, true) + (if Leaves(s, step, id) && step.Drain? then 1 else 0)
  {
    hide Next, Served;
    TableMoves(s, step, id);
    ServedMoves(s, step, id, false);
    ServedMoves(s, step, id, true);
  }

  lemma {:induction false} NoHands(threads: seq<Pc>, id: Id, swept: bool)
    requires forall t :: 0 <= t < |threads| ==> threads[t].Idle?
    ensures InHands(threads, id, swept) == 0
  {
    if threads != [] {
      NoHands(threads[..|threads| - 1], id, swept);
    }
  }

  lemma NextKeeps(s: State, step: Step)
    requires Inv(s)
    ensures Inv(Next(s, step)) && s.held <= Next(s, step).held && Next(s, step).table <= Next(s, step).held
  {
    hide Next, Served;
    forall id ensures var r := Next(s, step);
      (if id in r.table then 1 else 0) + Served(r, id, false) + Served(r, id, true) == (if id in r.held then 1 else 0) {
      Moves(s, step, id);
    }
    Moves(s, step, "");
  }

  ghost predicate Unswept(s: State) {
    forall id :: Served(s, id, true) == 0
  }

  /** The swap of `sealed` lets one thread sweep; until it drains, nothing has been swept. */
  ghost predicate OneSweep(s: State) {
    && (!s.sealed ==> Unswept(s))
    && (forall t :: 0 <= t < |s.threads| && s.threads[t].Swapped? ==> s.sealed && Unswept(s))
    && (forall t, u :: 0 <= t < u < |s.threads| ==> !(s.threads[t].Swapped? && s.threads[u].Swapped?))
  }

  lemma UnsweptKeeps(s: State, step: Step)
    requires Unswept(s) && !(step.Drain? && Enabled(s, step))
    ensures Unswept(Next(s, step))
  {
    hide Served;
    forall id ensures Served(Next(s, step), id, true) == 0 {
      Moves(s, step, id);
    }
  }

  lemma OneSweepKeeps(s: State, step: Step)
    requires OneSweep(s)
    ensures OneSweep(Next(s, step))
  {
    hide Unswept;
    if Unswept(s) && !(step.Drain? && Enabled(s, step)) {
      UnsweptKeeps(s, step);
    }
  }

  lemma {:induction false} RunKeeps(n: nat, steps: seq<Step>)
    ensures Inv(Run(Init(n), steps)) && OneSweep(Run(Init(n), steps))
  {
    if steps == [] {
      forall id ensures Served(Init(n), id, false) + Served(Init(n), id, true) == 0 {
        NoHands(Init(n).threads, id, false);
        NoHands(Init(n).threads, id, true);
      }
    } else {
      RunKeeps(n, steps[..|steps| - 1]);
      hide Inv, OneSweep;
      NextKeeps(Run(Init(n), steps[..|steps| - 1]), steps[|steps| - 1]);
      OneSweepKeeps(Run(Init(n), steps[..|steps| - 1]), steps[|steps| - 1]);
    }
  }

  /** Over every run: a request is answered at most once, and only if it was received. */
  lemma AnsweredAtMostOnce(n: nat, steps: seq<Step>, id: Id)
    ensures var s := Run(Init(n), steps);
      TimesAnswered(s, id) <= (if id in s.held then 1 else 0)
  {
    RunKeeps(n, steps);
  }

  /** Once a request has left the table, who serves it is settled. */
  lemma {:induction false} ServedForGood(s: State, steps: seq<Step>, id: Id)
    requires id in s.held && id !in s.table
    ensures var r := Run(s, steps);
      && id in r.held && id !in r.table
      && Served(r, id, false) == Served(s, id, false) && Served(r, id, true) == Served(s, id, true)
  {
    hide Next, Served;
    if steps != [] {
      var rest := steps[..|steps| - 1];
      ServedForGood(s, rest, id);
      Moves(Run(s, rest), steps[|steps| - 1], id);
    }
  }

  /** No thread has anything left to answer. */
  predicate Quiet(s: State) {
    forall t :: 0 <= t < |s.threads| ==> s.threads[t].Idle?
  }

  /**
   The shutdown promise. Take any run, let a sweep drain the table, and let anything follow:
   every request received before the drain is answered, or is in one thread's hands to be
   answered, exactly once. It is the sweep's exactly when it was still in the table, and
   otherwise belongs to the thread that took it before.
   */
  lemma EveryRequestOnce(n: nat, before: seq<Step>, t: nat, order: seq<Id>, after: seq<Step>, id: Id)
    requires Enabled(Run(Init(n), before), Drain(t, order)) && id in Run(Init(n), before).held
    ensures var s := Run(Init(n), before);
      var r := Run(Next(s, Drain(t, order)), after);
      && id !in r.table
      && Served(r, id, true) == (if id in s.table then 1 else 0)
      && Served(r, id, false) == (if id in s.table then 0 else 1)
      && (Quiet(r) ==> TimesAnswered(r, id) == 1)
  {
    var s := Run(Init(n), before);
    var d := Next(s, Drain(t, order));
    var r := Run(d, after);
    RunKeeps(n, before);
    DrainServes(s, t, order, id);
    ServedForGood(d, after, id);
    if Quiet(r) {
      NoHands(r.threads, id, false);
      NoHands(r.threads, id, true);
    }
  }

  lemma DrainServes(s: State, t: nat, order: seq<Id>, id: Id)
    requires Inv(s) && OneSweep(s) && Enabled(s, Drain(t, order)) && id in s.held
    ensures var d := Next(s, Drain(t, order));
      && id in d.held && id !in d.table
      && Served(d, id, true) == (if id in s.table then 1 else 0)
      && Served(d, id, false) == (if id in s.table then 0 else 1)
  {
    hide Served;
    Moves(s, Drain(t, order), id);
  }

  // ---------- every hand is emptied ----------

  function Swept(open: seq<Id>): seq<Answer> {
    seq(|open|, i requires 0 <= i < |open| => Answer(open[i], true))
  }

  /** A sweep left to run answers every drained request, in order, and ends. */
  lemma {:induction false} SweepFinishes(s: State, t: nat) returns (steps: seq<Step>)
    requires t < |s.threads| && s.threads[t].Sweeping?
    ensures var open := s.threads[t].open;
      && |steps| == |open| + 1 && (forall i :: 0 <= i < |steps| ==> steps[i] == RespondNext(t))
      && Run(s, steps) == Goto(s.(answers := s.answers + Swept(open)), t, Idle)
    decreases |s.threads[t].open|
  {
    var open := s.threads[t].open;
    var step := RespondNext(t);
    var s1 := Next(s, step);
    if open == [] {
      steps := [step];
      assert [step] + [] == [step];
      RunOn(s, step, []);
      assert s.answers + Swept([]) == s.answers;
    } else {
      var rest := SweepFinishes(s1, t);
      steps := [step] + rest;
      RunOn(s, step, rest);
      assert s.answers + [Answer(open[0], true)] + Swept(open[1..]) == s.answers + Swept(open);
      assert s1.threads[t := Idle] == s.threads[t := Idle];
    }
  }

  /** A thread that answers a request, left to run, answers it or finds nothing, and ends. */
  lemma AnswerFinishes(s: State, t: nat) returns (steps: seq<Step>)
    requires t < |s.threads| && (s.threads[t].Checked? || s.threads[t].Holding?)
    ensures var r := Run(s, steps);
      && r.threads == s.threads[t := Idle] && r.held == s.held
      && (s.threads[t].Holding? ==> r.answers == s.answers + [Answer(s.threads[t].id, false)])
      && (s.threads[t].Checked? && s.threads[t].id in s.table ==>
            r.answers == s.answers + [Answer(s.threads[t].id, false)])
  {
    if s.threads[t].Holding? {
      steps := [Respond(t)];
      assert [Respond(t)] + [] == [Respond(t)];
      RunOn(s, Respond(t), []);
    } else {
      var s1 := Next(s, Take(t));
      steps := [Take(t), Respond(t)];
      assert [Take(t)] + [Respond(t)] == steps && [Respond(t)] + [] == [Respond(t)];
      RunOn(s, Take(t), [Respond(t)]);
      RunOn(s1, Respond(t), []);
      assert s.threads[t := Holding(s.threads[t].id)][t := Idle] == s.threads[t := Idle];
    }
  }

  /** Threads up to `n` are idle. */
  predicate IdleUpTo(s: State, n: nat) {
    forall t :: 0 <= t < |s.threads| && t < n ==> s.threads[t].Idle?
  }

  /** From any state without a thread about to drain, the threads can all finish. */
  lemma {:induction false} AllFinish(s: State, n: nat) returns (steps: seq<Step>)
    requires n <= |s.threads| && IdleUpTo(s, n) && forall t :: 0 <= t < |s.threads| ==> !s.threads[t].Swapped?
    ensures Quiet(Run(s, steps))
    decreases |s.threads| - n
  {
    if n == |s.threads| {
      steps := [];
    } else {
      var first: seq<Step> := [];
      if s.threads[n].Sweeping? {
        first := SweepFinishes(s, n);
      } else if !s.threads[n].Idle? {
        first := AnswerFinishes(s, n);
      }
      var s1 := Run(s, first);
      assert s1.threads == s.threads[n := Idle];
      var rest := AllFinish(s1, n + 1);
      RunThrough(s, first, rest);
      steps := first + rest;
    }
  }

  lemma {:induction false} RunThrough(s: State, a: seq<Step>, b: seq<Step>)
    ensures Run(s, a + b) == Run(Run(s, a), b)
  {
    hide Next;
    if b == [] {
      assert a + b == a;
    } else {
      RunThrough(s, a, b[..|b| - 1]);
      assert (a + b)[..|a + b| - 1] == a + b[..|b| - 1];
    }
  }

  /** Nobody drains a second time: after the drain no thread is about to. */
  lemma {:induction false} NobodySwaps(s: State, steps: seq<Step>)
    requires s.sealed && forall t :: 0 <= t < |s.threads| ==> !s.threads[t].Swapped?
    ensures var r := Run(s, steps);
      r.sealed && forall t :: 0 <= t < |r.threads| ==> !r.threads[t].Swapped?
  {
    if steps != [] {
      NobodySwaps(s, steps[..|steps| - 1]);
    }
  }

  /**
   The shutdown promise is met: after any run, a drain and anything more, the threads can
   finish, and then every request received before the drain has been answered exactly once.
   */
  lemma EveryRequestAnswered(n: nat, before: seq<Step>, t: nat, order: seq<Id>, after: seq<Step>)
    returns (more: seq<Step>)
    requires Enabled(Run(Init(n), before), Drain(t, order))
    ensures var s := Run(Init(n), before);
      var r := Run(Next(s, Drain(t, order)), after + more);
      Quiet(r) && forall id :: id in s.held ==> TimesAnswered(r, id) == 1
  {
    var s := Run(Init(n), before);
    var d := Next(s, Drain(t, order));
    RunKeeps(n, before);
    DrainedOnce(s, t, order);
    NobodySwaps(d, after);
    more := AllFinish(Run(d, after), 0);
    RunThrough(d, after, more);
    hide Quiet, Run, Next, Served, TimesAnswered;
    forall id | id in s.held ensures TimesAnswered(Run(d, after + more), id) == 1 {
      EveryRequestOnce(n, before, t, order, after + more, id);
    }
  }

  lemma DrainedOnce(s: State, t: nat, order: seq<Id>)
    requires OneSweep(s) && Enabled(s, Drain(t, order))
    ensures var d := Next(s, Drain(t, order));
      d.sealed && forall u :: 0 <= u < |d.threads| ==> !d.threads[u].Swapped?
  {
    hide Unswept;
  }

  // ---------- requests that arrive too late ----------

  /** A thread that passed the sealed check for this request. */
  predicate Passed(s: State, id: Id) {
    exists t :: 0 <= t < |s.threads| && s.threads[t] == Checked(id)
  }

  /**
   A request received after the drain. It can still be answered if and only if some thread
   had passed the sealed check for this very id when the table was drained; otherwise it
   stays unanswered whatever follows.
   */
  lemma HeldTooLate(n: nat, before: seq<Step>, t: nat, order: seq<Id>, id: Id)
    requires Enabled(Run(Init(n), before), Drain(t, order)) && id !in Run(Init(n), before).held
    ensures var s := Run(Init(n), before);
      (exists after :: TimesAnswered(Run(Next(s, Drain(t, order)), after), id) > 0) <==> Passed(s, id)
  {
    var s := Run(Init(n), before);
    var d := Next(s, Drain(t, order));
    RunKeeps(n, before);
    NextKeeps(s, Drain(t, order));
    if Passed(s, id) {
      var u :| 0 <= u < |s.threads| && s.threads[u] == Checked(id);
      LateAnswer(d, u, id);
    } else {
      OneSweepKeeps(s, Drain(t, order));
      forall after ensures TimesAnswered(Run(d, after), id) == 0 {
        StaysClosed(d, after, id);
      }
    }
  }

  /** The run that answers it: the request arrives, and the thread takes it and responds. */
  lemma LateAnswer(s: State, u: nat, id: Id)
    requires At(s, u, Checked(id)) && id !in s.held
    ensures TimesAnswered(Run(s, [Hold(id), Take(u), Respond(u)]), id) > 0
  {
    var a, b, c := Hold(id), Take(u), Respond(u);
    var s2 := Next(Next(s, a), b);
    RunThree(s, a, b, c);
    assert s2.threads[u] == Holding(id);
    AnswersAppend(s2.answers, Answer(id, false), id, false);
  }

  /** A run in which a request really arrives too late: one thread seals and drains, then the
      request is received. It is never answered, whatever follows. */
  lemma LateRequest(id: Id, after: seq<Step>)
    ensures var s := Run(Init(1), [Swap(0), Drain(0, []), Hold(id)]);
      id in s.held && TimesAnswered(Run(s, after), id) == 0
  {
    var a, b, c := Swap(0), Drain(0, []), Hold(id);
    var s2 := Next(Next(Init(1), a), b);
    SealedAndDrained(id);
    RunKeeps(1, [a, b]);
    hide Next, Inv, Enabled, Served;
    RunThree(Init(1), a, b, c);
    RunOn(s2, c, after);
    StaysClosed(s2, [c] + after, id);
    Unanswered(Run(s2, [c] + after), id);
  }

  lemma Unanswered(s: State, id: Id)
    requires Served(s, id, false) == Served(s, id, true) == 0
    ensures TimesAnswered(s, id) == 0
  {
  }

  lemma SealedAndDrained(id: Id)
    ensures var s := Next(Next(Init(1), Swap(0)), Drain(0, []));
      Closed(s, id) && s.held == {} && id in Next(s, Hold(id)).held
  {
    var s1 := Next(Init(1), Swap(0));
    assert s1 == State(true, {}, [Swapped], {}, []);
    assert Next(s1, Drain(0, [])) == State(true, {}, [Sweeping([])], {}, []);
  }

  lemma RunThree(s: State, a: Step, b: Step, c: Step)
    ensures Run(s, [a, b]) == Next(Next(s, a), b) && Run(s, [a, b, c]) == Next(Next(Next(s, a), b), c)
  {
    hide Next;
    assert [a][..0] == [];
    assert Run(s, [a]) == Next(s, a);
    assert [a, b][..1] == [a];
    assert [a, b, c][..2] == [a, b];
  }

  lemma {:induction false} RunOn(s: State, step: Step, steps: seq<Step>)
    ensures Run(s, [step] + steps) == Run(Next(s, step), steps)
  {
    var all := [step] + steps;
    if steps == [] {
      assert all == [step] && [step][..0] == [];
    } else {
      assert all[..|all| - 1] == [step] + steps[..|steps| - 1];
      RunOn(s, step, steps[..|steps| - 1]);
    }
  }

  /** Sealed, with nobody left who could drain or take this request. */
  ghost predicate Closed(s: State, id: Id) {
    s.sealed && forall t :: 0 <= t < |s.threads| ==> s.threads[t] != Checked(id) && !s.threads[t].Swapped?
  }

  lemma {:induction false} StaysClosed(s: State, steps: seq<Step>, id: Id)
    requires Inv(s) && Closed(s, id) && id !in s.held
    ensures var r := Run(s, steps);
      Closed(r, id) && Served(r, id, false) == Served(r, id, true) == 0
  {
    hide Served;
    if steps != [] {
      var rest := steps[..|steps| - 1];
      StaysClosed(s, rest, id);
      Moves(Run(s, rest), steps[|steps| - 1], id);
    }
  }
}
