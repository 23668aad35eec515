/**
 The Muse hosts (`src/hosts.rs`): lazy, double-checked launch of the read-only and the
 reviewer process under one shared lock, process generations, and routing by session owner.
 */
module Hosts {
  import opened Options

  datatype Kind = Main | ReadOnly | Reviewer

  // ---------- lazy launch, every interleaving ----------

  datatype Outcome = Started | ArgsRejected | Refused

  /** Where a caller of `read_only_host` or `reviewer_host` stands. */
  datatype Pc =
    | Idle
    | First(kind: Kind)                  // about to look without the lock
    | Waiting(kind: Kind)                // wants the lock
    | Again(kind: Kind)                  // has the lock, about to look again
    | Launching(kind: Kind, plain: bool) // has the lock; `plain` without the optional arguments
    | Installing(kind: Kind, host: nat)  // has the lock and a new process
    | Got(kind: Kind, host: nat)         // returned this process
    | Failed(kind: Kind)                 // returned an error

  /** `launched` lists every process started, in order; its index is the process's generation. */
  datatype State = State(
    current: map<Kind, nat>, lock: Option<nat>, threads: seq<Pc>, launched: seq<Kind>, cleared: seq<Kind>)

  datatype Step =
    | Call(t: nat, kind: Kind)
    | Look(t: nat)
    | Acquire(t: nat)
    | LookAgain(t: nat)
    | Launch(t: nat, outcome: Outcome)
    | Install(t: nat)
    | Clear(kind: Kind)

  function Init(threads: nat): State {
    State(map[Main := 0], None, seq(threads, _ => Idle), [Main], [])
  }

  function Goto(s: State, t: nat, pc: Pc): State
    requires t < |s.threads|
  {
    s.(threads := s.threads[t := pc])
  }

  predicate Locked(pc: Pc) {
    pc.Again? || pc.Launching? || pc.Installing?
  }

  predicate Enabled(s: State, step: Step) {
    match step
    case Call(t, kind) =>
      kind != Main && t < |s.threads| && (s.threads[t].Idle? || s.threads[t].Got? || s.threads[t].Failed?)
    case Look(t) => t < |s.threads| && s.threads[t].First?
    case Acquire(t) => t < |s.threads| && s.threads[t].Waiting? && s.lock.None?
    case LookAgain(t) => t < |s.threads| && s.threads[t].Again?
    case Launch(t, _) => t < |s.threads| && s.threads[t].Launching?
    case Install(t) => t < |s.threads| && s.threads[t].Installing?
    case Clear(kind) => kind != Main && kind in s.current
  }

  function Next(s: State, step: Step): State {
    if !Enabled(s, step) then s
    else
      match step
      case Call(t, kind) => Goto(s, t, First(kind))
      case Look(t) =>
        var kind := s.threads[t].kind;
        if kind in s.current then Goto(s, t, Got(kind, s.current[kind])) else Goto(s, t, Waiting(kind))
      case Acquire(t) => Goto(s.(lock := Some(t)), t, Again(s.threads[t].kind))
      case LookAgain(t) =>
        var kind := s.threads[t].kind;
        if kind in s.current then Goto(s.(lock := None), t, Got(kind, s.current[kind]))
        else Goto(s, t, Launching(kind, false))
      case Launch(t, outcome) =>
        var kind := s.threads[t].kind;
        if outcome == Started then
          Goto(s.(launched := s.launched + [kind]), t, Installing(kind, |s.launched|))
        else if outcome == ArgsRejected && kind == Reviewer && !s.threads[t].plain then
          Goto(s, t, Launching(kind, true))
        else Goto(s.(lock := None), t, Failed(kind))
      case Install(t) =>
        var kind, host := s.threads[t].kind, s.threads[t].host;
        Goto(s.(current := s.current[kind := host], lock := None), t, Got(kind, host))
      case Clear(kind) => s.(current := s.current - {kind}, cleared := s.cleared + [kind])
  }

  function Run(s: State, steps: seq<Step>): State {
    if steps == [] then s else Next(Run(s, steps[..|steps| - 1]), steps[|steps| - 1])
  }

  function Count(kinds: seq<Kind>, kind: Kind): nat {
    if kinds == [] then 0 else Count(kinds[..|kinds| - 1], kind) + (if kinds[|kinds| - 1] == kind then 1 else 0)
  }

  lemma CountAppend(kinds: seq<Kind>, k: Kind, kind: Kind)
    ensures Count(kinds + [k], kind) == Count(kinds, kind) + if k == kind then 1 else 0
  {
    assert (kinds + [k])[..|kinds|] == kinds;
  }

  /** The lock holder is about to install a process of this kind. */
  predicate Pending(s: State, kind: Kind) {
    s.lock.Some? && s.lock.value < |s.threads| && s.threads[s.lock.value].Installing?
    && s.threads[s.lock.value].kind == kind
  }

  /** One thread at a time is past the lock, and it found no process of its kind. */
  ghost predicate Locks(s: State) {
    && (forall t :: 0 <= t < |s.threads| && Locked(s.threads[t]) ==> s.lock == Some(t))
    && (s.lock.Some? ==> s.lock.value < |s.threads| && Locked(s.threads[s.lock.value]))
    && (s.lock.Some? && !s.threads[s.lock.value].Again? ==> s.threads[s.lock.value].kind !in s.current)
  }

  /** Processes in use were launched, as the kind they are used for. */
  ghost predicate Known(s: State) {
    && (forall kind :: kind in s.current ==> s.current[kind] < |s.launched| && s.launched[s.current[kind]] == kind)
    && (forall t :: 0 <= t < |s.threads| && (s.threads[t].Installing? || s.threads[t].Got?) ==>
          s.threads[t].host < |s.launched| && s.launched[s.threads[t].host] == s.threads[t].kind)
  }

  /** Every launched process was forgotten again, is current, or is about to be. */
  ghost predicate Tally(s: State) {
    forall kind :: Count(s.launched, kind) ==
      Count(s.cleared, kind) + if kind in s.current || Pending(s, kind) then 1 else 0
  }

  /** Unless a kind was forgotten, a process returned once stays current. */
  ghost predicate Stays(s: State) {
    forall t :: 0 <= t < |s.threads| && s.threads[t].Got? && Count(s.cleared, s.threads[t].kind) == 0 ==>
      s.threads[t].kind in s.current
  }

  ghost predicate Inv(s: State) {
    Locks(s) && Known(s) && Tally(s) && Stays(s)
  }

  lemma LocksKeep(s: State, step: Step)
    requires Locks(s)
    ensures Locks(Next(s, step))
  {
  }

  lemma KnownKeeps(s: State, step: Step)
    requires Known(s)
    ensures Known(Next(s, step))
  {
  }

  lemma CountsAppend(kinds: seq<Kind>, k: Kind)
    ensures forall kind :: Count(kinds + [k], kind) == Count(kinds, kind) + if k == kind then 1 else 0
  {
    forall kind ensures Count(kinds + [k], kind) == Count(kinds, kind) + if k == kind then 1 else 0 {
      CountAppend(kinds, k, kind);
    }
  }

  lemma TallyKeeps(s: State, step: Step)
    requires Locks(s) && Tally(s)
    ensures Tally(Next(s, step))
  {
    hide Count;
    if step.Launch? && Enabled(s, step) {
      CountsAppend(s.launched, s.threads[step.t].kind);
    } else if step.Clear? {
      CountsAppend(s.cleared, step.kind);
    }
  }

  lemma StaysKeeps(s: State, step: Step)
    requires Stays(s)
    ensures Stays(Next(s, step))
  {
    hide Count;
    if step.Clear? {
      CountsAppend(s.cleared, step.kind);
    }
  }

  lemma {:induction false} RunKeeps(threads: nat, steps: seq<Step>)
    ensures Inv(Run(Init(threads), steps))
  {
    if steps == [] {
      assert [Main][..0] == [];
    } else {
      hide Locks, Known, Tally, Stays;
      var s, step := Run(Init(threads), steps[..|steps| - 1]), steps[|steps| - 1];
      RunKeeps(threads, steps[..|steps| - 1]);
      LocksKeep(s, step);
      KnownKeeps(s, step);
      TallyKeeps(s, step);
      StaysKeeps(s, step);
    }
  }

  lemma {:induction false} CountIndex(kinds: seq<Kind>, i: nat)
    requires i < |kinds|
    ensures Count(kinds, kinds[i]) >= 1
  {
    if i < |kinds| - 1 {
      CountIndex(kinds[..|kinds| - 1], i);
    }
  }

  lemma {:induction false} CountTwo(kinds: seq<Kind>, i: nat, j: nat)
    requires i < j < |kinds| && kinds[i] == kinds[j]
    ensures Count(kinds, kinds[i]) >= 2
  {
    var rest := kinds[..|kinds| - 1];
    if j < |kinds| - 1 {
      CountTwo(rest, i, j);
    } else {
      CountIndex(rest, i);
    }
  }

  /** In every interleaving: no more processes of a kind than times it was forgotten, and one. */
  lemma LaunchedOncePerClear(threads: nat, steps: seq<Step>, kind: Kind)
    ensures var s := Run(Init(threads), steps);
      Count(s.launched, kind) <= Count(s.cleared, kind) + 1
  {
    RunKeeps(threads, steps);
  }

  /** Unless the kind is forgotten, every caller that got a process got the same one, the
      only one ever launched, and it is current. */
  lemma EveryCallerGetsIt(threads: nat, steps: seq<Step>, t: nat)
    requires var s := Run(Init(threads), steps);
      t < |s.threads| && s.threads[t].Got? && Count(s.cleared, s.threads[t].kind) == 0
    ensures var s := Run(Init(threads), steps);
      var kind := s.threads[t].kind;
      && Count(s.launched, kind) == 1
      && kind in s.current && s.current[kind] == s.threads[t].host
  {
    RunKeeps(threads, steps);
    var s := Run(Init(threads), steps);
    var kind, host := s.threads[t].kind, s.threads[t].host;
    var now := s.current[kind];
    if host < now {
      CountTwo(s.launched, host, now);
    } else if now < host {
      CountTwo(s.launched, now, host);
    }
  }

  // ---------- every caller can finish ----------

  /** In a call, between its start and its return. */
  predicate Calling(pc: Pc) { pc.First? || pc.Waiting? || Locked(pc) }

  /** The steps of one caller whose launch succeeds; a step that does not apply is skipped. */
  function Script(t: nat): seq<Step> {
    [Look(t), Acquire(t), LookAgain(t), Launch(t, Started), Install(t)]
  }

  lemma {:induction false} RunThrough(s: State, a: seq<Step>, b: seq<Step>)
    ensures Run(s, a + b) == Run(Run(s, a), b)
    decreases |b|
  {
    hide Next;
    if b == [] {
      assert a + b == a;
    } else {
      assert (a + b)[..|a + b| - 1] == a + b[..|b| - 1];
      RunThrough(s, a, b[..|b| - 1]);
    }
  }

  lemma RunScript(s: State, t: nat)
    ensures Run(s, Script(t)) == Tail(Next(Next(s, Look(t)), Acquire(t)), t)
  {
    hide Next;
    var a, b := [Look(t), Acquire(t)], [Look(t), Acquire(t), LookAgain(t)];
    assert Script(t) == b + [Launch(t, Started)] + [Install(t)];
    RunStep(s, b + [Launch(t, Started)], Install(t));
    RunStep(s, b, Launch(t, Started));
    assert b == a + [LookAgain(t)] && a == [Look(t)] + [Acquire(t)];
    RunStep(s, a, LookAgain(t));
    RunStep(s, [Look(t)], Acquire(t));
    assert [] + [Look(t)] == [Look(t)];
    RunStep(s, [], Look(t));
  }

  lemma RunStep(s: State, steps: seq<Step>, step: Step)
    ensures Run(s, steps + [step]) == Next(Run(s, steps), step)
  {
    hide Next;
    assert (steps + [step])[..|steps|] == steps;
  }

  /** The last three steps, with the lock. */
  function Tail(s: State, t: nat): State {
    Next(Next(Next(s, LookAgain(t)), Launch(t, Started)), Install(t))
  }

  /** The caller returned the current process of its kind, one more when there was none; the lock
      is free and the others stand where they stood. */
  ghost predicate Served(s: State, t: nat, r: State) {
    && t < |s.threads| && Calling(s.threads[t])
    && var kind := s.threads[t].kind;
    && kind in r.current && r.threads == s.threads[t := Got(kind, r.current[kind])]
    && r.lock == None && r.cleared == s.cleared
    && (forall k :: k != kind ==> (k in r.current <==> k in s.current))
    && (forall k :: k in s.current ==> r.current[k] == s.current[k])
    && r.launched == if kind in s.current || s.threads[t].Installing? then s.launched else s.launched + [kind]
  }

  lemma AtGot(s: State, t: nat)
    requires t < |s.threads| && s.threads[t].Got?
    ensures Tail(s, t) == s
  {
  }

  lemma AtInstalling(s: State, t: nat)
    requires t < |s.threads| && s.threads[t].Installing? && s.threads[t].kind !in s.current
    ensures Tail(s, t) == Next(s, Install(t)) && Served(s, t, Next(s, Install(t)))
  {
  }

  lemma AtLaunching(s: State, t: nat)
    requires t < |s.threads| && s.threads[t].Launching? && s.threads[t].kind !in s.current
    ensures Served(s, t, Tail(s, t))
  {
    var n := Next(s, Launch(t, Started));
    assert n.threads[t] == Installing(s.threads[t].kind, |s.launched|);
    AtInstalling(n, t);
    assert n.threads[t := Got(s.threads[t].kind, |s.launched|)] == s.threads[t := Got(s.threads[t].kind, |s.launched|)];
  }

  lemma AtAgain(s: State, t: nat)
    requires t < |s.threads| && s.threads[t].Again?
    ensures Served(s, t, Tail(s, t))
  {
    var kind, n := s.threads[t].kind, Next(s, LookAgain(t));
    if kind in s.current {
      AtGot(n, t);
    } else {
      assert n.threads[t] == Launching(kind, false);
      AtLaunching(n, t);
      var r := Tail(n, t);
      assert Tail(s, t) == r;
      assert n.threads[t := Got(kind, r.current[kind])] == s.threads[t := Got(kind, r.current[kind])];
    }
  }

  /** To the lock, or to the process when it is found at once. */
  lemma ToTheLock(s: State, t: nat)
    requires t < |s.threads| && (s.threads[t].First? || s.threads[t].Waiting?) && s.lock == None
    ensures var kind := s.threads[t].kind;
      Next(Next(s, Look(t)), Acquire(t)) ==
        if kind in s.current && s.threads[t].First? then Goto(s, t, Got(kind, s.current[kind]))
        else Goto(s.(lock := Some(t)), t, Again(kind))
  {
    var kind := s.threads[t].kind;
    assert s.threads[t := Waiting(kind)][t := Again(kind)] == s.threads[t := Again(kind)];
  }

  lemma ServesLocked(s: State, t: nat)
    requires t < |s.threads| && Locked(s.threads[t])
    requires s.threads[t].Again? || s.threads[t].kind !in s.current
    ensures Served(s, t, Tail(Next(Next(s, Look(t)), Acquire(t)), t))
  {
    assert Next(Next(s, Look(t)), Acquire(t)) == s;
    hide Next, Served, Tail;
    match s.threads[t] {
      case Again(_) => AtAgain(s, t);
      case Launching(_, _) => AtLaunching(s, t);
      case Installing(_, _) => InstallServes(s, t);
    }
  }

  lemma InstallServes(s: State, t: nat)
    requires t < |s.threads| && s.threads[t].Installing? && s.threads[t].kind !in s.current
    ensures Served(s, t, Tail(s, t))
  {
    hide Next, Served, Tail;
    AtInstalling(s, t);
  }

  /** What the caller does after taking the free lock counts from before it. */
  lemma ServedFromLock(s: State, t: nat, kind: Kind, r: State)
    requires t < |s.threads| && (s.threads[t].First? || s.threads[t].Waiting?) && s.threads[t].kind == kind
    requires Served(Goto(s.(lock := Some(t)), t, Again(kind)), t, r)
    ensures Served(s, t, r)
  {
    assert s.threads[t := Again(kind)][t := Got(kind, r.current[kind])] == s.threads[t := Got(kind, r.current[kind])];
  }

  lemma ServesFree(s: State, t: nat)
    requires t < |s.threads| && (s.threads[t].First? || s.threads[t].Waiting?) && s.lock == None
    ensures Served(s, t, Tail(Next(Next(s, Look(t)), Acquire(t)), t))
  {
    hide Next, Served, Tail;
    var kind, n := s.threads[t].kind, Next(Next(s, Look(t)), Acquire(t));
    ToTheLock(s, t);
    if kind in s.current && s.threads[t].First? {
      AtGot(n, t);
      FoundServes(s, t);
    } else {
      AtAgain(n, t);
      ServedFromLock(s, t, kind, Tail(n, t));
    }
  }

  lemma FoundServes(s: State, t: nat)
    requires t < |s.threads| && s.threads[t].First? && s.threads[t].kind in s.current && s.lock == None
    ensures Served(s, t, Goto(s, t, Got(s.threads[t].kind, s.current[s.threads[t].kind])))
  {
  }

  /** A caller that has the lock, or finds it free, is served. */
  lemma ScriptServes(s: State, t: nat)
    requires Locks(s) && t < |s.threads| && Calling(s.threads[t]) && (s.lock == None || s.lock == Some(t))
    ensures Served(s, t, Run(s, Script(t)))
  {
    hide Next, Served, Tail;
    RunScript(s, t);
    if Locked(s.threads[t]) {
      ServesLocked(s, t);
    } else {
      ServesFree(s, t);
    }
  }

  /**
   In every interleaving every caller can still be served: once whoever holds the lock is done,
   its own steps return the process that is then current.
   */
  lemma EveryCallerCanFinish(threads: nat, steps: seq<Step>, t: nat) returns (more: seq<Step>)
    requires var s := Run(Init(threads), steps); t < |s.threads| && Calling(s.threads[t])
    ensures var s, r := Run(Init(threads), steps), Run(Init(threads), steps + more);
      var kind := s.threads[t].kind;
      |r.threads| == |s.threads| && kind in r.current && r.threads[t] == Got(kind, r.current[kind]) && r.lock == None
  {
    hide Next, Init;
    var s := Run(Init(threads), steps);
    RunKeeps(threads, steps);
    if s.lock == None || s.lock == Some(t) {
      more := Script(t);
      ScriptServes(s, t);
      RunThrough(Init(threads), steps, more);
    } else {
      var first := Script(s.lock.value);
      ScriptServes(s, s.lock.value);
      RunThrough(Init(threads), steps, first);
      RunKeeps(threads, steps + first);
      var r := Run(Init(threads), steps + first);
      assert r.threads[t] == s.threads[t];
      ScriptServes(r, t);
      more := first + Script(t);
      RunThrough(Init(threads), steps + first, Script(t));
      assert steps + more == steps + first + Script(t);
    }
  }

  // ---------- generations ----------

  predicate IsCurrent(s: State, kind: Kind, generation: nat) {
    kind in s.current && s.current[kind] == generation
  }

  /** Launched, but neither current nor about to be. */
  predicate Stale(s: State, kind: Kind, generation: nat) {
    && generation < |s.launched|
    && !IsCurrent(s, kind, generation)
    && (forall t :: 0 <= t < |s.threads| && s.threads[t].Installing? ==> s.threads[t].host != generation)
  }

  /** Events of a process that is no longer current are stale for good. */
  lemma {:induction false} StaleForever(s: State, steps: seq<Step>, kind: Kind, generation: nat)
    requires Stale(s, kind, generation)
    ensures Stale(Run(s, steps), kind, generation)
  {
    if steps != [] {
      StaleForever(s, steps[..|steps| - 1], kind, generation);
    }
  }

  // ---------- routing ----------

  /** `owners` of the `Hosts` object, changed in place. */
  class Owners {
    var owners: map<string, Kind>

    constructor ()
      ensures owners == map[]
    {
      owners := map[];
    }

    method NoteOwner(session: string, kind: Kind)
      modifies this
      ensures owners == if session == "" then old(owners) else old(owners)[session := kind]
    {
      if session != "" {
        owners := owners[session := kind];
      }
    }

    method LearnOwner(session: string, kind: Kind)
      modifies this
      ensures owners == if session == "" || session in old(owners) then old(owners) else old(owners)[session := kind]
    {
      if session != "" && session !in owners {
        owners := owners[session := kind];
      }
    }

    method ForgetOwner(session: string)
      modifies this
      ensures owners == old(owners) - {session}
    {
      owners := owners - {session};
    }

    /** The kind of process a command goes to; `session` is absent when the params name none.
        Skipping the lookup while no session is read-only changes nothing. */
    method Route(session: Option<string>) returns (kind: Kind)
      ensures kind == if session.Some? && session.value in owners then owners[session.value] else Main
    {
      var any := exists x :: x in owners && owners[x] in {ReadOnly, Reviewer};
      if !any {
        if session.Some? && session.value in owners {
          assert owners[session.value] !in {ReadOnly, Reviewer};
        }
        return Main;
      }
      if session.None? {
        return Main;
      }
      return if session.value in owners then owners[session.value] else Main;
    }
  }
}
