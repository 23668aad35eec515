/**
 The connection limiter (`try_connection_slot` and `ConnectionSlot::drop`): any number of
 threads, each step one atomic access to the counter, in any interleaving, with
 compare-and-swap attempts that may also fail for no reason.
 */
module Slots {

  const USIZE_MAX := 0xFFFF_FFFF_FFFF_FFFF

  datatype Pc =
    | Outside
    | Trying(current: nat) // loaded or re-read the counter
    | Inside               // owns a slot

  datatype State = State(active: nat, threads: seq<Pc>)

  datatype Step = Load(t: nat) | Attempt(t: nat, spurious: bool) | Drop(t: nat)

  function Init(threads: nat): State {
    State(0, seq(threads, _ => Outside))
  }

  predicate Enabled(s: State, step: Step) {
    step.t < |s.threads| &&
      match step
      case Load(t) => s.threads[t].Outside?
      case Attempt(t, _) => s.threads[t].Trying?
      case Drop(t) => s.threads[t].Inside?
  }

  function Goto(s: State, t: nat, pc: Pc): State
    requires t < |s.threads|
  {
    s.(threads := s.threads[t := pc])
  }

  /** `fetch_sub` on an unsigned word wraps at zero. */
  function FetchSub(active: nat): nat {
    if active == 0 then USIZE_MAX else active - 1
  }

  function Next(limit: nat, s: State, step: Step): State {
    if !Enabled(s, step) then s
    else
      match step
      case Load(t) => Goto(s, t, Trying(s.active))
      case Attempt(t, spurious) =>
        var current := s.threads[t].current;
        if current >= limit then Goto(s, t, Outside)
        else if spurious || s.active != current then Goto(s, t, Trying(s.active))
        else Goto(s.(active := current + 1), t, Inside)
      case Drop(t) => Goto(s.(active := FetchSub(s.active)), t, Outside)
  }

  function Run(limit: nat, s: State, steps: seq<Step>): State {
    if steps == [] then s else Next(limit, Run(limit, s, steps[..|steps| - 1]), steps[|steps| - 1])
  }

  /** The number of live slots. */
  function Live(threads: seq<Pc>): nat {
    if threads == [] then 0
    else Live(threads[..|threads| - 1]) + (if threads[|threads| - 1].Inside? then 1 else 0)
  }

  lemma {:induction false} LiveUpdate(threads: seq<Pc>, t: nat, pc: Pc)
    requires t < |threads|
    ensures Live(threads[t := pc]) + (if threads[t].Inside? then 1 else 0)
      == Live(threads) + (if pc.Inside? then 1 else 0)
  {
    var n := |threads| - 1;
    if t < n {
      LiveUpdate(threads[..n], t, pc);
      assert threads[t := pc][..n] == threads[..n][t := pc];
    } else {
      assert threads[t := pc][..n] == threads[..n];
    }
  }

  /** What a thread has read is a count that the limiter held at some moment. */
  ghost predicate Inv(limit: nat, s: State) {
    && s.active == Live(s.threads) <= limit
    && (forall t :: 0 <= t < |s.threads| && s.threads[t].Trying? ==> s.threads[t].current <= limit)
  }

  lemma NextKeeps(limit: nat, s: State, step: Step)
    requires Inv(limit, s)
    ensures Inv(limit, Next(limit, s, step))
  {
    if Enabled(s, step) {
      LiveUpdate(s.threads, step.t, Next(limit, s, step).threads[step.t]);
    }
  }

  lemma {:induction false} NobodyInside(threads: seq<Pc>)
    requires forall t :: 0 <= t < |threads| ==> threads[t].Outside?
    ensures Live(threads) == 0
  {
    if threads != [] {
      NobodyInside(threads[..|threads| - 1]);
    }
  }

  /** In every interleaving the counter is the number of live slots, never above the limit,
      so releasing a slot never wraps it. */
  lemma {:induction false} CounterIsExact(limit: nat, threads: nat, steps: seq<Step>)
    ensures Inv(limit, Run(limit, Init(threads), steps))
  {
    if steps == [] {
      NobodyInside(Init(threads).threads);
    } else {
      hide Inv;
      CounterIsExact(limit, threads, steps[..|steps| - 1]);
      NextKeeps(limit, Run(limit, Init(threads), steps[..|steps| - 1]), steps[|steps| - 1]);
    }
  }

  /** Step `k` is an access of thread `t` to the counter. */
  predicate Acts(limit: nat, threads: nat, steps: seq<Step>, k: int, t: nat) {
    0 <= k < |steps| && steps[k].t == t && Enabled(Run(limit, Init(threads), steps[..k]), steps[k])
  }

  /** What a trying thread holds is the number of slots live at its last access. */
  lemma {:induction false} ReadMoment(limit: nat, threads: nat, steps: seq<Step>, t: nat) returns (k: nat)
    requires t < |Run(limit, Init(threads), steps).threads| && Run(limit, Init(threads), steps).threads[t].Trying?
    ensures Acts(limit, threads, steps, k, t) && forall j :: j > k ==> !Acts(limit, threads, steps, j, t)
    ensures Live(Run(limit, Init(threads), steps[..k]).threads) == Run(limit, Init(threads), steps).threads[t].current
  {
    var rest, last := steps[..|steps| - 1], steps[|steps| - 1];
    var s := Run(limit, Init(threads), rest);
    CounterIsExact(limit, threads, rest);
    if Enabled(s, last) && last.t == t {
      k := |rest|;
    } else {
      OthersStep(limit, s, last, t);
      hide Next, Acts, Inv;
      k := ReadMoment(limit, threads, rest, t);
      forall j ensures j != |rest| ==> (Acts(limit, threads, steps, j, t) <==> Acts(limit, threads, rest, j, t)) {
        ActsBefore(limit, threads, steps, j, t);
      }
      NoAct(limit, threads, steps, t);
      ActsWithin(limit, threads, rest, k, t);
      assert steps[..k] == rest[..k];
    }
  }

  lemma OthersStep(limit: nat, s: State, step: Step, t: nat)
    requires t < |Next(limit, s, step).threads| && !(Enabled(s, step) && step.t == t)
    ensures t < |s.threads| && Next(limit, s, step).threads[t] == s.threads[t]
  {
  }

  lemma ActsBefore(limit: nat, threads: nat, steps: seq<Step>, j: int, t: nat)
    requires steps != []
    ensures j != |steps| - 1 ==>
      (Acts(limit, threads, steps, j, t) <==> Acts(limit, threads, steps[..|steps| - 1], j, t))
  {
    hide Enabled, Run;
    if 0 <= j < |steps| - 1 {
      assert steps[..|steps| - 1][..j] == steps[..j];
    }
  }

  lemma ActsWithin(limit: nat, threads: nat, steps: seq<Step>, j: int, t: nat)
    requires Acts(limit, threads, steps, j, t)
    ensures 0 <= j < |steps|
  {
  }

  lemma NoAct(limit: nat, threads: nat, steps: seq<Step>, t: nat)
    requires steps != []
    requires var last := steps[|steps| - 1];
      !(Enabled(Run(limit, Init(threads), steps[..|steps| - 1]), last) && last.t == t)
    ensures !Acts(limit, threads, steps, |steps| - 1, t)
  {
    hide Enabled, Run;
  }

  /** A caller is turned away only if `limit` slots were live at its last access. */
  lemma RefusedOnlyWhenFull(limit: nat, threads: nat, steps: seq<Step>, t: nat) returns (k: nat)
    requires t < |Run(limit, Init(threads), steps).threads|
    requires var pc := Run(limit, Init(threads), steps).threads[t]; pc.Trying? && pc.current >= limit
    ensures Acts(limit, threads, steps, k, t) && forall j :: j > k ==> !Acts(limit, threads, steps, j, t)
    ensures Live(Run(limit, Init(threads), steps[..k]).threads) == limit
  {
    hide Acts;
    CounterIsExact(limit, threads, steps);
    k := ReadMoment(limit, threads, steps, t);
  }

  /** While slots are free, a caller left alone gets one after at most one re-read. */
  lemma AloneSucceeds(limit: nat, s: State, t: nat)
    requires t < |s.threads| && s.threads[t].Trying? && s.threads[t].current < limit && s.active < limit
    ensures var r := Run(limit, s, [Attempt(t, false), Attempt(t, false)]);
      |r.threads| == |s.threads| && r.threads[t].Inside?
  {
    var a := Attempt(t, false);
    assert [a, a][..1] == [a] && [a][..0] == [];
    assert Run(limit, s, [a]) == Next(limit, s, a);
    assert Run(limit, s, [a, a]) == Next(limit, Next(limit, s, a), a);
  }
}
