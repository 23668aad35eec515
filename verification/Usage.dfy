/**
 Per-turn token accounting (`src/acp.rs`): saturating counters over the usage legs of the
 sixteen turns opened last, proved against a table that simply keeps every leg.
 */
module Usage {
  import opened Options

  const MAX := 0xFFFF_FFFF_FFFF_FFFF

  type U64 = n: int | 0 <= n <= MAX

  const TURN_USAGE_KEEP := 16

  datatype Totals = Totals(
    total: U64, input: U64, output: U64,
    thought: Option<U64>, cachedRead: Option<U64>, cachedWrite: Option<U64>)

  datatype Leg = Leg(model: string, duration: Option<U64>, usage: Totals)

  /** The members of a `session/tokenUsage` notification. */
  datatype Params = Params(
    promptTokens: Option<U64>, totalTokens: Option<U64>, reasoningTokens: Option<U64>,
    cacheReadTokens: Option<U64>, cachedTokens: Option<U64>, cacheWriteTokens: Option<U64>,
    modelId: Option<string>, durationMs: Option<U64>)

  datatype TurnUsage = TurnUsage(
    turn: string, calls: U64, duration: Option<U64>, totals: Totals, byModel: seq<(string, Totals)>)

  function Or0(v: Option<U64>): U64 {
    if v.Some? then v.value else 0
  }

  function LegOf(p: Params): (leg: Leg)
    ensures leg.usage.input <= leg.usage.total ==> leg.usage.input + leg.usage.output == leg.usage.total
  {
    var total, prompt := Or0(p.totalTokens), Or0(p.promptTokens);
    Leg(if p.modelId.Some? then p.modelId.value else "", p.durationMs,
        Totals(total, prompt, if prompt <= total then total - prompt else 0, p.reasoningTokens,
               if p.cacheReadTokens.Some? then p.cacheReadTokens else p.cachedTokens, p.cacheWriteTokens))
  }

  // ---------- the program's arithmetic ----------

  function Saturating(a: U64, b: U64): U64 {
    if a + b <= MAX then a + b else MAX
  }

  function AddOpt(slot: Option<U64>, add: Option<U64>): Option<U64> {
    if add.None? then slot else Some(Saturating(Or0(slot), add.value))
  }

  function Add(t: Totals, leg: Totals): Totals {
    Totals(Saturating(t.total, leg.total), Saturating(t.input, leg.input), Saturating(t.output, leg.output),
           AddOpt(t.thought, leg.thought), AddOpt(t.cachedRead, leg.cachedRead),
           AddOpt(t.cachedWrite, leg.cachedWrite))
  }

  const ZERO := Totals(0, 0, 0, None, None, None)

  // ---------- what the counters stand for ----------

  datatype Counter = TotalTokens | InputTokens | OutputTokens | ThoughtTokens | CachedRead | CachedWrite

  predicate AlwaysReported(c: Counter) { c in {TotalTokens, InputTokens, OutputTokens} }

  function Get(t: Totals, c: Counter): (v: Option<U64>)
    ensures AlwaysReported(c) ==> v.Some?
  {
    match c
    case TotalTokens => Some(t.total)
    case InputTokens => Some(t.input)
    case OutputTokens => Some(t.output)
    case ThoughtTokens => t.thought
    case CachedRead => t.cachedRead
    case CachedWrite => t.cachedWrite
  }

  function Cap(n: nat): U64 {
    if n <= MAX then n else MAX
  }

  /** The exact sum over the legs, without any bound. */
  function Sum(legs: seq<Leg>, c: Counter): nat {
    if legs == [] then 0 else Sum(legs[..|legs| - 1], c) + Or0(Get(legs[|legs| - 1].usage, c))
  }

  predicate Reported(legs: seq<Leg>, c: Counter) {
    AlwaysReported(c) || exists i :: 0 <= i < |legs| && Get(legs[i].usage, c).Some?
  }

  function Expected(legs: seq<Leg>, c: Counter): Option<U64> {
    if Reported(legs, c) then Some(Cap(Sum(legs, c))) else None
  }

  /** Each counter is the exact sum up to the limit, and absent when no leg reported it. */
  ghost predicate Counts(t: Totals, legs: seq<Leg>) {
    forall c :: Get(t, c) == Expected(legs, c)
  }

  function DurationSum(legs: seq<Leg>): nat {
    if legs == [] then 0 else DurationSum(legs[..|legs| - 1]) + Or0(legs[|legs| - 1].duration)
  }

  function ExpectedDuration(legs: seq<Leg>): Option<U64> {
    if exists i :: 0 <= i < |legs| && legs[i].duration.Some? then Some(Cap(DurationSum(legs))) else None
  }

  /** The legs of one model. */
  function OfModel(legs: seq<Leg>, model: string): seq<Leg> {
    if legs == [] then []
    else
      var rest := OfModel(legs[..|legs| - 1], model);
      if legs[|legs| - 1].model == model then rest + [legs[|legs| - 1]] else rest
  }

  /** The models named by the legs, in first-seen order. */
  function Models(legs: seq<Leg>): (ms: seq<string>)
    ensures "" !in ms && forall i, j :: 0 <= i < j < |ms| ==> ms[i] != ms[j]
  {
    if legs == [] then []
    else
      var rest := Models(legs[..|legs| - 1]);
      var m := legs[|legs| - 1].model;
      if m == "" || m in rest then rest else rest + [m]
  }

  /** One row per model, each counting that model's legs. */
  ghost predicate Rows(rows: seq<(string, Totals)>, legs: seq<Leg>) {
    && |rows| == |Models(legs)|
    && (forall i :: 0 <= i < |rows| ==> rows[i].0 == Models(legs)[i])
    && (forall i :: 0 <= i < |rows| ==> Counts(rows[i].1, OfModel(legs, rows[i].0)))
  }

  ghost predicate Summarizes(u: TurnUsage, turn: string, legs: seq<Leg>) {
    && u.turn == turn && u.calls == Cap(|legs|) && u.duration == ExpectedDuration(legs)
    && Counts(u.totals, legs) && Rows(u.byModel, legs)
  }

  // ---------- one more leg ----------

  lemma AddCounts(t: Totals, legs: seq<Leg>, leg: Leg)
    requires Counts(t, legs)
    ensures Counts(Add(t, leg.usage), legs + [leg])
  {
    var more := legs + [leg];
    assert more[..|legs|] == legs;
    forall c ensures Get(Add(t, leg.usage), c) == Expected(more, c) {
      assert Get(t, c) == Expected(legs, c);
      assert Reported(more, c) <==> Reported(legs, c) || Get(leg.usage, c).Some? by {
        assert more[|legs|] == leg;
        if i :| 0 <= i < |legs| && Get(legs[i].usage, c).Some? {
          assert Get(more[i].usage, c).Some?;
        }
      }
      if !Reported(legs, c) {
        UnreportedIsZero(legs, c);
      }
      assert Sum(more, c) == Sum(legs, c) + Or0(Get(leg.usage, c));
    }
  }

  lemma {:induction false} UnreportedIsZero(legs: seq<Leg>, c: Counter)
    requires !Reported(legs, c)
    ensures Sum(legs, c) == 0
  {
    if legs != [] {
      UnreportedIsZero(legs[..|legs| - 1], c);
    }
  }

  lemma FirstCounts(leg: Leg)
    ensures Counts(leg.usage, [leg])
  {
    forall c ensures Get(leg.usage, c) == Expected([leg], c) {
      assert [leg][..0] == [];
      assert Sum([leg], c) == Or0(Get(leg.usage, c));
      assert [leg][0] == leg;
    }
  }

  lemma AddDuration(legs: seq<Leg>, leg: Leg)
    ensures AddOpt(ExpectedDuration(legs), leg.duration) == ExpectedDuration(legs + [leg])
  {
    var more := legs + [leg];
    assert more[..|legs|] == legs && more[|legs|] == leg;
    if i :| 0 <= i < |legs| && legs[i].duration.Some? {
      assert more[i].duration.Some?;
    } else {
      NoDurationIsZero(legs);
    }
  }

  lemma {:induction false} NoDurationIsZero(legs: seq<Leg>)
    requires forall i :: 0 <= i < |legs| ==> legs[i].duration.None?
    ensures DurationSum(legs) == 0
  {
    if legs != [] {
      NoDurationIsZero(legs[..|legs| - 1]);
    }
  }

  lemma {:induction false} OfModelEmpty(legs: seq<Leg>, model: string)
    requires model != "" && model !in Models(legs)
    ensures OfModel(legs, model) == []
  {
    if legs != [] {
      OfModelEmpty(legs[..|legs| - 1], model);
    }
  }

  lemma OfModelAppend(legs: seq<Leg>, leg: Leg, model: string)
    ensures OfModel(legs + [leg], model) ==
      if leg.model == model then OfModel(legs, model) + [leg] else OfModel(legs, model)
  {
    assert (legs + [leg])[..|legs|] == legs;
  }

  lemma ModelsAppend(legs: seq<Leg>, leg: Leg)
    ensures var ms := Models(legs);
      Models(legs + [leg]) == if leg.model == "" || leg.model in ms then ms else ms + [leg.model]
  {
    assert (legs + [leg])[..|legs|] == legs;
  }

  lemma RowsUnnamed(rows: seq<(string, Totals)>, legs: seq<Leg>, leg: Leg)
    requires Rows(rows, legs) && leg.model == ""
    ensures Rows(rows, legs + [leg])
  {
    hide Counts, Models, OfModel;
    ModelsAppend(legs, leg);
    forall i | 0 <= i < |rows| ensures Counts(rows[i].1, OfModel(legs + [leg], rows[i].0)) {
      OfModelAppend(legs, leg, rows[i].0);
    }
  }

  lemma RowsNew(rows: seq<(string, Totals)>, legs: seq<Leg>, leg: Leg)
    requires Rows(rows, legs) && leg.model != "" && leg.model !in Models(legs)
    ensures Rows(rows + [(leg.model, leg.usage)], legs + [leg])
  {
    hide Counts, Models, OfModel;
    ModelsAppend(legs, leg);
    OfModelEmpty(legs, leg.model);
    FirstCounts(leg);
    assert [] + [leg] == [leg];
    var more := rows + [(leg.model, leg.usage)];
    forall i | 0 <= i < |more| ensures Counts(more[i].1, OfModel(legs + [leg], more[i].0)) {
      OfModelAppend(legs, leg, more[i].0);
    }
  }

  lemma RowsAdd(rows: seq<(string, Totals)>, legs: seq<Leg>, leg: Leg, k: nat)
    requires Rows(rows, legs) && leg.model != "" && k < |rows| && rows[k].0 == leg.model
    ensures Rows(rows[k := (rows[k].0, Add(rows[k].1, leg.usage))], legs + [leg])
  {
    hide Counts, Models, OfModel;
    assert leg.model == Models(legs)[k];
    ModelsAppend(legs, leg);
    AddCounts(rows[k].1, OfModel(legs, leg.model), leg);
    var more := rows[k := (rows[k].0, Add(rows[k].1, leg.usage))];
    forall i | 0 <= i < |more| ensures Counts(more[i].1, OfModel(legs + [leg], more[i].0)) {
      OfModelAppend(legs, leg, more[i].0);
      assert Models(legs)[i] == more[i].0;
    }
  }

  method Record(u: TurnUsage, leg: Leg, ghost legs: seq<Leg>) returns (r: TurnUsage)
    requires Summarizes(u, u.turn, legs)
    ensures Summarizes(r, u.turn, legs + [leg])
  {
    hide Counts, Rows, ExpectedDuration;
    AddDuration(legs, leg);
    AddCounts(u.totals, legs, leg);
    var rows := u.byModel;
    if leg.model != "" {
      var i := 0;
      while i < |rows| && rows[i].0 != leg.model
        invariant 0 <= i <= |rows|
        invariant forall j :: 0 <= j < i ==> rows[j].0 != leg.model
      {
        i := i + 1;
      }
      if i < |rows| {
        RowsAdd(rows, legs, leg, i);
        rows := rows[i := (rows[i].0, Add(rows[i].1, leg.usage))];
      } else {
        NotAmong(rows, legs, leg.model);
        RowsNew(rows, legs, leg);
        rows := rows + [(leg.model, leg.usage)];
      }
    } else {
      RowsUnnamed(rows, legs, leg);
    }
    r := TurnUsage(u.turn, Saturating(u.calls, 1), AddOpt(u.duration, leg.duration), Add(u.totals, leg.usage), rows);
  }

  lemma NotAmong(rows: seq<(string, Totals)>, legs: seq<Leg>, model: string)
    requires Rows(rows, legs) && forall j :: 0 <= j < |rows| ==> rows[j].0 != model
    ensures model !in Models(legs)
  {
    forall j | 0 <= j < |Models(legs)| ensures Models(legs)[j] != model {
      assert rows[j].0 == Models(legs)[j];
    }
  }

  lemma NewSummarizes(turn: string)
    ensures Summarizes(TurnUsage(turn, 0, None, ZERO, []), turn, [])
  {
  }

  // ---------- the table that keeps every leg ----------

  datatype Kept = Kept(turn: string, legs: seq<Leg>)

  function Find(table: seq<Kept>, turn: string): (i: nat)
    ensures i <= |table| && (i < |table| ==> table[i].turn == turn)
    ensures forall j :: 0 <= j < i ==> table[j].turn != turn
  {
    if table == [] || table[0].turn == turn then 0
    else
      assert forall j :: 1 <= j < 1 + Find(table[1..], turn) ==> table[j] == table[1..][j - 1];
      1 + Find(table[1..], turn)
  }

  /** A leg joins its turn's entry; a new turn's entry may push the oldest one out. */
  function KeepLeg(table: seq<Kept>, turn: string, leg: Leg): seq<Kept> {
    var i := Find(table, turn);
    if turn == "" then table
    else if i < |table| then table[i := Kept(turn, table[i].legs + [leg])]
    else
      var more := table + [Kept(turn, [leg])];
      if |more| > TURN_USAGE_KEEP then more[1..] else more
  }

  function Remove<T>(s: seq<T>, i: nat): seq<T>
    requires i < |s|
  {
    s[..i] + s[i + 1..]
  }

  function TakeTurn(table: seq<Kept>, turn: string): seq<Kept> {
    var i := Find(table, turn);
    if i < |table| then Remove(table, i) else table
  }

  class Session {
    var turnUsage: seq<TurnUsage>
    /** The table this one stands for. */
    ghost var table: seq<Kept>

    ghost predicate Valid()
      reads this
    {
      && |turnUsage| == |table|
      && (forall i :: 0 <= i < |table| ==> Summarizes(turnUsage[i], table[i].turn, table[i].legs))
    }

    constructor ()
      ensures Valid() && table == []
    {
      turnUsage, table := [], [];
    }

    method Position(turn: string) returns (i: nat)
      requires Valid()
      ensures i == Find(table, turn)
    {
      hide Summarizes;
      i := 0;
      while i < |turnUsage| && turnUsage[i].turn != turn
        invariant i <= |turnUsage|
        invariant forall j :: 0 <= j < i ==> table[j].turn != turn
      {
        SameTurn(turnUsage[i], table[i]);
        i := i + 1;
      }
      if i < |turnUsage| {
        SameTurn(turnUsage[i], table[i]);
      }
      FindFirst(table, turn, i);
    }

    method RecordTurnLeg(turn: string, params: Params)
      requires Valid()
      modifies this
      ensures Valid() && table == KeepLeg(old(table), turn, LegOf(params))
    {
      hide Summarizes;
      if turn == "" {
        return;
      }
      var prompt: U64, total: U64 := Or0(params.promptTokens), Or0(params.totalTokens);
      var output: U64 := 0;
      if total > prompt {
        output := total - prompt;
      }
      var cachedRead := params.cacheReadTokens;
      if cachedRead.None? {
        cachedRead := params.cachedTokens;
      }
      var model := "";
      if params.modelId.Some? {
        model := params.modelId.value;
      }
      var leg := Leg(model, params.durationMs,
                     Totals(total, prompt, output, params.reasoningTokens, cachedRead, params.cacheWriteTokens));
      assert leg == LegOf(params);
      hide LegOf;
      var i := Position(turn);
      if i < |turnUsage| {
        SameTurn(turnUsage[i], table[i]);
        var entry := Record(turnUsage[i], leg, table[i].legs);
        turnUsage := turnUsage[i := entry];
        table := table[i := Kept(turn, table[i].legs + [leg])];
        return;
      }
      NewSummarizes(turn);
      var entry := Record(TurnUsage(turn, 0, None, ZERO, []), leg, []);
      assert [] + [leg] == [leg];
      turnUsage := turnUsage + [entry];
      table := table + [Kept(turn, [leg])];
      if |turnUsage| > TURN_USAGE_KEEP {
        turnUsage := turnUsage[1..];
        table := table[1..];
      }
    }

    /** The taken entry counts every leg kept for the turn. */
    method TakeTurnUsage(turn: string) returns (r: Option<TurnUsage>)
      requires Valid()
      modifies this
      ensures Valid() && table == TakeTurn(old(table), turn)
      ensures r.Some? <==> Find(old(table), turn) < |old(table)|
      ensures r.Some? ==> Summarizes(r.value, turn, old(table)[Find(old(table), turn)].legs)
    {
      hide Summarizes;
      var i := Position(turn);
      if i == |turnUsage| {
        return None;
      }
      r := Some(turnUsage[i]);
      turnUsage := turnUsage[..i] + turnUsage[i + 1..];
      table := Remove(table, i);
    }
  }

  lemma SameTurn(u: TurnUsage, k: Kept)
    requires Summarizes(u, k.turn, k.legs)
    ensures u.turn == k.turn
  {
  }

  lemma {:induction false} FindFirst(table: seq<Kept>, turn: string, i: nat)
    requires i <= |table| && (i < |table| ==> table[i].turn == turn)
    requires forall j :: 0 <= j < i ==> table[j].turn != turn
    ensures Find(table, turn) == i
  {
  }

  // ---------- rows and totals ----------

  function SumOfModels(models: seq<string>, legs: seq<Leg>, c: Counter): nat {
    if models == [] then 0
    else SumOfModels(models[..|models| - 1], legs, c) + Sum(OfModel(legs, models[|models| - 1]), c)
  }

  /** Every leg counts once: under its model, or among those that name none. */
  lemma {:induction false} SplitByModel(legs: seq<Leg>, c: Counter)
    ensures Sum(legs, c) == SumOfModels(Models(legs), legs, c) + Sum(OfModel(legs, ""), c)
  {
    if legs == [] {
      assert Models(legs) == [] && OfModel(legs, "") == [];
    } else {
      hide Sum, OfModel, Models, Get, SumOfModels;
      var rest, leg := legs[..|legs| - 1], legs[|legs| - 1];
      assert legs == rest + [leg];
      SplitByModel(rest, c);
      SumAppend(rest, leg, c);
      OfModelAppend(rest, leg, "");
      SumAppend(OfModel(rest, ""), leg, c);
      ModelShare(rest, leg, c);
    }
  }

  /** A leg that names a model adds to the model rows, any other leg does not. */
  lemma ModelShare(rest: seq<Leg>, leg: Leg, c: Counter)
    ensures SumOfModels(Models(rest + [leg]), rest + [leg], c) ==
      SumOfModels(Models(rest), rest, c) + if leg.model == "" then 0 else Or0(Get(leg.usage, c))
  {
    hide Sum, OfModel, Models, Get;
    var ms := Models(rest);
    ModelsAppend(rest, leg);
    if leg.model in ms {
      SumOfOne(ms, rest, leg, c);
    } else {
      SumOfOthers(ms, rest, leg, c);
      if leg.model != "" {
        assert (ms + [leg.model])[..|ms|] == ms;
        OfModelEmpty(rest, leg.model);
        OfModelAppend(rest, leg, leg.model);
        SumAppend(OfModel(rest, leg.model), leg, c);
        SumOfNone(c);
      }
    }
  }

  lemma SumOfNone(c: Counter)
    ensures Sum([], c) == 0
  {
  }

  lemma SumAppend(legs: seq<Leg>, leg: Leg, c: Counter)
    ensures Sum(legs + [leg], c) == Sum(legs, c) + Or0(Get(leg.usage, c))
  {
    assert (legs + [leg])[..|legs|] == legs;
  }

  lemma {:induction false} SumOfOthers(models: seq<string>, legs: seq<Leg>, leg: Leg, c: Counter)
    requires leg.model !in models
    ensures SumOfModels(models, legs + [leg], c) == SumOfModels(models, legs, c)
  {
    if models != [] {
      SumOfOthers(models[..|models| - 1], legs, leg, c);
      OfModelAppend(legs, leg, models[|models| - 1]);
    }
  }

  lemma {:induction false} SumOfOne(models: seq<string>, legs: seq<Leg>, leg: Leg, c: Counter)
    requires leg.model in models && forall i, j :: 0 <= i < j < |models| ==> models[i] != models[j]
    ensures SumOfModels(models, legs + [leg], c) == SumOfModels(models, legs, c) + Or0(Get(leg.usage, c))
  {
    var rest, m := models[..|models| - 1], models[|models| - 1];
    OfModelAppend(legs, leg, m);
    if m == leg.model {
      SumOfOthers(rest, legs, leg, c);
      SumAppend(OfModel(legs, m), leg, c);
    } else {
      SumOfOne(rest, legs, leg, c);
    }
  }

  function RowSum(rows: seq<(string, Totals)>, c: Counter): nat {
    if rows == [] then 0 else RowSum(rows[..|rows| - 1], c) + Or0(Get(rows[|rows| - 1].1, c))
  }

  /** When nothing saturates, the model rows and the legs that name no model add up to the total. */
  lemma RowsAddUp(u: TurnUsage, turn: string, legs: seq<Leg>, c: Counter)
    requires Summarizes(u, turn, legs) && Sum(legs, c) <= MAX
    ensures RowSum(u.byModel, c) + Sum(OfModel(legs, ""), c) == Or0(Get(u.totals, c)) == Sum(legs, c)
  {
    SplitByModel(legs, c);
    CountsValue(u.totals, legs, c);
    RowSums(u.byModel, Models(legs), legs, c);
  }

  lemma CountsValue(t: Totals, legs: seq<Leg>, c: Counter)
    requires Counts(t, legs)
    ensures Or0(Get(t, c)) == Cap(Sum(legs, c))
  {
    assert Get(t, c) == Expected(legs, c);
    if !Reported(legs, c) {
      UnreportedIsZero(legs, c);
    }
  }

  lemma {:induction false} RowSums(rows: seq<(string, Totals)>, models: seq<string>, legs: seq<Leg>, c: Counter)
    requires |rows| == |models| && forall i :: 0 <= i < |rows| ==> rows[i].0 == models[i]
    requires forall i :: 0 <= i < |rows| ==> Counts(rows[i].1, OfModel(legs, rows[i].0))
    requires SumOfModels(models, legs, c) <= MAX
    ensures RowSum(rows, c) == SumOfModels(models, legs, c)
  {
    hide Counts;
    if rows != [] {
      RowSums(rows[..|rows| - 1], models[..|models| - 1], legs, c);
      CountsValue(rows[|rows| - 1].1, OfModel(legs, models[|models| - 1]), c);
    }
  }

  // ---------- order does not matter ----------

  lemma SumAnyOrder(a: seq<Leg>, b: seq<Leg>, c: Counter)
    requires multiset(a) == multiset(b)
    ensures Sum(a, c) == Sum(b, c) && (Reported(a, c) <==> Reported(b, c))
  {
    SumPermuted(a, b, c);
    ReportedAnyOrder(a, b, c);
  }

  lemma {:induction false} SumPermuted(a: seq<Leg>, b: seq<Leg>, c: Counter)
    requires multiset(a) == multiset(b)
    ensures Sum(a, c) == Sum(b, c)
    decreases |a|
  {
    hide Get, Sum;
    if a == [] {
      assert |multiset(b)| == |b|;
    } else {
      var x, rest := a[|a| - 1], a[..|a| - 1];
      assert a == rest + [x];
      assert x in multiset(b);
      var i :| 0 <= i < |b| && b[i] == x;
      WithoutOne(rest, b, x, i);
      SumPermuted(rest, b[..i] + b[i + 1..], c);
      SumAppend(rest, x, c);
      SumWithout(b, i, c);
    }
  }

  lemma SumWithout(b: seq<Leg>, i: nat, c: Counter)
    requires i < |b|
    ensures Sum(b, c) == Sum(b[..i] + b[i + 1..], c) + Or0(Get(b[i].usage, c))
  {
    hide Get, Sum;
    var front, back := b[..i], b[i + 1..];
    assert b == front + [b[i]] + back;
    SumConcat(front, back, c);
    SumConcat(front + [b[i]], back, c);
    SumAppend(front, b[i], c);
  }

  lemma WithoutOne(rest: seq<Leg>, b: seq<Leg>, x: Leg, i: nat)
    requires i < |b| && b[i] == x && multiset(rest + [x]) == multiset(b)
    ensures multiset(rest) == multiset(b[..i] + b[i + 1..])
  {
    assert b == b[..i] + ([x] + b[i + 1..]);
    var m, n := multiset(rest), multiset(b[..i] + b[i + 1..]);
    assert m + multiset{x} == n + multiset{x};
    forall y ensures m[y] == n[y] {
      assert (m + multiset{x})[y] == (n + multiset{x})[y];
    }
  }

  lemma ReportedAnyOrder(a: seq<Leg>, b: seq<Leg>, c: Counter)
    requires multiset(a) == multiset(b)
    ensures Reported(a, c) <==> Reported(b, c)
  {
    hide Get;
    assert forall y :: y in a ==> y in multiset(b);
    assert forall y :: y in b ==> y in multiset(a);
    assert (exists i :: 0 <= i < |a| && Get(a[i].usage, c).Some?) <==> exists y :: y in a && Get(y.usage, c).Some?;
    assert (exists i :: 0 <= i < |b| && Get(b[i].usage, c).Some?) <==> exists y :: y in b && Get(y.usage, c).Some?;
  }

  lemma {:induction false} SumConcat(a: seq<Leg>, b: seq<Leg>, c: Counter)
    ensures Sum(a + b, c) == Sum(a, c) + Sum(b, c)
  {
    if b == [] {
      assert a + b == a;
    } else {
      SumConcat(a, b[..|b| - 1], c);
      assert (a + b)[..|a + b| - 1] == a + b[..|b| - 1];
    }
  }

  // ---------- whole sessions ----------

  datatype Event = LegArrives(turn: string, params: Params) | TurnTaken(turn: string)

  function Apply(table: seq<Kept>, e: Event): seq<Kept> {
    match e
    case LegArrives(turn, params) => KeepLeg(table, turn, LegOf(params))
    case TurnTaken(turn) => TakeTurn(table, turn)
  }

  function Run(events: seq<Event>): seq<Kept> {
    if events == [] then [] else Apply(Run(events[..|events| - 1]), events[|events| - 1])
  }

  method HandleAll(events: seq<Event>) returns (s: Session)
    ensures fresh(s) && s.Valid() && s.table == Run(events)
  {
    s := new Session();
    for i := 0 to |events|
      invariant fresh(s) && s.Valid() && s.table == Run(events[..i])
    {
      assert events[..i + 1][..i] == events[..i];
      match events[i]
      case LegArrives(turn, params) => s.RecordTurnLeg(turn, params);
      case TurnTaken(turn) => var _ := s.TakeTurnUsage(turn);
    }
    assert events[..|events|] == events;
  }

  /** The legs of a turn among the events, in order. */
  function LegsFor(events: seq<Event>, turn: string): seq<Leg> {
    if events == [] then []
    else
      var rest, e := LegsFor(events[..|events| - 1], turn), events[|events| - 1];
      if e.LegArrives? && e.turn == turn then rest + [LegOf(e.params)] else rest
  }

  predicate Distinct(table: seq<Kept>) {
    forall i, j :: 0 <= i < j < |table| ==> table[i].turn != table[j].turn
  }

  predicate Holds(table: seq<Kept>, turn: string) {
    exists i :: 0 <= i < |table| && table[i].turn == turn
  }

  /** At most sixteen turns are kept, each once. */
  lemma {:induction false} RunKeeps(events: seq<Event>)
    ensures |Run(events)| <= TURN_USAGE_KEEP && Distinct(Run(events))
  {
    hide LegOf;
    if events != [] {
      RunKeeps(events[..|events| - 1]);
    }
  }

  lemma LegsForAppend(events: seq<Event>, e: Event, turn: string)
    ensures LegsFor(events + [e], turn) ==
      LegsFor(events, turn) + if e.LegArrives? && e.turn == turn then [LegOf(e.params)] else []
  {
    assert (events + [e])[..|events|] == events;
  }

  lemma LegsForOne(e: Event, turn: string)
    ensures LegsFor([e], turn) == if e.LegArrives? && e.turn == turn then [LegOf(e.params)] else []
  {
    assert [e][..0] == [];
  }

  /** Where an entry of the next table comes from. */
  lemma Origin(table: seq<Kept>, e: Event, k: Kept)
    requires Distinct(table) && k in Apply(table, e)
    ensures !(e.TurnTaken? && e.turn == k.turn)
    ensures e.LegArrives? && e.turn == k.turn && e.turn != "" ==>
      if Holds(table, k.turn) then exists legs :: Kept(k.turn, legs) in table && k.legs == legs + [LegOf(e.params)]
      else k.legs == [LegOf(e.params)]
    ensures e.turn != k.turn || e.turn == "" ==> k in table
  {
    hide LegOf;
    var i := Find(table, e.turn);
    if i < |table| {
      assert table[i] == Kept(e.turn, table[i].legs);
      assert table[i] in table;
    }
  }

  lemma {:induction false} NamedTurns(events: seq<Event>, k: Kept)
    requires k in Run(events)
    ensures k.turn != ""
  {
    if events != [] {
      var rest := events[..|events| - 1];
      RunKeeps(rest);
      if k in Run(rest) {
        NamedTurns(rest, k);
      }
    }
  }

  /**
   A kept turn holds every leg since it was opened: there is a moment at which the table
   held nothing for it, from which it was never taken, and all its legs since then are in
   its entry.
   */
  lemma {:induction false} KeptSinceOpened(events: seq<Event>, k: Kept) returns (cut: nat)
    requires k in Run(events)
    ensures cut < |events| && !Holds(Run(events[..cut]), k.turn)
    ensures TurnTaken(k.turn) !in events[cut..]
    ensures k.legs == LegsFor(events[cut..], k.turn)
  {
    hide Apply, LegOf, LegsFor, Holds;
    var rest, e := events[..|events| - 1], events[|events| - 1];
    var table := Run(rest);
    RunKeeps(rest);
    NamedTurns(events, k);
    Origin(table, e, k);
    if e.LegArrives? && e.turn == k.turn && !Holds(table, k.turn) {
      cut := |rest|;
      assert events[cut..] == [e];
      LegsForOne(e, k.turn);
    } else {
      var legs :| Kept(k.turn, legs) in table &&
        k.legs == legs + if e.LegArrives? && e.turn == k.turn then [LegOf(e.params)] else [];
      cut := KeptSinceOpened(rest, Kept(k.turn, legs));
      assert events[cut..] == rest[cut..] + [e] && events[..cut] == rest[..cut];
      LegsForAppend(rest[cut..], e, k.turn);
      assert e != TurnTaken(k.turn);
    }
  }

  function Turns(events: seq<Event>): set<string> {
    set e | e in events && e.LegArrives? && e.turn != "" :: e.turn
  }

  /** When a session has no more than sixteen turns, a turn never taken holds all its legs. */
  lemma {:induction false} NothingForgotten(events: seq<Event>, turn: string)
    requires turn in Turns(events) && |Turns(events)| <= TURN_USAGE_KEEP && TurnTaken(turn) !in events
    ensures Kept(turn, LegsFor(events, turn)) in Run(events)
  {
    hide Apply, LegOf;
    var rest, e := events[..|events| - 1], events[|events| - 1];
    assert events == rest + [e];
    assert Turns(rest) <= Turns(events);
    FewerTurns(Turns(rest), Turns(events));
    LegsForAppend(rest, e, turn);
    RunKeeps(rest);
    TableTurns(rest);
    var table := Run(rest);
    if turn in Turns(rest) {
      NothingForgotten(rest, turn);
      Remains(table, e, Kept(turn, LegsFor(rest, turn)), Turns(events));
      assert LegsFor(rest, turn) + [] == LegsFor(rest, turn);
    } else {
      NoLegs(rest, turn);
      Opens(table, e, Turns(rest));
      assert [] + [LegOf(e.params)] == [LegOf(e.params)];
    }
  }

  lemma FewerTurns(a: set<string>, b: set<string>)
    requires a <= b
    ensures |a| <= |b|
  {
    assert b == a + (b - a);
  }

  lemma {:induction false} NoLegs(events: seq<Event>, turn: string)
    requires turn != "" && turn !in Turns(events)
    ensures LegsFor(events, turn) == []
  {
    if events != [] {
      var rest := events[..|events| - 1];
      assert events == rest + [events[|events| - 1]];
      NoLegs(rest, turn);
    }
  }

  /** The table names only turns that had a leg. */
  lemma {:induction false} TableTurns(events: seq<Event>)
    ensures forall k :: k in Run(events) ==> k.turn in Turns(events)
  {
    hide LegOf;
    if events != [] {
      var rest := events[..|events| - 1];
      assert events == rest + [events[|events| - 1]];
      TableTurns(rest);
      RunKeeps(rest);
      forall k | k in Run(events) ensures k.turn in Turns(events) {
        NamedTurns(events, k);
      }
    }
  }

  lemma {:induction false} TurnsCount(table: seq<Kept>, turns: set<string>)
    requires Distinct(table) && forall k :: k in table ==> k.turn in turns
    ensures |table| <= |turns|
  {
    if table != [] {
      var rest, last := table[..|table| - 1], table[|table| - 1];
      TurnsCount(rest, turns - {last.turn});
    }
  }

  /** An entry stays, with a leg more or not, unless it is taken or an eviction happens. */
  lemma Remains(table: seq<Kept>, e: Event, k: Kept, turns: set<string>)
    requires |table| <= TURN_USAGE_KEEP && Distinct(table) && k in table && k.turn != "" && e != TurnTaken(k.turn)
    requires (forall x :: x in table ==> x.turn in turns) && |turns| <= TURN_USAGE_KEEP
    requires e.LegArrives? && e.turn != "" ==> e.turn in turns
    ensures var more := if e.LegArrives? && e.turn == k.turn then [LegOf(e.params)] else [];
      Kept(k.turn, k.legs + more) in Apply(table, e)
  {
    hide LegOf;
    assert k.legs + [] == k.legs;
    var i := Find(table, e.turn);
    if e.TurnTaken? {
      StaysWhenTaken(table, e.turn, k);
    } else if e.turn != "" && i == |table| {
      var more := table + [Kept(e.turn, [LegOf(e.params)])];
      TurnsCount(more, turns);
      assert k in more;
    } else if e.turn != "" && e.turn == k.turn {
      assert table[i] == k;
      assert table[i := Kept(k.turn, k.legs + [LegOf(e.params)])][i] == Kept(k.turn, k.legs + [LegOf(e.params)]);
    } else if e.turn != "" {
      var j :| 0 <= j < |table| && table[j] == k;
      assert table[i := Kept(e.turn, table[i].legs + [LegOf(e.params)])][j] == k;
    }
  }

  lemma StaysWhenTaken(table: seq<Kept>, turn: string, k: Kept)
    requires k in table && k.turn != turn
    ensures k in TakeTurn(table, turn)
  {
    var i := Find(table, turn);
    if i < |table| {
      assert table == table[..i] + [table[i]] + table[i + 1..];
    }
  }

  lemma Opens(table: seq<Kept>, e: Event, turns: set<string>)
    requires e.LegArrives? && e.turn != "" && e.turn !in turns
    requires forall x :: x in table ==> x.turn in turns
    ensures Kept(e.turn, [LegOf(e.params)]) in Apply(table, e)
  {
    hide LegOf;
    var more := table + [Kept(e.turn, [LegOf(e.params)])];
    assert more[|more| - 1] == Kept(e.turn, [LegOf(e.params)]);
    assert |more| > 1 ==> more[1..][|more| - 2] == more[|more| - 1];
  }

  // ---------- which turns are kept ----------

  /** The turn opened before all others. */
  ghost predicate Earliest(moments: map<string, nat>, turn: string) {
    turn in moments && forall other :: other in moments ==> moments[turn] <= moments[other]
  }

  /** The kept turns with the event that opened each. A turn opens with a leg while it is not
      kept; beyond sixteen the one opened first goes; a taken turn goes. */
  ghost function Opened(events: seq<Event>): map<string, nat> {
    if events == [] then map[]
    else
      var m, e := Opened(events[..|events| - 1]), events[|events| - 1];
      match e
      case TurnTaken(turn) => m - {turn}
      case LegArrives(turn, _) =>
        if turn == "" || turn in m then m
        else
          var more := m[turn := |events| - 1];
          if |more| > 16 then map x | x in more && !Earliest(more, x) :: more[x] else more
  }

  /** The table lists these turns in the order of their openings. */
  ghost predicate Lists(table: seq<Kept>, moments: map<string, nat>) {
    && (forall turn :: turn in moments <==> Holds(table, turn))
    && (forall i :: 0 <= i < |table| ==> table[i].turn in moments)
    && (forall i, j :: 0 <= i < j < |table| ==> moments[table[i].turn] < moments[table[j].turn])
  }

  lemma {:induction false} SizeOf(table: seq<Kept>, turns: set<string>)
    requires Distinct(table) && forall turn :: turn in turns <==> Holds(table, turn)
    ensures |turns| == |table|
    decreases |table|
  {
    if table == [] {
      assert turns == {};
    } else {
      var rest, last := table[..|table| - 1], table[|table| - 1];
      assert forall i :: 0 <= i < |rest| ==> rest[i] == table[i];
      assert last == table[|table| - 1];
      forall turn ensures turn in turns - {last.turn} <==> Holds(rest, turn) {
        if turn in turns && turn != last.turn {
          var i :| 0 <= i < |table| && table[i].turn == turn;
          assert rest[i].turn == turn;
        }
      }
      SizeOf(rest, turns - {last.turn});
    }
  }

  lemma ListsLeg(table: seq<Kept>, moments: map<string, nat>, i: nat, legs: seq<Leg>)
    requires Lists(table, moments) && i < |table|
    ensures Lists(table[i := Kept(table[i].turn, legs)], moments)
  {
    var more := table[i := Kept(table[i].turn, legs)];
    assert forall j :: 0 <= j < |table| ==> more[j].turn == table[j].turn;
    forall turn ensures Holds(more, turn) <==> Holds(table, turn) {
      if Holds(table, turn) {
        var j :| 0 <= j < |table| && table[j].turn == turn;
        assert more[j].turn == turn;
      }
    }
  }

  lemma ListsOpen(table: seq<Kept>, moments: map<string, nat>, k: Kept, at: nat)
    requires Lists(table, moments) && !Holds(table, k.turn) && forall turn :: turn in moments ==> moments[turn] < at
    ensures Lists(table + [k], moments[k.turn := at])
  {
    var more := table + [k];
    forall turn ensures Holds(more, turn) <==> turn == k.turn || Holds(table, turn) {
      assert more[|table|] == k;
      if Holds(table, turn) {
        var j :| 0 <= j < |table| && table[j].turn == turn;
        assert more[j].turn == turn;
      }
    }
  }

  lemma ListsFirst(table: seq<Kept>, moments: map<string, nat>)
    requires Lists(table, moments) && table != []
    ensures Lists(table[1..], map x | x in moments && !Earliest(moments, x) :: moments[x])
  {
    var rest := table[1..];
    assert forall i :: 1 <= i < |table| ==> rest[i - 1] == table[i];
    forall turn ensures turn in moments && !Earliest(moments, turn) <==> Holds(rest, turn) {
      if turn in moments {
        var i :| 0 <= i < |table| && table[i].turn == turn;
        if i > 0 {
          assert rest[i - 1].turn == turn;
          assert moments[table[0].turn] < moments[turn];
        }
      }
    }
  }

  lemma TakenHolds(table: seq<Kept>, i: nat, turn: string)
    requires Distinct(table) && i < |table|
    ensures Holds(Remove(table, i), turn) <==> Holds(table, turn) && turn != table[i].turn
  {
    var rest := Remove(table, i);
    assert forall j :: 0 <= j < |rest| ==> rest[j] == table[if j < i then j else j + 1];
    if Holds(table, turn) && turn != table[i].turn {
      var j :| 0 <= j < |table| && table[j].turn == turn;
      assert rest[if j < i then j else j - 1].turn == turn;
    }
  }

  lemma ListsTaken(table: seq<Kept>, moments: map<string, nat>, i: nat)
    requires Lists(table, moments) && Distinct(table) && i < |table|
    ensures Lists(Remove(table, i), moments - {table[i].turn})
  {
    hide Holds;
    var rest, fewer := Remove(table, i), moments - {table[i].turn};
    forall turn ensures turn in fewer <==> Holds(rest, turn) {
      TakenHolds(table, i, turn);
    }
    assert forall j :: 0 <= j < |rest| ==> rest[j] == table[if j < i then j else j + 1];
    hide Remove;
    forall j | 0 <= j < |rest| ensures rest[j].turn in fewer && fewer[rest[j].turn] == moments[rest[j].turn] {
    }
  }

  lemma FindHolds(table: seq<Kept>, turn: string)
    ensures Find(table, turn) < |table| <==> Holds(table, turn)
  {
  }

  /**
   The kept turns are those opened last: the table holds exactly the turns of `Opened`, in the
   order of their openings, and a seventeenth pushes out the one opened first.
   */
  lemma {:induction false} OpenedInOrder(events: seq<Event>)
    ensures Lists(Run(events), Opened(events))
    ensures forall turn :: turn in Opened(events) ==> Opened(events)[turn] < |events|
  {
    hide LegOf, Find, Lists, Holds, Distinct;
    if events == [] {
      ListsNothing();
    } else {
      var rest, e := events[..|events| - 1], events[|events| - 1];
      var table, moments := Run(rest), Opened(rest);
      OpenedInOrder(rest);
      RunKeeps(rest);
      FindHolds(table, e.turn);
      ListsMeaning(table, moments, e.turn);
      var i := Find(table, e.turn);
      match e {
        case TurnTaken(turn) =>
          if i < |table| {
            ListsTaken(table, moments, i);
          } else {
            assert moments - {turn} == moments;
          }
        case LegArrives(turn, params) =>
          if turn != "" && i < |table| {
            ListsLeg(table, moments, i, table[i].legs + [LegOf(params)]);
          } else if turn != "" {
            OpensOne(table, moments, Kept(turn, [LegOf(params)]), |rest|);
          }
      }
    }
  }

  lemma ListsNothing()
    ensures Lists([], map[])
  {
  }

  lemma ListsMeaning(table: seq<Kept>, moments: map<string, nat>, turn: string)
    requires Lists(table, moments)
    ensures turn in moments <==> Holds(table, turn)
  {
  }

  lemma OpensOne(table: seq<Kept>, moments: map<string, nat>, k: Kept, at: nat)
    requires Lists(table, moments) && Distinct(table) && !Holds(table, k.turn)
    requires forall turn :: turn in moments ==> moments[turn] < at
    ensures var more := moments[k.turn := at];
      && |more| == |table| + 1
      && Lists(table + [k], more)
      && Lists((table + [k])[1..], map x | x in more && !Earliest(more, x) :: more[x])
  {
    hide Earliest;
    var more := moments[k.turn := at];
    ListsOpen(table, moments, k, at);
    ListsFirst(table + [k], more);
    SizeOf(table + [k], more.Keys);
  }

  /** An event opens a turn, or leaves the moment at which it was opened. */
  lemma OpenedStep(events: seq<Event>, turn: string)
    requires events != [] && turn in Opened(events)
    ensures var rest, e := events[..|events| - 1], events[|events| - 1];
      Opened(events)[turn] == if turn in Opened(rest) then Opened(rest)[turn] else |rest|
  {
    hide Earliest;
  }

  /** A kept turn was opened by a leg while it was not kept, was not taken since, and its entry
      holds all its legs from that one on. */
  lemma {:induction false} OpenedMeaning(events: seq<Event>, k: Kept)
    requires k in Run(events)
    ensures k.turn in Opened(events)
    ensures var at := Opened(events)[k.turn];
      && at < |events| && events[at].LegArrives? && events[at].turn == k.turn
      && !Holds(Run(events[..at]), k.turn) && TurnTaken(k.turn) !in events[at..]
      && k.legs == LegsFor(events[at..], k.turn)
  {
    hide Apply, LegOf, LegsFor, Holds, Lists, Opened, Distinct;
    var rest, e := events[..|events| - 1], events[|events| - 1];
    var table := Run(rest);
    RunKeeps(rest);
    NamedTurns(events, k);
    Origin(table, e, k);
    OpenedInOrder(rest);
    OpenedInOrder(events);
    ListsMeaning(table, Opened(rest), k.turn);
    Present(Run(events), k);
    ListsMeaning(Run(events), Opened(events), k.turn);
    OpenedStep(events, k.turn);
    if Holds(table, k.turn) {
      var legs :| Kept(k.turn, legs) in table &&
        k.legs == legs + if e.LegArrives? && e.turn == k.turn then [LegOf(e.params)] else [];
      OpenedMeaning(rest, Kept(k.turn, legs));
      Later(events, Opened(rest)[k.turn], k.turn);
    } else {
      FromTable(table, k);
      assert events[|rest|..] == [e];
      LegsForOne(e, k.turn);
    }
  }

  lemma FromTable(table: seq<Kept>, k: Kept)
    requires !Holds(table, k.turn)
    ensures k !in table
  {
  }

  /** One event more for the legs and the takings since `at`. */
  lemma Later(events: seq<Event>, at: nat, turn: string)
    requires at < |events| - 1
    ensures var rest, e := events[..|events| - 1], events[|events| - 1];
      && events[..at] == rest[..at] && events[at] == rest[at] && events[at..] == rest[at..] + [e]
      && LegsFor(events[at..], turn) ==
         LegsFor(rest[at..], turn) + if e.LegArrives? && e.turn == turn then [LegOf(e.params)] else []
  {
    hide LegsFor, LegOf;
    var rest, e := events[..|events| - 1], events[|events| - 1];
    assert events[at..] == rest[at..] + [e];
    LegsForAppend(rest[at..], e, turn);
  }

  lemma Present(table: seq<Kept>, k: Kept)
    requires k in table
    ensures Holds(table, k.turn)
  {
  }

  /** A seventeenth turn pushes out exactly the one opened first. */
  lemma PushedOut(events: seq<Event>, turn: string, params: Params)
    requires |Run(events)| == 16 && turn != "" && !Holds(Run(events), turn)
    ensures var before, after := Run(events), Run(events + [LegArrives(turn, params)]);
      && |after| == 16 && Holds(after, turn)
      && (forall k :: k in before ==> (k in after <==> !Earliest(Opened(events), k.turn)))
  {
    hide LegOf;
    var table, k := Run(events), Kept(turn, [LegOf(params)]);
    assert (events + [LegArrives(turn, params)])[..|events|] == events;
    var after := (table + [k])[1..];
    FindHolds(table, turn);
    assert Run(events + [LegArrives(turn, params)]) == after;
    assert after[15] == k;
    OpenedInOrder(events);
    RunKeeps(events);
    forall x | x in table ensures x in after <==> !Earliest(Opened(events), x.turn) {
      var i :| 0 <= i < |table| && table[i] == x;
      FirstIsEarliest(table, Opened(events), i);
      assert i > 0 ==> after[i - 1] == x;
    }
  }

  lemma FirstIsEarliest(table: seq<Kept>, moments: map<string, nat>, i: nat)
    requires Lists(table, moments) && i < |table|
    ensures Earliest(moments, table[i].turn) <==> i == 0
  {
    if i > 0 {
      assert moments[table[0].turn] < moments[table[i].turn];
    } else {
      forall other | other in moments ensures moments[table[0].turn] <= moments[other] {
        var j :| 0 <= j < |table| && table[j].turn == other;
        assert j > 0 ==> moments[table[0].turn] < moments[table[j].turn];
      }
    }
  }
}
