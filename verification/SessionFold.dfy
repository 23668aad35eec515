/**
 The fold as the program runs it: one object whose methods update its tables in place and
 push notes. Every method is proved equal to the function of the same purpose in `Fold`,
 so what `FoldTheorems` states about runs holds of this object.
 */
module SessionFolds {
  import opened Options
  import opened FoldTypes
  import opened Fold
  import opened Text
  import FoldTasks

  /** The notes of a log, in order. */
  function Notes(log: seq<Mark>): seq<Note> {
    if log == [] then []
    else
      var rest := Notes(log[..|log| - 1]);
      if log[|log| - 1].Sent? then rest + [log[|log| - 1].note] else rest
  }

  lemma NotesAppend(log: seq<Mark>, m: Mark)
    ensures Notes(log + [m]) == if m.Sent? then Notes(log) + [m.note] else Notes(log)
  {
    assert (log + [m])[..|log|] == log;
  }

  lemma EmitTwice(s: State, a: seq<Mark>, b: seq<Mark>)
    ensures Emit(Emit(s, a), b) == Emit(s, a + b)
  {
    assert s.log + a + b == s.log + (a + b);
  }

  lemma EmitThrice(s: State, a: seq<Mark>, b: seq<Mark>, c: seq<Mark>)
    ensures Emit(Emit(Emit(s, a), b), c) == Emit(s, a + b + c)
  {
    assert s.log + a + b + c == s.log + (a + b + c);
  }

  ghost function OnShells(s: State, out: (Shells, seq<Mark>)): State {
    Emit(s.(shells := out.0), out.1)
  }

  lemma EmitNothing(s: State)
    ensures Emit(s, []) == s
  {
    assert s.log + [] == s.log;
  }

  lemma NotedOpens(h: Shells, id: Id)
    requires id in h.commands
    ensures id in OpenTerminal(h, id).0.open
  {
  }

  lemma HostRoleSame(s: State, tasks: Tasks, log: seq<Mark>, id: Id, prefix: string)
    ensures HostRole(s.(tasks := tasks, log := log), id, prefix) == HostRole(s, id, prefix)
  {
  }

  lemma HostTaskSame(s: State, r: State, item: Item, tc: Id)
    requires s.cfg == r.cfg && s.tasks == r.tasks
    ensures HostTask(s, item, tc) == HostTask(r, item, tc)
  {
  }

  lemma CompleteShellSame(s: State, r: State, item: Item, tc: Id)
    requires s.cfg == r.cfg && s.shells == r.shells && s.replaying == r.replaying
    ensures CompleteShell(s, item, tc) == CompleteShell(r, item, tc)
  {
  }

  /** The terminal, the card and the reference of a settled item. */
  ghost function CardSettled(s: State, item: Item, tc: Id, announced: bool, titled: bool, refer: bool): State {
    var (shells, marks, inTerminal) := CompleteShell(s, item, tc);
    var card := if titled then [Sent(Card(tc, !announced, item, true, inTerminal))] else [];
    var ref := if refer && inTerminal then [Sent(TerminalReference(tc, item.id))] else [];
    Emit(s.(shells := shells), marks + card + ref)
  }

  lemma HostCardInSteps(s: State, item: Item)
    ensures
      var role := HostRole(s, item.id, HostPrefix(item.kind));
      var s1 := s.(items := s.items[item.id := role]);
      var s2 := CardSettled(s1, item, role.tc, role.announced, item.title != "", true);
      var s3 := OnTasks(s2, if s2.replaying then (s2.tasks, []) else HostTask(s2, item, role.tc));
      CompleteHostCard(s, item) == s3.(items := s3.items - {item.id})
  {
    hide HostRole, HostPrefix, CompleteShell, HostTask;
    var role := HostRole(s, item.id, HostPrefix(item.kind));
    var s1 := s.(items := s.items[item.id := role]);
    var s2 := CardSettled(s1, item, role.tc, role.announced, item.title != "", true);
    CompleteShellSame(s1, s, item, role.tc);
    HostTaskSame(s2, s, item, role.tc);
    assert s1.items - {item.id} == s.items - {item.id};
    var feed := if s.replaying then [] else HostTask(s, item, role.tc).1;
    EmitTwice(s1.(shells := s2.shells), s2.log[|s.log|..], feed);
  }

  lemma OtherInSteps(s: State, item: Item)
    ensures
      var s1 := OnTasks(s, SettleBackground(s.cfg, s.tasks, s.items, item));
      var role := HostRole(s1, item.id, "item-");
      var shown := item.title != "" || (item.id in s1.items && s1.items[item.id].Tool?);
      var s2 := s1.(items := s1.items[item.id := role]);
      var s3 := Emit(s2, if shown then [Sent(Card(role.tc, !role.announced, item, true, false))] else []);
      CompleteOther(s, item) == s3.(items := s3.items - {item.id})
  {
    hide SettleBackground;
    var (tasks, feed) := SettleBackground(s.cfg, s.tasks, s.items, item);
    var s1 := OnTasks(s, (tasks, feed));
    var role := HostRole(s, item.id, "item-");
    var shown := item.title != "" || (item.id in s.items && s.items[item.id].Tool?);
    assert s1.items[item.id := role] - {item.id} == s.items - {item.id};
    var card := if shown then [Sent(Card(role.tc, !role.announced, item, true, false))] else [];
    EmitTwice(s.(tasks := tasks), feed, card);
  }

  lemma ToolCallInSteps(s: State, item: Item)
    ensures
      var role := ToolRole(s, item);
      var s1 := s.(items := s.items[item.id := role], next := ToolNext(s, item));
      var s2 := CardSettled(s1, item, role.tc, role.announced, true, false);
      var live := s2.cfg.airTasks && !s2.replaying;
      var s3 := OnTasks(s2, if live then BackgroundTask(s2.tasks, item, role.tc) else (s2.tasks, []));
      CompleteToolCall(s, item) == s3.(items := s3.items - {item.id})
  {
    hide ToolRole, ToolNext, CompleteShell, BackgroundTask;
    var role := ToolRole(s, item);
    var s1 := s.(items := s.items[item.id := role], next := ToolNext(s, item));
    var s2 := CardSettled(s1, item, role.tc, role.announced, true, false);
    CompleteShellSame(s1, s, item, role.tc);
    assert s1.items - {item.id} == s.items - {item.id};
    var feed := if s.cfg.airTasks && !s.replaying then BackgroundTask(s.tasks, item, role.tc).1 else [];
    EmitTwice(s1.(shells := s2.shells), s2.log[|s.log|..], feed);
  }

  // ---------- the loops over held rows ----------

  lemma SelectStep(rows: seq<Held>, i: nat, anchors: set<Id>, inside: bool)
    requires i < |rows|
    ensures var done := Select(rows[..i], anchors, inside);
      Select(rows[..i + 1], anchors, inside) == if (rows[i].anchor in anchors) == inside then done + [rows[i]] else done
  {
    assert rows[..i + 1][..i] == rows[..i];
  }

  lemma CompleteAllStep(s: State, rows: seq<Held>, h: Held)
    ensures CompleteAll(s, rows + [h]) == Complete(CompleteAll(s, rows), h.item)
  {
    hide Complete;
    assert (rows + [h])[..|rows|] == rows;
  }

  lemma NothingSelected(s: State, rows: seq<Held>, anchors: set<Id>)
    ensures Select(rows[..0], anchors, true) == [] && Select(rows[..0], anchors, false) == []
    ensures CompleteAll(s, rows[..0]) == s && CompleteAll(s, []) == s
  {
  }

  // ---------- settling leaves the held rows alone ----------

  lemma CompleteKeepsAwaiting(s: State, item: Item, rows: seq<Held>)
    ensures Complete(s.(awaiting := rows), item) == Complete(s, item).(awaiting := rows)
  {
    hide ObserveWorkflow, CompleteKind, MarkCutOff;
    var s1 := Observed(s, item);
    if item.id in s.done {
      MarkKeepsAwaiting(s1, item, rows);
    } else {
      KindKeepsAwaiting(Settling(s1, item), item, rows);
    }
  }

  lemma MarkKeepsAwaiting(s: State, item: Item, rows: seq<Held>)
    ensures MarkCutOff(s.(awaiting := rows), item) == MarkCutOff(s, item).(awaiting := rows)
  {
  }

  lemma KindKeepsAwaiting(s: State, item: Item, rows: seq<Held>)
    ensures CompleteKind(s.(awaiting := rows), item) == CompleteKind(s, item).(awaiting := rows)
  {
    hide CompleteToolCall, CompleteHostCard, CompleteOther, CompleteMessage, NativeSubagent, MonitorUpdate,
      CompleteReasoning;
    match item.kind
    case ToolCall => CardsKeepAwaiting(s, item, rows);
    case AgentMessage => TextKeepsAwaiting(s, item, rows);
    case Reasoning => TextKeepsAwaiting(s, item, rows);
    case Compaction =>
    case Subagent => CardsKeepAwaiting(s, item, rows);
    case Workflow => CardsKeepAwaiting(s, item, rows);
    case UserShell => CardsKeepAwaiting(s, item, rows);
    case HookRun => CardsKeepAwaiting(s, item, rows);
    case MonitorFeed => MonitorKeepsAwaiting(s, item, rows);
    case ReminderChild =>
    case _ => OtherKeepsAwaiting(s, item, rows);
  }

  lemma CardsKeepAwaiting(s: State, item: Item, rows: seq<Held>)
    ensures CompleteToolCall(s.(awaiting := rows), item) == CompleteToolCall(s, item).(awaiting := rows)
    ensures CompleteHostCard(s.(awaiting := rows), item) == CompleteHostCard(s, item).(awaiting := rows)
  {
    hide NoteShell, FinishTerminal, BackgroundTask, ShellTask, WorkflowTask, HostPrefix;
  }

  lemma OtherKeepsAwaiting(s: State, item: Item, rows: seq<Held>)
    ensures CompleteOther(s.(awaiting := rows), item) == CompleteOther(s, item).(awaiting := rows)
  {
    hide SettleBackground;
  }

  lemma MonitorKeepsAwaiting(s: State, item: Item, rows: seq<Held>)
    ensures MonitorUpdate(s.(awaiting := rows), item, true) == MonitorUpdate(s, item, true).(awaiting := rows)
  {
    hide MonitorCardId;
  }

  lemma TextKeepsAwaiting(s: State, item: Item, rows: seq<Held>)
    ensures CompleteMessage(s.(awaiting := rows), item) == CompleteMessage(s, item).(awaiting := rows)
    ensures CompleteReasoning(s.(awaiting := rows), item) == CompleteReasoning(s, item).(awaiting := rows)
  {
    hide MessagePhase;
  }

  lemma {:induction false} CompleteAllKeepsAwaiting(s: State, held: seq<Held>, rows: seq<Held>)
    ensures CompleteAll(s.(awaiting := rows), held) == CompleteAll(s, held).(awaiting := rows)
  {
    hide Complete;
    if held != [] {
      var rest := held[..|held| - 1];
      CompleteAllKeepsAwaiting(s, rest, rows);
      CompleteKeepsAwaiting(CompleteAll(s, rest), held[|held| - 1].item, rows);
    }
  }

  // ---------- the ids a batch still carries ----------

  function CountId(batch: seq<Wire>, id: Id): nat {
    if batch == [] then 0
    else (if batch[0].Named? && batch[0].item.id == id then 1 else 0) + CountId(batch[1..], id)
  }

  ghost predicate Counts(upcoming: map<Id, nat>, batch: seq<Wire>) {
    forall id :: if id in upcoming then upcoming[id] == CountId(batch, id) > 0 else CountId(batch, id) == 0
  }

  lemma {:induction false} CountIdAppend(batch: seq<Wire>, w: Wire, id: Id)
    ensures CountId(batch + [w], id) == CountId(batch, id) + if w.Named? && w.item.id == id then 1 else 0
  {
    if batch == [] {
      assert batch + [w] == [w] && [w][1..] == [];
    } else {
      assert (batch + [w])[1..] == batch[1..] + [w];
      CountIdAppend(batch[1..], w, id);
    }
  }

  lemma {:induction false} CountIdMeaning(batch: seq<Wire>, id: Id)
    ensures CountId(batch, id) > 0 <==> id in Ids(batch)
  {
    if batch != [] {
      CountIdMeaning(batch[1..], id);
      assert batch == [batch[0]] + batch[1..];
    }
  }

  lemma CountsPush(upcoming: map<Id, nat>, batch: seq<Wire>, w: Wire)
    requires Counts(upcoming, batch)
    ensures w.Named? ==>
      Counts(upcoming[w.item.id := (if w.item.id in upcoming then upcoming[w.item.id] else 0) + 1], batch + [w])
    ensures !w.Named? ==> Counts(upcoming, batch + [w])
  {
    forall id ensures CountId(batch + [w], id) == CountId(batch, id) + if w.Named? && w.item.id == id then 1 else 0 {
      CountIdAppend(batch, w, id);
    }
  }

  /** The counted ids are the ids still to come; consuming the first item keeps the count. */
  lemma CountsPop(upcoming: map<Id, nat>, batch: seq<Wire>)
    requires Counts(upcoming, batch) && batch != []
    ensures upcoming.Keys == Ids(batch)
    ensures batch[0].Named? ==>
      var id := batch[0].item.id;
      id in upcoming && upcoming[id] > 0
      && Counts(if upcoming[id] == 1 then upcoming - {id} else upcoming[id := upcoming[id] - 1], batch[1..])
    ensures !batch[0].Named? ==> Counts(upcoming, batch[1..])
  {
    forall id ensures id in upcoming <==> id in Ids(batch) {
      CountIdMeaning(batch, id);
    }
    var w, rest := batch[0], batch[1..];
    assert forall id :: CountId(batch, id) == CountId(rest, id) + if w.Named? && w.item.id == id then 1 else 0;
  }

  method CountUpcoming(batch: seq<Wire>) returns (upcoming: map<Id, nat>)
    ensures Counts(upcoming, batch)
  {
    upcoming := map[];
    for i := 0 to |batch|
      invariant Counts(upcoming, batch[..i])
    {
      CountsPush(upcoming, batch[..i], batch[i]);
      assert batch[..i + 1] == batch[..i] + [batch[i]];
      if batch[i].Named? {
        var id := batch[i].item.id;
        upcoming := upcoming[id := (if id in upcoming then upcoming[id] else 0) + 1];
      }
    }
    assert batch[..|batch|] == batch;
  }

  lemma OneMoreHostId(hostIds: map<Id, Id>, task: Id, item: Id)
    requires FoldTasks.OneToOne(hostIds) && item !in hostIds.Values
    ensures FoldTasks.OneToOne(hostIds[task := item])
  {
    assert forall a :: a in hostIds ==> hostIds[a] in hostIds.Values;
  }

  class SessionFold {
    const cfg: Config
    var items: map<Id, Role>
    var done: set<Id>
    var awaiting: seq<Held>
    var kids: Children
    var tasks: Tasks
    var flows: Flows
    var shells: Shells
    var streamedOutput: map<Id, nat>
    var monitorCards: set<Id>
    var cutOff: set<Id>
    var lastMessage: Option<(Id, nat)>
    var next: nat
    var replaying: bool
    var out: seq<Note>
    ghost var log: seq<Mark>

    ghost function View(): State
      reads this
    {
      State(cfg, items, done, awaiting, kids, tasks, flows, shells, streamedOutput, monitorCards,
            cutOff, lastMessage, next, replaying, log)
    }

    ghost predicate Valid()
      reads this
    {
      out == Notes(log) && FoldTasks.OneToOne(tasks.hostIds)
    }

    constructor (cfg: Config)
      ensures Valid() && View() == Fresh(cfg)
    {
      this.cfg := cfg;
      items, done, awaiting := map[], {}, [];
      kids := Children({}, map[], map[], {}, {}, map[]);
      tasks := Tasks({}, map[], map[], {}, {});
      flows := Flows(map[], {});
      shells := Shells(map[], map[]);
      streamedOutput, monitorCards, cutOff := map[], {}, {};
      lastMessage, next, replaying := None, 1, false;
      out, log := [], [];
    }

    method Push(note: Note)
      requires Valid()
      modifies this`out, this`log
      ensures Valid() && View() == Emit(old(View()), [Sent(note)])
    {
      NotesAppend(log, Sent(note));
      out := out + [note];
      log := log + [Sent(note)];
    }

    method PushIf(wanted: bool, note: Note)
      requires Valid()
      modifies this`out, this`log
      ensures Valid() && View() == Emit(old(View()), if wanted then [Sent(note)] else [])
    {
      EmitNothing(View());
      if wanted {
        Push(note);
      }
    }

    ghost method Record(m: Mark)
      requires Valid() && !m.Sent?
      modifies this`log
      ensures Valid() && View() == Emit(old(View()), [m])
    {
      NotesAppend(log, m);
      log := log + [m];
    }

    // ---------- asynchronous tasks ----------

    method AsyncTaskIdFor(item: Id, fallback: Id) returns (task: Id)
      requires Valid()
      ensures task == TaskIdFor(tasks.hostIds, item, fallback)
    {
      FoldTasks.TaskIdForUnique(tasks.hostIds, item, fallback);
      if air :| air in tasks.hostIds && tasks.hostIds[air] == item {
        return air;
      }
      return fallback;
    }

    method AnnounceAsyncTask(item: Id, task: Id, toolCall: Option<Id>)
      requires Valid()
      requires task in tasks.hostIds || item !in tasks.hostIds.Values
      modifies this`tasks, this`out, this`log
      ensures Valid() && View() == OnTasks(old(View()), AnnounceTask(old(tasks), item, task, toolCall))
    {
      hide Notes, FoldTasks.OneToOne;
      if task !in tasks.hostIds {
        OneMoreHostId(tasks.hostIds, task, item);
        tasks := tasks.(hostIds := tasks.hostIds[task := item]);
      }
      if task !in tasks.announced {
        tasks := tasks.(announced := tasks.announced + {task});
        Push(TaskSpawned(task, toolCall));
      } else {
        EmitNothing(View());
      }
    }

    method AsyncTaskState(task: Id, outcome: TaskOutcome)
      requires Valid()
      modifies this`tasks, this`out, this`log
      ensures Valid() && View() == OnTasks(old(View()), StateOnce(old(tasks), task, outcome))
    {
      if task in tasks.states && tasks.states[task] == outcome {
        EmitNothing(View());
      } else {
        tasks := tasks.(states := tasks.states[task := outcome]);
        Push(TaskState(task, outcome));
      }
    }

    method EmitAsyncTaskState(task: Id, status: Status)
      requires Valid()
      modifies this`tasks, this`out, this`log
      ensures Valid() && View() == OnTasks(old(View()), EmitTaskState(old(tasks), task, status))
    {
      var outcome := TaskStateOf(status);
      if outcome.None? {
        EmitNothing(View());
      } else {
        tasks := tasks.(hostIds := tasks.hostIds - {task});
        AsyncTaskState(task, outcome.value);
      }
    }

    method AnnounceShellTask(item: Item, tc: Id)
      requires Valid()
      modifies this`tasks, this`out, this`log
      ensures Valid() && View() == OnTasks(old(View()), ShellTask(old(tasks), item, tc))
    {
      ghost var before := View();
      var task := AsyncTaskIdFor(item.id, tc);
      FoldTasks.TaskIdForUnique(tasks.hostIds, item.id, tc);
      AnnounceAsyncTask(item.id, task, Some(tc));
      ghost var spawn := AnnounceTask(before.tasks, item.id, task, Some(tc)).1;
      ghost var between := tasks;
      EmitAsyncTaskState(task, item.status);
      EmitTwice(before.(tasks := tasks), spawn, EmitTaskState(between, task, item.status).1);
    }

    method AnnounceBackgroundTask(item: Item, tc: Id)
      requires Valid()
      modifies this`tasks, this`out, this`log
      ensures Valid() && View() == OnTasks(old(View()), BackgroundTask(old(tasks), item, tc))
    {
      ghost var before := View();
      if !(item.background || tc in tasks.announced || tc in tasks.backgrounded) {
        EmitNothing(View());
      } else if tc in tasks.backgrounded {
        AnnounceShellTask(item, tc);
      } else {
        tasks := tasks.(backgrounded := tasks.backgrounded + {tc});
        ghost var between := tasks;
        Push(Backgrounded(tc));
        AnnounceShellTask(item, tc);
        EmitTwice(before.(tasks := tasks), [Sent(Backgrounded(tc))], ShellTask(between, item, tc).1);
      }
    }

    method AsyncTaskStateOnce(task: Id, outcome: TaskOutcome)
      requires Valid()
      modifies this`tasks, this`out, this`log
      ensures Valid() && View() == OnTasks(old(View()), WorkflowTaskState(old(tasks), task, outcome))
    {
      tasks := tasks.(workflows := tasks.workflows - {task});
      AsyncTaskState(task, outcome);
    }

    method AnnounceWorkflowTask(item: Item, tc: Id)
      requires Valid()
      modifies this`tasks, this`out, this`log
      ensures Valid() && View() == OnTasks(old(View()), WorkflowTask(old(tasks), item, tc))
    {
      hide Notes, FoldTasks.OneToOne;
      ghost var before := View();
      EmitNothing(View());
      if item.runId == "" {
        return;
      }
      tasks := tasks.(workflows := tasks.workflows + {item.runId});
      ghost var (_, spawn) := SpawnTask(tasks, item.runId, Some(tc));
      EmitNothing(View());
      if item.runId !in tasks.announced {
        tasks := tasks.(announced := tasks.announced + {item.runId});
        Push(TaskSpawned(item.runId, Some(tc)));
      }
      ghost var between := tasks;
      assert View() == Emit(before.(tasks := between), spawn);
      var outcome := TaskStateOf(item.status);
      if outcome.Some? {
        AsyncTaskStateOnce(item.runId, outcome.value);
        EmitTwice(before.(tasks := tasks), spawn, WorkflowTaskState(between, item.runId, outcome.value).1);
      }
    }

    method SettleBackgroundCompletion(item: Item)
      requires Valid()
      modifies this`tasks, this`out, this`log
      ensures Valid() && View() == OnTasks(old(View()), SettleBackground(cfg, old(tasks), items, item))
    {
      EmitNothing(View());
      if item.kind != BackgroundCompletion || !cfg.airTasks || item.taskCall == "" {
        return;
      }
      var task := item.taskCall;
      if task !in tasks.announced {
        if !(item.holder in items && items[item.holder].Tool? && items[item.holder].tc == item.taskCall) {
          return;
        }
        task := AsyncTaskIdFor(item.holder, item.taskCall);
        if task !in tasks.announced {
          return;
        }
      }
      if task in tasks.states {
        return;
      }
      var outcome := TaskStateOf(item.taskStatus);
      if outcome.Some? {
        AsyncTaskStateOnce(task, outcome.value);
      }
    }

    method SeedAsyncTask(task: Id, foreground: bool)
      requires Valid()
      modifies this`tasks, this`out, this`log
      ensures Valid()
      ensures View() ==
        if cfg.airTasks then OnTasks(old(View()), SeedTask(old(tasks), task, foreground)) else old(View())
    {
      EmitNothing(View());
      if !cfg.airTasks || foreground || task == "" {
        return;
      }
      if task in tasks.announced || task in tasks.states || task in tasks.hostIds.Values {
        return;
      }
      OneMoreHostId(tasks.hostIds, task, task);
      tasks := tasks.(hostIds := tasks.hostIds[task := task], announced := tasks.announced + {task});
      Push(TaskSpawned(task, None));
    }

    /** `order` lists the announced tasks as the program's task set yields them. */
    method DisconnectTasks(order: seq<Id>)
      requires Valid()
      modifies this`tasks, this`out, this`log
      ensures Valid() && View() == OnTasks(old(View()), Disconnect(old(tasks), order))
    {
      ghost var before := View();
      EmitNothing(View());
      for i := 0 to |order|
        invariant Valid()
        invariant View() == OnTasks(before, Disconnect(before.tasks, order[..i]))
      {
        var task := order[i];
        assert order[..i + 1][..i] == order[..i];
        ghost var marks := Disconnect(before.tasks, order[..i]).1;
        ghost var between := tasks;
        if task in tasks.announced && task !in tasks.states {
          AsyncTaskState(task, TaskFailed);
          EmitTwice(before.(tasks := tasks), marks, StateOnce(between, task, TaskFailed).1);
        }
      }
      assert order[..|order|] == order;
    }

    // ---------- child sessions ----------

    /** A settled AIR child runs again: the state held for the ended generation leaves first. */
    method StartGeneration(child: ChildId)
      requires Valid()
      modifies this`kids, this`out, this`log
      ensures Valid() && View() == OnKids(old(View()), NewGeneration(old(kids), child))
    {
      hide SessionName, Notes, FoldTasks.OneToOne;
      ghost var before := View();
      var session := ChildSessionId(kids, child);
      kids := kids.(states := kids.states - {child});
      var held := if session in kids.held then Some(kids.held[session]) else None;
      kids := kids.(held := kids.held - {session});
      if held.Some? {
        Push(ChildState(session, held.value));
      }
      kids := kids.(generations := kids.generations[child := Generation(kids, child) + 1],
                    toRead := kids.toRead + {child});
      assert kids == NewGeneration(before.kids, child).0;
      Push(ChildSpawned(ChildSessionId(kids, child)));
      if held.Some? {
        EmitTwice(before.(kids := kids), [Sent(ChildState(session, held.value))],
                  [Sent(ChildSpawned(ChildSessionId(kids, child)))]);
      }
    }

    method SettleSubagent(child: ChildId, item: Item)
      requires Valid()
      modifies this`kids, this`out, this`log
      ensures Valid() && View() == OnKids(old(View()), SettleChild(cfg.air, old(kids), child, item))
    {
      hide NewGeneration;
      EmitNothing(View());
      var state := ChildStateOf(item);
      if state.None? {
        if item.control == ControlRunning && child in kids.states {
          if cfg.air {
            StartGeneration(child);
          } else {
            kids := kids.(states := kids.states - {child});
            Push(ChildState(child, ChildRunning));
          }
        }
        return;
      }
      if child in kids.states && (cfg.air || kids.states[child] == state.value) {
        return;
      }
      kids := kids.(states := kids.states[child := state.value]);
      var session := ChildSessionId(kids, child);
      if cfg.air && session in kids.inFlight {
        kids := kids.(held := kids.held[session := state.value]);
        EmitNothing(View());
      } else {
        Push(ChildState(session, state.value));
      }
    }

    method SubagentItem(item: Item)
      requires Valid()
      modifies this`kids, this`out, this`log
      ensures Valid() && View() == ChildItem(old(View()), item)
    {
      ghost var before := View();
      if item.child == "" {
        EmitNothing(View());
      } else if item.child in kids.spawned {
        SettleSubagent(item.child, item);
      } else {
        kids := kids.(spawned := kids.spawned + {item.child});
        ghost var between := kids;
        Push(ChildSpawned(item.child));
        SettleSubagent(item.child, item);
        EmitTwice(before.(kids := kids), [Sent(ChildSpawned(item.child))],
                  SettleChild(cfg.air, between, item.child, item).1);
      }
    }

    method TakeChildRead(child: ChildId) returns (needed: bool)
      requires Valid()
      modifies this`kids
      ensures Valid() && View() == old(View()).(kids := old(kids).(toRead := old(kids).toRead - {child}))
      ensures needed == (child in old(kids).toRead)
    {
      needed := child in kids.toRead;
      kids := kids.(toRead := kids.toRead - {child});
    }

    method BeginChildRead(child: ChildId)
      requires Valid()
      modifies this`kids
      ensures Valid() && View() == old(View()).(kids := kids)
      ensures kids == old(kids).(inFlight := old(kids).inFlight + {ChildSessionId(old(kids), child)})
    {
      kids := kids.(inFlight := kids.inFlight + {ChildSessionId(kids, child)});
    }

    /** The transcript goes out when it still may, and then the state held for it. */
    method EndRead(child: ChildId, generation: nat)
      requires Valid()
      modifies this`kids, this`out, this`log
      ensures Valid()
      ensures View() == OnKids(old(View()), EndChildRead(cfg.air, old(kids), child, SessionName(child, generation)))
    {
      ghost var before := View();
      var session := SessionName(child, generation);
      kids := kids.(inFlight := kids.inFlight - {session});
      var held := if session in kids.held then Some(kids.held[session]) else None;
      kids := kids.(held := kids.held - {session});
      EmitNothing(View());
      var ended := cfg.air && held.None?
        && (ChildSessionId(kids, child) != session || ChildFinished(cfg.air, kids, child));
      if !ended {
        Push(ChildTranscript(session));
      }
      if held.Some? {
        Push(ChildState(session, held.value));
        EmitTwice(before.(kids := kids), [Sent(ChildTranscript(session))], [Sent(ChildState(session, held.value))]);
      }
    }

    // ---------- terminals ----------

    method NoteShellCommand(item: Item, tc: Id)
      requires Valid()
      modifies this`shells
      ensures Valid() && View() == old(View()).(shells := NoteShell(cfg, old(shells), item, tc))
    {
      if !cfg.v2 || item.id in shells.commands {
        return;
      }
      if item.command.Some? {
        shells := shells.(commands := shells.commands[item.id := tc]);
      }
    }

    method OpenShellTerminal(id: Id) returns (ready: bool)
      requires Valid()
      modifies this`shells, this`out, this`log
      ensures Valid() && View() == OnShells(old(View()), OpenTerminal(old(shells), id))
      ensures ready == (id in shells.open)
    {
      hide Notes, FoldTasks.OneToOne;
      EmitNothing(View());
      if id in shells.open {
        return true;
      }
      if id !in shells.commands {
        return false;
      }
      var tc := shells.commands[id];
      shells := shells.(open := shells.open[id := 0]);
      ghost var after := View();
      Push(TerminalOpened(id));
      Push(TerminalReference(tc, id));
      EmitTwice(after, [Sent(TerminalOpened(id))], [Sent(TerminalReference(tc, id))]);
      return true;
    }

    method FinishShellTerminal(item: Item) returns (inTerminal: bool)
      requires Valid()
      modifies this`shells, this`out, this`log
      ensures var (h, marks, shown) := FinishTerminal(cfg, old(shells), item);
        Valid() && View() == OnShells(old(View()), (h, marks)) && inTerminal == shown
    {
      hide Truncate, Notes, FoldTasks.OneToOne;
      ghost var before := View();
      EmitNothing(View());
      if !(item.id in shells.open || Ran(item)) {
        shells := shells.(commands := shells.commands - {item.id});
        EmitNothing(View());
        return false;
      }
      ghost var (h1, marks) := OpenTerminal(shells, item.id);
      inTerminal := OpenShellTerminal(item.id);
      if inTerminal {
        shells := Shells(shells.commands - {item.id}, shells.open - {item.id});
        Push(TerminalExited(item.id, Truncate(item.output, cfg.maxContent)));
        EmitTwice(before.(shells := shells), marks,
                  [Sent(TerminalExited(item.id, Truncate(item.output, cfg.maxContent)))]);
      }
    }

    method TerminalText(id: Id, delta: string)
      requires Valid() && id in shells.commands
      modifies this`shells, this`out, this`log
      ensures Valid() && View() == OnShells(old(View()), TerminalDelta(cfg, old(shells), id, delta))
    {
      hide Notes, FoldTasks.OneToOne, OpenTerminal;
      ghost var before := View();
      NotedOpens(shells, id);
      ghost var (h1, marks) := OpenTerminal(shells, id);
      Record(Routed(id, delta));
      var isOpen := OpenShellTerminal(id);
      EmitTwice(before.(shells := shells), [Routed(id, delta)], marks);
      var streamed := shells.open[id];
      var text := Budgeted(cfg.maxContent, streamed, delta);
      if text == "" {
        return;
      }
      shells := shells.(open := shells.open[id := streamed + |text|]);
      ghost var after := before.(shells := shells);
      assert View() == Emit(after, [Routed(id, delta)] + marks);
      Push(TerminalOutput(id, text));
      EmitTwice(after, [Routed(id, delta)] + marks, [Sent(TerminalOutput(id, text))]);
    }

    // ---------- messages ----------

    method ClaimCutOff(item: Item) returns (claimed: bool)
      requires Valid()
      modifies this`cutOff
      ensures Valid() && View() == old(View()).(cutOff := Claim(old(View()), item))
      ensures claimed == ClaimsCutOff(old(View()), item)
    {
      claimed := IsCutOff(item) && item.id !in cutOff;
      if claimed {
        cutOff := cutOff + {item.id};
      }
    }

    method MarkReplyCutOff(item: Item)
      requires Valid()
      modifies this`cutOff, this`out, this`log
      ensures Valid() && View() == MarkCutOff(old(View()), item)
    {
      if !IsCutOff(item) || item.id in cutOff {
        return;
      }
      var msg;
      if item.id in items {
        if !(items[item.id].Message? && items[item.id].streamed > 0) {
          return;
        }
        msg := items[item.id].msg;
      } else {
        if !(lastMessage.Some? && lastMessage.value.0 == item.id && (cfg.v2 || !MessageStreaming(items))) {
          return;
        }
        msg := lastMessage.value.1;
      }
      cutOff := cutOff + {item.id};
      Push(MessageChunk(item.id, msg, "", None, true));
    }

    method CompleteReply(item: Item)
      requires Valid()
      modifies this`items, this`cutOff, this`next, this`lastMessage, this`out, this`log
      ensures Valid() && View() == CompleteMessage(old(View()), item)
    {
      hide Notes, FoldTasks.OneToOne, IsCutOff, MessagePhase, Fold.MessageText;
      ghost var before := View();
      var role := if item.id in items && items[item.id].Message? then Some(items[item.id]) else None;
      items := items - {item.id};
      var streamed := if role.Some? then role.value.streamed else 0;
      if streamed == 0 && item.text == "" {
        return;
      }
      var msg;
      if role.Some? {
        msg := role.value.msg;
      } else {
        msg := next;
        next := next + 1;
      }
      var cut := ClaimCutOff(item);
      Push(MessageChunk(item.id, msg, if streamed > 0 then "" else item.text, Some(MessagePhase(item)), cut));
      lastMessage := Some((item.id, msg));
    }

    method ShowPrefix(item: Item)
      requires Valid()
      modifies this`items, this`cutOff, this`out, this`log
      ensures Valid() && View() == ReplayPrefix(old(View()), item)
    {
      hide Notes, FoldTasks.OneToOne;
      ghost var before := View();
      var text := Fold.MessageText(item);
      if text == "" {
        return;
      }
      Record(Prefix(item));
      if item.id in items && items[item.id].Message? && items[item.id].streamed == 0 {
        var msg := items[item.id].msg;
        var mark := ClaimCutOff(item);
        items := items[item.id := Message(msg, |text|)];
        ghost var chunk := MessageChunk(item.id, msg, text, None, mark);
        Push(MessageChunk(item.id, msg, text, None, mark));
        EmitTwice(before.(items := items, cutOff := cutOff), [Prefix(item)], [Sent(chunk)]);
      }
    }

    method ShowSettledMessage(item: Item)
      requires Valid()
      modifies this`done, this`cutOff, this`next, this`lastMessage, this`out, this`log
      ensures Valid() && View() == ReplayMessage(old(View()), item)
    {
      hide Notes, FoldTasks.OneToOne, IsCutOff, MessagePhase, Fold.MessageText;
      done := done + {item.id};
      var text := Fold.MessageText(item);
      if text == "" {
        Record(Settled(item, true));
        return;
      }
      var msg := next;
      next := next + 1;
      var mark := ClaimCutOff(item);
      var phase := None;
      if item.kind == AgentMessage {
        phase := Some(MessagePhase(item));
        lastMessage := Some((item.id, msg));
      }
      ghost var after := View();
      Record(Settled(item, true));
      Push(MessageChunk(item.id, msg, text, phase, mark));
      EmitTwice(after, [Settled(item, true)], [Sent(MessageChunk(item.id, msg, text, phase, mark))]);
    }

    // ---------- cards ----------

    /** The card of a tool call; an id is minted when the host sends none. */
    method ToolCard(item: Item) returns (tc: Id, announced: bool)
      requires Valid()
      modifies this`items, this`next
      ensures Valid() && Tool(tc, announced) == ToolRole(old(View()), item)
      ensures View() == old(View()).(items := old(items)[item.id := Tool(tc, announced)],
        next := ToolNext(old(View()), item))
    {
      if item.id in items && items[item.id].Tool? {
        assert items[item.id := items[item.id]] == items;
        return items[item.id].tc, items[item.id].announced;
      }
      if item.callId.Some? {
        tc := item.callId.value;
      } else {
        tc := "tc-" + Decimal(next);
        next := next + 1;
      }
      announced := false;
      items := items[item.id := Tool(tc, false)];
    }

    method HostItemRole(id: Id, prefix: string) returns (tc: Id, announced: bool)
      requires Valid()
      modifies this`items
      ensures Valid() && Tool(tc, announced) == HostRole(old(View()), id, prefix)
      ensures View() == old(View()).(items := old(items)[id := Tool(tc, announced)])
    {
      if id in items && items[id].Tool? {
        assert items[id := items[id]] == items;
        return items[id].tc, items[id].announced;
      }
      tc, announced := prefix + id, false;
      items := items[id := Tool(tc, false)];
    }

    method MonitorFeedCard(item: Item, final: bool)
      requires Valid()
      modifies this`items, this`monitorCards, this`out, this`log
      ensures Valid() && View() == MonitorUpdate(old(View()), item, final)
    {
      hide Notes, FoldTasks.OneToOne;
      ghost var before := View();
      var tc := MonitorCardId(item);
      var role := Monitor(tc, item.text);
      if item.id in items && items[item.id].Monitor? {
        role := Monitor(items[item.id].tc, if item.text != "" then item.text else items[item.id].text);
      }
      assert role == MonitorRole(before, item);
      items := items[item.id := role];
      var create := tc !in monitorCards;
      monitorCards := monitorCards + {tc};
      Push(MonitorCard(tc, create, role.text, final));
      if final {
        items := items - {item.id};
        assert items == before.items - {item.id};
      }
    }

    // ---------- item/started and item/updated ----------

    method OnToolCallSnapshot(item: Item)
      requires Valid()
      modifies this`items, this`next, this`shells, this`tasks, this`out, this`log
      ensures Valid() && View() == SnapshotToolCall(old(View()), item)
    {
      hide Notes, FoldTasks.OneToOne, ToolRole, ToolNext, NoteShell, BackgroundTask;
      ghost var before := View();
      var tc, announced := ToolCard(item);
      var note := Card(tc, !announced, item, false, false);
      Push(note);
      NoteShellCommand(item, tc);
      ghost var marks := [];
      if cfg.airTasks {
        marks := BackgroundTask(tasks, item, tc).1;
        AnnounceBackgroundTask(item, tc);
      }
      items := items[item.id := Tool(tc, true)];
      assert items == before.items[item.id := Tool(tc, true)];
      EmitTwice(before.(items := items, next := next, shells := shells, tasks := tasks), [Sent(note)], marks);
    }

    /** The task of a user shell or of a workflow run. */
    method AnnounceHostTask(item: Item, tc: Id)
      requires Valid()
      modifies this`tasks, this`out, this`log
      ensures Valid() && View() == OnTasks(old(View()), HostTask(old(View()), item, tc))
    {
      EmitNothing(View());
      if item.kind == UserShell && cfg.airTasks {
        AnnounceShellTask(item, tc);
      } else if item.kind == Workflow && cfg.airTasks {
        AnnounceWorkflowTask(item, tc);
      }
    }

    method OnHostCardSnapshot(item: Item)
      requires Valid()
      modifies this`items, this`shells, this`tasks, this`out, this`log
      ensures Valid() && View() == SnapshotHostCard(old(View()), item)
    {
      hide Notes, FoldTasks.OneToOne, HostRole, HostPrefix, NoteShell, HostTask;
      ghost var before := View();
      var tc, announced := HostItemRole(item.id, HostPrefix(item.kind));
      var inTerminal := item.kind == UserShell && item.id in shells.open;
      EmitNothing(View());
      ghost var card := [];
      if item.title != "" {
        var note := Card(tc, !announced, item, false, inTerminal);
        card := [Sent(note)];
        Push(note);
      }
      if item.kind == UserShell {
        NoteShellCommand(item, tc);
      }
      ghost var marks := HostTask(before, item, tc).1;
      HostTaskSame(View(), before, item, tc);
      AnnounceHostTask(item, tc);
      EmitTwice(before.(items := items, shells := shells, tasks := tasks), card, marks);
    }

    method OnOtherSnapshot(item: Item)
      requires Valid()
      modifies this`items, this`tasks, this`out, this`log
      ensures Valid() && View() == SnapshotOther(old(View()), item)
    {
      hide Notes, FoldTasks.OneToOne, HostRole, SettleBackground;
      ghost var before := View();
      ghost var marks := SettleBackground(cfg, tasks, items, item).1;
      SettleBackgroundCompletion(item);
      if item.title != "" {
        HostRoleSame(before, tasks, log, item.id, "item-");
        var tc, announced := HostItemRole(item.id, "item-");
        var note := Card(tc, !announced, item, false, false);
        Push(note);
        EmitTwice(before.(items := items, tasks := tasks), marks, [Sent(note)]);
      }
      if item.id !in items {
        items := items[item.id := Ignored];
      }
    }

    method OnSnapshotOf(item: Item)
      requires Valid()
      modifies this
      ensures Valid() && View() == SnapshotKind(old(View()), item)
    {
      hide Notes, FoldTasks.OneToOne, SnapshotToolCall, SnapshotHostCard, SnapshotOther, MonitorUpdate, ChildItem;
      hide MarkCutOff, Ignore, OpenMessage;
      match item.kind
      case ToolCall => OnToolCallSnapshot(item);
      case AgentMessage =>
        OpenIfNew(item.id);
        MarkReplyCutOff(item);
      case UserMessage =>
        OpenIfNew(item.id);
        MarkReplyCutOff(item);
      case Reasoning => OpenThought(item.id);
      case Compaction => Push(CompactionUpdate(item, false));
      case Subagent =>
        if cfg.native {
          SubagentItem(item);
        } else {
          OnHostCardSnapshot(item);
        }
      case Workflow => OnHostCardSnapshot(item);
      case UserShell => OnHostCardSnapshot(item);
      case HookRun => OnHostCardSnapshot(item);
      case MonitorFeed => MonitorFeedCard(item, false);
      case ReminderChild => IgnoreIfNew(item.id);
      case BackgroundCompletion => OnOtherSnapshot(item);
      case OtherKind => OnOtherSnapshot(item);
    }

    method OpenIfNew(id: Id)
      requires Valid()
      modifies this`items, this`next
      ensures Valid() && View() == OpenMessage(old(View()), id)
    {
      if id !in items {
        items := items[id := Message(next, 0)];
        next := next + 1;
      }
    }

    method OpenThought(id: Id)
      requires Valid()
      modifies this`items, this`next
      ensures Valid() && View() == if id in old(items) then old(View())
        else old(View()).(items := old(items)[id := Thought(old(next), 0, 0)], next := old(next) + 1)
    {
      if id !in items {
        items := items[id := Thought(next, 0, 0)];
        next := next + 1;
      }
    }

    method IgnoreIfNew(id: Id)
      requires Valid()
      modifies this`items
      ensures Valid() && View() == Ignore(old(View()), id)
    {
      if id !in items {
        items := items[id := Ignored];
      }
    }

    method ObserveWorkflowItem(item: Item, completed: bool)
      requires Valid()
      modifies this`flows
      ensures Valid() && View() == old(View()).(flows := ObserveWorkflow(old(flows), item, completed))
    {
      if item.kind != Workflow || item.runId == "" || item.runId in flows.superseded {
        return;
      }
      if completed || item.status in {Completed, Failed, Cancelled} {
        flows := flows.(listed := flows.listed - {item.runId});
        return;
      }
      if item.resumeFrom != "" && item.resumeFrom != item.runId {
        flows := Flows(flows.listed - {item.resumeFrom}, flows.superseded + {item.resumeFrom});
      }
      if item.resumeFrom == "" && item.runId in flows.listed && flows.listed[item.runId].revision > item.revision {
        return;
      }
      flows := flows.(listed := flows.listed[item.runId := Observation(item.revision, item.paused)]);
    }

    method OnItemSnapshot(item: Item)
      requires Valid()
      modifies this
      ensures Valid() && View() == Snapshot(old(View()), item)
    {
      hide Notes, FoldTasks.OneToOne, ObserveWorkflow, SnapshotKind, MarkCutOff;
      ObserveWorkflowItem(item, false);
      if item.id in done {
        MarkReplyCutOff(item);
        return;
      }
      Record(Seen(item));
      OnSnapshotOf(item);
    }

    // ---------- item/delta ----------

    method OnOutputDelta(id: Id, delta: string)
      requires Valid()
      modifies this`shells, this`streamedOutput, this`out, this`log
      ensures Valid() && View() == OutputDelta(old(View()), id, delta)
    {
      hide Notes, FoldTasks.OneToOne, TerminalDelta, Budgeted;
      if !cfg.v2 {
        return;
      }
      if id in shells.commands {
        TerminalText(id, delta);
        return;
      }
      if !(id in items && items[id].Tool?) {
        return;
      }
      var streamed := if id in streamedOutput then streamedOutput[id] else 0;
      var text := Budgeted(cfg.maxContent, streamed, delta);
      streamedOutput := streamedOutput[id := streamed + |text|];
      if text == "" {
        EmitNothing(View());
      } else {
        Push(OutputChunk(items[id].tc, text));
      }
    }

    method OnTextDelta(id: Id, delta: string)
      requires Valid()
      modifies this`items, this`out, this`log
      ensures Valid() && View() == MessageDelta(old(View()), id, delta)
    {
      hide Notes, FoldTasks.OneToOne;
      ghost var before := View();
      if id in items && items[id].Message? {
        var msg := items[id].msg;
        items := items[id := Message(msg, items[id].streamed + |delta|)];
        ghost var after := View();
        Record(TextDelta(id, delta));
        Push(MessageChunk(id, msg, delta, None, false));
        EmitTwice(after, [TextDelta(id, delta)], [Sent(MessageChunk(id, msg, delta, None, false))]);
      } else if id in items && items[id].Monitor? {
        var tc, text := items[id].tc, items[id].text + delta;
        items := items[id := Monitor(tc, text)];
        ghost var after := View();
        Record(TextDelta(id, delta));
        Push(MonitorCard(tc, false, text, false));
        EmitTwice(after, [TextDelta(id, delta)], [Sent(MonitorCard(tc, false, text, false))]);
      } else {
        Record(TextDelta(id, delta));
      }
    }

    method OnSummaryDelta(id: Id, part: nat, delta: string)
      requires Valid()
      modifies this`items, this`out, this`log
      ensures Valid() && View() == SummaryDelta(old(View()), id, part, delta)
    {
      hide Notes, FoldTasks.OneToOne;
      if !(id in items && items[id].Thought?) || part < items[id].part {
        return;
      }
      var role := items[id];
      var text := delta;
      if part > role.part {
        text := "\n\n" + delta;
      }
      items := items[id := Thought(role.msg, role.streamed + |text|, part)];
      Push(ThoughtChunk(role.msg, text));
    }

    method OnItemDelta(id: Id, field: Field, delta: string)
      requires Valid()
      modifies this
      ensures Valid() && View() == Delta(old(View()), id, field, delta)
    {
      hide OutputDelta, MessageDelta, SummaryDelta, Notes, FoldTasks.OneToOne;
      if delta == "" {
        return;
      }
      match field
      case Output => OnOutputDelta(id, delta);
      case Words => OnTextDelta(id, delta);
      case Summary(part) => OnSummaryDelta(id, part, delta);
      case OtherField =>
    }

    // ---------- item/completed ----------

    /** History never opens or closes a terminal. */
    method SettleShell(item: Item, tc: Id) returns (inTerminal: bool)
      requires Valid()
      modifies this`shells, this`out, this`log
      ensures var (h, marks, shown) := CompleteShell(old(View()), item, tc);
        Valid() && View() == OnShells(old(View()), (h, marks)) && inTerminal == shown
    {
      hide Notes, FoldTasks.OneToOne, NoteShell, FinishTerminal;
      EmitNothing(View());
      if replaying || !(item.kind == ToolCall || item.kind == UserShell) {
        return false;
      }
      NoteShellCommand(item, tc);
      inTerminal := FinishShellTerminal(item);
    }

    /** The task of a backgrounded tool call; history announces none. */
    method SettleBackgroundTask(item: Item, tc: Id)
      requires Valid()
      modifies this`tasks, this`out, this`log
      ensures Valid() && View() == OnTasks(old(View()),
        if cfg.airTasks && !replaying then BackgroundTask(old(tasks), item, tc) else (old(tasks), []))
    {
      EmitNothing(View());
      if cfg.airTasks && !replaying {
        AnnounceBackgroundTask(item, tc);
      }
    }

    method OnToolCallCompleted(item: Item)
      requires Valid()
      modifies this`items, this`next, this`shells, this`tasks, this`out, this`log
      ensures Valid() && View() == CompleteToolCall(old(View()), item)
    {
      hide Notes, FoldTasks.OneToOne, ToolRole, ToolNext, CardSettled, BackgroundTask, CompleteToolCall, OnTasks;
      ghost var before := View();
      var tc, announced := ToolCard(item);
      SettleCard(item, tc, announced, true, false);
      SettleBackgroundTask(item, tc);
      items := items - {item.id};
      ToolCallInSteps(before, item);
    }

    method SettleHostTask(item: Item, tc: Id)
      requires Valid()
      modifies this`tasks, this`out, this`log
      ensures Valid() && View() == OnTasks(old(View()),
        if replaying then (old(tasks), []) else HostTask(old(View()), item, tc))
    {
      EmitNothing(View());
      if !replaying {
        AnnounceHostTask(item, tc);
      }
    }

    /** The terminal, the card and the card's reference to the terminal. */
    method SettleCard(item: Item, tc: Id, announced: bool, titled: bool, refer: bool)
      requires Valid()
      modifies this`shells, this`out, this`log
      ensures Valid() && View() == CardSettled(old(View()), item, tc, announced, titled, refer)
    {
      hide Notes, FoldTasks.OneToOne, CompleteShell;
      ghost var before := View();
      ghost var marks := CompleteShell(before, item, tc).1;
      var inTerminal := SettleShell(item, tc);
      var note := Card(tc, !announced, item, true, inTerminal);
      PushIf(titled, note);
      PushIf(refer && inTerminal, TerminalReference(tc, item.id));
      EmitThrice(before.(shells := shells), marks, if titled then [Sent(note)] else [],
                 if refer && inTerminal then [Sent(TerminalReference(tc, item.id))] else []);
    }

    method OnHostCardCompleted(item: Item)
      requires Valid()
      modifies this`items, this`shells, this`tasks, this`out, this`log
      ensures Valid() && View() == CompleteHostCard(old(View()), item)
    {
      hide Notes, FoldTasks.OneToOne, HostRole, HostPrefix, CardSettled, HostTask, CompleteHostCard, OnTasks;
      ghost var before := View();
      var tc, announced := HostItemRole(item.id, HostPrefix(item.kind));
      SettleCard(item, tc, announced, item.title != "", true);
      SettleHostTask(item, tc);
      items := items - {item.id};
      HostCardInSteps(before, item);
    }

    method OnReasoningCompleted(item: Item)
      requires Valid()
      modifies this`items, this`next, this`out, this`log
      ensures Valid() && View() == CompleteReasoning(old(View()), item)
    {
      hide Notes, FoldTasks.OneToOne;
      var streamed := if item.id in items && items[item.id].Thought? then items[item.id].streamed else 0;
      items := items - {item.id};
      if streamed == 0 && item.text != "" {
        var msg := next;
        next := next + 1;
        Push(ThoughtChunk(msg, item.text));
      }
    }

    method OnOtherCompleted(item: Item)
      requires Valid()
      modifies this`items, this`tasks, this`out, this`log
      ensures Valid() && View() == CompleteOther(old(View()), item)
    {
      hide Notes, FoldTasks.OneToOne, HostRole, SettleBackground, CompleteOther, OnTasks;
      ghost var before := View();
      SettleBackgroundCompletion(item);
      var shown := item.id in items && items[item.id].Tool?;
      var tc, announced := HostItemRole(item.id, "item-");
      PushIf(item.title != "" || shown, Card(tc, !announced, item, true, false));
      items := items - {item.id};
      OtherInSteps(before, item);
    }

    method OnCompletionOf(item: Item)
      requires Valid()
      modifies this
      ensures Valid() && View() == CompleteKind(old(View()), item)
    {
      hide Notes, FoldTasks.OneToOne, CompleteToolCall, CompleteHostCard, CompleteOther, MonitorUpdate, ChildItem;
      hide CompleteReasoning, CompleteMessage;
      match item.kind
      case ToolCall => OnToolCallCompleted(item);
      case AgentMessage => CompleteReply(item);
      case Reasoning => OnReasoningCompleted(item);
      case Compaction => Push(CompactionUpdate(item, true));
      case Subagent =>
        if cfg.native {
          SubagentItem(item);
          items := items - {item.id};
        } else {
          OnHostCardCompleted(item);
        }
      case Workflow => OnHostCardCompleted(item);
      case UserShell => OnHostCardCompleted(item);
      case HookRun => OnHostCardCompleted(item);
      case MonitorFeed => MonitorFeedCard(item, true);
      case ReminderChild => items := items - {item.id};
      case UserMessage => OnOtherCompleted(item);
      case BackgroundCompletion => OnOtherCompleted(item);
      case OtherKind => OnOtherCompleted(item);
    }

    method CompleteItem(item: Item)
      requires Valid()
      modifies this
      ensures Valid() && View() == Complete(old(View()), item)
    {
      hide Notes, FoldTasks.OneToOne, ObserveWorkflow, CompleteKind, MarkCutOff;
      streamedOutput := streamedOutput - {item.id};
      ObserveWorkflowItem(item, true);
      if item.id in done {
        MarkReplyCutOff(item);
        return;
      }
      done := done + {item.id};
      Record(Settled(item, false));
      OnCompletionOf(item);
    }

    // ---------- rows held for an anchor ----------

    method ReleaseAwaitingAnchor(anchor: Id)
      requires Valid()
      modifies this
      ensures Valid() && View() == Release(old(View()), anchor)
    {
      hide Notes, FoldTasks.OneToOne, Complete, CompleteAll, Select;
      var ready, kept := [], [];
      NothingSelected(View(), awaiting, {anchor});
      for i := 0 to |awaiting|
        invariant View() == old(View()) && Valid()
        invariant ready == Select(awaiting[..i], {anchor}, true)
        invariant kept == Select(awaiting[..i], {anchor}, false)
      {
        SelectStep(awaiting, i, {anchor}, true);
        SelectStep(awaiting, i, {anchor}, false);
        if awaiting[i].anchor == anchor {
          ready := ready + [awaiting[i]];
        } else {
          kept := kept + [awaiting[i]];
        }
      }
      assert awaiting[..|awaiting|] == awaiting;
      awaiting := kept;
      ghost var before := View();
      NothingSelected(before, ready, {});
      for i := 0 to |ready|
        invariant Valid() && View() == CompleteAll(before, ready[..i])
      {
        assert ready[..i + 1] == ready[..i] + [ready[i]];
        CompleteAllStep(before, ready[..i], ready[i]);
        CompleteItem(ready[i].item);
      }
      assert ready[..|ready|] == ready;
    }

    /** Settle the held rows whose anchor is not in `coming`; the others wait on. */
    method FlushAwaitingAnchorUnless(coming: set<Id>)
      requires Valid()
      modifies this
      ensures Valid() && View() == FlushUnless(old(View()), coming)
    {
      hide Notes, FoldTasks.OneToOne, Complete, CompleteAll, Select;
      var held := awaiting;
      awaiting := [];
      ghost var before := View();
      NothingSelected(before, held, coming);
      for i := 0 to |held|
        invariant Valid()
        invariant View() ==
          CompleteAll(before, Select(held[..i], coming, false)).(awaiting := Select(held[..i], coming, true))
      {
        SelectStep(held, i, coming, true);
        SelectStep(held, i, coming, false);
        if held[i].anchor in coming {
          awaiting := awaiting + [held[i]];
        } else {
          ghost var settled := Select(held[..i], coming, false);
          CompleteAllStep(before, settled, held[i]);
          CompleteKeepsAwaiting(CompleteAll(before, settled), held[i].item, awaiting);
          CompleteItem(held[i].item);
        }
      }
      assert held[..|held|] == held;
      CompleteAllKeepsAwaiting(before, Select(held, coming, false), Select(held, coming, true));
    }

    method OnItemCompleted(item: Item)
      requires Valid()
      modifies this
      ensures Valid() && View() == ItemCompleted(old(View()), item)
    {
      hide Notes, FoldTasks.OneToOne, Complete, Release;
      streamedOutput := streamedOutput - {item.id};
      var anchor := RowAnchor(item);
      if anchor.Some? && anchor.value != item.id && anchor.value !in items && anchor.value !in done {
        if !IsHeld(awaiting, anchor.value, item.id) {
          awaiting := awaiting + [Held(anchor.value, item)];
        }
        return;
      }
      CompleteItem(item);
      ReleaseAwaitingAnchor(item.id);
    }

    // ---------- history batches ----------

    method ReplayHistoryItem(item: Item)
      requires Valid()
      modifies this
      ensures Valid() && View() == ReplayItem(old(View()), item)
    {
      hide Notes, FoldTasks.OneToOne, ObserveWorkflow, Snapshot, ReplayPrefix, ReplayMessage, ItemCompleted;
      ObserveWorkflowItem(item, !InFlight(item));
      if item.id in done {
        return;
      }
      if InFlight(item) {
        OnItemSnapshot(item);
        if IsMessage(item.kind) {
          ShowPrefix(item);
        }
      } else if IsMessage(item.kind) {
        ShowSettledMessage(item);
      } else {
        OnItemCompleted(item);
      }
    }

    /** `upcoming` counts the items the batch still carries, so a turn boundary can tell an
        anchor still to come from one that never comes. */
    method ReplayHistoryItems(batch: seq<Wire>)
      requires Valid()
      modifies this
      ensures Valid() && View() == Replay(old(View()), batch)
    {
      hide Notes, FoldTasks.OneToOne, ReplayItem, Release, FlushUnless;
      var wasReplaying := replaying;
      replaying := true;
      ghost var before := View();
      var upcoming := CountUpcoming(batch);
      assert batch == batch[0..];
      var turn: Option<Id> := None;
      for i := 0 to |batch|
        invariant Valid()
        invariant Counts(upcoming, batch[i..])
        invariant ReplayFrom(View(), batch[i..], turn) == ReplayFrom(before, batch, None)
      {
        var wire := batch[i];
        ghost var rest := batch[i..];
        assert rest[0] == wire && rest[1..] == batch[i + 1..];
        CountsPop(upcoming, rest);
        if wire.Turn().Some? && wire.Turn() != turn {
          FlushAwaitingAnchorUnless(upcoming.Keys);
          turn := wire.Turn();
        }
        if wire.Named? {
          ReplayHistoryItem(wire.item);
          ReleaseAwaitingAnchor(wire.item.id);
          var id := wire.item.id;
          if upcoming[id] == 1 {
            upcoming := upcoming - {id};
          } else {
            upcoming := upcoming[id := upcoming[id] - 1];
          }
        }
      }
      FlushAwaitingAnchorUnless({});
      replaying := wasReplaying;
    }

    // ---------- the event loop ----------

    method Handle(e: Event)
      requires Valid()
      modifies this
      ensures Valid() && View() == Step(old(View()), e)
    {
      hide Notes, FoldTasks.OneToOne, Snapshot, Delta, ItemCompleted, Replay, FlushUnless, SettleBackground;
      hide SeedTask, Disconnect, EndChildRead, ChildSessionId;
      match e
      case SnapshotEvent(w) => if w.Named? { OnItemSnapshot(w.item); }
      case DeltaEvent(id, field, text) => OnItemDelta(id, field, text);
      case CompletedEvent(w) => if w.Named? { OnItemCompleted(w.item); }
      case HistoryEvent(batch) => ReplayHistoryItems(batch);
      case TurnEnds => FlushAwaitingAnchorUnless({});
      case TaskRow(task, foreground) => SeedAsyncTask(task, foreground);
      case BackgroundRecord(record) => SettleBackgroundCompletion(record);
      case ConnectionLost(order) => DisconnectTasks(order);
      case TakeRead(child) => var _ := TakeChildRead(child);
      case ReadBegins(child) => BeginChildRead(child);
      case ReadEnds(child, generation) => EndRead(child, generation);
    }
  }

  /** A fold that handles any events from the start ends in the state that `Run` describes,
      having sent exactly the notes of its log. */
  method HandleAll(cfg: Config, events: seq<Event>) returns (fold: SessionFold)
    ensures fresh(fold) && fold.Valid() && fold.View() == Run(Fresh(cfg), events)
    ensures fold.out == Notes(Run(Fresh(cfg), events).log)
  {
    hide Step;
    fold := new SessionFold(cfg);
    for i := 0 to |events|
      invariant fresh(fold) && fold.Valid() && fold.View() == Run(Fresh(cfg), events[..i])
    {
      assert events[..i + 1][..i] == events[..i];
      fold.Handle(events[i]);
    }
    assert events[..|events|] == events;
  }
}
