/** Write commands that fail half-way (demo/todo.py:94-114).

    The two writes of a command are transactions of their own. If the second
    one, the append, raises, the first one stays: the table is ahead of the log
    and nothing undoes it. */
module TodoFailures {
  import opened Basics
  import opened Events
  import opened Todo
  import opened TodoRuns

  /** In `Raise(i)` the next statement of command `i` raises, without effect. */
  datatype Action = Go(i: nat) | Raise(i: nat)

  function Act(s: State, a: Action): (s': State)
    ensures |s'.procs| == |s.procs|
  {
    if a.Go? then Step(s, a.i)
    else if a.i < |s.procs| && (s.procs[a.i].pc.Idle? || InFlight(s.procs[a.i]))
    then s.(procs := s.procs[a.i := s.procs[a.i].(pc := Rejected)])
    else s
  }

  function RunAll(s: State, actions: seq<Action>): (s': State)
    ensures |s'.procs| == |s.procs|
    decreases |actions|
  {
    if actions == [] then s else RunAll(Act(s, actions[0]), actions[1..])
  }

  // ------------------------------------------------- a creation that is not logged

  ghost predicate CreationLogged(log: Log, id: string) {
    exists k :: 0 <= k < |log| && log[k].entityId == id && log[k].payload.Created?
  }

  predicate Creates(p: Proc, id: string) {
    p.pc.Written? && p.cmd.CreateTodo? && p.cmd.id == id
  }

  ghost predicate CreationUnderway(s: State, id: string) {
    exists i :: 0 <= i < |s.procs| && Creates(s.procs[i], id)
  }

  ghost predicate ToBeLogged(s: State, p: Proc) {
    && (p.pc.Loaded? ==> p.cmd.RenameTodo?)
    && (p.pc.Written? ==>
      p.pc.event == EventOf(p.cmd) && (p.cmd.CreateTodo? ==> p.cmd.id in s.table && !CreationLogged(s.log, p.cmd.id)))
  }

  /** A creation is under way once at most, and is logged only for a row that exists. */
  ghost predicate CreatedOnce(s: State) {
    && (forall i :: 0 <= i < |s.procs| ==> ToBeLogged(s, s.procs[i]))
    && (forall i, j, id ::
      0 <= i < |s.procs| && 0 <= j < |s.procs| && Creates(s.procs[i], id) && Creates(s.procs[j], id) ==> i == j)
    && (forall id :: CreationLogged(s.log, id) ==> id in s.table)
  }

  /** The row is there, and its creation is not logged and never will be. */
  ghost predicate Lost(s: State, id: string) {
    id in s.table && !CreationLogged(s.log, id) && !CreationUnderway(s, id)
  }

  lemma {:induction false} LoggedNext(log: Log, e: Event, id: string)
    ensures CreationLogged(log + [e], id) <==> CreationLogged(log, id) || (e.entityId == id && e.payload.Created?)
  {
    if CreationLogged(log, id) {
      var k :| 0 <= k < |log| && log[k].entityId == id && log[k].payload.Created?;
      assert (log + [e])[k] == log[k];
    }
    if e.entityId == id && e.payload.Created? {
      assert (log + [e])[|log|] == e;
    }
  }

  /** What one action can change. */
  lemma {:induction false} ActChanges(s: State, a: Action)
    ensures var s' := Act(s, a);
      && (forall id :: id in s.table ==> id in s'.table)
      && (forall k :: 0 <= k < |s.procs| && k != a.i ==> s'.procs[k] == s.procs[k])
      && (forall k :: 0 <= k < |s.procs| ==> s'.procs[k].cmd == s.procs[k].cmd)
      && s'.log == if a.Go? && a.i < |s.procs| && s.procs[a.i].pc.Written? then s.log + [s.procs[a.i].pc.event]
        else s.log
  {
    if a.Go? {
      forall id | id in s.table ensures id in Step(s, a.i).table {
        StepOnlyCreates(s, a.i, id);
      }
    }
  }

  lemma {:induction false} CreatorBegan(s: State, a: Action, k: nat, id: string)
    requires k < |s.procs| && Creates(Act(s, a).procs[k], id) && ToBeLogged(s, s.procs[k])
    ensures || Act(s, a).procs[k] == s.procs[k]
            || (k == a.i && a.Go? && id !in s.table && Act(s, a).log == s.log && id in Act(s, a).table)
  {
  }

  lemma {:induction false} LoggedBefore(s: State, a: Action, id: string)
    requires CreatedOnce(s) && CreationLogged(Act(s, a).log, id)
    ensures CreationLogged(s.log, id) || (a.Go? && a.i < |s.procs| && Creates(s.procs[a.i], id) && id in s.table)
  {
    ActChanges(s, a);
    if !CreationLogged(s.log, id) {
      assert ToBeLogged(s, s.procs[a.i]);
      LoggedNext(s.log, s.procs[a.i].pc.event, id);
    }
  }

  lemma {:induction false} ActKeepsToBeLogged(s: State, a: Action, k: nat)
    requires CreatedOnce(s) && k < |s.procs|
    ensures ToBeLogged(Act(s, a), Act(s, a).procs[k])
  {
    var s', p := Act(s, a), Act(s, a).procs[k];
    ActChanges(s, a);
    assert ToBeLogged(s, s.procs[k]);
    if Creates(p, p.cmd.id) {
      CreatorBegan(s, a, k, p.cmd.id);
      if CreationLogged(s'.log, p.cmd.id) {
        LoggedBefore(s, a, p.cmd.id);
      }
    }
  }

  lemma {:induction false} ActKeepsCreatedOnce(s: State, a: Action)
    requires CreatedOnce(s)
    ensures CreatedOnce(Act(s, a))
  {
    var s' := Act(s, a);
    ActChanges(s, a);
    forall k | 0 <= k < |s.procs| ensures ToBeLogged(s', s'.procs[k]) {
      ActKeepsToBeLogged(s, a, k);
    }
    forall i, j, id | 0 <= i < |s.procs| && 0 <= j < |s.procs| && Creates(s'.procs[i], id) && Creates(s'.procs[j], id)
      ensures i == j
    {
      assert ToBeLogged(s, s.procs[i]) && ToBeLogged(s, s.procs[j]);
      CreatorBegan(s, a, i, id);
      CreatorBegan(s, a, j, id);
    }
    forall id | CreationLogged(s'.log, id) ensures id in s'.table {
      LoggedBefore(s, a, id);
    }
  }

  lemma {:induction false} LostStays(s: State, a: Action, id: string)
    requires CreatedOnce(s) && Lost(s, id)
    ensures Lost(Act(s, a), id)
  {
    var s' := Act(s, a);
    ActChanges(s, a);
    if CreationLogged(s'.log, id) {
      LoggedBefore(s, a, id);
    }
    forall k | 0 <= k < |s.procs| ensures !Creates(s'.procs[k], id) {
      if Creates(s'.procs[k], id) {
        assert ToBeLogged(s, s.procs[k]);
        CreatorBegan(s, a, k, id);
      }
    }
  }

  lemma {:induction false} RunKeepsLost(s: State, actions: seq<Action>, id: string)
    requires CreatedOnce(s) && Lost(s, id)
    ensures Lost(RunAll(s, actions), id)
    decreases |actions|
  {
    if actions != [] {
      ActKeepsCreatedOnce(s, actions[0]);
      LostStays(s, actions[0], id);
      RunKeepsLost(Act(s, actions[0]), actions[1..], id);
    }
  }

  lemma {:induction false} RunKeepsCreatedOnce(s: State, actions: seq<Action>)
    requires CreatedOnce(s)
    ensures CreatedOnce(RunAll(s, actions))
    decreases |actions|
  {
    if actions != [] {
      ActKeepsCreatedOnce(s, actions[0]);
      RunKeepsCreatedOnce(Act(s, actions[0]), actions[1..]);
    }
  }

  lemma {:induction false} SettledCreatedOnce(s: State)
    requires Settled(s)
    ensures CreatedOnce(s)
  {
    forall id | CreationLogged(s.log, id) ensures id in s.table {
      var k :| 0 <= k < |s.log| && s.log[k].entityId == id && s.log[k].payload.Created?;
      SeenIffPresent(s.log, id);
      assert Agrees(s.table, EventsOf(s.log, id), id);
    }
  }

  lemma {:induction false} CreatedIsLogged(log: Log, id: string, e: Event)
    requires e in EventsOf(log, id) && e.payload.Created?
    ensures CreationLogged(log, id)
  {
    assert log == log[..|log| - 1] + [Last(log)];
    LoggedNext(log[..|log| - 1], Last(log), id);
    if e != Last(log) || Last(log).entityId != id {
      CreatedIsLogged(log[..|log| - 1], id, e);
    }
  }

  lemma {:induction false} LostDisagrees(s: State, id: string)
    requires Lost(s, id)
    ensures !Agrees(s.table, EventsOf(s.log, id), id)
  {
    var events := EventsOf(s.log, id);
    if events != [] && events[0].payload.Created? {
      CreatedIsLogged(s.log, id, events[0]);
    }
  }

  /** A creation whose event could not be appended: whatever is scheduled before
      and after, and whatever else fails, the todo disagrees with its events for
      good. No second creation can repair it, and a renaming logs a retitling of
      a todo that was never created. */
  lemma {:induction false} UnloggedCreationIsForGood(s: State, before: seq<Action>, i: nat, after: seq<Action>)
    requires Settled(s) && i < |s.procs|
    requires var p := RunAll(s, before).procs[i]; p.pc.Written? && p.cmd.CreateTodo?
    ensures var s', id := RunAll(Act(RunAll(s, before), Raise(i)), after), RunAll(s, before).procs[i].cmd.id;
            id in s'.table && !Agrees(s'.table, EventsOf(s'.log, id), id)
  {
    var torn := Act(RunAll(s, before), Raise(i));
    SettledCreatedOnce(s);
    RunKeepsCreatedOnce(s, before);
    CreationIsLost(RunAll(s, before), i);
    ActKeepsCreatedOnce(RunAll(s, before), Raise(i));
    RunKeepsLost(torn, after, RunAll(s, before).procs[i].cmd.id);
    LostDisagrees(RunAll(torn, after), RunAll(s, before).procs[i].cmd.id);
  }

  lemma {:induction false} CreationIsLost(s: State, i: nat)
    requires CreatedOnce(s) && i < |s.procs| && s.procs[i].pc.Written? && s.procs[i].cmd.CreateTodo?
    ensures Lost(Act(s, Raise(i)), s.procs[i].cmd.id)
  {
    var s', id := Act(s, Raise(i)), s.procs[i].cmd.id;
    assert ToBeLogged(s, s.procs[i]) && Creates(s.procs[i], id);
    assert forall k :: 0 <= k < |s.procs| && k != i ==> !Creates(s.procs[k], id);
  }

  // ------------------------------------------------- a renaming that is not logged

  /** A run that starts a command only while no other is in flight on its todo. */
  ghost predicate OneAtATime(s: State, actions: seq<Action>)
    decreases |actions|
  {
    actions == [] || (MayBegin(s, actions[0]) && OneAtATime(Act(s, actions[0]), actions[1..]))
  }

  ghost predicate MayBegin(s: State, a: Action) {
    a.i < |s.procs| && s.procs[a.i].pc.Idle? ==>
      forall j :: 0 <= j < |s.procs| && j != a.i && InFlight(s.procs[j]) ==> s.procs[j].cmd.id != s.procs[a.i].cmd.id
  }

  ghost predicate OnItsWay(s: State, p: Proc) {
    match p.pc
    case Loaded(todo) => p.cmd.RenameTodo? && p.cmd.id in s.table && todo == s.table[p.cmd.id].(title := p.cmd.title)
    case Written(event) =>
      && event == EventOf(p.cmd) && p.cmd.id in s.table
      && (if p.cmd.CreateTodo? then
        EventsOf(s.log, p.cmd.id) == [] && s.table[p.cmd.id] == TodoRow(p.cmd.id, p.cmd.title, p.cmd.content, false)
          else s.table[p.cmd.id].title == p.cmd.title)
    case _ => true
  }

  /** The row and what its events rebuild differ in the title at most. */
  ghost predicate SameButTitle(table: Table, events: Log, id: string) {
    && id in table && events != [] && Proper(events)
    && Rebuilt(events) == Ok(table[id].(title := Rebuilt(events).value.title))
  }

  ghost predicate Unlogged(s: State, id: string) {
    id in s.table && !CreationLogged(s.log, id)
  }

  ghost predicate Accounted(s: State, id: string) {
    || Unlogged(s, id)
    || (id !in s.table && EventsOf(s.log, id) == [])
    || SameButTitle(s.table, EventsOf(s.log, id), id)
  }

  ghost predicate Orderly(s: State) {
    && (forall id :: id in s.table ==> s.table[id].todoId == id)
    && OnePerTodo(s)
    && (forall k :: 0 <= k < |s.procs| ==> OnItsWay(s, s.procs[k]))
    && (forall id :: Accounted(s, id))
  }

  lemma {:induction false} NoEventsUnlogged(log: Log, id: string)
    requires EventsOf(log, id) == []
    ensures !CreationLogged(log, id)
  {
    SeenIffPresent(log, id);
  }

  /** Nothing about a todo changes by a command on another one. */
  lemma {:induction false} ActElsewhere(s: State, a: Action, id: string)
    requires a.i < |s.procs| && s.procs[a.i].cmd.id != id
    requires s.procs[a.i].pc.Written? ==> s.procs[a.i].pc.event == EventOf(s.procs[a.i].cmd)
    requires s.procs[a.i].pc.Loaded? ==> s.procs[a.i].pc.todo.todoId == s.procs[a.i].cmd.id
    ensures var s' := Act(s, a);
      && (id in s'.table <==> id in s.table) && (id in s.table ==> s'.table[id] == s.table[id])
      && EventsOf(s'.log, id) == EventsOf(s.log, id) && (CreationLogged(s'.log, id) <==> CreationLogged(s.log, id))
  {
    if a.Go? && s.procs[a.i].pc.Written? {
      EventsOfSnoc(s.log, s.procs[a.i].pc.event, id);
      LoggedNext(s.log, s.procs[a.i].pc.event, id);
    }
  }

  /** Any title in the row, the next title in the log. */
  lemma {:induction false} RetitlingMeets(table: Table, events: Log, id: string)
    requires SameButTitle(table, events, id)
    ensures Agrees(table, events + [Event(id, Retitled(table[id].title))], id)
  {
    var e := Event(id, Retitled(table[id].title));
    RebuiltSnoc(events, e);
    assert table[id].(title := Rebuilt(events).value.title).(title := table[id].title) == table[id];
  }

  lemma {:induction false} AgreesIsSame(table: Table, events: Log, id: string)
    requires Agrees(table, events, id) && id in table
    ensures SameButTitle(table, events, id)
  {
    assert table[id].(title := table[id].title) == table[id];
  }

  lemma {:induction false} CreationAccounted(s: State, i: nat)
    requires i < |s.procs| && OnItsWay(s, s.procs[i]) && s.procs[i].pc.Written? && s.procs[i].cmd.CreateTodo?
    ensures var s', id := Step(s, i), s.procs[i].cmd.id; Accounted(s', id) && Agrees(s'.table, EventsOf(s'.log, id), id)
  {
    var cmd := s.procs[i].cmd;
    EventsOfSnoc(s.log, EventOf(cmd), cmd.id);
    assert EventsOf(Step(s, i).log, cmd.id) == [EventOf(cmd)];
    AgreesCreated(s.table, cmd.id, cmd.title, cmd.content);
    assert s.table[cmd.id := TodoRow(cmd.id, cmd.title, cmd.content, false)] == s.table;
    AgreesIsSame(s.table, [EventOf(cmd)], cmd.id);
  }

  lemma {:induction false} RenamingAccounted(s: State, i: nat)
    requires i < |s.procs| && OnItsWay(s, s.procs[i]) && s.procs[i].pc.Written? && s.procs[i].cmd.RenameTodo?
    requires SameButTitle(s.table, EventsOf(s.log, s.procs[i].cmd.id), s.procs[i].cmd.id)
    ensures var s', id := Step(s, i), s.procs[i].cmd.id; Accounted(s', id) && Agrees(s'.table, EventsOf(s'.log, id), id)
  {
    var cmd, events := s.procs[i].cmd, EventsOf(s.log, s.procs[i].cmd.id);
    RetitlingMeets(s.table, events, cmd.id);
    EventsOfSnoc(s.log, EventOf(cmd), cmd.id);
    AgreesIsSame(s.table, events + [EventOf(cmd)], cmd.id);
  }

  lemma {:induction false} AppendAccounted(s: State, i: nat)
    requires i < |s.procs| && OnItsWay(s, s.procs[i]) && Accounted(s, s.procs[i].cmd.id) && s.procs[i].pc.Written?
    ensures Accounted(Step(s, i), s.procs[i].cmd.id)
  {
    var id := s.procs[i].cmd.id;
    if s.procs[i].cmd.CreateTodo? {
      CreationAccounted(s, i);
    } else if SameButTitle(s.table, EventsOf(s.log, id), id) {
      RenamingAccounted(s, i);
    } else {
      LoggedNext(s.log, s.procs[i].pc.event, id);
    }
  }

  /** What an action does to the todo of its own command. */
  lemma {:induction false} ActKeepsAccounted(s: State, a: Action)
    requires Orderly(s) && a.i < |s.procs|
    ensures var s', id := Act(s, a), s.procs[a.i].cmd.id;
      Accounted(s', id) && OnItsWay(s', s'.procs[a.i]) && (id in s'.table ==> s'.table[id].todoId == id)
  {
    var id := s.procs[a.i].cmd.id;
    assert OnItsWay(s, s.procs[a.i]) && Accounted(s, id);
    if a.Go? {
      match s.procs[a.i].pc {
        case Idle => if id !in s.table { NoEventsUnlogged(s.log, id); }
        case Written(_) => AppendAccounted(s, a.i);
        case _ =>
      }
    }
  }

  lemma {:induction false} OthersOnTheirWay(s: State, a: Action, k: nat)
    requires Orderly(s) && MayBegin(s, a) && a.i < |s.procs| && k < |s.procs| && k != a.i
    ensures OnItsWay(Act(s, a), s.procs[k])
  {
    var p := s.procs[a.i];
    assert OnItsWay(s, s.procs[k]) && OnItsWay(s, p);
    if InFlight(s.procs[k]) && (p.pc.Idle? || InFlight(p)) {
      assert s.procs[k].cmd.id != p.cmd.id;
      ActElsewhere(s, a, s.procs[k].cmd.id);
    }
  }

  lemma {:induction false} ActKeepsOrderly(s: State, a: Action)
    requires Orderly(s) && MayBegin(s, a)
    ensures Orderly(Act(s, a))
  {
    var s' := Act(s, a);
    if a.i < |s.procs| {
      ActChanges(s, a);
      ActKeepsAccounted(s, a);
      assert OnItsWay(s, s.procs[a.i]);
      forall id | id != s.procs[a.i].cmd.id
        ensures Accounted(s', id) && (id in s'.table ==> s'.table[id].todoId == id)
      {
        assert Accounted(s, id);
        ActElsewhere(s, a, id);
      }
      forall k | 0 <= k < |s.procs| ensures OnItsWay(s', s'.procs[k]) {
        if k != a.i {
          OthersOnTheirWay(s, a, k);
        }
      }
      assert InFlight(s'.procs[a.i]) ==> s.procs[a.i].pc.Idle? || InFlight(s.procs[a.i]);
    }
  }

  lemma {:induction false} RunKeepsOrderly(s: State, actions: seq<Action>)
    requires Orderly(s) && OneAtATime(s, actions)
    ensures Orderly(RunAll(s, actions))
    decreases |actions|
  {
    if actions != [] {
      ActKeepsOrderly(s, actions[0]);
      RunKeepsOrderly(Act(s, actions[0]), actions[1..]);
    }
  }

  lemma {:induction false} SettledOrderly(s: State)
    requires Settled(s)
    ensures Orderly(s)
  {
    forall id ensures Accounted(s, id) {
      assert Agrees(s.table, EventsOf(s.log, id), id);
    }
  }

  /** With one write per todo in flight and any statement failing at any time: a
      todo whose creation was logged differs from its events in the title at
      most. Appending the event of a renaming brings the two together again,
      whatever failed before; failing to append it leaves them together exactly
      when the title was the logged one anyway. */
  lemma {:induction false} AppendDecides(s: State, before: seq<Action>, i: nat)
    requires Settled(s) && OneAtATime(s, before) && i < |s.procs|
    requires var now := RunAll(s, before);
      now.procs[i].pc.Written? && now.procs[i].cmd.RenameTodo? && CreationLogged(now.log, now.procs[i].cmd.id)
    ensures var now := RunAll(s, before); var cmd, done, torn := now.procs[i].cmd, Act(now, Go(i)), Act(now, Raise(i));
      && SameButTitle(now.table, EventsOf(now.log, cmd.id), cmd.id)
      && Agrees(done.table, EventsOf(done.log, cmd.id), cmd.id)
      && (Agrees(torn.table, EventsOf(torn.log, cmd.id), cmd.id) <==>
        Rebuilt(EventsOf(now.log, cmd.id)).value.title == cmd.title)
  {
    SettledOrderly(s);
    RunKeepsOrderly(s, before);
    var now := RunAll(s, before);
    assert OnItsWay(now, now.procs[i]) && Accounted(now, now.procs[i].cmd.id);
    RenamingAccounted(now, i);
  }

  ghost predicate Elsewhere(s: State, actions: seq<Action>, id: string) {
    forall a :: a in actions && a.i < |s.procs| ==> s.procs[a.i].cmd.id != id
  }

  /** Until another command on that todo goes on, what a failure left stays. */
  lemma {:induction false} NobodyElseRepairs(s: State, actions: seq<Action>, id: string)
    requires Orderly(s) && OneAtATime(s, actions) && Elsewhere(s, actions, id)
    ensures var s' := RunAll(s, actions);
      Agrees(s'.table, EventsOf(s'.log, id), id) <==> Agrees(s.table, EventsOf(s.log, id), id)
    decreases |actions|
  {
    if actions != [] {
      var a, s' := actions[0], Act(s, actions[0]);
      assert a in actions && forall b :: b in actions[1..] ==> b in actions;
      ActKeepsOrderly(s, a);
      ActChanges(s, a);
      if a.i < |s.procs| {
        assert OnItsWay(s, s.procs[a.i]);
        ActElsewhere(s, a, id);
      }
      NobodyElseRepairs(s', actions[1..], id);
    }
  }
}
