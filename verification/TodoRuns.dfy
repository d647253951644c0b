/** Write commands of the todo service running concurrently.

    Each database statement is a transaction of its own (demo/todo.py:42-75,
    anywise/messages/eventstore.py:15-18), so a creation is two steps - insert
    the row, append the event - and a renaming is three - read the row, update
    it, append the event (demo/todo.py:94-114). A command that is never
    scheduled again stands for one that stopped half-way. */
module TodoRuns {
  import opened Basics
  import opened Events
  import opened Todo

  datatype Command =
    | CreateTodo(id: string, title: string, content: string)
    | RenameTodo(id: string, title: string)

  datatype Pc =
    | Idle
    | Loaded(todo: TodoRow)   // row read and retitled in memory
    | Written(event: Event)   // table written, event not yet appended
    | Done
    | Rejected

  datatype Proc = Proc(cmd: Command, pc: Pc)

  datatype State = State(table: Table, log: Log, procs: seq<Proc>)

  function EventOf(cmd: Command): Event {
    match cmd
    case CreateTodo(id, title, content) => Event(id, Created(title, content))
    case RenameTodo(id, title) => Event(id, Retitled(title))
  }

  function Retitle(table: Table, todo: TodoRow): Table {
    if todo.todoId in table then table[todo.todoId := table[todo.todoId].(title := todo.title)] else table
  }

  function Step(s: State, i: nat): (s': State)
    ensures |s'.procs| == |s.procs|
  {
    if i >= |s.procs| then s else
      var cmd := s.procs[i].cmd;
      match s.procs[i].pc
      case Idle =>
        if cmd.CreateTodo? then
          if cmd.id in s.table then s.(procs := s.procs[i := Proc(cmd, Rejected)])
          else s.(table := s.table[cmd.id := TodoRow(cmd.id, cmd.title, cmd.content, false)],
                  procs := s.procs[i := Proc(cmd, Written(EventOf(cmd)))])
        else
          if cmd.id !in s.table then s.(procs := s.procs[i := Proc(cmd, Rejected)])
          else s.(procs := s.procs[i := Proc(cmd, Loaded(s.table[cmd.id].(title := cmd.title)))])
      case Loaded(todo) =>
        s.(table := Retitle(s.table, todo), procs := s.procs[i := Proc(cmd, Written(EventOf(cmd)))])
      case Written(event) =>
        s.(log := s.log + [event], procs := s.procs[i := Proc(cmd, Done)])
      case _ => s
  }

  function Run(s: State, schedule: seq<nat>): (s': State)
    ensures |s'.procs| == |s.procs|
    decreases |schedule|
  {
    if schedule == [] then s else Run(Step(s, schedule[0]), schedule[1..])
  }

  predicate InFlight(p: Proc) {
    p.pc.Loaded? || p.pc.Written?
  }

  ghost predicate Quiescent(s: State) {
    forall i :: 0 <= i < |s.procs| ==> !InFlight(s.procs[i])
  }

  ghost predicate Clear(s: State, id: string) {
    forall i :: 0 <= i < |s.procs| && s.procs[i].pc.Written? ==> s.procs[i].cmd.id != id
  }

  /** Commands in flight on one todo, if there are several, would all set the same title. */
  ghost predicate Calm(s: State) {
    forall i, j :: 0 <= i < |s.procs| && 0 <= j < |s.procs| && i != j ==> Compatible(s.procs[i], s.procs[j])
  }

  predicate Compatible(p: Proc, q: Proc) {
    InFlight(p) && InFlight(q) && p.cmd.id == q.cmd.id ==> p.cmd.RenameTodo? && p.cmd == q.cmd
  }

  ghost predicate ProcFits(s: State, i: nat)
    requires i < |s.procs|
  {
    var cmd := s.procs[i].cmd;
    match s.procs[i].pc
    case Loaded(todo) => cmd.RenameTodo? && cmd.id in s.table && todo == s.table[cmd.id].(title := cmd.title)
    case Written(event) => event == EventOf(cmd) && Agrees(s.table, EventsOf(s.log, cmd.id) + [event], cmd.id)
    case _ => true
  }

  /** The table holds what the log rebuilds, or what it rebuilds after the one
      event in flight: it is never behind, and ahead by that event at most. */
  ghost predicate Inv(s: State) {
    && (forall id, row :: id in s.table && s.table[id] == row ==> row.todoId == id)
    && (forall i :: 0 <= i < |s.procs| ==> ProcFits(s, i))
    && (forall id :: Clear(s, id) ==> Agrees(s.table, EventsOf(s.log, id), id))
  }

  lemma {:induction false} AgreesElsewhere(table: Table, table': Table, events: Log, id: string)
    requires Agrees(table, events, id)
    requires id in table <==> id in table'
    requires id in table ==> table[id] == table'[id]
    ensures Agrees(table', events, id)
  {
  }

  /** Setting the title a second time changes neither the row nor what is rebuilt. */
  lemma {:induction false} RetitlingTwice(table: Table, events: Log, id: string, title: string)
    requires Agrees(table, events + [Event(id, Retitled(title))], id) && id in table
    ensures table[id].title == title && table[id := table[id].(title := title)] == table
    ensures Agrees(table, events + [Event(id, Retitled(title))] + [Event(id, Retitled(title))], id)
  {
    var e := Event(id, Retitled(title));
    var longer := events + [e];
    assert longer[|events|] == e;
    assert events != [];
    RebuiltSnoc(events, e);
    AgreesRetitled(table, longer, id, title);
    assert table[id := table[id].(title := title)] == table;
  }

  lemma {:induction false} CreationKeepsInv(s: State, i: nat)
    requires Inv(s) && i < |s.procs| && s.procs[i].pc.Idle? && s.procs[i].cmd.CreateTodo? &&
      s.procs[i].cmd.id !in s.table
    ensures Inv(Step(s, i))
  {
    var s', cmd := Step(s, i), s.procs[i].cmd;
    forall j | 0 <= j < |s.procs| && InFlight(s.procs[j]) ensures s.procs[j].cmd.id != cmd.id {
      assert ProcFits(s, j);
    }
    assert Clear(s, cmd.id);
    assert EventsOf(s.log, cmd.id) + [EventOf(cmd)] == [EventOf(cmd)];
    AgreesCreated(s.table, cmd.id, cmd.title, cmd.content);
    forall j | 0 <= j < |s.procs| ensures ProcFits(s', j) {
      assert ProcFits(s, j);
    }
    forall id | Clear(s', id) ensures Agrees(s'.table, EventsOf(s'.log, id), id) {
      assert s'.procs[i].pc.Written?;
      assert id != cmd.id;
      assert Clear(s, id) by {
        forall k | 0 <= k < |s.procs| && s.procs[k].pc.Written? ensures s.procs[k].cmd.id != id {
          assert s'.procs[k] == s.procs[k];
        }
      }
      AgreesElsewhere(s.table, s'.table, EventsOf(s.log, id), id);
    }
  }

  lemma {:induction false} ReadingKeepsInv(s: State, i: nat)
    requires Inv(s) && i < |s.procs| && s.procs[i].pc.Idle?
    requires s.procs[i].cmd.id in s.table <==> s.procs[i].cmd.RenameTodo?
    requires s.procs[i].cmd.RenameTodo?
    ensures Inv(Step(s, i))
  {
    var s' := Step(s, i);
    forall j | 0 <= j < |s.procs| ensures ProcFits(s', j) {
      assert ProcFits(s, j);
    }
    forall id | Clear(s', id) ensures Agrees(s'.table, EventsOf(s'.log, id), id) {
      SameWritten(s, s', i, id);
    }
  }

  /** A step that starts no table write and ends none leaves a todo as clear as it was. */
  lemma {:induction false} SameWritten(s: State, s': State, i: nat, id: string)
    requires |s.procs| == |s'.procs| && i < |s.procs|
    requires forall k :: 0 <= k < |s.procs| && k != i ==> s'.procs[k] == s.procs[k]
    requires s.procs[i].pc.Written? && s.procs[i].cmd.id == id ==> s'.procs[i].pc.Written? && s'.procs[i].cmd.id == id
    requires Clear(s', id)
    ensures Clear(s, id)
  {
    forall k | 0 <= k < |s.procs| && s.procs[k].pc.Written? ensures s.procs[k].cmd.id != id {
      assert k != i ==> s'.procs[k] == s.procs[k];
    }
  }

  lemma {:induction false} UpdateKeepsInv(s: State, i: nat)
    requires Inv(s) && Calm(s) && i < |s.procs| && s.procs[i].pc.Loaded?
    ensures Inv(Step(s, i))
  {
    var s', cmd := Step(s, i), s.procs[i].cmd;
    assert ProcFits(s, i);
    var row := s.table[cmd.id];
    assert s'.table == s.table[cmd.id := row.(title := cmd.title)];
    var mine := EventsOf(s.log, cmd.id);
    if Clear(s, cmd.id) {
      AgreesRetitled(s.table, mine, cmd.id, cmd.title);
    } else {
      var k :| 0 <= k < |s.procs| && s.procs[k].pc.Written? && s.procs[k].cmd.id == cmd.id;
      assert ProcFits(s, k) && Compatible(s.procs[k], s.procs[i]);
      RetitlingTwice(s.table, mine, cmd.id, cmd.title);
    }
    assert Agrees(s'.table, mine + [EventOf(cmd)], cmd.id);
    forall j | 0 <= j < |s.procs| ensures ProcFits(s', j) {
      assert ProcFits(s, j) && (j != i ==> Compatible(s.procs[j], s.procs[i]));
      if j != i && s.procs[j].pc.Written? && s.procs[j].cmd.id != cmd.id {
        AgreesElsewhere(s.table, s'.table, EventsOf(s.log, s.procs[j].cmd.id) + [s.procs[j].pc.event],
          s.procs[j].cmd.id);
      }
    }
    forall id | Clear(s', id) ensures Agrees(s'.table, EventsOf(s'.log, id), id) {
      assert s'.procs[i].pc.Written?;
      SameWritten(s, s', i, id);
      AgreesElsewhere(s.table, s'.table, EventsOf(s.log, id), id);
    }
  }

  lemma {:induction false} AppendKeepsInv(s: State, i: nat)
    requires Inv(s) && Calm(s) && i < |s.procs| && s.procs[i].pc.Written?
    ensures Inv(Step(s, i))
  {
    var s', cmd, e := Step(s, i), s.procs[i].cmd, s.procs[i].pc.event;
    assert ProcFits(s, i);
    forall j | 0 <= j < |s.procs| ensures ProcFits(s', j) {
      assert ProcFits(s, j) && (j != i ==> Compatible(s.procs[j], s.procs[i]));
      EventsOfSnoc(s.log, e, s.procs[j].cmd.id);
      if j != i && s.procs[j].pc.Written? {
        if s.procs[j].cmd.id == cmd.id {
          assert cmd == s.procs[j].cmd && e == Event(cmd.id, Retitled(cmd.title)) == s.procs[j].pc.event;
          RetitlingTwice(s.table, EventsOf(s.log, cmd.id), cmd.id, cmd.title);
        } else {
          assert EventsOf(s'.log, s.procs[j].cmd.id) == EventsOf(s.log, s.procs[j].cmd.id);
        }
      }
    }
    forall id | Clear(s', id) ensures Agrees(s'.table, EventsOf(s'.log, id), id) {
      EventsOfSnoc(s.log, e, id);
      if id != cmd.id {
        SameWritten(s, s', i, id);
        assert EventsOf(s'.log, id) == EventsOf(s.log, id);
      }
    }
  }

  lemma {:induction false} RejectionKeepsInv(s: State, i: nat)
    requires Inv(s) && i < |s.procs| && s.procs[i].pc.Idle? && Step(s, i).procs[i].pc.Rejected?
    ensures Inv(Step(s, i))
  {
    var s' := Step(s, i);
    forall j | 0 <= j < |s.procs| ensures ProcFits(s', j) {
      assert ProcFits(s, j);
    }
    forall id | Clear(s', id) ensures Agrees(s'.table, EventsOf(s'.log, id), id) {
      SameWritten(s, s', i, id);
    }
  }

  lemma {:induction false} StepKeepsInv(s: State, i: nat)
    requires Inv(s) && Calm(s)
    ensures Inv(Step(s, i))
  {
    if i < |s.procs| {
      match s.procs[i].pc {
        case Idle =>
          if Step(s, i).procs[i].pc.Rejected? {
            RejectionKeepsInv(s, i);
          } else if s.procs[i].cmd.CreateTodo? {
            CreationKeepsInv(s, i);
          } else {
            ReadingKeepsInv(s, i);
          }
        case Loaded(_) => UpdateKeepsInv(s, i);
        case Written(_) => AppendKeepsInv(s, i);
        case _ =>
      }
    }
  }

  /** Every state along the way is calm. */
  ghost predicate CalmRun(s: State, schedule: seq<nat>)
    decreases |schedule|
  {
    Calm(s) && (schedule == [] || CalmRun(Step(s, schedule[0]), schedule[1..]))
  }

  lemma {:induction false} CalmRunKeepsInv(s: State, schedule: seq<nat>)
    requires Inv(s) && CalmRun(s, schedule)
    ensures Inv(Run(s, schedule)) && Calm(Run(s, schedule))
    decreases |schedule|
  {
    if schedule != [] {
      StepKeepsInv(s, schedule[0]);
      CalmRunKeepsInv(Step(s, schedule[0]), schedule[1..]);
    }
  }

  /** At most one command in flight per todo. */
  ghost predicate OnePerTodo(s: State) {
    forall i, j ::
      0 <= i < |s.procs| && 0 <= j < |s.procs| && i != j && InFlight(s.procs[i]) && InFlight(s.procs[j]) ==>
      s.procs[i].cmd.id != s.procs[j].cmd.id
  }

  /** A schedule that starts a command only while no other is in flight on its todo. */
  ghost predicate Disciplined(s: State, schedule: seq<nat>)
    decreases |schedule|
  {
    schedule == [] || (
      && (schedule[0] < |s.procs| && s.procs[schedule[0]].pc.Idle? ==>
           forall j :: 0 <= j < |s.procs| && j != schedule[0] && InFlight(s.procs[j]) ==>
             s.procs[j].cmd.id != s.procs[schedule[0]].cmd.id)
      && Disciplined(Step(s, schedule[0]), schedule[1..]))
  }

  lemma {:induction false} DisciplinedIsCalm(s: State, schedule: seq<nat>)
    requires OnePerTodo(s) && Disciplined(s, schedule)
    ensures CalmRun(s, schedule)
    decreases |schedule|
  {
    if schedule != [] {
      assert OnePerTodo(Step(s, schedule[0]));
      DisciplinedIsCalm(Step(s, schedule[0]), schedule[1..]);
    }
  }

  /** Nothing has begun, and table and log are in step. */
  ghost predicate Settled(s: State) {
    && (forall i :: 0 <= i < |s.procs| ==> s.procs[i].pc.Idle?)
    && (forall id, row :: id in s.table && s.table[id] == row ==> row.todoId == id)
    && InStep(s.table, s.log)
  }

  lemma {:induction false} SettledInv(s: State)
    requires Settled(s)
    ensures Inv(s)
  {
  }

  /** With at most one write per todo in flight, at every moment of every run:
      a todo nobody is writing has the row its events rebuild, and a todo being
      written has the row they rebuild once the event in flight is appended. */
  lemma {:induction false} TableAheadByInFlightEvent(s: State, schedule: seq<nat>)
    requires Settled(s) && Disciplined(s, schedule)
    ensures var s' := Run(s, schedule);
            && (forall id :: Clear(s', id) ==> Agrees(s'.table, EventsOf(s'.log, id), id))
            && (forall i :: 0 <= i < |s'.procs| && s'.procs[i].pc.Written? ==> var id := s'.procs[i].cmd.id;
                  Agrees(s'.table, EventsOf(s'.log, id) + [EventOf(s'.procs[i].cmd)], id))
            && (Quiescent(s') ==> InStep(s'.table, s'.log))
  {
    SettledInv(s);
    DisciplinedIsCalm(s, schedule);
    CalmRunKeepsInv(s, schedule);
    var s' := Run(s, schedule);
    forall i | 0 <= i < |s'.procs| && s'.procs[i].pc.Written?
      ensures var id := s'.procs[i].cmd.id; Agrees(s'.table, EventsOf(s'.log, id) + [EventOf(s'.procs[i].cmd)], id)
    {
      assert ProcFits(s', i);
    }
    if Quiescent(s') {
      forall id ensures Agrees(s'.table, EventsOf(s'.log, id), id) {
        assert Clear(s', id);
      }
    }
  }

  // ------------------------------------------------- which commands may overlap

  /** What a caller can check before letting commands overlap freely: renamings of
      one existing todo agree on the title, and no todo is renamed while it is created. */
  ghost predicate RaceFree(table: Table, procs: seq<Proc>) {
    forall i, j :: 0 <= i < |procs| && 0 <= j < |procs| && i != j ==> MayOverlap(table, procs[i].cmd, procs[j].cmd)
  }

  predicate MayOverlap(table: Table, a: Command, b: Command) {
    a.id == b.id ==>
      && (a.RenameTodo? && b.RenameTodo? && a.id in table ==> a == b)
      && (a.CreateTodo? && b.RenameTodo? ==> a.id in table)
  }

  ghost predicate CreatedHere(procs: seq<Proc>, id: string) {
    exists k :: 0 <= k < |procs| && procs[k].cmd.CreateTodo? && procs[k].cmd.id == id
  }

  ghost predicate BeganLater(p: Proc, table: Table, initial: Table) {
    InFlight(p) ==> p.cmd.id in table && (p.cmd.CreateTodo? ==> p.cmd.id !in initial)
  }

  ghost predicate NotBothCreating(p: Proc, q: Proc) {
    InFlight(p) && InFlight(q) && p.cmd.CreateTodo? && q.cmd.CreateTodo? ==> p.cmd.id != q.cmd.id
  }

  /** What holds along any run that began with this table. */
  ghost predicate Traceable(s: State, initial: Table) {
    && (forall id :: id in initial ==> id in s.table)
    && (forall id :: id in s.table ==> id in initial || CreatedHere(s.procs, id))
    && (forall i :: 0 <= i < |s.procs| ==> BeganLater(s.procs[i], s.table, initial))
    && (forall i, j :: 0 <= i < |s.procs| && 0 <= j < |s.procs| && i != j ==> NotBothCreating(s.procs[i], s.procs[j]))
  }

  lemma {:induction false} StepKeepsCommands(s: State, i: nat, k: nat)
    requires k < |s.procs|
    ensures Step(s, i).procs[k].cmd == s.procs[k].cmd
    ensures k != i ==> Step(s, i).procs[k] == s.procs[k]
  {
  }

  lemma {:induction false} StepOnlyCreates(s: State, i: nat, id: string)
    ensures id in s.table ==> id in Step(s, i).table
    ensures id in Step(s, i).table && id !in s.table ==>
      i < |s.procs| && s.procs[i].cmd.CreateTodo? && s.procs[i].cmd.id == id && s.procs[i].pc.Idle?
  {
  }

  lemma {:induction false} StepIsTraceable(s: State, initial: Table, i: nat)
    requires Traceable(s, initial)
    ensures Traceable(Step(s, i), initial)
  {
    var s' := Step(s, i);
    forall id | id in initial ensures id in s'.table {
      StepOnlyCreates(s, i, id);
    }
    forall id | id in s'.table ensures id in initial || CreatedHere(s'.procs, id) {
      StepOnlyCreates(s, i, id);
      if id !in initial {
        var k :| 0 <= k < |s.procs| && s.procs[k].cmd.CreateTodo? && s.procs[k].cmd.id == id;
        StepKeepsCommands(s, i, k);
      }
    }
    forall k | 0 <= k < |s.procs| ensures BeganLater(s'.procs[k], s'.table, initial) {
      assert BeganLater(s.procs[k], s.table, initial);
      StepOnlyCreates(s, i, s.procs[k].cmd.id);
    }
    forall j, k | 0 <= j < |s.procs| && 0 <= k < |s.procs| && j != k
      ensures NotBothCreating(s'.procs[j], s'.procs[k])
    {
      assert NotBothCreating(s.procs[j], s.procs[k]);
      assert BeganLater(s.procs[j], s.table, initial) && BeganLater(s.procs[k], s.table, initial);
    }
  }

  lemma {:induction false} RenamedExisted(s: State, initial: Table, i: nat)
    requires Traceable(s, initial) && RaceFree(initial, s.procs)
    requires i < |s.procs| && InFlight(s.procs[i]) && s.procs[i].cmd.RenameTodo?
    ensures s.procs[i].cmd.id in initial
  {
    var id := s.procs[i].cmd.id;
    assert BeganLater(s.procs[i], s.table, initial);
    if CreatedHere(s.procs, id) {
      var k :| 0 <= k < |s.procs| && s.procs[k].cmd.CreateTodo? && s.procs[k].cmd.id == id;
      assert MayOverlap(initial, s.procs[k].cmd, s.procs[i].cmd);
    }
  }

  lemma {:induction false} RaceFreeIsCalm(s: State, initial: Table)
    requires Traceable(s, initial) && RaceFree(initial, s.procs)
    ensures Calm(s)
  {
    forall i, j | 0 <= i < |s.procs| && 0 <= j < |s.procs| && i != j ensures Compatible(s.procs[i], s.procs[j]) {
      var p, q := s.procs[i], s.procs[j];
      if InFlight(p) && InFlight(q) && p.cmd.id == q.cmd.id {
        assert MayOverlap(initial, p.cmd, q.cmd) && MayOverlap(initial, q.cmd, p.cmd);
        assert BeganLater(p, s.table, initial) && BeganLater(q, s.table, initial) && NotBothCreating(p, q);
        if p.cmd.RenameTodo? {
          RenamedExisted(s, initial, i);
        }
      }
    }
  }

  lemma {:induction false} RaceFreeRunIsCalm(s: State, initial: Table, schedule: seq<nat>)
    requires Traceable(s, initial) && RaceFree(initial, s.procs)
    ensures CalmRun(s, schedule)
    decreases |schedule|
  {
    RaceFreeIsCalm(s, initial);
    if schedule != [] {
      var next := Step(s, schedule[0]);
      StepIsTraceable(s, initial, schedule[0]);
      forall i, j | 0 <= i < |next.procs| && 0 <= j < |next.procs| && i != j
        ensures MayOverlap(initial, next.procs[i].cmd, next.procs[j].cmd)
      {
        assert MayOverlap(initial, s.procs[i].cmd, s.procs[j].cmd);
        StepKeepsCommands(s, schedule[0], i);
        StepKeepsCommands(s, schedule[0], j);
      }
      RaceFreeRunIsCalm(next, initial, schedule[1..]);
    }
  }

  lemma {:induction false} RunOne(s: State, i: nat, rest: seq<nat>)
    ensures Run(s, [i] + rest) == Run(Step(s, i), rest)
  {
    assert ([i] + rest)[1..] == rest;
  }

  lemma {:induction false} RunSix(s: State, a: nat, b: nat, c: nat, d: nat, e: nat, f: nat)
    ensures Run(s, [a, b, c, d, e, f]) == Step(Step(Step(Step(Step(Step(s, a), b), c), d), e), f)
  {
    var s1 := Step(s, a);
    var s2 := Step(s1, b);
    var s3 := Step(s2, c);
    var s4 := Step(s3, d);
    var s5 := Step(s4, e);
    assert [a, b, c, d, e, f] == [a] + ([b] + ([c] + ([d] + ([e] + ([f] + [])))));
    RunOne(s, a, [b] + ([c] + ([d] + ([e] + ([f] + [])))));
    RunOne(s1, b, [c] + ([d] + ([e] + ([f] + []))));
    RunOne(s2, c, [d] + ([e] + ([f] + [])));
    RunOne(s3, d, [e] + ([f] + []));
    RunOne(s4, e, [f] + []);
    RunOne(s5, f, []);
  }

  /** A command scheduled without interruption does what the service method promises. */
  lemma {:induction false} UninterruptedIsTheService(s: State, i: nat)
    requires i < |s.procs| && s.procs[i].pc.Idle?
    requires forall id, row :: id in s.table && s.table[id] == row ==> row.todoId == id
    ensures var cmd, s' := s.procs[i].cmd, Run(s, [i, i, i]); var known := cmd.id in s.table;
            if cmd.CreateTodo? == known then
              s' == s.(procs := s.procs[i := Proc(cmd, Rejected)])
            else
              && s'.procs == s.procs[i := Proc(cmd, Done)]
              && s'.log == s.log + [EventOf(cmd)]
              && s'.table == s.table[cmd.id := if known then s.table[cmd.id].(title := cmd.title)
                                                else TodoRow(cmd.id, cmd.title, cmd.content, false)]
  {
    var s1 := Step(s, i);
    var s2 := Step(s1, i);
    assert [i, i, i] == [i] + ([i] + ([i] + []));
    RunOne(s, i, [i] + ([i] + []));
    RunOne(s1, i, [i] + []);
    RunOne(s2, i, []);
  }

  lemma {:induction false} LastTitleCounts(table: Table, events: Log, id: string, title: string)
    requires events != [] && id in table && table[id].title != title
    ensures !Agrees(table, events + [Event(id, Retitled(title))], id)
  {
    RebuiltSnoc(events, Event(id, Retitled(title)));
  }

  /** Renaming `i` updates the row first, renaming `j` second, but `j` is appended
      first: the table keeps the title of `j`, the log ends with that of `i`. */
  lemma {:induction false} RacingRenamesDiverge(s: State, i: nat, j: nat)
    requires Settled(s) && i < |s.procs| && j < |s.procs| && i != j
    requires s.procs[i].cmd.RenameTodo? && s.procs[j].cmd.RenameTodo? && s.procs[i].cmd != s.procs[j].cmd
    requires s.procs[i].cmd.id == s.procs[j].cmd.id && s.procs[i].cmd.id in s.table
    ensures var s' := Run(s, [i, i, j, j, j, i]); Quiescent(s') && !InStep(s'.table, s'.log)
  {
    var a, b, id := s.procs[i].cmd, s.procs[j].cmd, s.procs[i].cmd.id;
    var row := s.table[id];
    var s2 := Step(Step(s, i), i);
    assert s2.table == s.table[id := row.(title := a.title)] && s2.log == s.log;
    assert s2.procs == s.procs[i := Proc(a, Written(EventOf(a)))];
    var s4 := Step(Step(s2, j), j);
    assert s4.table[id].title == b.title && s4.log == s.log;
    assert s4.procs == s2.procs[j := Proc(b, Written(EventOf(b)))];
    var s6 := Step(Step(s4, j), i);
    assert s6.table == s4.table && s6.log == s.log + [EventOf(b)] + [EventOf(a)];
    RunSix(s, i, i, j, j, j, i);
    EventsOfSnoc(s.log, EventOf(b), id);
    EventsOfSnoc(s.log + [EventOf(b)], EventOf(a), id);
    LastTitleCounts(s6.table, EventsOf(s.log, id) + [EventOf(b)], id, a.title);
    assert !Agrees(s6.table, EventsOf(s6.log, id), id);
  }

  /** The new row is visible before its creation is logged, so a renaming can be
      logged ahead of it. */
  lemma {:induction false} RenameDuringCreateDiverges(s: State, i: nat, j: nat)
    requires Settled(s) && i < |s.procs| && j < |s.procs|
    requires s.procs[i].cmd.CreateTodo? && s.procs[j].cmd.RenameTodo?
    requires s.procs[i].cmd.id == s.procs[j].cmd.id && s.procs[i].cmd.id !in s.table
    ensures var s' := Run(s, [i, j, j, j, i, i]); Quiescent(s') && !InStep(s'.table, s'.log)
  {
    var a, b, id := s.procs[i].cmd, s.procs[j].cmd, s.procs[i].cmd.id;
    var s1 := Step(s, i);
    assert s1.procs == s.procs[i := Proc(a, Written(EventOf(a)))] && s1.log == s.log && id in s1.table;
    var s3 := Step(Step(s1, j), j);
    assert s3.procs == s1.procs[j := Proc(b, Written(EventOf(b)))] && s3.log == s.log;
    var s6 := Step(Step(Step(s3, j), i), i);
    assert s6.log == s.log + [EventOf(b)] + [EventOf(a)];
    RunSix(s, i, j, j, j, i, i);
    EventsOfSnoc(s.log, EventOf(b), id);
    EventsOfSnoc(s.log + [EventOf(b)], EventOf(a), id);
    assert Agrees(s.table, EventsOf(s.log, id), id);
    assert EventsOf(s6.log, id)[0] == EventOf(b);
    assert !Agrees(s6.table, EventsOf(s6.log, id), id);
  }

  /** Freely overlapping commands leave table and log in step at every quiet
      moment of every schedule exactly when they are free of races. */
  lemma {:induction false} AlwaysInStepIffRaceFree(s: State)
    requires Settled(s)
    ensures (forall schedule: seq<nat> :: Quiescent(Run(s, schedule)) ==>
      InStep(Run(s, schedule).table, Run(s, schedule).log))
       <==> RaceFree(s.table, s.procs)
  {
    if RaceFree(s.table, s.procs) {
      forall schedule: seq<nat> | Quiescent(Run(s, schedule))
        ensures InStep(Run(s, schedule).table, Run(s, schedule).log)
      {
        SettledInv(s);
        RaceFreeRunIsCalm(s, s.table, schedule);
        CalmRunKeepsInv(s, schedule);
        var s' := Run(s, schedule);
        forall id ensures Agrees(s'.table, EventsOf(s'.log, id), id) {
          assert Clear(s', id);
        }
      }
    } else {
      var i, j :| 0 <= i < |s.procs| && 0 <= j < |s.procs| && i != j &&
        !MayOverlap(s.table, s.procs[i].cmd, s.procs[j].cmd);
      if s.procs[i].cmd.RenameTodo? {
        RacingRenamesDiverge(s, i, j);
      } else {
        RenameDuringCreateDiverges(s, i, j);
      }
    }
  }
}
