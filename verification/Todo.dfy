/** A todo, its reconstruction from events, and the service that keeps a table
    of todos and a log of events (demo/message.py:59-81, demo/todo.py:42-120). */
module Todo {
  import opened Basics
  import opened Events
  import opened EventStore

  datatype TodoRow = TodoRow(todoId: string, title: string, content: string, isCompleted: bool)

  datatype TodoError =
    | IndexError        // rebuilding from no events
    | TypeError         // a retitling applied to the class instead of a todo
    | IntegrityError    // the table already has a row for this id
    | KeyError          // no row for this id

  function TitleAfter(title: string, events: Log): string {
    if events == [] then title
    else match Last(events).payload
      case Retitled(t) => t
      case Created(_, _) => TitleAfter(title, events[..|events| - 1])
  }

  /** What rebuilding means: the first event creates, the last retitling decides the title. */
  function Rebuilt(events: Log): Result<TodoRow, TodoError> {
    if events == [] then Err(IndexError)
    else match events[0].payload
      case Retitled(_) => Err(TypeError)
      case Created(title, content) =>
        Ok(TodoRow(events[0].entityId, TitleAfter(title, events[1..]), content, false))
  }

  ghost predicate LastRetitled(events: Log, k: int, title: string) {
    0 <= k < |events| && events[k].payload == Retitled(title) && forall j :: k < j < |events| ==>
      events[j].payload.Created?
  }

  /** The title is that of the last retitling or, without one, that of the creation. */
  ghost predicate Entitles(events: Log, title: string)
    requires events != [] && events[0].payload.Created?
  {
    || (exists k :: LastRetitled(events, k, title))
    || ((forall j :: 0 < j < |events| ==> events[j].payload.Created?) && title == events[0].payload.title)
  }

  lemma {:induction false} LastRetitling(title: string, events: Log)
    ensures var after := TitleAfter(title, events);
      || (exists k :: LastRetitled(events, k, after))
      || ((forall j :: 0 <= j < |events| ==> events[j].payload.Created?) && after == title)
  {
    if events != [] {
      var n := |events| - 1;
      if events[n].payload.Retitled? {
        assert LastRetitled(events, n, events[n].payload.title);
      } else {
        LastRetitling(title, events[..n]);
        if k :| LastRetitled(events[..n], k, TitleAfter(title, events)) {
          assert LastRetitled(events, k, TitleAfter(title, events));
        }
      }
    }
  }

  /** Rebuilding without events, or from a retitling, raises; otherwise the todo is
      the one created, under the title of its last retitling. */
  lemma {:induction false} RebuiltIs(events: Log)
    ensures events == [] ==> Rebuilt(events) == Err(IndexError)
    ensures events != [] && events[0].payload.Retitled? ==> Rebuilt(events) == Err(TypeError)
    ensures events != [] && events[0].payload.Created? ==> Rebuilt(events).Ok?
    ensures events != [] && events[0].payload.Created? ==>
      var row := Rebuilt(events).value;
      && row.todoId == events[0].entityId && row.content == events[0].payload.content && !row.isCompleted
      && Entitles(events, row.title)
  {
    if events != [] && events[0].payload.Created? {
      var rest, after := events[1..], TitleAfter(events[0].payload.title, events[1..]);
      LastRetitling(events[0].payload.title, rest);
      assert forall j :: 0 < j < |events| ==> events[j] == rest[j - 1];
      if k :| LastRetitled(rest, k, after) {
        assert LastRetitled(events, k + 1, after);
      }
    }
  }

  /** The mutable dataclass. */
  class Todo {
    var todoId: string
    var title: string
    var content: string
    var isCompleted: bool

    constructor (todoId: string, title: string, content: string)
      ensures Row() == TodoRow(todoId, title, content, false)
    {
      this.todoId, this.title, this.content, this.isCompleted := todoId, title, content, false;
    }

    function Row(): TodoRow
      reads this
    {
      TodoRow(todoId, title, content, isCompleted)
    }

    /** `todo.apply(event)`: only a retitling is registered for instances; any
        other event builds a new todo from the class, which the caller drops. */
    method Apply(event: Event)
      modifies this
      ensures Row() == match event.payload
                       case Retitled(t) => old(Row()).(title := t)
                       case Created(_, _) => old(Row())
    {
      match event.payload {
        case Retitled(t) => title := t;
        case Created(_, _) =>
          var dropped := new Todo(event.entityId, event.payload.title, event.payload.content);
      }
    }

    static method Rebuild(events: Log) returns (r: Result<Todo, TodoError>)
      ensures r.Ok? <==> Rebuilt(events).Ok?
      ensures r.Ok? ==> fresh(r.value) && Rebuilt(events) == Ok(r.value.Row())
      ensures r.Err? ==> Rebuilt(events) == Err(r.error)
    {
      if events == [] {
        return Err(IndexError);
      }
      var create, rest := events[0], events[1..];
      if create.payload.Retitled? {
        return Err(TypeError);
      }
      var self := new Todo(create.entityId, create.payload.title, create.payload.content);
      for n := 0 to |rest|
        invariant self.Row()
          == TodoRow(create.entityId, TitleAfter(create.payload.title, rest[..n]), create.payload.content, false)
      {
        assert rest[..n + 1][..n] == rest[..n];
        self.Apply(rest[n]);
      }
      assert rest[..|rest|] == rest;
      return Ok(self);
    }
  }

  lemma {:induction false} RebuiltSnoc(events: Log, e: Event)
    requires events != []
    ensures Rebuilt(events + [e])
         == match Rebuilt(events)
            case Err(error) => Err(error)
            case Ok(row) => Ok(row.(title := TitleAfter(row.title, [e])))
  {
    var rest := events[1..];
    assert (events + [e])[1..] == rest + [e];
    assert (rest + [e])[..|rest|] == rest;
  }

  // ---------------------------------------------------------------- agreement

  type Table = map<string, TodoRow>

  /** One creation first, then nothing but retitlings. */
  ghost predicate Proper(events: Log) {
    forall k :: 0 <= k < |events| ==> (k == 0 <==> events[k].payload.Created?)
  }

  /** The table's row for `id`, if any, is what the events rebuild. */
  ghost predicate Agrees(table: Table, events: Log, id: string) {
    && Proper(events)
    && (id in table <==> events != [])
    && (id in table ==> Rebuilt(events) == Ok(table[id]))
  }

  ghost predicate InStep(table: Table, log: Log) {
    forall id :: Agrees(table, EventsOf(log, id), id)
  }

  lemma {:induction false} AgreesCreated(table: Table, id: string, title: string, content: string)
    ensures Agrees(table[id := TodoRow(id, title, content, false)], [Event(id, Created(title, content))], id)
  {
  }

  lemma {:induction false} AgreesRetitled(table: Table, events: Log, id: string, title: string)
    requires Agrees(table, events, id) && id in table
    ensures Agrees(table[id := table[id].(title := title)], events + [Event(id, Retitled(title))], id)
  {
    RebuiltSnoc(events, Event(id, Retitled(title)));
  }

  // ------------------------------------------------------------------- listing

  /** `[Todo.rebuild(stream) for stream in streams]`, stopping at the first that raises. */
  function RebuiltAll(streams: seq<Log>): Result<seq<TodoRow>, TodoError> {
    if streams == [] then Ok([])
    else match RebuiltAll(streams[..|streams| - 1])
      case Err(error) => Err(error)
      case Ok(rows) =>
        match Rebuilt(streams[|streams| - 1])
        case Err(error) => Err(error)
        case Ok(row) => Ok(rows + [row])
  }

  lemma {:induction false} RebuiltAllAt(streams: seq<Log>)
    ensures RebuiltAll(streams).Ok? <==> forall k :: 0 <= k < |streams| ==> Rebuilt(streams[k]).Ok?
    ensures RebuiltAll(streams).Ok? ==> |RebuiltAll(streams).value| == |streams|
    ensures RebuiltAll(streams).Ok? ==> forall k :: 0 <= k < |streams| ==>
      Rebuilt(streams[k]) == Ok(RebuiltAll(streams).value[k])
  {
    if streams != [] {
      var n := |streams| - 1;
      RebuiltAllAt(streams[..n]);
      if RebuiltAll(streams).Ok? {
        forall k | 0 <= k < |streams| ensures Rebuilt(streams[k]) == Ok(RebuiltAll(streams).value[k]) {
          assert k < n ==> streams[..n][k] == streams[k];
        }
      } else if RebuiltAll(streams[..n]).Err? {
        var k :| 0 <= k < n && !Rebuilt(streams[..n][k]).Ok?;
        assert !Rebuilt(streams[k]).Ok?;
      }
    }
  }

  lemma {:induction false} RebuiltAllStopsAt(streams: seq<Log>, n: nat)
    requires n <= |streams| && RebuiltAll(streams[..n]).Err?
    ensures RebuiltAll(streams) == RebuiltAll(streams[..n])
    decreases |streams| - n
  {
    if n == |streams| {
      assert streams[..n] == streams;
    } else {
      assert streams[..n + 1][..n] == streams[..n];
      RebuiltAllStopsAt(streams, n + 1);
    }
  }

  ghost predicate ProperLog(log: Log) {
    forall id :: Proper(EventsOf(log, id))
  }

  lemma {:induction false} ProperBefore(log: Log, e: Event)
    requires ProperLog(log + [e])
    ensures ProperLog(log)
    ensures e.entityId != "" ==> (e.payload.Created? <==> e.entityId !in FirstSeen(log))
  {
    forall id ensures Proper(EventsOf(log, id)) {
      EventsOfSnoc(log, e, id);
      var longer := EventsOf(log + [e], id);
      assert Proper(longer);
      forall k | 0 <= k < |EventsOf(log, id)| ensures k == 0 <==> EventsOf(log, id)[k].payload.Created? {
        assert longer[k] == EventsOf(log, id)[k];
      }
    }
    EventsOfSnoc(log, e, e.entityId);
    var longer := EventsOf(log + [e], e.entityId);
    assert Proper(longer) && longer[|longer| - 1] == e;
    SeenIffPresent(log, e.entityId);
  }

  ghost predicate AllRebuild(streams: seq<Log>) {
    forall k :: 0 <= k < |streams| ==> Rebuilt(streams[k]).Ok?
  }

  /** With one creation per todo, every stream can be rebuilt exactly when no
      todo's events are interrupted by another todo's. */
  lemma {:induction false} AllRebuildIffUninterrupted(log: Log)
    requires ProperLog(log)
    ensures AllRebuild(Streams(log)) <==> Uninterrupted(log)
    decreases |log|
  {
    if log != [] {
      var before, e := log[..|log| - 1], Last(log);
      assert log == before + [e];
      ProperBefore(before, e);
      AllRebuildIffUninterrupted(before);
      StreamsSnoc(before, e);
      SeenOnce(before);
      SeenIffPresent(before, e.entityId);
      if e.entityId != "" {
        if before != [] && Last(before).entityId == e.entityId {
          StreamGoesOn(before, e);
        } else {
          StreamBegins(before, e);
        }
      }
    }
  }

  lemma {:induction false} StreamGoesOn(log: Log, e: Event)
    requires Streams(log) != []
    requires var n := |Streams(log)| - 1;
      Streams(log)[n] != [] && Streams(log + [e]) == Streams(log)[..n] + [Streams(log)[n] + [e]]
    ensures AllRebuild(Streams(log + [e])) <==> AllRebuild(Streams(log))
  {
    var n, was, now := |Streams(log)| - 1, Streams(log), Streams(log + [e]);
    RebuiltSnoc(was[n], e);
    assert now[n] == was[n] + [e];
    assert forall k :: 0 <= k < n ==> now[k] == was[k];
  }

  lemma {:induction false} StreamBegins(log: Log, e: Event)
    requires Streams(log + [e]) == Streams(log) + [[e]]
    ensures AllRebuild(Streams(log + [e])) <==> AllRebuild(Streams(log)) && e.payload.Created?
  {
    var was, now := Streams(log), Streams(log + [e]);
    assert now[|was|] == [e];
    assert forall k :: 0 <= k < |was| ==> now[k] == was[k];
  }

  /** When the table and the log are in step, listing succeeds exactly when every
      todo's events stand together in the log, and then it returns the table's
      rows, one per named todo, in the order in which the todos first appeared. */
  lemma {:induction false} ListingMatchesTableIffContiguous(table: Table, log: Log)
    requires InStep(table, log)
    ensures RebuiltAll(Streams(log)).Ok? <==> Contiguous(log)
    ensures Contiguous(log) ==>
      var ids := FirstSeen(log);
      && (forall id :: id in ids <==> id in table && id != "")
      && (forall i, j :: 0 <= i < j < |ids| ==> ids[i] != ids[j])
      && |RebuiltAll(Streams(log)).value| == |ids|
      && forall k :: 0 <= k < |ids| ==> ids[k] in table && RebuiltAll(Streams(log)).value[k] == table[ids[k]]
  {
    forall id ensures Proper(EventsOf(log, id)) {
      assert Agrees(table, EventsOf(log, id), id);
    }
    AllRebuildIffUninterrupted(log);
    UninterruptedIffContiguous(log);
    RebuiltAllAt(Streams(log));
    if Contiguous(log) {
      StreamsAreGroupsIffContiguous(log);
      SeenOnce(log);
      forall id ensures id in FirstSeen(log) <==> id in table && id != "" {
        assert Agrees(table, EventsOf(log, id), id);
        SeenIffPresent(log, id);
      }
      forall k | 0 <= k < |FirstSeen(log)|
        ensures FirstSeen(log)[k] in table && RebuiltAll(Streams(log)).value[k] == table[FirstSeen(log)[k]]
      {
        assert Agrees(table, EventsOf(log, FirstSeen(log)[k]), FirstSeen(log)[k]);
        assert ByEntity(log)[k] == EventsOf(log, FirstSeen(log)[k]);
      }
    }
  }

  // ------------------------------------------------------------------- service

  class TodoService {
    var table: Table
    const store: EventStore

    constructor (store: EventStore)
      requires store.rows == []
      ensures this.store == store && table == map[] && Valid()
    {
      table := map[];
      this.store := store;
    }

    ghost predicate Valid()
      reads this, store
    {
      InStep(table, store.rows)
    }

    method AddNewTodo(id: string, title: string, content: string) returns (r: Result<string, TodoError>)
      requires Valid()
      modifies this`table, store
      ensures Valid()
      ensures r == if id in old(table) then Err(IntegrityError) else Ok(id)
      ensures r.Err? ==> table == old(table) && store.rows == old(store.rows)
      ensures r.Ok? ==> table == old(table)[id := TodoRow(id, title, content, false)]
      ensures r.Ok? ==> store.rows == old(store.rows) + [Event(id, Created(title, content))]
    {
      var event := Event(id, Created(title, content));
      var todo := new Todo(id, title, content);
      if todo.todoId in table {
        return Err(IntegrityError);
      }
      AfterCreation(table, store.rows, id, title, content);
      table := table[todo.todoId := todo.Row()];
      store.Add(event);
      return Ok(id);
    }

    method RenameTodo(todoId: string, title: string) returns (r: Result<(), TodoError>)
      requires Valid()
      modifies this`table, store
      ensures Valid()
      ensures r == if todoId in old(table) then Ok(()) else Err(KeyError)
      ensures r.Err? ==> table == old(table) && store.rows == old(store.rows)
      ensures r.Ok? ==> table == old(table)[todoId := old(table)[todoId].(title := title)]
      ensures r.Ok? ==> store.rows == old(store.rows) + [Event(todoId, Retitled(title))]
    {
      var event := Event(todoId, Retitled(title));
      if todoId !in table {
        return Err(KeyError);
      }
      var row := table[todoId];
      var todo := new Todo(todoId, row.title, row.content);
      todo.isCompleted := row.isCompleted;
      todo.Apply(event);
      AfterRenaming(table, store.rows, todoId, title);
      table := table[todo.todoId := table[todo.todoId].(title := todo.title)];
      store.Add(event);
      return Ok(());
    }

    method ListTodos() returns (r: Result<seq<Todo>, TodoError>)
      ensures RebuiltAll(Streams(store.rows)) == if r.Ok? then Ok(RowsOf(r.value)) else Err(r.error)
    {
      var todos: seq<Todo> := [];
      var streams, yielded := store.AllEventStreams();
      for n := 0 to |streams|
        invariant forall k :: 0 <= k < |streams| ==> streams[k].items == yielded[k]
        invariant RebuiltAll(yielded[..n]) == Ok(RowsOf(todos))
      {
        assert yielded[..n + 1][..n] == yielded[..n];
        var rebuilt := Todo.Rebuild(streams[n].items);
        if rebuilt.Err? {
          RebuiltAllStopsAt(yielded, n + 1);
          return Err(rebuilt.error);
        }
        assert RowsOf(todos + [rebuilt.value]) == RowsOf(todos) + [rebuilt.value.Row()];
        todos := todos + [rebuilt.value];
      }
      assert yielded[..|yielded|] == yielded;
      return Ok(todos);
    }
  }

  function RowsOf(todos: seq<Todo>): (rows: seq<TodoRow>)
    reads todos
    ensures |rows| == |todos|
  {
    seq(|todos|, k requires 0 <= k < |todos| reads todos => todos[k].Row())
  }

  lemma {:induction false} AfterCreation(table: Table, log: Log, id: string, title: string, content: string)
    requires InStep(table, log) && id !in table
    ensures InStep(table[id := TodoRow(id, title, content, false)], log + [Event(id, Created(title, content))])
  {
    var e, after := Event(id, Created(title, content)), table[id := TodoRow(id, title, content, false)];
    forall other ensures Agrees(after, EventsOf(log + [e], other), other) {
      assert Agrees(table, EventsOf(log, other), other);
      EventsOfSnoc(log, e, other);
      if other == id {
        AgreesCreated(table, id, title, content);
      } else {
        assert EventsOf(log, other) + [] == EventsOf(log, other);
      }
    }
  }

  lemma {:induction false} AfterRenaming(table: Table, log: Log, id: string, title: string)
    requires InStep(table, log) && id in table
    ensures InStep(table[id := table[id].(title := title)], log + [Event(id, Retitled(title))])
  {
    var e, after := Event(id, Retitled(title)), table[id := table[id].(title := title)];
    forall other ensures Agrees(after, EventsOf(log + [e], other), other) {
      assert Agrees(table, EventsOf(log, other), other);
      EventsOfSnoc(log, e, other);
      if other == id {
        AgreesRetitled(table, EventsOf(log, id), id, title);
      } else {
        assert EventsOf(log, other) + [] == EventsOf(log, other);
      }
    }
  }

  lemma {:induction false} SplitStreams(first: Event, second: Event, third: Event)
    requires first.entityId == third.entityId != "" && second.entityId != first.entityId && second.entityId != ""
    ensures Streams([first, second, third]) == [[first], [second], [third]]
  {
    StreamsSnoc([], first);
    assert [] + [first] == [first] && Streams([first]) == [[first]];
    StreamsSnoc([first], second);
    assert [first] + [second] == [first, second] && Streams([first, second]) == [[first], [second]];
    StreamsSnoc([first, second], third);
    assert [first, second] + [third] == [first, second, third];
  }

  /** A todo whose events are interrupted comes up a second time, without its creation. */
  lemma {:induction false} SplitTodoFails(first: Event, second: Event, third: Event)
    requires first.payload.Created? && second.payload.Created? && third.payload.Retitled?
    ensures RebuiltAll([[first], [second], [third]]) == Err(TypeError)
  {
    var two := [[first], [second]];
    assert [[first], [second], [third]][..2] == two && two[..1] == [[first]] && [[first]][..0] == [];
    assert RebuiltAll([[first]]).Ok? && RebuiltAll(two).Ok?;
  }

  /** Two creations and one renaming, one after the other: table and log are in
      step, and listing the todos raises. */
  method ListingAfterInterleavedRename() returns (listing: Result<seq<Todo>, TodoError>)
    ensures listing == Err(TypeError)
  {
    var store := new EventStore();
    var service := new TodoService(store);
    assert "a"[0] != "b"[0];
    var created := service.AddNewTodo("a", "x", "");
    assert store.rows == [Event("a", Created("x", ""))];
    created := service.AddNewTodo("b", "y", "");
    assert store.rows == [Event("a", Created("x", "")), Event("b", Created("y", ""))];
    var renamed := service.RenameTodo("a", "z");
    var first, second, third := Event("a", Created("x", "")), Event("b", Created("y", "")), Event("a", Retitled("z"));
    assert store.rows == [first, second, third];
    SplitStreams(first, second, third);
    SplitTodoFails(first, second, third);
    listing := service.ListTodos();
  }
}
