/** The in-memory sink: several producers put events into one bounded queue
    while a consumer takes them out (anywise/sink/__init__.py:48-61).

    `Queue.put` suspends while the queue is full; a volume of zero or less
    means no bound, as in `asyncio.Queue`. */
module Sink {
  type Event(==)

  predicate Full(volume: int, size: nat) {
    0 < volume <= size
  }

  class InMemorySink {
    const volume: int
    var queue: seq<Event>

    constructor (volume: int)
      ensures this.volume == volume && queue == []
    {
      this.volume := volume;
      queue := [];
    }

    /** The part of `sink` that runs without suspending: events are put in order
        until none is left or the queue is full. */
    method Sink(events: seq<Event>) returns (accepted: nat)
      modifies this`queue
      ensures accepted <= |events| && queue == old(queue) + events[..accepted]
      ensures accepted == if volume <= 0 || |events| <= volume - old(|queue|) then |events|
                          else if volume <= old(|queue|) then 0 else volume - old(|queue|)
    {
      accepted := 0;
      while accepted < |events| && !Full(volume, |queue|)
        invariant accepted <= |events| && queue == old(queue) + events[..accepted]
        invariant 0 < volume && 0 < accepted ==> |queue| <= volume
        decreases |events| - accepted
      {
        queue := queue + [events[accepted]];
        accepted := accepted + 1;
      }
    }
  }

  /** An event with the number of the producer that submitted it. */
  datatype Item = Item(producer: nat, event: Event)

  /** `pending[i]` is what producer `i` has submitted and not yet put. */
  datatype State = State(pending: seq<seq<Event>>, queue: seq<Item>, consumed: seq<Item>)

  datatype Action = Put(i: nat) | Get

  predicate Enabled(volume: int, s: State, a: Action) {
    match a
    case Put(i) => i < |s.pending| && s.pending[i] != [] && !Full(volume, |s.queue|)
    case Get => s.queue != []
  }

  /** A step that cannot be taken leaves its task suspended. */
  function Step(volume: int, s: State, a: Action): State {
    if !Enabled(volume, s, a) then s else
      match a
      case Put(i) => s.(pending := s.pending[i := s.pending[i][1..]], queue := s.queue + [Item(i, s.pending[i][0])])
      case Get => s.(queue := s.queue[1..], consumed := s.consumed + [s.queue[0]])
  }

  function Run(volume: int, s: State, schedule: seq<Action>): State
    decreases |schedule|
  {
    if schedule == [] then s else Run(volume, Step(volume, s, schedule[0]), schedule[1..])
  }

  /** The events of one producer, in order. */
  function EventsOf(items: seq<Item>, i: nat): seq<Event> {
    if items == [] then []
    else
      var last := items[|items| - 1];
      EventsOf(items[..|items| - 1], i) + if last.producer == i then [last.event] else []
  }

  /** Everything that has passed through the queue, oldest first. */
  function Passed(s: State): seq<Item> {
    s.consumed + s.queue
  }

  lemma {:induction false} StepConserves(volume: int, s: State, a: Action, i: nat)
    requires i < |s.pending|
    ensures var s' := Step(volume, s, a);
            |s'.pending| == |s.pending| &&
              EventsOf(Passed(s'), i) + s'.pending[i] == EventsOf(Passed(s), i) + s.pending[i]
  {
    if Enabled(volume, s, a) {
      match a {
        case Put(j) =>
          var item := Item(j, s.pending[j][0]);
          assert Passed(Step(volume, s, a)) == Passed(s) + [item];
          assert (Passed(s) + [item])[..|Passed(s)|] == Passed(s);
        case Get =>
          assert s.queue == [s.queue[0]] + s.queue[1..];
          assert Passed(Step(volume, s, a)) == Passed(s);
      }
    }
  }

  /** For every interleaving: the bound holds, every event belongs to a
      producer, and what a producer's events have become - consumed, queued,
      still pending, in this order - is what it submitted. */
  lemma {:induction false} NothingLostOrReordered(volume: int, s: State, schedule: seq<Action>)
    requires 0 < volume ==> |s.queue| <= volume
    requires forall k :: 0 <= k < |Passed(s)| ==> Passed(s)[k].producer < |s.pending|
    ensures var s' := Run(volume, s, schedule);
            && (0 < volume ==> |s'.queue| <= volume)
            && |s'.pending| == |s.pending|
            && (forall k :: 0 <= k < |Passed(s')| ==> Passed(s')[k].producer < |s.pending|)
            && (forall i :: 0 <= i < |s.pending| ==>
                 EventsOf(Passed(s'), i) + s'.pending[i] == EventsOf(Passed(s), i) + s.pending[i])
            && s.consumed <= s'.consumed && Passed(s) <= Passed(s')
    decreases |schedule|
  {
    if schedule != [] {
      var next := Step(volume, s, schedule[0]);
      forall i | 0 <= i < |s.pending|
        ensures |next.pending| == |s.pending|
        ensures EventsOf(Passed(next), i) + next.pending[i] == EventsOf(Passed(s), i) + s.pending[i]
      {
        StepConserves(volume, s, schedule[0], i);
      }
      assert Passed(s) <= Passed(next);
      NothingLostOrReordered(volume, next, schedule[1..]);
    }
  }

  function Total(pending: seq<seq<Event>>): nat {
    if pending == [] then 0 else |pending[0]| + Total(pending[1..])
  }

  lemma {:induction false} TotalAt(pending: seq<seq<Event>>, i: nat)
    requires i < |pending| && pending[i] != []
    ensures Total(pending[i := pending[i][1..]]) == Total(pending) - 1
  {
    if i > 0 {
      TotalAt(pending[1..], i - 1);
      assert pending[i := pending[i][1..]][1..] == pending[1..][i - 1 := pending[i][1..]];
    }
  }

  lemma {:induction false} TotalPositive(pending: seq<seq<Event>>)
    ensures 0 < Total(pending) <==> exists i :: 0 <= i < |pending| && pending[i] != []
  {
    if pending != [] {
      TotalPositive(pending[1..]);
      if 0 < Total(pending[1..]) {
        var i :| 0 <= i < |pending[1..]| && pending[1..][i] != [];
        assert pending[i + 1] != [];
      }
      if i :| 0 <= i < |pending| && pending[i] != [] && i > 0 {
        assert pending[1..][i - 1] != [];
      }
    }
  }

  /** Steps still to be taken: each pending event is put and got, each queued one got. */
  function Work(s: State): nat {
    2 * Total(s.pending) + |s.queue|
  }

  /** The sink never deadlocks: while anything is left some step is enabled, and
      every enabled step leaves one step less. */
  lemma {:induction false} AlwaysProgress(volume: int, s: State)
    ensures 0 < Work(s) <==> exists a :: Enabled(volume, s, a)
    ensures forall a :: Enabled(volume, s, a) ==> Work(Step(volume, s, a)) == Work(s) - 1
  {
    forall a | Enabled(volume, s, a) ensures 0 < Work(s) && Work(Step(volume, s, a)) == Work(s) - 1 {
      if a.Put? {
        TotalPositive(s.pending);
        TotalAt(s.pending, a.i);
      }
    }
    TotalPositive(s.pending);
    if 0 < Work(s) {
      if s.queue != [] {
        assert Enabled(volume, s, Get);
      } else {
        var i :| 0 <= i < |s.pending| && s.pending[i] != [];
        assert Enabled(volume, s, Put(i));
      }
    }
  }

  /** From an empty sink, once nothing is left to do, the consumer has received
      each producer's submissions in full and in order. */
  lemma {:induction false} DrainedMeansDelivered(volume: int, submitted: seq<seq<Event>>, schedule: seq<Action>, i: nat)
    requires i < |submitted|
    ensures var s' := Run(volume, State(submitted, [], []), schedule);
            Work(s') == 0 ==> EventsOf(s'.consumed, i) == submitted[i]
  {
    var s := State(submitted, [], []);
    NothingLostOrReordered(volume, s, schedule);
    var s' := Run(volume, s, schedule);
    TotalPositive(s'.pending);
    if Work(s') == 0 {
      assert s'.pending[i] == [] && Passed(s') == s'.consumed;
      assert EventsOf(Passed(s), i) + submitted[i] == submitted[i];
    }
  }

  function Puts(i: nat, k: nat): seq<Action> {
    if k == 0 then [] else [Put(i)] + Puts(i, k - 1)
  }

  function Tagged(i: nat, events: seq<Event>): seq<Item> {
    seq(|events|, k requires 0 <= k < |events| => Item(i, events[k]))
  }

  lemma {:induction false} TaggedCons(i: nat, events: seq<Event>, k: nat)
    requires 0 < k <= |events|
    ensures Tagged(i, events[..k]) == [Item(i, events[0])] + Tagged(i, events[1..][..k - 1])
  {
  }

  lemma {:induction false} PutOne(volume: int, s: State, i: nat)
    requires i < |s.pending| && s.pending[i] != [] && (volume <= 0 || |s.queue| < volume)
    ensures Step(volume, s, Put(i))
         == s.(pending := s.pending[i := s.pending[i][1..]], queue := s.queue + [Item(i, s.pending[i][0])])
  {
  }

  /** The loop of `sink`, as long as it does not suspend, is a run of puts of one producer. */
  lemma {:induction false} LoopIsPuts(volume: int, s: State, i: nat, k: nat)
    requires i < |s.pending| && k <= |s.pending[i]|
    requires k == 0 || volume <= 0 || |s.queue| + k <= volume
    ensures Run(volume, s, Puts(i, k))
         == s.(pending := s.pending[i := s.pending[i][k..]], queue := s.queue + Tagged(i, s.pending[i][..k]))
    decreases k
  {
    var mine := s.pending[i];
    if k == 0 {
      assert s.pending[i := mine[0..]] == s.pending;
      assert s.queue + Tagged(i, mine[..0]) == s.queue;
    } else {
      var next := Step(volume, s, Put(i));
      PutOne(volume, s, i);
      assert Puts(i, k)[1..] == Puts(i, k - 1);
      LoopIsPuts(volume, next, i, k - 1);
      assert next.pending[i := mine[1..][k - 1..]] == s.pending[i := mine[k..]];
      TaggedCons(i, mine, k);
      assert next.queue + Tagged(i, mine[1..][..k - 1]) == s.queue + Tagged(i, mine[..k]);
    }
  }
}
