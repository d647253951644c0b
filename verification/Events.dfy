/** Todo events as rows of the event table, and the ways to group them. */
module Events {

  /** What a todo event says besides whom it is about (demo/message.py:43-49). */
  datatype Payload = Created(title: string, content: string) | Retitled(title: string)

  datatype Event = Event(entityId: string, payload: Payload)

  type Log = seq<Event>

  function Last(log: Log): Event
    requires log != []
  {
    log[|log| - 1]
  }

  /** The events of one entity, in log order. */
  function EventsOf(log: Log, id: string): Log {
    if log == [] then []
    else EventsOf(log[..|log| - 1], id) + if Last(log).entityId == id then [Last(log)] else []
  }

  /** The events that name an entity. */
  function Named(log: Log): Log {
    if log == [] then []
    else Named(log[..|log| - 1]) + if Last(log).entityId != "" then [Last(log)] else []
  }

  /** The entities named in a log, in order of first appearance. */
  function FirstSeen(log: Log): seq<string> {
    if log == [] then []
    else
      var seen := FirstSeen(log[..|log| - 1]);
      var id := Last(log).entityId;
      if id == "" || id in seen then seen else seen + [id]
  }

  /** The grouping one would want: one group per entity, in order of first appearance. */
  function ByEntity(log: Log): seq<Log> {
    var ids := FirstSeen(log);
    seq(|ids|, k requires 0 <= k < |ids| => EventsOf(log, ids[k]))
  }

  function IdOf(run: Log): string {
    if run == [] then "" else run[0].entityId
  }

  /** One more event: it continues the last run or begins a new one. */
  function Grow(runs: seq<Log>, e: Event): seq<Log> {
    if runs != [] && IdOf(runs[|runs| - 1]) == e.entityId
    then runs[..|runs| - 1] + [runs[|runs| - 1] + [e]]
    else runs + [[e]]
  }

  /** The log cut wherever the entity changes. */
  function Runs(log: Log): seq<Log> {
    if log == [] then [] else Grow(Runs(log[..|log| - 1]), Last(log))
  }

  function NamedRuns(runs: seq<Log>): seq<Log> {
    if runs == [] then []
    else NamedRuns(runs[..|runs| - 1]) + if IdOf(runs[|runs| - 1]) != "" then [runs[|runs| - 1]] else []
  }

  /** The runs that name an entity. */
  function Streams(log: Log): seq<Log> {
    NamedRuns(Runs(log))
  }

  function Concat(runs: seq<Log>): Log {
    if runs == [] then [] else Concat(runs[..|runs| - 1]) + runs[|runs| - 1]
  }

  ghost predicate Uniform(run: Log) {
    run != [] && forall k :: 0 <= k < |run| ==> run[k].entityId == IdOf(run)
  }

  /** A way of cutting a log into non-empty pieces of one entity each, as long as they can be. */
  ghost predicate CutsIntoRuns(log: Log, runs: seq<Log>) {
    Concat(runs) == log && Uniforms(runs) && Changes(runs)
  }

  /** `events` are those of one entity, `places[i]` the place of `events[i]` in the log. */
  ghost predicate Picked(log: Log, id: string, events: Log, places: seq<nat>) {
    && |places| == |events|
    && (forall i, j :: 0 <= i < j < |places| ==> places[i] < places[j])
    && (forall i :: 0 <= i < |places| ==>
          places[i] < |log| && log[places[i]] == events[i] && events[i].entityId == id)
    && (forall k: nat :: k < |log| && log[k].entityId == id ==> k in places)
  }

  lemma {:induction false} PickedSnoc(log: Log, id: string, events: Log, places: seq<nat>, e: Event)
    requires Picked(log, id, events, places)
    ensures e.entityId == id ==> Picked(log + [e], id, events + [e], places + [|log|])
    ensures e.entityId != id ==> Picked(log + [e], id, events, places)
  {
    var longer, more := log + [e], places + [|log|];
    forall k: nat | k < |longer| && longer[k].entityId == id
      ensures k in more && (e.entityId != id ==> k in places)
    {
      if k < |log| {
        assert longer[k] == log[k] && k in places;
      } else {
        assert more[|places|] == k;
      }
    }
  }

  lemma {:induction false} EventsArePicked(log: Log, id: string) returns (places: seq<nat>)
    ensures Picked(log, id, EventsOf(log, id), places)
  {
    places := [];
    if log != [] {
      var n := |log| - 1;
      places := EventsArePicked(log[..n], id);
      PickedSnoc(log[..n], id, EventsOf(log[..n], id), places, log[n]);
      assert log == log[..n] + [log[n]];
      places := places + if log[n].entityId == id then [n] else [];
    }
  }

  lemma {:induction false} ConcatSnoc(runs: seq<Log>, run: Log)
    ensures Concat(runs + [run]) == Concat(runs) + run
  {
    assert (runs + [run])[..|runs|] == runs;
  }

  lemma {:induction false} GrowLast(before: seq<Log>, run: Log, e: Event)
    requires run != [] && IdOf(run) == e.entityId
    ensures Grow(before + [run], e) == before + [run + [e]] && IdOf(run + [e]) == IdOf(run)
  {
    assert (before + [run])[..|before|] == before;
  }

  lemma {:induction false} RunsSnoc(log: Log, e: Event)
    ensures Runs(log + [e]) == Grow(Runs(log), e)
  {
    assert (log + [e])[..|log|] == log;
  }

  ghost predicate Uniforms(runs: seq<Log>) {
    forall k :: 0 <= k < |runs| ==> Uniform(runs[k])
  }

  ghost predicate Changes(runs: seq<Log>) {
    forall k :: 0 < k < |runs| ==> IdOf(runs[k - 1]) != IdOf(runs[k])
  }

  lemma {:induction false} GrowKeepsCut(log: Log, runs: seq<Log>, e: Event)
    requires CutsIntoRuns(log, runs)
    ensures CutsIntoRuns(log + [e], Grow(runs, e))
    ensures Grow(runs, e) != [] && IdOf(Grow(runs, e)[|Grow(runs, e)| - 1]) == e.entityId
  {
    if runs != [] && IdOf(runs[|runs| - 1]) == e.entityId {
      var before, run := runs[..|runs| - 1], runs[|runs| - 1];
      assert Uniform(run) && runs == before + [run];
      GrowLast(before, run, e);
      ConcatSnoc(before, run);
      ConcatSnoc(before, run + [e]);
      assert Concat(before) + (run + [e]) == (Concat(before) + run) + [e];
      SnocCut(before, run, run + [e]);
    } else {
      ConcatSnoc(runs, [e]);
      assert Uniform([e]);
    }
  }

  /** Replacing the last run by another one of the same entity. */
  lemma {:induction false} SnocCut(before: seq<Log>, run: Log, other: Log)
    requires Uniforms(before + [run]) && Changes(before + [run]) && Uniform(other) && IdOf(other) == IdOf(run)
    ensures Uniforms(before + [other]) && Changes(before + [other])
  {
    var x, y := before + [run], before + [other];
    forall k | 0 <= k < |y| ensures Uniform(y[k]) {
      assert Uniform(x[k]);
    }
    forall k | 0 < k < |y| ensures IdOf(y[k - 1]) != IdOf(y[k]) {
      assert IdOf(x[k - 1]) != IdOf(x[k]);
    }
  }

  lemma {:induction false} RunsCut(log: Log)
    ensures CutsIntoRuns(log, Runs(log))
    ensures log != [] ==> Runs(log) != [] && IdOf(Runs(log)[|Runs(log)| - 1]) == Last(log).entityId
  {
    if log != [] {
      var before := log[..|log| - 1];
      RunsCut(before);
      GrowKeepsCut(before, Runs(before), Last(log));
      assert log == before + [Last(log)];
    }
  }

  /** Undoing the last step of `Grow`. */
  lemma {:induction false} CutShrinks(log: Log, before: seq<Log>, run: Log) returns (shorter: seq<Log>)
    requires CutsIntoRuns(log, before + [run])
    ensures log != [] && CutsIntoRuns(log[..|log| - 1], shorter) && Grow(shorter, Last(log)) == before + [run]
  {
    var whole := before + [run];
    assert Uniform(whole[|before|]);
    ConcatSnoc(before, run);
    var front, e := run[..|run| - 1], run[|run| - 1];
    assert run == front + [e] && Last(log) == e;
    assert log[..|log| - 1] == Concat(before) + front;
    if front == [] {
      shorter := before;
      assert Concat(before) + front == Concat(before);
      forall k | 0 <= k < |before| ensures Uniform(before[k]) && (k > 0 ==> IdOf(before[k - 1]) != IdOf(before[k])) {
        assert Uniform(whole[k]) && (k > 0 ==> IdOf(whole[k - 1]) != IdOf(whole[k]));
      }
      assert before != [] ==> IdOf(whole[|before| - 1]) != IdOf(whole[|before|]);
    } else {
      shorter := before + [front];
      ConcatSnoc(before, front);
      assert Uniform(front) && IdOf(front) == IdOf(run);
      SnocCut(before, run, front);
      GrowLast(before, front, e);
    }
  }

  /** There is only one way to cut a log into maximal runs. */
  lemma {:induction false} RunsUnique(log: Log, runs: seq<Log>)
    requires CutsIntoRuns(log, runs)
    ensures runs == Runs(log)
    decreases |log|
  {
    if runs != [] {
      assert runs == runs[..|runs| - 1] + [runs[|runs| - 1]];
      var shorter := CutShrinks(log, runs[..|runs| - 1], runs[|runs| - 1]);
      RunsUnique(log[..|log| - 1], shorter);
    }
  }

  lemma {:induction false} NamedAppend(log: Log, more: Log)
    ensures Named(log + more) == Named(log) + Named(more)
    decreases |more|
  {
    if more == [] {
      assert log + more == log;
    } else {
      NamedAppend(log, more[..|more| - 1]);
      assert (log + more)[..|log| + |more| - 1] == log + more[..|more| - 1];
    }
  }

  lemma {:induction false} NamedAll(run: Log)
    requires forall k :: 0 <= k < |run| ==> run[k].entityId != ""
    ensures Named(run) == run
  {
    if run != [] {
      NamedAll(run[..|run| - 1]);
      assert run == run[..|run| - 1] + [Last(run)];
    }
  }

  lemma {:induction false} NamedNone(run: Log)
    requires forall k :: 0 <= k < |run| ==> run[k].entityId == ""
    ensures Named(run) == []
  {
    if run != [] {
      NamedNone(run[..|run| - 1]);
    }
  }

  lemma {:induction false} NamedUniform(run: Log)
    requires Uniform(run)
    ensures Named(run) == if IdOf(run) == "" then [] else run
  {
    if IdOf(run) == "" {
      NamedNone(run);
    } else {
      NamedAll(run);
    }
  }

  lemma {:induction false} NamedRunsSnoc(runs: seq<Log>, run: Log)
    ensures NamedRuns(runs + [run]) == if IdOf(run) == "" then NamedRuns(runs) else NamedRuns(runs) + [run]
  {
    assert (runs + [run])[..|runs|] == runs;
  }

  lemma {:induction false} ConcatNamedRuns(runs: seq<Log>)
    requires forall k :: 0 <= k < |runs| ==> Uniform(runs[k])
    ensures Concat(NamedRuns(runs)) == Named(Concat(runs))
  {
    if runs != [] {
      var before, run := runs[..|runs| - 1], runs[|runs| - 1];
      ConcatNamedRuns(before);
      assert runs == before + [run];
      ConcatNamedSnoc(before, run);
    }
  }

  lemma {:induction false} ConcatNamedSnoc(before: seq<Log>, run: Log)
    requires Concat(NamedRuns(before)) == Named(Concat(before)) && Uniform(run)
    ensures Concat(NamedRuns(before + [run])) == Named(Concat(before + [run]))
  {
    NamedRunsSnoc(before, run);
    ConcatSnoc(before, run);
    NamedAppend(Concat(before), run);
    NamedUniform(run);
    ConcatSnoc(NamedRuns(before), run);
  }

  lemma {:induction false} NamedRunsUniform(runs: seq<Log>)
    requires forall k :: 0 <= k < |runs| ==> Uniform(runs[k])
    ensures forall k :: 0 <= k < |NamedRuns(runs)| ==> Uniform(NamedRuns(runs)[k]) && IdOf(NamedRuns(runs)[k]) != ""
  {
    if runs != [] {
      NamedRunsUniform(runs[..|runs| - 1]);
    }
  }

  /** Streaming loses only the events without an entity and keeps the order;
      every stream is non-empty and about a single entity. */
  lemma {:induction false} StreamsPartitionNamed(log: Log)
    ensures Concat(Streams(log)) == Named(log)
    ensures forall k :: 0 <= k < |Streams(log)| ==> Uniform(Streams(log)[k]) && IdOf(Streams(log)[k]) != ""
  {
    RunsCut(log);
    ConcatNamedRuns(Runs(log));
    NamedRunsUniform(Runs(log));
  }

  /** Each named entity's events stand together. */
  ghost predicate Contiguous(log: Log) {
    forall i, j, k :: 0 <= i < j < k < |log| && log[i].entityId == log[k].entityId != "" ==>
      log[j].entityId == log[i].entityId
  }

  lemma {:induction false} SeenIffPresent(log: Log, id: string)
    ensures id in FirstSeen(log) <==> id != "" && EventsOf(log, id) != []
    ensures EventsOf(log, id) != [] <==> exists k :: 0 <= k < |log| && log[k].entityId == id
  {
    if log != [] {
      SeenIffPresent(log[..|log| - 1], id);
      var before := log[..|log| - 1];
      if k :| 0 <= k < |before| && before[k].entityId == id {
        assert log[k].entityId == id;
      }
      if k :| 0 <= k < |log| && log[k].entityId == id && Last(log).entityId != id {
        assert before[k].entityId == id;
      }
    }
  }

  lemma {:induction false} SeenOnce(log: Log)
    ensures forall i, j :: 0 <= i < j < |FirstSeen(log)| ==> FirstSeen(log)[i] != FirstSeen(log)[j]
    ensures "" !in FirstSeen(log)
  {
    if log != [] {
      SeenOnce(log[..|log| - 1]);
    }
  }

  lemma {:induction false} EventsOfUniform(log: Log, id: string)
    ensures EventsOf(log, id) != [] ==> Uniform(EventsOf(log, id)) && IdOf(EventsOf(log, id)) == id
  {
    if log != [] {
      EventsOfUniform(log[..|log| - 1], id);
    }
  }

  lemma {:induction false} StreamsContinue(log: Log, e: Event)
    requires log != [] && Last(log).entityId == e.entityId
    ensures var before := Streams(log); var n := |before| - 1;
            if e.entityId == "" then Streams(log + [e]) == before
            else before != [] && IdOf(before[n]) == e.entityId && Streams(log + [e]) == before[..n] + [before[n] + [e]]
  {
    RunsCut(log);
    RunsSnoc(log, e);
    var runs := Runs(log);
    var before, run := runs[..|runs| - 1], runs[|runs| - 1];
    assert Uniform(run) && runs == before + [run];
    GrowLast(before, run, e);
    NamedRunsSnoc(before, run);
    NamedRunsSnoc(before, run + [e]);
    var named := NamedRuns(before);
    if e.entityId != "" {
      assert Streams(log) == named + [run] && Streams(log + [e]) == named + [run + [e]];
      assert (named + [run])[..|named|] == named;
    }
  }

  lemma {:induction false} StreamsBegin(log: Log, e: Event)
    requires log == [] || Last(log).entityId != e.entityId
    ensures Streams(log + [e]) == if e.entityId == "" then Streams(log) else Streams(log) + [[e]]
  {
    RunsCut(log);
    RunsSnoc(log, e);
    NamedRunsSnoc(Runs(log), [e]);
  }

  /** How appending one event changes the streams. */
  lemma {:induction false} StreamsSnoc(log: Log, e: Event)
    ensures var before := Streams(log); var n := |before| - 1;
            if e.entityId == "" then Streams(log + [e]) == before
            else if log != [] && Last(log).entityId == e.entityId then
              before != [] && IdOf(before[n]) == e.entityId && Streams(log + [e]) == before[..n] + [before[n] + [e]]
            else Streams(log + [e]) == before + [[e]]
  {
    if log != [] && Last(log).entityId == e.entityId {
      StreamsContinue(log, e);
    } else {
      StreamsBegin(log, e);
    }
  }

  lemma {:induction false} EventsOfSnoc(log: Log, e: Event, id: string)
    ensures EventsOf(log + [e], id) == EventsOf(log, id) + if e.entityId == id then [e] else []
  {
    assert (log + [e])[..|log|] == log;
  }

  lemma {:induction false} FirstSeenSnoc(log: Log, e: Event)
    ensures FirstSeen(log + [e])
         == if e.entityId == "" || e.entityId in FirstSeen(log) then FirstSeen(log) else FirstSeen(log) + [e.entityId]
  {
    assert (log + [e])[..|log|] == log;
  }

  /** An event about a new entity adds a group of its own. */
  lemma {:induction false} ByEntityNew(log: Log, e: Event)
    requires e.entityId != "" && e.entityId !in FirstSeen(log)
    ensures ByEntity(log + [e]) == ByEntity(log) + [[e]]
  {
    FirstSeenSnoc(log, e);
    SeenIffPresent(log, e.entityId);
    var ids := FirstSeen(log);
    forall k | 0 <= k <= |ids| ensures ByEntity(log + [e])[k] == (ByEntity(log) + [[e]])[k] {
      EventsOfSnoc(log, e, FirstSeen(log + [e])[k]);
    }
  }

  /** An event about a known entity extends that entity's group only. */
  lemma {:induction false} ByEntityKnown(log: Log, e: Event, at: nat)
    requires at < |FirstSeen(log)| && FirstSeen(log)[at] == e.entityId
    ensures ByEntity(log + [e]) == ByEntity(log)[at := ByEntity(log)[at] + [e]]
  {
    FirstSeenSnoc(log, e);
    SeenOnce(log);
    var ids := FirstSeen(log);
    forall k | 0 <= k < |ids| ensures ByEntity(log + [e])[k] == ByEntity(log)[at := ByEntity(log)[at] + [e]][k] {
      EventsOfSnoc(log, e, ids[k]);
    }
  }

  lemma {:induction false} ByEntityUnnamed(log: Log, e: Event)
    requires e.entityId == ""
    ensures ByEntity(log + [e]) == ByEntity(log)
  {
    FirstSeenSnoc(log, e);
    SeenOnce(log);
    var ids := FirstSeen(log);
    forall k | 0 <= k < |ids| ensures ByEntity(log + [e])[k] == ByEntity(log)[k] {
      EventsOfSnoc(log, e, ids[k]);
    }
  }

  /** The same, event by event: an entity seen before continues only at once. */
  ghost predicate Uninterrupted(log: Log) {
    log == [] ||
      var before, id := log[..|log| - 1], Last(log).entityId;
      Uninterrupted(before) && (id in FirstSeen(before) ==> before != [] && Last(before).entityId == id)
  }

  lemma {:induction false} ContiguousSnoc(log: Log, e: Event)
    ensures Contiguous(log + [e]) <==>
              && Contiguous(log)
              && (e.entityId != "" && e.entityId in FirstSeen(log) ==> log != [] && Last(log).entityId == e.entityId)
  {
    var longer := log + [e];
    SeenIffPresent(log, e.entityId);
    if Contiguous(longer) {
      forall i, j, k | 0 <= i < j < k < |log| && log[i].entityId == log[k].entityId != ""
        ensures log[j].entityId == log[i].entityId
      {
        assert longer[i] == log[i] && longer[j] == log[j] && longer[k] == log[k];
      }
      if e.entityId in FirstSeen(log) {
        var i :| 0 <= i < |log| && log[i].entityId == e.entityId;
        assert longer[i].entityId == longer[|log|].entityId != "";
        assert i < |log| - 1 ==> longer[|log| - 1].entityId == longer[i].entityId;
      }
    }
    if Contiguous(log) &&
      (e.entityId != "" && e.entityId in FirstSeen(log) ==> log != [] && Last(log).entityId == e.entityId) {
      forall i, j, k | 0 <= i < j < k < |longer| && longer[i].entityId == longer[k].entityId != ""
        ensures longer[j].entityId == longer[i].entityId
      {
        assert longer[i] == log[i] && longer[j] == log[j];
        if k == |log| {
          assert log[i].entityId == Last(log).entityId;
        } else {
          assert longer[k] == log[k];
        }
      }
    }
  }

  lemma {:induction false} UninterruptedIffContiguous(log: Log)
    ensures Uninterrupted(log) <==> Contiguous(log)
  {
    if log != [] {
      var before, e := log[..|log| - 1], Last(log);
      UninterruptedIffContiguous(before);
      assert log == before + [e];
      SeenOnce(before);
      SeenIffPresent(before, e.entityId);
      ContiguousSnoc(before, e);
    }
  }

  lemma {:induction false} LastGroupOf(log: Log)
    requires Streams(log) == ByEntity(log) && Streams(log) != []
    ensures |FirstSeen(log)| == |Streams(log)|
    ensures FirstSeen(log)[|Streams(log)| - 1] == IdOf(Streams(log)[|Streams(log)| - 1])
  {
    var n := |Streams(log)| - 1;
    var id := FirstSeen(log)[n];
    SeenIffPresent(log, id);
    EventsOfUniform(log, id);
    assert ByEntity(log)[n] == EventsOf(log, id);
  }

  lemma {:induction false} SameWithoutLast<T>(a: seq<T>, b: seq<T>, x: T)
    requires a + [x] == b + [x]
    ensures a == b
  {
    assert |a| + 1 == |a + [x]|;
    assert a == (a + [x])[..|a|] && b == (b + [x])[..|a|];
  }

  lemma {:induction false} SameWithoutUpdate(a: seq<Log>, b: seq<Log>, n: nat, e: Event)
    requires |a| == |b| && n < |a| && a[n := a[n] + [e]] == b[n := b[n] + [e]]
    ensures a == b
  {
    assert a[n] + [e] == a[n := a[n] + [e]][n] == b[n := b[n] + [e]][n] == b[n] + [e];
    SameWithoutLast(a[n], b[n], e);
    forall k | 0 <= k < |a| ensures a[k] == b[k] {
      assert k != n ==> a[n := a[n] + [e]][k] == a[k] && b[n := b[n] + [e]][k] == b[k];
    }
  }

  /** A group that goes on at the end of the log. */
  lemma {:induction false} KnownContinues(log: Log, e: Event, at: nat)
    requires log != [] && Last(log).entityId == e.entityId != ""
    requires at < |FirstSeen(log)| && FirstSeen(log)[at] == e.entityId
    ensures Streams(log + [e]) == ByEntity(log + [e]) <==> Streams(log) == ByEntity(log)
  {
    var n := |Streams(log)| - 1;
    StreamsSnoc(log, e);
    ByEntityKnown(log, e, at);
    FirstSeenSnoc(log, e);
    SeenOnce(log);
    assert Streams(log + [e]) == Streams(log)[n := Streams(log)[n] + [e]];
    if Streams(log) == ByEntity(log) {
      LastGroupOf(log);
      assert at == n;
    }
    if Streams(log + [e]) == ByEntity(log + [e]) {
      LastGroupContinues(log, e);
      assert at == n;
      SameWithoutUpdate(Streams(log), ByEntity(log), n, e);
    }
  }

  lemma {:induction false} LastGroupContinues(log: Log, e: Event)
    requires log != [] && Last(log).entityId == e.entityId != "" && e.entityId in FirstSeen(log)
    requires Streams(log + [e]) == ByEntity(log + [e])
    ensures |FirstSeen(log)| == |Streams(log)| > 0 && FirstSeen(log)[|Streams(log)| - 1] == e.entityId
  {
    StreamsSnoc(log, e);
    FirstSeenSnoc(log, e);
    LastGroupOf(log + [e]);
  }

  /** A group that resumes after an interruption becomes two streams. */
  lemma {:induction false} KnownInterrupted(log: Log, e: Event)
    requires (log != [] ==> Last(log).entityId != e.entityId) && e.entityId in FirstSeen(log)
    ensures Streams(log + [e]) != ByEntity(log + [e])
  {
    SeenOnce(log);
    StreamsSnoc(log, e);
    if Streams(log + [e]) == ByEntity(log + [e]) {
      LastGroupOf(log + [e]);
      SeenIffPresent(log, e.entityId);
      EventsOfSnoc(log, e, e.entityId);
    }
  }

  lemma {:induction false} StreamsAreGroupsIffUninterrupted(log: Log)
    ensures Streams(log) == ByEntity(log) <==> Uninterrupted(log)
    decreases |log|
  {
    if log != [] {
      var before, e := log[..|log| - 1], Last(log);
      assert log == before + [e];
      StreamsAreGroupsIffUninterrupted(before);
      SeenOnce(before);
      if e.entityId == "" {
        StreamsSnoc(before, e);
        ByEntityUnnamed(before, e);
      } else if e.entityId !in FirstSeen(before) {
        NewEntityAlone(before, e);
      } else if before != [] && Last(before).entityId == e.entityId {
        var at :| 0 <= at < |FirstSeen(before)| && FirstSeen(before)[at] == e.entityId;
        KnownContinues(before, e, at);
      } else {
        KnownInterrupted(before, e);
      }
    }
  }

  /** A group that begins at the end of the log. */
  lemma {:induction false} NewEntityAlone(log: Log, e: Event)
    requires e.entityId != "" && e.entityId !in FirstSeen(log)
    ensures Streams(log + [e]) == ByEntity(log + [e]) <==> Streams(log) == ByEntity(log)
  {
    StreamsSnoc(log, e);
    ByEntityNew(log, e);
    SeenIffPresent(log, e.entityId);
    assert log != [] ==> log[|log| - 1].entityId != e.entityId;
    if Streams(log + [e]) == ByEntity(log + [e]) {
      SameWithoutLast(Streams(log), ByEntity(log), [e]);
    }
  }

  /** Cutting at every change of entity is grouping by entity exactly when no
      entity's events are interrupted by another's. */
  lemma {:induction false} StreamsAreGroupsIffContiguous(log: Log)
    ensures Streams(log) == ByEntity(log) <==> Contiguous(log)
  {
    StreamsAreGroupsIffUninterrupted(log);
    UninterruptedIffContiguous(log);
  }
}
