/** The append-only event table and its readers (anywise/messages/eventstore.py).

    The SELECT statements name no order; rows are taken to come back in the
    order in which they were inserted. */
module EventStore {
  import opened Events

  /** One of the lists kept in `grouped`. */
  class Group {
    var items: Log

    constructor ()
      ensures items == []
    {
      items := [];
    }

    method Append(e: Event)
      modifies this
      ensures items == old(items) + [e]
    {
      items := items + [e];
    }
  }

  class EventStore {
    var rows: Log

    constructor ()
      ensures rows == []
    {
      rows := [];
    }

    method Add(event: Event)
      modifies this`rows
      ensures rows == old(rows) + [event]
    {
      rows := rows + [event];
    }

    method ListEvents(entityId: string) returns (events: Log)
      ensures events == EventsOf(rows, entityId)
      ensures exists places :: Picked(rows, entityId, events, places)
    {
      events := [];
      for n := 0 to |rows|
        invariant events == EventsOf(rows[..n], entityId)
      {
        if rows[n].entityId == entityId {
          events := events + [rows[n]];
        }
        assert rows[..n + 1] == rows[..n] + [rows[n]];
        EventsOfSnoc(rows[..n], rows[n], entityId);
      }
      assert rows[..|rows|] == rows;
      ghost var places := EventsArePicked(rows, entityId);
    }

    /** What the generator yields, in order. `yielded` is what each list held at
        the moment it was handed out; the list still holds that at the end. */
    method AllEventStreams() returns (streams: seq<Group>, ghost yielded: seq<Log>)
      ensures yielded == Streams(rows)
      ensures |streams| == |yielded|
      ensures forall k :: 0 <= k < |streams| ==> fresh(streams[k]) && streams[k].items == yielded[k]
    {
      streams, yielded := [], [];
      var grouped: map<string, Group> := map[];
      var currentId := "";
      ghost var open: Log := [];
      for n := 0 to |rows|
        invariant currentId == CurrentId(rows[..n])
        invariant grouped.Keys <= {currentId, ""}
        invariant currentId != "" ==> currentId in grouped && grouped[currentId].items == open
        invariant currentId != "" && "" in grouped ==> grouped[""] != grouped[currentId]
        invariant forall id :: id in grouped ==> fresh(grouped[id])
        invariant forall id :: id in grouped ==> grouped[id] !in streams
        invariant |streams| == |yielded|
        invariant forall k :: 0 <= k < |streams| ==> fresh(streams[k]) && streams[k].items == yielded[k]
        invariant Scanned(rows[..n]) == Scan(yielded, open)
      {
        var e := rows[n];
        ScannedNext(rows, n);
        if currentId != "" && currentId != e.entityId {
          streams, yielded := streams + [grouped[currentId]], yielded + [open];
          grouped := grouped - {currentId};
        }
        assert grouped.Keys <= if currentId == e.entityId then {currentId, ""} else {""};
        open := if currentId == e.entityId then open + [e] else [e];
        grouped := Collect(grouped, currentId, e);
        currentId := e.entityId;
      }
      assert rows[..|rows|] == rows;
      ScannedStreams(rows);
      if currentId != "" {
        streams, yielded := streams + [grouped[currentId]], yielded + [open];
      }
    }
  }

  /** `grouped[e.entity_id].append(e)`, where a missing list is made on access. */
  method Collect(grouped: map<string, Group>, currentId: string, e: Event) returns (after: map<string, Group>)
    requires grouped.Keys <= if currentId == e.entityId then {currentId, ""} else {""}
    requires e.entityId in grouped && "" in grouped && e.entityId != "" ==> grouped[e.entityId] != grouped[""]
    modifies grouped.Values
    ensures after.Keys == grouped.Keys + {e.entityId}
    ensures forall id :: id in after ==> if id in grouped then after[id] == grouped[id] else fresh(after[id])
    ensures e.entityId != "" ==>
      after[e.entityId].items == (if e.entityId in grouped then old(grouped[e.entityId].items) else []) + [e]
    ensures e.entityId != "" && "" in after ==> after[""] != after[e.entityId]
  {
    after := grouped;
    if e.entityId !in after {
      var empty := new Group();
      after := after[e.entityId := empty];
    }
    after[e.entityId].Append(e);
  }

  function CurrentId(log: Log): string {
    if log == [] then "" else Last(log).entityId
  }

  /** The streams yielded so far and the one still open. */
  datatype Scan = Scan(yielded: seq<Log>, open: Log)

  ghost function Advanced(scan: Scan, current: string, e: Event): Scan {
    if current == e.entityId then scan.(open := scan.open + [e])
    else Scan(if current == "" then scan.yielded else scan.yielded + [scan.open], [e])
  }

  ghost function Scanned(log: Log): Scan {
    if log == [] then Scan([], [])
    else Advanced(Scanned(log[..|log| - 1]), CurrentId(log[..|log| - 1]), Last(log))
  }

  ghost function AllOf(scan: Scan, current: string): seq<Log> {
    if current == "" then scan.yielded else scan.yielded + [scan.open]
  }

  lemma {:induction false} ScannedNext(log: Log, n: nat)
    requires n < |log|
    ensures Scanned(log[..n + 1]) == Advanced(Scanned(log[..n]), CurrentId(log[..n]), log[n])
    ensures CurrentId(log[..n + 1]) == log[n].entityId
  {
    assert log[..n + 1][..n] == log[..n];
  }

  lemma {:induction false} AdvancedStreams(log: Log, scan: Scan, e: Event)
    requires Streams(log) == AllOf(scan, CurrentId(log))
    ensures Streams(log + [e]) == AllOf(Advanced(scan, CurrentId(log), e), e.entityId)
  {
    StreamsSnoc(log, e);
  }

  lemma {:induction false} ScannedStreams(log: Log)
    ensures Streams(log) == AllOf(Scanned(log), CurrentId(log))
  {
    if log != [] {
      var before := log[..|log| - 1];
      ScannedStreams(before);
      AdvancedStreams(before, Scanned(before), Last(log));
      assert log == before + [Last(log)];
    }
  }
}
