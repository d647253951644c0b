/** Events as instances of classes, as normalized mappings and as table rows
    (anywise/messages/model.py:82-106, anywise/messages/table.py:10-18 and 84-93),
    and the cache that finds an event's class (anywise/messages/model.py:199-212). */
module EventCodec {
  import opened Basics
  import opened ClassGraph

  /** Names of fields and columns: those the code spells out, and all others. */
  datatype Name =
    | EntityId | EventId | Timestamp                        // fields of every event
    | EventType | Version | Source | EventBody              // added by normalizing
    | RowId | GmtCreated | GmtModified                      // added by the table
    | Other(text: string)

  /** What the JSON column of the event table can hold. */
  datatype Json =
    | Null
    | Bool(b: bool)
    | Number(n: real)
    | Str(s: string)
    | Arr(items: seq<Json>)
    | Obj(members: map<Name, Json>)

  /** An event class: its field names in the order of `__struct_fields__`. */
  datatype EventClass = EventClass(modName: string, name: string, typeId: string, fields: seq<Name>,
                                   source: string, version: string)

  datatype EventObj = EventObj(cls: ClassId, values: map<Name, Json>)

  datatype CodecError = UnregisteredEventError | TypeError | KeyError

  const BASE_FIELDS: seq<Name> := [EntityId, EventId, Timestamp]

  const TABLE_RESERVED_VARS: set<Name> := {RowId, Version, Source, EventType, EventBody, GmtCreated, GmtModified}

  type Row = map<Name, Json>

  function DefaultTypeId(c: EventClass): string {
    c.modName + ":" + c.name
  }

  /** `__struct_fields__[: -len(base_fields)]`, taken for the fields the class itself declares. */
  function Own(c: EventClass): seq<Name> {
    if |c.fields| <= |BASE_FIELDS| then [] else c.fields[..|c.fields| - |BASE_FIELDS|]
  }

  /** A class derived from `Event`: it has the base fields, and no field twice. */
  ghost predicate IsEventClass(c: EventClass) {
    && (forall i, j :: 0 <= i < j < |c.fields| ==> c.fields[i] != c.fields[j])
    && (forall f :: f in BASE_FIELDS ==> f in c.fields)
  }

  /** The inherited fields come last, as they do when a struct declares its own
      fields as positional ones. */
  predicate BaseFieldsLast(c: EventClass) {
    forall f :: f in BASE_FIELDS ==> f !in Own(c)
  }

  ghost predicate InstanceOf(e: EventObj, c: EventClass) {
    forall f :: f in e.values <==> f in c.fields
  }

  function Restrict(values: map<Name, Json>, fields: seq<Name>): map<Name, Json> {
    map f | f in fields && f in values :: values[f]
  }

  /** `event.__normalized__()` */
  function Normalized(e: EventObj, c: EventClass): Row {
    Restrict(e.values, BASE_FIELDS)[
      EventType := Str(DefaultTypeId(c))][
      Version := Str(c.version)][
      Source := Str(c.source)][
      EventBody := Obj(Restrict(e.values, Own(c)))]
  }

  /** The inserted row, with the columns the database fills in. */
  function Stored(mapping: Row, id: Json, created: Json, modified: Json): Row {
    mapping[RowId := id][GmtCreated := created][GmtModified := modified]
  }

  /** `event_cls(**mapping, **body)`: a keyword given twice is refused, and so is
      one that is not a field. */
  function Construct(cls: ClassId, c: EventClass, mapping: Row, body: map<Name, Json>): Result<EventObj, CodecError> {
    if mapping.Keys * body.Keys != {} then Err(TypeError)
    else if mapping.Keys + body.Keys != (set f | f in c.fields) then Err(TypeError)
    else Ok(EventObj(cls, mapping + body))
  }

  /** `mapping_to_event(row)` once the class is looked up. */
  function FromRow(classes: seq<EventClass>, found: Option<ClassId>, row: Row): Result<EventObj, CodecError> {
    match found
    case None => Err(UnregisteredEventError)
    case Some(cls) =>
      if cls >= |classes| || EventBody !in row || !row[EventBody].Obj? then Err(KeyError)
      else Construct(cls, classes[cls], map k | k in row && k !in TABLE_RESERVED_VARS :: row[k], row[EventBody].members)
  }

  /** The columns of a stored event, and which of them are passed on when it is read. */
  lemma {:induction false} KeptColumns(e: EventObj, c: EventClass, id: Json, created: Json, modified: Json)
    ensures var row := Stored(Normalized(e, c), id, created, modified);
            && (map k | k in row && k !in TABLE_RESERVED_VARS :: row[k]) == Restrict(e.values, BASE_FIELDS)
            && EventType in row && row[EventType] == Str(DefaultTypeId(c))
            && EventBody in row && row[EventBody] == Obj(Restrict(e.values, Own(c)))
            && Version in row && row[Version] == Str(c.version)
            && Source in row && row[Source] == Str(c.source)
            && RowId in row && row[RowId] == id
            && GmtCreated in row && row[GmtCreated] == created
            && GmtModified in row && row[GmtModified] == modified
  {
  }

  /** The stored row, column by column: the type id is the module's name, a colon
      and the class's name; the last three fields of the class stay out of the body. */
  lemma {:induction false} StoredRow(e: EventObj, c: EventClass, id: Json, created: Json, modified: Json)
    requires forall f :: f in e.values <==> f in c.fields
    ensures var row := Stored(Normalized(e, c), id, created, modified);
      && (EventType in row && row[EventType].Str?)
      && (var text, n := row[EventType].s, |c.modName|;
          |text| == n + 1 + |c.name| && text[..n] == c.modName && text[n] == ':' && text[n + 1..] == c.name)
      && (EventBody in row && row[EventBody].Obj?)
      && (var body, n := row[EventBody].members, |c.fields| - 3;
          && (forall f :: f in body <==> exists k :: 0 <= k < n && c.fields[k] == f)
          && (forall f :: f in body ==> body[f] == e.values[f]))
      && (forall f: Name :: f.EntityId? || f.EventId? || f.Timestamp? ==>
            (f in row <==> f in c.fields) && (f in row ==> row[f] == e.values[f]))
  {
    KeptColumns(e, c, id, created, modified);
    var n := |c.fields| - 3;
    forall f ensures f in Own(c) <==> exists k :: 0 <= k < n && c.fields[k] == f {
      if k :| 0 <= k < n && c.fields[k] == f {
        assert Own(c)[k] == f;
      }
    }
  }

  /** Two classes are stored under one type id only if they share name and module,
      as far as module names contain no colon. */
  lemma {:induction false} TypeIdsDiffer(e: EventObj, c: EventClass, e': EventObj, d: EventClass)
    requires ':' !in c.modName && ':' !in d.modName
    ensures Normalized(e, c)[EventType] == Normalized(e', d)[EventType] <==> c.modName == d.modName && c.name == d.name
  {
    if DefaultTypeId(c) == DefaultTypeId(d) {
      var text := DefaultTypeId(c);
      assert text[|c.modName|] == ':' && text[|d.modName|] == ':';
      assert forall k :: 0 <= k < |c.modName| ==> text[k] == c.modName[k];
      assert forall k :: 0 <= k < |d.modName| ==> text[k] == d.modName[k];
      assert |c.modName| == |d.modName|;
      assert text[..|c.modName|] == c.modName && text[|c.modName| + 1..] == c.name;
      assert text[..|d.modName|] == d.modName && text[|d.modName| + 1..] == d.name;
    }
  }

  /** A column that is neither added by normalizing nor by the table. */
  ghost predicate PassedOn(row: Row, f: Name) {
    f in row && (f.EntityId? || f.EventId? || f.Timestamp? || f.Other?)
  }

  /** What is read from a row of a known class: the columns passed on and the body,
      if together they are the fields of the class and none comes twice. */
  lemma {:induction false} ReadRow(classes: seq<EventClass>, cls: ClassId, row: Row)
    requires cls < |classes| && EventBody in row && row[EventBody].Obj?
    ensures var body, r := row[EventBody].members, FromRow(classes, Some(cls), row);
      && (r.Ok? <==> && (forall f :: f in body ==> !PassedOn(row, f))
                     && (forall f :: f in classes[cls].fields <==> PassedOn(row, f) || f in body))
      && (r.Ok? ==> r.value.cls == cls && forall f :: f in r.value.values ==>
            r.value.values[f] == if f in body then body[f] else row[f])
      && (r.Err? ==> r.error == TypeError)
  {
    var body, kept := row[EventBody].members, map k | k in row && k !in TABLE_RESERVED_VARS :: row[k];
    assert forall f :: f in kept <==> PassedOn(row, f);
    assert kept.Keys * body.Keys == {} <==> forall f :: f in body ==> !PassedOn(row, f) by {
      assert forall f :: f in kept.Keys * body.Keys <==> PassedOn(row, f) && f in body;
    }
    var fields := set f | f in classes[cls].fields;
    assert kept.Keys + body.Keys == fields <==> forall f :: f in fields <==> PassedOn(row, f) || f in body;
    assert forall f :: f in fields <==> f in classes[cls].fields;
  }

  lemma {:induction false} EarlyIsOwn(c: EventClass)
    ensures forall k :: 0 <= k < |c.fields| - |BASE_FIELDS| ==> c.fields[k] in Own(c)
  {
    forall k | 0 <= k < |c.fields| - |BASE_FIELDS| ensures c.fields[k] in Own(c) {
      assert Own(c)[k] == c.fields[k];
    }
  }

  lemma {:induction false} BaseFieldsLastIff(c: EventClass)
    ensures BaseFieldsLast(c) <==>
      forall k :: 0 <= k < |c.fields| - 3 ==> c.fields[k] !in {EntityId, EventId, Timestamp}
  {
    EarlyIsOwn(c);
    if f :| f in BASE_FIELDS && f in Own(c) {
      var k :| 0 <= k < |Own(c)| && Own(c)[k] == f;
      assert c.fields[k] == f;
    }
  }

  lemma {:induction false} BasePlace(c: EventClass, f: Name) returns (k: nat)
    requires IsEventClass(c) && f in BASE_FIELDS && f !in Own(c)
    ensures k < |c.fields| <= k + |BASE_FIELDS| && c.fields[k] == f
  {
    assert f in c.fields;
    k :| 0 <= k < |c.fields| && c.fields[k] == f;
    EarlyIsOwn(c);
  }

  /** If no base field is taken for an own one, the own fields and the base fields are all there are. */
  lemma {:induction false} FieldsAreOwnAndBase(c: EventClass, f: Name)
    requires IsEventClass(c) && BaseFieldsLast(c)
    ensures f in c.fields <==> f in BASE_FIELDS || f in Own(c)
  {
    var i := BasePlace(c, BASE_FIELDS[0]);
    var j := BasePlace(c, BASE_FIELDS[1]);
    var k := BasePlace(c, BASE_FIELDS[2]);
    var n := |c.fields|;
    if f in c.fields && f !in Own(c) {
      var m :| 0 <= m < n && c.fields[m] == f;
      EarlyIsOwn(c);
      assert m == i || m == j || m == k;
    }
  }

  lemma {:induction false} PartsMakeWhole(e: EventObj, c: EventClass)
    requires InstanceOf(e, c) && BaseFieldsLast(c)
    requires forall f :: f in c.fields <==> f in BASE_FIELDS || f in Own(c)
    ensures Construct(e.cls, c, Restrict(e.values, BASE_FIELDS), Restrict(e.values, Own(c))) == Ok(e)
  {
    var mapping, body := Restrict(e.values, BASE_FIELDS), Restrict(e.values, Own(c));
    assert mapping.Keys * body.Keys == {};
    assert mapping.Keys + body.Keys == (set f | f in c.fields);
    assert mapping + body == e.values;
  }

  lemma {:induction false} OverlapRefused(e: EventObj, c: EventClass)
    requires InstanceOf(e, c) && IsEventClass(c) && !BaseFieldsLast(c)
    ensures Construct(e.cls, c, Restrict(e.values, BASE_FIELDS), Restrict(e.values, Own(c))) == Err(TypeError)
  {
    var f :| f in BASE_FIELDS && f in Own(c);
    assert f in Restrict(e.values, BASE_FIELDS).Keys * Restrict(e.values, Own(c)).Keys;
  }

  /** Storing an event and reading it back gives an equal event of the same class
      exactly when the lookup finds that class and its base fields come last;
      otherwise the event is unregistered, of another class, or its base fields
      are passed twice. */
  lemma {:induction false} RoundTripIff(e: EventObj, classes: seq<EventClass>, found: Option<ClassId>,
                                        id: Json, created: Json, modified: Json)
    requires e.cls < |classes| && IsEventClass(classes[e.cls]) && InstanceOf(e, classes[e.cls])
    ensures var c := classes[e.cls];
            var r := FromRow(classes, found, Stored(Normalized(e, c), id, created, modified));
            && (r == Ok(e) <==> found == Some(e.cls) && BaseFieldsLast(c))
            && (found == None ==> r == Err(UnregisteredEventError))
            && (found == Some(e.cls) && !BaseFieldsLast(c) ==> r == Err(TypeError))
  {
    var c := classes[e.cls];
    KeptColumns(e, c, id, created, modified);
    if BaseFieldsLast(c) {
      forall f ensures f in c.fields <==> f in BASE_FIELDS || f in Own(c) {
        FieldsAreOwnAndBase(c, f);
      }
      PartsMakeWhole(e, c);
    } else {
      OverlapRefused(e, c);
    }
  }

  // ---------------------------------------------------------- finding the class

  ghost predicate Registered(defs: Hierarchy, classes: seq<EventClass>, root: ClassId, typeId: string, c: ClassId) {
    c in AllSubclasses(defs, root) && c < |classes| && classes[c].typeId == typeId
  }

  /** A direct search of the strict subclasses that exist now. */
  ghost function Search(defs: Hierarchy, classes: seq<EventClass>, root: ClassId, typeId: string)
    : (found: Option<ClassId>)
    ensures found.Some? ==> Registered(defs, classes, root, typeId, found.value)
    ensures found.None? ==> forall c :: !Registered(defs, classes, root, typeId, c)
  {
    if c :| Registered(defs, classes, root, typeId, c) then
      (var c :| Registered(defs, classes, root, typeId, c); Some(c))
    else None
  }

  ghost predicate UniqueTypeIds(defs: Hierarchy, classes: seq<EventClass>, root: ClassId) {
    forall c, d, typeId :: Registered(defs, classes, root, typeId, c) && Registered(defs, classes, root, typeId, d) ==>
      c == d
  }

  lemma {:induction false} SearchFindsIff(defs: Hierarchy, classes: seq<EventClass>, root: ClassId, typeId: string,
                                          c: ClassId)
    requires UniqueTypeIds(defs, classes, root) && c < |classes| && classes[c].typeId == typeId
    ensures Search(defs, classes, root, typeId) == Some(c) <==> c in AllSubclasses(defs, root)
  {
    if c in AllSubclasses(defs, root) {
      assert Registered(defs, classes, root, typeId, c);
    }
  }

  lemma {:induction false} DefiningKeepsRegistered(defs: Hierarchy, classes: seq<EventClass>, root: ClassId,
                                                   def: ClassDef, info: EventClass, typeId: string, c: ClassId)
    requires |classes| == |defs| && WellFounded(defs + [def]) && c < |defs|
    ensures Registered(defs + [def], classes + [info], root, typeId, c) <==> Registered(defs, classes, root, typeId, c)
  {
    AllSubclassesExact(defs, root);
    AllSubclassesExact(defs + [def], root);
    SubclassStable(defs, def, c, root);
  }

  function AsAnswer(found: Option<ClassId>): Result<ClassId, CodecError> {
    match found
    case Some(c) => Ok(c)
    case None => Err(UnregisteredEventError)
  }

  /** The module-level cache, together with the classes defined so far. Lookups
      may search below any of `roots`; they all share the one cache. */
  class EventTypeRegistry {
    ghost const roots: set<ClassId>
    var defs: Hierarchy
    var classes: seq<EventClass>
    var cache: map<string, ClassId>

    constructor (ghost roots: set<ClassId>, defs: Hierarchy, classes: seq<EventClass>)
      requires |classes| == |defs| && forall root :: root in roots ==> UniqueTypeIds(defs, classes, root)
      ensures Valid() && this.roots == roots && this.defs == defs && this.classes == classes && cache == map[]
    {
      this.roots, this.defs, this.classes, this.cache := roots, defs, classes, map[];
    }

    ghost predicate Known(typeId: string, c: ClassId)
      reads this
    {
      exists root :: root in roots && Registered(defs, classes, root, typeId, c)
    }

    ghost predicate Valid()
      reads this
    {
      && |classes| == |defs|
      && (forall root :: root in roots ==> UniqueTypeIds(defs, classes, root))
      && (forall typeId :: typeId in cache ==> Known(typeId, cache[typeId]))
    }

    /** A class statement; the cache is not told. */
    method Define(def: ClassDef, info: EventClass)
      requires Valid() && WellFounded(defs + [def])
      requires forall root :: root in roots ==> UniqueTypeIds(defs + [def], classes + [info], root)
      modifies this`defs, this`classes
      ensures Valid() && defs == old(defs) + [def] && classes == old(classes) + [info]
    {
      forall typeId | typeId in cache
        ensures exists root :: root in roots && Registered(defs + [def], classes + [info], root, typeId, cache[typeId])
      {
        assert Known(typeId, cache[typeId]);
        var root :| root in roots && Registered(defs, classes, root, typeId, cache[typeId]);
        AllSubclassesExact(defs, root);
        SubclassIsYounger(defs, cache[typeId], root);
        DefiningKeepsRegistered(defs, classes, root, def, info, typeId, cache[typeId]);
      }
      defs := defs + [def];
      classes := classes + [info];
    }

    /** `{cls.__type_id__(): cls for cls in all_subclasses(root)}`, in any order of the set. */
    method CurrentTypes(root: ClassId) returns (types: map<string, ClassId>)
      requires Valid()
      ensures forall typeId :: typeId in types ==> Registered(defs, classes, root, typeId, types[typeId])
      ensures forall typeId, c :: Registered(defs, classes, root, typeId, c) ==> typeId in types
    {
      types := map[];
      var rest := AllSubclasses(defs, root);
      AllSubclassesExact(defs, root);
      while rest != {}
        invariant rest <= AllSubclasses(defs, root)
        invariant forall typeId :: typeId in types ==> Registered(defs, classes, root, typeId, types[typeId])
        invariant forall typeId, c :: Registered(defs, classes, root, typeId, c) ==> typeId in types || c in rest
        decreases rest
      {
        var c :| c in rest;
        SubclassIsYounger(defs, c, root);
        types := types[classes[c].typeId := c];
        rest := rest - {c};
      }
    }

    /** What a lookup will answer: the cached class, whatever root it was found
        under, or else what a direct search finds now. */
    ghost function Answer(typeId: string, root: ClassId): Option<ClassId>
      reads this
    {
      if typeId in cache then Some(cache[typeId]) else Search(defs, classes, root, typeId)
    }

    /** A lookup agrees with a direct search of the present subclasses of its root
        exactly when the id is not cached or the cached class is one of them. */
    method GetEventCls(typeId: string, root: ClassId) returns (r: Result<ClassId, CodecError>)
      requires Valid() && root in roots
      modifies this`cache
      ensures Valid()
      ensures r == AsAnswer(old(Answer(typeId, root)))
      ensures r == AsAnswer(Search(defs, classes, root, typeId))
         <==> (typeId in old(cache) ==> old(cache)[typeId] in AllSubclasses(defs, root))
      ensures roots == {root} ==> r == AsAnswer(Search(defs, classes, root, typeId))
      ensures r.Ok? ==> typeId in cache && cache[typeId] == r.value
    {
      if typeId in cache {
        assert Known(typeId, cache[typeId]);
        SearchFindsIff(defs, classes, root, typeId, cache[typeId]);
        return Ok(cache[typeId]);
      }
      var types := CurrentTypes(root);
      cache := cache + types;
      r := if typeId in cache then Ok(cache[typeId]) else Err(UnregisteredEventError);
    }

    /** A class found under one root answers for every other root, too. */
    method AnswersForOtherRoot(typeId: string, c: ClassId, root: ClassId, other: ClassId)
      returns (r: Result<ClassId, CodecError>)
      requires Valid() && cache == map[] && root in roots && other in roots
      requires Registered(defs, classes, root, typeId, c) && c !in AllSubclasses(defs, other)
      modifies this`cache
      ensures Valid() && r == Ok(c) && r != AsAnswer(Search(defs, classes, other, typeId))
    {
      var first := GetEventCls(typeId, root);
      r := GetEventCls(typeId, other);
    }

    /** `mapping_to_event(event_to_mapping(event))` through a stored row; `root` is `Event`. */
    method ReadBack(e: EventObj, root: ClassId, id: Json, created: Json, modified: Json)
      returns (r: Result<EventObj, CodecError>)
      requires Valid() && root in roots
      requires e.cls < |classes| && IsEventClass(classes[e.cls]) && InstanceOf(e, classes[e.cls])
      modifies this`cache
      ensures Valid()
      ensures var c := classes[e.cls];
        var last := forall k :: 0 <= k < |c.fields| - 3 ==> c.fields[k] !in {EntityId, EventId, Timestamp};
        r == Ok(e) <==> last && old(Answer(c.modName + ":" + c.name, root)) == Some(e.cls)
      ensures roots == {root} ==>
        var c := classes[e.cls];
        var last := forall k :: 0 <= k < |c.fields| - 3 ==> c.fields[k] !in {EntityId, EventId, Timestamp};
        r == Ok(e) <==> last && e.cls in AllSubclasses(defs, root) && c.typeId == c.modName + ":" + c.name
    {
      var row := Stored(Normalized(e, classes[e.cls]), id, created, modified);
      KeptColumns(e, classes[e.cls], id, created, modified);
      BaseFieldsLastIff(classes[e.cls]);
      var looked := GetEventCls(row[EventType].s, root);
      var found := if looked.Ok? then Some(looked.value) else None;
      RoundTripIff(e, classes, found, id, created, modified);
      assert roots == {root} ==>
        (found == Some(e.cls) <==> Registered(defs, classes, root, DefaultTypeId(classes[e.cls]), e.cls));
      r := FromRow(classes, found, row);
    }
  }
}
