/** Which registrations let concurrent sends cross: the configurations of
    `Dispatch` that the library builds from what was registered and included
    (anywise/anywise.py:81-111). */
module Sharing {
  import opened Basics
  import opened Callables
  import opened ClassGraph
  import opened Walks
  import opened GuardChain
  import opened Registry
  import opened Anywise
  import Dispatch

  /** One call of `send`: its message type and the scope it resolves in. */
  datatype Request = Request(mtype: ClassId, scope: nat)

  /** What was included, the guard classes in use, the scopes, a number for every
      guard object, and which registered guards may suspend before they follow
      their link. */
  datatype Setting = Setting(
    sources: seq<Source>,
    classes: set<FuncId>,
    scopes: seq<Scope>,
    numbers: map<Guard, nat>,
    suspends: GuardRef -> bool)

  /** The guards registered for a type, global ones first. */
  ghost function Refs(w: Setting, t: ClassId): (refs: seq<GuardRef>)
    ensures |refs| == |ChainFor(w.sources, t)|
    ensures forall k :: 0 <= k < |refs| ==> refs[k] == ChainFor(w.sources, t)[k].guard
  {
    var metas := ChainFor(w.sources, t);
    seq(|metas|, k requires 0 <= k < |metas| => metas[k].guard)
  }

  /** A scope makes one object of a class in use, and nobody makes that object of
      another class. Scopes may have it in common, as they do a singleton. */
  ghost predicate OwnObjects(w: Setting) {
    && (forall s :: s in w.scopes ==> OneObjectPerClass(s))
    && (forall m, n, c, d :: 0 <= m < |w.scopes| && 0 <= n < |w.scopes| && c in w.classes && d in w.classes ==>
          w.scopes[m].resolve(c, 0) == w.scopes[n].resolve(d, 0) ==> c == d)
  }

  ghost predicate NoScopeMakes(w: Setting, g: Guard) {
    forall n, c :: 0 <= n < |w.scopes| && c in w.classes ==> w.scopes[n].resolve(c, 0) != g
  }

  ghost predicate InUse(w: Setting, ref: GuardRef) {
    match ref
    case Instance(g) => NoScopeMakes(w, g)
    case GuardClass(id) => id in w.classes
    case GuardFunction(_) => false
  }

  ghost predicate Numbered(numbers: map<Guard, nat>) {
    forall g, h :: g in numbers && h in numbers && numbers[g] == numbers[h] ==> g == h
  }

  /** The type has a handler, and all guards registered for it are in use and can
      be resolved. Any other send is refused before it links. */
  ghost predicate Servable(w: Setting, r: Request) {
    && Commands(w.sources, r.mtype) != []
    && r.scope < |w.scopes| && AllGuards(ChainFor(w.sources, r.mtype))
    && (forall ref :: ref in Refs(w, r.mtype) ==> InUse(w, ref))
  }

  ghost predicate Served(w: Setting, r: Request) {
    && Servable(w, r)
    && (forall g :: g in Resolved(w.scopes[r.scope], ChainFor(w.sources, r.mtype)) ==> g in w.numbers)
  }

  ghost predicate Sound(w: Setting, requests: seq<Request>) {
    OwnObjects(w) && Numbered(w.numbers) && forall i :: 0 <= i < |requests| ==> Served(w, requests[i])
  }

  lemma {:induction false} NumberingExists(guards: set<Guard>) returns (numbers: map<Guard, nat>)
    ensures numbers.Keys == guards && Numbered(numbers) && forall g :: g in numbers ==> numbers[g] < |guards|
  {
    numbers := map[];
    if guards != {} {
      var g :| g in guards;
      var fewer := NumberingExists(guards - {g});
      numbers := fewer[g := |guards| - 1];
    }
  }

  /** Numbers are no condition: whatever requests can be served, a numbering makes
      the setting sound for them. */
  lemma {:induction false} CanBeNumbered(w: Setting, requests: seq<Request>) returns (numbers: map<Guard, nat>)
    requires OwnObjects(w) && forall i :: 0 <= i < |requests| ==> Servable(w, requests[i])
    ensures Sound(w.(numbers := numbers), requests)
  {
    var guards := set i, g | 0 <= i < |requests| &&
      g in Resolved(w.scopes[requests[i].scope], ChainFor(w.sources, requests[i].mtype)) :: g;
    numbers := NumberingExists(guards);
    var now := w.(numbers := numbers);
    forall i | 0 <= i < |requests| ensures Served(now, requests[i]) {
      assert Servable(w, requests[i]) && Refs(now, requests[i].mtype) == Refs(w, requests[i].mtype);
      forall ref | ref in Refs(now, requests[i].mtype) ensures InUse(now, ref) {
        assert InUse(w, ref);
      }
    }
  }

  ghost predicate Resolvable(w: Setting, r: Request, ref: GuardRef) {
    r.scope < |w.scopes| && InUse(w, ref) && ObjectOf(w.scopes[r.scope], ref) in w.numbers
  }

  function ObjectOf(scope: Scope, ref: GuardRef): Guard
    requires !ref.GuardFunction?
  {
    if ref.Instance? then ref.guard else scope.resolve(ref.id, 0)
  }

  ghost function Number(w: Setting, r: Request, ref: GuardRef): nat
    requires Resolvable(w, r, ref)
  {
    w.numbers[ObjectOf(w.scopes[r.scope], ref)]
  }

  /** Both requests resolve the guard to one object: one that was registered
      itself, a class in one scope, or a class whose object the scopes share. */
  ghost predicate SameObject(w: Setting, ref: GuardRef, r: Request, u: Request) {
    && r.scope < |w.scopes| && u.scope < |w.scopes| && !ref.GuardFunction?
    && ObjectOf(w.scopes[r.scope], ref) == ObjectOf(w.scopes[u.scope], ref)
  }

  /** One object serves two requests exactly when it is what both resolve one guard to. */
  lemma {:induction false} SameNumberIff(w: Setting, r: Request, a: GuardRef, u: Request, b: GuardRef)
    requires OwnObjects(w) && Numbered(w.numbers) && Resolvable(w, r, a) && Resolvable(w, u, b)
    ensures Number(w, r, a) == Number(w, u, b) <==> a == b && SameObject(w, a, r, u)
  {
    var g, h := ObjectOf(w.scopes[r.scope], a), ObjectOf(w.scopes[u.scope], b);
    assert Number(w, r, a) == Number(w, u, b) <==> g == h;
    if g == h && a.GuardClass? && b.GuardClass? {
      assert w.scopes[r.scope].resolve(a.id, 0) == w.scopes[u.scope].resolve(b.id, 0);
    }
  }

  // ------------------------------------------------------------- the configuration

  /** The objects a request resolves, as `_chain_guards` lists them. */
  ghost function SendOf(w: Setting, r: Request): (send: Dispatch.Send)
    requires Served(w, r)
    ensures send.mtype == r.mtype && |send.guards| == |Refs(w, r.mtype)|
  {
    var guards := Resolved(w.scopes[r.scope], ChainFor(w.sources, r.mtype));
    Dispatch.Send(r.mtype, seq(|guards|, k requires 0 <= k < |guards| => w.numbers[guards[k]]))
  }

  ghost function Waiting(w: Setting, requests: seq<Request>): set<nat>
    requires Sound(w, requests)
  {
    set i, k | 0 <= i < |requests| && 0 <= k < |Refs(w, requests[i].mtype)| && w.suspends(Refs(w, requests[i].mtype)[k])
      :: SendOf(w, requests[i]).guards[k]
  }

  ghost function ConfigOf(w: Setting, requests: seq<Request>): (cfg: Dispatch.Config)
    requires Sound(w, requests)
    ensures |cfg.sends| == |requests| && forall i :: 0 <= i < |requests| ==> cfg.sends[i] == SendOf(w, requests[i])
  {
    Dispatch.Config(seq(|requests|, i requires 0 <= i < |requests| => SendOf(w, requests[i])), Waiting(w, requests))
  }

  lemma {:induction false} GuardIsNumber(w: Setting, r: Request, k: nat)
    requires OwnObjects(w) && Served(w, r) && k < |Refs(w, r.mtype)|
    ensures Resolvable(w, r, Refs(w, r.mtype)[k]) && SendOf(w, r).guards[k] == Number(w, r, Refs(w, r.mtype)[k])
  {
    var metas, scope := ChainFor(w.sources, r.mtype), w.scopes[r.scope];
    var ref := Refs(w, r.mtype)[k];
    assert metas[k] in metas && scope in w.scopes;
    assert Resolved(scope, metas)[k] == ObjectOf(scope, ref) && Resolved(scope, metas)[k] in Resolved(scope, metas);
  }

  /** Every guard registered for a type is resolvable and has its number in the list. */
  lemma {:induction false} RefIsListed(w: Setting, r: Request, ref: GuardRef)
    requires OwnObjects(w) && Served(w, r) && ref in Refs(w, r.mtype)
    ensures Resolvable(w, r, ref) && Number(w, r, ref) in SendOf(w, r).guards
  {
    var k :| 0 <= k < |Refs(w, r.mtype)| && Refs(w, r.mtype)[k] == ref;
    GuardIsNumber(w, r, k);
  }

  /** An object of one request is in the list of another exactly when it comes of
      a guard that was registered for both, and both resolve that to it. */
  lemma {:induction false} ListedIff(w: Setting, r: Request, ref: GuardRef, u: Request)
    requires OwnObjects(w) && Numbered(w.numbers) && Served(w, r) && Served(w, u) && Resolvable(w, r, ref)
    ensures Number(w, r, ref) in SendOf(w, u).guards <==> SharedRef(w, ref, r, u)
  {
    if SharedRef(w, ref, r, u) {
      RefIsListed(w, u, ref);
      SameNumberIff(w, r, ref, u, ref);
    }
    if Number(w, r, ref) in SendOf(w, u).guards {
      var k :| 0 <= k < |SendOf(w, u).guards| && SendOf(w, u).guards[k] == Number(w, r, ref);
      GuardIsNumber(w, u, k);
      SameNumberIff(w, r, ref, u, Refs(w, u.mtype)[k]);
    }
  }

  lemma {:induction false} WaitsIff(w: Setting, requests: seq<Request>, i: nat, ref: GuardRef)
    requires Sound(w, requests) && i < |requests| && ref in Refs(w, requests[i].mtype) &&
      Resolvable(w, requests[i], ref)
    ensures Number(w, requests[i], ref) in Waiting(w, requests) <==> w.suspends(ref)
  {
    var number := Number(w, requests[i], ref);
    if w.suspends(ref) {
      var k :| 0 <= k < |Refs(w, requests[i].mtype)| && Refs(w, requests[i].mtype)[k] == ref;
      GuardIsNumber(w, requests[i], k);
    }
    if number in Waiting(w, requests) {
      var j, k :| 0 <= j < |requests| && 0 <= k < |Refs(w, requests[j].mtype)| &&
        w.suspends(Refs(w, requests[j].mtype)[k])
        && SendOf(w, requests[j]).guards[k] == number;
      GuardIsNumber(w, requests[j], k);
      SameNumberIff(w, requests[i], ref, requests[j], Refs(w, requests[j].mtype)[k]);
    }
  }

  /** What a call passes, as registered. */
  ghost function VisitedRefs(w: Setting, t: ClassId): seq<GuardRef> {
    Walk(Refs(w, t))
  }

  lemma {:induction false} RepeatsAlike(w: Setting, r: Request)
    requires OwnObjects(w) && Numbered(w.numbers) && Served(w, r)
    ensures SamePattern(Refs(w, r.mtype), SendOf(w, r).guards)
  {
    var refs, guards := Refs(w, r.mtype), SendOf(w, r).guards;
    forall j, k | 0 <= j < |refs| && 0 <= k < |refs| ensures refs[j] == refs[k] <==> guards[j] == guards[k] {
      GuardIsNumber(w, r, j);
      GuardIsNumber(w, r, k);
      SameNumberIff(w, r, refs[j], r, refs[k]);
    }
  }

  /** The objects passed are those of the registered guards passed. */
  lemma {:induction false} VisitsNumber(w: Setting, r: Request, k: nat)
    requires OwnObjects(w) && Numbered(w.numbers) && Served(w, r)
    ensures |Dispatch.Visits(SendOf(w, r))| == |VisitedRefs(w, r.mtype)|
    ensures k < |VisitedRefs(w, r.mtype)| ==>
      var ref := VisitedRefs(w, r.mtype)[k];
      ref in Refs(w, r.mtype) && Resolvable(w, r, ref) && Dispatch.Visits(SendOf(w, r))[k] == Number(w, r, ref)
  {
    var refs, guards := Refs(w, r.mtype), SendOf(w, r).guards;
    RepeatsAlike(w, r);
    WalksAsLong(refs, guards);
    if k < |Walk(refs)| {
      WalksMatch(refs, guards, k);
      var m :| 0 <= m < |refs| && m < |guards| && refs[m] == Walk(refs)[k] && guards[m] == Walk(guards)[k];
      GuardIsNumber(w, r, m);
    }
  }

  ghost predicate SameVisitAt(a: Dispatch.Send, b: Dispatch.Send, waiting: set<nat>, k: nat) {
    var v, u := Dispatch.Visits(a), Dispatch.Visits(b);
    k < |v| && k < |u| && (v[k] in b.guards ==> u[k] == v[k]) && (v[k] in waiting <==> u[k] in waiting)
  }

  lemma {:induction false} SameVisitsEverywhere(a: Dispatch.Send, b: Dispatch.Send, waiting: set<nat>)
    requires |Dispatch.Visits(a)| == |Dispatch.Visits(b)|
    requires forall k: nat :: k < |Dispatch.Visits(a)| ==> SameVisitAt(a, b, waiting, k)
    ensures Dispatch.SameVisits(a, b, waiting)
  {
    var v, u := Dispatch.Visits(a), Dispatch.Visits(b);
    forall k | 0 <= k < |v| ensures (v[k] in b.guards ==> u[k] == v[k]) && (v[k] in waiting <==> u[k] in waiting) {
      assert SameVisitAt(a, b, waiting, k);
    }
  }

  lemma {:induction false} PassesAlike(w: Setting, requests: seq<Request>, i: nat, j: nat, k: nat)
    requires Sound(w, requests) && i < |requests| && j < |requests| && requests[i].mtype == requests[j].mtype
    requires k < |VisitedRefs(w, requests[i].mtype)|
    ensures SameVisitAt(SendOf(w, requests[i]), SendOf(w, requests[j]), Waiting(w, requests), k)
  {
    var r, u := requests[i], requests[j];
    VisitsNumber(w, r, k);
    VisitsNumber(w, u, k);
    var ref := VisitedRefs(w, r.mtype)[k];
    ListedIff(w, r, ref, u);
    SameNumberIff(w, r, ref, u, ref);
    WaitsIff(w, requests, i, ref);
    WaitsIff(w, requests, j, ref);
  }

  /** Requests of one type pass the same places, even where a registry was
      included twice and objects repeat. */
  lemma {:induction false} BuiltIsAligned(w: Setting, requests: seq<Request>)
    requires Sound(w, requests)
    ensures Dispatch.Aligned(ConfigOf(w, requests))
  {
    forall i, j | 0 <= i < |requests| && 0 <= j < |requests| && requests[i].mtype == requests[j].mtype
      ensures Dispatch.SameVisits(SendOf(w, requests[i]), SendOf(w, requests[j]), Waiting(w, requests))
    {
      VisitsNumber(w, requests[i], 0);
      VisitsNumber(w, requests[j], 0);
      forall k: nat | k < |VisitedRefs(w, requests[i].mtype)| {
        PassesAlike(w, requests, i, j, k);
      }
      SameVisitsEverywhere(SendOf(w, requests[i]), SendOf(w, requests[j]), Waiting(w, requests));
    }
  }

  // ------------------------------------------------------- crossing, as registered

  /** A call for `r` may suspend in a guard that is, or comes before, one it
      shares with calls for `u`. */
  ghost predicate MayBeOvertaken(w: Setting, r: Request, u: Request) {
    var passed := VisitedRefs(w, r.mtype);
    exists p, q :: 0 <= p <= q < |passed| && w.suspends(passed[p]) && SharedRef(w, passed[q], r, u)
  }

  /** Both resolve this guard to one object. */
  ghost predicate SharedRef(w: Setting, ref: GuardRef, r: Request, u: Request) {
    ref in Refs(w, u.mtype) && SameObject(w, ref, r, u)
  }

  lemma {:induction false} ExposedIff(w: Setting, requests: seq<Request>, i: nat, j: nat)
    requires Sound(w, requests) && i < |requests| && j < |requests|
    ensures Dispatch.Exposed(ConfigOf(w, requests), i, j) <==> MayBeOvertaken(w, requests[i], requests[j])
  {
    var cfg, r, u := ConfigOf(w, requests), requests[i], requests[j];
    var v, passed := Dispatch.Visits(cfg.sends[i]), VisitedRefs(w, r.mtype);
    VisitsNumber(w, r, 0);
    forall k: nat | k < |passed|
      ensures v[k] in cfg.waiting <==> w.suspends(passed[k])
      ensures v[k] in cfg.sends[j].guards <==> SharedRef(w, passed[k], r, u)
    {
      VisitsNumber(w, r, k);
      WaitsIff(w, requests, i, passed[k]);
      ListedIff(w, r, passed[k], u);
    }
  }

  ghost predicate NotOvertaken(w: Setting, requests: seq<Request>, i: nat)
    requires i < |requests|
  {
    forall j :: 0 <= j < |requests| && j != i ==> !MayBeOvertaken(w, requests[i], requests[j])
  }

  ghost predicate NoneOvertakenByOtherTypes(w: Setting, requests: seq<Request>) {
    forall i, j :: 0 <= i < |requests| && 0 <= j < |requests| && requests[i].mtype != requests[j].mtype ==>
      !MayBeOvertaken(w, requests[i], requests[j])
  }

  lemma {:induction false} ShelteredIff(w: Setting, requests: seq<Request>)
    requires Sound(w, requests)
    ensures Dispatch.Sheltered(ConfigOf(w, requests)) <==> NoneOvertakenByOtherTypes(w, requests)
  {
    var cfg := ConfigOf(w, requests);
    if Dispatch.Sheltered(cfg) {
      forall i, j | 0 <= i < |requests| && 0 <= j < |requests| && requests[i].mtype != requests[j].mtype
        ensures !MayBeOvertaken(w, requests[i], requests[j])
      {
        assert cfg.sends[i].mtype != cfg.sends[j].mtype;
        ExposedIff(w, requests, i, j);
      }
    } else {
      var i, j :| 0 <= i < |requests| && 0 <= j < |requests| && cfg.sends[i].mtype != cfg.sends[j].mtype &&
        Dispatch.Exposed(cfg, i, j);
      ExposedIff(w, requests, i, j);
    }
  }

  /** Commands stay with the handlers of their own type under every interleaving
      exactly when no request may be overtaken by one of another type. */
  lemma {:induction false} NeverCrossIffNoneOvertaken(w: Setting, requests: seq<Request>)
    requires Sound(w, requests)
    ensures Dispatch.HandlersNeverCross(ConfigOf(w, requests)) <==> NoneOvertakenByOtherTypes(w, requests)
  {
    BuiltIsAligned(w, requests);
    Dispatch.NeverCrossIffSheltered(ConfigOf(w, requests));
    ShelteredIff(w, requests);
  }

  lemma {:induction false} UnexposedIff(w: Setting, requests: seq<Request>, i: nat)
    requires Sound(w, requests) && i < |requests|
    ensures Dispatch.Unexposed(ConfigOf(w, requests), i) <==> NotOvertaken(w, requests, i)
  {
    var cfg := ConfigOf(w, requests);
    if Dispatch.Unexposed(cfg, i) {
      forall j | 0 <= j < |requests| && j != i ensures !MayBeOvertaken(w, requests[i], requests[j]) {
        ExposedIff(w, requests, i, j);
      }
    } else {
      var j :| 0 <= j < |requests| && j != i && Dispatch.Exposed(cfg, i, j);
      ExposedIff(w, requests, i, j);
    }
  }

  /** A command runs in the handler its own scope resolved, under every
      interleaving, exactly when its request may be overtaken by no other one. */
  lemma {:induction false} OwnCopyIffNotOvertaken(w: Setting, requests: seq<Request>, i: nat)
    requires Sound(w, requests) && i < |requests|
    ensures Dispatch.StaysHome(ConfigOf(w, requests), i) <==> NotOvertaken(w, requests, i)
  {
    UnexposedIff(w, requests, i);
    Dispatch.OwnCopyIffUnexposed(ConfigOf(w, requests), i);
  }

  // ----------------------------------------------- which registrations bring that about

  ghost predicate Gives(entry: Entry, ref: GuardRef, target: ClassId) {
    entry.Guarded? && target in entry.guards && entry.guards[target] == ref
  }

  /** An included registry was told this guard for this target. */
  ghost predicate RegisteredFor(w: Setting, ref: GuardRef, target: ClassId) {
    exists s, entry :: s in w.sources && entry in s.history && Gives(entry, ref, target)
  }

  lemma {:induction false} GuardsIff(w: Setting, ref: GuardRef, target: ClassId)
    ensures GuardMeta(target, ref) in Guards(w.sources, target) <==> RegisteredFor(w, ref, target)
  {
    var meta := GuardMeta(target, ref);
    InFlatMapIff((s: Source) => GuardsFor(s.history, target), w.sources, meta);
    forall s: Source | s in w.sources
      ensures meta in GuardsFor(s.history, target) <==> exists entry :: entry in s.history && Gives(entry, ref, target)
    {
      InFlatMapIff(GuardGiven(target), s.history, meta);
      forall entry | entry in s.history ensures meta in GuardGiven(target)(entry) <==> Gives(entry, ref, target) {
      }
    }
  }

  lemma {:induction false} GuardsAreFor(w: Setting, meta: GuardMeta, target: ClassId)
    requires meta in Guards(w.sources, target)
    ensures meta == GuardMeta(target, meta.guard)
  {
    InFlatMapIff((s: Source) => GuardsFor(s.history, target), w.sources, meta);
    var s: Source :| s in w.sources && meta in GuardsFor(s.history, target);
    InFlatMapIff(GuardGiven(target), s.history, meta);
  }

  /** The guards of a type are those registered for it or for `Any`: one told for
      `Any` is there for every type. */
  lemma {:induction false} ListedIffRegistered(w: Setting, ref: GuardRef, t: ClassId)
    ensures ref in Refs(w, t) <==> RegisteredFor(w, ref, ANY) || RegisteredFor(w, ref, t)
  {
    var metas := ChainFor(w.sources, t);
    GuardsIff(w, ref, ANY);
    GuardsIff(w, ref, t);
    if ref in Refs(w, t) {
      var k :| 0 <= k < |metas| && metas[k].guard == ref;
      if metas[k] in Guards(w.sources, ANY) {
        GuardsAreFor(w, metas[k], ANY);
      } else {
        GuardsAreFor(w, metas[k], t);
      }
    }
    if RegisteredFor(w, ref, ANY) || RegisteredFor(w, ref, t) {
      var meta := GuardMeta(if RegisteredFor(w, ref, ANY) then ANY else t, ref);
      assert meta in metas;
      var k :| 0 <= k < |metas| && metas[k] == meta;
      assert Refs(w, t)[k] == ref;
    }
  }

  /** A guard told for `Any` that may suspend, is passed, and is one object for two
      requests of different types - one registered itself, or a singleton: a
      command can end up in a handler of the other type. */
  lemma {:induction false} GuardForAnyCrosses(w: Setting, requests: seq<Request>, i: nat, j: nat, ref: GuardRef)
    requires Sound(w, requests) && i < |requests| && j < |requests| && requests[i].mtype != requests[j].mtype
    requires RegisteredFor(w, ref, ANY) && w.suspends(ref) && ref in VisitedRefs(w, requests[i].mtype)
    requires SameObject(w, ref, requests[i], requests[j])
    ensures !Dispatch.HandlersNeverCross(ConfigOf(w, requests))
  {
    ListedIffRegistered(w, ref, requests[j].mtype);
    var passed := VisitedRefs(w, requests[i].mtype);
    var q :| 0 <= q < |passed| && passed[q] == ref;
    assert w.suspends(passed[q]) && SharedRef(w, passed[q], requests[i], requests[j]);
    NeverCrossIffNoneOvertaken(w, requests);
  }

  /** The first guard told for `Any` is always passed, and passed first. */
  lemma {:induction false} FirstForAnyIsPassed(w: Setting, t: ClassId)
    requires Guards(w.sources, ANY) != []
    ensures VisitedRefs(w, t) != [] && VisitedRefs(w, t)[0] == Guards(w.sources, ANY)[0].guard
  {
    WalkKeepsEnds(Refs(w, t));
  }

  /** The smallest case: the first thing told for `Any`, say a pre-handle that awaits. */
  lemma {:induction false} FirstForAnyCrosses(w: Setting, requests: seq<Request>, i: nat, j: nat)
    requires Sound(w, requests) && i < |requests| && j < |requests| && requests[i].mtype != requests[j].mtype
    requires Guards(w.sources, ANY) != []
    requires var first := Guards(w.sources, ANY)[0].guard;
      w.suspends(first) && SameObject(w, first, requests[i], requests[j])
    ensures !Dispatch.HandlersNeverCross(ConfigOf(w, requests))
  {
    var first := Guards(w.sources, ANY)[0];
    FirstForAnyIsPassed(w, requests[i].mtype);
    GuardsAreFor(w, first, ANY);
    GuardsIff(w, first.guard, ANY);
    assert VisitedRefs(w, requests[i].mtype)[0] in VisitedRefs(w, requests[i].mtype);
    GuardForAnyCrosses(w, requests, i, j, first.guard);
  }

  /** A guard that may suspend, is passed, and is one object for two requests of
      one type: the command can run in the handler the other request resolved. */
  lemma {:induction false} GuardOfTypeMixes(w: Setting, requests: seq<Request>, i: nat, j: nat, ref: GuardRef)
    requires Sound(w, requests) && i < |requests| && j < |requests| && i != j && requests[i].mtype == requests[j].mtype
    requires w.suspends(ref) && ref in VisitedRefs(w, requests[i].mtype) && SameObject(w, ref, requests[i], requests[j])
    ensures !Dispatch.StaysHome(ConfigOf(w, requests), i)
  {
    WalkStaysInside(Refs(w, requests[i].mtype));
    var passed := VisitedRefs(w, requests[i].mtype);
    var q :| 0 <= q < |passed| && passed[q] == ref;
    assert w.suspends(passed[q]) && SharedRef(w, passed[q], requests[i], requests[j]);
    OwnCopyIffNotOvertaken(w, requests, i);
  }

  lemma {:induction false} NothingToOvertake(w: Setting, r: Request, u: Request)
    requires (forall ref :: ref in Refs(w, r.mtype) ==> !w.suspends(ref)) ||
      (forall ref :: ref in Refs(w, r.mtype) ==> !SharedRef(w, ref, r, u))
    ensures !MayBeOvertaken(w, r, u)
  {
    var passed := VisitedRefs(w, r.mtype);
    WalkStaysInside(Refs(w, r.mtype));
    forall k | 0 <= k < |passed| ensures passed[k] in Refs(w, r.mtype) {
      assert passed[k] in passed;
    }
  }

  ghost predicate OnlyClasses(w: Setting, t: ClassId) {
    forall ref :: ref in Refs(w, t) ==> ref.GuardClass?
  }

  ghost predicate OnlyPostHandles(w: Setting, t: ClassId) {
    forall ref :: ref in Refs(w, t) ==> ref.Instance? && ref.guard.preHandle.None?
  }

  /** No class in use is one object in both scopes. */
  ghost predicate ScopesApart(w: Setting, r: Request, u: Request) {
    forall c :: c in w.classes ==> !SameObject(w, GuardClass(c), r, u)
  }

  /** Guard classes alone, in a scope that shares no object with the others: the
      send runs in its own handler. */
  lemma {:induction false} ClassesKeepApart(w: Setting, requests: seq<Request>, i: nat)
    requires Sound(w, requests) && i < |requests| && OnlyClasses(w, requests[i].mtype)
    requires forall j :: 0 <= j < |requests| && j != i ==> ScopesApart(w, requests[i], requests[j])
    ensures Dispatch.StaysHome(ConfigOf(w, requests), i)
  {
    OwnCopyIffNotOvertaken(w, requests, i);
    assert Served(w, requests[i]);
    forall j | 0 <= j < |requests| && j != i ensures !MayBeOvertaken(w, requests[i], requests[j]) {
      assert ScopesApart(w, requests[i], requests[j]);
      NothingToOvertake(w, requests[i], requests[j]);
    }
  }

  /** Of the objects the library makes, only those with a pre-handle suspend
      before they follow their link. */
  ghost predicate OnlyPreHandlesSuspend(w: Setting, t: ClassId) {
    forall ref :: ref in Refs(w, t) && ref.Instance? && w.suspends(ref) ==> ref.guard.preHandle.Some?
  }

  /** Post-handles alone, however they are shared, keep a send in its own handler. */
  lemma {:induction false} PostHandlesKeepApart(w: Setting, requests: seq<Request>, i: nat)
    requires Sound(w, requests) && i < |requests|
    requires OnlyPreHandlesSuspend(w, requests[i].mtype) && OnlyPostHandles(w, requests[i].mtype)
    ensures Dispatch.StaysHome(ConfigOf(w, requests), i)
  {
    OwnCopyIffNotOvertaken(w, requests, i);
    forall j | 0 <= j < |requests| && j != i ensures !MayBeOvertaken(w, requests[i], requests[j]) {
      NothingToOvertake(w, requests[i], requests[j]);
    }
  }

  /** Among the global guards, one that may suspend stands at or before a guard object. */
  ghost predicate PauseBeforeGlobal(w: Setting) {
    var global := Guards(w.sources, ANY);
    exists p, q :: 0 <= p <= q < |global| && w.suspends(global[p].guard) && global[q].guard.Instance?
  }

  lemma {:induction false} OneTarget(mapping: map<ClassId, seq<GuardMeta>>, s: Source, t: ClassId, u: ClassId,
                                     ref: GuardRef)
    requires KeepsGuards(mapping, s.history) && Unaliased(mapping) && ref.Instance?
    requires GuardMeta(t, ref) in Guards([s], t) && GuardMeta(u, ref) in Guards([s], u)
    ensures t == u
  {
    assert [] + [s] == [s];
    SourcesSnoc([], s, t);
    SourcesSnoc([], s, u);
    assert KeepsGuardsOf(mapping, s.history, t) && KeepsGuardsOf(mapping, s.history, u);
    var i :| 0 <= i < |At(mapping, t)| && At(mapping, t)[i] == GuardMeta(t, ref);
    var j :| 0 <= j < |At(mapping, u)| && At(mapping, u)[j] == GuardMeta(u, ref);
    assert mapping[t][i].guard == mapping[u][j].guard;
  }

  /** A registry gives each target objects of its own, so two types share global
      guards only. */
  lemma {:induction false} SharedIsGlobal(w: Setting, mapping: map<ClassId, seq<GuardMeta>>, s: Source, t: ClassId,
                                          u: ClassId, ref: GuardRef)
    requires w.sources == [s] && KeepsGuards(mapping, s.history) && Unaliased(mapping)
    requires t != u && ref.Instance? && ref in Refs(w, t) && ref in Refs(w, u)
    ensures RegisteredFor(w, ref, ANY)
  {
    ListedIffRegistered(w, ref, t);
    ListedIffRegistered(w, ref, u);
    if !RegisteredFor(w, ref, ANY) {
      GuardsIff(w, ref, t);
      GuardsIff(w, ref, u);
      OneTarget(mapping, s, t, u, ref);
    }
  }

  lemma {:induction false} GlobalsComeFirst(w: Setting, t: ClassId, k: nat)
    requires k < |Guards(w.sources, ANY)|
    ensures k < |Refs(w, t)| && Refs(w, t)[k] == Guards(w.sources, ANY)[k].guard
  {
  }

  lemma {:induction false} PauseBeforeGlobalOvertakes(w: Setting, r: Request, u: Request)
    requires PauseBeforeGlobal(w) && VisitedRefs(w, r.mtype) == Refs(w, r.mtype)
    requires r.scope < |w.scopes| && u.scope < |w.scopes|
    ensures MayBeOvertaken(w, r, u)
  {
    var passed, global := VisitedRefs(w, r.mtype), Guards(w.sources, ANY);
    var p, q :| 0 <= p <= q < |global| && w.suspends(global[p].guard) && global[q].guard.Instance?;
    GlobalsComeFirst(w, r.mtype, p);
    GlobalsComeFirst(w, r.mtype, q);
    GlobalsComeFirst(w, u.mtype, q);
    assert w.suspends(passed[p]) && SharedRef(w, passed[q], r, u);
  }

  /** In a chain without repetition, what is registered for `Any` stands among the first. */
  lemma {:induction false} GlobalHasItsPlace(w: Setting, t: ClassId, q: nat)
    requires Distinct(Refs(w, t)) && q < |Refs(w, t)| && RegisteredFor(w, Refs(w, t)[q], ANY)
    ensures q < |Guards(w.sources, ANY)|
  {
    var ref := Refs(w, t)[q];
    GuardsIff(w, ref, ANY);
    var k :| 0 <= k < |Guards(w.sources, ANY)| && Guards(w.sources, ANY)[k] == GuardMeta(ANY, ref);
    GlobalsComeFirst(w, t, k);
  }

  lemma {:induction false} SharedIsInstance(w: Setting, r: Request, u: Request, ref: GuardRef)
    requires Servable(w, r) && ref in Refs(w, r.mtype) && ScopesApart(w, r, u) && SameObject(w, ref, r, u)
    ensures ref.Instance?
  {
    assert InUse(w, ref);
  }

  /** One registry that was told no guard class twice for the type, and scopes that
      share no object: a send of this type may be overtaken by one of another
      type exactly when a global guard that may suspend stands at or before a
      global guard object. What the types were told themselves does not matter. */
  lemma {:induction false} OvertakenByOtherTypeIff(w: Setting, mapping: map<ClassId, seq<GuardMeta>>, s: Source,
                                                   r: Request, u: Request)
    requires w.sources == [s] && KeepsGuards(mapping, s.history) && Unaliased(mapping)
    requires Servable(w, r) && Servable(w, u) && r.mtype != u.mtype && ScopesApart(w, r, u)
    requires Distinct(Refs(w, r.mtype))
    ensures MayBeOvertaken(w, r, u) <==> PauseBeforeGlobal(w)
  {
    var passed := VisitedRefs(w, r.mtype);
    WalkIsWholeIffDistinct(Refs(w, r.mtype));
    if PauseBeforeGlobal(w) {
      PauseBeforeGlobalOvertakes(w, r, u);
    }
    if MayBeOvertaken(w, r, u) {
      var p, q :| 0 <= p <= q < |passed| && w.suspends(passed[p]) && SharedRef(w, passed[q], r, u);
      SharedIsInstance(w, r, u, passed[q]);
      SharedIsGlobal(w, mapping, s, r.mtype, u.mtype, passed[q]);
      GlobalHasItsPlace(w, r.mtype, q);
      GlobalsComeFirst(w, r.mtype, p);
      GlobalsComeFirst(w, r.mtype, q);
    }
  }

  // ------------------------------------------------------------------ from the start

  /** All guards come from one registration of objects. */
  ghost predicate OnlyGuards(history: seq<Entry>, refs: map<ClassId, GuardRef>) {
    && (forall entry :: entry in history && entry.Guarded? ==> entry == Guarded(refs)) && Guarded(refs) in history
    && (forall v :: v in refs ==> refs[v].Instance?)
  }

  lemma {:induction false} OnlyFrom(w: Setting, s: Source, refs: map<ClassId, GuardRef>, t: ClassId)
    requires w.sources == [s] && OnlyGuards(s.history, refs) && w.classes == {}
    ensures AllGuards(ChainFor(w.sources, t)) && forall ref :: ref in Refs(w, t) ==> InUse(w, ref)
    ensures ANY in refs ==> Guards(w.sources, ANY) != [] && Guards(w.sources, ANY)[0].guard == refs[ANY]
  {
    forall ref | ref in Refs(w, t) ensures ref.Instance? {
      ListedIffRegistered(w, ref, t);
    }
    forall m | m in ChainFor(w.sources, t) ensures !m.guard.GuardFunction? {
      var k :| 0 <= k < |ChainFor(w.sources, t)| && ChainFor(w.sources, t)[k] == m;
      assert Refs(w, t)[k] in Refs(w, t);
    }
    if ANY in refs {
      assert s in w.sources && Gives(Guarded(refs), refs[ANY], ANY);
      GuardsIff(w, refs[ANY], ANY);
      var first := Guards(w.sources, ANY)[0];
      GuardsAreFor(w, first, ANY);
      GuardsIff(w, first.guard, ANY);
    }
  }

  /** Two types with handlers, and one registration of guard objects, one of them for `Any`. */
  lemma {:induction false} ObjectForAnyCrosses(s: Source, refs: map<ClassId, GuardRef>, suspends: GuardRef -> bool,
                                               t: ClassId, u: ClassId)
    returns (w: Setting)
    requires OnlyGuards(s.history, refs) && ANY in refs && suspends(refs[ANY])
    requires t != u && Commands([s], t) != [] && Commands([s], u) != []
    ensures w.sources == [s] && w.classes == {} && w.suspends == suspends
    ensures Sound(w, [Request(t, 0), Request(u, 1)])
    ensures !Dispatch.HandlersNeverCross(ConfigOf(w, [Request(t, 0), Request(u, 1)]))
  {
    var scope := Scope((id, k) => refs[ANY].guard);
    w := Setting([s], {}, [scope, scope], map[], suspends);
    OnlyFrom(w, s, refs, t);
    OnlyFrom(w, s, refs, u);
    var numbers := CanBeNumbered(w, [Request(t, 0), Request(u, 1)]);
    w := w.(numbers := numbers);
    FirstForAnyCrosses(w, [Request(t, 0), Request(u, 1)], 0, 1);
  }

  method IncludeAlone(r: MessageRegistry) returns (aw: Anywise)
    requires r.Consistent()
    ensures aw.Valid() && aw.sources == [SourceOf(r)]
  {
    aw := new Anywise();
    var registries := [r];
    assert SourcesOf(registries) == [SourceOf(r)];
    aw.Include(registries);
  }

  lemma {:induction false} CommandsOfOne(s: Source, t: ClassId)
    ensures Commands([s], t) == Accepted(s.commandBase, s.history, t)
  {
    SourcesSnoc([], s, t);
    assert [] + [s] == [s];
  }

  /** A registry with handlers for two types is told one pre-handle that takes any
      command, and is included; two commands of these types are sent in scopes of
      their own. If the pre-handle awaits, one can reach the other one's handler. */
  method PreHandleForAnyCrosses(r: MessageRegistry, h: Hierarchy, g: GuardCallable, t: ClassId, u: ClassId)
    returns (aw: Anywise, ghost w: Setting)
    requires r.Valid() && forall entry :: entry in r.history ==> entry.Handled?
    requires Accepted(r.commandBase, r.history, t) != [] && Accepted(r.commandBase, r.history, u) != [] && t != u
    requires GuardTargets(h, g).Ok? && ANY in GuardTargets(h, g).value
    modifies r`guardMapping, r`history
    ensures aw.Valid() && w.sources == aw.sources && w.classes == {}
    ensures forall v :: Commands(aw.sources, v) == old(Accepted(r.commandBase, r.history, v))
    ensures forall ref: GuardRef :: w.suspends(ref) <==> ref.Instance? && ref.guard.preHandle == Some(g.id)
    ensures Sound(w, [Request(t, 0), Request(u, 1)])
    ensures !Dispatch.HandlersNeverCross(ConfigOf(w, [Request(t, 0), Request(u, 1)]))
  {
    ghost var before := r.history;
    ghost var refs;
    var error;
    error, refs := r.PreHandle(h, g);
    aw := IncludeAlone(r);
    forall v ensures Commands(aw.sources, v) == Accepted(r.commandBase, before, v) {
      CommandsOfOne(SourceOf(r), v);
      AcceptedSnoc(r.commandBase, before, Guarded(refs), v);
    }
    ghost var suspends := (ref: GuardRef) => ref.Instance? && ref.guard.preHandle == Some(g.id);
    w := ObjectForAnyCrosses(SourceOf(r), refs, suspends, t, u);
  }
}
