/** Merging registries and sending commands (anywise/anywise.py).

    The specification is the list of sources: the bases and the registration
    history of each registry at the time it was included. */
module Anywise {
  import opened Basics
  import opened ClassGraph
  import opened Callables
  import opened Onion
  import opened Walks
  import opened GuardChain
  import opened Registry

  datatype Source = Source(commandBase: Option<ClassId>, eventBase: Option<ClassId>, history: seq<Entry>)

  /** The handler metas that all sources give a type, in order of inclusion. */
  ghost function Commands(sources: seq<Source>, t: ClassId): seq<Meta> {
    FlatMap((s: Source) => Accepted(s.commandBase, s.history, t), sources)
  }

  ghost function Listeners(sources: seq<Source>, t: ClassId): seq<Meta> {
    FlatMap((s: Source) => Accepted(s.eventBase, s.history, t), sources)
  }

  ghost function Guards(sources: seq<Source>, t: ClassId): seq<GuardMeta> {
    FlatMap((s: Source) => GuardsFor(s.history, t), sources)
  }

  ghost function CommandsBy(sources: seq<Source>): ClassId -> seq<Meta> {
    (t: ClassId) => Commands(sources, t)
  }

  ghost function ListenersBy(sources: seq<Source>): ClassId -> seq<Meta> {
    (t: ClassId) => Listeners(sources, t)
  }

  lemma {:induction false} SourcesSnoc(sources: seq<Source>, s: Source, t: ClassId)
    ensures Commands(sources + [s], t) == Commands(sources, t) + Accepted(s.commandBase, s.history, t)
    ensures Listeners(sources + [s], t) == Listeners(sources, t) + Accepted(s.eventBase, s.history, t)
    ensures Guards(sources + [s], t) == Guards(sources, t) + GuardsFor(s.history, t)
  {
    FlatMapSnoc((s: Source) => Accepted(s.commandBase, s.history, t), sources, s);
    FlatMapSnoc((s: Source) => Accepted(s.eventBase, s.history, t), sources, s);
    FlatMapSnoc((s: Source) => GuardsFor(s.history, t), sources, s);
  }

  // ------------------------------------------------- one registry or several

  ghost function Joined(sources: seq<Source>): seq<Entry> {
    FlatMap((s: Source) => s.history, sources)
  }

  /** Including several registries with the same bases gives every type the
      handlers, listeners and guards of one registry that received all their
      registrations in order of inclusion. */
  lemma {:induction false} IncludingIsJoining(sources: seq<Source>, commandBase: Option<ClassId>,
                                              eventBase: Option<ClassId>, t: ClassId)
    requires forall s :: s in sources ==> s.commandBase == commandBase && s.eventBase == eventBase
    ensures Commands(sources, t) == Accepted(commandBase, Joined(sources), t)
    ensures Listeners(sources, t) == Accepted(eventBase, Joined(sources), t)
    ensures Guards(sources, t) == GuardsFor(Joined(sources), t)
  {
    if sources != [] {
      var before, last := sources[..|sources| - 1], sources[|sources| - 1];
      assert sources == before + [last];
      IncludingIsJoining(before, commandBase, eventBase, t);
      SourcesSnoc(before, last, t);
      FlatMapSnoc((s: Source) => s.history, before, last);
      FlatMapAppend(GivenBy(commandBase, t), Joined(before), last.history);
      FlatMapAppend(GivenBy(eventBase, t), Joined(before), last.history);
      FlatMapAppend(GuardGiven(t), Joined(before), last.history);
    }
  }

  // ------------------------------------------------------- merging dictionaries

  /** A dictionary of lists once the lists of some types have been added. */
  ghost function Merged<T>(mine: map<ClassId, seq<T>>, theirs: map<ClassId, seq<T>>, done: set<ClassId>)
    : map<ClassId, seq<T>>
  {
    map t | t in mine.Keys + theirs.Keys * done :: At(mine, t) + if t in done then At(theirs, t) else []
  }

  ghost function MergedAll<T>(mine: map<ClassId, seq<T>>, theirs: map<ClassId, seq<T>>): map<ClassId, seq<T>> {
    Merged(mine, theirs, theirs.Keys)
  }

  lemma {:induction false} MergeNone<T>(mine: map<ClassId, seq<T>>, theirs: map<ClassId, seq<T>>)
    ensures Merged(mine, theirs, theirs.Keys - theirs.Keys) == mine
  {
    assert theirs.Keys - theirs.Keys == {};
    forall t | t in mine ensures Merged(mine, theirs, {})[t] == mine[t] {
      assert At(mine, t) + [] == mine[t];
    }
  }

  lemma {:induction false} MergeOne<T>(mine: map<ClassId, seq<T>>, theirs: map<ClassId, seq<T>>, rest: set<ClassId>,
                                       t: ClassId)
    requires rest <= theirs.Keys && t in rest
    ensures Plus(Merged(mine, theirs, theirs.Keys - rest), t, theirs[t])
      == Merged(mine, theirs, theirs.Keys - (rest - {t}))
  {
    var done := theirs.Keys - rest;
    assert theirs.Keys - (rest - {t}) == done + {t};
    assert At(Merged(mine, theirs, done), t) == At(mine, t);
  }

  lemma {:induction false} MergedAt<T>(mine: map<ClassId, seq<T>>, theirs: map<ClassId, seq<T>>, t: ClassId)
    ensures At(MergedAll(mine, theirs), t) == At(mine, t) + At(theirs, t)
    ensures t in MergedAll(mine, theirs) <==> t in mine || t in theirs
  {
    assert At(mine, t) + [] == At(mine, t);
  }

  // ------------------------------------------------------------ resolving guards

  /** A scope resolves a guard class to an object, perhaps another one each time. */
  datatype Scope = Scope(resolve: (FuncId, nat) -> Guard)

  function ResolveGuard(scope: Scope, meta: GuardMeta, k: nat): Guard
    requires !meta.guard.GuardFunction?
  {
    match meta.guard
    case Instance(guard) => guard
    case GuardClass(id) => scope.resolve(id, k)
  }

  ghost predicate AllGuards(metas: seq<GuardMeta>) {
    forall m :: m in metas ==> !m.guard.GuardFunction?
  }

  function Resolved(scope: Scope, metas: seq<GuardMeta>): (guards: seq<Guard>)
    requires AllGuards(metas)
    ensures |guards| == |metas|
  {
    seq(|metas|, k requires 0 <= k < |metas| => ResolveGuard(scope, metas[k], k))
  }

  /** A guard object stands for itself, a guard class for what the scope makes of it there. */
  lemma {:induction false} ResolvedAt(scope: Scope, metas: seq<GuardMeta>, k: nat)
    requires AllGuards(metas) && k < |metas|
    ensures var guard := Resolved(scope, metas)[k];
      guard == if metas[k].guard.Instance? then metas[k].guard.guard else scope.resolve(metas[k].guard.id, k)
  {
  }

  /** The metas in front of the first plain function. */
  function BeforeFunction(metas: seq<GuardMeta>): (proper: seq<GuardMeta>)
    ensures AllGuards(proper) && proper <= metas
    ensures |proper| < |metas| ==> metas[|proper|].guard.GuardFunction?
    ensures AllGuards(metas) <==> proper == metas
  {
    if metas == [] || metas[0].guard.GuardFunction? then [] else [metas[0]] + BeforeFunction(metas[1..])
  }

  ghost function OwnGuards(sources: seq<Source>, t: ClassId): seq<GuardMeta> {
    if t == ANY then [] else Guards(sources, t)
  }

  /** The guard metas of a send, global ones first. */
  ghost function ChainFor(sources: seq<Source>, t: ClassId): seq<GuardMeta> {
    Guards(sources, ANY) + OwnGuards(sources, t)
  }

  function HandlerOf(meta: Meta): Handler {
    Handler(meta.func, meta.isContexted)
  }

  /** The handler registered last. */
  ghost function LastHandler(sources: seq<Source>, t: ClassId): Handler
    requires Commands(sources, t) != []
  {
    HandlerOf(Commands(sources, t)[|Commands(sources, t)| - 1])
  }

  // ------------------------------------------------------------------ managers

  ghost predicate GuardsReflect(mapping: map<ClassId, seq<GuardMeta>>, sources: seq<Source>, t: ClassId) {
    At(mapping, t) == OwnGuards(sources, t)
  }

  class HandlerManager {
    var handlerMetas: map<ClassId, Meta>
    var guardMapping: map<ClassId, seq<GuardMeta>>
    var globalGuards: seq<GuardMeta>

    constructor ()
      ensures Reflects([])
    {
      handlerMetas, guardMapping, globalGuards := map[], map[], [];
    }

    ghost predicate Reflects(sources: seq<Source>)
      reads this
    {
      && KeepsLast(handlerMetas, CommandsBy(sources), [])
      && globalGuards == Guards(sources, ANY)
      && forall t :: GuardsReflect(guardMapping, sources, t)
    }

    method IncludeHandlers(commandMapping: map<ClassId, Meta>, ghost sources: seq<Source>, ghost s: Source)
      requires KeepsLast(handlerMetas, CommandsBy(sources), [])
      requires KeepsLast(commandMapping, AcceptedBy(s.commandBase, s.history), [])
      modifies this`handlerMetas
      ensures KeepsLast(handlerMetas, CommandsBy(sources + [s]), [])
    {
      UpdateKeepsLast(handlerMetas, commandMapping, sources, s);
      handlerMetas := handlerMetas + commandMapping;
    }

    /** Guards for `Any` go to the global list, all others to their target, in
        any order of the targets. */
    method IncludeGuards(mapping: map<ClassId, seq<GuardMeta>>)
      modifies this`guardMapping, this`globalGuards
      ensures globalGuards == old(globalGuards) + At(mapping, ANY)
      ensures guardMapping == MergedAll(old(guardMapping), mapping - {ANY})
    {
      ghost var others := mapping - {ANY};
      var rest := mapping.Keys;
      MergeNone(guardMapping, others);
      assert rest - {ANY} == others.Keys;
      while rest != {}
        invariant rest <= mapping.Keys
        invariant globalGuards == old(globalGuards) + if ANY in rest then [] else At(mapping, ANY)
        invariant guardMapping == Merged(old(guardMapping), others, others.Keys - (rest - {ANY}))
        decreases rest
      {
        var target :| target in rest;
        if target == ANY {
          globalGuards := globalGuards + mapping[target];
          assert (rest - {target}) - {ANY} == rest - {ANY};
        } else {
          MergeOne(old(guardMapping), others, rest - {ANY}, target);
          guardMapping := Plus(guardMapping, target, mapping[target]);
          assert (rest - {target}) - {ANY} == (rest - {ANY}) - {target};
        }
        rest := rest - {target};
      }
      assert others.Keys - (rest - {ANY}) == others.Keys;
    }

    lemma {:induction false} LastCommand(sources: seq<Source>, t: ClassId)
      requires Reflects(sources)
      ensures IsLast(handlerMetas, t, Commands(sources, t))
      ensures globalGuards + At(guardMapping, t) == ChainFor(sources, t)
    {
      assert Commands(sources, t) + [] == Commands(sources, t);
      assert IsLast(handlerMetas, t, CommandsBy(sources)(t) + ForType([], t));
      assert GuardsReflect(guardMapping, sources, t);
    }

    /** `resolve_handler`: the handler registered last, behind freshly linked
        guards. A plain function among them has no `chain_next`; those in front
        of it have been linked by then. */
    method ResolveHandler(t: ClassId, scope: Scope, ghost sources: seq<Source>) returns (head: Result<Link, Failure>)
      requires Reflects(sources)
      modifies Resolved(scope, BeforeFunction(ChainFor(sources, t)))`next
      ensures head.Err? ==> head.error == if Commands(sources, t) == [] then UnregisteredMessage else NotAGuard
      ensures head.Ok? <==> Commands(sources, t) != [] && AllGuards(ChainFor(sources, t))
      ensures head.Ok? ==>
        Linked(head.value, Walk(Resolved(scope, ChainFor(sources, t))), Some(LastHandler(sources, t)))
    {
      LastCommand(sources, t);
      if t !in handlerMetas {
        return Err(UnregisteredMessage);
      }
      var metas := globalGuards + At(guardMapping, t);
      var guards := BeforeFunction(metas);
      if |guards| < |metas| {
        var _ := ChainGuards(Resolved(scope, guards), ToFunction(metas[|guards|].guard.id));
        return Err(NotAGuard);
      }
      var link := ChainGuards(Resolved(scope, guards), ToHandler(HandlerOf(handlerMetas[t])));
      return Ok(link);
    }

    /** The handlers and the guards of one registry. */
    method Include(commandMapping: map<ClassId, Meta>, mapping: map<ClassId, seq<GuardMeta>>,
                   ghost sources: seq<Source>, ghost s: Source)
      requires Reflects(sources)
      requires KeepsLast(commandMapping, AcceptedBy(s.commandBase, s.history), []) && KeepsGuards(mapping, s.history)
      modifies this
      ensures Reflects(sources + [s])
    {
      assert KeepsGuardsOf(mapping, s.history, ANY);
      SourcesSnoc(sources, s, ANY);
      MergedGuardsReflect(guardMapping, mapping, sources, s);
      IncludeHandlers(commandMapping, sources, s);
      IncludeGuards(mapping);
    }
  }

  lemma {:induction false} MergedGuardsReflect(mine: map<ClassId, seq<GuardMeta>>,
                                               mapping: map<ClassId, seq<GuardMeta>>,
                                               sources: seq<Source>, s: Source)
    requires KeepsGuards(mapping, s.history) && forall t :: GuardsReflect(mine, sources, t)
    ensures forall t :: GuardsReflect(MergedAll(mine, mapping - {ANY}), sources + [s], t)
  {
    forall t ensures GuardsReflect(MergedAll(mine, mapping - {ANY}), sources + [s], t) {
      assert GuardsReflect(mine, sources, t) && KeepsGuardsOf(mapping, s.history, t);
      MergedAt(mine, mapping - {ANY}, t);
      SourcesSnoc(sources, s, t);
    }
  }

  lemma {:induction false} UpdateKeepsLast(metas: map<ClassId, Meta>, more: map<ClassId, Meta>, sources: seq<Source>,
                                           s: Source)
    requires KeepsLast(metas, CommandsBy(sources), [])
    requires KeepsLast(more, AcceptedBy(s.commandBase, s.history), [])
    ensures KeepsLast(metas + more, CommandsBy(sources + [s]), [])
  {
    var after := CommandsBy(sources + [s]);
    forall t ensures IsLast(metas + more, t, after(t) + ForType([], t)) {
      SourcesSnoc(sources, s, t);
      var a, b := Commands(sources, t), Accepted(s.commandBase, s.history, t);
      assert IsLast(metas, t, CommandsBy(sources)(t) + ForType([], t));
      assert IsLast(more, t, AcceptedBy(s.commandBase, s.history)(t) + ForType([], t));
      assert a + [] == a && b + [] == b && (a + b) + [] == a + b;
    }
  }

  class ListenerManager {
    var listenerMetas: map<ClassId, MetaList>

    constructor ()
      ensures listenerMetas == map[] && Reflects([])
    {
      listenerMetas := map[];
    }

    ghost predicate Reflects(sources: seq<Source>)
      reads this, listenerMetas.Values
    {
      KeepsAll(listenerMetas, ListenersBy(sources))
    }

    /** The lists of the registry are copied first; none of them becomes a list of the manager. */
    method IncludeListeners(eventMapping: map<ClassId, MetaList>, ghost sources: seq<Source>, ghost s: Source)
      requires Reflects(sources) && HoldsAll(ContentsOf(eventMapping), AcceptedBy(s.eventBase, s.history))
      modifies this`listenerMetas, listenerMetas.Values
      ensures Reflects(sources + [s]) && fresh(listenerMetas.Values - old(listenerMetas.Values))
    {
      MergedHolds(ContentsOf(listenerMetas), ContentsOf(eventMapping), sources, s);
      listenerMetas := MergeInto(listenerMetas, ContentsOf(eventMapping));
    }
  }

  /** Add every copied list, in any order of the types. */
  method MergeInto(mapping: map<ClassId, MetaList>, copies: Contents) returns (updated: map<ClassId, MetaList>)
    requires OwnLists(mapping)
    modifies mapping.Values
    ensures OwnLists(updated) && KeepsLists(mapping, updated) && fresh(updated.Values - mapping.Values)
    ensures ContentsOf(updated) == MergedAll(old(ContentsOf(mapping)), copies)
  {
    updated := mapping;
    ghost var mine := ContentsOf(mapping);
    var rest := copies.Keys;
    MergeNone(mine, copies);
    while rest != {}
      invariant rest <= copies.Keys
      invariant OwnLists(updated) && KeepsLists(mapping, updated) && fresh(updated.Values - mapping.Values)
      invariant ContentsOf(updated) == Merged(mine, copies, copies.Keys - rest)
      decreases rest
    {
      var t :| t in rest;
      MergeOne(mine, copies, rest, t);
      updated := AddTo(updated, t, copies[t]);
      rest := rest - {t};
    }
    assert copies.Keys - rest == copies.Keys;
  }

  lemma {:induction false} MergedHolds(mine: Contents, theirs: Contents, sources: seq<Source>, s: Source)
    requires HoldsAll(mine, ListenersBy(sources)) && HoldsAll(theirs, AcceptedBy(s.eventBase, s.history))
    ensures HoldsAll(MergedAll(mine, theirs), ListenersBy(sources + [s]))
  {
    var merged, after := MergedAll(mine, theirs), ListenersBy(sources + [s]);
    forall t ensures IsAll(merged, t, after(t)) {
      SourcesSnoc(sources, s, t);
      MergedAt(mine, theirs, t);
      assert IsAll(mine, t, ListenersBy(sources)(t)) && IsAll(theirs, t, AcceptedBy(s.eventBase, s.history)(t));
    }
  }

  // ------------------------------------------------------------------- Anywise

  ghost function SourceOf(r: MessageRegistry): Source
    reads r
  {
    Source(r.commandBase, r.eventBase, r.history)
  }

  class Anywise {
    const handlers: HandlerManager
    const listeners: ListenerManager
    ghost var sources: seq<Source>

    constructor ()
      ensures Valid() && sources == [] && listeners.listenerMetas == map[] && fresh(handlers) && fresh(listeners)
    {
      handlers := new HandlerManager();
      listeners := new ListenerManager();
      sources := [];
    }

    ghost predicate Valid()
      reads this, handlers, listeners, listeners.listenerMetas.Values
    {
      handlers.Reflects(sources) && listeners.Reflects(sources)
    }

    /** The loop body of `include`. */
    method IncludeOne(r: MessageRegistry)
      requires Valid() && r.Consistent()
      modifies this`sources, handlers, listeners, listeners.listenerMetas.Values
      ensures Valid() && sources == old(sources) + [SourceOf(r)]
      ensures fresh(listeners.listenerMetas.Values - old(listeners.listenerMetas.Values))
    {
      ghost var s := SourceOf(r);
      handlers.Include(r.commandMapping, r.guardMapping, sources, s);
      listeners.IncludeListeners(r.eventMapping, sources, s);
      sources := sources + [s];
    }

    /** The loop of `include`. */
    method IncludeEach(registries: seq<MessageRegistry>)
      requires Valid() && AllApart(registries, listeners.listenerMetas.Values)
      modifies this`sources, handlers, listeners, listeners.listenerMetas.Values
      ensures Valid() && sources == old(sources + SourcesOf(registries))
      ensures fresh(listeners.listenerMetas.Values - old(listeners.listenerMetas.Values))
    {
      ghost var given := SourcesOf(registries);
      for n := 0 to |registries|
        invariant Valid() && sources == old(sources) + given[..n]
        invariant fresh(listeners.listenerMetas.Values - old(listeners.listenerMetas.Values))
      {
        assert registries[n] in registries && Apart(registries[n], old(listeners.listenerMetas.Values));
        TakeOneMore(old(sources), given, n);
        IncludeOne(registries[n]);
      }
      assert given[..|registries|] == given;
    }

    /** `include`: the registries stay as they are, and none of their lists
        becomes a list of this object. */
    method Include(registries: seq<MessageRegistry>)
      requires Valid() && AllApart(registries, listeners.listenerMetas.Values)
      modifies this`sources, handlers, listeners, listeners.listenerMetas.Values
      ensures Valid() && AllApart(registries, listeners.listenerMetas.Values)
      ensures sources == old(sources) + SourcesOf(registries)
      ensures fresh(listeners.listenerMetas.Values - old(listeners.listenerMetas.Values))
    {
      IncludeEach(registries);
      forall r | r in registries ensures Apart(r, listeners.listenerMetas.Values) {
        assert Apart(r, old(listeners.listenerMetas.Values));
      }
    }

    /** `send` with the default strategy: the command goes through the guards its
        type was given by all included registries - global ones first, as far as
        the walk over the resolved objects visits them - into the handler
        registered last, whatever links earlier sends left behind. */
    method Send(t: ClassId, cmd: Command, context: Option<Context>, scope: Scope, code: Code)
      returns (after: Context, outcome: Outcome)
      requires Valid()
      modifies Resolved(scope, BeforeFunction(ChainFor(sources, t)))`next
      ensures Commands(sources, t) == [] || !AllGuards(ChainFor(sources, t)) ==>
        && after == (if context.Some? then context.value else code.emptyContext)
        && outcome == Err(if Commands(sources, t) == [] then UnregisteredMessage else NotAGuard)
      ensures Commands(sources, t) != [] && AllGuards(ChainFor(sources, t)) ==>
        var chain := Walk(Resolved(scope, ChainFor(sources, t)));
        && (after, outcome) == Phased(code, Layers(chain), Some(LastHandler(sources, t)), cmd, ContextOf(code, context))
        && outcome != Err(DanglingGuard)
      ensures Commands(sources, t) != [] && AllGuards(ChainFor(sources, t)) ==>
        var chain, h := Walk(Resolved(scope, ChainFor(sources, t))), LastHandler(sources, t);
        var ctx := if context.Some? then context.value else code.emptyContext;
        IsAnswer(code, chain, h, cmd, ctx, after, outcome)
    {
      after := ContextOf(code, context);
      var head := handlers.ResolveHandler(t, scope, sources);
      if head.Err? {
        return after, Err(head.error);
      }
      after, outcome := Invoke(head.value, code, cmd, after, Walk(Resolved(scope, ChainFor(sources, t))),
        LastHandler(sources, t));
    }
  }

  /** A send without a context starts from an empty one. */
  function ContextOf(code: Code, context: Option<Context>): Context {
    if context.Some? then context.value else code.emptyContext
  }

  /** The registry is in order and none of its lists is among the given ones. */
  ghost predicate Apart(r: MessageRegistry, lists: set<MetaList>)
    reads r, r.eventMapping.Values
  {
    r.Consistent() && r.eventMapping.Values !! lists
  }

  ghost predicate AllApart(registries: seq<MessageRegistry>, lists: set<MetaList>)
    reads registries, set r, l | r in registries && l in r.eventMapping.Values :: l
  {
    forall r :: r in registries ==> Apart(r, lists)
  }

  lemma {:induction false} TakeOneMore<T>(before: seq<T>, more: seq<T>, n: nat)
    requires n < |more|
    ensures before + more[..n + 1] == before + more[..n] + [more[n]]
  {
  }

  ghost function SourcesOf(registries: seq<MessageRegistry>): seq<Source>
    reads registries
  {
    seq(|registries|, k requires 0 <= k < |registries| reads registries => SourceOf(registries[k]))
  }

  /** Something a registry may be told. */
  datatype Registration =
    | HandlerFor(target: Target)
    | PreHandleBy(guard: GuardCallable)
    | PostHandleBy(guard: GuardCallable)
    | GuardBy(guard: GuardCallable)

  method Tell(r: MessageRegistry, h: Hierarchy, registration: Registration) returns (error: Option<RegisterError>)
    requires r.Valid()
    modifies r, r.eventMapping.Values
    ensures r.Valid() && fresh(r.eventMapping.Values - old(r.eventMapping.Values))
  {
    match registration {
      case HandlerFor(target) => error := r.Register(h, target);
      case PreHandleBy(guard) => ghost var refs; error, refs := r.PreHandle(h, guard);
      case PostHandleBy(guard) => ghost var refs; error, refs := r.PostHandle(h, guard);
      case GuardBy(guard) => ghost var refs; error, refs := r.AddGuard(h, guard);
    }
  }

  /** A registry that goes on registering after it was included changes nothing
      for those who included it, and may be included again. */
  method RegisterAfterInclude(aw: Anywise, r: MessageRegistry, h: Hierarchy, registrations: seq<Registration>)
    requires aw.Valid() && r.Valid() && r.eventMapping.Values !! aw.listeners.listenerMetas.Values
    modifies r, r.eventMapping.Values
    ensures aw.Valid() && aw.sources == old(aw.sources)
    ensures unchanged(aw.handlers) && unchanged(aw.listeners)
    ensures forall l :: l in aw.listeners.listenerMetas.Values ==> unchanged(l)
    ensures r.Valid() && r.eventMapping.Values !! aw.listeners.listenerMetas.Values
    ensures fresh(r.eventMapping.Values - old(r.eventMapping.Values))
  {
    for n := 0 to |registrations|
      invariant r.Valid() && r.eventMapping.Values !! aw.listeners.listenerMetas.Values
      invariant fresh(r.eventMapping.Values - old(r.eventMapping.Values))
    {
      var _ := Tell(r, h, registrations[n]);
    }
  }

  // ----------------------------------------------------- including a registry twice

  ghost predicate OneObjectPerClass(scope: Scope) {
    forall id, j, k :: scope.resolve(id, j) == scope.resolve(id, k)
  }

  lemma {:induction false} GuardsAppend(a: seq<Source>, b: seq<Source>, t: ClassId)
    ensures Guards(a + b, t) == Guards(a, t) + Guards(b, t)
  {
    FlatMapAppend((s: Source) => GuardsFor(s.history, t), a, b);
  }

  lemma {:induction false} ResolvedAppend(scope: Scope, a: seq<GuardMeta>, b: seq<GuardMeta>)
    requires OneObjectPerClass(scope) && AllGuards(a) && AllGuards(b)
    ensures AllGuards(a + b) && Resolved(scope, a + b) == Resolved(scope, a) + Resolved(scope, b)
  {
  }

  lemma {:induction false} ResolvedThree(scope: Scope, a: seq<GuardMeta>, b: seq<GuardMeta>, c: seq<GuardMeta>)
    requires OneObjectPerClass(scope) && AllGuards(a) && AllGuards(b) && AllGuards(c)
    ensures AllGuards(a + (b + c)) &&
      Resolved(scope, a + (b + c)) == Resolved(scope, a) + (Resolved(scope, b) + Resolved(scope, c))
  {
    ResolvedAppend(scope, b, c);
    ResolvedAppend(scope, a, b + c);
  }

  /** `before`, then `s`, then `mid`, then `s` again, then `after`. */
  ghost function Again(before: seq<Source>, s: Source, mid: seq<Source>, after: seq<Source>): seq<Source> {
    before + ([s] + (mid + ([s] + after)))
  }

  ghost function Once(before: seq<Source>, s: Source, mid: seq<Source>, after: seq<Source>): seq<Source> {
    before + ([s] + (mid + after))
  }

  /** The guards a type is given, cut where the sources are. */
  lemma {:induction false} GuardsCut(before: seq<Source>, s: Source, mid: seq<Source>, after: seq<Source>, t: ClassId)
    ensures var g := (u: seq<Source>) => Guards(u, t);
      && Guards(Once(before, s, mid, after), t) == g(before) + (g([s]) + (g(mid) + g(after)))
      && Guards(Again(before, s, mid, after), t) == g(before) + (g([s]) + (g(mid) + (g([s]) + g(after))))
  {
    GuardsAppend(mid, after, t);
    GuardsAppend([s], mid + after, t);
    GuardsAppend(before, [s] + (mid + after), t);
    GuardsAppend([s], after, t);
    GuardsAppend(mid, [s] + after, t);
    GuardsAppend([s], mid + ([s] + after), t);
    GuardsAppend(before, [s] + (mid + ([s] + after)), t);
  }

  lemma {:induction false} AllGuardsAppend(a: seq<GuardMeta>, b: seq<GuardMeta>)
    ensures AllGuards(a + b) <==> AllGuards(a) && AllGuards(b)
  {
    assert forall m :: m in a + b <==> m in a || m in b;
  }

  lemma {:induction false} ResolvedCut(scope: Scope, x: seq<GuardMeta>, s: seq<GuardMeta>, mid: seq<GuardMeta>,
                                       y: seq<GuardMeta>)
    requires OneObjectPerClass(scope) && AllGuards(x + (s + (mid + y)))
    ensures AllGuards(x) && AllGuards(s) && AllGuards(mid) && AllGuards(y) && AllGuards(x + (s + (mid + (s + y))))
    ensures Resolved(scope, x + (s + (mid + y)))
         == Resolved(scope, x) + (Resolved(scope, s) + (Resolved(scope, mid) + Resolved(scope, y)))
    ensures Resolved(scope, x + (s + (mid + (s + y))))
         == Resolved(scope, x) +
           (Resolved(scope, s) + (Resolved(scope, mid) + (Resolved(scope, s) + Resolved(scope, y))))
  {
    AllGuardsAppend(x, s + (mid + y));
    AllGuardsAppend(s, mid + y);
    AllGuardsAppend(mid, y);
    ResolvedThree(scope, s, mid, y);
    ResolvedAppend(scope, x, s + (mid + y));
    ResolvedThree(scope, mid, s, y);
    ResolvedThree(scope, x, s, mid + (s + y));
  }

  /** Two blocks of metas, each with a part that comes again behind another. */
  lemma {:induction false} RepeatedMetasWalk(scope: Scope, x: seq<GuardMeta>, s: seq<GuardMeta>, mid: seq<GuardMeta>,
                                             y: seq<GuardMeta>, x': seq<GuardMeta>, s': seq<GuardMeta>,
                                             mid': seq<GuardMeta>, y': seq<GuardMeta>)
    requires OneObjectPerClass(scope) && AllGuards(x + (s + (mid + y))) && AllGuards(x' + (s' + (mid' + y')))
    ensures var again, once := (x + (s + (mid + (s + y)))) + (x' + (s' + (mid' + (s' + y')))),
      (x + (s + (mid + y))) + (x' + (s' + (mid' + y')));
      && AllGuards(again) && AllGuards(once)
      && (mid == mid' == [] ==> Walk(Resolved(scope, again)) == Walk(Resolved(scope, once)))
      && (Distinct(Resolved(scope, once)) ==>
           (Walk(Resolved(scope, again)) == Walk(Resolved(scope, once)) <==>
             (s == [] || mid == []) && (s' == [] || mid' == [])))
  {
    ResolvedCut(scope, x, s, mid, y);
    ResolvedCut(scope, x', s', mid', y');
    ResolvedAppend(scope, x + (s + (mid + (s + y))), x' + (s' + (mid' + (s' + y'))));
    ResolvedAppend(scope, x + (s + (mid + y)), x' + (s' + (mid' + y')));
    var gx, gs, gm, gy := Resolved(scope, x), Resolved(scope, s), Resolved(scope, mid), Resolved(scope, y);
    var hx, hs, hm, hy := Resolved(scope, x'), Resolved(scope, s'), Resolved(scope, mid'), Resolved(scope, y');
    if mid == mid' == [] {
      WalkRepeatedAtOnce(gx, gs, gm, gy, hx, hs, hm, hy);
    }
    if Distinct(Resolved(scope, (x + (s + (mid + y))) + (x' + (s' + (mid' + y'))))) {
      WalkUnchangedIff(gx, gs, gm, gy, hx, hs, hm, hy);
    }
  }

  lemma {:induction false} OwnGuardsCut(before: seq<Source>, s: Source, mid: seq<Source>, after: seq<Source>,
                                        t: ClassId)
    ensures var g := (u: seq<Source>) => OwnGuards(u, t);
      && OwnGuards(Once(before, s, mid, after), t) == g(before) + (g([s]) + (g(mid) + g(after)))
      && OwnGuards(Again(before, s, mid, after), t) == g(before) + (g([s]) + (g(mid) + (g([s]) + g(after))))
  {
    if t != ANY {
      GuardsCut(before, s, mid, after, t);
    }
  }

  lemma {:induction false} IncludingAgainWalks(scope: Scope, before: seq<Source>, s: Source, mid: seq<Source>,
                                               after: seq<Source>, t: ClassId)
    requires OneObjectPerClass(scope) && AllGuards(ChainFor(Once(before, s, mid, after), t))
    ensures AllGuards(ChainFor(Again(before, s, mid, after), t))
    ensures var again, once := Resolved(scope, ChainFor(Again(before, s, mid, after), t)),
      Resolved(scope, ChainFor(Once(before, s, mid, after), t));
      && (Guards(mid, ANY) == OwnGuards(mid, t) == [] ==> Walk(again) == Walk(once))
      && (Distinct(once) ==>
           (Walk(again) == Walk(once) <==>
             (Guards([s], ANY) == [] || Guards(mid, ANY) == []) &&
               (OwnGuards([s], t) == [] || OwnGuards(mid, t) == [])))
  {
    GuardsCut(before, s, mid, after, ANY);
    OwnGuardsCut(before, s, mid, after, t);
    AllGuardsAppend(Guards(Once(before, s, mid, after), ANY), OwnGuards(Once(before, s, mid, after), t));
    RepeatedMetasWalk(scope, Guards(before, ANY), Guards([s], ANY), Guards(mid, ANY), Guards(after, ANY),
                      OwnGuards(before, t), OwnGuards([s], t), OwnGuards(mid, t), OwnGuards(after, t));
  }

  /** Including a registry twice in a row, anywhere among others, when the scope
      resolves each guard class to one object: every send passes the same guards
      in the same order as before. */
  lemma {:induction false} IncludingTwiceKeepsTheWalk(scope: Scope, before: seq<Source>, s: Source, after: seq<Source>,
                                                      t: ClassId)
    requires OneObjectPerClass(scope) && AllGuards(ChainFor(before + ([s] + after), t))
    ensures AllGuards(ChainFor(before + ([s] + ([s] + after)), t))
    ensures Walk(Resolved(scope, ChainFor(before + ([s] + ([s] + after)), t)))
      == Walk(Resolved(scope, ChainFor(before + ([s] + after), t)))
  {
    assert [] + after == after && [] + ([s] + after) == [s] + after;
    assert Guards([], ANY) == OwnGuards([], t) == [];
    IncludingAgainWalks(scope, before, s, [], after, t);
  }

  /** With others in between, and no object otherwise repeated: the guards passed
      stay the same exactly when, among the global guards and among those of the
      type, the registry or those in between contribute none. */
  lemma {:induction false} IncludingAgainKeepsTheWalkIff(scope: Scope, before: seq<Source>, s: Source, mid: seq<Source>,
                                                         after: seq<Source>, t: ClassId)
    requires OneObjectPerClass(scope) && AllGuards(ChainFor(Once(before, s, mid, after), t))
    requires Distinct(Resolved(scope, ChainFor(Once(before, s, mid, after), t)))
    ensures AllGuards(ChainFor(Again(before, s, mid, after), t))
    ensures var again, once := ChainFor(Again(before, s, mid, after), t), ChainFor(Once(before, s, mid, after), t);
            Walk(Resolved(scope, again)) == Walk(Resolved(scope, once)) <==>
              && (Guards([s], ANY) == [] || Guards(mid, ANY) == [])
              && (OwnGuards([s], t) == [] || OwnGuards(mid, t) == [])
  {
    IncludingAgainWalks(scope, before, s, mid, after, t);
  }

  lemma {:induction false} SkippedMetas(scope: Scope, g: seq<GuardMeta>, m: seq<GuardMeta>, own: seq<GuardMeta>)
    requires OneObjectPerClass(scope) && AllGuards(g + (m + (g + own))) && g != []
    ensures AllGuards(g + own)
    ensures Walk(Resolved(scope, g + (m + (g + own)))) == Walk(Resolved(scope, g + own))
  {
    AllGuardsAppend(g, m + (g + own));
    AllGuardsAppend(m, g + own);
    AllGuardsAppend(g, own);
    ResolvedThree(scope, g, m, g + own);
    ResolvedAppend(scope, g, own);
    WalkSkipsBetween(Resolved(scope, g), Resolved(scope, m), Resolved(scope, own));
  }

  lemma {:induction false} AroundCut(s: Source, mid: seq<Source>, t: ClassId)
    ensures ChainFor([s] + (mid + [s]), t)
         == Guards([s], ANY) + (Guards(mid, ANY) + (Guards([s], ANY) + OwnGuards([s] + (mid + [s]), t)))
  {
    GuardsAppend([s], mid + [s], ANY);
    GuardsAppend(mid, [s], ANY);
    Regroup(Guards([s], ANY), Guards(mid, ANY), Guards([s], ANY), OwnGuards([s] + (mid + [s]), t));
  }

  /** The failing case: `include(r, others, r)` where `r` has a global guard. Every
      send goes as if the others had no global guards at all. */
  lemma {:induction false} IncludingAgainSkips(scope: Scope, s: Source, mid: seq<Source>, t: ClassId)
    requires OneObjectPerClass(scope) && AllGuards(ChainFor([s] + (mid + [s]), t)) && Guards([s], ANY) != []
    ensures AllGuards(Guards([s], ANY) + OwnGuards([s] + (mid + [s]), t))
    ensures Walk(Resolved(scope, ChainFor([s] + (mid + [s]), t)))
         == Walk(Resolved(scope, Guards([s], ANY) + OwnGuards([s] + (mid + [s]), t)))
  {
    AroundCut(s, mid, t);
    SkippedMetas(scope, Guards([s], ANY), Guards(mid, ANY), OwnGuards([s] + (mid + [s]), t));
  }
}
