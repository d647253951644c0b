/** From registering a handler to the answer of a send
    (anywise/registry.py:40-105, anywise/anywise.py:35-56 and 307-318). */
module EndToEnd {
  import opened Basics
  import opened Callables
  import opened ClassGraph
  import opened Registry
  import opened GuardChain
  import opened Anywise

  /** Registration `k` of source `n`, a registry for commands below this base. */
  ghost predicate Registered(sources: seq<Source>, base: ClassId, entry: Entry, n: nat, k: nat) {
    n < |sources| && sources[n].commandBase == Some(base) && k < |sources[n].history| && sources[n].history[k] == entry
  }

  /** No registration behind that place gave the type a handler. */
  ghost predicate NoneAfter(sources: seq<Source>, t: ClassId, n: nat, k: nat)
    requires n < |sources|
  {
    && (forall j :: k < j < |sources[n].history| ==> Given(sources[n].commandBase, sources[n].history[j], t) == [])
    && (forall m, j :: n < m < |sources| && 0 <= j < |sources[m].history| ==>
          Given(sources[m].commandBase, sources[m].history[j], t) == [])
  }

  /** No included registry was told of a guard for the type or for `Any`. */
  ghost predicate Unguarded(sources: seq<Source>, t: ClassId) {
    forall n, k :: 0 <= n < |sources| && 0 <= k < |sources[n].history| && sources[n].history[k].Guarded? ==>
      t !in sources[n].history[k].guards && ANY !in sources[n].history[k].guards
  }

  lemma {:induction false} UnguardedChain(sources: seq<Source>, t: ClassId)
    requires Unguarded(sources, t)
    ensures ChainFor(sources, t) == []
  {
    forall u | u == t || u == ANY ensures Guards(sources, u) == [] {
      forall n | 0 <= n < |sources| ensures GuardsFor(sources[n].history, u) == [] {
        FlatMapNothing(GuardGiven(u), sources[n].history);
      }
      FlatMapNothing((s: Source) => GuardsFor(s.history, u), sources);
    }
  }

  lemma {:induction false} GivesNothing(base: Option<ClassId>, history: seq<Entry>, t: ClassId)
    requires forall j :: 0 <= j < |history| ==> Given(base, history[j], t) == []
    ensures Accepted(base, history, t) == []
  {
    FlatMapNothing(GivenBy(base, t), history);
  }

  lemma {:induction false} LastOfHistory(base: Option<ClassId>, history: seq<Entry>, t: ClassId, k: nat)
    requires k < |history| && Given(base, history[k], t) != []
    requires forall j :: k < j < |history| ==> Given(base, history[j], t) == []
    ensures var all, given := Accepted(base, history, t), Given(base, history[k], t);
      all != [] && all[|all| - 1] == given[|given| - 1]
  {
    FlatMapLast(GivenBy(base, t), history, k);
  }

  lemma {:induction false} LastOfSources(sources: seq<Source>, t: ClassId, n: nat)
    requires n < |sources| && Accepted(sources[n].commandBase, sources[n].history, t) != []
    requires forall m :: n < m < |sources| ==> Accepted(sources[m].commandBase, sources[m].history, t) == []
    ensures var all, given := Commands(sources, t), Accepted(sources[n].commandBase, sources[n].history, t);
      all != [] && all[|all| - 1] == given[|given| - 1]
  {
    FlatMapLast((s: Source) => Accepted(s.commandBase, s.history, t), sources, n);
  }

  /** The last registration that gives the type a handler gives it the last of its handlers. */
  lemma {:induction false} LastMeta(sources: seq<Source>, t: ClassId, base: ClassId, entry: Entry, n: nat, k: nat)
    requires Registered(sources, base, entry, n, k) && NoneAfter(sources, t, n, k) && Given(Some(base), entry, t) != []
    ensures var all, given := Commands(sources, t), Given(Some(base), entry, t);
      all != [] && all[|all| - 1] == given[|given| - 1]
  {
    LastOfHistory(Some(base), sources[n].history, t, k);
    forall m | n < m < |sources| ensures Accepted(sources[m].commandBase, sources[m].history, t) == [] {
      GivesNothing(sources[m].commandBase, sources[m].history, t);
    }
    LastOfSources(sources, t, n);
  }

  /** The first parameter of the function stands for types below the base, and `t` is one of them. */
  ghost predicate Takes(h: Hierarchy, base: ClassId, f: Func, t: ClassId) {
    f.params != [] && exists types :: StandsFor(h, base, f.params[0].annotation, types) && t in types
  }

  /** A function registered last answers as a handler of its own id, with the
      context if its second parameter asks for it. */
  lemma {:induction false} FunctionIsLast(sources: seq<Source>, t: ClassId, base: ClassId, h: Hierarchy, f: Func,
                                          n: nat, k: nat)
    requires Registered(sources, base, Handled(h, Function(f)), n, k) && NoneAfter(sources, t, n, k)
    requires Takes(h, base, f, t)
    ensures Commands(sources, t) != []
    ensures LastHandler(sources, t) == Handler(f.id, |f.params| > 1 && f.params[1].isContext)
  {
    FunctionGives(h, base, f, t);
    LastMeta(sources, t, base, Handled(h, Function(f)), n, k);
  }

  /** Method `i` takes the type, no method raises, and none behind it takes the type. */
  ghost predicate LastToTake(h: Hierarchy, base: ClassId, cls: ClassId, members: seq<Member>, t: ClassId, i: nat) {
    && i < |members| && (forall m :: m in members ==> !MethodRaises(m))
    && (exists meta :: MethodGives(h, base, cls, members[i], meta) && meta.messageType == t)
    && forall j, meta :: i < j < |members| && MethodGives(h, base, cls, members[j], meta) ==> meta.messageType != t
  }

  lemma {:induction false} LastOfService(h: Hierarchy, base: ClassId, cls: ClassId, members: seq<Member>, t: ClassId,
                                         i: nat)
    requires LastToTake(h, base, cls, members, t, i)
    ensures var given := Given(Some(base), Handled(h, Service(cls, members)), t);
      given != [] && MethodGives(h, base, cls, members[i], given[|given| - 1])
  {
    var meta :| MethodGives(h, base, cls, members[i], meta) && meta.messageType == t;
    assert members[i] in members;
    ServiceGives(h, base, cls, members, t, meta);
    SomeClaimed(MemberClaims(h, base, cls, members).value, t);
    var last := LastMethodWins(h, base, cls, members, t);
    assert last == i;
  }

  /** A service registered last answers with the last of its methods that takes
      the type, with the context if the parameter behind the command asks for it. */
  lemma {:induction false} MethodIsLast(sources: seq<Source>, t: ClassId, base: ClassId, h: Hierarchy, cls: ClassId,
                                        members: seq<Member>, i: nat, n: nat, k: nat)
    requires Registered(sources, base, Handled(h, Service(cls, members)), n, k) && NoneAfter(sources, t, n, k)
    requires LastToTake(h, base, cls, members, t, i)
    ensures Commands(sources, t) != []
    ensures var f := members[i].func;
      LastHandler(sources, t) == Handler(f.id, |f.params| > 2 && f.params[2].isContext)
  {
    LastOfService(h, base, cls, members, t, i);
    LastMeta(sources, t, base, Handled(h, Service(cls, members)), n, k);
  }

  /** A type without guards whose handler registered last is the function `f`: the
      function is called with the command, and with the context exactly if its
      second parameter asks for it; its result is the answer. */
  method SendToFunction(aw: Anywise, t: ClassId, cmd: Command, context: Option<Context>, scope: Scope, code: Code,
                        ghost base: ClassId, ghost h: Hierarchy, ghost f: Func, ghost n: nat, ghost k: nat)
    returns (after: Context, outcome: Outcome)
    requires aw.Valid() && Unguarded(aw.sources, t)
    requires Registered(aw.sources, base, Handled(h, Function(f)), n, k) && NoneAfter(aw.sources, t, n, k)
    requires Takes(h, base, f, t)
    ensures var ctx := if context.Some? then context.value else code.emptyContext;
      if |f.params| > 1 && f.params[1].isContext then
        && after == code.handle(f.id, cmd, ctx).0
        && outcome == match code.handle(f.id, cmd, ctx).1 case Ok(x) => Ok(x) case Err(e) => Err(Raised(e))
      else
        && after == ctx
        && outcome == match code.handlePlain(f.id, cmd) case Ok(x) => Ok(x) case Err(e) => Err(Raised(e))
  {
    UnguardedChain(aw.sources, t);
    FunctionIsLast(aw.sources, t, base, h, f, n, k);
    after, outcome := aw.Send(t, cmd, context, scope, code);
  }
}
