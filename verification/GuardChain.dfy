/** Guards as the mutable, linked objects they are (anywise/guard.py), and the
    loop that links them before every send (anywise/anywise.py:81-111). */
module GuardChain {
  import opened Basics
  import opened Callables
  import opened Onion
  import opened Walks

  /** The value of `_next_guard`. */
  datatype Link = Unset | ToGuard(guard: Guard) | ToHandler(handler: Handler) | ToFunction(func: FuncId)

  class Guard {
    const preHandle: Option<FuncId>
    const postHandle: Option<FuncId>
    var next: Link

    constructor (preHandle: Option<FuncId>, postHandle: Option<FuncId>)
      ensures this.preHandle == preHandle && this.postHandle == postHandle && next == Unset
    {
      this.preHandle := preHandle;
      this.postHandle := postHandle;
      next := Unset;
    }

    function AsLayer(): Layer {
      Layer(preHandle, postHandle)
    }

    method ChainNext(link: Link)
      modifies this`next
      ensures next == link
    {
      next := link;
    }

    /** `await guard(command, context)`, for any chain that ends. */
    method Call(code: Code, cmd: Command, ctx: Context, ghost chain: seq<Guard>, ghost core: Option<Handler>)
      returns (after: Context, outcome: Outcome)
      requires Linked(ToGuard(this), chain, core)
      ensures (after, outcome) == Nested(code, Layers(chain), core, cmd, ctx)
      ensures core.Some? ==> IsAnswer(code, chain, core.value, cmd, ctx, after, outcome)
      decreases |chain|
    {
      if core.Some? {
        NestedAnswers(code, chain, core.value, cmd, ctx);
      }
      after := ctx;
      if preHandle.Some? {
        var failure: Option<Exn>;
        after, failure := Split(code.pre(preHandle.value, cmd, after));
        if failure.Some? {
          return after, Err(Raised(failure.value));
        }
      }
      assert Layers(chain)[1..] == Layers(chain[1..]);
      match next {
        case Unset =>
          return after, Err(DanglingGuard);
        case ToFunction(_) => assert false;
        case ToHandler(h) =>
          after, outcome := Split(Handle(code, h, cmd, after));
        case ToGuard(g) =>
          after, outcome := g.Call(code, cmd, after, chain[1..], core);
      }
      if outcome.Ok? && postHandle.Some? {
        var response: Result<Response, Exn>;
        after, response := Split(code.post(postHandle.value, cmd, after, outcome.value));
        outcome := Lift(response);
      }
    }
  }

  // ------------------------------------------------------ what a chain answers, call by call

  /** Before the rest of the chain: a pre-handle may change the context. */
  ghost predicate PreReturns(code: Code, guard: Guard, cmd: Command, ctx: Context, entered: Context) {
    match guard.preHandle
    case None => entered == ctx
    case Some(f) => code.pre(f, cmd, ctx) == (entered, None)
  }

  /** Behind it: what a post-handle returns takes the place of the response. */
  ghost predicate PostReturns(code: Code, guard: Guard, cmd: Command, ctx: Context, given: Response, after: Context,
                              response: Response)
  {
    match guard.postHandle
    case None => after == ctx && response == given
    case Some(f) => code.post(f, cmd, ctx, given) == (after, Ok(response))
  }

  /** A handler that takes the context is given it; any other one never sees it. */
  ghost predicate HandlerReturns(code: Code, h: Handler, cmd: Command, ctx: Context, after: Context,
                                 response: Response) {
    if h.isContexted then code.handle(h.func, cmd, ctx) == (after, Ok(response))
    else after == ctx && code.handlePlain(h.func, cmd) == Ok(response)
  }

  ghost predicate HandlerRaises(code: Code, h: Handler, cmd: Command, ctx: Context, after: Context, exn: Exn) {
    if h.isContexted then code.handle(h.func, cmd, ctx) == (after, Err(exn))
    else after == ctx && code.handlePlain(h.func, cmd) == Err(exn)
  }

  /** All calls return, the last one with this response. */
  ghost predicate Returns(code: Code, chain: seq<Guard>, h: Handler, cmd: Command, ctx: Context, after: Context,
                          response: Response)
    decreases |chain|
  {
    if chain == [] then HandlerReturns(code, h, cmd, ctx, after, response)
    else exists entered, inner, given ::
      && PreReturns(code, chain[0], cmd, ctx, entered)
      && Returns(code, chain[1..], h, cmd, entered, inner, given)
      && PostReturns(code, chain[0], cmd, inner, given, after, response)
  }

  /** One call raises this, and all calls before it returned. */
  ghost predicate Raises(code: Code, chain: seq<Guard>, h: Handler, cmd: Command, ctx: Context, after: Context,
                         exn: Exn)
    decreases |chain|
  {
    if chain == [] then HandlerRaises(code, h, cmd, ctx, after, exn)
    else
      || (chain[0].preHandle.Some? && code.pre(chain[0].preHandle.value, cmd, ctx) == (after, Some(exn)))
      || (exists entered ::
            PreReturns(code, chain[0], cmd, ctx, entered) && Raises(code, chain[1..], h, cmd, entered, after, exn))
      || (exists entered, inner, given ::
            && PreReturns(code, chain[0], cmd, ctx, entered)
            && Returns(code, chain[1..], h, cmd, entered, inner, given)
            && chain[0].postHandle.Some?
            && code.post(chain[0].postHandle.value, cmd, inner, given) == (after, Err(exn)))
  }

  /** The outcome is the last response, or what the one raising call raised. */
  ghost predicate IsAnswer(code: Code, chain: seq<Guard>, h: Handler, cmd: Command, ctx: Context, after: Context,
                           outcome: Outcome)
  {
    match outcome
    case Ok(response) => Returns(code, chain, h, cmd, ctx, after, response)
    case Err(failure) => failure.Raised? && Raises(code, chain, h, cmd, ctx, after, failure.exn)
  }

  lemma {:induction false} NestedAnswers(code: Code, chain: seq<Guard>, h: Handler, cmd: Command, ctx: Context)
    ensures var (after, outcome) := Nested(code, Layers(chain), Some(h), cmd, ctx);
      IsAnswer(code, chain, h, cmd, ctx, after, outcome)
    decreases |chain|
  {
    if chain != [] {
      assert Layers(chain)[1..] == Layers(chain[1..]);
      var (entered, failure) := Before(code, Layers(chain)[0], cmd, ctx);
      if failure.None? {
        assert PreReturns(code, chain[0], cmd, ctx, entered);
        NestedAnswers(code, chain[1..], h, cmd, entered);
      }
    }
  }

  method Split<A, B>(p: (A, B)) returns (a: A, b: B)
    ensures p == (a, b)
  {
    return p.0, p.1;
  }

  function Layers(guards: seq<Guard>): (layers: seq<Layer>)
    ensures |layers| == |guards|
  {
    seq(|guards|, k requires 0 <= k < |guards| => guards[k].AsLayer())
  }

  function Tail(core: Option<Handler>): Link {
    if core.Some? then ToHandler(core.value) else Unset
  }

  /** Following the links from `link` visits the guards of `chain` and ends in `core`. */
  ghost predicate Linked(link: Link, chain: seq<Guard>, core: Option<Handler>)
    reads chain
    decreases |chain|
  {
    if chain == [] then link == Tail(core)
    else link == ToGuard(chain[0]) && Linked(chain[0].next, chain[1..], core)
  }

  function LinkOf(successor: Option<Guard>, end: Link): Link {
    if successor.Some? then ToGuard(successor.value) else end
  }

  /** Every guard is linked to the successor of its last place in the list. */
  ghost predicate Chained(guards: seq<Guard>, end: Link)
    reads guards
  {
    forall g :: g in guards ==> g.next == LinkOf(Successor(guards, g), end)
  }

  lemma {:induction false} ChainedSuffix(all: seq<Guard>, k: nat, end: Link)
    requires k <= |all| && Chained(all, end)
    ensures Chained(all[k..], end)
  {
    assert all == all[..k] + all[k..];
    forall g | g in all[k..] ensures g.next == LinkOf(Successor(all[k..], g), end) {
      AfterAppend(all[..k], all[k..], g);
    }
  }

  /** The links alone determine the walk, whatever they were before. */
  lemma {:induction false} ChainedWalks(guards: seq<Guard>, handler: Handler)
    requires Chained(guards, ToHandler(handler))
    ensures Linked(if guards == [] then ToHandler(handler) else ToGuard(guards[0]), Walk(guards), Some(handler))
    decreases |guards|
  {
    if guards != [] {
      WalkStaysInside(guards);
      var rest := After(guards, guards[0]);
      ChainedSuffix(guards, |guards| - |rest|, ToHandler(handler));
      ChainedWalks(rest, handler);
      assert Walk(guards)[1..] == Walk(rest);
    }
  }

  /** Among the first `n` guards, the one in place `k` does not come again. */
  ghost predicate LastAmong(guards: seq<Guard>, k: nat, n: nat)
    requires k < n <= |guards|
  {
    forall j :: k < j < n ==> guards[j] != guards[k]
  }

  /** What the guard in place `k` is linked to while nothing comes after it. */
  function LinkAt(guards: seq<Guard>, k: nat, end: Link): Link
    requires k < |guards|
  {
    if k + 1 < |guards| then ToGuard(guards[k + 1]) else end
  }

  /** The first `n` guards are linked, each behind its last place so far. */
  ghost predicate LinkedSoFar(guards: seq<Guard>, n: nat, end: Link)
    requires n <= |guards|
    reads guards
  {
    forall k :: 0 <= k < n && LastAmong(guards, k, n) ==> guards[k].next == LinkAt(guards, k, end)
  }

  lemma {:induction false} AllLinked(guards: seq<Guard>, end: Link)
    requires LinkedSoFar(guards, |guards|, end)
    ensures Chained(guards, end)
  {
    forall g: Guard | g in guards ensures g.next == LinkOf(Successor(guards, g), end) {
      assert LastAmong(guards, LastIndex(guards, g), |guards|);
      SuccessorIs(guards, g);
    }
  }

  /** `ptr.chain_next(nxt)` for the guard in place `n`: other objects before it keep their links. */
  method ChainAt(ptr: Guard, nxt: Link, ghost guards: seq<Guard>, ghost n: nat, ghost end: Link)
    requires n < |guards| && LinkedSoFar(guards, n, end) && ptr == guards[n] && nxt == LinkAt(guards, n, end)
    modifies ptr`next
    ensures LinkedSoFar(guards, n + 1, end)
  {
    ptr.ChainNext(nxt);
    forall k | 0 <= k < n + 1 && LastAmong(guards, k, n + 1) ensures guards[k].next == LinkAt(guards, k, end) {
      assert k < n ==> guards[k] != guards[n] && LastAmong(guards, k, n);
    }
  }

  /** The loop of `_chain_guards`, over guards holding links of any earlier send. */
  method ChainGuards(guards: seq<Guard>, end: Link) returns (head: Link)
    modifies guards`next
    ensures Chained(guards, end)
    ensures head == if guards == [] then end else ToGuard(guards[0])
    ensures end.ToHandler? ==> Linked(head, Walk(guards), Some(end.handler))
  {
    if guards == [] {
      return end;
    }
    var ptr, rest := guards[0], guards[1..];
    for n := 0 to |rest|
      invariant ptr == guards[n] && LinkedSoFar(guards, n, end)
    {
      ChainAt(ptr, ToGuard(rest[n]), guards, n, end);
      ptr := rest[n];
    }
    ChainAt(ptr, end, guards, |rest|, end);
    AllLinked(guards, end);
    if end.ToHandler? {
      ChainedWalks(guards, end.handler);
    }
    head := ToGuard(guards[0]);
  }

  /** `await handler(command, context)` for what `resolve_handler` returns. */
  method Invoke(head: Link, code: Code, cmd: Command, ctx: Context, ghost chain: seq<Guard>, ghost handler: Handler)
    returns (after: Context, outcome: Outcome)
    requires Linked(head, chain, Some(handler))
    ensures (after, outcome) == Phased(code, Layers(chain), Some(handler), cmd, ctx)
    ensures outcome != Err(DanglingGuard) && IsAnswer(code, chain, handler, cmd, ctx, after, outcome)
  {
    NestedIsPhased(code, Layers(chain), Some(handler), cmd, ctx);
    NestedAnswers(code, chain, handler, cmd, ctx);
    DanglesIffNoHandler(code, Layers(chain), Some(handler), cmd, ctx);
    match head {
      case Unset => assert false;
      case ToFunction(_) => assert false;
      case ToHandler(h) =>
        after, outcome := Split(Handle(code, h, cmd, ctx));
      case ToGuard(g) =>
        after, outcome := g.Call(code, cmd, ctx, chain, Some(handler));
    }
  }
}
