/** The order in which the layers around a handler act (anywise/guard.py:138-148). */
module Onion {
  import opened Basics
  import opened Callables

  /** One guard: what it does before and after the rest of the chain. */
  datatype Layer = Layer(preHandle: Option<FuncId>, postHandle: Option<FuncId>)

  function Before(code: Code, layer: Layer, cmd: Command, ctx: Context): (Context, Option<Exn>) {
    match layer.preHandle
    case None => (ctx, None)
    case Some(f) => code.pre(f, cmd, ctx)
  }

  function Behind(code: Code, layer: Layer, cmd: Command, ctx: Context, response: Response): (Context, Outcome) {
    match layer.postHandle
    case None => (ctx, Ok(response))
    case Some(f) =>
      var (after, r) := code.post(f, cmd, ctx, response);
      (after, Lift(r))
  }

  /** What lies inside the innermost guard. */
  function Core(code: Code, core: Option<Handler>, cmd: Command, ctx: Context): (Context, Outcome) {
    match core
    case None => (ctx, Err(DanglingGuard))
    case Some(h) => Handle(code, h, cmd, ctx)
  }

  /** The nested calls: every layer encloses the whole rest. */
  function Nested(code: Code, layers: seq<Layer>, core: Option<Handler>, cmd: Command, ctx: Context)
    : (Context, Outcome)
  {
    if layers == [] then Core(code, core, cmd, ctx) else
      var (entered, failure) := Before(code, layers[0], cmd, ctx);
      if failure.Some? then (entered, Err(Raised(failure.value))) else
        var (inner, outcome) := Nested(code, layers[1..], core, cmd, entered);
        if outcome.Err? then (inner, outcome) else Behind(code, layers[0], cmd, inner, outcome.value)
  }

  /** Pre-handles from first to last, until one raises. */
  function RunPres(code: Code, layers: seq<Layer>, cmd: Command, ctx: Context): (Context, Option<Exn>) {
    if layers == [] then (ctx, None) else
      var (entered, failure) := Before(code, layers[0], cmd, ctx);
      if failure.Some? then (entered, failure) else RunPres(code, layers[1..], cmd, entered)
  }

  /** Post-handles from last to first, each given the response of the one before, until one raises. */
  function RunPosts(code: Code, layers: seq<Layer>, cmd: Command, ctx: Context, response: Response)
    : (Context, Outcome)
  {
    if layers == [] then (ctx, Ok(response)) else
      var n := |layers| - 1;
      var (after, outcome) := Behind(code, layers[n], cmd, ctx, response);
      if outcome.Err? then (after, outcome) else RunPosts(code, layers[..n], cmd, after, outcome.value)
  }

  /** The three phases one after the other: all pre-handles, the handler, all post-handles. */
  function Phased(code: Code, layers: seq<Layer>, core: Option<Handler>, cmd: Command, ctx: Context)
    : (Context, Outcome)
  {
    var (entered, failure) := RunPres(code, layers, cmd, ctx);
    if failure.Some? then (entered, Err(Raised(failure.value))) else
      var (handled, outcome) := Core(code, core, cmd, entered);
      if outcome.Err? then (handled, outcome) else RunPosts(code, layers, cmd, handled, outcome.value)
  }

  /** Inner post-handles act first; an inner failure keeps the outer ones from acting. */
  lemma {:induction false} PostsCompose(code: Code, outer: seq<Layer>, inner: seq<Layer>,
                                        cmd: Command, ctx: Context, response: Response)
    ensures RunPosts(code, outer + inner, cmd, ctx, response)
         == var (after, outcome) := RunPosts(code, inner, cmd, ctx, response);
            if outcome.Err? then (after, outcome) else RunPosts(code, outer, cmd, after, outcome.value)
    decreases |inner|
  {
    if inner == [] {
      assert outer + inner == outer;
    } else {
      var n := |inner| - 1;
      assert (outer + inner)[..|outer| + n] == outer + inner[..n];
      var (after, outcome) := Behind(code, inner[n], cmd, ctx, response);
      if outcome.Ok? {
        PostsCompose(code, outer, inner[..n], cmd, after, outcome.value);
      }
    }
  }

  /** Outer pre-handles act first; an outer failure keeps the inner ones from acting. */
  lemma {:induction false} PresCompose(code: Code, outer: seq<Layer>, inner: seq<Layer>, cmd: Command, ctx: Context)
    ensures RunPres(code, outer + inner, cmd, ctx)
         == var (entered, failure) := RunPres(code, outer, cmd, ctx);
            if failure.Some? then (entered, failure) else RunPres(code, inner, cmd, entered)
    decreases |outer|
  {
    if outer == [] {
      assert outer + inner == inner;
    } else {
      assert (outer + inner)[1..] == outer[1..] + inner;
      var (entered, failure) := Before(code, outer[0], cmd, ctx);
      if failure.None? {
        PresCompose(code, outer[1..], inner, cmd, entered);
      }
    }
  }

  /** The nested calls are the three phases: pre-handles in chain order, the
      handler once, post-handles in reverse, and nothing after the first failure. */
  lemma {:induction false} NestedIsPhased(code: Code, layers: seq<Layer>, core: Option<Handler>,
                                          cmd: Command, ctx: Context)
    ensures Nested(code, layers, core, cmd, ctx) == Phased(code, layers, core, cmd, ctx)
    decreases |layers|
  {
    if layers != [] {
      var (entered, failure) := Before(code, layers[0], cmd, ctx);
      if failure.None? {
        NestedIsPhased(code, layers[1..], core, cmd, entered);
        var (inside, failed) := RunPres(code, layers[1..], cmd, entered);
        var (handled, outcome) := Core(code, core, cmd, inside);
        if failed.None? && outcome.Ok? {
          assert layers == [layers[0]] + layers[1..];
          PostsCompose(code, [layers[0]], layers[1..], cmd, handled, outcome.value);
          var (after, last) := RunPosts(code, layers[1..], cmd, handled, outcome.value);
          if last.Ok? {
            assert [layers[0]][..0] == [];
          }
        }
      }
    }
  }

  /** A pre-handle that raises decides the result alone: no later layer, no
      handler and no post-handle has any influence. */
  lemma {:induction false} FailedPreDecides(code: Code, layers: seq<Layer>, rest: seq<Layer>,
                                            core: Option<Handler>, cmd: Command, ctx: Context)
    requires RunPres(code, layers, cmd, ctx).1.Some?
    ensures Nested(code, layers + rest, core, cmd, ctx)
         == var (entered, failure) := RunPres(code, layers, cmd, ctx); (entered, Err(Raised(failure.value)))
  {
    NestedIsPhased(code, layers + rest, core, cmd, ctx);
    PresCompose(code, layers, rest, cmd, ctx);
  }

  /** A chain that ends in a handler never raises the dangling-guard error; one
      that ends nowhere raises it exactly when all its pre-handles return. */
  lemma {:induction false} DanglesIffNoHandler(code: Code, layers: seq<Layer>, core: Option<Handler>,
                                               cmd: Command, ctx: Context)
    ensures Nested(code, layers, core, cmd, ctx).1 == Err(DanglingGuard)
       <==> core.None? && RunPres(code, layers, cmd, ctx).1.None?
    decreases |layers|
  {
    if layers != [] {
      var (entered, failure) := Before(code, layers[0], cmd, ctx);
      if failure.None? {
        DanglesIffNoHandler(code, layers[1..], core, cmd, entered);
      }
    }
  }
}
