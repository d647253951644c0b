/** The three phases against the calls of application code they stand for, and
    chains of one or two guards spelled out
    (anywise/anywise.py:39-56, anywise/guard.py:138-148). */
module Answers {
  import opened Basics
  import opened Callables
  import opened Onion
  import opened GuardChain

  lemma {:induction false} ReturnsDecides(code: Code, chain: seq<Guard>, h: Handler, cmd: Command, ctx: Context,
                                          after: Context, response: Response)
    requires Returns(code, chain, h, cmd, ctx, after, response)
    ensures Nested(code, Layers(chain), Some(h), cmd, ctx) == (after, Ok(response))
    decreases |chain|
  {
    if chain != [] {
      assert Layers(chain)[1..] == Layers(chain[1..]);
      var entered, inner, given :| PreReturns(code, chain[0], cmd, ctx, entered)
        && Returns(code, chain[1..], h, cmd, entered, inner, given)
        && PostReturns(code, chain[0], cmd, inner, given, after, response);
      ReturnsDecides(code, chain[1..], h, cmd, entered, inner, given);
    }
  }

  lemma {:induction false} RaisesDecides(code: Code, chain: seq<Guard>, h: Handler, cmd: Command, ctx: Context,
                                         after: Context, exn: Exn)
    requires Raises(code, chain, h, cmd, ctx, after, exn)
    ensures Nested(code, Layers(chain), Some(h), cmd, ctx) == (after, Err(Raised(exn)))
    decreases |chain|
  {
    if chain != [] {
      assert Layers(chain)[1..] == Layers(chain[1..]);
      if chain[0].preHandle.Some? && code.pre(chain[0].preHandle.value, cmd, ctx) == (after, Some(exn)) {
      } else if entered :|
        PreReturns(code, chain[0], cmd, ctx, entered) && Raises(code, chain[1..], h, cmd, entered, after, exn)
      {
        RaisesDecides(code, chain[1..], h, cmd, entered, after, exn);
      } else {
        var entered, inner, given :| PreReturns(code, chain[0], cmd, ctx, entered)
          && Returns(code, chain[1..], h, cmd, entered, inner, given)
          && chain[0].postHandle.Some?
          && code.post(chain[0].postHandle.value, cmd, inner, given) == (after, Err(exn));
        ReturnsDecides(code, chain[1..], h, cmd, entered, inner, given);
      }
    }
  }

  /** The three phases answer exactly what the calls say: the response of the
      outermost one if all return, and otherwise the exception of the one that raised. */
  lemma {:induction false} PhasedAnswers(code: Code, chain: seq<Guard>, h: Handler, cmd: Command, ctx: Context,
                                         after: Context)
    ensures forall x ::
      Phased(code, Layers(chain), Some(h), cmd, ctx) == (after, Ok(x)) <==> Returns(code, chain, h, cmd, ctx, after, x)
    ensures forall e ::
      Phased(code, Layers(chain), Some(h), cmd, ctx) == (after, Err(Raised(e))) <==>
        Raises(code, chain, h, cmd, ctx, after, e)
    ensures var outcome := Phased(code, Layers(chain), Some(h), cmd, ctx).1; outcome.Ok? || outcome.error.Raised?
  {
    NestedIsPhased(code, Layers(chain), Some(h), cmd, ctx);
    NestedAnswers(code, chain, h, cmd, ctx);
    forall x | Returns(code, chain, h, cmd, ctx, after, x)
      ensures Nested(code, Layers(chain), Some(h), cmd, ctx) == (after, Ok(x))
    {
      ReturnsDecides(code, chain, h, cmd, ctx, after, x);
    }
    forall e | Raises(code, chain, h, cmd, ctx, after, e)
      ensures Nested(code, Layers(chain), Some(h), cmd, ctx) == (after, Err(Raised(e)))
    {
      RaisesDecides(code, chain, h, cmd, ctx, after, e);
    }
  }

  // --------------------------------------------------------------------- one or two guards

  /** One post-handle around a handler that answers `x`: what it makes of `x` is the answer. */
  lemma {:induction false} PostHandleAnswers(code: Code, p: FuncId, h: Handler, cmd: Command, ctx: Context,
                                             inner: Context, x: Response)
    requires HandlerReturns(code, h, cmd, ctx, inner, x)
    ensures var (after, r) := code.post(p, cmd, inner, x);
      Phased(code, [Layer(None, Some(p))], Some(h), cmd, ctx)
        == (after, match r case Ok(y) => Ok(y) case Err(e) => Err(Raised(e)))
  {
    NestedIsPhased(code, [Layer(None, Some(p))], Some(h), cmd, ctx);
  }

  /** Of two post-handles the outer one is given what the inner one returned. */
  lemma {:induction false} OuterPostIsGiven(code: Code, outer: FuncId, inner: FuncId, h: Handler, cmd: Command,
                                            ctx: Context, handled: Context, x: Response, between: Context, y: Response)
    requires HandlerReturns(code, h, cmd, ctx, handled, x) && code.post(inner, cmd, handled, x) == (between, Ok(y))
    ensures var (after, r) := code.post(outer, cmd, between, y);
      Phased(code, [Layer(None, Some(outer)), Layer(None, Some(inner))], Some(h), cmd, ctx)
        == (after, match r case Ok(z) => Ok(z) case Err(e) => Err(Raised(e)))
  {
    var layers := [Layer(None, Some(outer)), Layer(None, Some(inner))];
    assert layers[1..] == [Layer(None, Some(inner))];
    NestedIsPhased(code, layers, Some(h), cmd, ctx);
    PostHandleAnswers(code, inner, h, cmd, ctx, handled, x);
    NestedIsPhased(code, layers[1..], Some(h), cmd, ctx);
  }

  /** A pre-handle that returns hands its context on; one that raises decides. */
  lemma {:induction false} PreHandleEnters(code: Code, p: FuncId, h: Handler, cmd: Command, ctx: Context)
    ensures var (entered, failure) := code.pre(p, cmd, ctx);
      match failure
      case Some(e) => Phased(code, [Layer(Some(p), None)], Some(h), cmd, ctx) == (entered, Err(Raised(e)))
      case None =>
        forall after, x :: HandlerReturns(code, h, cmd, entered, after, x) ==>
          Phased(code, [Layer(Some(p), None)], Some(h), cmd, ctx) == (after, Ok(x))
  {
    var layers := [Layer(Some(p), None)];
    NestedIsPhased(code, layers, Some(h), cmd, ctx);
    assert layers[0] == Layer(Some(p), None) && layers[1..] == [];
    var (entered, failure) := Before(code, layers[0], cmd, ctx);
    if failure.Some? {
      assert Nested(code, layers, Some(h), cmd, ctx) == (entered, Err(Raised(failure.value)));
    }
  }
}
