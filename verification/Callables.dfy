/** The application code the library calls: handlers, pre-handles and post-handles.

    What such code computes is arbitrary. It may change the context it is given,
    it may return and it may raise; every theorem is for all of it. */
module Callables {
  import opened Basics

  type Command(!new)
  type Context(!new)
  type Response(!new)
  type Exn(!new)

  type FuncId = nat

  datatype Code = Code(
    emptyContext: Context,
    handle: (FuncId, Command, Context) -> (Context, Result<Response, Exn>),
    handlePlain: (FuncId, Command) -> Result<Response, Exn>,
    pre: (FuncId, Command, Context) -> (Context, Option<Exn>),
    post: (FuncId, Command, Context, Response) -> (Context, Result<Response, Exn>))

  /** `NotAGuard`: a plain function in the place of a guard cannot be linked. */
  datatype Failure = Raised(exn: Exn) | DanglingGuard | UnregisteredMessage | NotAGuard

  type Outcome = Result<Response, Failure>

  /** A resolved command handler; one that takes no context never sees it. */
  datatype Handler = Handler(func: FuncId, isContexted: bool)

  function Lift(r: Result<Response, Exn>): Outcome {
    match r
    case Ok(value) => Ok(value)
    case Err(e) => Err(Raised(e))
  }

  function Handle(code: Code, h: Handler, cmd: Command, ctx: Context): (Context, Outcome) {
    if h.isContexted then
      var (after, r) := code.handle(h.func, cmd, ctx);
      (after, Lift(r))
    else
      (ctx, Lift(code.handlePlain(h.func, cmd)))
  }
}
