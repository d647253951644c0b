/** What concurrent sends return: the links of `Dispatch` are those the linking
    loop leaves in the guard objects, and the calls a send logs, replayed with
    the application code, give the outcome of an undisturbed send
    (anywise/anywise.py:103-111, anywise/guard.py:138-148). */
module Outcomes {
  import opened Basics
  import opened Callables
  import opened Onion
  import opened Walks
  import opened GuardChain
  import opened Anywise
  import opened Sharing
  import Dispatch

  // ------------------------------------------------------------- links as modelled

  /** The node a link stands for; a handler is the copy resolved by some send. */
  ghost predicate NodeShows(node: Dispatch.Node, link: Link, numbers: map<Guard, nat>, handlers: seq<Handler>) {
    match node
    case AtGuard(n) => link.ToGuard? && link.guard in numbers && numbers[link.guard] == n
    case AtHandler(c) => c < |handlers| && link == ToHandler(handlers[c])
  }

  /** Every link that is known is the one in the object. */
  ghost predicate Shows(links: map<Dispatch.Obj, Dispatch.Node>, numbers: map<Guard, nat>, handlers: seq<Handler>)
    reads numbers.Keys
  {
    forall g :: g in numbers && numbers[g] in links ==> NodeShows(links[numbers[g]], g.next, numbers, handlers)
  }

  ghost predicate IsNumbered(guards: seq<Guard>, numbers: map<Guard, nat>, objects: seq<nat>) {
    && Numbered(numbers) && |guards| == |objects|
    && forall k :: 0 <= k < |guards| ==> guards[k] in numbers && numbers[guards[k]] == objects[k]
  }

  lemma {:induction false} NumbersKeepPattern(guards: seq<Guard>, numbers: map<Guard, nat>, objects: seq<nat>)
    requires IsNumbered(guards, numbers, objects)
    ensures SamePattern(guards, objects)
    ensures forall g :: g in numbers ==> (g in guards <==> numbers[g] in objects)
  {
  }

  lemma {:induction false} SameSuccessor(guards: seq<Guard>, numbers: map<Guard, nat>, objects: seq<nat>, g: Guard)
    requires IsNumbered(guards, numbers, objects) && g in guards
    ensures var a, b := Successor(guards, g), Successor(objects, numbers[g]);
      if a.Some? then a.value in numbers && b == Some(numbers[a.value]) else b == None
  {
    var k := LastIndex(guards, g);
    forall j | k < j < |objects| ensures objects[j] != numbers[g] {
      assert guards[j] != g;
    }
    LastIndexUnique(objects, numbers[g], k);
  }

  lemma {:induction false} LinkedShows(guards: seq<Guard>, numbers: map<Guard, nat>, handlers: seq<Handler>,
                                       cfg: Dispatch.Config, links: map<Dispatch.Obj, Dispatch.Node>, i: nat, g: Guard)
    requires i < |cfg.sends| && i < |handlers| && IsNumbered(guards, numbers, cfg.sends[i].guards)
    requires g in guards && Chained(guards, ToHandler(handlers[i]))
    ensures g in numbers && numbers[g] in Dispatch.Relinked(cfg, links, i)
    ensures NodeShows(Dispatch.Relinked(cfg, links, i)[numbers[g]], g.next, numbers, handlers)
  {
    NumbersKeepPattern(guards, numbers, cfg.sends[i].guards);
    SameSuccessor(guards, numbers, cfg.sends[i].guards, g);
  }

  lemma {:induction false} UnlinkedSame(guards: seq<Guard>, numbers: map<Guard, nat>, cfg: Dispatch.Config,
                                        links: map<Dispatch.Obj, Dispatch.Node>, i: nat, g: Guard)
    requires i < |cfg.sends| && IsNumbered(guards, numbers, cfg.sends[i].guards)
    requires g in numbers && g !in guards && numbers[g] in Dispatch.Relinked(cfg, links, i)
    ensures numbers[g] in links && Dispatch.Relinked(cfg, links, i)[numbers[g]] == links[numbers[g]]
  {
    NumbersKeepPattern(guards, numbers, cfg.sends[i].guards);
  }

  /** The linking loop does to the objects what `Relinked` does to the links,
      and returns the node the call begins with. */
  method LinkAsModelled(guards: seq<Guard>, ghost numbers: map<Guard, nat>, handlers: seq<Handler>,
                        ghost cfg: Dispatch.Config, ghost links: map<Dispatch.Obj, Dispatch.Node>, i: nat)
    returns (head: Link)
    requires i < |cfg.sends| && i < |handlers| && IsNumbered(guards, numbers, cfg.sends[i].guards)
    requires Shows(links, numbers, handlers)
    modifies guards`next
    ensures Shows(Dispatch.Relinked(cfg, links, i), numbers, handlers)
    ensures NodeShows(Dispatch.Head(cfg, i), head, numbers, handlers)
  {
    ghost var now := Dispatch.Relinked(cfg, links, i);
    head := ChainGuards(guards, ToHandler(handlers[i]));
    forall g | g in numbers && numbers[g] in now ensures NodeShows(now[numbers[g]], g.next, numbers, handlers) {
      if g in guards {
        LinkedShows(guards, numbers, handlers, cfg, links, i, g);
      } else {
        UnlinkedSame(guards, numbers, cfg, links, i, g);
      }
    }
  }

  // --------------------------------------------------------------- logs with results

  /** How far a send has come with its own command. */
  datatype Stage =
    | Entering(ctx: Context)
    | Answered(ctx: Context, response: Response)
    | Stopped(ctx: Context, failure: Failure)

  /** What the objects and the handler copies do. */
  datatype Roles = Roles(layers: Dispatch.Obj -> Layer, handlers: nat -> Handler)

  function StageOf(result: (Context, Outcome)): Stage {
    match result.1
    case Ok(response) => Answered(result.0, response)
    case Err(failure) => Stopped(result.0, failure)
  }

  /** The call a log entry stands for. */
  function Perform(code: Code, roles: Roles, cmd: Command, stage: Stage, entry: Dispatch.Entry): Stage {
    match entry
    case Enter(g) =>
      if !stage.Entering? then stage else
        var (after, failure) := Before(code, roles.layers(g), cmd, stage.ctx);
        if failure.Some? then Stopped(after, Raised(failure.value)) else Entering(after)
    case Handled(c) =>
      if stage.Entering? then StageOf(Handle(code, roles.handlers(c), cmd, stage.ctx)) else stage
    case Exit(g) =>
      if stage.Answered? then StageOf(Behind(code, roles.layers(g), cmd, stage.ctx, stage.response)) else stage
  }

  function Replay(code: Code, roles: Roles, cmd: Command, stage: Stage, log: seq<Dispatch.Entry>): Stage
    decreases |log|
  {
    if log == [] then stage else Replay(code, roles, cmd, Perform(code, roles, cmd, stage, log[0]), log[1..])
  }

  lemma {:induction false} ReplayAppend(code: Code, roles: Roles, cmd: Command, stage: Stage, a: seq<Dispatch.Entry>,
                                        b: seq<Dispatch.Entry>)
    ensures Replay(code, roles, cmd, stage, a + b) == Replay(code, roles, cmd, Replay(code, roles, cmd, stage, a), b)
    decreases |a|
  {
    if a == [] {
      assert a + b == b;
    } else {
      assert (a + b)[1..] == a[1..] + b;
      ReplayAppend(code, roles, cmd, Perform(code, roles, cmd, stage, a[0]), a[1..], b);
    }
  }

  /** Nothing is called any more after a failure. */
  lemma {:induction false} StoppedStays(code: Code, roles: Roles, cmd: Command, stage: Stage, log: seq<Dispatch.Entry>)
    requires stage.Stopped?
    ensures Replay(code, roles, cmd, stage, log) == stage
    decreases |log|
  {
    if log != [] {
      StoppedStays(code, roles, cmd, stage, log[1..]);
    }
  }

  function LayersOf(roles: Roles, v: seq<Dispatch.Obj>): (layers: seq<Layer>)
    ensures |layers| == |v|
  {
    seq(|v|, k requires 0 <= k < |v| => roles.layers(v[k]))
  }

  function Enters(v: seq<Dispatch.Obj>): (log: seq<Dispatch.Entry>)
    ensures |log| == |v|
  {
    seq(|v|, k requires 0 <= k < |v| => Dispatch.Enter(v[k]))
  }

  function Exits(v: seq<Dispatch.Obj>): (log: seq<Dispatch.Entry>)
    ensures |log| == |v|
  {
    seq(|v|, k requires 0 <= k < |v| => Dispatch.Exit(v[|v| - 1 - k]))
  }

  lemma {:induction false} ReplayEnters(code: Code, roles: Roles, cmd: Command, ctx: Context, v: seq<Dispatch.Obj>)
    ensures var (entered, failure) := RunPres(code, LayersOf(roles, v), cmd, ctx);
      Replay(code, roles, cmd, Entering(ctx), Enters(v))
        == if failure.Some? then Stopped(entered, Raised(failure.value)) else Entering(entered)
    decreases |v|
  {
    if v != [] {
      assert Enters(v)[1..] == Enters(v[1..]) && LayersOf(roles, v)[1..] == LayersOf(roles, v[1..]);
      var next := Perform(code, roles, cmd, Entering(ctx), Enters(v)[0]);
      if next.Stopped? {
        StoppedStays(code, roles, cmd, next, Enters(v[1..]));
      } else {
        ReplayEnters(code, roles, cmd, next.ctx, v[1..]);
      }
    }
  }

  lemma {:induction false} ReplayExits(code: Code, roles: Roles, cmd: Command, ctx: Context, response: Response,
                                       v: seq<Dispatch.Obj>)
    ensures Replay(code, roles, cmd, Answered(ctx, response), Exits(v))
         == StageOf(RunPosts(code, LayersOf(roles, v), cmd, ctx, response))
    decreases |v|
  {
    if v != [] {
      var n := |v| - 1;
      assert Exits(v)[1..] == Exits(v[..n]) && LayersOf(roles, v)[..n] == LayersOf(roles, v[..n]);
      var next := Perform(code, roles, cmd, Answered(ctx, response), Exits(v)[0]);
      if next.Stopped? {
        StoppedStays(code, roles, cmd, next, Exits(v[..n]));
      } else {
        ReplayExits(code, roles, cmd, next.ctx, next.response, v[..n]);
      }
    }
  }

  lemma {:induction false} AloneIsThreePhases(send: Dispatch.Send, i: nat)
    ensures var v := Dispatch.Visits(send);
      Dispatch.Alone(send, i) == Enters(v) + ([Dispatch.Handled(i)] + Exits(v))
  {
  }

  /** The whole log of a send by itself, replayed, is the three phases. */
  lemma {:induction false} AloneReplaysPhased(code: Code, roles: Roles, cmd: Command, ctx: Context, send: Dispatch.Send,
                                              i: nat)
    ensures Replay(code, roles, cmd, Entering(ctx), Dispatch.Alone(send, i))
         == StageOf(Phased(code, LayersOf(roles, Dispatch.Visits(send)), Some(roles.handlers(i)), cmd, ctx))
  {
    var v := Dispatch.Visits(send);
    var rest := [Dispatch.Handled(i)] + Exits(v);
    AloneIsThreePhases(send, i);
    ReplayAppend(code, roles, cmd, Entering(ctx), Enters(v), rest);
    ReplayEnters(code, roles, cmd, ctx, v);
    var entered := Replay(code, roles, cmd, Entering(ctx), Enters(v));
    if entered.Stopped? {
      StoppedStays(code, roles, cmd, entered, rest);
    } else {
      var handled := Perform(code, roles, cmd, entered, rest[0]);
      assert rest[1..] == Exits(v);
      if handled.Stopped? {
        StoppedStays(code, roles, cmd, handled, Exits(v));
      } else {
        ReplayExits(code, roles, cmd, handled.ctx, handled.response, v);
      }
    }
  }

  /** A log that is complete, or whose last call raised, decides the outcome. */
  lemma {:induction false} PrefixDecides(code: Code, roles: Roles, cmd: Command, ctx: Context, log: seq<Dispatch.Entry>,
                                         all: seq<Dispatch.Entry>)
    requires log <= all && (log == all || Replay(code, roles, cmd, Entering(ctx), log).Stopped?)
    ensures Replay(code, roles, cmd, Entering(ctx), log) == Replay(code, roles, cmd, Entering(ctx), all)
  {
    assert all == log + all[|log|..];
    ReplayAppend(code, roles, cmd, Entering(ctx), log, all[|log|..]);
    if log == all {
      assert all[|log|..] == [];
    } else {
      StoppedStays(code, roles, cmd, Replay(code, roles, cmd, Entering(ctx), log), all[|log|..]);
    }
  }

  /** A send that is exposed to no other one and is through - because it finished,
      or because a call of its own raised - has the outcome and the context of the
      three phases over its own guards and its own handler, whatever the others
      did in between, to it and to each other. */
  lemma {:induction false} UnexposedOutcome(cfg: Dispatch.Config, s: Dispatch.State, schedule: seq<Dispatch.Action>,
                                            i: nat, code: Code, roles: Roles, cmd: Command, ctx: Context)
    requires i < |cfg.sends| && Dispatch.Unexposed(cfg, i) && Dispatch.Initial(cfg, s)
    ensures var p := Dispatch.Run(cfg, s, schedule).procs[i];
      var stage := Replay(code, roles, cmd, Entering(ctx), p.log);
      p.pc.Finished? || stage.Stopped? ==>
        stage == StageOf(
          Phased(code, LayersOf(roles, Dispatch.Visits(cfg.sends[i])), Some(roles.handlers(i)), cmd, ctx))
  {
    var p := Dispatch.Run(cfg, s, schedule).procs[i];
    Dispatch.UnexposedRunsAsAlone(cfg, s, schedule, i);
    if p.pc.Finished? || Replay(code, roles, cmd, Entering(ctx), p.log).Stopped? {
      PrefixDecides(code, roles, cmd, ctx, p.log, Dispatch.Alone(cfg.sends[i], i));
      AloneReplaysPhased(code, roles, cmd, ctx, cfg.sends[i], i);
    }
  }

  // ---------------------------------------------------------------- as `send` promises

  /** The layer of every numbered object. */
  ghost predicate LayersOfObjects(roles: Roles, numbers: map<Guard, nat>) {
    forall g :: g in numbers ==> roles.layers(numbers[g]) == g.AsLayer()
  }

  lemma {:induction false} LayersMatch(roles: Roles, guards: seq<Guard>, numbers: map<Guard, nat>, objects: seq<nat>)
    requires IsNumbered(guards, numbers, objects) && LayersOfObjects(roles, numbers)
    ensures LayersOf(roles, Walk(objects)) == Layers(Walk(guards))
  {
    NumbersKeepPattern(guards, numbers, objects);
    WalksAsLong(guards, objects);
    forall k | 0 <= k < |Walk(guards)| ensures roles.layers(Walk(objects)[k]) == Walk(guards)[k].AsLayer() {
      WalksMatch(guards, objects, k);
      assert Matched(guards, objects, Walk(guards)[k], Walk(objects)[k]);
    }
  }

  lemma {:induction false} SendIsNumbered(w: Setting, r: Request)
    requires Served(w, r) && Numbered(w.numbers)
    ensures IsNumbered(Resolved(w.scopes[r.scope], ChainFor(w.sources, r.mtype)), w.numbers, SendOf(w, r).guards)
  {
    var guards := Resolved(w.scopes[r.scope], ChainFor(w.sources, r.mtype));
    forall k | 0 <= k < |guards| ensures guards[k] in w.numbers {
      assert guards[k] in guards;
    }
  }

  /** If a request may be overtaken by no other one, its concurrent send has the
      outcome and the context that `Anywise.Send` promises of one that is alone. */
  lemma {:induction false} ConcurrentSendIsSend(w: Setting, requests: seq<Request>, s: Dispatch.State,
                                                schedule: seq<Dispatch.Action>, i: nat, code: Code, roles: Roles,
                                                cmd: Command, context: Option<Context>)
    requires Sound(w, requests) && i < |requests| && NotOvertaken(w, requests, i)
    requires Dispatch.Initial(ConfigOf(w, requests), s) && LayersOfObjects(roles, w.numbers)
    requires roles.handlers(i) == LastHandler(w.sources, requests[i].mtype)
    ensures var p, r := Dispatch.Run(ConfigOf(w, requests), s, schedule).procs[i], requests[i];
      var stage := Replay(code, roles, cmd, Entering(ContextOf(code, context)), p.log);
      var chain := Walk(Resolved(w.scopes[r.scope], ChainFor(w.sources, r.mtype)));
      p.pc.Finished? || stage.Stopped? ==>
        stage == StageOf(
          Phased(code, Layers(chain), Some(LastHandler(w.sources, r.mtype)), cmd, ContextOf(code, context)))
  {
    var cfg, r := ConfigOf(w, requests), requests[i];
    UnexposedIff(w, requests, i);
    UnexposedOutcome(cfg, s, schedule, i, code, roles, cmd, ContextOf(code, context));
    SendIsNumbered(w, r);
    LayersMatch(roles, Resolved(w.scopes[r.scope], ChainFor(w.sources, r.mtype)), w.numbers, SendOf(w, r).guards);
  }
}
