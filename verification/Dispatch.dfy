/** Concurrent sends over shared guard objects.

    Tasks switch only where one suspends. Linking has no await
    (anywise/anywise.py:103-111), nothing is awaited between linking and the call
    of the first guard (anywise/anywise.py:317-318, anywise/strategies.py:25-30),
    and a guard awaits nothing but its own pre-handle before it follows its link
    (anywise/guard.py:138-145). So one step links the guards and runs through
    them up to the first one that may suspend, and when that one goes on, the
    next step runs up to the following one. While a task is suspended every
    other send may link the same objects again. */
module Dispatch {
  import opened Basics
  import opened Walks

  type MessageType = nat
  type Obj = nat

  /** One call of `send`: the type of its message and the guard objects its
      scope resolved, one for each guard meta of that type, in order. Its place
      in the configuration also names its own resolved copy of the handler. */
  datatype Send = Send(mtype: MessageType, guards: seq<Obj>)

  /** All sends, and the guards that may suspend before they follow their link:
      those with a pre-handle that awaits, or with a call of their own. */
  datatype Config = Config(sends: seq<Send>, waiting: set<Obj>)

  datatype Node = AtGuard(g: Obj) | AtHandler(copy: nat)

  /** `open` lists the guards whose call has begun and not ended, outermost first. */
  datatype Pc =
    | Idle
    | Inside(open: seq<Obj>)    // suspended in the last open guard, before it follows its link
    | Leaving(open: seq<Obj>)   // in the handler or in a post-handle; the open guards are still to act
    | Finished
    | Failed
    | Dangling                  // a guard without a link
    | Looping                   // a chain without an end

  datatype Entry = Enter(g: Obj) | Handled(copy: nat) | Exit(g: Obj)

  datatype Proc = Proc(pc: Pc, log: seq<Entry>)

  datatype State = State(links: map<Obj, Node>, procs: seq<Proc>)

  /** `Advance(i)` lets send `i` run until it suspends or is done. In `Fail(i, k)`
      it raises on the way, after beginning `k` more calls: in the one it was
      suspended in if there are none, in the last of them otherwise. */
  datatype Action = Advance(i: nat) | Fail(i: nat, k: nat)

  function NodeOf(successor: Option<Obj>, i: nat): Node {
    if successor.Some? then AtGuard(successor.value) else AtHandler(i)
  }

  /** The links after send `i` chained its guards. */
  function Relinked(cfg: Config, links: map<Obj, Node>, i: nat): map<Obj, Node>
    requires i < |cfg.sends|
  {
    links + map g | g in cfg.sends[i].guards :: NodeOf(Successor(cfg.sends[i].guards, g), i)
  }

  function Head(cfg: Config, i: nat): Node
    requires i < |cfg.sends|
  {
    if cfg.sends[i].guards == [] then AtHandler(i) else AtGuard(cfg.sends[i].guards[0])
  }

  /** Call a node and follow the links until a guard may suspend or the handler runs. */
  function Glide(waiting: set<Obj>, links: map<Obj, Node>, node: Node, open: seq<Obj>, log: seq<Entry>, seen: set<Obj>)
    : Proc
    decreases links.Keys - seen
  {
    match node
    case AtHandler(c) => Proc(Leaving(open), log + [Handled(c)])
    case AtGuard(g) =>
      var entered := log + [Enter(g)];
      if g in waiting then Proc(Inside(open + [g]), entered)
      else if g !in links then Proc(Dangling, entered)
      else if g in seen then Proc(Looping, entered)
      else Glide(waiting, links, links[g], open + [g], entered, seen + {g})
  }

  /** One step of a send that has begun. */
  function Progress(cfg: Config, links: map<Obj, Node>, p: Proc): Proc {
    match p.pc
    case Inside(open) =>
      if open == [] || open[|open| - 1] !in links then p.(pc := Dangling)
      else Glide(cfg.waiting, links, links[open[|open| - 1]], open, p.log, {})
    case Leaving(open) =>
      if open == [] then p.(pc := Finished)
      else Proc(Leaving(open[..|open| - 1]), p.log + [Exit(open[|open| - 1])])
    case _ => p
  }

  ghost predicate WellFormed(cfg: Config, s: State) {
    |s.procs| == |cfg.sends|
  }

  predicate Live(pc: Pc) {
    pc.Idle? || pc.Inside? || pc.Leaving?
  }

  function LinksNext(cfg: Config, s: State, i: nat): map<Obj, Node>
    requires WellFormed(cfg, s) && i < |cfg.sends|
  {
    if s.procs[i].pc.Idle? then Relinked(cfg, s.links, i) else s.links
  }

  function ProcNext(cfg: Config, s: State, i: nat): Proc
    requires WellFormed(cfg, s) && i < |cfg.sends|
  {
    if s.procs[i].pc.Idle? then Glide(cfg.waiting, LinksNext(cfg, s, i), Head(cfg, i), [], [], {})
    else Progress(cfg, s.links, s.procs[i])
  }

  function Cut(log: seq<Entry>, n: nat): seq<Entry> {
    if n < |log| then log[..n] else log
  }

  function Step(cfg: Config, s: State, a: Action): (s': State)
    requires WellFormed(cfg, s)
    ensures WellFormed(cfg, s')
  {
    if a.i >= |cfg.sends| || !Live(s.procs[a.i].pc) then s else
      var next := ProcNext(cfg, s, a.i);
      var p := if a.Advance? then next else Proc(Failed, Cut(next.log, |s.procs[a.i].log| + a.k));
      State(LinksNext(cfg, s, a.i), s.procs[a.i := p])
  }

  function Run(cfg: Config, s: State, schedule: seq<Action>): (s': State)
    requires WellFormed(cfg, s)
    ensures WellFormed(cfg, s')
    decreases |schedule|
  {
    if schedule == [] then s else Run(cfg, Step(cfg, s, schedule[0]), schedule[1..])
  }

  /** No send has begun; the guards may hold links left by any earlier send. */
  ghost predicate Initial(cfg: Config, s: State) {
    WellFormed(cfg, s) && forall i :: 0 <= i < |cfg.sends| ==> s.procs[i] == Proc(Idle, [])
  }

  lemma {:induction false} GlideExtends(waiting: set<Obj>, links: map<Obj, Node>, node: Node, open: seq<Obj>,
                                        log: seq<Entry>, seen: set<Obj>)
    ensures log <= Glide(waiting, links, node, open, log, seen).log
    decreases links.Keys - seen
  {
    if node.AtGuard? && node.g !in waiting && node.g in links && node.g !in seen {
      GlideExtends(waiting, links, links[node.g], open + [node.g], log + [Enter(node.g)], seen + {node.g});
    }
  }

  /** A send that raises after beginning `k` more calls has logged these and no
      more - fewer if it would have paused or ended before - and it leaves the
      links as it would have without raising. One that raises at once logs nothing. */
  lemma {:induction false} FailLogs(cfg: Config, s: State, i: nat, k: nat)
    requires WellFormed(cfg, s) && i < |cfg.sends| && Live(s.procs[i].pc)
    requires s.procs[i].pc.Idle? ==> s.procs[i].log == []
    ensures var was, now, other := s.procs[i].log, Step(cfg, s, Fail(i, k)), Step(cfg, s, Advance(i));
      && now.procs[i].pc == Failed && was <= now.procs[i].log <= other.procs[i].log
      && (|now.procs[i].log| == |was| + k || (|now.procs[i].log| < |was| + k && now.procs[i].log == other.procs[i].log))
      && now.links == other.links && (forall j :: 0 <= j < |s.procs| && j != i ==> now.procs[j] == s.procs[j])
  {
    var p := s.procs[i];
    if p.pc.Idle? {
      GlideExtends(cfg.waiting, LinksNext(cfg, s, i), Head(cfg, i), [], [], {});
    } else if p.pc.Inside? && p.pc.open != [] && p.pc.open[|p.pc.open| - 1] in s.links {
      GlideExtends(cfg.waiting, s.links, s.links[p.pc.open[|p.pc.open| - 1]], p.pc.open, p.log, {});
    }
  }

  // ------------------------------------------------------------ never lost

  /** Objects of begun sends are linked, and links descend in rank. */
  ghost predicate Ranked(links: map<Obj, Node>, rank: map<Obj, nat>) {
    forall g :: g in rank ==> RankedAt(links, rank, g)
  }

  ghost predicate RankedAt(links: map<Obj, Node>, rank: map<Obj, nat>, g: Obj)
    requires g in rank
  {
    g in links && NodeBelow(links[g], rank, rank[g])
  }

  ghost predicate NodeBelow(node: Node, rank: map<Obj, nat>, bound: nat) {
    node.AtGuard? ==> node.g in rank && rank[node.g] < bound
  }

  ghost predicate NotLost(pc: Pc, rank: map<Obj, nat>) {
    match pc
    case Inside(open) => open != [] && open[|open| - 1] in rank
    case Dangling => false
    case Looping => false
    case _ => true
  }

  ghost predicate Anchored(cfg: Config, s: State, rank: map<Obj, nat>) {
    WellFormed(cfg, s) && Ranked(s.links, rank) && forall i :: 0 <= i < |cfg.sends| ==> NotLost(s.procs[i].pc, rank)
  }

  lemma {:induction false} GlideArrives(waiting: set<Obj>, links: map<Obj, Node>, node: Node, open: seq<Obj>,
                                        log: seq<Entry>, seen: set<Obj>, rank: map<Obj, nat>, bound: nat)
    requires Ranked(links, rank) && NodeBelow(node, rank, bound)
    requires forall x :: x in seen ==> x in rank && bound <= rank[x]
    ensures NotLost(Glide(waiting, links, node, open, log, seen).pc, rank)
    decreases links.Keys - seen
  {
    if node.AtGuard? && node.g !in waiting {
      assert RankedAt(links, rank, node.g);
      GlideArrives(waiting, links, links[node.g], open + [node.g], log + [Enter(node.g)], seen + {node.g}, rank,
        rank[node.g]);
    }
  }

  /** Send `i` goes below everything linked before. */
  ghost function Reranked(cfg: Config, rank: map<Obj, nat>, i: nat): map<Obj, nat>
    requires i < |cfg.sends|
  {
    var mine := cfg.sends[i].guards;
    map g | g in rank.Keys + (set x | x in mine) :: if g in mine then |After(mine, g)| else rank[g] + |mine| + 1
  }

  /** A successor is followed by less. */
  lemma {:induction false} SuccessorDescends(s: seq<Obj>, g: Obj)
    requires g in s && After(s, g) != []
    ensures var next := After(s, g)[0]; next in s && |After(s, next)| < |After(s, g)|
  {
    var rest := After(s, g);
    assert s == s[..|s| - |rest|] + rest && rest[0] in rest;
    AfterAppend(s[..|s| - |rest|], rest, rest[0]);
  }

  lemma {:induction false} RelinkedRankedAt(cfg: Config, links: map<Obj, Node>, rank: map<Obj, nat>, i: nat, g: Obj)
    requires Ranked(links, rank) && i < |cfg.sends| && g in Reranked(cfg, rank, i)
    ensures RankedAt(Relinked(cfg, links, i), Reranked(cfg, rank, i), g)
  {
    var mine := cfg.sends[i].guards;
    if g !in mine {
      assert RankedAt(links, rank, g);
    } else if After(mine, g) != [] {
      SuccessorDescends(mine, g);
    }
  }

  lemma {:induction false} NextArrives(cfg: Config, s: State, i: nat, rank: map<Obj, nat>)
    returns (rank': map<Obj, nat>)
    requires Anchored(cfg, s, rank) && i < |cfg.sends|
    ensures rank.Keys <= rank'.Keys && Ranked(LinksNext(cfg, s, i), rank') && NotLost(ProcNext(cfg, s, i).pc, rank')
  {
    rank' := rank;
    var p := s.procs[i];
    assert NotLost(p.pc, rank);
    if p.pc.Idle? {
      rank' := Reranked(cfg, rank, i);
      forall g | g in rank' ensures RankedAt(LinksNext(cfg, s, i), rank', g) {
        RelinkedRankedAt(cfg, s.links, rank, i, g);
      }
      GlideArrives(cfg.waiting, LinksNext(cfg, s, i), Head(cfg, i), [], [], {}, rank', |cfg.sends[i].guards|);
    } else if p.pc.Inside? {
      var g := p.pc.open[|p.pc.open| - 1];
      assert RankedAt(s.links, rank, g);
      GlideArrives(cfg.waiting, s.links, s.links[g], p.pc.open, p.log, {}, rank, rank[g]);
    }
  }

  lemma {:induction false} NotLostLater(pc: Pc, rank: map<Obj, nat>, rank': map<Obj, nat>)
    requires NotLost(pc, rank) && rank.Keys <= rank'.Keys
    ensures NotLost(pc, rank')
  {
  }

  lemma {:induction false} StepKeepsAnchored(cfg: Config, s: State, a: Action, rank: map<Obj, nat>)
    returns (rank': map<Obj, nat>)
    requires Anchored(cfg, s, rank)
    ensures Anchored(cfg, Step(cfg, s, a), rank')
  {
    rank' := rank;
    if a.i < |cfg.sends| && Live(s.procs[a.i].pc) {
      rank' := NextArrives(cfg, s, a.i, rank);
      var s' := Step(cfg, s, a);
      assert s'.links == LinksNext(cfg, s, a.i);
      forall k | 0 <= k < |cfg.sends| ensures NotLost(s'.procs[k].pc, rank') {
        if k != a.i {
          assert s'.procs[k] == s.procs[k];
          NotLostLater(s.procs[k].pc, rank, rank');
        }
      }
    }
  }

  lemma {:induction false} RunKeepsAnchored(cfg: Config, s: State, schedule: seq<Action>, rank: map<Obj, nat>)
    returns (rank': map<Obj, nat>)
    requires Anchored(cfg, s, rank)
    ensures Anchored(cfg, Run(cfg, s, schedule), rank')
    decreases |schedule|
  {
    rank' := rank;
    if schedule != [] {
      rank' := StepKeepsAnchored(cfg, s, schedule[0], rank);
      rank' := RunKeepsAnchored(cfg, Step(cfg, s, schedule[0]), schedule[1..], rank');
    }
  }

  /** Whatever objects the sends share or repeat, however they interleave and
      whatever links were left before: no guard ever lacks a successor, and no
      chain runs in circles. */
  lemma {:induction false} NeverLost(cfg: Config, s: State, schedule: seq<Action>, i: nat)
    requires Initial(cfg, s) && i < |cfg.sends|
    ensures var pc := Run(cfg, s, schedule).procs[i].pc; !pc.Dangling? && !pc.Looping?
  {
    assert Anchored(cfg, s, map[]);
    var rank := RunKeepsAnchored(cfg, s, schedule, map[]);
    assert NotLost(Run(cfg, s, schedule).procs[i].pc, rank);
  }

  // ------------------------------------------------- every send keeps its order

  /** The guards a call passes. */
  function Visits(send: Send): seq<Obj> {
    Walk(send.guards)
  }

  /** Both calls pass as many guards; where one passes an object the other also
      uses, the other passes it too; and they may suspend in the same places. */
  ghost predicate SameVisits(a: Send, b: Send, waiting: set<Obj>) {
    var v, u := Visits(a), Visits(b);
    |v| == |u| && forall k :: 0 <= k < |v| ==>
      (v[k] in b.guards ==> u[k] == v[k]) && (v[k] in waiting <==> u[k] in waiting)
  }

  /** Sends of one type resolved the same list of metas. */
  ghost predicate Aligned(cfg: Config) {
    forall i, j :: 0 <= i < |cfg.sends| && 0 <= j < |cfg.sends| && cfg.sends[i].mtype == cfg.sends[j].mtype ==>
      SameVisits(cfg.sends[i], cfg.sends[j], cfg.waiting)
  }

  /** Send `i` may suspend before it follows its link in a guard that is, or
      comes before, one that send `j` links. */
  ghost predicate Exposed(cfg: Config, i: nat, j: nat)
    requires i < |cfg.sends| && j < |cfg.sends|
  {
    var v := Visits(cfg.sends[i]);
    exists p, q :: 0 <= p <= q < |v| && v[p] in cfg.waiting && v[q] in cfg.sends[j].guards
  }

  /** No send is exposed to one of another type. */
  ghost predicate Sheltered(cfg: Config) {
    forall i, j :: 0 <= i < |cfg.sends| && 0 <= j < |cfg.sends| && cfg.sends[i].mtype != cfg.sends[j].mtype ==>
      !Exposed(cfg, i, j)
  }

  predicate HasAt(send: Send, t: MessageType, p: nat, g: Obj) {
    send.mtype == t && p < |Visits(send)| && Visits(send)[p] == g
  }

  /** `g` is passed in place `p` by some send of type `t`. */
  ghost predicate Owns(cfg: Config, t: MessageType, p: nat, g: Obj) {
    exists j :: 0 <= j < |cfg.sends| && HasAt(cfg.sends[j], t, p, g)
  }

  /** What a log of type `t` looks like at any time: a guard of each place in
      order, one handler of that type, the same guards in reverse. */
  ghost predicate Orderly(cfg: Config, t: MessageType, n: nat, log: seq<Entry>) {
    && |log| <= 2 * n + 1
    && (forall p :: 0 <= p < |log| && p < n ==> log[p].Enter? && Owns(cfg, t, p, log[p].g))
    && (n < |log| ==> log[n].Handled? && log[n].copy < |cfg.sends| && cfg.sends[log[n].copy].mtype == t)
    && (forall p :: n < p < |log| ==> log[p] == Exit(log[2 * n - p].g))
  }

  ghost predicate Provides(cfg: Config, begun: set<nat>, j: nat, t: MessageType, p: nat, g: Obj) {
    j in begun && j < |cfg.sends| && HasAt(cfg.sends[j], t, p, g)
  }

  /** A call in place `p` of a chain of type `t` may be to this node. */
  ghost predicate Fits(cfg: Config, begun: set<nat>, t: MessageType, p: nat, node: Node) {
    match node
    case AtGuard(g) => exists j: nat :: Provides(cfg, begun, j, t, p, g)
    case AtHandler(c) => c < |cfg.sends| && cfg.sends[c].mtype == t && |Visits(cfg.sends[c])| == p
  }

  ghost predicate LinkFits(cfg: Config, links: map<Obj, Node>, begun: set<nat>, j: nat, q: nat)
    requires j < |cfg.sends| && q < |Visits(cfg.sends[j])|
  {
    var g := Visits(cfg.sends[j])[q];
    g in links && Fits(cfg, begun, cfg.sends[j].mtype, q + 1, links[g])
  }

  /** From place `from` on, the links of type `t` lead from place to place. */
  ghost predicate Leading(cfg: Config, links: map<Obj, Node>, begun: set<nat>, t: MessageType, from: nat) {
    forall j: nat, q: nat ::
      j in begun && j < |cfg.sends| && cfg.sends[j].mtype == t && from <= q < |Visits(cfg.sends[j])| ==>
      LinkFits(cfg, links, begun, j, q)
  }

  ghost predicate AfterPause(cfg: Config, j: nat, q: nat)
    requires j < |cfg.sends| && q < |Visits(cfg.sends[j])|
  {
    exists p :: 0 <= p <= q && Visits(cfg.sends[j])[p] in cfg.waiting
  }

  ghost function Begun(s: State): set<nat> {
    set j: nat | j < |s.procs| && !s.procs[j].pc.Idle?
  }

  /** Links that are read after a pause lead from place to place. */
  ghost predicate LinksFit(cfg: Config, links: map<Obj, Node>, begun: set<nat>) {
    forall j: nat, q: nat :: j in begun && j < |cfg.sends| && q < |Visits(cfg.sends[j])| && AfterPause(cfg, j, q) ==>
      LinkFits(cfg, links, begun, j, q)
  }

  ghost predicate OpenIs(open: seq<Obj>, log: seq<Entry>) {
    |open| <= |log| && forall p :: 0 <= p < |open| ==> log[p] == Enter(open[p])
  }

  ghost predicate ProcFits(cfg: Config, begun: set<nat>, i: nat, proc: Proc)
    requires i < |cfg.sends|
  {
    var t, n, log := cfg.sends[i].mtype, |Visits(cfg.sends[i])|, proc.log;
    Orderly(cfg, t, n, log) &&
    match proc.pc
    case Idle => log == []
    case Inside(open) =>
      && 0 < |open| <= n && |log| == |open| && OpenIs(open, log) && open[|open| - 1] in cfg.waiting
      && Fits(cfg, begun, t, |open| - 1, AtGuard(open[|open| - 1]))
    case Leaving(open) => |open| <= n && |log| == 2 * n + 1 - |open| && OpenIs(open, log)
    case Finished => |log| == 2 * n + 1
    case _ => true
  }

  ghost predicate Inv(cfg: Config, s: State) {
    WellFormed(cfg, s) && LinksFit(cfg, s.links, Begun(s)) && forall i :: 0 <= i < |cfg.sends| ==>
      ProcFits(cfg, Begun(s), i, s.procs[i])
  }

  lemma {:induction false} FitsLater(cfg: Config, begun: set<nat>, later: set<nat>, t: MessageType, p: nat, node: Node)
    requires begun <= later && Fits(cfg, begun, t, p, node)
    ensures Fits(cfg, later, t, p, node)
  {
    if node.AtGuard? {
      var j: nat :| Provides(cfg, begun, j, t, p, node.g);
      assert Provides(cfg, later, j, t, p, node.g);
    }
  }

  lemma {:induction false} ProcFitsLater(cfg: Config, begun: set<nat>, later: set<nat>, i: nat, proc: Proc)
    requires begun <= later && i < |cfg.sends| && ProcFits(cfg, begun, i, proc)
    ensures ProcFits(cfg, later, i, proc)
  {
    if proc.pc.Inside? {
      var open := proc.pc.open;
      FitsLater(cfg, begun, later, cfg.sends[i].mtype, |open| - 1, AtGuard(open[|open| - 1]));
    }
  }

  /** A fitting node is a guard before the last place, suspending where this
      type suspends, and a handler behind it. */
  lemma {:induction false} FitsInRange(cfg: Config, begun: set<nat>, i: nat, p: nat, node: Node)
    requires Aligned(cfg) && i < |cfg.sends| && Fits(cfg, begun, cfg.sends[i].mtype, p, node)
    ensures var v := Visits(cfg.sends[i]);
            if node.AtGuard? then
              p < |v| && Owns(cfg, cfg.sends[i].mtype, p, node.g) && (node.g in cfg.waiting <==> v[p] in cfg.waiting)
            else p == |v|
  {
    match node {
      case AtGuard(g) =>
        var j: nat :| Provides(cfg, begun, j, cfg.sends[i].mtype, p, g);
        assert SameVisits(cfg.sends[i], cfg.sends[j], cfg.waiting);
      case AtHandler(c) =>
        assert SameVisits(cfg.sends[i], cfg.sends[c], cfg.waiting);
    }
  }

  lemma {:induction false} OrderlyExtends(cfg: Config, t: MessageType, n: nat, log: seq<Entry>, entry: Entry)
    requires Orderly(cfg, t, n, log) && |log| <= 2 * n
    requires |log| < n ==> entry.Enter? && Owns(cfg, t, |log|, entry.g)
    requires |log| == n ==> entry.Handled? && entry.copy < |cfg.sends| && cfg.sends[entry.copy].mtype == t
    requires |log| > n ==> entry == Exit(log[2 * n - |log|].g)
    ensures Orderly(cfg, t, n, log + [entry])
  {
    var longer := log + [entry];
    forall p | n < p < |longer| ensures longer[p] == Exit(longer[2 * n - p].g) {
      if p < |log| {
        assert longer[p] == log[p];
      }
    }
  }

  /** How many guards from place `k` on may suspend. */
  function Pauses(waiting: set<Obj>, v: seq<Obj>, k: nat): nat
    decreases |v| - k
  {
    if k >= |v| then 0 else (if v[k] in waiting then 1 else 0) + Pauses(waiting, v, k + 1)
  }

  /** A send that was in place `p` is in a later pause, or through. */
  ghost predicate Reaches(cfg: Config, begun: set<nat>, i: nat, p: nat, proc: Proc)
    requires i < |cfg.sends|
  {
    var v := Visits(cfg.sends[i]);
    && ProcFits(cfg, begun, i, proc)
    && match proc.pc
       case Inside(open) => Pauses(cfg.waiting, v, p) == Pauses(cfg.waiting, v, |open|) + 1
       case Leaving(open) => Pauses(cfg.waiting, v, p) == 0 && |open| == |v|
       case Looping => true
       case _ => false
  }

  /** A call on its way, all guards it passed still open, and the next node. */
  ghost predicate OnTheWay(cfg: Config, begun: set<nat>, i: nat, node: Node, open: seq<Obj>, log: seq<Entry>)
    requires i < |cfg.sends|
  {
    && |open| == |log| && OpenIs(open, log) && Orderly(cfg, cfg.sends[i].mtype, |Visits(cfg.sends[i])|, log)
    && Fits(cfg, begun, cfg.sends[i].mtype, |open|, node)
  }

  lemma {:induction false} ReachesHandler(cfg: Config, begun: set<nat>, i: nat, c: nat, open: seq<Obj>, log: seq<Entry>)
    requires Aligned(cfg) && i < |cfg.sends| && OnTheWay(cfg, begun, i, AtHandler(c), open, log)
    ensures Reaches(cfg, begun, i, |open|, Proc(Leaving(open), log + [Handled(c)]))
  {
    FitsInRange(cfg, begun, i, |open|, AtHandler(c));
    OrderlyExtends(cfg, cfg.sends[i].mtype, |open|, log, Handled(c));
  }

  lemma {:induction false} EntersGuard(cfg: Config, begun: set<nat>, i: nat, g: Obj, open: seq<Obj>, log: seq<Entry>)
    requires Aligned(cfg) && i < |cfg.sends| && OnTheWay(cfg, begun, i, AtGuard(g), open, log)
    ensures var t, v := cfg.sends[i].mtype, Visits(cfg.sends[i]);
            && |open| < |v| && (g in cfg.waiting <==> v[|open|] in cfg.waiting)
            && OpenIs(open + [g], log + [Enter(g)]) && Orderly(cfg, t, |v|, log + [Enter(g)])
  {
    FitsInRange(cfg, begun, i, |open|, AtGuard(g));
    OrderlyExtends(cfg, cfg.sends[i].mtype, |Visits(cfg.sends[i])|, log, Enter(g));
  }

  lemma {:induction false} PausesInGuard(cfg: Config, begun: set<nat>, i: nat, g: Obj, open: seq<Obj>, log: seq<Entry>)
    requires Aligned(cfg) && i < |cfg.sends| && OnTheWay(cfg, begun, i, AtGuard(g), open, log) && g in cfg.waiting
    ensures Reaches(cfg, begun, i, |open|, Proc(Inside(open + [g]), log + [Enter(g)]))
  {
    EntersGuard(cfg, begun, i, g, open, log);
  }

  lemma {:induction false} LoopsInGuard(cfg: Config, begun: set<nat>, i: nat, g: Obj, open: seq<Obj>, log: seq<Entry>)
    requires Aligned(cfg) && i < |cfg.sends| && OnTheWay(cfg, begun, i, AtGuard(g), open, log)
    ensures Reaches(cfg, begun, i, |open|, Proc(Looping, log + [Enter(g)]))
  {
    EntersGuard(cfg, begun, i, g, open, log);
  }

  lemma {:induction false} PassesGuard(cfg: Config, links: map<Obj, Node>, begun: set<nat>, i: nat, from: nat,
                                       g: Obj, open: seq<Obj>, log: seq<Entry>)
    requires Aligned(cfg) && i < |cfg.sends| && Leading(cfg, links, begun, cfg.sends[i].mtype, from)
    requires from <= |open| && OnTheWay(cfg, begun, i, AtGuard(g), open, log)
    ensures g in links && OnTheWay(cfg, begun, i, links[g], open + [g], log + [Enter(g)])
    ensures var v := Visits(cfg.sends[i]);
            g !in cfg.waiting ==> Pauses(cfg.waiting, v, |open|) == Pauses(cfg.waiting, v, |open| + 1)
  {
    EntersGuard(cfg, begun, i, g, open, log);
    var j: nat :| Provides(cfg, begun, j, cfg.sends[i].mtype, |open|, g);
    assert LinkFits(cfg, links, begun, j, |open|);
  }

  lemma {:induction false} ReachesFromEarlier(cfg: Config, begun: set<nat>, i: nat, p: nat, proc: Proc)
    requires i < |cfg.sends| && Reaches(cfg, begun, i, p + 1, proc)
    requires Pauses(cfg.waiting, Visits(cfg.sends[i]), p) == Pauses(cfg.waiting, Visits(cfg.sends[i]), p + 1)
    ensures Reaches(cfg, begun, i, p, proc)
  {
  }

  /** Where links lead from place to place, a glide passes the places up to the
      next pause, or all of them and the handler. */
  lemma {:induction false} GlideFits(cfg: Config, links: map<Obj, Node>, begun: set<nat>, i: nat, from: nat,
                                     node: Node, open: seq<Obj>, log: seq<Entry>, seen: set<Obj>)
    requires Aligned(cfg) && i < |cfg.sends| && Leading(cfg, links, begun, cfg.sends[i].mtype, from)
    requires from <= |open| && OnTheWay(cfg, begun, i, node, open, log)
    ensures Reaches(cfg, begun, i, |open|, Glide(cfg.waiting, links, node, open, log, seen))
    decreases links.Keys - seen
  {
    if node.AtHandler? {
      ReachesHandler(cfg, begun, i, node.copy, open, log);
    } else if node.g in cfg.waiting {
      PausesInGuard(cfg, begun, i, node.g, open, log);
    } else {
      var g := node.g;
      PassesGuard(cfg, links, begun, i, from, g, open, log);
      if g in seen {
        LoopsInGuard(cfg, begun, i, g, open, log);
      } else {
        var next := Glide(cfg.waiting, links, links[g], open + [g], log + [Enter(g)], seen + {g});
        assert Glide(cfg.waiting, links, node, open, log, seen) == next;
        GlideFits(cfg, links, begun, i, from, links[g], open + [g], log + [Enter(g)], seen + {g});
        ReachesFromEarlier(cfg, begun, i, |open|, next);
      }
    }
  }

  lemma {:induction false} OwnLinksLead(cfg: Config, links: map<Obj, Node>, i: nat)
    requires i < |cfg.sends|
    ensures Leading(cfg, Relinked(cfg, links, i), {i}, cfg.sends[i].mtype, 0)
  {
    var v := Visits(cfg.sends[i]);
    forall q: nat | q < |v| ensures LinkFits(cfg, Relinked(cfg, links, i), {i}, i, q) {
      VisitedNext(cfg.sends[i].guards, q);
      if q + 1 < |v| {
        assert Provides(cfg, {i}, i, cfg.sends[i].mtype, q + 1, v[q + 1]);
      }
    }
  }

  lemma {:induction false} BeginFits(cfg: Config, links: map<Obj, Node>, i: nat)
    requires Aligned(cfg) && i < |cfg.sends|
    ensures Reaches(cfg, {i}, i, 0, Glide(cfg.waiting, Relinked(cfg, links, i), Head(cfg, i), [], [], {}))
  {
    if cfg.sends[i].guards != [] {
      assert Provides(cfg, {i}, i, cfg.sends[i].mtype, 0, cfg.sends[i].guards[0]);
    }
    OwnLinksLead(cfg, links, i);
    GlideFits(cfg, Relinked(cfg, links, i), {i}, i, 0, Head(cfg, i), [], [], {});
  }

  /** Sends of one type pause in the same places. */
  lemma {:induction false} LeadingAfterPause(cfg: Config, links: map<Obj, Node>, begun: set<nat>, j: nat, k: nat)
    requires Aligned(cfg) && LinksFit(cfg, links, begun) && j < |cfg.sends|
    requires k < |Visits(cfg.sends[j])| && Visits(cfg.sends[j])[k] in cfg.waiting
    ensures Leading(cfg, links, begun, cfg.sends[j].mtype, k)
  {
    forall u: nat, q: nat | u in begun && u < |cfg.sends| && cfg.sends[u].mtype == cfg.sends[j].mtype &&
      k <= q < |Visits(cfg.sends[u])|
      ensures LinkFits(cfg, links, begun, u, q)
    {
      assert SameVisits(cfg.sends[j], cfg.sends[u], cfg.waiting);
      assert AfterPause(cfg, u, q);
    }
  }

  lemma {:induction false} PausedLinkFits(cfg: Config, links: map<Obj, Node>, begun: set<nat>, t: MessageType, k: nat,
                                          g: Obj)
    requires Aligned(cfg) && LinksFit(cfg, links, begun) && Fits(cfg, begun, t, k, AtGuard(g)) && g in cfg.waiting
    ensures Leading(cfg, links, begun, t, k) && g in links && Fits(cfg, begun, t, k + 1, links[g])
  {
    var j: nat :| Provides(cfg, begun, j, t, k, g);
    LeadingAfterPause(cfg, links, begun, j, k);
    assert LinkFits(cfg, links, begun, j, k);
  }

  lemma {:induction false} ResumesOnTheWay(cfg: Config, links: map<Obj, Node>, begun: set<nat>, i: nat, open: seq<Obj>,
                                           log: seq<Entry>)
    requires Aligned(cfg) && LinksFit(cfg, links, begun) && i < |cfg.sends| &&
      ProcFits(cfg, begun, i, Proc(Inside(open), log))
    ensures open != [] && open[|open| - 1] in links
    ensures Leading(cfg, links, begun, cfg.sends[i].mtype, |open| - 1)
    ensures OnTheWay(cfg, begun, i, links[open[|open| - 1]], open, log)
  {
    PausedLinkFits(cfg, links, begun, cfg.sends[i].mtype, |open| - 1, open[|open| - 1]);
  }

  lemma {:induction false} ResumeFits(cfg: Config, links: map<Obj, Node>, begun: set<nat>, i: nat, open: seq<Obj>,
                                      log: seq<Entry>)
    requires Aligned(cfg) && LinksFit(cfg, links, begun) && i < |cfg.sends|
    requires ProcFits(cfg, begun, i, Proc(Inside(open), log))
    ensures open != [] && open[|open| - 1] in links
    ensures Reaches(cfg, begun, i, |open|, Glide(cfg.waiting, links, links[open[|open| - 1]], open, log, {}))
  {
    ResumesOnTheWay(cfg, links, begun, i, open, log);
    GlideFits(cfg, links, begun, i, |open| - 1, links[open[|open| - 1]], open, log, {});
  }

  lemma {:induction false} LeaveFits(cfg: Config, links: map<Obj, Node>, begun: set<nat>, i: nat, proc: Proc)
    requires i < |cfg.sends| && proc.pc.Leaving? && ProcFits(cfg, begun, i, proc)
    ensures ProcFits(cfg, begun, i, Progress(cfg, links, proc))
  {
    var open, n := proc.pc.open, |Visits(cfg.sends[i])|;
    if open != [] {
      var k := |open| - 1;
      assert 2 * n - |proc.log| == k && proc.log[k] == Enter(open[k]);
      OrderlyExtends(cfg, cfg.sends[i].mtype, n, proc.log, Exit(open[k]));
      assert OpenIs(open[..k], proc.log + [Exit(open[k])]);
    }
  }

  /** How many own steps a send still has to take. */
  function Remaining(cfg: Config, i: nat, pc: Pc): nat
    requires i < |cfg.sends|
  {
    var v := Visits(cfg.sends[i]);
    match pc
    case Idle => Pauses(cfg.waiting, v, 0) + |v| + 2
    case Inside(open) => Pauses(cfg.waiting, v, |open|) + |v| + 2
    case Leaving(open) => |open| + 1
    case _ => 0
  }

  /** What a step of send `i` leaves it in. */
  ghost predicate NextIsFitting(cfg: Config, s: State, i: nat)
    requires WellFormed(cfg, s) && i < |cfg.sends|
  {
    var next := ProcNext(cfg, s, i);
    && ProcFits(cfg, Begun(s) + {i}, i, next) && !next.pc.Idle? && !next.pc.Failed?
    && (next.pc.Looping? || Remaining(cfg, i, next.pc) == Remaining(cfg, i, s.procs[i].pc) - 1)
  }

  lemma {:induction false} BeginningFits(cfg: Config, s: State, i: nat)
    requires Aligned(cfg) && Inv(cfg, s) && i < |cfg.sends| && s.procs[i].pc.Idle?
    ensures NextIsFitting(cfg, s, i)
  {
    BeginFits(cfg, s.links, i);
    ProcFitsLater(cfg, {i}, Begun(s) + {i}, i, ProcNext(cfg, s, i));
  }

  lemma {:induction false} ResumingFits(cfg: Config, s: State, i: nat)
    requires Aligned(cfg) && Inv(cfg, s) && i < |cfg.sends| && s.procs[i].pc.Inside?
    ensures NextIsFitting(cfg, s, i)
  {
    assert ProcFits(cfg, Begun(s), i, s.procs[i]);
    ResumeFits(cfg, s.links, Begun(s), i, s.procs[i].pc.open, s.procs[i].log);
    ProcFitsLater(cfg, Begun(s), Begun(s) + {i}, i, ProcNext(cfg, s, i));
  }

  lemma {:induction false} LeavingFits(cfg: Config, s: State, i: nat)
    requires Inv(cfg, s) && i < |cfg.sends| && s.procs[i].pc.Leaving?
    ensures NextIsFitting(cfg, s, i)
  {
    assert ProcFits(cfg, Begun(s), i, s.procs[i]);
    LeaveFits(cfg, s.links, Begun(s), i, s.procs[i]);
    ProcFitsLater(cfg, Begun(s), Begun(s) + {i}, i, ProcNext(cfg, s, i));
  }

  lemma {:induction false} NextFits(cfg: Config, s: State, i: nat)
    requires Aligned(cfg) && Inv(cfg, s) && i < |cfg.sends| && Live(s.procs[i].pc)
    ensures NextIsFitting(cfg, s, i)
  {
    match s.procs[i].pc {
      case Idle => BeginningFits(cfg, s, i);
      case Inside(_) => ResumingFits(cfg, s, i);
      case Leaving(_) => LeavingFits(cfg, s, i);
    }
  }

  lemma {:induction false} OwnLinkFits(cfg: Config, links: map<Obj, Node>, begun: set<nat>, i: nat, q: nat)
    requires i < |cfg.sends| && q < |Visits(cfg.sends[i])|
    ensures LinkFits(cfg, Relinked(cfg, links, i), begun + {i}, i, q)
  {
    OwnLinksLead(cfg, links, i);
    assert LinkFits(cfg, Relinked(cfg, links, i), {i}, i, q);
    FitsLater(cfg, {i}, begun + {i}, cfg.sends[i].mtype, q + 1, Relinked(cfg, links, i)[Visits(cfg.sends[i])[q]]);
  }

  lemma {:induction false} SharedPlace(cfg: Config, i: nat, j: nat, q: nat)
    requires Aligned(cfg) && Sheltered(cfg) && i < |cfg.sends| && j < |cfg.sends|
    requires q < |Visits(cfg.sends[j])| && AfterPause(cfg, j, q) && Visits(cfg.sends[j])[q] in cfg.sends[i].guards
    ensures HasAt(cfg.sends[i], cfg.sends[j].mtype, q, Visits(cfg.sends[j])[q])
  {
    assert Exposed(cfg, j, i);
    assert SameVisits(cfg.sends[j], cfg.sends[i], cfg.waiting);
  }

  /** Linking again overwrites a link that is read after a pause only with one
      to the same place. */
  lemma {:induction false} RelinkKeepsLink(cfg: Config, links: map<Obj, Node>, begun: set<nat>, i: nat, j: nat, q: nat)
    requires Aligned(cfg) && Sheltered(cfg) && i < |cfg.sends| && j < |cfg.sends|
    requires q < |Visits(cfg.sends[j])| && AfterPause(cfg, j, q) && (i == j || LinkFits(cfg, links, begun, j, q))
    ensures LinkFits(cfg, Relinked(cfg, links, i), begun + {i}, j, q)
  {
    var g := Visits(cfg.sends[j])[q];
    if i == j {
      OwnLinkFits(cfg, links, begun, i, q);
    } else if g in cfg.sends[i].guards {
      SharedPlace(cfg, i, j, q);
      OwnLinkFits(cfg, links, begun, i, q);
    } else {
      FitsLater(cfg, begun, begun + {i}, cfg.sends[j].mtype, q + 1, links[g]);
    }
  }

  lemma {:induction false} NextLinksFit(cfg: Config, s: State, i: nat)
    requires Aligned(cfg) && Sheltered(cfg) && Inv(cfg, s) && i < |cfg.sends| && Live(s.procs[i].pc)
    ensures LinksFit(cfg, LinksNext(cfg, s, i), Begun(s) + {i})
  {
    var begun := Begun(s);
    if s.procs[i].pc.Idle? {
      forall j: nat, q: nat | j in begun + {i} && j < |cfg.sends| && q < |Visits(cfg.sends[j])| && AfterPause(cfg, j, q)
        ensures LinkFits(cfg, LinksNext(cfg, s, i), begun + {i}, j, q)
      {
        RelinkKeepsLink(cfg, s.links, begun, i, j, q);
      }
    } else {
      assert begun + {i} == begun;
    }
  }

  lemma {:induction false} CutFits(cfg: Config, begun: set<nat>, i: nat, proc: Proc, n: nat)
    requires i < |cfg.sends| && ProcFits(cfg, begun, i, proc)
    ensures ProcFits(cfg, begun, i, Proc(Failed, Cut(proc.log, n)))
  {
  }

  lemma {:induction false} StepFits(cfg: Config, s: State, a: Action, k: nat)
    requires Aligned(cfg) && Inv(cfg, s) && a.i < |cfg.sends| && Live(s.procs[a.i].pc) && k < |cfg.sends|
    ensures ProcFits(cfg, Begun(s) + {a.i}, k, Step(cfg, s, a).procs[k])
  {
    if k == a.i {
      NextFits(cfg, s, k);
      CutFits(cfg, Begun(s) + {k}, k, ProcNext(cfg, s, k), |s.procs[k].log| + if a.Fail? then a.k else 0);
    } else {
      ProcFitsLater(cfg, Begun(s), Begun(s) + {a.i}, k, s.procs[k]);
    }
  }

  lemma {:induction false} BegunNext(cfg: Config, s: State, a: Action)
    requires Aligned(cfg) && Inv(cfg, s) && a.i < |cfg.sends| && Live(s.procs[a.i].pc)
    ensures Begun(Step(cfg, s, a)) == Begun(s) + {a.i}
  {
    NextFits(cfg, s, a.i);
    var s' := Step(cfg, s, a);
    assert |s'.procs| == |s.procs| && !s'.procs[a.i].pc.Idle?;
    assert forall j: nat :: j < |s.procs| && j != a.i ==> s'.procs[j] == s.procs[j];
  }

  lemma {:induction false} StepKeepsInv(cfg: Config, s: State, a: Action)
    requires Aligned(cfg) && Sheltered(cfg) && Inv(cfg, s)
    ensures Inv(cfg, Step(cfg, s, a))
  {
    if a.i < |cfg.sends| && Live(s.procs[a.i].pc) {
      BegunNext(cfg, s, a);
      NextLinksFit(cfg, s, a.i);
      forall k | 0 <= k < |cfg.sends| ensures ProcFits(cfg, Begun(s) + {a.i}, k, Step(cfg, s, a).procs[k]) {
        StepFits(cfg, s, a, k);
      }
    }
  }

  /** However the sends interleave and wherever they fail, a link that may be
      read after a pause leads to the next place of its type. */
  lemma {:induction false} RunKeepsInv(cfg: Config, s: State, schedule: seq<Action>)
    requires Aligned(cfg) && Sheltered(cfg) && Inv(cfg, s)
    ensures Inv(cfg, Run(cfg, s, schedule))
    decreases |schedule|
  {
    if schedule != [] {
      StepKeepsInv(cfg, s, schedule[0]);
      RunKeepsInv(cfg, Step(cfg, s, schedule[0]), schedule[1..]);
    }
  }

  lemma {:induction false} InitialInv(cfg: Config, s: State)
    requires Initial(cfg, s)
    ensures Inv(cfg, s) && Anchored(cfg, s, map[])
  {
  }

  /** Every log is orderly at all times: the guards this type passes in order,
      then one copy of this type's handler, then the same guards in reverse; a
      send that finished has the whole of it. Objects may be shared by sends of
      one type, by sheltered sends of others, and repeated in one list. */
  lemma {:induction false} EverySendIsOrderly(cfg: Config, s: State, schedule: seq<Action>, i: nat)
    requires Aligned(cfg) && Sheltered(cfg) && Initial(cfg, s) && i < |cfg.sends|
    ensures var p := Run(cfg, s, schedule).procs[i]; var n := |Visits(cfg.sends[i])|;
            && Orderly(cfg, cfg.sends[i].mtype, n, p.log)
            && (p.pc.Finished? ==> |p.log| == 2 * n + 1)
            && !p.pc.Dangling? && !p.pc.Looping?
  {
    InitialInv(cfg, s);
    RunKeepsInv(cfg, s, schedule);
    NeverLost(cfg, s, schedule, i);
    assert ProcFits(cfg, Begun(Run(cfg, s, schedule)), i, Run(cfg, s, schedule).procs[i]);
  }

  function OwnSteps(schedule: seq<Action>, i: nat): nat {
    if schedule == [] then 0 else (if schedule[0].i == i then 1 else 0) + OwnSteps(schedule[1..], i)
  }

  ghost predicate NeverFails(schedule: seq<Action>, i: nat) {
    forall a :: a in schedule && a.i == i ==> a.Advance?
  }

  lemma {:induction false} OneStepLess(cfg: Config, s: State, a: Action, i: nat, rank': map<Obj, nat>)
    requires Aligned(cfg) && Inv(cfg, s) && i < |cfg.sends| && Anchored(cfg, Step(cfg, s, a), rank')
    requires !s.procs[i].pc.Failed? && (a.i == i ==> a.Advance?)
    ensures var pc, pc' := s.procs[i].pc, Step(cfg, s, a).procs[i].pc;
            !pc'.Failed? && Remaining(cfg, i, pc') == if a.i == i && Live(pc) then Remaining(cfg, i, pc) - 1
              else Remaining(cfg, i, pc)
  {
    assert NotLost(Step(cfg, s, a).procs[i].pc, rank');
    if a.i == i && Live(s.procs[i].pc) {
      NextFits(cfg, s, i);
    }
  }

  lemma {:induction false} StepsLeft(cfg: Config, s: State, schedule: seq<Action>, i: nat, rank: map<Obj, nat>)
    requires Aligned(cfg) && Sheltered(cfg) && Inv(cfg, s) && Anchored(cfg, s, rank) && i < |cfg.sends|
    requires !s.procs[i].pc.Failed? && NeverFails(schedule, i)
    ensures var left := Remaining(cfg, i, s.procs[i].pc) - OwnSteps(schedule, i);
            var pc := Run(cfg, s, schedule).procs[i].pc;
            Remaining(cfg, i, pc) == (if left < 0 then 0 else left) && (left <= 0 <==> pc.Finished?)
    decreases |schedule|
  {
    assert NotLost(s.procs[i].pc, rank);
    if schedule != [] {
      var a := schedule[0];
      assert a in schedule && forall b :: b in schedule[1..] ==> b in schedule;
      StepKeepsInv(cfg, s, a);
      var rank' := StepKeepsAnchored(cfg, s, a, rank);
      OneStepLess(cfg, s, a, i, rank');
      StepsLeft(cfg, Step(cfg, s, a), schedule[1..], i, rank');
    }
  }

  /** Whatever the others do in between, a send that does not raise takes one
      step for each pause, one for each guard it leaves, and two more. */
  lemma {:induction false} FinishesInOwnSteps(cfg: Config, s: State, schedule: seq<Action>, i: nat)
    requires Aligned(cfg) && Sheltered(cfg) && Initial(cfg, s) && i < |cfg.sends| && NeverFails(schedule, i)
    ensures var v := Visits(cfg.sends[i]);
            Run(cfg, s, schedule).procs[i].pc.Finished? <==>
              OwnSteps(schedule, i) >= Pauses(cfg.waiting, v, 0) + |v| + 2
  {
    InitialInv(cfg, s);
    StepsLeft(cfg, s, schedule, i, map[]);
  }

  // ------------------------------------------------------------- who crosses over

  /** Following the links from `node` passes `length` guards and ends in copy `c`. */
  predicate Leads(links: map<Obj, Node>, node: Node, length: nat, c: nat)
    decreases length
  {
    match node
    case AtHandler(copy) => length == 0 && copy == c
    case AtGuard(g) => length > 0 && g in links && Leads(links, links[g], length - 1, c)
  }

  lemma {:induction false} LeadsUnique(links: map<Obj, Node>, node: Node, m: nat, n: nat, c: nat)
    requires Leads(links, node, m, c) && Leads(links, node, n, c)
    ensures m == n
    decreases m
  {
    if m > 0 {
      LeadsUnique(links, links[node.g], m - 1, n - 1, c);
    }
  }

  ghost predicate FartherAway(links: map<Obj, Node>, g: Obj, length: nat, c: nat) {
    exists n: nat :: n > length && Leads(links, AtGuard(g), n, c)
  }

  /** A glide along a chain that leads to handler `c` runs it, or pauses on the way. */
  lemma {:induction false} GlideLeads(waiting: set<Obj>, links: map<Obj, Node>, node: Node, open: seq<Obj>,
                                      log: seq<Entry>, seen: set<Obj>, length: nat, c: nat) returns (left: nat)
    requires Leads(links, node, length, c) && forall x :: x in seen ==> FartherAway(links, x, length, c)
    ensures var proc := Glide(waiting, links, node, open, log, seen);
            || Handled(c) in proc.log
            || (left <= length && proc.pc.Inside? && proc.pc.open != []
                && Leads(links, AtGuard(proc.pc.open[|proc.pc.open| - 1]), left, c))
    decreases length
  {
    left := length;
    if node.AtGuard? && node.g !in waiting {
      var g := node.g;
      if g in seen {
        var n: nat :| n > length && Leads(links, AtGuard(g), n, c);
        LeadsUnique(links, node, length, n, c);
      }
      assert FartherAway(links, g, length - 1, c);
      forall x | x in seen ensures FartherAway(links, x, length - 1, c) {
        assert FartherAway(links, x, length, c);
      }
      left := GlideLeads(waiting, links, links[g], open + [g], log + [Enter(g)], seen + {g}, length - 1, c);
    }
  }

  function Times(a: Action, n: nat): (actions: seq<Action>)
    ensures |actions| == n
  {
    if n == 0 then [] else [a] + Times(a, n - 1)
  }

  lemma {:induction false} RunOne(cfg: Config, s: State, a: Action, rest: seq<Action>)
    requires WellFormed(cfg, s)
    ensures Run(cfg, s, [a] + rest) == Run(cfg, Step(cfg, s, a), rest)
  {
    assert ([a] + rest)[1..] == rest;
  }

  ghost predicate PausedBefore(s: State, i: nat, length: nat, c: nat)
    requires i < |s.procs|
  {
    var pc := s.procs[i].pc;
    pc.Inside? && pc.open != [] && Leads(s.links, AtGuard(pc.open[|pc.open| - 1]), length, c)
  }

  /** Left alone, a paused call ends up in the handler its links lead to. */
  lemma {:induction false} ReachesWhereLinksLead(cfg: Config, s: State, i: nat, length: nat, c: nat)
    returns (steps: nat)
    requires WellFormed(cfg, s) && i < |cfg.sends| && PausedBefore(s, i, length, c)
    ensures steps <= length && Handled(c) in Run(cfg, s, Times(Advance(i), steps)).procs[i].log
    decreases length
  {
    var a, p := Advance(i), s.procs[i];
    var s' := Step(cfg, s, a);
    var left := GlideLeads(cfg.waiting, s.links, s.links[p.pc.open[|p.pc.open| - 1]], p.pc.open, p.log, {}, length - 1,
      c);
    steps := 0;
    if Handled(c) !in s'.procs[i].log {
      steps := ReachesWhereLinksLead(cfg, s', i, left, c);
    }
    RunOne(cfg, s, a, Times(a, steps));
    steps := steps + 1;
  }

  /** Whoever linked last: from each of its guards its own handler is reached. */
  lemma {:induction false} LastLinkedLeads(cfg: Config, links: map<Obj, Node>, j: nat, g: Obj) returns (length: nat)
    requires j < |cfg.sends| && g in cfg.sends[j].guards
    ensures Leads(Relinked(cfg, links, j), AtGuard(g), length, j)
    decreases |After(cfg.sends[j].guards, g)|
  {
    var theirs := cfg.sends[j].guards;
    length := 0;
    if After(theirs, g) != [] {
      SuccessorDescends(theirs, g);
      length := LastLinkedLeads(cfg, links, j, After(theirs, g)[0]);
    }
    length := length + 1;
  }

  ghost predicate LinkedInOrder(links: map<Obj, Node>, v: seq<Obj>) {
    forall k :: 0 <= k < |v| - 1 ==> v[k] in links && links[v[k]] == AtGuard(v[k + 1])
  }

  lemma {:induction false} OwnLinksInOrder(cfg: Config, links: map<Obj, Node>, i: nat)
    requires i < |cfg.sends|
    ensures Distinct(Visits(cfg.sends[i])) && LinkedInOrder(Relinked(cfg, links, i), Visits(cfg.sends[i]))
  {
    WalkNeverRevisits(cfg.sends[i].guards);
    forall k: nat | k < |Visits(cfg.sends[i])| - 1 {
      VisitedNext(cfg.sends[i].guards, k);
    }
  }

  ghost predicate LeadsTo(links: map<Obj, Node>, g: Obj, c: nat) {
    exists length: nat :: Leads(links, AtGuard(g), length, c)
  }

  ghost predicate LinkedInOrderUntil(links: map<Obj, Node>, v: seq<Obj>, theirs: seq<Obj>) {
    forall k :: 0 <= k < |v| - 1 && v[k] !in theirs ==> v[k] in links && links[v[k]] == AtGuard(v[k + 1])
  }

  lemma {:induction false} RunsInto(links: map<Obj, Node>, v: seq<Obj>, theirs: seq<Obj>, p: nat, shared: nat, c: nat)
    returns (length: nat)
    requires p <= shared < |v| && v[shared] in theirs && LinkedInOrderUntil(links, v, theirs)
    requires forall g :: g in theirs ==> LeadsTo(links, g, c)
    ensures Leads(links, AtGuard(v[p]), length, c)
    decreases shared - p
  {
    if v[p] in theirs {
      length :| Leads(links, AtGuard(v[p]), length, c);
    } else {
      length := RunsInto(links, v, theirs, p + 1, shared, c);
      length := length + 1;
    }
  }

  /** A chain linked just before another one runs into the other at the first
      object they share, and never comes back. */
  lemma {:induction false} EarlierLinkedLeads(cfg: Config, links: map<Obj, Node>, i: nat, j: nat, p: nat, shared: nat)
    returns (length: nat)
    requires i < |cfg.sends| && j < |cfg.sends|
    requires p <= shared < |Visits(cfg.sends[i])| && Visits(cfg.sends[i])[shared] in cfg.sends[j].guards
    ensures Leads(Relinked(cfg, Relinked(cfg, links, i), j), AtGuard(Visits(cfg.sends[i])[p]), length, j)
  {
    var theirs, now := cfg.sends[j].guards, Relinked(cfg, Relinked(cfg, links, i), j);
    OwnLinksInOrder(cfg, links, i);
    assert LinkedInOrderUntil(now, Visits(cfg.sends[i]), theirs);
    forall g | g in theirs ensures LeadsTo(now, g, j) {
      var _ := LastLinkedLeads(cfg, Relinked(cfg, links, i), j, g);
    }
    length := RunsInto(now, Visits(cfg.sends[i]), theirs, p, shared, j);
  }

  /** A glide along a list of objects ends no later than in the first that may suspend. */
  lemma {:induction false} GlidesToPause(waiting: set<Obj>, links: map<Obj, Node>, v: seq<Obj>, k: nat, p: nat,
                                         open: seq<Obj>, log: seq<Entry>, seen: set<Obj>) returns (first: nat)
    requires k <= p < |v| && v[p] in waiting && Distinct(v) && LinkedInOrder(links, v)
    requires open == v[..k] && forall x :: x in seen ==> x in v[..k]
    ensures k <= first <= p && Glide(waiting, links, AtGuard(v[k]), open, log, seen).pc == Inside(v[..first + 1])
    decreases p - k
  {
    first := k;
    assert v[..k] + [v[k]] == v[..k + 1];
    if v[k] !in waiting {
      assert v[k] !in v[..k];
      first := GlidesToPause(waiting, links, v, k + 1, p, open + [v[k]], log + [Enter(v[k])], seen + {v[k]});
    }
  }

  lemma {:induction false} BeginsAndPauses(cfg: Config, s: State, i: nat, p: nat) returns (first: nat)
    requires WellFormed(cfg, s) && i < |cfg.sends| && s.procs[i].pc.Idle?
    requires p < |Visits(cfg.sends[i])| && Visits(cfg.sends[i])[p] in cfg.waiting
    ensures first <= p && ProcNext(cfg, s, i).pc == Inside(Visits(cfg.sends[i])[..first + 1])
  {
    var v := Visits(cfg.sends[i]);
    assert Head(cfg, i) == AtGuard(v[0]);
    OwnLinksInOrder(cfg, s.links, i);
    first := GlidesToPause(cfg.waiting, Relinked(cfg, s.links, i), v, 0, p, [], [], {});
  }

  lemma {:induction false} BothBegin(cfg: Config, s: State, i: nat, j: nat)
    requires Initial(cfg, s) && i < |cfg.sends| && j < |cfg.sends| && i != j
    ensures var s2 := Step(cfg, Step(cfg, s, Advance(i)), Advance(j));
            s2.links == Relinked(cfg, Relinked(cfg, s.links, i), j) && s2.procs[i] == ProcNext(cfg, s, i)
  {
    var s1 := Step(cfg, s, Advance(i));
    assert s1.procs[j].pc.Idle? && s1.links == Relinked(cfg, s.links, i);
    assert LinksNext(cfg, s1, j) == Relinked(cfg, s1.links, j);
  }

  /** Send `i` links and runs up to its first pause, send `j` links: the call of
      `i` is now on the way to handler `j`. */
  lemma {:induction false} OvertakenWhilePaused(cfg: Config, s: State, i: nat, j: nat, p: nat, q: nat)
    returns (length: nat)
    requires Initial(cfg, s) && i < |cfg.sends| && j < |cfg.sends| && i != j
    requires p <= q < |Visits(cfg.sends[i])| && Visits(cfg.sends[i])[p] in cfg.waiting &&
      Visits(cfg.sends[i])[q] in cfg.sends[j].guards
    ensures PausedBefore(Step(cfg, Step(cfg, s, Advance(i)), Advance(j)), i, length, j)
  {
    var first := BeginsAndPauses(cfg, s, i, p);
    length := EarlierLinkedLeads(cfg, s.links, i, j, first, q);
    BothBegin(cfg, s, i, j);
  }

  /** Send `i` is exposed to send `j`: one schedule runs the command of `i` in
      the handler of `j`. */
  lemma {:induction false} ExposedCrosses(cfg: Config, s: State, i: nat, j: nat) returns (schedule: seq<Action>)
    requires Initial(cfg, s) && i < |cfg.sends| && j < |cfg.sends| && i != j && Exposed(cfg, i, j)
    ensures Handled(j) in Run(cfg, s, schedule).procs[i].log
  {
    var p, q :| 0 <= p <= q < |Visits(cfg.sends[i])| && Visits(cfg.sends[i])[p] in cfg.waiting &&
      Visits(cfg.sends[i])[q] in cfg.sends[j].guards;
    var mine, theirs := Advance(i), Advance(j);
    var length := OvertakenWhilePaused(cfg, s, i, j, p, q);
    var s1 := Step(cfg, s, mine);
    var steps := ReachesWhereLinksLead(cfg, Step(cfg, s1, theirs), i, length, j);
    var rest := Times(mine, steps);
    RunOne(cfg, s1, theirs, rest);
    RunOne(cfg, s, mine, [theirs] + rest);
    schedule := [mine] + ([theirs] + rest);
  }

  lemma {:induction false} HandlerOnlyInTheMiddle(cfg: Config, t: MessageType, n: nat, log: seq<Entry>, p: nat)
    requires Orderly(cfg, t, n, log) && p < |log|
    ensures log[p].Handled? <==> p == n
  {
    if n < p {
      assert log[p] == Exit(log[2 * n - p].g);
    }
  }

  /** No schedule, from no earlier links, lets a handler of one type run a command of another. */
  ghost predicate HandlersNeverCross(cfg: Config) {
    forall s, schedule: seq<Action>, i, c ::
      (Initial(cfg, s) && 0 <= i < |cfg.sends| && 0 <= c < |cfg.sends| &&
        Handled(c) in Run(cfg, s, schedule).procs[i].log) ==>
      cfg.sends[c].mtype == cfg.sends[i].mtype
  }

  /** Commands stay with the handlers of their own type under every interleaving
      exactly when no send is exposed to one of another type. Sharing alone does
      no harm: a guard that is shared, and preceded by none that may suspend -
      one with a post-handle only, say - is relinked before it is read. */
  lemma {:induction false} NeverCrossIffSheltered(cfg: Config)
    requires Aligned(cfg)
    ensures HandlersNeverCross(cfg) <==> Sheltered(cfg)
  {
    if Sheltered(cfg) {
      forall s, schedule: seq<Action>, i, c | Initial(cfg, s) && 0 <= i < |cfg.sends| && 0 <= c < |cfg.sends|
        && Handled(c) in Run(cfg, s, schedule).procs[i].log
        ensures cfg.sends[c].mtype == cfg.sends[i].mtype
      {
        EverySendIsOrderly(cfg, s, schedule, i);
        var n, log := |Visits(cfg.sends[i])|, Run(cfg, s, schedule).procs[i].log;
        var p :| 0 <= p < |log| && log[p] == Handled(c);
        HandlerOnlyInTheMiddle(cfg, cfg.sends[i].mtype, n, log, p);
      }
    } else {
      var i, j :| 0 <= i < |cfg.sends| && 0 <= j < |cfg.sends| && cfg.sends[i].mtype != cfg.sends[j].mtype &&
        Exposed(cfg, i, j);
      var s := State(map[], seq(|cfg.sends|, _ => Proc(Idle, [])));
      var schedule := ExposedCrosses(cfg, s, i, j);
    }
  }

  // ------------------------------------------------------- one send among others

  /** Send `i` is exposed to no other send. */
  ghost predicate Unexposed(cfg: Config, i: nat)
    requires i < |cfg.sends|
  {
    forall j :: 0 <= j < |cfg.sends| && j != i ==> !Exposed(cfg, i, j)
  }

  /** A send that runs by itself: its guards in order, its handler, its guards in reverse. */
  function Alone(send: Send, i: nat): (log: seq<Entry>)
    ensures |log| == 2 * |Visits(send)| + 1
  {
    var v := Visits(send);
    seq(2 * |v| + 1, k requires 0 <= k < 2 * |v| + 1 =>
      if k < |v| then Enter(v[k]) else if k == |v| then Handled(i) else Exit(v[2 * |v| - k]))
  }

  /** What the place `k` of send `i` is, by itself. */
  function PlaceOf(cfg: Config, i: nat, k: nat): Node
    requires i < |cfg.sends| && k <= |Visits(cfg.sends[i])|
  {
    if k < |Visits(cfg.sends[i])| then AtGuard(Visits(cfg.sends[i])[k]) else AtHandler(i)
  }

  ghost predicate OwnLink(cfg: Config, links: map<Obj, Node>, i: nat, q: nat)
    requires i < |cfg.sends| && q < |Visits(cfg.sends[i])|
  {
    var g := Visits(cfg.sends[i])[q];
    g in links && links[g] == PlaceOf(cfg, i, q + 1)
  }

  ghost predicate OwnFrom(cfg: Config, links: map<Obj, Node>, i: nat, from: nat)
    requires i < |cfg.sends|
  {
    forall q: nat :: from <= q < |Visits(cfg.sends[i])| ==> OwnLink(cfg, links, i, q)
  }

  /** The links that send `i` reads after a pause are its own. */
  ghost predicate OwnAfterPause(cfg: Config, links: map<Obj, Node>, i: nat)
    requires i < |cfg.sends|
  {
    forall q: nat :: q < |Visits(cfg.sends[i])| && AfterPause(cfg, i, q) ==> OwnLink(cfg, links, i, q)
  }

  /** Send `i` is where it would be by itself. */
  ghost predicate RunsAlone(cfg: Config, i: nat, proc: Proc)
    requires i < |cfg.sends|
  {
    var v, alone := Visits(cfg.sends[i]), Alone(cfg.sends[i], i);
    proc.log <= alone &&
    match proc.pc
    case Idle => proc.log == []
    case Inside(open) =>
      0 < |open| <= |v| && open == v[..|open|] && |proc.log| == |open| && v[|open| - 1] in cfg.waiting
    case Leaving(open) => |open| <= |v| && open == v[..|open|] && |proc.log| == 2 * |v| + 1 - |open|
    case Finished => proc.log == alone
    case Failed => true
    case _ => false
  }

  ghost predicate AloneInv(cfg: Config, s: State, i: nat) {
    && WellFormed(cfg, s) && i < |cfg.sends| && RunsAlone(cfg, i, s.procs[i])
    && (!s.procs[i].pc.Idle? ==> OwnAfterPause(cfg, s.links, i))
  }

  lemma {:induction false} AloneGrows(send: Send, i: nat, log: seq<Entry>)
    requires log <= Alone(send, i) && |log| <= 2 * |Visits(send)|
    ensures log + [Alone(send, i)[|log|]] <= Alone(send, i)
  {
  }

  /** Along its own links a send runs to its next pause, or through its handler. */
  lemma {:induction false} GlidesAlone(cfg: Config, links: map<Obj, Node>, i: nat, k: nat, open: seq<Obj>,
                                       log: seq<Entry>, seen: set<Obj>)
    requires i < |cfg.sends| && k <= |Visits(cfg.sends[i])| && OwnFrom(cfg, links, i, k)
    requires open == Visits(cfg.sends[i])[..k] && log <= Alone(cfg.sends[i], i) && |log| == k
    requires forall x :: x in seen ==> x in open
    ensures var proc := Glide(cfg.waiting, links, PlaceOf(cfg, i, k), open, log, seen);
      && RunsAlone(cfg, i, proc) && (proc.pc.Inside? || proc.pc.Leaving?)
      && Pauses(cfg.waiting, Visits(cfg.sends[i]), k) ==
           (if proc.pc.Inside? then Pauses(cfg.waiting, Visits(cfg.sends[i]), |proc.pc.open|) + 1 else 0)
      && (proc.pc.Leaving? ==> |proc.pc.open| == |Visits(cfg.sends[i])|)
    decreases |Visits(cfg.sends[i])| - k
  {
    var v := Visits(cfg.sends[i]);
    AloneGrows(cfg.sends[i], i, log);
    if k < |v| {
      assert v[..k] + [v[k]] == v[..k + 1];
      if v[k] !in cfg.waiting {
        assert OwnLink(cfg, links, i, k);
        WalkNeverRevisits(cfg.sends[i].guards);
        assert v[k] !in v[..k];
        GlidesAlone(cfg, links, i, k + 1, open + [v[k]], log + [Enter(v[k])], seen + {v[k]});
      }
    }
  }

  lemma {:induction false} RelinkedIsOwn(cfg: Config, links: map<Obj, Node>, i: nat)
    requires i < |cfg.sends|
    ensures OwnFrom(cfg, Relinked(cfg, links, i), i, 0)
  {
    forall q: nat | q < |Visits(cfg.sends[i])| ensures OwnLink(cfg, Relinked(cfg, links, i), i, q) {
      VisitedNext(cfg.sends[i].guards, q);
    }
  }

  lemma {:induction false} BeginsAlone(cfg: Config, links: map<Obj, Node>, i: nat)
    requires i < |cfg.sends|
    ensures var proc := Glide(cfg.waiting, Relinked(cfg, links, i), Head(cfg, i), [], [], {});
      RunsAlone(cfg, i, proc) && Live(proc.pc) && !proc.pc.Idle? &&
        Remaining(cfg, i, proc.pc) == Remaining(cfg, i, Idle) - 1
  {
    RelinkedIsOwn(cfg, links, i);
    assert Head(cfg, i) == PlaceOf(cfg, i, 0);
    GlidesAlone(cfg, Relinked(cfg, links, i), i, 0, [], [], {});
  }

  lemma {:induction false} ResumesAlone(cfg: Config, links: map<Obj, Node>, i: nat, open: seq<Obj>, log: seq<Entry>)
    requires i < |cfg.sends| && RunsAlone(cfg, i, Proc(Inside(open), log)) && OwnAfterPause(cfg, links, i)
    ensures var proc := Progress(cfg, links, Proc(Inside(open), log));
      RunsAlone(cfg, i, proc) && Live(proc.pc) && !proc.pc.Idle? &&
        Remaining(cfg, i, proc.pc) == Remaining(cfg, i, Inside(open)) - 1
  {
    var v, k := Visits(cfg.sends[i]), |open| - 1;
    forall q: nat | k <= q < |v| ensures OwnLink(cfg, links, i, q) {
      assert AfterPause(cfg, i, q);
    }
    assert OwnLink(cfg, links, i, k) && open[k] == v[k];
    GlidesAlone(cfg, links, i, |open|, open, log, {});
  }

  lemma {:induction false} LeavesAlone(cfg: Config, links: map<Obj, Node>, i: nat, open: seq<Obj>, log: seq<Entry>)
    requires i < |cfg.sends| && RunsAlone(cfg, i, Proc(Leaving(open), log))
    ensures var proc := Progress(cfg, links, Proc(Leaving(open), log));
      RunsAlone(cfg, i, proc) && !proc.pc.Failed? && !proc.pc.Idle? &&
        Remaining(cfg, i, proc.pc) == Remaining(cfg, i, Leaving(open)) - 1
  {
    var v := Visits(cfg.sends[i]);
    if open != [] {
      AloneGrows(cfg.sends[i], i, log);
      assert 2 * |v| - |log| == |open| - 1 && open[..|open| - 1] == v[..|open| - 1];
    }
  }

  lemma {:induction false} NextIsAlone(cfg: Config, s: State, i: nat)
    requires AloneInv(cfg, s, i) && Live(s.procs[i].pc)
    ensures var next := ProcNext(cfg, s, i);
      && RunsAlone(cfg, i, next) && !next.pc.Idle? && !next.pc.Failed?
      && Remaining(cfg, i, next.pc) == Remaining(cfg, i, s.procs[i].pc) - 1
    ensures OwnAfterPause(cfg, LinksNext(cfg, s, i), i)
  {
    match s.procs[i].pc {
      case Idle =>
        BeginsAlone(cfg, s.links, i);
        RelinkedIsOwn(cfg, s.links, i);
      case Inside(open) => ResumesAlone(cfg, s.links, i, open, s.procs[i].log);
      case Leaving(open) => LeavesAlone(cfg, s.links, i, open, s.procs[i].log);
    }
  }

  /** Another send that links leaves the links alone that send `i` reads after a pause. */
  lemma {:induction false} OthersLeaveLinks(cfg: Config, links: map<Obj, Node>, i: nat, j: nat)
    requires i < |cfg.sends| && j < |cfg.sends| && i != j && Unexposed(cfg, i) && OwnAfterPause(cfg, links, i)
    ensures OwnAfterPause(cfg, Relinked(cfg, links, j), i)
  {
    forall q: nat | q < |Visits(cfg.sends[i])| && AfterPause(cfg, i, q)
      ensures OwnLink(cfg, Relinked(cfg, links, j), i, q)
    {
      assert OwnLink(cfg, links, i, q);
      assert !Exposed(cfg, i, j);
    }
  }

  lemma {:induction false} OwnStepAlone(cfg: Config, s: State, a: Action, i: nat)
    requires AloneInv(cfg, s, i) && a.i == i && Live(s.procs[i].pc)
    ensures AloneInv(cfg, Step(cfg, s, a), i)
    ensures var pc, pc' := s.procs[i].pc, Step(cfg, s, a).procs[i].pc;
      a.Advance? ==> Remaining(cfg, i, pc') == Remaining(cfg, i, pc) - 1 && !pc'.Failed?
  {
    NextIsAlone(cfg, s, i);
  }

  lemma {:induction false} OtherStepAlone(cfg: Config, s: State, a: Action, i: nat)
    requires AloneInv(cfg, s, i) && Unexposed(cfg, i) && a.i != i
    ensures AloneInv(cfg, Step(cfg, s, a), i) && Step(cfg, s, a).procs[i] == s.procs[i]
  {
    if a.i < |cfg.sends| && s.procs[a.i].pc.Idle? && !s.procs[i].pc.Idle? {
      OthersLeaveLinks(cfg, s.links, i, a.i);
    }
  }

  lemma {:induction false} StepKeepsAlone(cfg: Config, s: State, a: Action, i: nat)
    requires AloneInv(cfg, s, i) && Unexposed(cfg, i)
    ensures AloneInv(cfg, Step(cfg, s, a), i)
    ensures var pc, pc' := s.procs[i].pc, Step(cfg, s, a).procs[i].pc;
      a.i != i || a.Advance? ==>
        && Remaining(cfg, i, pc') == (if a.i == i && Live(pc) then Remaining(cfg, i, pc) - 1 else Remaining(cfg, i, pc))
        && (pc'.Failed? <==> pc.Failed?)
  {
    if a.i != i {
      OtherStepAlone(cfg, s, a, i);
    } else if Live(s.procs[i].pc) {
      OwnStepAlone(cfg, s, a, i);
    }
  }

  lemma {:induction false} RunKeepsAlone(cfg: Config, s: State, schedule: seq<Action>, i: nat)
    requires AloneInv(cfg, s, i) && Unexposed(cfg, i)
    ensures AloneInv(cfg, Run(cfg, s, schedule), i)
    decreases |schedule|
  {
    if schedule != [] {
      StepKeepsAlone(cfg, s, schedule[0], i);
      RunKeepsAlone(cfg, Step(cfg, s, schedule[0]), schedule[1..], i);
    }
  }

  /** A send that is exposed to no other one does under every interleaving what it
      would do by itself, as far as it got, whatever the others do to each other. */
  lemma {:induction false} UnexposedRunsAsAlone(cfg: Config, s: State, schedule: seq<Action>, i: nat)
    requires i < |cfg.sends| && Unexposed(cfg, i) && Initial(cfg, s)
    ensures var p := Run(cfg, s, schedule).procs[i];
            p.log <= Alone(cfg.sends[i], i) && (p.pc.Finished? ==> p.log == Alone(cfg.sends[i], i))
  {
    RunKeepsAlone(cfg, s, schedule, i);
  }

  lemma {:induction false} StepsLeftAlone(cfg: Config, s: State, schedule: seq<Action>, i: nat)
    requires AloneInv(cfg, s, i) && Unexposed(cfg, i) && !s.procs[i].pc.Failed? && NeverFails(schedule, i)
    ensures var left := Remaining(cfg, i, s.procs[i].pc) - OwnSteps(schedule, i);
            Run(cfg, s, schedule).procs[i].pc.Finished? <==> left <= 0
    decreases |schedule|
  {
    if schedule != [] {
      assert schedule[0] in schedule && forall b :: b in schedule[1..] ==> b in schedule;
      StepKeepsAlone(cfg, s, schedule[0], i);
      StepsLeftAlone(cfg, Step(cfg, s, schedule[0]), schedule[1..], i);
    }
  }

  /** And it finishes after the same number of own steps. */
  lemma {:induction false} UnexposedFinishes(cfg: Config, s: State, schedule: seq<Action>, i: nat)
    requires i < |cfg.sends| && Unexposed(cfg, i) && Initial(cfg, s) && NeverFails(schedule, i)
    ensures var v := Visits(cfg.sends[i]);
            Run(cfg, s, schedule).procs[i].pc.Finished? <==>
              OwnSteps(schedule, i) >= Pauses(cfg.waiting, v, 0) + |v| + 2
  {
    StepsLeftAlone(cfg, s, schedule, i);
  }

  /** No schedule, from no earlier links, runs the command of send `i` in another copy than its own. */
  ghost predicate StaysHome(cfg: Config, i: nat) {
    forall s, schedule: seq<Action>, c ::
      (Initial(cfg, s) && i < |cfg.sends| && 0 <= c < |cfg.sends| &&
        Handled(c) in Run(cfg, s, schedule).procs[i].log) ==>
      c == i
  }

  /** A send runs in the handler copy its own scope resolved, under every
      interleaving, exactly when it is exposed to no other send. */
  lemma {:induction false} OwnCopyIffUnexposed(cfg: Config, i: nat)
    requires i < |cfg.sends|
    ensures StaysHome(cfg, i) <==> Unexposed(cfg, i)
  {
    if Unexposed(cfg, i) {
      forall s, schedule: seq<Action>, c |
        Initial(cfg, s) && 0 <= c < |cfg.sends| && Handled(c) in Run(cfg, s, schedule).procs[i].log
        ensures c == i
      {
        UnexposedRunsAsAlone(cfg, s, schedule, i);
        var log := Run(cfg, s, schedule).procs[i].log;
        var k :| 0 <= k < |log| && log[k] == Handled(c);
        assert Alone(cfg.sends[i], i)[k] == Handled(c);
      }
    } else {
      var j :| 0 <= j < |cfg.sends| && j != i && Exposed(cfg, i, j);
      var s := State(map[], seq(|cfg.sends|, _ => Proc(Idle, [])));
      var schedule := ExposedCrosses(cfg, s, i, j);
    }
  }
}
