/** One program, in full, whose sends can cross: two commands, a handler for each,
    and a pre-handle for any command (anywise/registry.py:187-280,
    anywise/anywise.py:296-318). */
module Crossing {
  import opened Basics
  import opened Callables
  import opened ClassGraph
  import opened Registry
  import opened Anywise
  import opened Sharing
  import Dispatch

  const BASE: ClassId := 1
  const FIRST: ClassId := 2
  const SECOND: ClassId := 3

  /** `Any`, a base, and two commands derived from it. */
  const COMMANDS: Hierarchy := [ClassDef([]), ClassDef([]), ClassDef([BASE]), ClassDef([BASE])]

  lemma {:induction false} TwoCommands(c: ClassId, t: ClassId)
    requires c == FIRST || c == SECOND
    requires t == FIRST || t == SECOND
    ensures IsSubclass(COMMANDS, c, BASE) && (IsSubclass(COMMANDS, t, c) <==> t == c)
  {
    assert COMMANDS[c].bases[0] == BASE && COMMANDS[t].bases == [BASE] && COMMANDS[BASE].bases == [];
    assert IsSubclass(COMMANDS, BASE, BASE) && !IsSubclass(COMMANDS, BASE, c);
  }

  /** A function whose first parameter is annotated with one class below the base is accepted. */
  lemma {:induction false} PlainHandlerAccepted(h: Hierarchy, base: ClassId, f: Func, c: ClassId)
    requires f.params == [Param(Plain(c), false)] && IsSubclass(h, c, base)
    ensures Claims(h, base, Function(f)) == Ok([Claim(f, None, false, Closure(h, {c}))])
  {
    forall d | d in Closure(h, {c}) ensures IsSubclass(h, d, base) {
      InClosure(h, {c}, d);
      SubclassTransitive(h, d, c, base);
    }
  }

  /** It gives a handler to every class below that one, and to no other. */
  lemma {:induction false} PlainHandlerGives(h: Hierarchy, base: ClassId, f: Func, c: ClassId, t: ClassId)
    requires f.params == [Param(Plain(c), false)] && IsSubclass(h, c, base)
    ensures Claims(h, base, Function(f)).Ok?
    ensures var given := Given(Some(base), Handled(h, Function(f)), t);
      |given| == (if IsSubclass(h, t, c) then 1 else 0) && forall m :: m in given ==> m.func == f.id
  {
    var claim := Claim(f, None, false, Closure(h, {c}));
    PlainHandlerAccepted(h, base, f, c);
    InClosure(h, {c}, t);
    PerTypeSnoc([], claim, t);
    assert [] + [claim] == [claim];
  }

  function HandlerTaking(id: FuncId, c: ClassId): Target {
    Function(Func(id, [Param(Plain(c), false)], true))
  }

  /** What the handler for one of the commands gives to each of them. */
  lemma {:induction false} HandlerGives(id: FuncId, c: ClassId, t: ClassId)
    requires c == FIRST || c == SECOND
    requires t == FIRST || t == SECOND
    ensures Escaping(Some(BASE), None, COMMANDS, HandlerTaking(id, c)) == None
    ensures var given := Given(Some(BASE), Handled(COMMANDS, HandlerTaking(id, c)), t);
            |given| == (if t == c then 1 else 0) && forall m :: m in given ==> m.func == id
  {
    TwoCommands(c, t);
    PlainHandlerGives(COMMANDS, BASE, HandlerTaking(id, c).func, c, t);
  }

  method RegisterHandlers(first: FuncId, second: FuncId) returns (r: MessageRegistry)
    ensures fresh(r) && r.Valid() && r.commandBase == Some(BASE)
    ensures r.history
      == [Handled(COMMANDS, HandlerTaking(first, FIRST)), Handled(COMMANDS, HandlerTaking(second, SECOND))]
  {
    r := new MessageRegistry(Some(BASE), None);
    HandlerGives(first, FIRST, FIRST);
    HandlerGives(second, SECOND, SECOND);
    var error := r.Register(COMMANDS, HandlerTaking(first, FIRST));
    error := r.Register(COMMANDS, HandlerTaking(second, SECOND));
  }

  /** Each command has its own handler and no other. */
  lemma {:induction false} EachItsOwn(first: FuncId, second: FuncId, t: ClassId)
    requires t == FIRST || t == SECOND
    ensures var a, b := Handled(COMMANDS, HandlerTaking(first, FIRST)),
      Handled(COMMANDS, HandlerTaking(second, SECOND));
            var accepted := Accepted(Some(BASE), [a, b], t);
            |accepted| == 1 && accepted[0].func == if t == FIRST then first else second
  {
    var a, b := Handled(COMMANDS, HandlerTaking(first, FIRST)), Handled(COMMANDS, HandlerTaking(second, SECOND));
    HandlerGives(first, FIRST, t);
    HandlerGives(second, SECOND, t);
    FlatMapTwo(GivenBy(Some(BASE), t), a, b);
  }

  /** Two handlers and one pre-handle for any command, included: some schedule of
      two sends calls a handler for a command it was not registered for. */
  method TwoHandlersCross(first: FuncId, second: FuncId, pre: FuncId) returns (aw: Anywise, ghost w: Setting)
    ensures aw.Valid() && w.sources == aw.sources
    ensures Commands(aw.sources, FIRST) != [] && LastHandler(aw.sources, FIRST).func == first
    ensures Commands(aw.sources, SECOND) != [] && LastHandler(aw.sources, SECOND).func == second
    ensures forall ref: GuardRef :: w.suspends(ref) <==> ref.Instance? && ref.guard.preHandle == Some(pre)
    ensures Sound(w, [Request(FIRST, 0), Request(SECOND, 1)])
    ensures !Dispatch.HandlersNeverCross(ConfigOf(w, [Request(FIRST, 0), Request(SECOND, 1)]))
  {
    var r := RegisterHandlers(first, second);
    EachItsOwn(first, second, FIRST);
    EachItsOwn(first, second, SECOND);
    var anyCommand := GuardCallable(pre, IsFunction, [Param(Plain(ANY), false)]);
    InClosure(COMMANDS, {ANY}, ANY);
    aw, w := PreHandleForAnyCrosses(r, COMMANDS, anyCommand, FIRST, SECOND);
  }
}
