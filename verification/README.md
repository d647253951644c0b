# Anywise: a verified model of command dispatch and event sourcing

Anywise passes commands to handlers through chains of guards, and keeps events in a
table from which entities are rebuilt. This project models both halves in Dafny and
proves what they promise, or exactly when they do.

**Command dispatch**

| module | part of the library |
|---|---|
| `ClassGraph` | the subclass graph and the types an annotation stands for (`anywise/_visitor.py`) |
| `Registry` | registering handlers, listeners and guards (`anywise/registry.py`) |
| `Anywise` | merging registries, resolving and sending (`anywise/anywise.py`) |
| `Walks`, `Callables`, `Onion`, `GuardChain` | guards as linked mutable objects and what calling them does (`anywise/guard.py`) |
| `Answers` | the same call by call, and chains of one or two guards spelled out (`anywise/guard.py`, `anywise/anywise.py`) |
| `EndToEnd` | from registering a handler to the answer of a send |
| `Dispatch` | concurrent sends over shared guard objects, as a step system |
| `Sharing` | the configurations of `Dispatch` that registrations and includes bring about |
| `Crossing` | one program, in full, whose sends can cross |
| `Outcomes` | the linking loop as a step of `Dispatch`, and what concurrent sends return |

**Event sourcing**

| module | part of the library |
|---|---|
| `EventCodec` | normalizing, storing and reading events; the event class cache (`anywise/messages/model.py`, `table.py`) |
| `Events`, `EventStore` | the log and its streaming group-by (`anywise/messages/eventstore.py`) |
| `Todo`, `TodoRuns`, `TodoFailures` | the demo's todo, its service, concurrent commands, and commands that fail half-way (`demo/message.py`, `demo/todo.py`) |
| `Sink` | the bounded in-memory sink (`anywise/sink/__init__.py`) |

`Basics` holds result types and a list function.

## Main results

* A send runs its guards as an onion: pre-handles first to last, the handler registered
  last, post-handles last to first, nothing after the first failure. Guards are linked in
  place over whatever links earlier sends left (`Anywise.Send`, `GuardChain.ChainGuards`,
  `Onion.NestedIsPhased`).
* The outcome is also stated call by call: which handles and which handler are called, on
  which context and response, and which of them raised if one did (`GuardChain.Guard.Call`,
  `Answers.PhasedAnswers`). From registration on: if a function is the last one registered
  that takes a type without guards, a send answers what that function returns or raises, and
  the function is given the context exactly if its second parameter asks for it
  (`EndToEnd.SendToFunction`); of a service it is the last method that takes the type
  (`EndToEnd.MethodIsLast`).
* If an object occurs twice in a chain, the guards between its occurrences are skipped:
  the guards visited are the walk "jump behind the last occurrence", which is the whole list
  if and only if nothing is repeated (`Walks.WalkIsWholeIffDistinct`).
* When a scope resolves a guard class to one object, including a registry twice in a row,
  anywhere among others, runs the same guards (`Anywise.IncludingTwiceKeepsTheWalk`). With
  others in between it does so if and only if, among the global guards and among the type's
  own, the registry or those in between contribute none
  (`Anywise.IncludingAgainKeepsTheWalkIff`); `include(r1, r2, r1)` with a global guard in
  `r1` skips every global guard of `r2` (`Anywise.IncludingAgainSkips`).
* Concurrent sends: whatever objects they share or repeat, and under every interleaving and
  failure, no guard is ever without a successor and no chain runs in circles
  (`Dispatch.NeverLost`).
* A send is *exposed* to another one if it may suspend in a guard, before following its link,
  that is or comes before a guard object the other one links. Commands stay with handlers of
  their own type if and only if no send is exposed to one of another type
  (`Dispatch.NeverCrossIffSheltered`). A single send stays with its own resolved handler if
  and only if it is exposed to no other (`Dispatch.OwnCopyIffUnexposed`); then it does exactly
  what it would do by itself, whatever the others do to each other
  (`Dispatch.UnexposedRunsAsAlone`). Sheltered sends keep their order and finish in an exact
  number of own steps (`Dispatch.EverySendIsOrderly`, `Dispatch.FinishesInOwnSteps`).
* The same in terms of what was registered (`Sharing.NeverCrossIffNoneOvertaken`,
  `Sharing.OwnCopyIffNotOvertaken`). The code does not ensure either: once two types have
  handlers, one pre-handle for `Any` that suspends is enough for a command to reach the handler
  of the other type (`Sharing.PreHandleForAnyCrosses`; `Crossing.TwoHandlersCross` is a whole
  program), and one for a type mixes sends of that type (`Sharing.GuardOfTypeMixes`). So does a
  guard class that scopes resolve to one object. Post-handles alone, and guard classes in
  scopes that share no object, are safe (`Sharing.PostHandlesKeepApart`,
  `Sharing.ClassesKeepApart`).
* The linking loop over the real objects is the linking step of these runs
  (`Outcomes.LinkAsModelled`). A concurrent send that may be overtaken by no other, and is
  through, has the outcome and the context promised of a send alone
  (`Outcomes.ConcurrentSendIsSend`).
* The registry's dictionaries, updated in place and iterated in arbitrary set order, are
  always what the registration history says; a failed registration changes nothing
  (`Registry.MessageRegistry.Register`). What a target contributes is stated by its parameters
  and annotations alone: for a service the public methods, in order, whose parameter behind
  `self` stands for types below the base (`Registry.GetMethodMetas`), for a guard class the
  types of the parameter behind `self` (`Registry.MessageRegistry.AddGuard`).
* `all_event_streams` cuts the log into its unique maximal runs. That is grouping by entity if
  and only if every entity's events are contiguous
  (`Events.StreamsAreGroupsIffContiguous`); with table and log in step, `list_todos`
  succeeds if and only if they are, and then returns the table
  (`Todo.ListingMatchesTableIffContiguous`). Creating two todos and renaming the first one is
  enough to make it raise (`Todo.ListingAfterInterleavedRename`).
* With one write per todo in flight the table is never behind the log and ahead by the event
  in flight only (`TodoRuns.TableAheadByInFlightEvent`). Freely overlapping commands keep the
  two in step if and only if they are free of races, a condition on the commands and the
  table (`TodoRuns.AlwaysInStepIffRaceFree`).
* A creation whose event cannot be appended leaves its todo out of step for good, whatever
  runs before or after (`TodoFailures.UnloggedCreationIsForGood`); an unlogged renaming is
  made up for by the next one that is logged (`TodoFailures.AppendDecides`).
* An event survives storing and reading if and only if its base fields come last, its class
  is a strict subclass of `Event`, and its type id is its module's name, a colon and its own
  name (`EventCodec.EventTypeRegistry.ReadBack`); under such ids classes of different modules
  are never confused (`EventCodec.TypeIdsDiffer`). Lookups below different roots share one cache: an
  answer agrees with a direct search if and only if the id is not cached or its cached class
  derives from the root asked for (`EventCodec.EventTypeRegistry.GetEventCls`).

## Assumptions

* SELECT statements name no order; rows come back in insertion order.
* `scope.resolve` is an oracle that returns some guard object for a guard class, perhaps
  a different one each time.
* Application code (handlers, pre- and post-handles) is arbitrary: it may change the
  context, return or raise. Within one send it is a function of command, context and
  response; between the steps of concurrent sends anything may happen, except that sends do
  not share a context.
* In `Dispatch` a task may suspend in a pre-handle or in the `__call__` of a guard class,
  before the link is followed, and in handlers and post-handles. `Guard.__call__` itself
  awaits nothing but its pre-handle before it reads its link (`anywise/guard.py:139-145`), so
  linking and the guards up to the first that may suspend are one step.
* The theorems on repeated includes and on concurrent sends take a scope that resolves each
  guard class to one object; in `Sharing` different registered classes have different ones,
  while scopes may share them.
* A send of a type without a handler is refused before it links, so the requests of `Sharing`
  are for types that have one.
* Classes are listed in the order of their class statements, so bases come first; a member
  list of a service class is sorted by name, as `inspect.getmembers` returns it.
* Event type ids are unique among the subclasses of each root that is asked for, and event ids
  never collide.
* Bodies of events are JSON values, for which encoding and decoding is the identity.

## Where the code differs from what one would expect

* `docs/tutorial.md` lets `add_guard` take a guard object. The code refuses it, because an
  object is neither a class nor a function (`anywise/registry.py:259-266`); see
  `Registry.MessageRegistry.AddGuard`.
* `add_guards` accepts a plain function, which cannot be linked: every send of its target
  types then raises before any guard runs; see `Anywise.Anywise.Send`.
* `docs/tutorial.md` also makes `object` a global guard target. Gathering its subclasses reaches `type`,
  whose `__subclasses__` needs an argument, so such a registration raises
  (`anywise/_visitor.py:28-31`).
* A handler that both mappings reject is reported only if both bases are configured; with one
  base it is ignored silently (`anywise/registry.py:225-236`); see
  `Registry.FailureEscapesIffBothRefuse`.

## Model

| member | source | states |
|---|---|---|
| `ClassGraph.AllSubclassesExact` | anywise/_visitor.py:28-31 | the downward recursion returns exactly the classes other than `c` for which `issubclass(e, c)` holds, looked up from the class towards its bases; diamonds included |
| `ClassGraph.SubclassIffPath` | anywise/registry.py:50-52 | one class is a subclass of another iff a chain of bases leads from the one to the other |
| `ClassGraph.GatherTypes` | anywise/_visitor.py:34-64 | a nested annotation gathers the downward closure of the classes written in it, and is refused, with the first generic in reading order, iff it contains a generic |
| `ClassGraph.AnnotatedIsInner` | anywise/_visitor.py:52-55 | an annotated type gathers what the type itself does, and is refused when it is |
| `ClassGraph.UnionGathers` | anywise/_visitor.py:56-58 | a union gathers what its members gather together; it is refused iff a member is, with the refusal of the first such member in reading order |
| `ClassGraph.GatheredOne` | anywise/_visitor.py:42-50 | a class gathers itself and its subclasses, a missing annotation nothing; any other generic is refused |
| `ClassGraph.ClosureIsDownwardClosed` | anywise/_visitor.py:42-60 | every subclass of a gathered type is gathered |
| `ClassGraph.SameTypesIffMutuallyCovering` | anywise/_visitor.py:47-60 | two annotations gather the same types iff each class of one derives from a class of the other and vice versa: order, nesting and redundant members do not matter |
| `ClassGraph.LeafCheckSuffices` | anywise/registry.py:48-52 | all gathered types derive from the base iff the classes written in the annotation do |
| `ClassGraph.SubclassStable` | anywise/messages/model.py:29-32 | a later class statement does not change how older classes are related |
| `Registry.GetFuncMetas` | anywise/registry.py:40-66 | one meta for each type of the closure of the first parameter's annotation, in some order, with the context flag of the second parameter; accepted iff all those types derive from the base, otherwise the error for a missing parameter, a generic or a type outside the base |
| `Registry.GetMethodMetas` | anywise/registry.py:69-105 | exactly the metas of the public methods with a parameter behind `self` that stands for types below the base, methods in name order and each type once per method; not found iff no method raises and none contributes; otherwise the error of the first method that cannot be unpacked or names a generic |
| `Registry.FunctionGives` | anywise/registry.py:40-66 | a registered function gives a type one meta if the type is in the closure of its first annotation and that closure derives from the base, and none otherwise |
| `Registry.ServiceGives` | anywise/registry.py:69-105 | a registered service gives a type exactly the metas its methods contribute, unless one of its methods raises |
| `Registry.LastMethodWins` | anywise/registry.py:102-105 | the last meta a service gives a type is that of the last method, by name, that takes the type |
| `Registry.ServiceRefusal` | anywise/registry.py:69-105 | a service is refused for its first method that raises, or because no method contributes; what is neither a function nor a class is refused |
| `Registry.SeriousErrorsIgnoreBase` | anywise/registry.py:225-236 | errors that are not registration failures occur for every base or for none |
| `Registry.UpdateMapping` | anywise/registry.py:198-199 | a later meta for the same type wins |
| `Registry.AppendListeners` | anywise/registry.py:212-217 | every type's list is extended by its metas in order, in place, and no list serves two types |
| `Registry.MessageRegistry.RegisterCommandHandlers` | anywise/registry.py:187-199 | afterwards the mapping holds, per type, the last accepted meta of the extended history; on refusal it is unchanged |
| `Registry.MessageRegistry.RegisterEventListeners` | anywise/registry.py:201-217 | afterwards the mapping holds, per type, all accepted metas of the extended history in order; on refusal no list changes |
| `Registry.MessageRegistry.Register` | anywise/registry.py:225-236 | keeps all three mappings equal to the history, all or nothing: an escaping error leaves mappings, lists and history unchanged |
| `Registry.FailureEscapesIffBothRefuse` | anywise/registry.py:225-236 | a registration failure escapes iff both bases are configured and both refuse the target for such a failure |
| `Registry.EscapingIs` | anywise/registry.py:225-236 | which error escapes, case by case: a serious one of the command side at once; after a failure of it, whatever the event side says; otherwise only a serious one of the event side |
| `Registry.AcceptedTypesDerive` | anywise/registry.py:50-52 | the metas a type was ever given are exactly those given by registrations at which it derived from the base |
| `Registry.GetGuardTarget` | anywise/registry.py:259-273 | the targets are the closure of the annotation of a function's first parameter, or of the one behind `self` of a guard class; an object, or a callable without that parameter, is refused |
| `Registry.TargetsAreClosure` | anywise/registry.py:259-273 | likewise for the function the three registrations are specified with, refusals of generics included |
| `Registry.MessageRegistry.PreHandle` | anywise/registry.py:275-280 | every target gets a new guard object of its own with just this pre-handle, appended behind the earlier guards of that target; no registered object is in two places |
| `Registry.MessageRegistry.PostHandle` | anywise/registry.py:282-287 | likewise for a post-handle |
| `Registry.MessageRegistry.AddGuard` | anywise/registry.py:289-294 | each target gets the guard class itself, or the plain function itself; a class whose parameter behind `self` has no generic is registered for exactly the closure of its annotation; a guard object is refused |
| `Anywise.HandlerManager.IncludeGuards` | anywise/anywise.py:74-79 | guards for `Any` extend the global list, all others their target's list, whatever the order of the targets |
| `Anywise.HandlerManager.Include` | anywise/anywise.py:70-79 | handlers and guards are those of all sources so far followed by the new one's |
| `Anywise.ListenerManager.IncludeListeners` | anywise/anywise.py:142-152 | every type's listeners are extended by copies of the registry's lists; new lists are fresh |
| `Anywise.Anywise.Include` | anywise/anywise.py:296-302 | the lookups reflect the histories of all included registries in order; the registries are unchanged and share no list with the result, whose new lists are fresh, so that further registries can be included |
| `Anywise.IncludingIsJoining` | anywise/anywise.py:296-302 | registries with the same bases give each type the handlers, listeners and guards of one registry that received all their registrations in order |
| `Anywise.RegisterAfterInclude` | anywise/anywise.py:142-152 | any number of later registrations of an included registry - handlers, pre- and post-handles, guards - change none of the lookups, and leave it fit to be included again |
| `Anywise.IncludingTwiceKeepsTheWalk` | anywise/anywise.py:90-110 | including a registry twice in a row, before and after any others, leaves the guards a send visits, and their order, unchanged if the scope resolves each guard class to one object |
| `Anywise.IncludingAgainKeepsTheWalkIff` | anywise/anywise.py:90-110 | with others in between and otherwise distinct objects: unchanged iff, in the global block and in the type's own, the registry or those in between have no guard |
| `Anywise.IncludingAgainSkips` | anywise/anywise.py:103-110 | the failing case: a registry with a global guard included before and after others; every send goes as if the others had no global guards, whatever guards its type has of its own |
| `Anywise.HandlerManager.ResolveHandler` | anywise/anywise.py:124-134 | an error for an unknown type, or if a plain function is among the guards; otherwise links that lead through the walk over the resolved guards to the handler registered last |
| `Anywise.Anywise.Send` | anywise/anywise.py:307-318 | outcome and final context are those of the phases over the walk of global then own guards around the handler registered last, and, call by call, those of the handles and the handler that are called; unregistered types and plain functions among the guards are reported before anything runs; a dangling guard never is |
| `EndToEnd.SendToFunction` | anywise/anywise.py:35-56 | a type without guards whose last accepted target is a function: the send answers what that function returns or raises for the command, called with the context, given or empty, iff its second parameter asks for it; the context is then the one it leaves, and otherwise unchanged |
| `EndToEnd.FunctionIsLast` | anywise/registry.py:187-199 | the last registration that takes a type, over all included registries, decides: a function answers under its own id and context flag |
| `EndToEnd.MethodIsLast` | anywise/registry.py:187-199 | likewise for a service: its last method that takes the type |
| `GuardChain.ChainGuards` | anywise/anywise.py:90-111 | for any guard list and any earlier links, every guard is linked behind its last occurrence, and following the links is the walk and ends in the handler |
| `GuardChain.ChainedWalks` | anywise/anywise.py:103-111 | links to the successor of the last occurrence form an acyclic chain to the handler |
| `GuardChain.Guard.Call` | anywise/guard.py:138-148 | calling a guard equals the nested layers of the chain its links form; stated call by call, what a post-handle returns takes the place of the response, a pre-handle's context goes on, and the first call that raises decides |
| `GuardChain.Invoke` | anywise/strategies.py:25-30 | calling the resolved handler equals the three phases and never raises the dangling-guard error |
| `Answers.PhasedAnswers` | anywise/guard.py:138-148 | the phases return a response iff every call returns and the outermost returns that one; they raise an exception iff one call raises it after all before it returned |
| `Answers.PostHandleAnswers` | anywise/guard.py:145-148 | one post-handle around a handler: the answer and the context are what it makes of the handler's response |
| `Answers.OuterPostIsGiven` | anywise/guard.py:145-148 | of two post-handles the outer one is given the context and the response of the inner one |
| `Answers.PreHandleEnters` | anywise/guard.py:139-145 | a pre-handle that returns hands its context to the handler; one that raises decides |
| `Walks.WalkIsWholeIffDistinct` | anywise/anywise.py:103-110 | all guards are visited in order iff no object is repeated |
| `Walks.WalkNeverRevisits` | anywise/anywise.py:103-110 | no object is visited twice, so following the links ends |
| `Walks.WalkKeepsEnds` | anywise/anywise.py:103-111 | the first and the last guard of the list are always visited, first and last |
| `Walks.VisitedNext` | anywise/anywise.py:103-111 | what a visited guard is linked to is the guard visited next, or the handler |
| `Walks.WalkRepeatedBlock` | anywise/anywise.py:90-110 | repeating a block of guards at once does not change the walk, wherever the block stands |
| `Walks.WalkReincluded` | anywise/anywise.py:90-110 | what stands between two copies of a non-empty block is left out of the walk, and nothing else |
| `Walks.WalkDisjointBlocks` | anywise/anywise.py:90-110 | without a common object the global guards are walked before the type's own |
| `Walks.WalksMatch` | anywise/anywise.py:103-110 | two lists with equal elements in the same places are walked through the same places |
| `Onion.NestedIsPhased` | anywise/guard.py:138-148 | nested calls equal pre-handles in order, the handler, post-handles in reverse, stopping at the first failure |
| `Onion.FailedPreDecides` | anywise/guard.py:139-140 | a raising pre-handle decides the result alone |
| `Onion.PostsCompose` | anywise/guard.py:145-148 | inner post-handles act first, each on the response of the one before; an inner failure keeps the outer ones from acting |
| `Onion.DanglesIffNoHandler` | anywise/guard.py:120-122 | the dangling-guard error is raised iff the chain ends nowhere and all pre-handles return |
| `Dispatch.NeverLost` | anywise/guard.py:120-122 | for all sends, whatever they share or repeat, all earlier links, schedules and failures: no guard lacks a successor and no chain of links runs in circles |
| `Dispatch.FailLogs` | anywise/guard.py:138-148 | a send that raises after beginning `k` more calls has logged these and no more, fewer only if it would have paused or ended before; one that raises at once logs nothing |
| `Dispatch.RunKeepsInv` | anywise/anywise.py:103-111 | under every schedule, re-linking included, a link that may be read after a pause leads to the next place of the same type |
| `Dispatch.EverySendIsOrderly` | anywise/anywise.py:307-318 | every log is a prefix of: the guards its type visits in order, one handler of the type, the same guards in reverse; a finished send has all of it |
| `Dispatch.FinishesInOwnSteps` | anywise/guard.py:138-148 | a send that does not raise has finished iff it has taken as many own steps as it visits guards, plus one for each that may suspend, plus two, whatever the others do |
| `Dispatch.ReachesWhereLinksLead` | anywise/guard.py:145 | left alone, a paused call reaches the handler its links lead to |
| `Dispatch.ExposedCrosses` | anywise/guard.py:139-145 | a send that is exposed to another one: a schedule that runs its command in the other one's handler |
| `Dispatch.NeverCrossIffSheltered` | anywise/anywise.py:81-111 | no schedule runs a command in a handler of another type iff no send is exposed to one of another type |
| `Dispatch.OwnCopyIffUnexposed` | anywise/anywise.py:130-134 | a send runs in the handler its own scope resolved, under all schedules, iff it is exposed to no other send |
| `Dispatch.UnexposedRunsAsAlone` | anywise/guard.py:138-148 | the log of a send that is exposed to no other is, under all schedules and failures and whatever the others do to each other, a prefix of what it logs by itself - its own guards in order, its own handler, its own guards in reverse - and all of it once it finished |
| `Dispatch.UnexposedFinishes` | anywise/guard.py:138-148 | such a send, if it does not raise, has finished iff it has taken the same exact number of own steps |
| `Sharing.ListedIff` | anywise/anywise.py:94-101 | the object a request resolves for a guard is in another request's list iff the guard was registered for both and both resolve it to that object |
| `Sharing.ListedIffRegistered` | anywise/anywise.py:74-79 | the guards of a type are exactly those some included registry was told for it or for `Any` |
| `Sharing.BuiltIsAligned` | anywise/anywise.py:90-101 | requests of one type visit the same places, registries included twice among them, so `Dispatch` applies to everything the library builds |
| `Sharing.NeverCrossIffNoneOvertaken` | anywise/anywise.py:81-111 | for types with handlers: handlers never cross types iff for no two requests of different types a visited guard that may suspend stands at or before one they share |
| `Sharing.OwnCopyIffNotOvertaken` | anywise/anywise.py:130-134 | a request keeps to the handler its own scope resolved iff no guard it visits that may suspend stands at or before one it shares with another request |
| `Sharing.FirstForAnyCrosses` | anywise/registry.py:275-280 | if the first guard told for `Any` may suspend and is one object for two requests of different types, handlers cross |
| `Sharing.GuardForAnyCrosses` | anywise/registry.py:275-280 | so with any visited guard told for `Any` that may suspend and is one object for both, singleton classes included |
| `Sharing.GuardOfTypeMixes` | anywise/registry.py:275-280 | a request that visits a guard which may suspend and is one object for another request of its type can run in the handler resolved for the other |
| `Sharing.ClassesKeepApart` | anywise/anywise.py:94-101 | guard classes only, and a scope that shares no object with the others: the send runs in its own handler |
| `Sharing.PostHandlesKeepApart` | anywise/guard.py:139-148 | post-handles only, shared or not: the send runs in its own handler |
| `Sharing.OvertakenByOtherTypeIff` | anywise/registry.py:275-294 | for one registry, without repetitions and with scopes apart: a type may be overtaken by another one iff among the global guards one that may suspend stands at or before an object |
| `Sharing.CanBeNumbered` | anywise/anywise.py:94-101 | the hypotheses of these results can be met: whatever requests can be resolved, some numbering of the guard objects makes the setting sound |
| `Sharing.PreHandleForAnyCrosses` | anywise/registry.py:275-280 | from any registry with handlers for two types and no guards: told one pre-handle for `Any` and included, both types keep their handlers, the setting is sound, and handlers cross |
| `Crossing.TwoHandlersCross` | anywise/anywise.py:81-111 | one such program in full, from the class statements on: two commands, a different handler function for each, one pre-handle for any command; handlers cross |
| `Outcomes.LinkAsModelled` | anywise/anywise.py:103-111 | if the known links are those in the guard objects, they are so again after the linking loop and `Dispatch.Relinked`, and the loop returns the node `Dispatch` begins with |
| `Outcomes.AloneReplaysPhased` | anywise/guard.py:138-148 | performing the calls a send logs by itself gives the three phases |
| `Outcomes.UnexposedOutcome` | anywise/guard.py:138-148 | a send that is exposed to no other, and that finished or one of whose calls raised, has outcome and context of the three phases over its own guards and handler, under all schedules |
| `Outcomes.ConcurrentSendIsSend` | anywise/anywise.py:307-318 | likewise in terms of registrations: what `Anywise.Send` promises, under concurrency, for a request that may be overtaken by no other |
| `Events.RunsUnique` | anywise/messages/eventstore.py:34-46 | there is exactly one way to cut a log into maximal runs of one entity |
| `Events.RunsCut` | anywise/messages/eventstore.py:34-46 | the runs are non-empty, about one entity, maximal, and concatenate to the log |
| `Events.StreamsPartitionNamed` | anywise/messages/eventstore.py:36-46 | the yields concatenate to the events with a non-empty id, in order; each is non-empty and about one entity |
| `Events.StreamsAreGroupsIffContiguous` | anywise/messages/eventstore.py:34-46 | the yields are one group per entity in order of first appearance iff every entity's events are contiguous |
| `EventStore.EventStore.ListEvents` | anywise/messages/eventstore.py:20-25 | returns the events in the log places that name the entity, all of them and in log order |
| `EventStore.EventStore.AllEventStreams` | anywise/messages/eventstore.py:34-46 | the generator yields the named maximal runs in order, and a yielded list is never changed afterwards |
| `Todo.Todo.Apply` | demo/message.py:69-81 | a retitling sets the title in place and nothing else, any other event changes nothing |
| `Todo.Todo.Rebuild` | demo/message.py:59-67 | the first event creates, the last retitling decides the title; no events, or a retitling first, raise |
| `Todo.RebuiltIs` | demo/message.py:59-67 | what that means: id and content are those of the creation, the title that of the last retitling if there is one, and the todo is not completed |
| `Todo.TodoService.AddNewTodo` | demo/todo.py:94-102 | a new row and its event, or an integrity error and no change; keeps table and log in step |
| `Todo.TodoService.RenameTodo` | demo/todo.py:104-114 | the title and its event, or a key error and no change; keeps table and log in step |
| `Todo.TodoService.ListTodos` | demo/todo.py:116-120 | one rebuilt todo per stream in order, or the error of the first stream that cannot be rebuilt |
| `Todo.AllRebuildIffUninterrupted` | demo/message.py:59-67 | with one creation per todo, all streams can be rebuilt iff no todo's events are interrupted |
| `Todo.ListingMatchesTableIffContiguous` | demo/todo.py:116-120 | with table and log in step, listing succeeds iff the log is contiguous, and then returns exactly the table's rows of the named todos, in order of first appearance |
| `Todo.ListingAfterInterleavedRename` | demo/todo.py:116-120 | two creations and a renaming of the first todo make listing raise |
| `TodoRuns.CalmRunKeepsInv` | demo/todo.py:94-114 | as long as overlapping commands on one todo set the same title, table and log differ by the events in flight only |
| `TodoRuns.TableAheadByInFlightEvent` | demo/todo.py:94-114 | with one write per todo in flight: a todo nobody writes has the row its events rebuild, one being written the row they rebuild with the event in flight |
| `TodoRuns.UninterruptedIsTheService` | demo/todo.py:94-114 | the steps of a command taken in one go have the effect the service method promises |
| `TodoRuns.RacingRenamesDiverge` | demo/todo.py:104-114 | two renamings with different titles: a schedule after which the table disagrees with the log |
| `TodoRuns.RenameDuringCreateDiverges` | demo/todo.py:94-114 | a renaming during a creation: a schedule that logs the renaming first |
| `TodoRuns.AlwaysInStepIffRaceFree` | demo/todo.py:94-114 | table and log agree at every quiet moment of every schedule iff renamings of one existing todo agree on the title and no todo is renamed while it is created |
| `TodoFailures.UnloggedCreationIsForGood` | demo/todo.py:94-102 | after a creation's append raised, no schedule before or after, racing or failing, ever brings that todo and its events together again |
| `TodoFailures.AppendDecides` | demo/todo.py:104-114 | with one write per todo in flight and statements failing anywhere, a todo whose creation was logged is off in the title at most: the append of a renaming repairs it, a failing append leaves it right iff the title was the logged one |
| `TodoFailures.NobodyElseRepairs` | demo/todo.py:112-114 | commands on other todos never change whether a todo agrees with its events |
| `EventCodec.RoundTripIff` | anywise/messages/model.py:95-106 | storing and reading back gives an equal event of the same class iff the lookup finds the class and the base fields come last; otherwise which error |
| `EventCodec.StoredRow` | anywise/messages/model.py:95-106 | the stored row: its type id is the module's name, a colon and the class's name; the body holds all fields but the last three; base fields are columns of their own |
| `EventCodec.TypeIdsDiffer` | anywise/messages/model.py:20-26 | two classes are stored under one type id iff module and name agree, for module names without a colon |
| `EventCodec.ReadRow` | anywise/messages/table.py:84-93 | what a row of a known class is read as: the remaining columns and the body together, iff they are the fields of the class and none comes twice |
| `EventCodec.EventTypeRegistry.Define` | anywise/messages/model.py:199-207 | a class statement leaves every cached answer right |
| `EventCodec.EventTypeRegistry.GetEventCls` | anywise/messages/model.py:199-212 | a lookup below any root, over the one shared cache: it agrees with a direct search of that root's present strict subclasses iff the id is not cached or the cached class is one of them; with one root it always does |
| `EventCodec.EventTypeRegistry.AnswersForOtherRoot` | anywise/messages/model.py:199-212 | the failing input: a class looked up below one root is then returned for a root it does not derive from |
| `EventCodec.EventTypeRegistry.ReadBack` | anywise/messages/table.py:84-93 | the full round trip succeeds iff none but the last three fields are base fields and the lookup of module name, colon, class name answers with the event's class; with one root, iff moreover that class is a strict subclass of it and that is its type id |
| `Sink.InMemorySink.Sink` | anywise/sink/__init__.py:56-61 | events are put in order: all of them without a bound or if they fit, otherwise as many as there is room for |
| `Sink.NothingLostOrReordered` | anywise/sink/__init__.py:48-61 | for every interleaving the bound holds, and each producer's events are consumed, queued or pending in the order submitted |
| `Sink.AlwaysProgress` | anywise/sink/__init__.py:48-61 | while anything is left some task can go on, and each step leaves one less |
| `Sink.DrainedMeansDelivered` | anywise/sink/__init__.py:48-61 | once nothing is left, the consumer has each producer's submissions in full and in order |
| `Sink.LoopIsPuts` | anywise/sink/__init__.py:57-59 | the loop, while it does not suspend, is a run of puts of one producer |

## Left out

- The dependency graph of `ididi` (merging, entry points, scopes, analysis): an external library; resolving a guard is an oracle, resolving a handler keeps only what it calls and whether it sees the context.
- The guard target `object`: it would gather every class of the interpreter, and the walk fails at `type.__subclasses__`; no registration with it is modelled, so the second test at `anywise/anywise.py:76` does not occur.
- Subclasses of `BaseGuard` with a `__call__` of their own: a guard acts before and after the rest of its chain; one that never calls on, or swallows a failure, is not modelled.
- `Anywise.Anywise.Send`: does not model a custom send strategy, or callables that send further commands during the call; `Dispatch` covers the latter as concurrent sends.
- `MessageRegistry.register`: the loops over several handlers, guards and pre-/post-handles repeat the single registrations.
- `Dispatch.EverySendIsOrderly`: does not model plain functions among the guards, whose failing sends leave links to the function behind, or an include between two sends.
- `Outcomes.ConcurrentSendIsSend`: says nothing of a send that a schedule lets fail although none of its calls raises.
- `Sharing.NeverCrossIffNoneOvertaken`: does not cover scopes that resolve one guard class to several objects.
- `TodoFailures.AppendDecides`: covers failures with one write per todo in flight, as `TodoRuns.TableAheadByInFlightEvent` does; failures together with races are covered for creations only.
- `EventStore.event_stream`: its filter applies `and` to SQL clauses, whose meaning lies in SQLAlchemy.
- SQLAlchemy engines, transactions and statement building, and JSON encoding.
- Default values of event fields: a stored row always supplies every field.
- The pydantic variants of events and entities: their field order puts inherited fields first, which `EventCodec.RoundTripIff` shows not to survive a round trip once a class has fields of its own.
- `publish` and its strategies, threads for synchronous handlers, inspection, sources, the command line and the web integration.
