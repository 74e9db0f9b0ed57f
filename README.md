# A verified model of a PSR-14 event dispatcher

This project models the two classes of `IngeniozIT/psr-event-dispatcher`, a small
synchronous PHP implementation of PSR-14 ("Event Dispatcher"):

- `ListenerProvider`
  - It is built from a list of listener callables. It refuses any listener that does not take exactly one parameter.
  - It records each listener with the type its parameter declares. A declared `object` and an untyped parameter both mean "every event".
  - `getListenersForEvent` answers with the registered listeners whose type the event is an instance of, in registration order.
- `EventDispatcher`
  - It holds an ordered list of providers.
  - `dispatch` asks each provider in turn for the event's listeners and calls them one by one.
  - For a stoppable event, it asks the event before every call whether propagation has been stopped. A `true` ends the whole dispatch (PHP's `break 2`).
  - An exception thrown by a listener propagates to the caller.
  - Otherwise `dispatch` returns the very event it was given.

The modules:

- `Events` (`events.dfy`)
  - An event object has a fixed set of class and interface names, `classes`, and a mutable state: the stop flag plus an opaque payload.
  - `is_a($event, $type)` is modelled as `$type in classes`.
  - The event is stoppable when `classes` contains `Psr\EventDispatcher\StoppableEventInterface`.
- `Provider` (`listener_provider.dfy`)
  - The `ListenerProvider` class has a `listeners` field, a sequence of registrations that `AddListener` appends to.
  - `Create` loops over the candidates as the PHP constructor does.
  - `GetListenersForEvent` is the PHP `foreach` loop with `continue`.
  - `Create` is proved against `RegisterAll`, `AddListener` against `Register`, and `GetListenersForEvent` against `Suitable`; `Empty` just starts the registry empty.
  - The lemmas about those functions state the promised properties: all-or-nothing construction, selection order, exactly which registrations are selected, and the empty answer.
- `Dispatcher` (`event_dispatcher.dfy`)
  - `EventDispatcher.Dispatch` is the nested loop over providers and their listeners. The inner loop over one provider's listeners is the static method `Notify`.
  - Both are proved against the specification function `Deliver`. `Deliver` takes the concatenated listener lists and gives the event's final state, the calls made (a trace of stop-flag checks and listener invocations), and how the dispatch ended: `Completed`, `Stopped` or `Failed`.
  - The lemmas state the trace shapes:
    - concatenation in provider order;
    - a check immediately before each call for stoppable events;
    - halting on the first `true`;
    - failing fast on the first exception.
- `Scenarios` (`scenarios.dfy`)
  - The PHPUnit tests of the repository, restated against the model with concrete listeners whose effect, `Recorder`, appends their name to a log kept in the event's payload.
  - Each test's expected log, trace and result is a verified postcondition.

Listeners are code the dispatcher cannot see. Their effect is a parameter `run` of
`Dispatch`. Given a listener and the event's current state, `run` gives the state the listener
leaves behind and, if the listener threw, the exception. PHP exceptions are modelled as
`Result` or `Option` values.

## Model

| member | source | states |
|---|---|---|
| Events.Event.IsPropagationStopped | src/EventDispatcher.php:40 | the stop check reports the event's stop flag and changes nothing |
| Provider.AcceptedType | src/ListenerProvider.php:40-43 | a declared type is stored as "matches everything" exactly when the parameter is untyped or typed `object`; any other declared type is stored as is |
| Provider.Register | src/ListenerProvider.php:36-45 | a candidate is accepted if and only if it has exactly one parameter; a rejected one raises "Listeners must have only one parameter."; an accepted one is stored with its callable and normalised type |
| Provider.RegisterAll | src/ListenerProvider.php:21-26 | construction succeeds if and only if every candidate is unary (one bad candidate anywhere aborts it); on success there is one registration per candidate, the i-th being candidate i's |
| Provider.Matches | src/ListenerProvider.php:77 | a registration applies to an event when it is untyped or the event is an instance of its type (the negation of the `continue` test) |
| Provider.Suitable | src/ListenerProvider.php:74-83 | the query's answer is never longer than the registry |
| Provider.SuitableAppend | src/ListenerProvider.php:76-81 | the filter processes registrations one by one: filtering a concatenation is concatenating the filtered parts |
| Provider.SuitableIsOrderedSelection | src/ListenerProvider.php:74-83 | the answer is the registered listeners at strictly increasing positions (registration order kept), and a position is selected if and only if its registration is untyped or the event is an instance of its type |
| Provider.NothingSuitable | src/ListenerProvider.php:74-83 | the answer is empty if and only if no registration matches the event |
| Provider.UniversalListenerAlwaysSuitable | src/ListenerProvider.php:77-80 | a listener declared untyped or `object` is returned for every event |
| Provider.ListenerProvider.Empty | src/ListenerProvider.php:15 | a new provider has no registrations |
| Provider.ListenerProvider.Create | src/ListenerProvider.php:21-26 | the constructor yields a provider if and only if every candidate is unary, and that provider's registry is exactly `RegisterAll` of the candidates; otherwise it throws `InvalidArgumentException` and no provider comes out |
| Provider.ListenerProvider.AddListener | src/ListenerProvider.php:32-46 | throws and leaves the registry unchanged for a non-unary candidate; otherwise appends exactly that candidate's registration at the end |
| Provider.ListenerProvider.GetListenersForEvent | src/ListenerProvider.php:72-84 | returns `Suitable` of the registry for the event's classes, and modifies nothing |
| Dispatcher.Deliver | src/EventDispatcher.php:38-45 | the nested loop over the concatenated lists: before each listener a stoppable event is asked, a `true` ends everything with that check as the last call, a thrown exception ends everything at once with the state the listener left, otherwise the next listener runs on the state left behind |
| Dispatcher.Calls | src/EventDispatcher.php:39-43 | the calls of a run in which every listener runs: for each listener in order, a `false` check if the event is stoppable, then its invocation |
| Dispatcher.Queries | src/EventDispatcher.php:38-39 | one listener list per provider, in provider order, each being that provider's answer for the event |
| Dispatcher.DeliverAppend | src/EventDispatcher.php:38-45 | delivering to `xs + ys` is delivering to `xs` and, only if that completed, continuing into `ys` from the state `xs` left; a stop or throw among `xs` is final |
| Dispatcher.DeliverStopsAt | src/EventDispatcher.php:40-41 | after a completed prefix, a stop flag already set ends the dispatch with one last check answering `true`, whatever listeners follow |
| Dispatcher.DeliverFailureFinal | src/EventDispatcher.php:43 | once a listener has thrown, later listeners change nothing about the outcome |
| Dispatcher.DeliverOneMore | src/EventDispatcher.php:40-43 | after a completed prefix with the flag clear, the next listener is polled, invoked on the current state, and either returns or fails the dispatch with its exception |
| Dispatcher.DispatchNext | src/EventDispatcher.php:38-45 | a provider's list either completes and joins the completed prefix, or stops or fails and thereby ends the whole dispatch |
| Dispatcher.CallsAppend | src/EventDispatcher.php:38-45 | the calls of a full run over a concatenation are the calls over each part, in order |
| Dispatcher.CallsEach | src/EventDispatcher.php:38-39 | the full-run calls are computed list by list, one per provider |
| Dispatcher.CallsFlatten | src/EventDispatcher.php:38-45 | a full run over all providers makes, provider after provider, the calls of each provider's list |
| Dispatcher.CallsUnpolled | src/EventDispatcher.php:40-43 | for an event that is not stoppable, a full run's trace is exactly one invocation per listener, in order, with no checks |
| Dispatcher.CallsPolled | src/EventDispatcher.php:40-43 | for a stoppable event, a full run's trace alternates: each invocation is immediately preceded by a check answering `false` |
| Dispatcher.CompletedRunsAll | src/EventDispatcher.php:38-45 | a completed dispatch made exactly the calls of a full run; an event that is not stoppable is never stopped |
| Dispatcher.UnstoppableRunsEveryListener | src/EventDispatcher.php:36-45 | dispatching an event that is not stoppable never stops, and unless a listener throws it invokes every listener of every provider exactly once, in provider then registration order |
| Dispatcher.ProgressPrefix | src/EventDispatcher.php:38-45 | the listeners before the point where dispatch ended all ran and returned normally |
| Dispatcher.DeliverAtProgress | src/EventDispatcher.php:38-45 | every dispatch is a completed run over a prefix followed by its end: all listeners ran, or the check before the next listener answered `true` (the last call), or the next listener threw the reported exception in the state the prefix left |
| Dispatcher.StopHalts | src/EventDispatcher.php:40-41 | a stopped dispatch ran a prefix exactly as a full run, ends with the one check that answered `true`, and invoked no later listener, in this provider or a later one |
| Dispatcher.FailFast | src/EventDispatcher.php:43 | a failed dispatch ran a prefix as a full run, then invoked one listener that threw the reported exception and kept what it changed, and invoked nothing after it |
| Dispatcher.FlattenSplit | src/EventDispatcher.php:38-39 | the providers' lists concatenated are the first `i` lists concatenated, followed by the rest |
| Dispatcher.EventDispatcher.constructor | src/EventDispatcher.php:23-26 | the dispatcher holds exactly the providers it was given, in order |
| Dispatcher.EventDispatcher.Dispatch | src/EventDispatcher.php:34-48 | stoppability is decided once from the event's classes; the event's final state, the calls made, and the result are those `Deliver` gives for the providers' lists concatenated; the result is the same event object, or the exception a listener threw |
| Dispatcher.EventDispatcher.Notify | src/EventDispatcher.php:39-45 | the inner loop over one provider's listeners leaves the event as `Deliver` says, reporting whether it completed, was stopped (ending both loops) or failed |
| Scenarios.UniversalProvider | tests/ListenerProviderTest.php:35-45 | a provider built from listeners that each take one untyped or `object` parameter (as `listener($event)` and `staticListener(object $event)` do) is valid and returns all of them, in order, for any event |
| Scenarios.OneThenTwo | tests/EventDispatcherTest.php:54-66 | listenerOne then listenerTwo on a plain event: log `listenerOne, listenerTwo`, two invocations and no checks |
| Scenarios.DispatchesProvidersListeners | tests/EventDispatcherTest.php:54-66 | dispatch returns the same event and both listeners have run, in order |
| Scenarios.DispatchesProvidersInOrder | src/EventDispatcher.php:38-45 | with two providers, the first provider's listener runs before the second's |
| Scenarios.ThrowBlocksTwo | tests/EventDispatcherTest.php:73-91 | a throwing listener between two: only listenerOne logged, and the dispatch fails with the thrown exception |
| Scenarios.DoesNotBlockListenersExceptions | tests/EventDispatcherTest.php:73-91 | the exception reaches the caller and listenerTwo never ran |
| Scenarios.PolledOneThenTwo | tests/EventDispatcherTest.php:113-130 | for a stoppable event the trace is check, listenerOne, check, listenerTwo |
| Scenarios.CallsIsPropagationStoppedWhenGivenAStoppableEvent | tests/EventDispatcherTest.php:113-130 | dispatch makes that trace and both listeners log |
| Scenarios.StopBeforeTwo | tests/EventDispatcherTest.php:136-155 | after listenerStopPropagation the next check answers `true`, it is the last call, and listenerTwo never runs |
| Scenarios.StopsPropagationWhenAStoppableEventReturnsTrue | tests/EventDispatcherTest.php:136-155 | dispatch returns the same event normally, with that trace and log |
| Scenarios.DispatchesNothingWithoutProviders | src/EventDispatcher.php:38-47 | with no providers, dispatch makes no call at all (empty trace), returns the same event, and leaves its stop flag and payload as they were |
| Scenarios.ProvidesNoListenersWhenEmpty | tests/ListenerProviderTest.php:21-27 | an empty provider has no listener for an event |
| Scenarios.TypedListenersFiltered | tests/ListenerProviderTest.php:72-84 | the untyped and `stdClass` listeners are selected for a `stdClass` event and the `TestCase` one is not |
| Scenarios.DoesNotSelectListenersWithWrongEventType | tests/ListenerProviderTest.php:72-84 | the provider's answer is `listener, matchingListener` |
| Scenarios.ThrowsExceptionIfAListenerHasNoParameter | tests/ListenerProviderTest.php:86-94 | a listener without parameters makes construction throw `InvalidArgumentException` |
| Scenarios.ThrowsExceptionIfAListenerHasMoreThanOneParameter | tests/ListenerProviderTest.php:96-104 | a listener with two parameters makes construction throw `InvalidArgumentException` |
| Scenarios.QueriesAgree | src/ListenerProvider.php:72-84 | asking a provider twice gives equal answers, never longer than its registry |

## Left out

- Reflection (`getListenerParameters`, src/ListenerProvider.php:53-63): a candidate listener comes with the parameter list reflection would report, each parameter with its declared type name if it has one.
- The string form of reflected types: nullable (`?T`) and union types are opaque names. Only the exact name `object` is special, as in the source's `===` comparison.
- PHP's class hierarchy and the case-insensitivity of class names: `is_a` is membership in the event's given set of class and interface names.
- The PSR interfaces (`ListenerProviderInterface`, `EventDispatcherInterface`, `StoppableEventInterface`) are not part of this model. The dispatcher holds concrete `ListenerProvider` objects rather than any provider implementation, so the mock providers of the tests become real providers built from the same listeners.
- Listener side effects beyond the event. A listener's effect is a function of the event's state, so listeners that change the providers, the dispatcher or other objects are not modelled. In particular, a listener registering listeners mid-dispatch cannot be expressed; the query results are taken from the state before dispatch.
- The query results are not recorded in the trace; only stop checks and invocations are.
- Provider.ListenerProvider.Create: PHP's constructor throws instead of returning; the model's static method returns the provider or the exception.
- Dispatcher.EventDispatcher.Dispatch: the trace of calls is a ghost out-parameter, and a thrown exception is a `Failure` result holding the listener's exception; the event object keeps the state the listener left.
- Concurrency: the source is single-threaded.
- Provider.ListenerProvider.AddListener: PHP declares `addListener` protected, so a provider cannot change once built; the model's method is callable by any client, so a provider in the model can be mutated after construction. Dispatch is stated against the registries as they are when it starts.
- `iterable` arguments (generators, iterators): providers and listener lists are finite sequences.
