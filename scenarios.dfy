/**
 * The repository's PHPUnit scenarios, restated against the model: concrete
 * providers built from concrete listeners, dispatched to concrete events,
 * each test's expected outcome being a verified postcondition.
 *
 * The test listeners only append their own name to a log. The log lives
 * in the event's payload, so the model sees it: `Recorder` is what the
 * listeners do to an event.
 */
module Scenarios {
  import opened Wrappers
  import opened Events
  import opened Provider
  import opened Dispatcher

  /** The listener methods of the dispatcher tests. */
  datatype TestListener = ListenerOne | ListenerTwo | ExceptionListener | ListenerStopPropagation

  type Log = seq<string>

  /** The effect of each test listener on an event whose payload is the log of calls. */
  function Recorder(l: TestListener, st: EventState<Log>): Outcome<Log, string>
  {
    match l
    case ListenerOne => Returned(EventState(st.stopped, st.payload + ["listenerOne"]))
    case ListenerTwo => Returned(EventState(st.stopped, st.payload + ["listenerTwo"]))
    case ExceptionListener => Threw(st, "That was expected.")
    case ListenerStopPropagation => Returned(EventState(true, st.payload + ["listenerStopPropagation"]))
  }

  /** A listener method taking one `object` parameter, as every dispatcher test listener does. */
  function ObjectListener<L>(l: L): Candidate<L>
  {
    Candidate(l, [Parameter(Some(ObjectType))])
  }

  const StdClass: TypeName := "stdClass"
  const StoppableEventMock: TypeName := "IngeniozIT\\EventDispatcher\\Tests\\StoppableEventMock"

  /** A provider holding `listeners`, each taking one `object` parameter. */
  method ProviderOf(listeners: seq<TestListener>) returns (provider: ListenerProvider<TestListener>)
    ensures Suitable(provider.listeners, {StdClass}) == listeners
    ensures Suitable(provider.listeners, {StoppableEventMock, StoppableEventInterface}) == listeners
  {
    var candidates := seq(|listeners|, k requires 0 <= k < |listeners| => ObjectListener(listeners[k]));
    var created := ListenerProvider.Create(candidates);
    provider := created.value;
    UniversalProvider(candidates, {StdClass});
    UniversalProvider(candidates, {StoppableEventMock, StoppableEventInterface});
  }

  /** Listeners that all take one untyped or `object` parameter are handed every event, all of them, in order. */
  lemma {:induction false} UniversalProvider<L>(candidates: seq<Candidate<L>>, classes: set<TypeName>)
    requires forall k :: 0 <= k < |candidates| ==>
      candidates[k].parameters == [Parameter(Some(ObjectType))] || candidates[k].parameters == [Parameter(None)]
    ensures AllUnary(candidates)
    ensures Suitable(RegisterAll(candidates).value, classes)
            == seq(|candidates|, k requires 0 <= k < |candidates| => candidates[k].callable)
  {
    if candidates != [] {
      var n := |candidates| - 1;
      UniversalProvider(candidates[..n], classes);
      var registry := RegisterAll(candidates).value;
      assert registry == RegisterAll(candidates[..n]).value + [registry[n]];
      SuitableAppend(RegisterAll(candidates[..n]).value, [registry[n]], classes);
    }
  }

  /** With a single provider, dispatch works on that provider's list of listeners. */
  lemma OneProvider<L>(provider: ListenerProvider<L>, classes: set<TypeName>)
    ensures Flatten(Queries([provider], classes)) == Suitable(provider.listeners, classes)
  {
  }

  /** Delivering to listenerOne then listenerTwo logs both, in that order, with no stop checks. */
  lemma OneThenTwo(st: EventState<Log>)
    requires st == EventState(false, [])
    ensures Deliver(false, [ListenerOne, ListenerTwo], st, Recorder)
            == Dispatched(EventState(false, ["listenerOne", "listenerTwo"]), [Invoke(ListenerOne), Invoke(ListenerTwo)], Completed)
  {
    var one := EventState(false, ["listenerOne"]);
    assert st.payload + ["listenerOne"] == ["listenerOne"];
    assert one.payload + ["listenerTwo"] == ["listenerOne", "listenerTwo"];
    assert [ListenerTwo][1..] == [];
    assert Deliver(false, [ListenerTwo], one, Recorder)
           == Dispatched(EventState(false, ["listenerOne", "listenerTwo"]), [Invoke(ListenerTwo)], Completed);
    assert [ListenerOne, ListenerTwo][1..] == [ListenerTwo];
  }

  /** A throwing listener between listenerOne and listenerTwo: only listenerOne has logged, and its error comes out. */
  lemma ThrowBlocksTwo(st: EventState<Log>)
    requires st == EventState(false, [])
    ensures Deliver(false, [ListenerOne, ExceptionListener, ListenerTwo], st, Recorder)
            == Dispatched(EventState(false, ["listenerOne"]), [Invoke(ListenerOne), Invoke(ExceptionListener)],
                          Failed("That was expected."))
  {
    var one := EventState(false, ["listenerOne"]);
    assert st.payload + ["listenerOne"] == ["listenerOne"];
    assert Deliver(false, [ExceptionListener, ListenerTwo], one, Recorder)
           == Dispatched(one, [Invoke(ExceptionListener)], Failed("That was expected."));
    assert [ListenerOne, ExceptionListener, ListenerTwo][1..] == [ExceptionListener, ListenerTwo];
  }

  /** A stoppable event is asked before each of listenerOne and listenerTwo. */
  lemma PolledOneThenTwo(st: EventState<Log>)
    requires st == EventState(false, [])
    ensures Deliver(true, [ListenerOne, ListenerTwo], st, Recorder)
            == Dispatched(EventState(false, ["listenerOne", "listenerTwo"]),
                          [StopCheck(false), Invoke(ListenerOne), StopCheck(false), Invoke(ListenerTwo)], Completed)
  {
    var one := EventState(false, ["listenerOne"]);
    assert st.payload + ["listenerOne"] == ["listenerOne"];
    assert one.payload + ["listenerTwo"] == ["listenerOne", "listenerTwo"];
    assert [ListenerTwo][1..] == [];
    assert Deliver(true, [ListenerTwo], one, Recorder)
           == Dispatched(EventState(false, ["listenerOne", "listenerTwo"]), [StopCheck(false), Invoke(ListenerTwo)], Completed);
    assert [ListenerOne, ListenerTwo][1..] == [ListenerTwo];
  }

  /**
   * listenerStopPropagation sets the flag: the next check answers `true`,
   * which is the last call, and listenerTwo never runs.
   */
  lemma StopBeforeTwo(st: EventState<Log>)
    requires st == EventState(false, [])
    ensures Deliver(true, [ListenerOne, ListenerStopPropagation, ListenerTwo], st, Recorder)
            == Dispatched(EventState(true, ["listenerOne", "listenerStopPropagation"]),
                          [StopCheck(false), Invoke(ListenerOne), StopCheck(false), Invoke(ListenerStopPropagation), StopCheck(true)],
                          Stopped)
  {
    var one := EventState(false, ["listenerOne"]);
    var stopped := EventState(true, ["listenerOne", "listenerStopPropagation"]);
    assert st.payload + ["listenerOne"] == ["listenerOne"];
    assert one.payload + ["listenerStopPropagation"] == stopped.payload;
    assert Deliver(true, [ListenerTwo], stopped, Recorder) == Dispatched(stopped, [StopCheck(true)], Stopped);
    assert [ListenerStopPropagation, ListenerTwo][1..] == [ListenerTwo];
    assert Deliver(true, [ListenerStopPropagation, ListenerTwo], one, Recorder)
           == Dispatched(stopped, [StopCheck(false), Invoke(ListenerStopPropagation), StopCheck(true)], Stopped);
    assert [ListenerOne, ListenerStopPropagation, ListenerTwo][1..] == [ListenerStopPropagation, ListenerTwo];
  }

  /**
   * Listeners are called in the order the provider returns them, the event
   * handed back is the one dispatched, and every listener has run.
   */
  method DispatchesProvidersListeners() returns (event: Event<Log>, r: Result<Event<Log>, string>, log: Log)
    ensures r == Success(event)
    ensures log == ["listenerOne", "listenerTwo"]
  {
    var provider := ProviderOf([ListenerOne, ListenerTwo]);
    var dispatcher := new EventDispatcher([provider]);
    event := new Event({StdClass}, []);
    OneProvider(provider, event.classes);
    OneThenTwo(event.state);
    ghost var trace;
    r, trace := dispatcher.Dispatch(event, Recorder);
    log := event.state.payload;
  }

  /** A listener that throws stops the dispatch; the exception comes out and only listenerOne has run. */
  method DoesNotBlockListenersExceptions() returns (r: Result<Event<Log>, string>, log: Log)
    ensures r == Failure("That was expected.")
    ensures log == ["listenerOne"]
  {
    var provider := ProviderOf([ListenerOne, ExceptionListener, ListenerTwo]);
    var dispatcher := new EventDispatcher([provider]);
    var event := new Event({StdClass}, []);
    OneProvider(provider, event.classes);
    ThrowBlocksTwo(event.state);
    ghost var trace;
    r, trace := dispatcher.Dispatch(event, Recorder);
    log := event.state.payload;
  }

  /** A stoppable event is asked whether propagation is stopped before each listener is called. */
  method CallsIsPropagationStoppedWhenGivenAStoppableEvent() returns (log: Log, ghost trace: seq<Step<TestListener>>)
    ensures log == ["listenerOne", "listenerTwo"]
    ensures trace == [StopCheck(false), Invoke(ListenerOne), StopCheck(false), Invoke(ListenerTwo)]
  {
    var provider := ProviderOf([ListenerOne, ListenerTwo]);
    var dispatcher := new EventDispatcher([provider]);
    var event := new Event({StoppableEventMock, StoppableEventInterface}, []);
    OneProvider(provider, event.classes);
    PolledOneThenTwo(event.state);
    var r;
    r, trace := dispatcher.Dispatch(event, Recorder);
    log := event.state.payload;
  }

  /** Once the event reports propagation stopped, dispatch returns it and calls no further listener. */
  method StopsPropagationWhenAStoppableEventReturnsTrue()
    returns (event: Event<Log>, r: Result<Event<Log>, string>, log: Log, ghost trace: seq<Step<TestListener>>)
    ensures r == Success(event)
    ensures log == ["listenerOne", "listenerStopPropagation"]
    ensures trace == [StopCheck(false), Invoke(ListenerOne), StopCheck(false), Invoke(ListenerStopPropagation), StopCheck(true)]
  {
    var provider := ProviderOf([ListenerOne, ListenerStopPropagation, ListenerTwo]);
    var dispatcher := new EventDispatcher([provider]);
    event := new Event({StoppableEventMock, StoppableEventInterface}, []);
    OneProvider(provider, event.classes);
    StopBeforeTwo(event.state);
    r, trace := dispatcher.Dispatch(event, Recorder);
    log := event.state.payload;
  }

  /** With two providers, dispatch works on the first provider's list followed by the second's. */
  lemma TwoProviders<L>(first: ListenerProvider<L>, second: ListenerProvider<L>, classes: set<TypeName>)
    ensures Flatten(Queries([first, second], classes))
            == Suitable(first.listeners, classes) + Suitable(second.listeners, classes)
  {
    var a, b := Suitable(first.listeners, classes), Suitable(second.listeners, classes);
    var lists := Queries([first, second], classes);
    assert lists[0] == a && lists[1] == b;
    assert lists == [a, b];
    assert lists[1..] == [b] && [b][1..] == [];
    assert Flatten([b]) == b + Flatten([]) == b;
    assert Flatten(lists) == a + Flatten([b]);
  }

  /** Two providers holding listenerOne and listenerTwo: listenerOne runs first, then listenerTwo. */
  method DispatchesProvidersInOrder() returns (log: Log)
    ensures log == ["listenerOne", "listenerTwo"]
  {
    var first := ProviderOf([ListenerOne]);
    var second := ProviderOf([ListenerTwo]);
    var dispatcher := new EventDispatcher([first, second]);
    var event := new Event({StdClass}, []);
    TwoProviders(first, second, event.classes);
    OneThenTwo(event.state);
    ghost var trace;
    var r;
    r, trace := dispatcher.Dispatch(event, Recorder);
    log := event.state.payload;
  }

  /** With no providers, dispatch calls nothing and hands back the event as it was. */
  method DispatchesNothingWithoutProviders(payload: Log)
    returns (event: Event<Log>, r: Result<Event<Log>, string>, log: Log, ghost trace: seq<Step<TestListener>>)
    ensures r == Success(event)
    ensures log == payload
    ensures trace == []
    ensures event.state == EventState(false, payload)
  {
    var dispatcher := new EventDispatcher<TestListener>([]);
    event := new Event({StdClass}, payload);
    r, trace := dispatcher.Dispatch(event, Recorder);
    log := event.state.payload;
  }

  /** An empty provider has no listener for any event. */
  method ProvidesNoListenersWhenEmpty() returns (listeners: seq<string>)
    ensures listeners == []
  {
    var created := ListenerProvider.Create([]);
    var provider: ListenerProvider<string> := created.value;
    var event := new Event({StdClass}, 0);
    listeners := provider.GetListenersForEvent(event);
  }

  const TestCase: TypeName := "PHPUnit\\Framework\\TestCase"

  /** The listeners of the type-selection test: untyped, typed `TestCase`, typed `stdClass`. */
  const TypedListeners: seq<Candidate<string>> := [
    Candidate("listener", [Parameter(None)]),
    Candidate("nonMatchingListener", [Parameter(Some(TestCase))]),
    Candidate("matchingListener", [Parameter(Some(StdClass))])
  ]

  /** Registering the type-selection listeners, then querying with a `stdClass` event. */
  lemma TypedListenersFiltered()
    ensures AllUnary(TypedListeners)
    ensures Suitable(RegisterAll(TypedListeners).value, {StdClass}) == ["listener", "matchingListener"]
  {
    var registry := RegisterAll(TypedListeners).value;
    assert Register(TypedListeners[0]) == Success(registry[0]);
    assert Register(TypedListeners[1]) == Success(registry[1]);
    assert Register(TypedListeners[2]) == Success(registry[2]);
    assert registry[2..][1..] == [];
    assert Suitable(registry[2..], {StdClass}) == ["matchingListener"];
    assert registry[1..][1..] == registry[2..];
    assert Suitable(registry[1..], {StdClass}) == ["matchingListener"];
  }

  /**
   * An untyped listener and one typed `stdClass` are selected for a
   * `stdClass` event, in registration order; one typed `TestCase` is not.
   */
  method DoesNotSelectListenersWithWrongEventType() returns (listeners: seq<string>)
    ensures listeners == ["listener", "matchingListener"]
  {
    TypedListenersFiltered();
    var created := ListenerProvider.Create(TypedListeners);
    var provider := created.value;
    var event := new Event({StdClass}, 0);
    listeners := provider.GetListenersForEvent(event);
  }

  /** A listener without parameters is refused and no provider is built. */
  method ThrowsExceptionIfAListenerHasNoParameter() returns (r: Result<ListenerProvider<string>, InvalidArgumentException>)
    ensures r == Failure(NotUnary)
  {
    r := ListenerProvider.Create([Candidate("listenerWithNoParameters", [])]);
  }

  /** A listener with two parameters is refused and no provider is built. */
  method ThrowsExceptionIfAListenerHasMoreThanOneParameter()
    returns (r: Result<ListenerProvider<string>, InvalidArgumentException>)
    ensures r == Failure(NotUnary)
  {
    r := ListenerProvider.Create([Candidate("listenerWithMultipleParameters", [Parameter(Some(StdClass)), Parameter(None)])]);
  }

  /** Asking a provider twice for the listeners of an event gives the same answer. */
  method QueriesAgree<L, P>(provider: ListenerProvider<L>, event: Event<P>) returns (first: seq<L>, second: seq<L>)
    ensures first == second
    ensures |first| <= |provider.listeners|
  {
    first := provider.GetListenersForEvent(event);
    second := provider.GetListenersForEvent(event);
  }
}
