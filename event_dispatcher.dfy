/**
 * The event dispatcher: for each provider in turn, it asks for the listeners
 * applicable to the event and invokes them one by one. For a stoppable event
 * it asks the event before every invocation whether propagation has been
 * stopped, and stops the whole dispatch on the first `true`.
 *
 * Listeners are code the dispatcher cannot see. Their effect is a parameter
 * `run`: given a listener and the event's current state, it gives the state
 * the listener leaves behind and whether the listener threw. What the
 * dispatcher does is recorded as a trace of stop-flag checks and listener
 * invocations, the observable sequence of calls it makes on the event and
 * the listeners.
 */
module Dispatcher {
  import opened Wrappers
  import opened Events
  import opened Provider

  /** One call the dispatcher makes: a stop-flag check with its answer, or a listener invocation. */
  datatype Step<L> = StopCheck(stopped: bool) | Invoke(listener: L)

  /** What invoking one listener does: it returns, or it throws `error`; either way it leaves `state`. */
  datatype Outcome<P, E> = Returned(state: EventState<P>) | Threw(state: EventState<P>, error: E)

  /** How a dispatch ends: every listener ran, propagation was stopped, or a listener threw. */
  datatype Status<E> = Completed | Stopped | Failed(error: E)

  /** The end of a dispatch: the event's final state, the calls made, and how it ended. */
  datatype Dispatched<L, P, E> = Dispatched(state: EventState<P>, trace: seq<Step<L>>, status: Status<E>)

  /** The stop-flag checks made before one invocation. */
  function Poll<L>(stoppable: bool): seq<Step<L>>
  {
    if stoppable then [StopCheck(false)] else []
  }

  /**
   * Delivering an event in state `st` to `listeners`, in order: before each
   * listener a stoppable event is asked whether propagation is stopped; a
   * `true` halts, a thrown exception ends the delivery at once.
   */
  function Deliver<L, P, E>(stoppable: bool, listeners: seq<L>, st: EventState<P>,
                            run: (L, EventState<P>) -> Outcome<P, E>): Dispatched<L, P, E>
  {
    if listeners == [] then Dispatched(st, [], Completed)
    else if stoppable && st.stopped then Dispatched(st, [StopCheck(true)], Stopped)
    else
      var called := Poll(stoppable) + [Invoke(listeners[0])];
      match run(listeners[0], st)
      case Threw(s, e) => Dispatched(s, called, Failed(e))
      case Returned(s) =>
        var rest := Deliver(stoppable, listeners[1..], s, run);
        Dispatched(rest.state, called + rest.trace, rest.status)
  }

  /** The trace of a delivery in which every listener of `listeners` runs. */
  function Calls<L>(stoppable: bool, listeners: seq<L>): seq<Step<L>>
  {
    if listeners == [] then []
    else Poll(stoppable) + [Invoke(listeners[0])] + Calls(stoppable, listeners[1..])
  }

  /** The listener lists of `providers` for an event of `classes`, one per provider, in order. */
  function Queries<L>(providers: seq<ListenerProvider<L>>, classes: set<TypeName>): (lists: seq<seq<L>>)
    reads providers
    ensures |lists| == |providers|
    ensures forall k :: 0 <= k < |providers| ==> lists[k] == Suitable(providers[k].listeners, classes)
  {
    if providers == [] then []
    else
      var n := |providers| - 1;
      Queries(providers[..n], classes) + [Suitable(providers[n].listeners, classes)]
  }

  /** The concatenation of `lists`, in order. */
  function Flatten<T>(lists: seq<seq<T>>): seq<T>
  {
    if lists == [] then [] else lists[0] + Flatten(lists[1..])
  }

  /**
   * Delivering to `xs + ys` is delivering to `xs` and then, only if that
   * completed, to `ys` from the state `xs` left. A stop or a throw among `xs`
   * is final: no listener of `ys` runs and nothing more is checked.
   */
  lemma {:induction false} DeliverAppend<L, P, E>(stoppable: bool, xs: seq<L>, ys: seq<L>, st: EventState<P>,
                                                  run: (L, EventState<P>) -> Outcome<P, E>)
    ensures var d := Deliver(stoppable, xs, st, run);
      Deliver(stoppable, xs + ys, st, run) ==
        if d.status.Completed? then
          var e := Deliver(stoppable, ys, d.state, run);
          Dispatched(e.state, d.trace + e.trace, e.status)
        else d
  {
    if xs == [] {
      assert xs + ys == ys;
      assert [] + Deliver(stoppable, ys, st, run).trace == Deliver(stoppable, ys, st, run).trace;
    } else if !(stoppable && st.stopped) {
      var called := Poll(stoppable) + [Invoke(xs[0])];
      var o := run(xs[0], st);
      assert (xs + ys)[0] == xs[0] && (xs + ys)[1..] == xs[1..] + ys;
      if o.Returned? {
        var d1 := Deliver(stoppable, xs[1..], o.state, run);
        var whole := Deliver(stoppable, xs[1..] + ys, o.state, run);
        assert Deliver(stoppable, xs, st, run) == Dispatched(d1.state, called + d1.trace, d1.status);
        assert Deliver(stoppable, xs + ys, st, run) == Dispatched(whole.state, called + whole.trace, whole.status);
        if d1.status.Completed? {
          var e := Deliver(stoppable, ys, d1.state, run);
          assert whole == Dispatched(e.state, d1.trace + e.trace, e.status) by {
            DeliverAppend(stoppable, xs[1..], ys, o.state, run);
          }
          assert called + (d1.trace + e.trace) == (called + d1.trace) + e.trace;
        } else {
          assert whole == d1 by {
            DeliverAppend(stoppable, xs[1..], ys, o.state, run);
          }
        }
      }
    }
  }

  /** `Calls` of a concatenation is the concatenation of the `Calls`. */
  lemma {:induction false} CallsAppend<L>(stoppable: bool, xs: seq<L>, ys: seq<L>)
    ensures Calls(stoppable, xs + ys) == Calls(stoppable, xs) + Calls(stoppable, ys)
  {
    if xs == [] {
      assert xs + ys == ys;
    } else {
      assert (xs + ys)[1..] == xs[1..] + ys;
      CallsAppend(stoppable, xs[1..], ys);
    }
  }

  /** Without stop checks, a full run's trace lists each listener once, in order. */
  lemma {:induction false} CallsUnpolled<L>(listeners: seq<L>)
    ensures |Calls(false, listeners)| == |listeners|
    ensures forall k :: 0 <= k < |listeners| ==> Calls(false, listeners)[k] == Invoke(listeners[k])
  {
    if listeners != [] {
      var tail := listeners[1..];
      CallsUnpolled(tail);
      assert Calls(false, listeners) == [Invoke(listeners[0])] + Calls(false, tail);
      assert forall k :: 1 <= k < |listeners| ==> listeners[k] == tail[k - 1];
    }
  }

  /**
   * With stop checks, a full run's trace alternates: every invocation of a
   * listener is immediately preceded by a check that answered `false`.
   */
  lemma {:induction false} CallsPolled<L>(listeners: seq<L>)
    ensures |Calls(true, listeners)| == 2 * |listeners|
    ensures forall k :: 0 <= k < |listeners| ==>
      Calls(true, listeners)[2 * k] == StopCheck(false) && Calls(true, listeners)[2 * k + 1] == Invoke(listeners[k])
  {
    if listeners != [] {
      var tail := listeners[1..];
      CallsPolled(tail);
      var c, ct := Calls(true, listeners), Calls(true, tail);
      assert c == [StopCheck(false), Invoke(listeners[0])] + ct;
      forall k | 1 <= k < |listeners|
        ensures c[2 * k] == StopCheck(false) && c[2 * k + 1] == Invoke(listeners[k])
      {
        assert listeners[k] == tail[k - 1];
        assert c[2 * k] == ct[2 * (k - 1)];
        assert c[2 * k + 1] == ct[2 * (k - 1) + 1];
      }
    }
  }

  /**
   * A delivery that completes has run every listener exactly once, in order,
   * each after a check answering `false` if the event is stoppable. An event
   * that is not stoppable is never stopped.
   */
  lemma {:induction false} CompletedRunsAll<L, P, E>(stoppable: bool, listeners: seq<L>, st: EventState<P>,
                                                     run: (L, EventState<P>) -> Outcome<P, E>)
    ensures var d := Deliver(stoppable, listeners, st, run);
      && (d.status.Completed? ==> d.trace == Calls(stoppable, listeners))
      && (!stoppable ==> !d.status.Stopped?)
  {
    if listeners != [] && !(stoppable && st.stopped) {
      match run(listeners[0], st)
      case Threw(s, e) =>
      case Returned(s) =>
        CompletedRunsAll(stoppable, listeners[1..], s, run);
    }
  }

  /** The calls a full run makes for each list of `lists`, list by list. */
  function CallsEach<L>(stoppable: bool, lists: seq<seq<L>>): (each: seq<seq<Step<L>>>)
    ensures |each| == |lists|
    ensures forall k :: 0 <= k < |lists| ==> each[k] == Calls(stoppable, lists[k])
  {
    if lists == [] then [] else [Calls(stoppable, lists[0])] + CallsEach(stoppable, lists[1..])
  }

  /**
   * A full run over the concatenated lists makes, provider by provider and in
   * provider order, the calls a full run over each list makes.
   */
  lemma {:induction false} CallsFlatten<L>(stoppable: bool, lists: seq<seq<L>>)
    ensures Calls(stoppable, Flatten(lists)) == Flatten(CallsEach(stoppable, lists))
  {
    if lists != [] {
      CallsAppend(stoppable, lists[0], Flatten(lists[1..]));
      CallsFlatten(stoppable, lists[1..]);
    }
  }

  /**
   * Dispatching an event that is not stoppable over the providers' lists
   * `lists` never stops; unless a listener throws it invokes every listener
   * of every list exactly once, list after list, and does nothing else.
   */
  lemma UnstoppableRunsEveryListener<L, P, E>(lists: seq<seq<L>>, st: EventState<P>,
                                              run: (L, EventState<P>) -> Outcome<P, E>)
    ensures var all, d := Flatten(lists), Deliver(false, Flatten(lists), st, run);
      && !d.status.Stopped?
      && (d.status.Completed? ==>
            && d.trace == Flatten(CallsEach(false, lists))
            && |d.trace| == |all|
            && forall k :: 0 <= k < |all| ==> d.trace[k] == Invoke(all[k]))
  {
    CompletedRunsAll(false, Flatten(lists), st, run);
    CallsUnpolled(Flatten(lists));
    CallsFlatten(false, lists);
  }

  /** How many listeners returned normally before a delivery ended. */
  ghost function Progress<L, P, E>(stoppable: bool, listeners: seq<L>, st: EventState<P>,
                                   run: (L, EventState<P>) -> Outcome<P, E>): (k: nat)
    ensures k <= |listeners|
  {
    if listeners == [] || (stoppable && st.stopped) then 0
    else
      match run(listeners[0], st)
      case Threw(_, _) => 0
      case Returned(s) => 1 + Progress(stoppable, listeners[1..], s, run)
  }

  /**
   * The first `k` listeners, `k` being the progress, complete, and from the
   * state they leave the remaining listeners make no progress at all.
   */
  lemma {:induction false} ProgressPrefix<L, P, E>(stoppable: bool, listeners: seq<L>, st: EventState<P>,
                                                   run: (L, EventState<P>) -> Outcome<P, E>)
    ensures var k := Progress(stoppable, listeners, st, run);
      var before := Deliver(stoppable, listeners[..k], st, run);
      && before.status.Completed?
      && Progress(stoppable, listeners[k..], before.state, run) == 0
  {
    if listeners == [] || (stoppable && st.stopped) {
      assert listeners[..0] == [] && listeners[0..] == listeners;
    } else {
      match run(listeners[0], st)
      case Threw(_, _) =>
        assert listeners[..0] == [] && listeners[0..] == listeners;
      case Returned(s) =>
        var tail := listeners[1..];
        ProgressPrefix(stoppable, tail, s, run);
        var k := Progress(stoppable, tail, s, run);
        var b := Deliver(stoppable, tail[..k], s, run);
        assert listeners[..k + 1][0] == listeners[0] && listeners[..k + 1][1..] == tail[..k];
        assert Deliver(stoppable, listeners[..k + 1], st, run).state == b.state;
        assert listeners[k + 1..] == tail[k..];
    }
  }

  /**
   * Every delivery is a completed delivery to the first `k` listeners (`k`
   * being its progress) followed by how it ended: it completed because `k`
   * is all of them, or the check before listener `k` answered `true`, or
   * listener `k` threw, in the state the earlier listeners left, the very
   * error the delivery reports.
   */
  lemma DeliverAtProgress<L, P, E>(stoppable: bool, listeners: seq<L>, st: EventState<P>,
                                   run: (L, EventState<P>) -> Outcome<P, E>)
    ensures var k, d := Progress(stoppable, listeners, st, run), Deliver(stoppable, listeners, st, run);
      var before := Deliver(stoppable, listeners[..k], st, run);
      && k <= |listeners|
      && before.status.Completed?
      && (d.status.Completed? ==> k == |listeners| && d == before)
      && (d.status.Stopped? ==>
            k < |listeners| && stoppable && before.state.stopped
            && d == Dispatched(before.state, before.trace + [StopCheck(true)], Stopped))
      && (d.status.Failed? ==>
            k < |listeners| && run(listeners[k], before.state) == Threw(d.state, d.status.error)
            && d.trace == before.trace + Poll(stoppable) + [Invoke(listeners[k])])
  {
    var k := Progress(stoppable, listeners, st, run);
    ProgressPrefix(stoppable, listeners, st, run);
    var before := Deliver(stoppable, listeners[..k], st, run);
    var rest := listeners[k..];
    var e := Deliver(stoppable, rest, before.state, run);
    assert Deliver(stoppable, listeners, st, run) == Dispatched(e.state, before.trace + e.trace, e.status) by {
      DeliverAppend(stoppable, listeners[..k], rest, st, run);
      assert listeners[..k] + rest == listeners;
    }
    if k == |listeners| {
      assert rest == [] && listeners[..k] == listeners;
      assert before.trace + [] == before.trace;
    } else {
      var l := rest[0];
      assert l == listeners[k];
      if !(stoppable && before.state.stopped) {
        var o := run(l, before.state);
        assert o.Threw?;
        assert e == Dispatched(o.state, Poll(stoppable) + [Invoke(l)], Failed(o.error));
        assert before.trace + (Poll(stoppable) + [Invoke(l)]) == before.trace + Poll(stoppable) + [Invoke(l)];
      }
    }
  }

  /**
   * A stopped delivery reached some listener `k` with the stop flag set: the
   * listeners before it ran as in a full run, the check before listener `k`
   * answered `true` and is the last call, and neither listener `k` nor any
   * later one ran.
   */
  lemma StopHalts<L, P, E>(stoppable: bool, listeners: seq<L>, st: EventState<P>,
                           run: (L, EventState<P>) -> Outcome<P, E>)
    ensures var d := Deliver(stoppable, listeners, st, run);
      d.status.Stopped? ==>
        && stoppable && d.state.stopped
        && exists k :: 0 <= k < |listeners|
             && Deliver(stoppable, listeners[..k], st, run) == Dispatched(d.state, Calls(stoppable, listeners[..k]), Completed)
             && d.trace == Calls(stoppable, listeners[..k]) + [StopCheck(true)]
  {
    var k := Progress(stoppable, listeners, st, run);
    DeliverAtProgress(stoppable, listeners, st, run);
    CompletedRunsAll(stoppable, listeners[..k], st, run);
  }

  /**
   * A failed delivery failed at some listener `k`: the listeners before it
   * ran as in a full run, listener `k` was invoked in the state they left and
   * threw exactly the error the delivery reports, what it changed before
   * throwing stays, and no later listener ran.
   */
  lemma FailFast<L, P, E>(stoppable: bool, listeners: seq<L>, st: EventState<P>,
                          run: (L, EventState<P>) -> Outcome<P, E>)
    ensures var d := Deliver(stoppable, listeners, st, run);
      d.status.Failed? ==>
        exists k :: 0 <= k < |listeners|
          && var before := Deliver(stoppable, listeners[..k], st, run);
          && before.status.Completed?
          && before.trace == Calls(stoppable, listeners[..k])
          && run(listeners[k], before.state) == Threw(d.state, d.status.error)
          && d.trace == Calls(stoppable, listeners[..k + 1])
  {
    var k := Progress(stoppable, listeners, st, run);
    DeliverAtProgress(stoppable, listeners, st, run);
    if Deliver(stoppable, listeners, st, run).status.Failed? {
      CompletedRunsAll(stoppable, listeners[..k], st, run);
      CallsAppend(stoppable, listeners[..k], [listeners[k]]);
      assert listeners[..k + 1] == listeners[..k] + [listeners[k]];
      assert Calls(stoppable, [listeners[k]]) == Poll(stoppable) + [Invoke(listeners[k])];
    }
  }

  /** One more listener after a completed prefix: its stop check and invocation extend the trace. */
  lemma DeliverOneMore<L, P, E>(stoppable: bool, before: seq<L>, l: L, st: EventState<P>,
                                run: (L, EventState<P>) -> Outcome<P, E>, now: EventState<P>, trace: seq<Step<L>>)
    requires Deliver(stoppable, before, st, run) == Dispatched(now, trace, Completed)
    requires !(stoppable && now.stopped)
    ensures var o := run(l, now);
      Deliver(stoppable, before + [l], st, run)
        == Dispatched(o.state, trace + Poll(stoppable) + [Invoke(l)], if o.Threw? then Failed(o.error) else Completed)
  {
    DeliverAppend(stoppable, before, [l], st, run);
  }

  /** A stop check answering `true` after a completed prefix ends the delivery, whatever follows. */
  lemma DeliverStopsAt<L, P, E>(stoppable: bool, before: seq<L>, rest: seq<L>, st: EventState<P>,
                                run: (L, EventState<P>) -> Outcome<P, E>, now: EventState<P>, trace: seq<Step<L>>)
    requires Deliver(stoppable, before, st, run) == Dispatched(now, trace, Completed)
    requires stoppable && now.stopped && rest != []
    ensures Deliver(stoppable, before + rest, st, run) == Dispatched(now, trace + [StopCheck(true)], Stopped)
  {
    DeliverAppend(stoppable, before, rest, st, run);
  }

  /** A delivery that failed on a prefix fails the same way on the whole. */
  lemma DeliverFailureFinal<L, P, E>(stoppable: bool, before: seq<L>, rest: seq<L>, st: EventState<P>,
                                     run: (L, EventState<P>) -> Outcome<P, E>)
    requires Deliver(stoppable, before, st, run).status.Failed?
    ensures Deliver(stoppable, before + rest, st, run) == Deliver(stoppable, before, st, run)
  {
    DeliverAppend(stoppable, before, rest, st, run);
  }

  /** Concatenating `lists` is concatenating `lists[..i]` and then `lists[i..]`. */
  lemma {:induction false} FlattenSplit<T>(lists: seq<seq<T>>, i: nat)
    requires i <= |lists|
    ensures Flatten(lists) == Flatten(lists[..i]) + Flatten(lists[i..])
  {
    if i == 0 {
      assert lists[..0] == [] && lists[0..] == lists;
    } else {
      FlattenSplit(lists[1..], i - 1);
      assert lists[..i][1..] == lists[1..][..i - 1];
      assert lists[1..][i - 1..] == lists[i..];
    }
  }

  /** One more list at the end of the concatenation. */
  lemma FlattenSnoc<T>(lists: seq<seq<T>>, i: nat)
    requires i < |lists|
    ensures Flatten(lists[..i + 1]) == Flatten(lists[..i]) + lists[i]
  {
    FlattenSplit(lists[..i + 1], i);
    assert lists[..i + 1][..i] == lists[..i];
    assert lists[..i + 1][i..] == [lists[i]];
  }

  /**
   * One provider's turn in the dispatch, after the lists before it completed
   * in state `now` with calls `trace`: delivering to its list `lists[i]`
   * either completes, and the completed prefix grows by that list, or it
   * stops or fails, and that is how the whole dispatch ends.
   */
  lemma DispatchNext<L, P, E>(stoppable: bool, lists: seq<seq<L>>, i: nat, st: EventState<P>,
                              run: (L, EventState<P>) -> Outcome<P, E>, now: EventState<P>, trace: seq<Step<L>>)
    requires i < |lists|
    requires Deliver(stoppable, Flatten(lists[..i]), st, run) == Dispatched(now, trace, Completed)
    ensures var e := Deliver(stoppable, lists[i], now, run);
      && (e.status.Completed? ==>
            Deliver(stoppable, Flatten(lists[..i + 1]), st, run) == Dispatched(e.state, trace + e.trace, Completed))
      && (!e.status.Completed? ==>
            Deliver(stoppable, Flatten(lists), st, run) == Dispatched(e.state, trace + e.trace, e.status))
  {
    FlattenSnoc(lists, i);
    DeliverAppend(stoppable, Flatten(lists[..i]), lists[i], st, run);
    if !Deliver(stoppable, lists[i], now, run).status.Completed? {
      FlattenSplit(lists, i + 1);
      DeliverAppend(stoppable, Flatten(lists[..i + 1]), Flatten(lists[i + 1..]), st, run);
    }
  }

  /** A PSR-14 event dispatcher over an ordered list of listener providers. */
  class EventDispatcher<L> {
    const providers: seq<ListenerProvider<L>>

    constructor (providers: seq<ListenerProvider<L>>)
      ensures this.providers == providers
    {
      this.providers := providers;
    }

    /**
     * `dispatch`: delivers `event` to the listeners of every provider, in
     * provider order, and returns the same event object, or the exception a
     * listener threw. The event ends in the state `Deliver` gives for the
     * concatenated listener lists, and `trace` is the calls that were made.
     */
    method Dispatch<P, E>(event: Event<P>, run: (L, EventState<P>) -> Outcome<P, E>)
      returns (r: Result<Event<P>, E>, ghost trace: seq<Step<L>>)
      modifies event
      ensures var d := Deliver(IsA(event.classes, StoppableEventInterface), Flatten(old(Queries(providers, event.classes))),
                               old(event.state), run);
        && event.state == d.state
        && trace == d.trace
        && r == if d.status.Failed? then Failure(d.status.error) else Success(event)
    {
      var isStoppable := IsA(event.classes, StoppableEventInterface);
      ghost var start := event.state;
      ghost var lists := Queries(providers, event.classes);
      trace := [];
      var i := 0;
      assert Flatten(lists[..0]) == [] by {
        assert lists[..0] == [];
      }
      while i < |providers|
        invariant 0 <= i <= |providers|
        invariant Deliver(isStoppable, Flatten(lists[..i]), start, run) == Dispatched(event.state, trace, Completed)
      {
        var listeners := providers[i].GetListenersForEvent(event);
        assert listeners == lists[i] by {
          assert providers[i].listeners == old(providers[i].listeners);
        }
        ghost var now, traced := event.state, trace;
        var status, called := Notify(event, isStoppable, listeners, run);
        trace := trace + called;
        if !status.Completed? {
          assert Deliver(isStoppable, Flatten(lists), start, run) == Dispatched(event.state, trace, status) by {
            DispatchNext(isStoppable, lists, i, start, run, now, traced);
          }
          if status.Failed? {
            r := Failure(status.error);
            return;
          }
          break;
        }
        assert Deliver(isStoppable, Flatten(lists[..i + 1]), start, run) == Dispatched(event.state, trace, Completed) by {
          DispatchNext(isStoppable, lists, i, start, run, now, traced);
        }
        i := i + 1;
      }
      if i == |providers| {
        assert Deliver(isStoppable, Flatten(lists), start, run) == Dispatched(event.state, trace, Completed) by {
          assert lists[..i] == lists;
        }
      }
      r := Success(event);
    }

    /**
     * The inner loop of `dispatch`, over one provider's `listeners`: before
     * each listener a stoppable event is asked whether propagation is
     * stopped, and a `true` ends the whole dispatch (`Stopped`); otherwise
     * the listener runs on the event, and an exception it throws ends the
     * dispatch too (`Failed`). The event ends as `Deliver` says.
     */
    static method Notify<P, E>(event: Event<P>, isStoppable: bool, listeners: seq<L>,
                               run: (L, EventState<P>) -> Outcome<P, E>)
      returns (status: Status<E>, ghost trace: seq<Step<L>>)
      modifies event
      ensures Deliver(isStoppable, listeners, old(event.state), run) == Dispatched(event.state, trace, status)
    {
      ghost var start := event.state;
      trace := [];
      assert listeners[..0] == [];
      for j := 0 to |listeners|
        invariant Deliver(isStoppable, listeners[..j], start, run) == Dispatched(event.state, trace, Completed)
      {
        ghost var now, traced := event.state, trace;
        assert listeners[..j] + listeners[j..] == listeners;
        if isStoppable {
          var stopped := event.IsPropagationStopped();
          if stopped {
            trace := trace + [StopCheck(true)];
            assert Deliver(isStoppable, listeners, start, run) == Dispatched(event.state, trace, Stopped) by {
              DeliverStopsAt(isStoppable, listeners[..j], listeners[j..], start, run, now, traced);
            }
            return Stopped, trace;
          }
        }
        var listener := listeners[j];
        trace := trace + Poll(isStoppable) + [Invoke(listener)];
        var outcome := run(listener, event.state);
        event.state := outcome.state;
        assert listeners[..j + 1] == listeners[..j] + [listener];
        if outcome.Threw? {
          assert Deliver(isStoppable, listeners, start, run) == Dispatched(event.state, trace, Failed(outcome.error)) by {
            DeliverOneMore(isStoppable, listeners[..j], listener, start, run, now, traced);
            DeliverFailureFinal(isStoppable, listeners[..j + 1], listeners[j + 1..], start, run);
            assert listeners[..j + 1] + listeners[j + 1..] == listeners;
          }
          return Failed(outcome.error), trace;
        }
        assert Deliver(isStoppable, listeners[..j + 1], start, run) == Dispatched(event.state, trace, Completed) by {
          DeliverOneMore(isStoppable, listeners[..j], listener, start, run, now, traced);
        }
      }
      assert listeners[..|listeners|] == listeners;
      status := Completed;
    }
  }
}
