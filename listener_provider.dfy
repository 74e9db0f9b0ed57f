/**
 * The listener provider: an ordered registry of (listener, accepted type)
 * pairs built once from a list of callables, and the query that selects,
 * in registration order, the listeners applicable to an event.
 *
 * PHP reflection is replaced by what it reports: a candidate listener comes
 * with the list of its parameters, each with its declared type name if it
 * has one. Listeners themselves are opaque values of type `L`.
 */
module Provider {
  import opened Wrappers
  import opened Events

  /** The pseudo-type `object`, which every event satisfies. */
  const ObjectType: TypeName := "object"

  /** A reflected parameter: `hasType()` and the string form of `getType()`. */
  datatype Parameter = Parameter(declaredType: Option<TypeName>)

  /** A callable handed to the provider, with the parameters reflection reports for it. */
  datatype Candidate<L> = Candidate(callable: L, parameters: seq<Parameter>)

  /** A stored registration; `accepted == None` means the listener accepts every event. */
  datatype Registration<L> = Registration(listener: L, accepted: Option<TypeName>)

  datatype InvalidArgumentException = InvalidArgumentException(message: string)

  /** The one exception the provider throws, for a listener without exactly one parameter. */
  const NotUnary := InvalidArgumentException("Listeners must have only one parameter.")

  /** The type a listener's parameter restricts events to, after normalising `object` away. */
  function AcceptedType(declared: Option<TypeName>): (accepted: Option<TypeName>)
    ensures accepted.None? <==> declared.None? || declared == Some(ObjectType)
    ensures accepted.Some? ==> accepted == declared
  {
    if declared == Some(ObjectType) then None else declared
  }

  /** The registration `addListener` stores for a candidate, or the exception it throws. */
  function Register<L>(c: Candidate<L>): (r: Result<Registration<L>, InvalidArgumentException>)
    ensures r.Success? <==> |c.parameters| == 1
    ensures r.Failure? ==> r.error == NotUnary
    ensures r.Success? ==> r.value.listener == c.callable
    ensures r.Success? ==> r.value.accepted == AcceptedType(c.parameters[0].declaredType)
  {
    if 1 < |c.parameters| || |c.parameters| == 0 then Failure(NotUnary)
    else Success(Registration(c.callable, AcceptedType(c.parameters[0].declaredType)))
  }

  /** Every candidate takes exactly one parameter. */
  predicate AllUnary<L>(cs: seq<Candidate<L>>)
  {
    forall i :: 0 <= i < |cs| ==> |cs[i].parameters| == 1
  }

  /**
   * The registry the constructor builds from `cs`, registering the candidates
   * in order: one registration per candidate, or the exception as soon as one
   * candidate is rejected.
   */
  function RegisterAll<L>(cs: seq<Candidate<L>>): (r: Result<seq<Registration<L>>, InvalidArgumentException>)
    ensures r.Success? <==> AllUnary(cs)
    ensures r.Failure? ==> r.error == NotUnary
    ensures r.Success? ==> |r.value| == |cs|
    ensures r.Success? ==> forall i :: 0 <= i < |cs| ==> Register(cs[i]) == Success(r.value[i])
  {
    if cs == [] then Success([])
    else
      match RegisterAll(cs[..|cs| - 1])
      case Failure(e) => Failure(e)
      case Success(earlier) =>
        match Register(cs[|cs| - 1])
        case Failure(e) => Failure(e)
        case Success(reg) => Success(earlier + [reg])
  }

  /** The test of `getListenersForEvent`: an untyped registration, or the event is of its type. */
  predicate Matches<L>(reg: Registration<L>, classes: set<TypeName>)
  {
    reg.accepted.None? || IsA(classes, reg.accepted.value)
  }

  /** The listeners of `registry` that apply to an event of `classes`, in registration order. */
  function Suitable<L>(registry: seq<Registration<L>>, classes: set<TypeName>): (r: seq<L>)
    ensures |r| <= |registry|
  {
    if registry == [] then []
    else
      (if Matches(registry[0], classes) then [registry[0].listener] else [])
      + Suitable(registry[1..], classes)
  }

  /** Filtering a registry split in two is filtering each part. */
  lemma {:induction false} SuitableAppend<L>(xs: seq<Registration<L>>, ys: seq<Registration<L>>, classes: set<TypeName>)
    ensures Suitable(xs + ys, classes) == Suitable(xs, classes) + Suitable(ys, classes)
  {
    if xs == [] {
      assert xs + ys == ys;
    } else {
      var head := if Matches(xs[0], classes) then [xs[0].listener] else [];
      assert (xs + ys)[0] == xs[0] && (xs + ys)[1..] == xs[1..] + ys;
      assert Suitable(xs + ys, classes) == head + Suitable(xs[1..] + ys, classes);
      SuitableAppend(xs[1..], ys, classes);
      assert head + (Suitable(xs[1..], classes) + Suitable(ys, classes))
             == (head + Suitable(xs[1..], classes)) + Suitable(ys, classes);
    }
  }

  /** The positions of the registrations that match, in increasing order. */
  ghost function Selection<L>(registry: seq<Registration<L>>, classes: set<TypeName>): seq<nat>
  {
    if registry == [] then []
    else
      var n := |registry| - 1;
      Selection(registry[..n], classes) + (if Matches(registry[n], classes) then [n] else [])
  }

  /**
   * The query keeps exactly the matching registrations, in the order they
   * were registered: its k-th listener is the one registered at position
   * `Selection(...)[k]`, the positions increase, and a position is selected
   * if and only if its registration matches.
   */
  lemma {:induction false} SuitableIsOrderedSelection<L>(registry: seq<Registration<L>>, classes: set<TypeName>)
    ensures var sel, r := Selection(registry, classes), Suitable(registry, classes);
      && |sel| == |r|
      && (forall k :: 0 <= k < |sel| ==> sel[k] < |registry| && r[k] == registry[sel[k]].listener)
      && (forall k, m :: 0 <= k < m < |sel| ==> sel[k] < sel[m])
      && (forall i :: 0 <= i < |registry| ==> (i in sel <==> Matches(registry[i], classes)))
  {
    if registry != [] {
      var n := |registry| - 1;
      var front, last := registry[..n], registry[n];
      assert registry == front + [last];
      SuitableIsOrderedSelection(front, classes);
      SuitableAppend(front, [last], classes);
      var sel, r := Selection(registry, classes), Suitable(registry, classes);
      var sel0, r0 := Selection(front, classes), Suitable(front, classes);
      assert sel[..|sel0|] == sel0;
      assert r[..|r0|] == r0;
      forall k | 0 <= k < |sel|
        ensures sel[k] < |registry| && r[k] == registry[sel[k]].listener
      {
        if k < |sel0| {
          assert sel[k] == sel0[k] && r[k] == r0[k];
        }
      }
      forall i | 0 <= i < |registry|
        ensures i in sel <==> Matches(registry[i], classes)
      {
        if i < n {
          assert registry[i] == front[i];
          assert i in sel <==> i in sel0;
        } else {
          assert n !in sel0;
        }
      }
    }
  }

  /** The query comes back empty exactly when no registration matches the event. */
  lemma {:induction false} NothingSuitable<L>(registry: seq<Registration<L>>, classes: set<TypeName>)
    ensures Suitable(registry, classes) == [] <==> forall i :: 0 <= i < |registry| ==> !Matches(registry[i], classes)
  {
    if registry != [] {
      NothingSuitable(registry[1..], classes);
      assert forall i :: 1 <= i < |registry| ==> registry[i] == registry[1..][i - 1];
    }
  }

  /**
   * A listener whose parameter is untyped or typed `object` is handed to
   * every event by a provider built from it.
   */
  lemma UniversalListenerAlwaysSuitable<L>(cs: seq<Candidate<L>>, i: nat, classes: set<TypeName>)
    requires AllUnary(cs)
    requires i < |cs|
    requires cs[i].parameters[0].declaredType in {None, Some(ObjectType)}
    ensures var registry := RegisterAll(cs).value;
      i in Selection(registry, classes) && cs[i].callable in Suitable(registry, classes)
  {
    var registry := RegisterAll(cs).value;
    assert Register(cs[i]) == Success(registry[i]);
    SuitableIsOrderedSelection(registry, classes);
    var sel := Selection(registry, classes);
    var k :| 0 <= k < |sel| && sel[k] == i;
    assert Suitable(registry, classes)[k] == cs[i].callable;
  }

  /** A PSR-14 listener provider over listeners of type `L`. */
  class ListenerProvider<L> {
    var listeners: seq<Registration<L>>

    /** A provider with nothing registered yet. */
    constructor Empty()
      ensures listeners == []
    {
      listeners := [];
    }

    /**
     * Builds a provider from `candidates`, registering them in order; throws
     * (returns Failure) if any candidate does not take exactly one parameter,
     * in which case no provider comes out.
     */
    static method Create(candidates: seq<Candidate<L>>) returns (r: Result<ListenerProvider<L>, InvalidArgumentException>)
      ensures r.Success? <==> AllUnary(candidates)
      ensures r.Failure? ==> r.error == NotUnary
      ensures r.Success? ==> fresh(r.value) && Success(r.value.listeners) == RegisterAll(candidates)
    {
      var provider := new ListenerProvider.Empty();
      for i := 0 to |candidates|
        invariant RegisterAll(candidates[..i]) == Success(provider.listeners)
      {
        assert candidates[..i + 1][..i] == candidates[..i];
        var thrown := provider.AddListener(candidates[i]);
        if thrown.Some? {
          assert !AllUnary(candidates[..i + 1]);
          r := Failure(thrown.value);
          return;
        }
      }
      assert candidates[..|candidates|] == candidates;
      r := Success(provider);
    }

    /** Appends the registration for `c`, or throws and leaves the registry as it was. */
    method AddListener(c: Candidate<L>) returns (thrown: Option<InvalidArgumentException>)
      modifies this
      ensures thrown.Some? <==> |c.parameters| != 1
      ensures thrown.Some? ==> thrown.value == NotUnary && listeners == old(listeners)
      ensures thrown.None? ==> listeners == old(listeners) + [Register(c).value]
    {
      var parameters := c.parameters;
      if 1 < |parameters| || |parameters| == 0 {
        return Some(NotUnary);
      }
      var t := parameters[0].declaredType;
      if t == Some(ObjectType) {
        t := None;
      }
      listeners := listeners + [Registration(c.callable, t)];
      thrown := None;
    }

    /** `getListenersForEvent`: the registered listeners applicable to `event`, in order. */
    method GetListenersForEvent<P>(event: Event<P>) returns (suitable: seq<L>)
      ensures suitable == Suitable(listeners, event.classes)
    {
      suitable := [];
      for i := 0 to |listeners|
        invariant suitable == Suitable(listeners[..i], event.classes)
      {
        assert listeners[..i + 1] == listeners[..i] + [listeners[i]];
        SuitableAppend(listeners[..i], [listeners[i]], event.classes);
        var reg := listeners[i];
        if reg.accepted.Some? && !IsA(event.classes, reg.accepted.value) {
          continue;
        }
        suitable := suitable + [reg.listener];
      }
      assert listeners[..|listeners|] == listeners;
    }
  }
}
