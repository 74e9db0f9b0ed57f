/**
 * Events as the dispatcher and the listener provider see them.
 *
 * An event is identified at runtime by its class. PHP's `is_a($event, $type)`
 * holds when `$type` names the event's class, one of its ancestors or one of
 * the interfaces it implements; the model gives each event that set of names
 * (`classes`) outright instead of modelling a class hierarchy.
 */
module Events {

  /** A class or interface name, as PHP's reflection renders it. */
  type TypeName = string

  /** The capability that makes an event stoppable. */
  const StoppableEventInterface: TypeName := "Psr\\EventDispatcher\\StoppableEventInterface"

  /** `is_a($event, $type)` for an event whose class, ancestors and interfaces are `classes`. */
  predicate IsA(classes: set<TypeName>, t: TypeName)
  {
    t in classes
  }

  /**
   * The part of an event that listeners may change: the propagation-stopped
   * flag reported by `isPropagationStopped()` and everything else (`payload`).
   */
  datatype EventState<P> = EventState(stopped: bool, payload: P)

  /** An event object; its identity is what `dispatch` hands back. */
  class Event<P> {
    const classes: set<TypeName>
    var state: EventState<P>

    constructor (classes: set<TypeName>, payload: P)
      ensures this.classes == classes
      ensures state == EventState(false, payload)
    {
      this.classes := classes;
      state := EventState(false, payload);
    }

    /** `isPropagationStopped()` of a stoppable event: it reports the flag and changes nothing. */
    method IsPropagationStopped() returns (stopped: bool)
      ensures stopped == state.stopped
    {
      stopped := state.stopped;
    }
  }
}
