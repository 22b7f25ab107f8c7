/** The value shapes the newer engine passes between the machine and user code: what a
    transition task and an action return, a declared transition, the configuration, and the
    cell holding the extended state. */
module KtTypes {
  import opened Wrappers

  /** Result of a transition task: the new extended state (always present) and an optional
      override of the transition's declared next state. */
  datatype TransitionTaskResult<S, X> = TransitionTaskResult(extendedState: X, nextState: Option<S>)

  /** Result of an arrival or exit action: the new extended state and an optional event the
      machine processes right after the arrival. */
  datatype ActionResult<E, X> = ActionResult(extendedState: X, eventToTrigger: Option<E>)

  /** A task sees the event and the store; the store is passed by the value it currently holds,
      because user code can only read it (its setter is internal to the engine). A task may throw. */
  type TransitionTask<!E, S, !X> = (E, X) -> Result<TransitionTaskResult<S, X>>

  /** An arrival or exit action; same inputs as a task, may throw. */
  type Action<!E, !X> = (E, X) -> Result<ActionResult<E, X>>

  /** A declared transition: an optional target (absent means "stay unless the transition task
      overrides") and an optional task. */
  datatype StateTransition<S, !X, !E> = StateTransition(next: Option<S>, task: Option<TransitionTask<E, S, X>>)

  datatype StateMachineConfig = StateMachineConfig(throwExceptionOnUnrecognizedEvent: bool)

  /** The configuration used when none is given: unrecognized events are silently ignored. */
  function DefaultConfig(): (c: StateMachineConfig)
    ensures !c.throwExceptionOnUnrecognizedEvent
  {
    StateMachineConfig(false)
  }

  /** The single mutable cell for the extended state, shared by the machine and every vertex.
      Only the engine writes `extState`; everybody else reads `ExtendedState()`. */
  class ExtendedStateStore<X> {
    var extState: X

    constructor (initial: X)
      ensures extState == initial
    {
      extState := initial;
    }

    function ExtendedState(): (x: X)
      reads this
      ensures x == extState
    {
      extState
    }
  }
}
