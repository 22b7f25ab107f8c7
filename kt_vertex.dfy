/** A vertex of the newer engine: the state it stands for (absent only for the "apply to all
    states" super vertex), its transitions keyed by event class, and optional arrival and
    exit actions. Running an action never writes the store; the machine commits results. */
module KtVertex {
  import opened Wrappers
  import opened KtTypes

  /** `K` stands for the event class (`Class<out TEventBase>`) transitions are keyed by. */
  datatype Vertex<S, !X, !E, K> = Vertex(
    state: Option<S>,
    transitions: map<K, StateTransition<S, X, E>>,
    onArrival: Option<Action<E, X>>,
    onExit: Option<Action<E, X>>)

  /** Runs the arrival action on the event and the current extended state, if there is one;
      absent exactly when the vertex has no arrival action. */
  function Arrive<S, X, E, K>(v: Vertex<S, X, E, K>, event: E, extendedState: X): (r: Option<Result<ActionResult<E, X>>>)
    ensures r.None? <==> v.onArrival.None?
    ensures v.onArrival.Some? ==> r == Some(v.onArrival.value(event, extendedState))
  {
    match v.onArrival
    case None => None
    case Some(action) => Some(action(event, extendedState))
  }

  /** Runs the exit action on the event and the current extended state, if there is one;
      absent exactly when the vertex has no exit action. */
  function Exit<S, X, E, K>(v: Vertex<S, X, E, K>, event: E, extendedState: X): (r: Option<Result<ActionResult<E, X>>>)
    ensures r.None? <==> v.onExit.None?
    ensures v.onExit.Some? ==> r == Some(v.onExit.value(event, extendedState))
  {
    match v.onExit
    case None => None
    case Some(action) => Some(action(event, extendedState))
  }
}
