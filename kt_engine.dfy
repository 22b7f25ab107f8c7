/** The newer engine's event processing. `Step` and `Process` state, as functions, what one call
    of `processEvent` does; the class `StateMachine` does it in place and is proved to agree. */
module KtEngine {
  import opened Wrappers
  import opened KtTypes
  import opened KtVertex

  /** The immutable part of a machine: the vertex table, the super ("apply to all states")
      vertex, the configuration, and the map from an event to its class. */
  datatype Definition<S, !X, !E, K> = Definition(
    vertices: map<S, Vertex<S, X, E, K>>,
    superVertex: Vertex<S, X, E, K>,
    config: StateMachineConfig,
    tagOf: E -> K)

  /** What the builder guarantees: every vertex is registered under its own state, and the
      super vertex has no state. */
  ghost predicate WellFormed<S, X, E, K>(d: Definition<S, X, E, K>) {
    && (forall s :: s in d.vertices ==> d.vertices[s].state == Some(s))
    && d.superVertex.state.None?
  }

  /** A call into user code, with the extended state it was given. `at == None` in an
      `ArrivalCall` is the super vertex's arrival action. */
  datatype Call<S, X, E> =
    | TaskCall(event: E, input: X)
    | ExitCall(from: S, event: E, input: X)
    | ArrivalCall(at: Option<S>, event: E, input: X)

  /** How a call of `processEvent` ended. `Completed` is a normal return; the others are the
      exception it throws: the unrecognized-event error, the failed `vertices[next]!!` lookup,
      an exception from a task or an action, and the exhausted propagation depth. */
  datatype Status<S> =
    | Completed
    | UnrecognizedEvent
    | NoVertexFor(state: S)
    | CallbackThrew(message: string)
    | ChainTooLong

  /** Where one call (with the events it propagated) left the machine, and the user code it ran. */
  datatype Trace<S, X, E> = Trace(state: S, ext: X, status: Status<S>, calls: seq<Call<S, X, E>>)

  /** One event's effect, before any propagated event is processed. */
  datatype Stepped<S, X, E> = Stepped(trace: Trace<S, X, E>, trigger: Option<E>)

  /** The transition for the event's class: the current vertex's if it has one, else the super
      vertex's, else none. */
  function FindTransition<S, X, E, K>(d: Definition<S, X, E, K>, here: Vertex<S, X, E, K>, event: E): (r: Option<StateTransition<S, X, E>>)
    ensures d.tagOf(event) in here.transitions ==> r == Some(here.transitions[d.tagOf(event)])
    ensures d.tagOf(event) !in here.transitions && d.tagOf(event) in d.superVertex.transitions
            ==> r == Some(d.superVertex.transitions[d.tagOf(event)])
    ensures r.None? <==> d.tagOf(event) !in here.transitions && d.tagOf(event) !in d.superVertex.transitions
  {
    var tag := d.tagOf(event);
    if tag in here.transitions then Some(here.transitions[tag])
    else if tag in d.superVertex.transitions then Some(d.superVertex.transitions[tag])
    else None
  }

  /** The unrecognized-event policy: the call fails exactly when the configuration says so. */
  function HandleUnknownEvent<S>(config: StateMachineConfig): (status: Status<S>)
    ensures status == UnrecognizedEvent <==> config.throwExceptionOnUnrecognizedEvent
    ensures status == Completed <==> !config.throwExceptionOnUnrecognizedEvent
  {
    if config.throwExceptionOnUnrecognizedEvent then UnrecognizedEvent else Completed
  }

  /** The state the machine moves to: the transition task's override, else the declared target, else the
      current state. */
  function NextState<S, X>(taskResult: Option<TransitionTaskResult<S, X>>, declared: Option<S>, current: S): (next: S)
    ensures taskResult.Some? && taskResult.value.nextState.Some? ==> next == taskResult.value.nextState.value
    ensures (taskResult.None? || taskResult.value.nextState.None?) && declared.Some? ==> next == declared.value
    ensures (taskResult.None? || taskResult.value.nextState.None?) && declared.None? ==> next == current
  {
    if taskResult.Some? && taskResult.value.nextState.Some? then taskResult.value.nextState.value
    else if declared.Some? then declared.value
    else current
  }

  /** The exit action runs only when the transition task overrode the next state with a different state;
      a declared target alone never triggers it. */
  predicate ExitRuns<S(==), X>(taskResult: Option<TransitionTaskResult<S, X>>, current: S)
    ensures ExitRuns(taskResult, current) ==> NextState(taskResult, None, current) != current
    ensures !ExitRuns(taskResult, current) && taskResult.Some? && taskResult.value.nextState.Some? ==>
      NextState(taskResult, None, current) == current
    ensures taskResult.None? || taskResult.value.nextState.None? ==> !ExitRuns(taskResult, current)
  {
    taskResult.Some? && taskResult.value.nextState.Some? && taskResult.value.nextState.value != current
  }

  /** The extended state after the transition task's result is committed (unchanged without a task). */
  function Committed<S, X>(taskResult: Option<TransitionTaskResult<S, X>>, x: X): X {
    if taskResult.Some? then taskResult.value.extendedState else x
  }

  /** The arrival actually run on entering `there`: its own action, else the super vertex's,
      else none; paired with the call it records. */
  function ArrivalCalls<S, X, E, K>(d: Definition<S, X, E, K>, next: S, there: Vertex<S, X, E, K>, event: E, x: X): seq<Call<S, X, E>> {
    if there.onArrival.Some? then [ArrivalCall(Some(next), event, x)]
    else if d.superVertex.onArrival.Some? then [ArrivalCall(None, event, x)]
    else []
  }

  /** The arrival result committed on entering `there`: its own action's, else the super
      vertex's, else "unchanged, no event". */
  function ArrivalResult<S, X, E, K>(d: Definition<S, X, E, K>, there: Vertex<S, X, E, K>, event: E, x: X): (r: Result<ActionResult<E, X>>)
    ensures there.onArrival.Some? ==> r == there.onArrival.value(event, x)
    ensures there.onArrival.None? && d.superVertex.onArrival.Some? ==> r == d.superVertex.onArrival.value(event, x)
    ensures there.onArrival.None? && d.superVertex.onArrival.None? ==> r == Ok(ActionResult(x, None))
  {
    match Arrive(there, event, x)
    case Some(r) => r
    case None =>
      match Arrive(d.superVertex, event, x)
      case Some(r) => r
      case None => Ok(ActionResult(x, None))
  }

  /** The effect of one event, from the current state `current` with extended state `x`:
      lookup, task and its commit, conditional exit (result discarded), move, arrival and its
      commit. A propagated event is returned in `trigger`, not processed. */
  function Step<S(==), X, E, K>(d: Definition<S, X, E, K>, current: S, x: X, event: E): (r: Stepped<S, X, E>)
    requires current in d.vertices
    ensures r.trace.state in d.vertices
    ensures r.trigger.Some? ==> r.trace.status == Completed
    ensures r.trace.status != ChainTooLong
  {
    var here := d.vertices[current];
    match FindTransition(d, here, event)
    case None => Stepped(Trace(current, x, HandleUnknownEvent(d.config), []), None)
    case Some(t) =>
      var taskCalls := if t.task.Some? then [TaskCall(event, x)] else [];
      var taskOutcome := if t.task.Some? then t.task.value(event, x) else Ok(TransitionTaskResult(x, None));
      if taskOutcome.Thrown? then Stepped(Trace(current, x, CallbackThrew(taskOutcome.message), taskCalls), None)
      else
        var taskResult := if t.task.Some? then Some(taskOutcome.value) else None;
        var x1 := Committed(taskResult, x);
        var exited := if ExitRuns(taskResult, current) then Exit(here, event, x1) else None;
        var calls1 := taskCalls + (if exited.Some? then [ExitCall(current, event, x1)] else []);
        if exited.Some? && exited.value.Thrown? then Stepped(Trace(current, x1, CallbackThrew(exited.value.message), calls1), None)
        else
          var next := NextState(taskResult, t.next, current);
          if next !in d.vertices then Stepped(Trace(current, x1, NoVertexFor(next), calls1), None)
          else
            var there := d.vertices[next];
            var calls2 := calls1 + ArrivalCalls(d, next, there, event, x1);
            match ArrivalResult(d, there, event, x1)
            case Thrown(m) => Stepped(Trace(next, x1, CallbackThrew(m), calls2), None)
            case Ok(result) => Stepped(Trace(next, result.extendedState, Completed, calls2), result.eventToTrigger)
  }

  /** One call of `processEvent` with at most `fuel` nested calls: the event's step, then the
      propagated event (if any) processed before returning. */
  function Process<S(==), X, E, K>(d: Definition<S, X, E, K>, current: S, x: X, event: E, fuel: nat): (r: Trace<S, X, E>)
    requires current in d.vertices
    ensures r.state in d.vertices
    decreases fuel
  {
    if fuel == 0 then Trace(current, x, ChainTooLong, [])
    else
      var s := Step(d, current, x, event);
      match s.trigger
      case None => s.trace
      case Some(e) =>
        var rest := Process(d, s.trace.state, s.trace.ext, e, fuel - 1);
        Trace(rest.state, rest.ext, rest.status, s.trace.calls + rest.calls)
  }

  /** A call whose step propagates an event ends where processing that event from the step's
      state ends, having run the step's user code first. */
  lemma ProcessAfterStep<S, X, E, K>(d: Definition<S, X, E, K>, current: S, x: X, event: E, fuel: nat,
                                     s: Stepped<S, X, E>, rest: Trace<S, X, E>)
    requires current in d.vertices && fuel > 0 && s == Step(d, current, x, event) && s.trigger.Some?
    requires rest == Process(d, s.trace.state, s.trace.ext, s.trigger.value, fuel - 1)
    ensures Process(d, current, x, event, fuel) == Trace(rest.state, rest.ext, rest.status, s.trace.calls + rest.calls)
  {
  }

  /** Concatenating call records is associative. */
  lemma AppendAssociates<T>(a: seq<T>, b: seq<T>, c: seq<T>)
    ensures a + (b + c) == (a + b) + c
  {
  }

  /** The running machine: the current vertex and the shared extended-state store change; the
      definition does not. `calls` records, in order, the user code run so far. */
  class StateMachine<S(==), X, E, K(==)> {
    const def: Definition<S, X, E, K>
    const store: ExtendedStateStore<X>
    var currentVertex: Vertex<S, X, E, K>
    ghost var calls: seq<Call<S, X, E>>

    /** The current vertex is a value of the vertex table, registered under its own state, so
        it is never the super vertex and its state is never null. */
    ghost predicate Valid()
      reads this
    {
      && WellFormed(def)
      && currentVertex.state.Some?
      && currentVertex.state.value in def.vertices
      && def.vertices[currentVertex.state.value] == currentVertex
    }

    function CurrentState(): (s: S)
      reads this
      requires Valid()
      ensures s in def.vertices && def.vertices[s] == currentVertex
    {
      currentVertex.state.value
    }

    function CurrentExtendedState(): (x: X)
      reads store
      ensures x == store.extState
    {
      store.ExtendedState()
    }

    /** The constructor proper: it needs a vertex for the starting state (see `Create`). */
    constructor (d: Definition<S, X, E, K>, extendedStateStore: ExtendedStateStore<X>, acceptingState: S)
      requires WellFormed(d) && acceptingState in d.vertices
      ensures Valid() && def == d && store == extendedStateStore && calls == []
      ensures CurrentState() == acceptingState
    {
      def := d;
      store := extendedStateStore;
      currentVertex := d.vertices[acceptingState];
      calls := [];
    }

    /** Construction: fails ("no configuration exists for starting state") exactly when the
        starting state has no vertex; otherwise the machine starts there with the store as is. */
    static method Create(d: Definition<S, X, E, K>, extendedStateStore: ExtendedStateStore<X>, acceptingState: S)
      returns (r: Option<StateMachine<S, X, E, K>>)
      requires WellFormed(d)
      ensures r.None? <==> acceptingState !in d.vertices
      ensures r.Some? ==> && fresh(r.value) && r.value.Valid() && r.value.def == d
                          && r.value.store == extendedStateStore && r.value.CurrentState() == acceptingState
                          && r.value.calls == []
    {
      if acceptingState !in d.vertices {
        return None;
      }
      var m := new StateMachine(d, extendedStateStore, acceptingState);
      return Some(m);
    }

    /** Lines 41-65 of `processEvent`: one event's lookup, task, exit, move and arrival, with
        every commit to the store. The propagated event, if any, is returned in `trigger`. */
    method Dispatch(event: E) returns (status: Status<S>, trigger: Option<E>)
      requires Valid()
      modifies this, store
      ensures Valid()
      ensures var s := Step(def, old(CurrentState()), old(store.extState), event);
              && CurrentState() == s.trace.state && store.extState == s.trace.ext
              && status == s.trace.status && trigger == s.trigger
              && calls == old(calls) + s.trace.calls
    {
      var from := CurrentState();
      var tag := def.tagOf(event);
      var transition;
      if tag in currentVertex.transitions {
        transition := currentVertex.transitions[tag];
      } else if tag in def.superVertex.transitions {
        transition := def.superVertex.transitions[tag];
      } else {
        return HandleUnknownEvent(def.config), None;
      }
      assert FindTransition(def, currentVertex, event) == Some(transition);
      status, trigger := Fire(event, transition);
    }

    /** Lines 45-65 of `processEvent`, once `transition` has been found for `event`. */
    method Fire(event: E, transition: StateTransition<S, X, E>) returns (status: Status<S>, trigger: Option<E>)
      requires Valid()
      requires FindTransition(def, currentVertex, event) == Some(transition)
      modifies this, store
      ensures Valid()
      ensures var s := Step(def, old(CurrentState()), old(store.extState), event);
              && CurrentState() == s.trace.state && store.extState == s.trace.ext
              && status == s.trace.status && trigger == s.trigger
              && calls == old(calls) + s.trace.calls
    {
      var from := CurrentState();
      ghost var x0 := store.extState;
      ghost var calls0 := calls;
      trigger := None;

      var transitionResult: Option<TransitionTaskResult<S, X>> := None;
      if transition.task.Some? {
        calls := calls + [TaskCall(event, store.extState)];
        var outcome := transition.task.value(event, store.ExtendedState());
        if outcome.Thrown? {
          return CallbackThrew(outcome.message), None;
        }
        transitionResult := Some(outcome.value);
      }
      ghost var taskCalls := calls[|calls0|..];
      assert calls == calls0 + taskCalls;
      ghost var exitCalls: seq<Call<S, X, E>> := [];
      if transitionResult.Some? {
        store.extState := transitionResult.value.extendedState;
      }
      assert store.extState == Committed(transitionResult, x0);

      // The exit action runs only for a task override to another state; its result is dropped.
      if ExitRuns(transitionResult, from) {
        var exited := Exit(currentVertex, event, store.ExtendedState());
        if exited.Some? {
          exitCalls := [ExitCall(from, event, store.extState)];
          calls := calls + exitCalls;
          AppendAssociates(calls0, taskCalls, exitCalls);
          if exited.value.Thrown? {
            return CallbackThrew(exited.value.message), None;
          }
        }
      }

      var next := NextState(transitionResult, transition.next, from);
      if next !in def.vertices {
        return NoVertexFor(next), None;
      }
      currentVertex := def.vertices[next];

      ghost var x1 := store.extState;
      ghost var calls1 := calls;
      var arrived := Arrive(currentVertex, event, store.ExtendedState());
      if arrived.Some? {
        calls := calls + [ArrivalCall(Some(next), event, store.extState)];
      } else {
        arrived := Arrive(def.superVertex, event, store.ExtendedState());
        if arrived.Some? {
          calls := calls + [ArrivalCall(None, event, store.extState)];
        }
      }
      assert calls == calls1 + ArrivalCalls(def, next, currentVertex, event, x1);
      AppendAssociates(calls0, taskCalls + exitCalls, ArrivalCalls(def, next, currentVertex, event, x1));
      var result: ActionResult<E, X>;
      if arrived.None? {
        result := ActionResult(store.ExtendedState(), None);
      } else if arrived.value.Thrown? {
        return CallbackThrew(arrived.value.message), None;
      } else {
        result := arrived.value.value;
      }
      assert ArrivalResult(def, currentVertex, event, x1) == Ok(result);
      store.extState := result.extendedState;
      status, trigger := Completed, result.eventToTrigger;
    }

    /** `processEvent`, allowed `fuel` nested calls for propagated events: it updates the
        current vertex and the store exactly as `Process` says and records the user code run. */
    method ProcessEvent(event: E, fuel: nat) returns (status: Status<S>)
      requires Valid()
      modifies this, store
      decreases fuel
      ensures Valid()
      ensures var t := Process(def, old(CurrentState()), old(store.extState), event, fuel);
              && CurrentState() == t.state && store.extState == t.ext && status == t.status
              && calls == old(calls) + t.calls
    {
      if fuel == 0 {
        return ChainTooLong;
      }
      ghost var from, x0, before := CurrentState(), store.extState, calls;
      ghost var s := Step(def, from, x0, event);
      var trigger;
      status, trigger := Dispatch(event);
      if trigger.Some? {
        ghost var rest := Process(def, s.trace.state, s.trace.ext, trigger.value, fuel - 1);
        status := ProcessEvent(trigger.value, fuel - 1);
        ProcessAfterStep(def, from, x0, event, fuel, s, rest);
        AppendAssociates(before, s.trace.calls, rest.calls);
      }
    }
  }
}
