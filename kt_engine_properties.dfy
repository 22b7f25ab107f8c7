/** What the newer engine's event processing guarantees, proved about `Step` and `Process`. */
module KtEngineProperties {
  import opened Wrappers
  import opened KtTypes
  import opened KtVertex
  import opened KtEngine

  /** An event neither the current vertex nor the super vertex handles changes neither the
      state nor the extended state and runs no user code; the call fails exactly when the
      configuration asks for it. */
  lemma UnrecognizedEventChangesNothing<S, X, E, K>(d: Definition<S, X, E, K>, current: S, x: X, event: E, fuel: nat)
    requires current in d.vertices && fuel > 0
    requires d.tagOf(event) !in d.vertices[current].transitions && d.tagOf(event) !in d.superVertex.transitions
    ensures var r := Process(d, current, x, event, fuel);
            && r.state == current && r.ext == x && r.calls == []
            && (r.status == UnrecognizedEvent <==> d.config.throwExceptionOnUnrecognizedEvent)
            && (r.status == Completed <==> !d.config.throwExceptionOnUnrecognizedEvent)
  {
    assert FindTransition(d, d.vertices[current], event).None?;
  }

  /** Only arrival actions propagate events: when neither any vertex nor the super vertex has
      one, a call with fuel left is exactly one step. */
  lemma WithoutArrivalsOneStep<S, X, E, K>(d: Definition<S, X, E, K>, current: S, x: X, event: E, fuel: nat)
    requires current in d.vertices && fuel > 0
    requires d.superVertex.onArrival.None? && forall s :: s in d.vertices ==> d.vertices[s].onArrival.None?
    ensures Step(d, current, x, event).trigger.None?
    ensures Process(d, current, x, event, fuel) == Step(d, current, x, event).trace
  {
  }

  /** The transition task of the transition found for `event`, run on `x`, if the transition has one. */
  function TaskOutcome<S, X, E>(t: StateTransition<S, X, E>, event: E, x: X): Option<Result<TransitionTaskResult<S, X>>> {
    if t.task.Some? then Some(t.task.value(event, x)) else None
  }

  /** The exit action runs exactly when the transition task returned an override naming a different state
      and the current vertex declares an exit action; a declared target alone never runs it. */
  lemma ExitRunsOnlyOnOverride<S, X, E, K>(d: Definition<S, X, E, K>, current: S, x: X, event: E, t: StateTransition<S, X, E>)
    requires current in d.vertices
    requires FindTransition(d, d.vertices[current], event) == Some(t)
    ensures var calls := Step(d, current, x, event).trace.calls;
            (exists i :: 0 <= i < |calls| && calls[i].ExitCall?)
            <==> && TaskOutcome(t, event, x).Some? && TaskOutcome(t, event, x).value.Ok?
                 && ExitRuns(Some(TaskOutcome(t, event, x).value.value), current)
                 && d.vertices[current].onExit.Some?
  {
    var calls := Step(d, current, x, event).trace.calls;
    var tr := if t.task.Some? && t.task.value(event, x).Ok? then Some(t.task.value(event, x).value) else None;
    var x1 := Committed(tr, x);
    var next := NextState(tr, t.next, current);
    var taskCalls := if t.task.Some? then [TaskCall(event, x)] else [];
    if ExitRuns(tr, current) && d.vertices[current].onExit.Some? {
      assert calls[|taskCalls|] == ExitCall(current, event, x1);
    } else {
      var arrival := if next in d.vertices then ArrivalCalls(d, next, d.vertices[next], event, x1) else [];
      assert forall i :: 0 <= i < |arrival| ==> arrival[i].ArrivalCall?;
      assert calls == taskCalls || calls == taskCalls + arrival;
    }
  }

  /** The definition with the exit action of `s` removed. */
  function WithoutExit<S, X, E, K>(d: Definition<S, X, E, K>, s: S): (d': Definition<S, X, E, K>)
    requires s in d.vertices
    ensures d'.vertices.Keys == d.vertices.Keys
  {
    d.(vertices := d.vertices[s := d.vertices[s].(onExit := None)])
  }

  /** The exit action of `current` ran on the transition task's committed state and threw. */
  ghost predicate ExitThrew<S, X, E, K>(d: Definition<S, X, E, K>, current: S, x: X, event: E)
    requires current in d.vertices
  {
    var here := d.vertices[current];
    && FindTransition(d, here, event).Some?
    && var t := FindTransition(d, here, event).value;
    && TaskOutcome(t, event, x).Some? && TaskOutcome(t, event, x).value.Ok?
    && var tr := TaskOutcome(t, event, x).value.value;
    && ExitRuns(Some(tr), current)
    && here.onExit.Some? && here.onExit.value(event, tr.extendedState).Thrown?
  }

  /** What the exit action returns is never committed: unless it throws, the step ends in the
      same state, extended state, status and propagated event as without the exit action. */
  lemma ExitResultDiscarded<S, X, E, K>(d: Definition<S, X, E, K>, current: S, x: X, event: E)
    requires current in d.vertices
    ensures var r := Step(d, current, x, event);
            var r0 := Step(WithoutExit(d, current), current, x, event);
            ExitThrew(d, current, x, event)
            || (&& r.trace.state == r0.trace.state && r.trace.ext == r0.trace.ext
                && r.trace.status == r0.trace.status && r.trigger == r0.trigger)
  {
    var d0 := WithoutExit(d, current);
    var here := d.vertices[current];
    assert d0.superVertex == d.superVertex && d0.tagOf == d.tagOf && d0.config == d.config;
    assert FindTransition(d0, d0.vertices[current], event) == FindTransition(d, here, event);
    match FindTransition(d, here, event)
    case None =>
    case Some(t) =>
      if t.task.Some? && t.task.value(event, x).Ok? {
        var tr := t.task.value(event, x).value;
        var next := NextState(Some(tr), t.next, current);
        if next in d.vertices {
          assert d0.vertices[next].onArrival == d.vertices[next].onArrival;
          assert ArrivalResult(d0, d0.vertices[next], event, tr.extendedState)
              == ArrivalResult(d, d.vertices[next], event, tr.extendedState);
        }
      } else if t.task.None? {
        var next := NextState<S, X>(None, t.next, current);
        if next in d.vertices {
          assert d0.vertices[next].onArrival == d.vertices[next].onArrival;
          assert ArrivalResult(d0, d0.vertices[next], event, x) == ArrivalResult(d, d.vertices[next], event, x);
        }
      }
  }

  /** Commit order: the transition task's extended state is committed before anything else runs, so the
      exit and arrival actions of the step both see it. */
  lemma ActionsSeeTaskResult<S, X, E, K>(d: Definition<S, X, E, K>, current: S, x: X, event: E, t: StateTransition<S, X, E>, tr: TransitionTaskResult<S, X>)
    requires current in d.vertices
    requires FindTransition(d, d.vertices[current], event) == Some(t)
    requires t.task.Some? && t.task.value(event, x) == Ok(tr)
    ensures var calls := Step(d, current, x, event).trace.calls;
            && |calls| >= 1 && calls[0] == TaskCall(event, x)
            && forall i :: 1 <= i < |calls| ==> !calls[i].TaskCall? && calls[i].input == tr.extendedState
  {
  }

  /** Arrival runs even when the state does not change: a transition with no task and no
      declared target keeps the state and runs the current vertex's arrival action on the
      unchanged extended state, committing what it returns. */
  lemma ArrivalRunsOnSelfTransition<S, X, E, K>(d: Definition<S, X, E, K>, current: S, x: X, event: E, a: Action<E, X>, ar: ActionResult<E, X>)
    requires current in d.vertices
    requires FindTransition(d, d.vertices[current], event) == Some(StateTransition(None, None))
    requires d.vertices[current].onArrival == Some(a) && a(event, x) == Ok(ar)
    ensures var r := Step(d, current, x, event);
            && r.trace.state == current && r.trace.ext == ar.extendedState
            && r.trace.calls == [ArrivalCall(Some(current), event, x)]
            && r.trigger == ar.eventToTrigger
  {
  }

  /** The step of `event` from `current` gets past the transition task and the exit action and
      moves to `next`, with `x1` the extended state the task committed. */
  ghost predicate Enters<S, X, E, K>(d: Definition<S, X, E, K>, current: S, x: X, event: E, next: S, x1: X)
    requires current in d.vertices
  {
    var here := d.vertices[current];
    && FindTransition(d, here, event).Some?
    && var t := FindTransition(d, here, event).value;
    && (t.task.Some? ==> t.task.value(event, x).Ok?)
    && var tr := if t.task.Some? then Some(t.task.value(event, x).value) else None;
    && (ExitRuns(tr, current) && here.onExit.Some? ==> here.onExit.value(event, Committed(tr, x)).Ok?)
    && next == NextState(tr, t.next, current) && next in d.vertices
    && x1 == Committed(tr, x)
  }

  /** Arrival on entering `next`: the vertex's own action runs if it has one, otherwise the
      super vertex's; what runs sees the committed extended state, is the last user code of the
      step, and its result (or its exception) ends the step. With neither action, the committed
      extended state stays, no arrival code runs and no event is propagated. */
  lemma ArrivalFallsBackToSuperVertex<S, X, E, K>(d: Definition<S, X, E, K>, current: S, x: X, event: E, next: S, x1: X)
    requires current in d.vertices && Enters(d, current, x, event, next, x1)
    ensures var r := Step(d, current, x, event);
            var own := d.vertices[next].onArrival;
            var fallback := d.superVertex.onArrival;
            && r.trace.state == next
            && (own.Some? || fallback.Some? ==>
                  var out := if own.Some? then own.value(event, x1) else fallback.value(event, x1);
                  && |r.trace.calls| > 0
                  && r.trace.calls[|r.trace.calls| - 1] == ArrivalCall(if own.Some? then Some(next) else None, event, x1)
                  && (out.Ok? ==> r.trace.ext == out.value.extendedState && r.trace.status == Completed
                                  && r.trigger == out.value.eventToTrigger)
                  && (out.Thrown? ==> r.trace.ext == x1 && r.trace.status == CallbackThrew(out.message) && r.trigger.None?))
            && (own.None? && fallback.None? ==>
                  && r.trace.ext == x1 && r.trace.status == Completed && r.trigger.None?
                  && forall i :: 0 <= i < |r.trace.calls| ==> !r.trace.calls[i].ArrivalCall?)
  {
    var here := d.vertices[current];
    var t := FindTransition(d, here, event).value;
    var tr := if t.task.Some? then Some(t.task.value(event, x).value) else None;
    var taskCalls := if t.task.Some? then [TaskCall(event, x)] else [];
    var exited := if ExitRuns(tr, current) then Exit(here, event, x1) else None;
    var calls1 := taskCalls + (if exited.Some? then [ExitCall(current, event, x1)] else []);
    assert forall i :: 0 <= i < |calls1| ==> !calls1[i].ArrivalCall?;
    var arrival := ArrivalCalls(d, next, d.vertices[next], event, x1);
    assert Step(d, current, x, event).trace.calls == calls1 + arrival;
  }

  /** The fuel is only a bound: a call that finished within `fuel` nested calls gives the same
      result with any larger bound. */
  lemma {:induction false} ProcessFuelMonotone<S, X, E, K>(d: Definition<S, X, E, K>, current: S, x: X, event: E, fuel: nat, more: nat)
    requires current in d.vertices && fuel <= more
    requires Process(d, current, x, event, fuel).status != ChainTooLong
    ensures Process(d, current, x, event, more) == Process(d, current, x, event, fuel)
    decreases fuel
  {
    var s := Step(d, current, x, event);
    if s.trigger.Some? {
      ProcessFuelMonotone(d, s.trace.state, s.trace.ext, s.trigger.value, fuel - 1, more - 1);
    }
  }

  /** The chain of steps one call of `processEvent` goes through, at most `n` of them: the
      given event's step, then the step of each event the previous step asked to trigger; the
      chain ends at the first step that asks for none. */
  function Chain<S(==), X, E, K>(d: Definition<S, X, E, K>, current: S, x: X, event: E, n: nat): (c: seq<Stepped<S, X, E>>)
    requires current in d.vertices
    ensures |c| <= n && (n > 0 <==> c != [])
    ensures c != [] ==> c[0] == Step(d, current, x, event)
    ensures forall i :: 0 <= i < |c| ==> c[i].trace.state in d.vertices
    ensures forall i :: 0 <= i < |c| - 1 ==> c[i].trigger.Some?
    ensures |c| < n ==> c == [] || c[|c| - 1].trigger.None?
    decreases n
  {
    if n == 0 then []
    else
      var s := Step(d, current, x, event);
      if s.trigger.None? then [s]
      else
        var rest := Chain(d, s.trace.state, s.trace.ext, s.trigger.value, n - 1);
        assert forall i :: 1 <= i < |rest| + 1 ==> ([s] + rest)[i] == rest[i - 1];
        [s] + rest
  }

  /** Each step of a chain is the step of the event its predecessor triggered, taken from where
      the predecessor left the machine. */
  lemma {:induction false} ChainLinked<S, X, E, K>(d: Definition<S, X, E, K>, current: S, x: X, event: E, n: nat, c: seq<Stepped<S, X, E>>)
    requires current in d.vertices && c == Chain(d, current, x, event, n)
    ensures forall i :: 0 <= i < |c| - 1 ==> c[i + 1] == Step(d, c[i].trace.state, c[i].trace.ext, c[i].trigger.value)
    decreases n
  {
    if n > 0 {
      var s := Step(d, current, x, event);
      if s.trigger.Some? {
        var rest := Chain(d, s.trace.state, s.trace.ext, s.trigger.value, n - 1);
        ChainLinked(d, s.trace.state, s.trace.ext, s.trigger.value, n - 1, rest);
        assert c == [s] + rest;
        forall i | 0 <= i < |c| - 1
          ensures c[i + 1] == Step(d, c[i].trace.state, c[i].trace.ext, c[i].trigger.value)
        {
          if i > 0 {
            assert c[i] == rest[i - 1] && c[i + 1] == rest[i];
          } else {
            assert c[1] == rest[0];
          }
        }
      }
    }
  }

  /** The user code of the steps of a chain, in order. */
  function AllCalls<S, X, E>(c: seq<Stepped<S, X, E>>): seq<Call<S, X, E>> {
    if c == [] then [] else c[0].trace.calls + AllCalls(c[1..])
  }

  /** A propagated event is processed before the call returns: a call of `processEvent` is the
      chain of steps its propagated events cause, run to its end. It ends where the chain's
      last step leaves the machine, with that step's status, having run the user code of every
      step in order; it fails with `ChainTooLong` exactly when the chain is cut while its last
      step still has an event to trigger, so a call never completes with an event pending. */
  lemma {:induction false} PropagatedEventProcessedBeforeReturn<S, X, E, K>(d: Definition<S, X, E, K>, current: S, x: X, event: E, fuel: nat)
    requires current in d.vertices
    ensures var c := Chain(d, current, x, event, fuel);
            var r := Process(d, current, x, event, fuel);
            && r.calls == AllCalls(c)
            && (c != [] ==> r.state == c[|c| - 1].trace.state && r.ext == c[|c| - 1].trace.ext)
            && (r.status == ChainTooLong <==> c == [] || c[|c| - 1].trigger.Some?)
            && (r.status != ChainTooLong ==> r.status == c[|c| - 1].trace.status)
    decreases fuel
  {
    if fuel > 0 {
      var s := Step(d, current, x, event);
      var c := Chain(d, current, x, event, fuel);
      if s.trigger.None? {
        assert c == [s] && c[1..] == [];
        assert AllCalls(c) == s.trace.calls + [];
        assert Process(d, current, x, event, fuel) == s.trace;
      } else {
        var rest := Chain(d, s.trace.state, s.trace.ext, s.trigger.value, fuel - 1);
        var t := Process(d, s.trace.state, s.trace.ext, s.trigger.value, fuel - 1);
        PropagatedEventProcessedBeforeReturn(d, s.trace.state, s.trace.ext, s.trigger.value, fuel - 1);
        assert Process(d, current, x, event, fuel) == Trace(t.state, t.ext, t.status, s.trace.calls + t.calls);
        assert c == [s] + rest && c[1..] == rest;
        ChainLast(s, rest);
      }
    }
  }

  lemma ChainLast<S, X, E>(s: Stepped<S, X, E>, rest: seq<Stepped<S, X, E>>)
    ensures AllCalls([s] + rest) == s.trace.calls + AllCalls(rest)
    ensures rest != [] ==> ([s] + rest)[|rest|] == rest[|rest| - 1]
  {
    assert ([s] + rest)[1..] == rest;
  }
}
