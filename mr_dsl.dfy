/** The older engine's configuration DSL: `TransitionBuilder`, `ArrivalBuilder`, `VertexBuilder`
    and `StateMachineBuilder` with `stateHandler` and the two `then` extensions. Each builder
    runs its block in place and is proved to agree with a function saying what the block
    builds or which rule it breaks. The arrival input and output types, which vary per vertex
    in the source, are one payload type `P` here; `T` is what a transition's task is. */
module MrDsl {
  import opened Wrappers
  import opened MrStateProcessor
  import opened DslCommon

  // ---------------------------------------------------------------------------------------
  // TransitionBuilder

  /** A call inside an `on<Event> { ... }` block. */
  datatype TransitionCommand<S, T> = TransitionTo(state: S) | Execute(task: Option<T>)

  /** What a transition builder holds: both fields start null. */
  datatype TransitionDraft<S, T> = TransitionDraft(nextState: Option<S>, task: Option<T>)

  /** A built transition: its target is never null. */
  datatype Transition<S, T> = Transition(next: S, task: Option<T>)

  /** One call on a transition builder: `transitionTo` needs the target unset, `execute` the
      task unset (a null task leaves it unset). */
  function TransitionStep<S, T>(t: TransitionDraft<S, T>, c: TransitionCommand<S, T>): (r: Outcome<TransitionDraft<S, T>>)
    ensures c.TransitionTo? ==> r == (if t.nextState.Some? then Failed(DuplicateTarget) else Built(t.(nextState := Some(c.state))))
    ensures c.Execute? ==> r == (if t.task.Some? then Failed(DuplicateTask) else Built(t.(task := c.task)))
  {
    match c
    case TransitionTo(s) => if t.nextState.Some? then Failed(DuplicateTarget) else Built(t.(nextState := Some(s)))
    case Execute(task) => if t.task.Some? then Failed(DuplicateTask) else Built(t.(task := task))
  }

  function RunTransitionBlock<S, T>(t: TransitionDraft<S, T>, block: seq<TransitionCommand<S, T>>): Outcome<TransitionDraft<S, T>>
    decreases |block|
  {
    if block == [] then Built(t)
    else
      match TransitionStep(t, block[0])
      case Failed(e) => Failed(e)
      case Built(t1) => RunTransitionBlock(t1, block[1..])
  }

  /** `build()`: fails when no target was given (`checkNotNull`). */
  function BuildTransition<S, T>(t: TransitionDraft<S, T>): (r: Outcome<Transition<S, T>>)
    ensures r.Failed? <==> t.nextState.None?
    ensures r.Failed? ==> r.error == TargetUnset
    ensures r.Built? ==> r.value.next == t.nextState.value && r.value.task == t.task
  {
    if t.nextState.None? then Failed(TargetUnset) else Built(Transition(t.nextState.value, t.task))
  }

  /** `TransitionBuilder().apply(fn).build()`. */
  function NewTransition<S, T>(block: seq<TransitionCommand<S, T>>): Outcome<Transition<S, T>> {
    match RunTransitionBlock(TransitionDraft(None, None), block)
    case Failed(e) => Failed(e)
    case Built(t) => BuildTransition(t)
  }

  function CountTargets<S, T>(block: seq<TransitionCommand<S, T>>): nat {
    if block == [] then 0 else (if block[0].TransitionTo? then 1 else 0) + CountTargets(block[1..])
  }

  function CountTasks<S, T>(block: seq<TransitionCommand<S, T>>): nat {
    if block == [] then 0 else (if block[0].Execute? && block[0].task.Some? then 1 else 0) + CountTasks(block[1..])
  }

  /** A transition block that runs has at most one `transitionTo` and at most one non-null
      `execute` (counting what was set before), and the result has a target exactly when one
      was given. */
  lemma {:induction false} TransitionBlockRules<S, T>(t: TransitionDraft<S, T>, block: seq<TransitionCommand<S, T>>)
    requires RunTransitionBlock(t, block).Built?
    ensures (if t.nextState.Some? then 1 else 0) + CountTargets(block) <= 1
    ensures (if t.task.Some? then 1 else 0) + CountTasks(block) <= 1
    ensures RunTransitionBlock(t, block).value.nextState.Some? <==> t.nextState.Some? || CountTargets(block) == 1
    decreases |block|
  {
    if block != [] {
      TransitionBlockRules(TransitionStep(t, block[0]).value, block[1..]);
    }
  }

  /** Building a transition needs exactly one `transitionTo`: a block without one fails with
      the missing target, one with two fails with the duplicate target. */
  lemma NewTransitionNeedsOneTarget<S, T>(block: seq<TransitionCommand<S, T>>)
    ensures CountTargets(block) == 0 ==> NewTransition(block).Failed?
    ensures CountTargets(block) >= 2 ==> NewTransition(block).Failed?
    ensures NewTransition(block).Built? ==> CountTargets(block) == 1 && CountTasks(block) <= 1
  {
    if RunTransitionBlock(TransitionDraft(None, None), block).Built? {
      TransitionBlockRules(TransitionDraft(None, None), block);
    }
  }

  class TransitionBuilder<S, T> {
    var nextState: Option<S>
    var task: Option<T>

    constructor ()
      ensures Snapshot() == TransitionDraft(None, None)
    {
      nextState := None;
      task := None;
    }

    function Snapshot(): TransitionDraft<S, T>
      reads this
    {
      TransitionDraft(nextState, task)
    }

    method TransitionTo(state: S) returns (err: Option<ConfigError>)
      modifies this
      ensures Agrees(TransitionStep(old(Snapshot()), TransitionCommand.TransitionTo(state)), err, old(Snapshot()), Snapshot())
    {
      if nextState.Some? {
        return Some(DuplicateTarget);
      }
      nextState := Some(state);
      return None;
    }

    method Execute(t: Option<T>) returns (err: Option<ConfigError>)
      modifies this
      ensures Agrees(TransitionStep(old(Snapshot()), TransitionCommand.Execute(t)), err, old(Snapshot()), Snapshot())
    {
      if task.Some? {
        return Some(DuplicateTask);
      }
      task := t;
      return None;
    }

    method Do(c: TransitionCommand<S, T>) returns (err: Option<ConfigError>)
      modifies this
      ensures Agrees(TransitionStep(old(Snapshot()), c), err, old(Snapshot()), Snapshot())
    {
      match c
      case TransitionTo(s) => err := TransitionTo(s);
      case Execute(t) => err := Execute(t);
    }

    /** `apply(fn)`: runs the block's calls in order until one fails. */
    method Run(block: seq<TransitionCommand<S, T>>) returns (err: Option<ConfigError>)
      modifies this
      ensures BlockAgrees(RunTransitionBlock(old(Snapshot()), block), err, Snapshot())
    {
      var i := 0;
      while i < |block|
        invariant 0 <= i <= |block|
        invariant RunTransitionBlock(old(Snapshot()), block) == RunTransitionBlock(Snapshot(), block[i..])
      {
        assert block[i..][0] == block[i] && block[i..][1..] == block[i + 1..];
        err := Do(block[i]);
        if err.Some? {
          return;
        }
        i := i + 1;
      }
      return None;
    }

    /** `build()`. */
    method Build() returns (r: Outcome<Transition<S, T>>)
      ensures r == BuildTransition(Snapshot())
    {
      if nextState.None? {
        return Failed(TargetUnset);
      }
      return Built(Transition(nextState.value, task));
    }
  }

  // ---------------------------------------------------------------------------------------
  // ArrivalBuilder

  /** A call inside an `uponArrival { ... }` block. */
  datatype ArrivalCommand<!X, !P, K> =
    | ArrivalExecute(fn: P -> P)
    | PropagateEvent(tag: K)
    | StoreExecutionOutput(merger: (P, Option<X>) -> Option<X>)
    | ExtractInputFromExtendedState(extractor: Option<X> -> P)

  /** `ArrivalBuilder.BuildData`. */
  datatype ArrivalData<!X, !P, K> = ArrivalData(
    eventsToPropagate: set<K>,
    onArrival: Option<P -> P>,
    merger: Option<(P, Option<X>) -> Option<X>>,
    extractor: Option<Option<X> -> P>)

  function EmptyArrival<X, P, K>(): ArrivalData<X, P, K> {
    ArrivalData({}, None, None, None)
  }

  /** One call on an arrival builder; none of them can fail. `propagateEvent` adds to a set. */
  function ArrivalStep<X, P, K>(a: ArrivalData<X, P, K>, c: ArrivalCommand<X, P, K>): (r: ArrivalData<X, P, K>)
    ensures c.PropagateEvent? ==> r == a.(eventsToPropagate := a.eventsToPropagate + {c.tag})
    ensures !c.PropagateEvent? ==> r.eventsToPropagate == a.eventsToPropagate
    ensures c.ArrivalExecute? ==> r == a.(onArrival := Some(c.fn))
    ensures c.StoreExecutionOutput? ==> r == a.(merger := Some(c.merger))
    ensures c.ExtractInputFromExtendedState? ==> r == a.(extractor := Some(c.extractor))
  {
    match c
    case ArrivalExecute(fn) => a.(onArrival := Some(fn))
    case PropagateEvent(tag) => a.(eventsToPropagate := a.eventsToPropagate + {tag})
    case StoreExecutionOutput(merger) => a.(merger := Some(merger))
    case ExtractInputFromExtendedState(extractor) => a.(extractor := Some(extractor))
  }

  function RunArrivalBlock<X, P, K>(a: ArrivalData<X, P, K>, block: seq<ArrivalCommand<X, P, K>>): ArrivalData<X, P, K>
    decreases |block|
  {
    if block == [] then a else RunArrivalBlock(ArrivalStep(a, block[0]), block[1..])
  }

  /** The event classes an arrival block propagates. */
  function Propagated<X, P, K>(block: seq<ArrivalCommand<X, P, K>>): set<K> {
    if block == [] then {} else (if block[0].PropagateEvent? then {block[0].tag} else {}) + Propagated(block[1..])
  }

  /** An arrival block adds exactly the event classes it propagates, however often each is
      named, so propagating an event class again changes nothing. */
  lemma {:induction false} PropagatedEvents<X, P, K>(a: ArrivalData<X, P, K>, block: seq<ArrivalCommand<X, P, K>>)
    ensures RunArrivalBlock(a, block).eventsToPropagate == a.eventsToPropagate + Propagated(block)
    ensures a.eventsToPropagate >= Propagated(block) ==> RunArrivalBlock(a, block).eventsToPropagate == a.eventsToPropagate
    decreases |block|
  {
    if block != [] {
      PropagatedEvents(ArrivalStep(a, block[0]), block[1..]);
    }
  }

  /** Running two arrival blocks one after the other on the same data is running their
      concatenation. */
  lemma {:induction false} RunArrivalBlockAppend<X, P, K>(a: ArrivalData<X, P, K>, first: seq<ArrivalCommand<X, P, K>>,
                                                         second: seq<ArrivalCommand<X, P, K>>)
    ensures RunArrivalBlock(RunArrivalBlock(a, first), second) == RunArrivalBlock(a, first + second)
    decreases |first|
  {
    if first == [] {
      assert first + second == second;
    } else {
      assert (first + second)[0] == first[0] && (first + second)[1..] == first[1..] + second;
      RunArrivalBlockAppend(ArrivalStep(a, first[0]), first[1..], second);
    }
  }

  /** The block has an `execute` call. */
  predicate HasExecute<X, P, K>(block: seq<ArrivalCommand<X, P, K>>) {
    exists i :: 0 <= i < |block| && block[i].ArrivalExecute?
  }

  /** The block has an `extractInputFromExtendedState` call. */
  predicate HasExtractor<X, P, K>(block: seq<ArrivalCommand<X, P, K>>) {
    exists i :: 0 <= i < |block| && block[i].ExtractInputFromExtendedState?
  }

  /** After an arrival block there is an arrival function exactly when there was one before or
      the block calls `execute`, and an extractor exactly when there was one before or the block
      calls `extractInputFromExtendedState`. */
  lemma {:induction false} ArrivalBlockFields<X, P, K>(a: ArrivalData<X, P, K>, block: seq<ArrivalCommand<X, P, K>>)
    ensures RunArrivalBlock(a, block).onArrival.Some? <==> a.onArrival.Some? || HasExecute(block)
    ensures RunArrivalBlock(a, block).extractor.Some? <==> a.extractor.Some? || HasExtractor(block)
    decreases |block|
  {
    if block != [] {
      ArrivalBlockFields(ArrivalStep(a, block[0]), block[1..]);
      if HasExecute(block[1..]) {
        var i :| 0 <= i < |block[1..]| && block[1..][i].ArrivalExecute?;
        assert block[i + 1].ArrivalExecute?;
      }
      if HasExecute(block) && !block[0].ArrivalExecute? {
        var i :| 0 <= i < |block| && block[i].ArrivalExecute?;
        assert block[1..][i - 1].ArrivalExecute?;
      }
      if HasExtractor(block[1..]) {
        var i :| 0 <= i < |block[1..]| && block[1..][i].ExtractInputFromExtendedState?;
        assert block[i + 1].ExtractInputFromExtendedState?;
      }
      if HasExtractor(block) && !block[0].ExtractInputFromExtendedState? {
        var i :| 0 <= i < |block| && block[i].ExtractInputFromExtendedState?;
        assert block[1..][i - 1].ExtractInputFromExtendedState?;
      }
    }
  }

  class ArrivalBuilder<X, P, K(==)> {
    var eventsToPropagate: set<K>
    var onArrival: Option<P -> P>
    var merger: Option<(P, Option<X>) -> Option<X>>
    var extractor: Option<Option<X> -> P>

    constructor ()
      ensures Snapshot() == EmptyArrival()
    {
      eventsToPropagate := {};
      onArrival := None;
      merger := None;
      extractor := None;
    }

    /** `build()`: the data as it stands. */
    function Snapshot(): ArrivalData<X, P, K>
      reads this
    {
      ArrivalData(eventsToPropagate, onArrival, merger, extractor)
    }

    method Do(c: ArrivalCommand<X, P, K>)
      modifies this
      ensures Snapshot() == ArrivalStep(old(Snapshot()), c)
    {
      match c
      case ArrivalExecute(fn) => onArrival := Some(fn);
      case PropagateEvent(tag) => eventsToPropagate := eventsToPropagate + {tag};
      case StoreExecutionOutput(m) => merger := Some(m);
      case ExtractInputFromExtendedState(e) => extractor := Some(e);
    }

    method Run(block: seq<ArrivalCommand<X, P, K>>)
      modifies this
      ensures Snapshot() == RunArrivalBlock(old(Snapshot()), block)
    {
      var i := 0;
      while i < |block|
        invariant 0 <= i <= |block|
        invariant RunArrivalBlock(old(Snapshot()), block) == RunArrivalBlock(Snapshot(), block[i..])
      {
        assert block[i..][0] == block[i] && block[i..][1..] == block[i + 1..];
        Do(block[i]);
        i := i + 1;
      }
    }
  }

  // ---------------------------------------------------------------------------------------
  // VertexBuilder

  /** A call inside a `stateHandler(state) { ... }` block. */
  datatype VertexCommand<S, !X, !P, K, T> =
    | On(tag: K, block: seq<TransitionCommand<S, T>>)
    | UponArrival(arrivalBlock: seq<ArrivalCommand<X, P, K>>)

  /** What a vertex builder holds; `arrival` is absent until `uponArrival` is first called. */
  datatype VertexDraft<S, !X, !P, K, T> = VertexDraft(
    state: S,
    useOutputFromPreviousVertexAsInput: bool,
    transitions: map<K, Transition<S, T>>,
    arrival: Option<ArrivalData<X, P, K>>)

  /** One call on a vertex builder: `on` needs the event class unregistered and a transition
      that builds; `uponArrival` runs its block on the vertex's one arrival builder. */
  function VertexStep<S, X, P, K, T>(v: VertexDraft<S, X, P, K, T>, c: VertexCommand<S, X, P, K, T>): (r: Outcome<VertexDraft<S, X, P, K, T>>)
    ensures r.Built? ==> r.value.state == v.state && r.value.useOutputFromPreviousVertexAsInput == v.useOutputFromPreviousVertexAsInput
    ensures c.On? && c.tag in v.transitions ==> r == Failed(DuplicateEvent)
    ensures c.On? && c.tag !in v.transitions && NewTransition(c.block).Failed? ==> r == Failed(NewTransition(c.block).error)
    ensures c.On? && c.tag !in v.transitions && NewTransition(c.block).Built?
            ==> r == Built(v.(transitions := v.transitions[c.tag := NewTransition(c.block).value]))
    ensures c.UponArrival? ==> r == Built(v.(arrival := Some(RunArrivalBlock(v.arrival.GetOr(EmptyArrival()), c.arrivalBlock))))
  {
    match c
    case On(tag, block) =>
      if tag in v.transitions then Failed(DuplicateEvent)
      else
        (match NewTransition(block)
         case Failed(e) => Failed(e)
         case Built(t) => Built(v.(transitions := v.transitions[tag := t])))
    case UponArrival(block) =>
      Built(v.(arrival := Some(RunArrivalBlock(v.arrival.GetOr(EmptyArrival()), block))))
  }

  function RunVertexBlock<S, X, P, K, T>(v: VertexDraft<S, X, P, K, T>, block: seq<VertexCommand<S, X, P, K, T>>): (r: Outcome<VertexDraft<S, X, P, K, T>>)
    ensures r.Built? ==> r.value.state == v.state && r.value.useOutputFromPreviousVertexAsInput == v.useOutputFromPreviousVertexAsInput
    decreases |block|
  {
    if block == [] then Built(v)
    else
      match VertexStep(v, block[0])
      case Failed(e) => Failed(e)
      case Built(v1) => RunVertexBlock(v1, block[1..])
  }

  /** `VertexBuilder.build()`: the state processor gets the arrival data, with an empty
      propagation set and the no-op merger where none was configured; it fails when an arrival
      function was given without an extractor. */
  function BuildVertex<S, X, P, K, T>(v: VertexDraft<S, X, P, K, T>): (r: Outcome<Vertex<S, X, P, P, K, Transition<S, T>>>)
    ensures var a := v.arrival.GetOr(EmptyArrival());
            && (r.Failed? <==> a.onArrival.Some? && a.extractor.None?)
            && (r.Failed? ==> r.error == ExtractorMissing)
            && (r.Built? ==> && r.value.state == v.state && r.value.transitions == v.transitions
                             && r.value.stateProcessor == StateProcessor(a.onArrival, a.merger.GetOr(NoOpMerger()), a.extractor, a.eventsToPropagate))
    ensures v.arrival.None? ==> r == Built(Vertex(v.state, v.transitions, StateProcessor(None, NoOpMerger(), None, {})))
  {
    var a := v.arrival.GetOr(EmptyArrival());
    match NewStateProcessor(a.onArrival, a.merger.GetOr(NoOpMerger()), a.extractor, a.eventsToPropagate)
    case Thrown(_) => Failed(ExtractorMissing)
    case Ok(processor) => Built(Vertex(v.state, v.transitions, processor))
  }

  /** Two `uponArrival` blocks on one vertex act on the same arrival builder, as one block
      holding both. */
  lemma UponArrivalAccumulates<S, X, P, K, T>(v: VertexDraft<S, X, P, K, T>, first: seq<ArrivalCommand<X, P, K>>,
                                              second: seq<ArrivalCommand<X, P, K>>)
    ensures VertexStep(v, UponArrival(first)).Built?
    ensures VertexStep(VertexStep(v, UponArrival(first)).value, UponArrival(second)) == VertexStep(v, UponArrival(first + second))
  {
    RunArrivalBlockAppend(v.arrival.GetOr(EmptyArrival()), first, second);
  }

  /** A vertex defined by a single `uponArrival` block fails to build exactly when the block
      calls `execute` but never `extractInputFromExtendedState`. */
  lemma ExtractorRequired<S, X, P, K, T>(state: S, useOutput: bool, block: seq<ArrivalCommand<X, P, K>>)
    ensures var empty: VertexDraft<S, X, P, K, T> := VertexDraft(state, useOutput, map[], None);
            BuildVertex(VertexStep(empty, UponArrival(block)).value).Failed? <==> HasExecute(block) && !HasExtractor(block)
  {
    ArrivalBlockFields(EmptyArrival<X, P, K>(), block);
  }

  class VertexBuilder<S, X, P, K(==), T> {
    const state: S
    var useOutputFromPreviousVertexAsInput: bool
    var transitions: map<K, Transition<S, T>>
    var arrivalBuilder: ArrivalBuilder?<X, P, K>
    ghost var Repr: set<object>

    ghost predicate Valid()
      reads this, Repr
    {
      this in Repr && (arrivalBuilder != null ==> arrivalBuilder in Repr)
    }

    constructor (state: S, useOutputFromPreviousVertexAsInput: bool)
      ensures Valid() && fresh(Repr)
      ensures Snapshot() == VertexDraft(state, useOutputFromPreviousVertexAsInput, map[], None)
    {
      this.state := state;
      this.useOutputFromPreviousVertexAsInput := useOutputFromPreviousVertexAsInput;
      transitions := map[];
      arrivalBuilder := null;
      Repr := {this};
    }

    function Snapshot(): VertexDraft<S, X, P, K, T>
      reads this, arrivalBuilder
    {
      VertexDraft(state, useOutputFromPreviousVertexAsInput, transitions,
                  if arrivalBuilder == null then None else Some(arrivalBuilder.Snapshot()))
    }

    method On(tag: K, block: seq<TransitionCommand<S, T>>) returns (err: Option<ConfigError>)
      requires Valid()
      modifies Repr
      ensures Valid() && fresh(Repr - old(Repr))
      ensures Agrees(VertexStep(old(Snapshot()), VertexCommand.On(tag, block)), err, old(Snapshot()), Snapshot())
    {
      if tag in transitions {
        return Some(DuplicateEvent);
      }
      var builder := new TransitionBuilder();
      err := builder.Run(block);
      if err.Some? {
        return;
      }
      var built := builder.Build();
      if built.Failed? {
        return Some(built.error);
      }
      transitions := transitions[tag := built.value];
    }

    /** `uponArrival`: creates the arrival builder on first use and reuses it afterwards. */
    method UponArrival(block: seq<ArrivalCommand<X, P, K>>)
      requires Valid()
      modifies Repr
      ensures Valid() && fresh(Repr - old(Repr))
      ensures old(arrivalBuilder) != null ==> arrivalBuilder == old(arrivalBuilder)
      ensures Snapshot() == VertexStep(old(Snapshot()), VertexCommand.UponArrival(block)).value
    {
      if arrivalBuilder == null {
        var builder := new ArrivalBuilder();
        arrivalBuilder := builder;
        Repr := Repr + {builder};
      }
      arrivalBuilder.Run(block);
    }

    method Do(c: VertexCommand<S, X, P, K, T>) returns (err: Option<ConfigError>)
      requires Valid()
      modifies Repr
      ensures Valid() && fresh(Repr - old(Repr))
      ensures Agrees(VertexStep(old(Snapshot()), c), err, old(Snapshot()), Snapshot())
    {
      match c
      case On(tag, block) =>
        err := On(tag, block);
      case UponArrival(block) =>
        UponArrival(block);
        err := None;
    }

    /** `apply(fn)`: runs the block's calls in order until one fails. */
    method Run(block: seq<VertexCommand<S, X, P, K, T>>) returns (err: Option<ConfigError>)
      requires Valid()
      modifies Repr
      ensures Valid() && fresh(Repr - old(Repr))
      ensures BlockAgrees(RunVertexBlock(old(Snapshot()), block), err, Snapshot())
    {
      var i := 0;
      while i < |block|
        invariant 0 <= i <= |block|
        invariant Valid() && fresh(Repr - old(Repr))
        invariant RunVertexBlock(old(Snapshot()), block) == RunVertexBlock(Snapshot(), block[i..])
      {
        assert block[i..][0] == block[i] && block[i..][1..] == block[i + 1..];
        err := Do(block[i]);
        if err.Some? {
          return;
        }
        i := i + 1;
      }
      return None;
    }
  }

  // ---------------------------------------------------------------------------------------
  // StateMachineBuilder

  /** What a state machine builder holds: the set-once starting values and the vertex
      builders (as what each would build), keyed by state. */
  datatype Draft<S, !X, !P, K, T> = Draft(
    acceptingState: Option<S>,
    acceptingExtendedState: Option<X>,
    vertices: map<S, VertexDraft<S, X, P, K, T>>)

  function EmptyDraft<S, X, P, K, T>(): Draft<S, X, P, K, T> {
    Draft(None, None, map[])
  }

  /** Every vertex builder is registered under its own state. */
  ghost predicate DraftValid<S, X, P, K, T>(d: Draft<S, X, P, K, T>) {
    forall s :: s in d.vertices ==> d.vertices[s].state == s
  }

  function StartingStateStep<S, X, P, K, T>(d: Draft<S, X, P, K, T>, value: S): (r: Outcome<Draft<S, X, P, K, T>>)
    ensures r.Failed? <==> d.acceptingState.Some?
    ensures r.Failed? ==> r.error == DuplicateStartingState
    ensures r.Built? ==> r.value == d.(acceptingState := Some(value))
  {
    if d.acceptingState.Some? then Failed(DuplicateStartingState) else Built(d.(acceptingState := Some(value)))
  }

  function StartingExtendedStateStep<S, X, P, K, T>(d: Draft<S, X, P, K, T>, value: X): (r: Outcome<Draft<S, X, P, K, T>>)
    ensures r.Failed? <==> d.acceptingExtendedState.Some?
    ensures r.Failed? ==> r.error == DuplicateStartingExtendedState
    ensures r.Built? ==> r.value == d.(acceptingExtendedState := Some(value))
  {
    if d.acceptingExtendedState.Some? then Failed(DuplicateStartingExtendedState) else Built(d.(acceptingExtendedState := Some(value)))
  }

  /** `stateHandler` (and `simpleStateHandler`): the state must be new; its builder starts with
      `useOutputFromPreviousVertexAsInput` false, runs the block and is registered if the block
      runs through. */
  function StateHandlerStep<S, X, P, K, T>(d: Draft<S, X, P, K, T>, state: S, block: seq<VertexCommand<S, X, P, K, T>>)
    : (r: Outcome<Draft<S, X, P, K, T>>)
    ensures r.Built? && DraftValid(d) ==> DraftValid(r.value)
    ensures state in d.vertices ==> r == Failed(DuplicateState)
    ensures r.Built? ==> && state !in d.vertices && r.value.vertices.Keys == d.vertices.Keys + {state}
                         && r.value.acceptingState == d.acceptingState
                         && r.value.acceptingExtendedState == d.acceptingExtendedState
                         && (forall s :: s in d.vertices ==> r.value.vertices[s] == d.vertices[s])
                         && !r.value.vertices[state].useOutputFromPreviousVertexAsInput
                         && RunVertexBlock(VertexDraft(state, false, map[], None), block).Built?
                         && r.value.vertices[state] == RunVertexBlock(VertexDraft(state, false, map[], None), block).value
  {
    if state in d.vertices then Failed(DuplicateState)
    else
      match RunVertexBlock(VertexDraft(state, false, map[], None), block)
      case Failed(e) => Failed(e)
      case Built(v) => Built(d.(vertices := d.vertices[state := v]))
  }

  /** The block `{ transitionTo(state) }` that both `then` extensions register builds the
      transition to `state` without a task. */
  lemma OneTargetTransition<S, T>(state: S)
    ensures NewTransition<S, T>([TransitionTo(state)]) == Built(Transition(state, None))
  {
    var block: seq<TransitionCommand<S, T>> := [TransitionTo(state)];
    assert block[1..] == [];
    assert RunTransitionBlock(TransitionDraft(None, None), block) == Built(TransitionDraft(Some(state), None));
  }

  /** `uponArrival { propagateEvent(...) }` on a vertex draft: the event class joins the arrival
      data's propagation set, creating the arrival data if needed; nothing else changes. */
  function PropagateOnArrival<S, X, P, K, T>(v: VertexDraft<S, X, P, K, T>, tag: K): (r: VertexDraft<S, X, P, K, T>)
    ensures Built(r) == VertexStep(v, VertexCommand.UponArrival([PropagateEvent(tag)]))
    ensures r.arrival.Some? && r.arrival.value.eventsToPropagate == v.arrival.GetOr(EmptyArrival()).eventsToPropagate + {tag}
    ensures r.state == v.state && r.transitions == v.transitions
    ensures r.useOutputFromPreviousVertexAsInput == v.useOutputFromPreviousVertexAsInput
  {
    var a := v.arrival.GetOr(EmptyArrival());
    var block: seq<ArrivalCommand<X, P, K>> := [PropagateEvent(tag)];
    assert block[1..] == [];
    assert RunArrivalBlock(a, block) == ArrivalStep(a, PropagateEvent(tag));
    v.(arrival := Some(ArrivalStep(a, PropagateEvent(tag))))
  }

  /** `receiver.then<..., Event>(state)`: registers on the receiver a transition to `state` for
      the event class, and nothing else. */
  function ThenStep<S, X, P, K, T>(d: Draft<S, X, P, K, T>, receiver: S, tag: K, state: S): (r: Outcome<Draft<S, X, P, K, T>>)
    requires receiver in d.vertices
    ensures r.Built? && DraftValid(d) ==> DraftValid(r.value)
    ensures tag in d.vertices[receiver].transitions ==> r == Failed(DuplicateEvent)
    ensures tag !in d.vertices[receiver].transitions
            ==> r == Built(d.(vertices := d.vertices[receiver := d.vertices[receiver].(transitions :=
                           d.vertices[receiver].transitions[tag := Transition(state, None)])]))
  {
    OneTargetTransition<S, T>(state);
    match VertexStep(d.vertices[receiver], VertexCommand.On(tag, [TransitionTo(state)]))
    case Failed(e) => Failed(e)
    case Built(v) => Built(d.(vertices := d.vertices[receiver := v]))
  }

  /** `receiver.then<..., Event>(state) { ... }`: the receiver propagates the event class on
      arrival and moves to `state` on it; `state` is then defined by the block, like
      `stateHandler`, but marked to take the previous vertex's output as its input. The
      propagation is registered before the transition, so it stays when the transition fails. */
  function ThenWithStep<S, X, P, K, T>(d: Draft<S, X, P, K, T>, receiver: S, tag: K, state: S, block: seq<VertexCommand<S, X, P, K, T>>)
    : (r: Outcome<Draft<S, X, P, K, T>>)
    requires receiver in d.vertices
    ensures r.Built? && DraftValid(d) ==> DraftValid(r.value)
    ensures r.Built? ==> && receiver in r.value.vertices && state in r.value.vertices && receiver != state
                         && r.value.vertices[receiver].arrival.Some?
                         && tag in r.value.vertices[receiver].arrival.value.eventsToPropagate
                         && r.value.vertices[receiver].transitions == d.vertices[receiver].transitions[tag := Transition(state, None)]
                         && r.value.vertices[state].useOutputFromPreviousVertexAsInput
                         && r.value.vertices.Keys == d.vertices.Keys + {state}
    ensures tag in d.vertices[receiver].transitions ==> r == Failed(DuplicateEvent)
    ensures tag !in d.vertices[receiver].transitions && state in d.vertices ==> r == Failed(DuplicateState)
  {
    OneTargetTransition<S, T>(state);
    var propagating := PropagateOnArrival(d.vertices[receiver], tag);
    match VertexStep(propagating, VertexCommand.On(tag, [TransitionTo(state)]))
    case Failed(e) => Failed(e)
    case Built(v1) =>
      match StateHandlerStep(d.(vertices := d.vertices[receiver := v1]), state, block)
      case Failed(e) => Failed(e)
      case Built(d1) => Built(d1.(vertices := d1.vertices[state := d1.vertices[state].(useOutputFromPreviousVertexAsInput := true)]))
  }

  /** What the older `build()` hands to its machine: the starting state, the possibly null
      starting extended state, and the built vertices. */
  datatype Blueprint<S, !X, !P, K, T> = Blueprint(
    acceptingState: S,
    acceptingExtendedState: Option<X>,
    vertices: map<S, Vertex<S, X, P, P, K, Transition<S, T>>>)

  /** `build()`: reading the unset `lateinit` starting state fails first; then every vertex is
      built, and one arrival function without an extractor fails the whole build. */
  function BuildMachine<S, X, P, K, T>(d: Draft<S, X, P, K, T>): (r: Outcome<Blueprint<S, X, P, K, T>>)
    ensures d.acceptingState.None? ==> r == Failed(StartingStateUnset)
    ensures d.acceptingState.Some? ==> (r.Failed? <==> exists s :: s in d.vertices && BuildVertex(d.vertices[s]).Failed?)
    ensures r.Failed? && d.acceptingState.Some? ==> r.error == ExtractorMissing
    ensures r.Built? ==> && r.value.acceptingState == d.acceptingState.value
                         && r.value.acceptingExtendedState == d.acceptingExtendedState
                         && r.value.vertices.Keys == d.vertices.Keys
                         && forall s :: s in d.vertices ==> Built(r.value.vertices[s]) == BuildVertex(d.vertices[s])
  {
    if d.acceptingState.None? then Failed(StartingStateUnset)
    else if exists s :: s in d.vertices && BuildVertex(d.vertices[s]).Failed? then Failed(ExtractorMissing)
    else Built(Blueprint(d.acceptingState.value, d.acceptingExtendedState, map s | s in d.vertices :: BuildVertex(d.vertices[s]).value))
  }

  class StateMachineBuilder<S(==), X, P, K(==), T> {
    var acceptingState: Option<S>
    var acceptingExtendedState: Option<X>
    var vertexBuilders: map<S, VertexDraft<S, X, P, K, T>>

    function Snapshot(): Draft<S, X, P, K, T>
      reads this
    {
      Draft(acceptingState, acceptingExtendedState, vertexBuilders)
    }

    ghost predicate Valid()
      reads this
    {
      DraftValid(Snapshot())
    }

    constructor ()
      ensures Valid() && Snapshot() == EmptyDraft()
    {
      acceptingState := None;
      acceptingExtendedState := None;
      vertexBuilders := map[];
    }

    method StartingState(value: S) returns (err: Option<ConfigError>)
      requires Valid()
      modifies this
      ensures Valid()
      ensures Agrees(StartingStateStep(old(Snapshot()), value), err, old(Snapshot()), Snapshot())
    {
      if acceptingState.Some? {
        return Some(DuplicateStartingState);
      }
      acceptingState := Some(value);
      return None;
    }

    method StartingExtendedState(value: X) returns (err: Option<ConfigError>)
      requires Valid()
      modifies this
      ensures Valid()
      ensures Agrees(StartingExtendedStateStep(old(Snapshot()), value), err, old(Snapshot()), Snapshot())
    {
      if acceptingExtendedState.Some? {
        return Some(DuplicateStartingExtendedState);
      }
      acceptingExtendedState := Some(value);
      return None;
    }

    method StateHandler(state: S, block: seq<VertexCommand<S, X, P, K, T>>) returns (err: Option<ConfigError>)
      requires Valid()
      modifies this
      ensures Valid()
      ensures Agrees(StateHandlerStep(old(Snapshot()), state, block), err, old(Snapshot()), Snapshot())
    {
      if state in vertexBuilders {
        return Some(DuplicateState);
      }
      var builder := new VertexBuilder(state, false);
      err := builder.Run(block);
      if err.Some? {
        return;
      }
      vertexBuilders := vertexBuilders[state := builder.Snapshot()];
    }

    /** `then(state)` on the builder registered for `receiver`. */
    method Then(receiver: S, tag: K, state: S) returns (err: Option<ConfigError>)
      requires Valid() && receiver in vertexBuilders
      modifies this
      ensures Valid()
      ensures Agrees(ThenStep(old(Snapshot()), receiver, tag, state), err, old(Snapshot()), Snapshot())
    {
      OneTargetTransition<S, T>(state);
      var v := vertexBuilders[receiver];
      if tag in v.transitions {
        return Some(DuplicateEvent);
      }
      vertexBuilders := vertexBuilders[receiver := v.(transitions := v.transitions[tag := Transition(state, None)])];
      return None;
    }

    /** `then(state) { ... }` on the builder registered for `receiver`: `uponArrival`, `on`,
        then `stateHandler` and the flag, in that order. */
    method ThenWith(receiver: S, tag: K, state: S, block: seq<VertexCommand<S, X, P, K, T>>) returns (err: Option<ConfigError>)
      requires Valid() && receiver in vertexBuilders
      modifies this
      ensures Valid()
      ensures BlockAgrees(ThenWithStep(old(Snapshot()), receiver, tag, state, block), err, Snapshot())
    {
      OneTargetTransition<S, T>(state);
      var propagating := PropagateOnArrival(vertexBuilders[receiver], tag);
      vertexBuilders := vertexBuilders[receiver := propagating];
      if tag in propagating.transitions {
        assert ThenWithStep(old(Snapshot()), receiver, tag, state, block) == Failed(DuplicateEvent);
        return Some(DuplicateEvent);
      }
      var v1 := propagating.(transitions := propagating.transitions[tag := Transition(state, None)]);
      vertexBuilders := vertexBuilders[receiver := v1];
      assert Snapshot() == old(Snapshot()).(vertices := old(Snapshot()).vertices[receiver := v1]);
      ghost var registered := StateHandlerStep(Snapshot(), state, block);
      err := StateHandler(state, block);
      if err.Some? {
        assert registered == Failed(err.value);
        return;
      }
      ghost var d1 := registered.value;
      assert Snapshot() == d1;
      vertexBuilders := vertexBuilders[state := vertexBuilders[state].(useOutputFromPreviousVertexAsInput := true)];
      assert Snapshot() == d1.(vertices := d1.vertices[state := d1.vertices[state].(useOutputFromPreviousVertexAsInput := true)]);
    }
  }
}
