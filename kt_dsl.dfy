/** The newer engine's configuration DSL: `TransitionBuilder`, `ActionBuilder`, `VertexBuilder`
    and `StateMachineBuilder`. A DSL block (a Kotlin lambda with the builder as receiver) is a
    sequence of calls on that receiver; each builder runs one in place, and each is proved to
    agree with a function that says what the block builds or which rule it breaks. */
module KtDsl {
  import opened Wrappers
  import opened KtTypes
  import opened KtVertex
  import opened KtEngine
  import opened DslCommon

  // ---------------------------------------------------------------------------------------
  // TransitionBuilder

  /** A call inside an `on<Event> { ... }` block. */
  datatype TransitionCommand<S, !X, !E> =
    | TransitionTo(state: S)
    | Execute(task: Option<TransitionTask<E, S, X>>)
    | ExecuteUpdate(update: X -> Result<X>)
    | ExecuteUnit(effect: () -> Result<()>)

  /** `execute(fn: (store) -> ext)`: a task whose result carries `fn`'s extended state and no
      next-state override. */
  function UpdateTask<S, X, E>(update: X -> Result<X>): TransitionTask<E, S, X> {
    (event: E, x: X) =>
      match update(x)
      case Ok(next) => Ok(TransitionTaskResult(next, None))
      case Thrown(m) => Thrown(m)
  }

  /** The `execute(fn: (store) -> ext)` task succeeds exactly when `fn` does, with `fn`'s
      extended state and a null next state. */
  lemma UpdateTaskResult<S, X, E>(update: X -> Result<X>, event: E, x: X)
    ensures UpdateTask<S, X, E>(update)(event, x).Ok? <==> update(x).Ok?
    ensures update(x).Ok? ==> UpdateTask<S, X, E>(update)(event, x).value == TransitionTaskResult(update(x).value, None)
  {
  }

  /** `execute(fn: () -> Unit)`: a task that runs `fn` for its effect and leaves the extended
      state as it is, with no next-state override. */
  function UnitTask<S, X, E>(effect: () -> Result<()>): TransitionTask<E, S, X> {
    (event: E, x: X) =>
      match effect()
      case Ok(_) => Ok(TransitionTaskResult(x, None))
      case Thrown(m) => Thrown(m)
  }

  /** The `execute(fn: () -> Unit)` task succeeds exactly when `fn` does, leaving the extended
      state as it was and the next state null. */
  lemma UnitTaskResult<S, X, E>(effect: () -> Result<()>, event: E, x: X)
    ensures UnitTask<S, X, E>(effect)(event, x).Ok? <==> effect().Ok?
    ensures effect().Ok? ==> UnitTask<S, X, E>(effect)(event, x).value == TransitionTaskResult(x, None)
  {
  }

  /** The transition task an `execute` overload hands to the transition task setter. */
  function TaskOf<S, X, E>(c: TransitionCommand<S, X, E>): Option<TransitionTask<E, S, X>> {
    match c
    case TransitionTo(_) => None
    case Execute(task) => task
    case ExecuteUpdate(update) => Some(UpdateTask(update))
    case ExecuteUnit(effect) => Some(UnitTask(effect))
  }

  /** One call on a transition builder holding `t`: `transitionTo` needs the target unset, and
      every `execute` overload needs the transition task unset (a null task leaves it unset). */
  function TransitionStep<S, X, E>(t: StateTransition<S, X, E>, c: TransitionCommand<S, X, E>): (r: Outcome<StateTransition<S, X, E>>)
    ensures c.TransitionTo? ==> (r.Failed? <==> t.next.Some?)
    ensures !c.TransitionTo? ==> (r.Failed? <==> t.task.Some?)
    ensures r.Failed? ==> r.error == (if c.TransitionTo? then DuplicateTarget else DuplicateTask)
    ensures r.Built? && c.TransitionTo? ==> r.value == StateTransition(Some(c.state), t.task)
    ensures r.Built? && !c.TransitionTo? ==> r.value == StateTransition(t.next, TaskOf(c))
  {
    match c
    case TransitionTo(s) =>
      if t.next.Some? then Failed(DuplicateTarget) else Built(t.(next := Some(s)))
    case _ =>
      if t.task.Some? then Failed(DuplicateTask) else Built(t.(task := TaskOf(c)))
  }

  /** A whole `on<Event> { ... }` block run on a builder holding `t`; stops at the first failure. */
  function RunTransitionBlock<S, X, E>(t: StateTransition<S, X, E>, block: seq<TransitionCommand<S, X, E>>): Outcome<StateTransition<S, X, E>>
    decreases |block|
  {
    if block == [] then Built(t)
    else
      match TransitionStep(t, block[0])
      case Failed(e) => Failed(e)
      case Built(t1) => RunTransitionBlock(t1, block[1..])
  }

  function CountTargets<S, X, E>(block: seq<TransitionCommand<S, X, E>>): nat {
    if block == [] then 0 else (if block[0].TransitionTo? then 1 else 0) + CountTargets(block[1..])
  }

  /** Whether an `execute` call sets a (non-null) task. */
  predicate SetsTask<S, X, E>(c: TransitionCommand<S, X, E>) {
    c.ExecuteUpdate? || c.ExecuteUnit? || (c.Execute? && c.task.Some?)
  }

  function CountTasks<S, X, E>(block: seq<TransitionCommand<S, X, E>>): nat {
    if block == [] then 0 else (if SetsTask(block[0]) then 1 else 0) + CountTasks(block[1..])
  }

  /** One target and one task per transition: a block that builds has at most one
      `transitionTo` and at most one `execute` that sets a task (counting what was set before),
      and the built transition has a target exactly when one was given. */
  lemma {:induction false} TransitionBlockRules<S, X, E>(t: StateTransition<S, X, E>, block: seq<TransitionCommand<S, X, E>>)
    requires RunTransitionBlock(t, block).Built?
    ensures (if t.next.Some? then 1 else 0) + CountTargets(block) <= 1
    ensures (if t.task.Some? then 1 else 0) + CountTasks(block) <= 1
    ensures RunTransitionBlock(t, block).value.next.Some? <==> t.next.Some? || CountTargets(block) == 1
    decreases |block|
  {
    if block != [] {
      var t1 := TransitionStep(t, block[0]).value;
      TransitionBlockRules(t1, block[1..]);
    }
  }

  class TransitionBuilder<S, X, E> {
    var nextState: Option<S>
    var task: Option<TransitionTask<E, S, X>>

    constructor ()
      ensures nextState.None? && task.None?
    {
      nextState := None;
      task := None;
    }

    /** `build()`: the declared target (possibly null) and the transition task. */
    function Build(): StateTransition<S, X, E>
      reads this
    {
      StateTransition(nextState, task)
    }

    method TransitionTo(state: S) returns (err: Option<ConfigError>)
      modifies this
      ensures Agrees(TransitionStep(old(Build()), TransitionCommand.TransitionTo(state)), err, old(Build()), Build())
    {
      if nextState.Some? {
        return Some(DuplicateTarget);
      }
      nextState := Some(state);
      return None;
    }

    /** The transition task setter every `execute` overload goes through. */
    method Execute(t: Option<TransitionTask<E, S, X>>) returns (err: Option<ConfigError>)
      modifies this
      ensures Agrees(TransitionStep(old(Build()), TransitionCommand.Execute(t)), err, old(Build()), Build())
    {
      if task.Some? {
        return Some(DuplicateTask);
      }
      task := t;
      return None;
    }

    method ExecuteUpdate(update: X -> Result<X>) returns (err: Option<ConfigError>)
      modifies this
      ensures Agrees(TransitionStep(old(Build()), TransitionCommand.ExecuteUpdate(update)), err, old(Build()), Build())
    {
      err := Execute(Some(UpdateTask(update)));
    }

    method ExecuteUnit(effect: () -> Result<()>) returns (err: Option<ConfigError>)
      modifies this
      ensures Agrees(TransitionStep(old(Build()), TransitionCommand.ExecuteUnit(effect)), err, old(Build()), Build())
    {
      err := Execute(Some(UnitTask(effect)));
    }

    method Do(c: TransitionCommand<S, X, E>) returns (err: Option<ConfigError>)
      modifies this
      ensures Agrees(TransitionStep(old(Build()), c), err, old(Build()), Build())
    {
      match c
      case TransitionTo(s) => err := TransitionTo(s);
      case Execute(t) => err := Execute(t);
      case ExecuteUpdate(update) => err := ExecuteUpdate(update);
      case ExecuteUnit(effect) => err := ExecuteUnit(effect);
    }

    /** `apply(fn)`: runs the block's calls in order until one fails. */
    method Run(block: seq<TransitionCommand<S, X, E>>) returns (err: Option<ConfigError>)
      modifies this
      ensures BlockAgrees(RunTransitionBlock(old(Build()), block), err, Build())
    {
      var i := 0;
      while i < |block|
        invariant 0 <= i <= |block|
        invariant RunTransitionBlock(old(Build()), block) == RunTransitionBlock(Build(), block[i..])
      {
        assert block[i..][0] == block[i] && block[i..][1..] == block[i + 1..];
        err := Do(block[i]);
        if err.Some? {
          return;
        }
        i := i + 1;
      }
      return None;
    }
  }

  // ---------------------------------------------------------------------------------------
  // ActionBuilder

  /** The action left by a `uponArrival { ... }` / `uponExit { ... }` block of `execute` calls,
      starting from the builder's current action. */
  function RunActionBlock<E, X>(current: Option<Action<E, X>>, executes: seq<Action<E, X>>): Option<Action<E, X>>
    decreases |executes|
  {
    if executes == [] then current else RunActionBlock(Some(executes[0]), executes[1..])
  }

  /** The last `execute` wins; a block without one keeps what the builder had. */
  lemma {:induction false} LastExecuteWins<E, X>(current: Option<Action<E, X>>, executes: seq<Action<E, X>>)
    ensures executes == [] ==> RunActionBlock(current, executes) == current
    ensures executes != [] ==> RunActionBlock(current, executes) == Some(executes[|executes| - 1])
    decreases |executes|
  {
    if executes != [] {
      LastExecuteWins(Some(executes[0]), executes[1..]);
      if |executes| > 1 {
        assert executes[1..][|executes[1..]| - 1] == executes[|executes| - 1];
      }
    }
  }

  class ActionBuilder<E, X> {
    var action: Option<Action<E, X>>

    constructor ()
      ensures action.None?
    {
      action := None;
    }

    method Execute(fn: Action<E, X>)
      modifies this
      ensures action == Some(fn)
    {
      action := Some(fn);
    }

    method Run(executes: seq<Action<E, X>>)
      modifies this
      ensures action == RunActionBlock(old(action), executes)
    {
      var i := 0;
      while i < |executes|
        invariant 0 <= i <= |executes|
        invariant RunActionBlock(old(action), executes) == RunActionBlock(action, executes[i..])
      {
        assert executes[i..][0] == executes[i] && executes[i..][1..] == executes[i + 1..];
        Execute(executes[i]);
        i := i + 1;
      }
    }
  }

  // ---------------------------------------------------------------------------------------
  // VertexBuilder

  /** A call inside a `stateDefinition(state) { ... }` or `applyToAllStateDefinitions { ... }`
      block; `tag` is the event class of `on<Event>`. */
  datatype VertexCommand<S, !X, !E, K> =
    | On(tag: K, block: seq<TransitionCommand<S, X, E>>)
    | UponArrival(arrivalExecutes: seq<Action<E, X>>)
    | UponExit(exitExecutes: seq<Action<E, X>>)

  function EmptyVertex<S, X, E, K>(state: Option<S>): Vertex<S, X, E, K> {
    Vertex(state, map[], None, None)
  }

  /** One call on a vertex builder whose build is `v`: `on` needs the event class unregistered
      and its own block to build; `uponArrival`/`uponExit` run their block on the one action
      builder of the vertex. The vertex's state never changes. */
  function VertexStep<S, X, E, K>(v: Vertex<S, X, E, K>, c: VertexCommand<S, X, E, K>): (r: Outcome<Vertex<S, X, E, K>>)
    ensures r.Built? ==> r.value.state == v.state
    ensures c.On? && c.tag in v.transitions ==> r == Failed(DuplicateEvent)
    ensures c.On? && c.tag !in v.transitions && RunTransitionBlock(StateTransition(None, None), c.block).Built?
            ==> r == Built(v.(transitions := v.transitions[c.tag := RunTransitionBlock(StateTransition(None, None), c.block).value]))
    ensures c.On? && c.tag !in v.transitions && RunTransitionBlock(StateTransition(None, None), c.block).Failed?
            ==> r == Failed(RunTransitionBlock(StateTransition(None, None), c.block).error)
    ensures c.UponArrival? ==> r == Built(v.(onArrival := RunActionBlock(v.onArrival, c.arrivalExecutes)))
    ensures c.UponExit? ==> r == Built(v.(onExit := RunActionBlock(v.onExit, c.exitExecutes)))
  {
    match c
    case On(tag, block) =>
      if tag in v.transitions then Failed(DuplicateEvent)
      else
        (match RunTransitionBlock(StateTransition(None, None), block)
         case Failed(e) => Failed(e)
         case Built(t) => Built(v.(transitions := v.transitions[tag := t])))
    case UponArrival(executes) => Built(v.(onArrival := RunActionBlock(v.onArrival, executes)))
    case UponExit(executes) => Built(v.(onExit := RunActionBlock(v.onExit, executes)))
  }

  /** A whole vertex block; stops at the first failure and never changes the vertex's state. */
  function RunVertexBlock<S, X, E, K>(v: Vertex<S, X, E, K>, block: seq<VertexCommand<S, X, E, K>>): (r: Outcome<Vertex<S, X, E, K>>)
    ensures r.Built? ==> r.value.state == v.state
    decreases |block|
  {
    if block == [] then Built(v)
    else
      match VertexStep(v, block[0])
      case Failed(e) => Failed(e)
      case Built(v1) => RunVertexBlock(v1, block[1..])
  }

  /** The event classes a vertex block registers with `on`, in order. */
  function Tags<S, X, E, K>(block: seq<VertexCommand<S, X, E, K>>): seq<K> {
    if block == [] then [] else (if block[0].On? then [block[0].tag] else []) + Tags(block[1..])
  }

  /** Each event class once per vertex: a vertex block that builds registers distinct event
      classes, none registered before, and the built vertex has exactly those transitions more. */
  lemma {:induction false} VertexBlockRules<S, X, E, K>(v: Vertex<S, X, E, K>, block: seq<VertexCommand<S, X, E, K>>)
    requires RunVertexBlock(v, block).Built?
    ensures Distinct(Tags(block))
    ensures forall i :: 0 <= i < |Tags(block)| ==> Tags(block)[i] !in v.transitions
    ensures RunVertexBlock(v, block).value.transitions.Keys == v.transitions.Keys + (set k | k in Tags(block))
    decreases |block|
  {
    if block != [] {
      var v1 := VertexStep(v, block[0]).value;
      VertexBlockRules(v1, block[1..]);
      if block[0].On? {
        assert v1.transitions.Keys == v.transitions.Keys + {block[0].tag};
        assert Tags(block) == [block[0].tag] + Tags(block[1..]);
      } else {
        assert Tags(block) == Tags(block[1..]);
      }
    }
  }

  class VertexBuilder<S, X, E, K(==)> {
    const state: Option<S>
    var transitions: map<K, StateTransition<S, X, E>>
    var arrivalBuilder: ActionBuilder?<E, X>
    var exitBuilder: ActionBuilder?<E, X>
    ghost var Repr: set<object>

    /** The arrival and exit builders are two distinct objects owned by this vertex builder. */
    ghost predicate Valid()
      reads this, Repr
    {
      && this in Repr
      && (arrivalBuilder != null ==> arrivalBuilder in Repr)
      && (exitBuilder != null ==> exitBuilder in Repr)
      && (arrivalBuilder != null ==> arrivalBuilder != exitBuilder)
    }

    constructor (state: Option<S>)
      ensures Valid() && fresh(Repr)
      ensures this.state == state
      ensures Build() == EmptyVertex(state)
    {
      this.state := state;
      transitions := map[];
      arrivalBuilder := null;
      exitBuilder := null;
      Repr := {this};
    }

    /** `build()`: the actions are whatever the action builders (if any) hold now. */
    function Build(): Vertex<S, X, E, K>
      reads this, arrivalBuilder, exitBuilder
    {
      Vertex(state, transitions,
             if arrivalBuilder == null then None else arrivalBuilder.action,
             if exitBuilder == null then None else exitBuilder.action)
    }

    method On(tag: K, block: seq<TransitionCommand<S, X, E>>) returns (err: Option<ConfigError>)
      requires Valid()
      modifies Repr
      ensures Valid() && fresh(Repr - old(Repr))
      ensures Agrees(VertexStep(old(Build()), VertexCommand.On(tag, block)), err, old(Build()), Build())
    {
      if tag in transitions {
        return Some(DuplicateEvent);
      }
      var builder := new TransitionBuilder();
      err := builder.Run(block);
      if err.Some? {
        return;
      }
      transitions := transitions[tag := builder.Build()];
    }

    /** `uponArrival`: creates the arrival builder on first use and reuses it afterwards. */
    method UponArrival(executes: seq<Action<E, X>>)
      requires Valid()
      modifies Repr
      ensures Valid() && fresh(Repr - old(Repr))
      ensures old(arrivalBuilder) != null ==> arrivalBuilder == old(arrivalBuilder)
      ensures Build() == VertexStep(old(Build()), VertexCommand.UponArrival(executes)).value
    {
      if arrivalBuilder == null {
        var builder := new ActionBuilder();
        arrivalBuilder := builder;
        Repr := Repr + {builder};
      }
      arrivalBuilder.Run(executes);
    }

    /** `uponExit`: creates the exit builder on first use and reuses it afterwards. */
    method UponExit(executes: seq<Action<E, X>>)
      requires Valid()
      modifies Repr
      ensures Valid() && fresh(Repr - old(Repr))
      ensures old(exitBuilder) != null ==> exitBuilder == old(exitBuilder)
      ensures Build() == VertexStep(old(Build()), VertexCommand.UponExit(executes)).value
    {
      if exitBuilder == null {
        var builder := new ActionBuilder();
        exitBuilder := builder;
        Repr := Repr + {builder};
      }
      exitBuilder.Run(executes);
    }

    method Do(c: VertexCommand<S, X, E, K>) returns (err: Option<ConfigError>)
      requires Valid()
      modifies Repr
      ensures Valid() && fresh(Repr - old(Repr))
      ensures Agrees(VertexStep(old(Build()), c), err, old(Build()), Build())
    {
      match c
      case On(tag, block) =>
        err := On(tag, block);
      case UponArrival(executes) =>
        UponArrival(executes);
        err := None;
      case UponExit(executes) =>
        UponExit(executes);
        err := None;
    }

    /** `apply(fn)` on a vertex builder: runs the block's calls in order until one fails. */
    method Run(block: seq<VertexCommand<S, X, E, K>>) returns (err: Option<ConfigError>)
      requires Valid()
      modifies Repr
      ensures Valid() && fresh(Repr - old(Repr))
      ensures BlockAgrees(RunVertexBlock(old(Build()), block), err, Build())
    {
      var i := 0;
      while i < |block|
        invariant 0 <= i <= |block|
        invariant Valid() && fresh(Repr - old(Repr))
        invariant RunVertexBlock(old(Build()), block) == RunVertexBlock(Build(), block[i..])
      {
        assert block[i..][0] == block[i] && block[i..][1..] == block[i + 1..];
        err := Do(block[i]);
        if err.Some? {
          return;
        }
        i := i + 1;
      }
      return None;
    }
  }

  // ---------------------------------------------------------------------------------------
  // StateMachineBuilder

  /** What a state machine builder holds: the set-once starting values, the optional
      configuration, and the built super vertex and state vertices. */
  datatype Draft<S, !X, !E, K> = Draft(
    acceptingState: Option<S>,
    acceptingExtendedState: Option<X>,
    config: Option<StateMachineConfig>,
    superVertex: Option<Vertex<S, X, E, K>>,
    vertices: map<S, Vertex<S, X, E, K>>)

  function EmptyDraft<S, X, E, K>(): Draft<S, X, E, K> {
    Draft(None, None, None, None, map[])
  }

  /** Every defined vertex carries its own state; the super vertex carries none. */
  ghost predicate DraftValid<S, X, E, K>(d: Draft<S, X, E, K>) {
    && (forall s :: s in d.vertices ==> d.vertices[s].state == Some(s))
    && (d.superVertex.Some? ==> d.superVertex.value.state.None?)
  }

  /** A call inside `StateMachine { ... }`. */
  datatype MachineCommand<S, !X, !E, K> =
    | StartingState(state: S)
    | StartingExtendedState(extendedState: X)
    | WithConfig(config: StateMachineConfig)
    | ApplyToAllStateDefinitions(block: seq<VertexCommand<S, X, E, K>>)
    | StateDefinition(state: S, block: seq<VertexCommand<S, X, E, K>>)

  /** The lazily built state store: its first use checks the starting state, then (building
      the extended-state store) the starting extended state. */
  function StoreCheck<S, X, E, K>(d: Draft<S, X, E, K>): (err: Option<ConfigError>)
    ensures err.None? <==> d.acceptingState.Some? && d.acceptingExtendedState.Some?
    ensures d.acceptingState.None? ==> err == Some(StartingStateUnset)
    ensures d.acceptingState.Some? && d.acceptingExtendedState.None? ==> err == Some(StartingExtendedStateUnset)
  {
    if d.acceptingState.None? then Some(StartingStateUnset)
    else if d.acceptingExtendedState.None? then Some(StartingExtendedStateUnset)
    else None
  }

  /** One call on the state machine builder. The starting values are set once; `withConfig`
      always succeeds and replaces the previous configuration; the super vertex is defined
      once and each state once, each only after the store can be built and only if its block
      builds. */
  function MachineStep<S, X, E, K>(d: Draft<S, X, E, K>, c: MachineCommand<S, X, E, K>): (r: Outcome<Draft<S, X, E, K>>)
    ensures r.Built? && DraftValid(d) ==> DraftValid(r.value)
    ensures c.StartingState? ==> r == (if d.acceptingState.Some? then Failed(DuplicateStartingState) else Built(d.(acceptingState := Some(c.state))))
    ensures c.StartingExtendedState? ==> r == (if d.acceptingExtendedState.Some? then Failed(DuplicateStartingExtendedState) else Built(d.(acceptingExtendedState := Some(c.extendedState))))
    ensures c.WithConfig? ==> r == Built(d.(config := Some(c.config)))
    ensures c.ApplyToAllStateDefinitions? && d.superVertex.Some? ==> r == Failed(DuplicateSuperVertex)
    ensures c.StateDefinition? && c.state in d.vertices ==> r == Failed(DuplicateState)
    ensures (c.ApplyToAllStateDefinitions? && d.superVertex.None?) || (c.StateDefinition? && c.state !in d.vertices)
            ==> (StoreCheck(d).Some? ==> r == Failed(StoreCheck(d).value))
    ensures c.ApplyToAllStateDefinitions? && r.Built?
            ==> RunVertexBlock(EmptyVertex(None), c.block).Built? && r.value == d.(superVertex := Some(RunVertexBlock(EmptyVertex(None), c.block).value))
    ensures c.StateDefinition? && r.Built?
            ==> RunVertexBlock(EmptyVertex(Some(c.state)), c.block).Built? && r.value == d.(vertices := d.vertices[c.state := RunVertexBlock(EmptyVertex(Some(c.state)), c.block).value])
  {
    match c
    case StartingState(s) =>
      if d.acceptingState.Some? then Failed(DuplicateStartingState) else Built(d.(acceptingState := Some(s)))
    case StartingExtendedState(x) =>
      if d.acceptingExtendedState.Some? then Failed(DuplicateStartingExtendedState) else Built(d.(acceptingExtendedState := Some(x)))
    case WithConfig(config) =>
      Built(d.(config := Some(config)))
    case ApplyToAllStateDefinitions(block) =>
      if d.superVertex.Some? then Failed(DuplicateSuperVertex)
      else if StoreCheck(d).Some? then Failed(StoreCheck(d).value)
      else
        (match RunVertexBlock(EmptyVertex(None), block)
         case Failed(e) => Failed(e)
         case Built(v) => Built(d.(superVertex := Some(v))))
    case StateDefinition(s, block) =>
      if s in d.vertices then Failed(DuplicateState)
      else if StoreCheck(d).Some? then Failed(StoreCheck(d).value)
      else
        match RunVertexBlock(EmptyVertex(Some(s)), block)
        case Failed(e) => Failed(e)
        case Built(v) => Built(d.(vertices := d.vertices[s := v]))
  }

  /** The whole `StateMachine { ... }` block; stops at the first failure. */
  function RunMachineBlock<S, X, E, K>(d: Draft<S, X, E, K>, block: seq<MachineCommand<S, X, E, K>>): (r: Outcome<Draft<S, X, E, K>>)
    ensures r.Built? && DraftValid(d) ==> DraftValid(r.value)
    decreases |block|
  {
    if block == [] then Built(d)
    else
      match MachineStep(d, block[0])
      case Failed(e) => Failed(e)
      case Built(d1) => RunMachineBlock(d1, block[1..])
  }

  /** What `build()` hands to the machine: the definition, the starting state and the starting
      extended state of the store. */
  datatype Blueprint<S, !X, !E, K> = Blueprint(definition: Definition<S, X, E, K>, acceptingState: S, extendedState: X)

  /** `build()`: needs the store (so both starting values), supplies an empty super vertex with
      no state and the default configuration when none was given, and fails when the starting
      state has no vertex. `tagOf` gives an event's class. */
  function BuildDefinition<S, X, E, K>(d: Draft<S, X, E, K>, tagOf: E -> K): (r: Outcome<Blueprint<S, X, E, K>>)
    ensures StoreCheck(d).Some? ==> r == Failed(StoreCheck(d).value)
    ensures StoreCheck(d).None? && d.acceptingState.value !in d.vertices ==> r == Failed(NoVertexForStartingState)
    ensures r.Built? <==> StoreCheck(d).None? && d.acceptingState.value in d.vertices
    ensures r.Built? ==> && r.value.acceptingState == d.acceptingState.value
                         && r.value.extendedState == d.acceptingExtendedState.value
                         && r.value.definition.vertices == d.vertices
                         && r.value.definition.tagOf == tagOf
                         && r.value.definition.superVertex == d.superVertex.GetOr(EmptyVertex(None))
                         && r.value.definition.config == d.config.GetOr(DefaultConfig())
    ensures r.Built? && DraftValid(d) ==> WellFormed(r.value.definition)
  {
    if StoreCheck(d).Some? then Failed(StoreCheck(d).value)
    else
      var definition := Definition(d.vertices, d.superVertex.GetOr(EmptyVertex(None)), d.config.GetOr(DefaultConfig()), tagOf);
      if d.acceptingState.value !in d.vertices then Failed(NoVertexForStartingState)
      else Built(Blueprint(definition, d.acceptingState.value, d.acceptingExtendedState.value))
  }

  /** `StateMachine { ... }`: the block on a fresh builder, then `build()`. */
  function Define<S, X, E, K>(block: seq<MachineCommand<S, X, E, K>>, tagOf: E -> K): (r: Outcome<Blueprint<S, X, E, K>>)
    ensures r.Built? ==> WellFormed(r.value.definition) && r.value.acceptingState in r.value.definition.vertices
  {
    match RunMachineBlock(EmptyDraft(), block)
    case Failed(e) => Failed(e)
    case Built(d) => BuildDefinition(d, tagOf)
  }

  function CountStartingStates<S, X, E, K>(block: seq<MachineCommand<S, X, E, K>>): nat {
    if block == [] then 0 else (if block[0].StartingState? then 1 else 0) + CountStartingStates(block[1..])
  }

  function CountStartingExtendedStates<S, X, E, K>(block: seq<MachineCommand<S, X, E, K>>): nat {
    if block == [] then 0 else (if block[0].StartingExtendedState? then 1 else 0) + CountStartingExtendedStates(block[1..])
  }

  function CountApplyToAll<S, X, E, K>(block: seq<MachineCommand<S, X, E, K>>): nat {
    if block == [] then 0 else (if block[0].ApplyToAllStateDefinitions? then 1 else 0) + CountApplyToAll(block[1..])
  }

  /** The states a machine block defines with `stateDefinition`, in order. */
  function DefinedStates<S, X, E, K>(block: seq<MachineCommand<S, X, E, K>>): seq<S> {
    if block == [] then [] else (if block[0].StateDefinition? then [block[0].state] else []) + DefinedStates(block[1..])
  }

  /** Set-once registration: a machine block that builds sets the starting state, the starting
      extended state and the super vertex at most once each (counting what was set before),
      defines distinct states none of which was defined before, and ends with exactly those
      vertices more. */
  lemma {:induction false} MachineBlockRules<S, X, E, K>(d: Draft<S, X, E, K>, block: seq<MachineCommand<S, X, E, K>>)
    requires RunMachineBlock(d, block).Built?
    ensures (if d.acceptingState.Some? then 1 else 0) + CountStartingStates(block) <= 1
    ensures (if d.acceptingExtendedState.Some? then 1 else 0) + CountStartingExtendedStates(block) <= 1
    ensures (if d.superVertex.Some? then 1 else 0) + CountApplyToAll(block) <= 1
    ensures Distinct(DefinedStates(block))
    ensures forall i :: 0 <= i < |DefinedStates(block)| ==> DefinedStates(block)[i] !in d.vertices
    ensures RunMachineBlock(d, block).value.vertices.Keys == d.vertices.Keys + (set s | s in DefinedStates(block))
    decreases |block|
  {
    if block != [] {
      var d1 := MachineStep(d, block[0]).value;
      MachineStepSetsOnce(d, block[0]);
      MachineBlockRules(d1, block[1..]);
      if block[0].StateDefinition? {
        assert DefinedStates(block) == [block[0].state] + DefinedStates(block[1..]);
        DefineFirst(block[0].state, DefinedStates(block[1..]), d.vertices.Keys, d1.vertices.Keys);
      } else {
        assert DefinedStates(block) == DefinedStates(block[1..]);
      }
    }
  }

  /** One command that builds sets only what it names, and only when it was unset. */
  lemma MachineStepSetsOnce<S, X, E, K>(d: Draft<S, X, E, K>, c: MachineCommand<S, X, E, K>)
    requires MachineStep(d, c).Built?
    ensures var d1 := MachineStep(d, c).value;
            && (if c.StartingState? then d.acceptingState.None? && d1.acceptingState.Some? else d1.acceptingState == d.acceptingState)
            && (if c.StartingExtendedState? then d.acceptingExtendedState.None? && d1.acceptingExtendedState.Some?
                else d1.acceptingExtendedState == d.acceptingExtendedState)
            && (if c.ApplyToAllStateDefinitions? then d.superVertex.None? && d1.superVertex.Some? else d1.superVertex == d.superVertex)
            && (if c.StateDefinition? then c.state !in d.vertices && d1.vertices.Keys == d.vertices.Keys + {c.state}
                else d1.vertices == d.vertices)
  {
  }

  /** Ordering: defining the super vertex or any state before `startingState` (or before
      `startingExtendedState`) has been called makes the whole block fail. */
  lemma {:induction false} VertexBeforeStartingValuesFails<S, X, E, K>(d: Draft<S, X, E, K>, block: seq<MachineCommand<S, X, E, K>>, i: nat)
    requires i < |block| && (block[i].ApplyToAllStateDefinitions? || block[i].StateDefinition?)
    requires || (d.acceptingState.None? && forall j :: 0 <= j < i ==> !block[j].StartingState?)
             || (d.acceptingExtendedState.None? && forall j :: 0 <= j < i ==> !block[j].StartingExtendedState?)
    ensures RunMachineBlock(d, block).Failed?
    decreases i
  {
    if i > 0 && MachineStep(d, block[0]).Built? {
      VertexBeforeStartingValuesFails(MachineStep(d, block[0]).value, block[1..], i - 1);
    }
  }

  /** `withConfig` may be called any number of times; the last call wins. */
  lemma {:induction false} WithConfigLastWins<S, X, E, K>(d: Draft<S, X, E, K>, block: seq<MachineCommand<S, X, E, K>>)
    requires RunMachineBlock(d, block).Built?
    ensures (forall i :: 0 <= i < |block| ==> !block[i].WithConfig?) ==> RunMachineBlock(d, block).value.config == d.config
    ensures forall i :: (0 <= i < |block| && block[i].WithConfig? && (forall j :: i < j < |block| ==> !block[j].WithConfig?)
                         ==> RunMachineBlock(d, block).value.config == Some(block[i].config))
    decreases |block|
  {
    if block != [] {
      var d1 := MachineStep(d, block[0]).value;
      WithConfigLastWins(d1, block[1..]);
      forall i | 0 <= i < |block| && block[i].WithConfig? && (forall j :: i < j < |block| ==> !block[j].WithConfig?)
        ensures RunMachineBlock(d, block).value.config == Some(block[i].config)
      {
        if i > 0 {
          assert block[1..][i - 1] == block[i];
          assert forall j :: i - 1 < j < |block[1..]| ==> block[1..][j] == block[j + 1];
        } else {
          assert forall j :: 0 <= j < |block[1..]| ==> block[1..][j] == block[j + 1];
        }
      }
      if forall i :: 0 <= i < |block| ==> !block[i].WithConfig? {
        assert forall j :: 0 <= j < |block[1..]| ==> block[1..][j] == block[j + 1];
      }
    }
  }

  class StateMachineBuilder<S(==), X, E, K(==)> {
    var acceptingState: Option<S>
    var acceptingExtendedState: Option<X>
    var stateMachineConfig: Option<StateMachineConfig>
    var superVertex: Option<Vertex<S, X, E, K>>
    var vertices: map<S, Vertex<S, X, E, K>>
    /** The `extendedStateStore` the builder creates the first time its `stateStore` is read
        once both starting values are set; null until then. Every machine it builds shares it. */
    var extendedStateStore: ExtendedStateStore?<X>

    function Snapshot(): Draft<S, X, E, K>
      reads this
    {
      Draft(acceptingState, acceptingExtendedState, stateMachineConfig, superVertex, vertices)
    }

    ghost predicate Valid()
      reads this
    {
      && DraftValid(Snapshot())
      && (extendedStateStore != null ==> StoreCheck(Snapshot()).None?)
    }

    constructor ()
      ensures Valid() && Snapshot() == EmptyDraft() && extendedStateStore == null
    {
      acceptingState := None;
      acceptingExtendedState := None;
      stateMachineConfig := None;
      superVertex := None;
      vertices := map[];
      extendedStateStore := null;
    }

    method StartingState(value: S) returns (err: Option<ConfigError>)
      requires Valid()
      modifies this
      ensures Valid()
      ensures Agrees(MachineStep(old(Snapshot()), MachineCommand.StartingState(value)), err, old(Snapshot()), Snapshot())
      ensures extendedStateStore == old(extendedStateStore)
    {
      if acceptingState.Some? {
        return Some(DuplicateStartingState);
      }
      acceptingState := Some(value);
      return None;
    }

    method StartingExtendedState(value: X) returns (err: Option<ConfigError>)
      requires Valid()
      modifies this
      ensures Valid()
      ensures Agrees(MachineStep(old(Snapshot()), MachineCommand.StartingExtendedState(value)), err, old(Snapshot()), Snapshot())
      ensures extendedStateStore == old(extendedStateStore)
    {
      if acceptingExtendedState.Some? {
        return Some(DuplicateStartingExtendedState);
      }
      acceptingExtendedState := Some(value);
      return None;
    }

    method WithConfig(config: StateMachineConfig)
      requires Valid()
      modifies this
      ensures Valid()
      ensures Snapshot() == MachineStep(old(Snapshot()), MachineCommand.WithConfig(config)).value
      ensures extendedStateStore == old(extendedStateStore)
    {
      stateMachineConfig := Some(config);
    }

    /** The lazy `stateStore` getter: fails while a starting value is unset; otherwise creates
        the extended state store on first use, holding the starting extended state, and returns
        the same store ever after. */
    method CheckStore() returns (err: Option<ConfigError>)
      requires Valid()
      modifies this
      ensures Valid() && Snapshot() == old(Snapshot())
      ensures err == StoreCheck(Snapshot())
      ensures err.None? <==> extendedStateStore != null
      ensures old(extendedStateStore) != null ==> extendedStateStore == old(extendedStateStore)
      ensures old(extendedStateStore) == null && extendedStateStore != null
              ==> fresh(extendedStateStore) && Some(extendedStateStore.extState) == acceptingExtendedState
    {
      if acceptingState.None? {
        return Some(StartingStateUnset);
      }
      if acceptingExtendedState.None? {
        return Some(StartingExtendedStateUnset);
      }
      if extendedStateStore == null {
        extendedStateStore := new ExtendedStateStore(acceptingExtendedState.value);
      }
      return None;
    }

    method ApplyToAllStateDefinitions(block: seq<VertexCommand<S, X, E, K>>) returns (err: Option<ConfigError>)
      requires Valid()
      modifies this
      ensures Valid()
      ensures Agrees(MachineStep(old(Snapshot()), MachineCommand.ApplyToAllStateDefinitions(block)), err, old(Snapshot()), Snapshot())
      ensures old(extendedStateStore) != null ==> extendedStateStore == old(extendedStateStore)
      ensures old(extendedStateStore) == null && extendedStateStore != null
              ==> fresh(extendedStateStore) && Some(extendedStateStore.extState) == acceptingExtendedState
    {
      if superVertex.Some? {
        return Some(DuplicateSuperVertex);
      }
      err := CheckStore();
      if err.Some? {
        return;
      }
      var builder := new VertexBuilder(None);
      err := builder.Run(block);
      if err.Some? {
        return;
      }
      superVertex := Some(builder.Build());
    }

    method StateDefinition(state: S, block: seq<VertexCommand<S, X, E, K>>) returns (err: Option<ConfigError>)
      requires Valid()
      modifies this
      ensures Valid()
      ensures Agrees(MachineStep(old(Snapshot()), MachineCommand.StateDefinition(state, block)), err, old(Snapshot()), Snapshot())
      ensures old(extendedStateStore) != null ==> extendedStateStore == old(extendedStateStore)
      ensures old(extendedStateStore) == null && extendedStateStore != null
              ==> fresh(extendedStateStore) && Some(extendedStateStore.extState) == acceptingExtendedState
    {
      if state in vertices {
        return Some(DuplicateState);
      }
      err := CheckStore();
      if err.Some? {
        return;
      }
      var builder := new VertexBuilder(Some(state));
      err := builder.Run(block);
      if err.Some? {
        return;
      }
      vertices := vertices[state := builder.Build()];
    }

    method Do(c: MachineCommand<S, X, E, K>) returns (err: Option<ConfigError>)
      requires Valid()
      modifies this
      ensures Valid()
      ensures Agrees(MachineStep(old(Snapshot()), c), err, old(Snapshot()), Snapshot())
      ensures old(extendedStateStore) != null ==> extendedStateStore == old(extendedStateStore)
      ensures old(extendedStateStore) == null && extendedStateStore != null
              ==> fresh(extendedStateStore) && Some(extendedStateStore.extState) == acceptingExtendedState
    {
      match c
      case StartingState(s) => err := StartingState(s);
      case StartingExtendedState(x) => err := StartingExtendedState(x);
      case WithConfig(config) =>
        WithConfig(config);
        err := None;
      case ApplyToAllStateDefinitions(block) => err := ApplyToAllStateDefinitions(block);
      case StateDefinition(s, block) => err := StateDefinition(s, block);
    }

    /** `builder.fn()`: runs the block's calls in order until one fails. */
    method Run(block: seq<MachineCommand<S, X, E, K>>) returns (err: Option<ConfigError>)
      requires Valid()
      modifies this
      ensures Valid()
      ensures BlockAgrees(RunMachineBlock(old(Snapshot()), block), err, Snapshot())
      ensures old(extendedStateStore) != null ==> extendedStateStore == old(extendedStateStore)
      ensures old(extendedStateStore) == null && extendedStateStore != null
              ==> fresh(extendedStateStore) && Some(extendedStateStore.extState) == acceptingExtendedState
    {
      var i := 0;
      while i < |block|
        invariant 0 <= i <= |block|
        invariant Valid()
        invariant RunMachineBlock(old(Snapshot()), block) == RunMachineBlock(Snapshot(), block[i..])
        invariant old(extendedStateStore) != null ==> extendedStateStore == old(extendedStateStore)
        invariant old(extendedStateStore) == null && extendedStateStore != null
                  ==> fresh(extendedStateStore) && Some(extendedStateStore.extState) == acceptingExtendedState
      {
        assert block[i..][0] == block[i] && block[i..][1..] == block[i + 1..];
        err := Do(block[i]);
        if err.Some? {
          return;
        }
        i := i + 1;
      }
      return None;
    }

    /** `build()`: the machine over the built vertices, on the builder's extended state store
        (created now if no definition created it). Machines built by one builder share that
        store: a later one starts from whatever extended state the earlier ones left in it. */
    method Build(tagOf: E -> K) returns (r: Outcome<StateMachine<S, X, E, K>>)
      requires Valid()
      modifies this
      ensures Valid() && Snapshot() == old(Snapshot())
      ensures old(extendedStateStore) != null ==> extendedStateStore == old(extendedStateStore)
      ensures old(extendedStateStore) == null && extendedStateStore != null
              ==> fresh(extendedStateStore) && Some(extendedStateStore.extState) == acceptingExtendedState
      ensures var spec := BuildDefinition(Snapshot(), tagOf);
              && (r.Built? <==> spec.Built?)
              && (r.Failed? ==> r.error == spec.error)
              && (r.Built? ==> && fresh(r.value) && r.value.Valid()
                               && r.value.store == extendedStateStore
                               && r.value.def == spec.value.definition
                               && r.value.CurrentState() == spec.value.acceptingState
                               && (old(extendedStateStore) == null ==> r.value.store.extState == spec.value.extendedState)
                               && r.value.calls == [])
    {
      var err := CheckStore();
      if err.Some? {
        return Failed(err.value);
      }
      var store := extendedStateStore;
      var definition := Definition(vertices, superVertex.GetOr(EmptyVertex(None)), stateMachineConfig.GetOr(DefaultConfig()), tagOf);
      var machine := StateMachine.Create(definition, store, acceptingState.value);
      if machine.None? {
        return Failed(NoVertexForStartingState);
      }
      return Built(machine.value);
    }
  }

  /** `StateMachine { ... }`: a fresh builder, the block, then `build()`. */
  method DefineMachine<S(==), X, E, K(==)>(block: seq<MachineCommand<S, X, E, K>>, tagOf: E -> K)
    returns (r: Outcome<StateMachine<S, X, E, K>>)
    ensures var spec := Define(block, tagOf);
            && (r.Built? <==> spec.Built?)
            && (r.Failed? ==> r.error == spec.error)
            && (r.Built? ==> && fresh(r.value) && fresh(r.value.store) && r.value.Valid()
                             && r.value.def == spec.value.definition
                             && r.value.CurrentState() == spec.value.acceptingState
                             && r.value.store.extState == spec.value.extendedState)
  {
    var builder := new StateMachineBuilder();
    var err := builder.Run(block);
    if err.Some? {
      return Failed(err.value);
    }
    r := builder.Build(tagOf);
  }

  /** Calling `build()` twice on one builder: either both calls fail alike or both build,
      giving two machines that share one extended state store. */
  method BuildTwice<S(==), X, E, K(==)>(builder: StateMachineBuilder<S, X, E, K>, tagOf: E -> K)
    returns (first: Outcome<StateMachine<S, X, E, K>>, second: Outcome<StateMachine<S, X, E, K>>)
    requires builder.Valid()
    modifies builder
    ensures first.Built? <==> second.Built?
    ensures first.Failed? ==> second.Failed? && first.error == second.error
    ensures first.Built? ==> first.value != second.value && first.value.store == second.value.store
  {
    first := builder.Build(tagOf);
    second := builder.Build(tagOf);
  }

  // ---------------------------------------------------------------------------------------
  // Unfolding the block interpreters one command at a time

  /** Unfolds `RunMachineBlock` by one command. */
  lemma MachineBlockStep<S, X, E, K>(d: Draft<S, X, E, K>, block: seq<MachineCommand<S, X, E, K>>, next: Draft<S, X, E, K>)
    requires block != [] && MachineStep(d, block[0]) == Built(next)
    ensures RunMachineBlock(d, block) == RunMachineBlock(next, block[1..])
  {
  }

  /** A block that opens with `startingState` and `startingExtendedState` runs the rest on a draft
      holding just those two values. */
  lemma StartingValuesRun<S, X, E, K>(state: S, x: X, rest: seq<MachineCommand<S, X, E, K>>)
    ensures RunMachineBlock(EmptyDraft(), [StartingState(state), StartingExtendedState(x)] + rest)
            == RunMachineBlock(Draft(Some(state), Some(x), None, None, map[]), rest)
  {
    var b := [StartingState(state), StartingExtendedState(x)] + rest;
    var d0: Draft<S, X, E, K> := EmptyDraft();
    var d1 := d0.(acceptingState := Some(state));
    MachineBlockStep(d0, b, d1);
    assert b[1..] == [StartingExtendedState(x)] + rest;
    MachineBlockStep(d1, b[1..], Draft(Some(state), Some(x), None, None, map[]));
    assert b[1..][1..] == rest;
  }

  /** `stateDefinition` of a new state, once both starting values are set, registers the vertex
      its block builds; the rest of the machine block then runs on that draft. */
  lemma StateDefinitionRuns<S, X, E, K>(d: Draft<S, X, E, K>, state: S, block: seq<VertexCommand<S, X, E, K>>, v: Vertex<S, X, E, K>,
                                        rest: seq<MachineCommand<S, X, E, K>>)
    returns (next: Draft<S, X, E, K>)
    requires state !in d.vertices && d.acceptingState.Some? && d.acceptingExtendedState.Some?
    requires RunVertexBlock(EmptyVertex(Some(state)), block) == Built(v)
    ensures next == d.(vertices := d.vertices[state := v])
    ensures RunMachineBlock(d, [StateDefinition(state, block)] + rest) == RunMachineBlock(next, rest)
  {
    next := d.(vertices := d.vertices[state := v]);
    MachineBlockStep(d, [StateDefinition(state, block)] + rest, next);
    assert ([StateDefinition(state, block)] + rest)[1..] == rest;
  }

  /** Unfolds `RunVertexBlock` by one command. */
  lemma VertexBlockStep<S, X, E, K>(v: Vertex<S, X, E, K>, block: seq<VertexCommand<S, X, E, K>>, next: Vertex<S, X, E, K>)
    requires block != [] && VertexStep(v, block[0]) == Built(next)
    ensures RunVertexBlock(v, block) == RunVertexBlock(next, block[1..])
  {
  }

  /** A transition block of one target and one task builds the transition holding both. */
  lemma TargetAndTask<S, X, E>(target: S, task: TransitionCommand<S, X, E>)
    requires !task.TransitionTo?
    ensures RunTransitionBlock(StateTransition(None, None), [TransitionTo(target), task]) == Built(StateTransition(Some(target), TaskOf(task)))
  {
    var block := [TransitionTo(target), task];
    var t1 := StateTransition(Some(target), None);
    assert TransitionStep(StateTransition(None, None), block[0]) == Built(t1);
    assert block[1..] == [task] && block[1..][1..] == [];
    var t2 := StateTransition(Some(target), TaskOf(task));
    assert TransitionStep(t1, task) == Built(t2);
    assert RunTransitionBlock(t2, block[1..][1..]) == Built(t2);
    assert RunTransitionBlock(t1, block[1..]) == Built(t2);
  }

  /** A transition block of one task builds the transition holding only that task. */
  lemma TaskOnly<S, X, E>(task: TransitionCommand<S, X, E>)
    requires !task.TransitionTo?
    ensures RunTransitionBlock(StateTransition(None, None), [task]) == Built(StateTransition(None, TaskOf(task)))
  {
    var block := [task];
    assert block[1..] == [];
  }

  /** A transition block of one target builds the transition with that target and no task. */
  lemma TargetOnly<S, X, E>(target: S)
    ensures RunTransitionBlock<S, X, E>(StateTransition(None, None), [TransitionTo(target)]) == Built(StateTransition(Some(target), None))
  {
    var block: seq<TransitionCommand<S, X, E>> := [TransitionTo(target)];
    assert block[1..] == [];
  }
}
