# state-machine-kt in Dafny

A verified model of the two generations of the Kotlin finite-state-machine engine in the
state-machine-kt repository, and of the configuration DSLs that build their machines.

- **The newer engine** (`state-machine-kt-engine`). A machine holds a table of vertices, one
  per state, and a "super" vertex whose transitions and arrival action apply to every state.
  It also holds a configuration and one mutable extended-state store.
  - `processEvent` runs in this order:
    1. It looks up the transition by the event's class: first in the current vertex, then in
       the super vertex.
    2. It runs the transition's optional task and commits its extended state.
    3. It runs the exit action only when the transition task overrides the next state with a different
       state. The exit action's result is discarded.
    4. It moves to the next state: the transition task's override, else the declared target, else the
       current state.
    5. It runs the arrival action of the new vertex, else that of the super vertex, and
       commits its result.
    6. It processes the event that the arrival asked to trigger, before returning.
  - `kt_types.dfy`, `kt_vertex.dfy` and `kt_engine.dfy` hold this engine.
    - `KtEngine.Step` and `KtEngine.Process` state one call as functions.
    - The class `KtEngine.StateMachine` does the same in place and is proved to agree with
      them.
    - `kt_engine_properties.dfy` proves the engine's guarantees about those functions.
- **The newer DSL** (`kt_dsl.dfy`). `StateMachineBuilder`, `VertexBuilder`, `ActionBuilder`
  and `TransitionBuilder` are classes that register configuration in place. Each class is
  proved to agree with a function saying what a block of DSL calls builds, or which
  `require`/`check` it breaks.
  - Lemmas state the set-once rules:
    - one starting state and one starting extended state;
    - one super vertex, and each state defined once;
    - each event class registered once per vertex;
    - one target and one task per transition.
  - Lemmas also state the ordering rule the lazily built store imposes, and the defaults that
    `build` supplies.
- **The older engine.**
  - `mr_state_machine.dfy` holds the minimal machine. It follows the current vertex's
    transition for an event, or throws.
  - `mr_state_processor.dfy` holds the `StateProcessor` arrival pipeline: extract, then run,
    then merge.
  - `mr_dsl.dfy` holds the older DSL: `stateHandler`, the two `then` extensions,
    `ArrivalBuilder`, and the same set-once rules.
- **The examples from the tests.**
  - `calculator.dfy` holds the calculator's transition tasks (`Operands`).
  - `kt_examples.dfy` runs the calculator on the newer engine. It defines the calculator
    with the DSL, proves the block builds the intended machine, and runs every calculator
    test on it, key by key.
  - `kt_etl.dfy` holds the extract-transform-load pipeline. There, one `Run` event carries
    the machine through every stage by propagated events.

The transition task and action values supplied by the user are modelled as total functions that may
throw (`Result`).

- User code receives the value the store holds. User code outside the engine module cannot
  write the store, because its setter is `internal`.
- The running machine records, in a ghost `calls` sequence, which user code ran and what it
  was given. This is how the properties about exit and arrival actions, and what the ETL
  loading stage was handed, are stated.
- Exceptions become outcomes:
  - an exception from `processEvent` becomes a `Status`;
  - a builder's `require`/`check` failure becomes a `ConfigError`.


## Model

| member | source | states |
|---|---|---|
| KtTypes.DefaultConfig | mr-state-machine-engine/src/main/kotlin/com/mrstatemachine/engine/StateMachineConfig.kt:3-10 | the configuration used when none is given does not throw on unrecognized events |
| KtTypes.ExtendedStateStore.constructor | state-machine-kt-engine/src/main/kotlin/com/statemachinekt/engine/ExtendedStateStore.kt:3-8 | a new store holds the extended state it is given |
| KtTypes.ExtendedStateStore.ExtendedState | state-machine-kt-engine/src/main/kotlin/com/statemachinekt/engine/ExtendedStateStore.kt:7 | the public getter returns what the store holds |
| KtVertex.Arrive | state-machine-kt-engine/src/main/kotlin/com/statemachinekt/engine/Vertex.kt:10-12 | absent exactly when the vertex has no arrival action; otherwise that action's result on the event and the current extended state, returned unchanged, with nothing written |
| KtVertex.Exit | state-machine-kt-engine/src/main/kotlin/com/statemachinekt/engine/Vertex.kt:14-16 | absent exactly when the vertex has no exit action; otherwise that action's result on the event and the current extended state, returned unchanged, with nothing written |
| KtEngine.FindTransition | state-machine-kt-engine/src/main/kotlin/com/statemachinekt/engine/StateMachine.kt:41-43 | the current vertex's transition for the event class wins; the super vertex's is used only when the current vertex has none; there is none exactly when neither vertex registers the class |
| KtEngine.HandleUnknownEvent | state-machine-kt-engine/src/main/kotlin/com/statemachinekt/engine/StateMachine.kt:71-75 | an unrecognized event fails the call exactly when `throwExceptionOnUnrecognizedEvent` is set, and is ignored otherwise |
| KtEngine.NextState | state-machine-kt-engine/src/main/kotlin/com/statemachinekt/engine/StateMachine.kt:59 | next-state priority: the transition task's non-null override, else the transition's declared target, else the current state |
| KtEngine.ExitRuns | state-machine-kt-engine/src/main/kotlin/com/statemachinekt/engine/StateMachine.kt:55 | the exit action runs only when the move goes somewhere else: if it runs, the next state differs from the current one; a task override naming the current state, a missing task result or a missing override never runs it |
| KtEngine.ArrivalResult | state-machine-kt-engine/src/main/kotlin/com/statemachinekt/engine/StateMachine.kt:61-65 | the arrival result is the target vertex's own action's when it has one, else the super vertex's, else the committed extended state with no event to trigger |
| KtEngine.Step | state-machine-kt-engine/src/main/kotlin/com/statemachinekt/engine/StateMachine.kt:40-66 | one event never leaves the machine in a state without a vertex, and asks for a propagated event only after completing normally |
| KtEngine.Process | state-machine-kt-engine/src/main/kotlin/com/statemachinekt/engine/StateMachine.kt:40-68 | however the call and the events it propagates end, the current state has a vertex in the table |
| KtEngine.StateMachine.CurrentState | state-machine-kt-engine/src/main/kotlin/com/statemachinekt/engine/StateMachine.kt:12-14 | the current state is a key of the vertex table whose vertex is the current vertex, so it is never null and never the super vertex's |
| KtEngine.StateMachine.CurrentExtendedState | state-machine-kt-engine/src/main/kotlin/com/statemachinekt/engine/StateMachine.kt:16 | the current extended state is what the shared store holds |
| KtEngine.StateMachine.constructor | state-machine-kt-engine/src/main/kotlin/com/statemachinekt/engine/StateMachine.kt:6-11 | a machine whose starting state has a vertex starts at that vertex, with the given store and the vertex invariant established |
| KtEngine.StateMachine.Create | state-machine-kt-engine/src/main/kotlin/com/statemachinekt/engine/StateMachine.kt:34-37 | construction fails exactly when the starting state has no vertex; otherwise the new machine is at the starting state |
| KtEngine.StateMachine.Dispatch | state-machine-kt-engine/src/main/kotlin/com/statemachinekt/engine/StateMachine.kt:41-65 | one event changes the current vertex, the store, the status and the event to propagate exactly as `Step` says, keeping the vertex invariant |
| KtEngine.StateMachine.Fire | state-machine-kt-engine/src/main/kotlin/com/statemachinekt/engine/StateMachine.kt:45-65 | once the transition is found: task, commit, conditional exit, move, arrival and commit, exactly as `Step` says |
| KtEngine.StateMachine.ProcessEvent | state-machine-kt-engine/src/main/kotlin/com/statemachinekt/engine/StateMachine.kt:40-68 | `processEvent` with propagated events processed before it returns: state, store, status and user code run exactly as `Process` says |
| KtEngineProperties.UnrecognizedEventChangesNothing | state-machine-kt-engine/src/main/kotlin/com/statemachinekt/engine/StateMachine.kt:40-43 | an event neither vertex handles changes neither the state nor the extended state and runs no user code; it fails exactly when the configuration says so |
| KtEngineProperties.WithoutArrivalsOneStep | state-machine-kt-engine/src/main/kotlin/com/statemachinekt/engine/StateMachine.kt:61-67 | only arrival actions propagate events: in a machine where neither any vertex nor the super vertex has one, a call is exactly one step and never processes a further event |
| KtEngineProperties.ExitRunsOnlyOnOverride | state-machine-kt-engine/src/main/kotlin/com/statemachinekt/engine/StateMachine.kt:54-57 | the exit action runs exactly when the transition task succeeded with an override naming a different state and the vertex has an exit action; a declared target alone never runs it |
| KtEngineProperties.ExitResultDiscarded | state-machine-kt-engine/src/main/kotlin/com/statemachinekt/engine/StateMachine.kt:54-57 | unless the exit action throws, the step ends in the same state, extended state, status and propagated event as without it |
| KtEngineProperties.ActionsSeeTaskResult | state-machine-kt-engine/src/main/kotlin/com/statemachinekt/engine/StateMachine.kt:45-63 | commit order: the transition task runs first on the old extended state; every exit and arrival action of the step then sees the transition task's extended state |
| KtEngineProperties.ArrivalRunsOnSelfTransition | state-machine-kt-engine/src/main/kotlin/com/statemachinekt/engine/StateMachine.kt:59-65 | a transition with no task and no target keeps the state, yet runs the vertex's arrival action and commits its result |
| KtEngineProperties.ArrivalFallsBackToSuperVertex | state-machine-kt-engine/src/main/kotlin/com/statemachinekt/engine/StateMachine.kt:59-66 | about a whole `Step` into a state: the last user code run is the target's own arrival action, else the super vertex's, called with the event and the committed extended state; its result (or its exception) decides the stored extended state, status and propagated event; with neither action the committed extended state stays and nothing is propagated |
| KtEngineProperties.ProcessFuelMonotone | state-machine-kt-engine/src/main/kotlin/com/statemachinekt/engine/StateMachine.kt:67 | the depth bound is only a bound: a call that finished within it ends the same with any larger bound |
| KtEngineProperties.Chain | state-machine-kt-engine/src/main/kotlin/com/statemachinekt/engine/StateMachine.kt:67 | the steps of one call: the first is the given event's `Step`, each is taken from a state with a vertex, every step but the last propagates an event, and a chain shorter than its bound ends with a step that propagates none |
| KtEngineProperties.ChainLinked | state-machine-kt-engine/src/main/kotlin/com/statemachinekt/engine/StateMachine.kt:67 | each step of the chain handles the previous step's propagated event from the state and extended state that step left |
| KtEngineProperties.PropagatedEventProcessedBeforeReturn | state-machine-kt-engine/src/main/kotlin/com/statemachinekt/engine/StateMachine.kt:40-68 | one `processEvent` call is the chain of steps `Chain` describes: the user code it runs is the steps' calls in order, it ends in the last step's state and extended state, and it ends with that step's status unless the chain was cut with an event still pending |
| KtDsl.UpdateTaskResult | state-machine-kt-engine/src/main/kotlin/com/statemachinekt/dsl/StateMachineBuilder.kt:204-208 | the contract of `KtDsl.UpdateTask`: the `execute(fn: (store) -> ext)` task succeeds exactly when `fn` does, with `fn`'s extended state and a null next state |
| KtDsl.UnitTaskResult | state-machine-kt-engine/src/main/kotlin/com/statemachinekt/dsl/StateMachineBuilder.kt:210-213 | the contract of `KtDsl.UnitTask`: the `execute(fn: () -> Unit)` task succeeds exactly when `fn` does, leaving the extended state unchanged and the next state null |
| KtDsl.TransitionStep | state-machine-kt-engine/src/main/kotlin/com/statemachinekt/dsl/StateMachineBuilder.kt:188-202 | `transitionTo` fails exactly when a target is already set, and every `execute` overload exactly when a task is already set; otherwise only that field changes |
| KtDsl.TransitionBlockRules | state-machine-kt-engine/src/main/kotlin/com/statemachinekt/dsl/StateMachineBuilder.kt:188-218 | a transition block that builds has at most one target and one task, and the built transition has a target exactly when one was given |
| KtDsl.TransitionBuilder.constructor | state-machine-kt-engine/src/main/kotlin/com/statemachinekt/dsl/StateMachineBuilder.kt:183-186 | a new transition builder has neither target nor task |
| KtDsl.TransitionBuilder.TransitionTo | state-machine-kt-engine/src/main/kotlin/com/statemachinekt/dsl/StateMachineBuilder.kt:188-194 | sets the target once; a second call fails and changes nothing |
| KtDsl.TransitionBuilder.Execute | state-machine-kt-engine/src/main/kotlin/com/statemachinekt/dsl/StateMachineBuilder.kt:196-202 | sets the transition task once; a second call fails and changes nothing |
| KtDsl.TransitionBuilder.ExecuteUpdate | state-machine-kt-engine/src/main/kotlin/com/statemachinekt/dsl/StateMachineBuilder.kt:204-208 | the store-to-extended-state overload goes through the transition task setter |
| KtDsl.TransitionBuilder.ExecuteUnit | state-machine-kt-engine/src/main/kotlin/com/statemachinekt/dsl/StateMachineBuilder.kt:210-213 | the unit overload goes through the transition task setter |
| KtDsl.TransitionBuilder.Do | state-machine-kt-engine/src/main/kotlin/com/statemachinekt/dsl/StateMachineBuilder.kt:188-213 | one DSL call on the builder, as `TransitionStep` says |
| KtDsl.TransitionBuilder.Run | state-machine-kt-engine/src/main/kotlin/com/statemachinekt/dsl/StateMachineBuilder.kt:133-135 | running an `on` block leaves what `RunTransitionBlock` builds, or reports its first failure |
| KtDsl.LastExecuteWins | state-machine-kt-engine/src/main/kotlin/com/statemachinekt/dsl/StateMachineBuilder.kt:171-173 | repeated `execute` calls on one action builder: the last one wins; a block without one keeps the earlier action |
| KtDsl.ActionBuilder.constructor | state-machine-kt-engine/src/main/kotlin/com/statemachinekt/dsl/StateMachineBuilder.kt:168-179 | a new action builder holds no action |
| KtDsl.ActionBuilder.Execute | state-machine-kt-engine/src/main/kotlin/com/statemachinekt/dsl/StateMachineBuilder.kt:171-173 | `execute` replaces the action |
| KtDsl.ActionBuilder.Run | state-machine-kt-engine/src/main/kotlin/com/statemachinekt/dsl/StateMachineBuilder.kt:145 | an `uponArrival`/`uponExit` block leaves the action `RunActionBlock` gives |
| KtDsl.VertexStep | state-machine-kt-engine/src/main/kotlin/com/statemachinekt/dsl/StateMachineBuilder.kt:122-156 | `on` fails on an event class already registered and otherwise registers the block's transition; `uponArrival`/`uponExit` continue the vertex's one action builder; the vertex's state never changes |
| KtDsl.RunVertexBlock | state-machine-kt-engine/src/main/kotlin/com/statemachinekt/dsl/StateMachineBuilder.kt:90-91 | running a vertex block never changes the vertex's state |
| KtDsl.VertexBlockRules | state-machine-kt-engine/src/main/kotlin/com/statemachinekt/dsl/StateMachineBuilder.kt:126-136 | a vertex block that builds registers distinct event classes, none registered before, and the vertex gains exactly those transitions |
| KtDsl.VertexBuilder.constructor | state-machine-kt-engine/src/main/kotlin/com/statemachinekt/dsl/StateMachineBuilder.kt:108-120 | a new vertex builder builds the empty vertex of its state |
| KtDsl.VertexBuilder.On | state-machine-kt-engine/src/main/kotlin/com/statemachinekt/dsl/StateMachineBuilder.kt:126-136 | `on` agrees with `VertexStep`: a duplicate event class fails and changes nothing |
| KtDsl.VertexBuilder.UponArrival | state-machine-kt-engine/src/main/kotlin/com/statemachinekt/dsl/StateMachineBuilder.kt:138-146 | creates the arrival builder on first use and reuses the same object afterwards, so repeated blocks accumulate |
| KtDsl.VertexBuilder.UponExit | state-machine-kt-engine/src/main/kotlin/com/statemachinekt/dsl/StateMachineBuilder.kt:148-156 | creates the exit builder on first use and reuses the same object afterwards |
| KtDsl.VertexBuilder.Do | state-machine-kt-engine/src/main/kotlin/com/statemachinekt/dsl/StateMachineBuilder.kt:122-156 | one DSL call on the vertex builder, as `VertexStep` says |
| KtDsl.VertexBuilder.Run | state-machine-kt-engine/src/main/kotlin/com/statemachinekt/dsl/StateMachineBuilder.kt:90-91 | a vertex block leaves what `RunVertexBlock` builds, or reports its first failure |
| KtDsl.StoreCheck | state-machine-kt-engine/src/main/kotlin/com/statemachinekt/dsl/StateMachineBuilder.kt:20-40 | first use of the lazy state store fails until both starting values are set: first for the starting state, then for the starting extended state |
| KtDsl.MachineStep | state-machine-kt-engine/src/main/kotlin/com/statemachinekt/dsl/StateMachineBuilder.kt:51-96 | starting values set once; `withConfig` always replaces; the super vertex and each state defined once, only once the store can be built and only if the block builds; vertices stay under their own state |
| KtDsl.RunMachineBlock | state-machine-kt-engine/src/main/kotlin/com/statemachinekt/dsl/StateMachineBuilder.kt:46-48 | a machine block that builds keeps every vertex under its own state and the super vertex stateless |
| KtDsl.BuildDefinition | state-machine-kt-engine/src/main/kotlin/com/statemachinekt/dsl/StateMachineBuilder.kt:98-104 | `build` needs both starting values and a vertex for the starting state; it defaults the super vertex to an empty stateless one and the configuration to the default |
| KtDsl.Define | state-machine-kt-engine/src/main/kotlin/com/statemachinekt/engine/StateMachine.kt:25-31 | a machine definition that builds is well formed, and its starting state has a vertex |
| KtDsl.MachineBlockRules | state-machine-kt-engine/src/main/kotlin/com/statemachinekt/dsl/StateMachineBuilder.kt:51-96 | a block that builds sets each starting value and the super vertex at most once, and defines distinct new states, gaining exactly those vertices |
| KtDsl.VertexBeforeStartingValuesFails | state-machine-kt-engine/src/main/kotlin/com/statemachinekt/dsl/StateMachineBuilder.kt:20-40 | defining any vertex before `startingState` or `startingExtendedState` makes the whole block fail |
| KtDsl.WithConfigLastWins | state-machine-kt-engine/src/main/kotlin/com/statemachinekt/dsl/StateMachineBuilder.kt:59-61 | `withConfig` may be repeated and the last call wins; without one the configuration stays as it was |
| KtDsl.StateMachineBuilder.constructor | state-machine-kt-engine/src/main/kotlin/com/statemachinekt/dsl/StateMachineBuilder.kt:14-18 | a new builder has nothing set |
| KtDsl.StateMachineBuilder.StartingState | state-machine-kt-engine/src/main/kotlin/com/statemachinekt/dsl/StateMachineBuilder.kt:51-57 | sets the starting state once; a second call fails and changes nothing |
| KtDsl.StateMachineBuilder.StartingExtendedState | state-machine-kt-engine/src/main/kotlin/com/statemachinekt/dsl/StateMachineBuilder.kt:63-69 | sets the starting extended state once; a second call fails and changes nothing |
| KtDsl.StateMachineBuilder.WithConfig | state-machine-kt-engine/src/main/kotlin/com/statemachinekt/dsl/StateMachineBuilder.kt:59-61 | replaces the configuration |
| KtDsl.StateMachineBuilder.CheckStore | state-machine-kt-engine/src/main/kotlin/com/statemachinekt/dsl/StateMachineBuilder.kt:20-40 | the lazy state store's first use fails as `StoreCheck` says; the store object is created once, when both starting values are set, holding the starting extended state, and kept by every later use |
| KtDsl.StateMachineBuilder.ApplyToAllStateDefinitions | state-machine-kt-engine/src/main/kotlin/com/statemachinekt/dsl/StateMachineBuilder.kt:71-80 | defines the stateless super vertex once, after the store checks; agrees with `MachineStep` |
| KtDsl.StateMachineBuilder.StateDefinition | state-machine-kt-engine/src/main/kotlin/com/statemachinekt/dsl/StateMachineBuilder.kt:82-96 | defines a new state once, after the store checks; agrees with `MachineStep` |
| KtDsl.StateMachineBuilder.Do | state-machine-kt-engine/src/main/kotlin/com/statemachinekt/dsl/StateMachineBuilder.kt:51-96 | one DSL call on the machine builder, as `MachineStep` says |
| KtDsl.StateMachineBuilder.Run | state-machine-kt-engine/src/main/kotlin/com/statemachinekt/dsl/StateMachineBuilder.kt:46-48 | a machine block leaves what `RunMachineBlock` builds, or reports its first failure |
| KtDsl.StateMachineBuilder.Build | state-machine-kt-engine/src/main/kotlin/com/statemachinekt/dsl/StateMachineBuilder.kt:98-104 | builds a new machine exactly when `BuildDefinition` says, with its definition and starting state; the machine's store is the builder's own lazy store, created on first use with the starting extended state and shared by every later build |
| KtDsl.BuildTwice | state-machine-kt-engine/src/main/kotlin/com/statemachinekt/dsl/StateMachineBuilder.kt:20-40 | two `build` calls on one builder either both fail with the same error or give two distinct machines sharing one extended-state store |
| KtDsl.DefineMachine | state-machine-kt-engine/src/main/kotlin/com/statemachinekt/engine/StateMachine.kt:25-31 | `StateMachine { ... }` yields the machine `Define` describes, or its error |
| Calculator.UpdateOperand | mr-state-machine-engine/src/test/kotlin/com/mrstatemachine/engine/calculator/Operands.kt:7-10 | replaces the selected operand and keeps the other fields |
| Calculator.HandleNumber | mr-state-machine-engine/src/test/kotlin/com/mrstatemachine/engine/calculator/Operands.kt:11-17 | appends exactly the digit to the selected operand, changes nothing else, no next-state override |
| Calculator.HandlePeriod | mr-state-machine-engine/src/test/kotlin/com/mrstatemachine/engine/calculator/Operands.kt:19-29 | appends '.' only if the operand has none, otherwise returns the state unchanged; afterwards the operand has a '.' |
| Calculator.FirstHandleOperator | mr-state-machine-engine/src/test/kotlin/com/mrstatemachine/engine/calculator/Operands.kt:35-49 | the `Operand1` operator task: a minus on an empty first operand is the sign of a negative number and keeps the state; any other operator is recorded and names `Operand2`; the engine-level behaviour is `KtCalculator.NegativeFirstOperand` and `KtCalculator.OperatorStartsSecondOperand` |
| Calculator.Compute | mr-state-machine-engine/src/test/kotlin/com/mrstatemachine/engine/calculator/Operands.kt:78-96 | an unsupported or missing operator throws; on success the result is the first operand, the operator is cleared and the second operand emptied |
| Calculator.SecondHandleOperator | mr-state-machine-engine/src/test/kotlin/com/mrstatemachine/engine/calculator/Operands.kt:56-72 | the `Operand2` operator task: a minus on an empty second operand is its sign; any other operator first computes the pending operation into the first operand and then records the new operator; the engine-level behaviour is `KtCalculator.NegativeSecondOperand` and `KtCalculator.OperatorChains` |
| Calculator.HandleEquals | mr-state-machine-engine/src/test/kotlin/com/mrstatemachine/engine/calculator/Operands.kt:74-76 | succeeds exactly when `compute` does, with its result and no next-state override |
| Calculator.HandlePeriodIdempotent | mr-state-machine-engine/src/test/kotlin/com/mrstatemachine/engine/calculator/Operands.kt:19-29 | `handlePeriod` applied twice equals applying it once |
| Calculator.OperandTasksReadOnlyTheirOperand | mr-state-machine-engine/src/test/kotlin/com/mrstatemachine/engine/calculator/Operands.kt:31-55 | operand isolation: what `handleNumber`/`handlePeriod` write into an operand depends only on that operand |
| Calculator.ComputeResets | mr-state-machine-engine/src/test/kotlin/com/mrstatemachine/engine/calculator/Operands.kt:78-96 | a `compute` that succeeds had a supported operator, and it always clears the operator and empties the second operand |
| KtCalculator.ProcessAll | state-machine-kt-engine/src/test/kotlin/com/statemachinekt/engine/calculator/CalculatorTest.kt:196-200 | processing events one call at a time, stopping at the first exception, always leaves a state with a vertex |
| KtCalculator.ProcessAllAppend | state-machine-kt-engine/src/test/kotlin/com/statemachinekt/engine/calculator/CalculatorTest.kt:196-200 | processing two sequences one after the other is processing their concatenation |
| KtCalculator.CalculatorBuilds | state-machine-kt-engine/src/test/kotlin/com/statemachinekt/engine/calculator/CalculatorTest.kt:35-99 | the calculator's DSL block builds exactly the intended machine, starting in `Off` with both operands empty |
| KtCalculator.SingleStep | state-machine-kt-engine/src/test/kotlin/com/statemachinekt/engine/calculator/CalculatorTest.kt:35-99 | no calculator vertex has an arrival action, so a call never propagates an event and is a single step |
| KtCalculator.ClearButtons | state-machine-kt-engine/src/test/kotlin/com/statemachinekt/engine/calculator/CalculatorTest.kt:39-55 | wildcard reset: from every state, On/C clears and moves to `Operand1`, Off clears and moves to `Off` |
| KtCalculator.OffIgnoresButtons | state-machine-kt-engine/src/test/kotlin/com/statemachinekt/engine/calculator/CalculatorTest.kt:57 | while off, every other button is ignored without error |
| KtCalculator.DigitAppends | state-machine-kt-engine/src/test/kotlin/com/statemachinekt/engine/calculator/CalculatorTest.kt:59-82 | a digit appends to the operand being entered and keeps the state |
| KtCalculator.PeriodAppends | state-machine-kt-engine/src/test/kotlin/com/statemachinekt/engine/calculator/CalculatorTest.kt:64-86 | the period key adds a decimal point to the operand being entered only when it has none, and keeps the state |
| KtCalculator.OperatorStartsSecondOperand | state-machine-kt-engine/src/test/kotlin/com/statemachinekt/engine/calculator/CalculatorTest.kt:68-76 | in `Operand1`, any operator other than a minus on an empty first operand is recorded and moves to `Operand2` with an empty second operand |
| KtCalculator.NegativeFirstOperand | state-machine-kt-engine/src/test/kotlin/com/statemachinekt/engine/calculator/CalculatorTest.kt:68-76 | in `Operand1`, a minus on an empty first operand becomes its sign and the calculator stays in `Operand1` |
| KtCalculator.NegativeSecondOperand | state-machine-kt-engine/src/test/kotlin/com/statemachinekt/engine/calculator/CalculatorTest.kt:88-92 | in `Operand2`, a minus on an empty second operand becomes its sign and the calculator stays in `Operand2` without computing |
| KtCalculator.OperatorChains | state-machine-kt-engine/src/test/kotlin/com/statemachinekt/engine/calculator/CalculatorTest.kt:88-92 | in `Operand2`, any other operator computes the pending operation into the first operand and records the new one, with an empty second operand; if `compute` throws, the call fails and the extended state is unchanged |
| KtCalculator.EqualsComputes | state-machine-kt-engine/src/test/kotlin/com/statemachinekt/engine/calculator/CalculatorTest.kt:94-97 | equals computes into the first operand and returns to `Operand1`; if `compute` throws, state and extended state stay |
| KtCalculator.NumberEntered | state-machine-kt-engine/src/test/kotlin/com/statemachinekt/engine/calculator/CalculatorTest.kt:59-82 | typing a number key by key appends it to the operand being entered and keeps the state, provided the operand then has at most one decimal point |
| KtCalculator.KeyLeads | state-machine-kt-engine/src/test/kotlin/com/statemachinekt/engine/calculator/CalculatorTest.kt:196-200 | a key whose call completes leaves the key sequence completed where that call ends |
| KtCalculator.LeadsThen | state-machine-kt-engine/src/test/kotlin/com/statemachinekt/engine/calculator/CalculatorTest.kt:196-200 | completed key sequences compose: the second goes on from where the first ends |
| KtCalculator.OneOperationRuns | state-machine-kt-engine/src/test/kotlin/com/statemachinekt/engine/calculator/CalculatorTest.kt:101-110 | "a op b =" after On/C, from any state: ends in `Operand1` with the operation's result as the only operand, or, when `compute` throws, fails in `Operand2` with both operands and the operator kept |
| KtCalculator.SingleOperationTestsRun | state-machine-kt-engine/src/test/kotlin/com/statemachinekt/engine/calculator/CalculatorTest.kt:104-158 | the seven single-operation tests (integer and decimal addition, multiplication, division, subtraction) each end in `Operand1` with the operation's result |
| KtCalculator.MultipleOperationsRuns | state-machine-kt-engine/src/test/kotlin/com/statemachinekt/engine/calculator/CalculatorTest.kt:160-170 | "420 - 69 * 2 =" is evaluated left to right: the difference is computed when `*` is pressed and then multiplied by 2 |
| KtCalculator.NegativeFirstOperandRuns | state-machine-kt-engine/src/test/kotlin/com/statemachinekt/engine/calculator/CalculatorTest.kt:172-178 | "-69 + 42 =": a leading minus becomes the first operand's sign, and "-69" is added to "42" |
| KtCalculator.NegativeSecondOperandRuns | state-machine-kt-engine/src/test/kotlin/com/statemachinekt/engine/calculator/CalculatorTest.kt:180-186 | "69 * -42 =": a minus after the operator becomes the second operand's sign, and "69" is multiplied by "-42" |
| KtCalculator.MegaFirstProductRuns | state-machine-kt-engine/src/test/kotlin/com/statemachinekt/engine/calculator/CalculatorTest.kt:188-194 | the first part of the mega test, "0.69 * -42", leaves the decimal first operand, the operator and the negative second operand entered |
| KtCalculator.MegaFirstHalfRuns | state-machine-kt-engine/src/test/kotlin/com/statemachinekt/engine/calculator/CalculatorTest.kt:188-194 | "0.69 * -42 + -82.5": the product is computed when `+` is pressed and the next operand starts negative again |
| KtCalculator.MegaRuns | state-machine-kt-engine/src/test/kotlin/com/statemachinekt/engine/calculator/CalculatorTest.kt:188-194 | "0.69 * -42 + -82.5 * .1 / 7 =" is evaluated strictly left to right, each operator computing the operation before it, with negative operands and an operand starting at its decimal point |
| KtCalculator.ProcessNext | state-machine-kt-engine/src/test/kotlin/com/statemachinekt/engine/calculator/CalculatorTest.kt:199 | one `processEvent` call of `processEvents` advances the run as `ProcessAll` says |
| KtCalculator.ProcessEvents | state-machine-kt-engine/src/test/kotlin/com/statemachinekt/engine/calculator/CalculatorTest.kt:196-200 | `processEvents` changes state, store, status and user code run exactly as `ProcessAll` says |
| KtCalculator.IntegerAdditionTest | state-machine-kt-engine/src/test/kotlin/com/statemachinekt/engine/calculator/CalculatorTest.kt:101-110 | on the machine the DSL builds, On/C then the keys of "420 + 69 =" (`OneOperation`) end in `Operand1` with the sum as the only operand |
| KtEtl.EtlBuilds | mr-state-machine-engine/src/test/kotlin/com/mrstatemachine/engine/EtlTest.kt:43-112 | the pipeline's DSL block builds exactly the intended four-stage machine, waiting with nothing stored |
| KtEtl.RunStep | mr-state-machine-engine/src/test/kotlin/com/mrstatemachine/engine/EtlTest.kt:47-66 | `Run` from `Waiting` clears, enters `Extracting`, stores the document and propagates `ExtractionSuccessful` |
| KtEtl.ExtractedStep | mr-state-machine-engine/src/test/kotlin/com/mrstatemachine/engine/EtlTest.kt:68-86 | entering `Transforming` decodes the document and propagates `TransformationSuccessful`; a decoding error stops there |
| KtEtl.TransformedStep | mr-state-machine-engine/src/test/kotlin/com/mrstatemachine/engine/EtlTest.kt:88-106 | entering `Loading` hands over the transformed data and propagates `LoadingSuccessful` |
| KtEtl.LoadedStep | mr-state-machine-engine/src/test/kotlin/com/mrstatemachine/engine/EtlTest.kt:108-110 | `LoadingSuccessful` returns to `Waiting`, which has no arrival action |
| KtEtl.EtlRunsCompletely | mr-state-machine-engine/src/test/kotlin/com/mrstatemachine/engine/EtlTest.kt:114-130 | one `Run` carries the pipeline through every stage back to `Waiting`, with the document and its decoding stored and the loader handed the decoding |
| KtEtl.EtlChainCut | state-machine-kt-engine/src/main/kotlin/com/statemachinekt/engine/StateMachine.kt:67 | with depth for only two propagated events, the chain stops in `Loading`, the data already stored |
| KtEtl.EtlDecodingFails | mr-state-machine-engine/src/test/kotlin/com/mrstatemachine/engine/EtlTest.kt:73-86 | a decoding error ends the call in `Transforming` with the document kept and nothing loaded |
| KtEtl.EtlTest | mr-state-machine-engine/src/test/kotlin/com/mrstatemachine/engine/EtlTest.kt:114-130 | the test on the machine the DSL builds: back in `Waiting`, with both parts stored, and the loaded data equal to the decoding |
| MrStateMachine.Step | mr-state-machine-engine/src/main/kotlin/com/mrstatemachine/engine/StateMachine.kt:9-14 | an event moves to the target of the current vertex's transition for it; it throws exactly when there is none |
| MrStateMachine.RunAppend | mr-state-machine-engine/src/main/kotlin/com/mrstatemachine/engine/StateMachine.kt:9-14 | processing two sequences of events one after the other is processing their concatenation |
| MrStateMachine.StateMachine.constructor | mr-state-machine-engine/src/main/kotlin/com/mrstatemachine/engine/StateMachine.kt:3-7 | right after construction the current vertex is the accepting state |
| MrStateMachine.StateMachine.ProcessEvent | mr-state-machine-engine/src/main/kotlin/com/mrstatemachine/engine/StateMachine.kt:9-14 | moves as `Step` says; an unhandled event throws and leaves the current vertex; only the current vertex changes |
| MrLightBulb.RoundTrip | mr-state-machine-engine/src/test/kotlin/com/mrstatemachine/engine/StateMachineTest.kt:38-44 | from off, `OnClicked` leads on, then `OffClicked` back off; clicking on twice fails |
| MrLightBulb.LightBulbScenario | mr-state-machine-engine/src/test/kotlin/com/mrstatemachine/engine/StateMachineTest.kt:19-44 | the machine starts at the off vertex, moves on, then back off |
| MrStateProcessor.NewStateProcessor | mr-state-machine-engine/src/main/kotlin/com/mrstatemachine/engine/StateProcessor.kt:6-22 | construction fails exactly when `onArrival` is given without an `extractor` |
| MrStateProcessor.NewStateProcessorWithDefaults | mr-state-machine-engine/src/main/kotlin/com/mrstatemachine/engine/StateProcessor.kt:16 | `eventsToPropagate` defaults to the empty set |
| MrStateProcessor.Arrive | mr-state-machine-engine/src/main/kotlin/com/mrstatemachine/engine/StateProcessor.kt:24-33 | without `onArrival` the extended state passes through unchanged; with one, the result is the merger applied to the arrival function's output on the extracted input and to the extended state |
| MrStateProcessor.NoOpMergerIgnoresOutput | mr-state-machine-interfaces/src/main/kotlin/com/mrstatemachine/Merger.kt:7-9 | the no-op merger returns the destination extended state whatever output it is given |
| MrStateProcessor.ArriveComposes | mr-state-machine-engine/src/main/kotlin/com/mrstatemachine/engine/StateProcessor.kt:24-33 | without `onArrival`, `arrive` returns its input; with one, it merges `onArrival(extract(s))` into `s` |
| MrStateProcessor.NoOpMergerKeepsExtendedState | mr-state-machine-engine/src/main/kotlin/com/mrstatemachine/engine/StateProcessor.kt:24-33 | with `NoOpMerger`, `arrive` returns its input whatever `onArrival` produces |
| MrDsl.TransitionStep | mr-state-machine-engine/src/main/kotlin/com/mrstatemachine/dsl/StateMachineBuilder.kt:218-232 | `transitionTo` and `execute` each succeed once per transition; a repeat fails |
| MrDsl.TransitionBlockRules | mr-state-machine-engine/src/main/kotlin/com/mrstatemachine/dsl/StateMachineBuilder.kt:218-232 | a block that runs has at most one target and one task; the result has a target exactly when one was given |
| MrDsl.BuildTransition | mr-state-machine-engine/src/main/kotlin/com/mrstatemachine/dsl/StateMachineBuilder.kt:234-237 | building fails exactly when no target was given |
| MrDsl.NewTransitionNeedsOneTarget | mr-state-machine-engine/src/main/kotlin/com/mrstatemachine/dsl/StateMachineBuilder.kt:218-237 | a transition builds only with exactly one `transitionTo` |
| MrDsl.TransitionBuilder.constructor | mr-state-machine-engine/src/main/kotlin/com/mrstatemachine/dsl/StateMachineBuilder.kt:213-216 | a new transition builder has neither target nor task |
| MrDsl.TransitionBuilder.TransitionTo | mr-state-machine-engine/src/main/kotlin/com/mrstatemachine/dsl/StateMachineBuilder.kt:218-224 | sets the target once; a repeat fails and changes nothing |
| MrDsl.TransitionBuilder.Execute | mr-state-machine-engine/src/main/kotlin/com/mrstatemachine/dsl/StateMachineBuilder.kt:226-232 | sets the transition task once; a repeat fails and changes nothing |
| MrDsl.TransitionBuilder.Do | mr-state-machine-engine/src/main/kotlin/com/mrstatemachine/dsl/StateMachineBuilder.kt:218-232 | one DSL call, as `TransitionStep` says |
| MrDsl.TransitionBuilder.Run | mr-state-machine-engine/src/main/kotlin/com/mrstatemachine/dsl/StateMachineBuilder.kt:136-137 | an `on` block leaves what `RunTransitionBlock` gives, or its first failure |
| MrDsl.TransitionBuilder.Build | mr-state-machine-engine/src/main/kotlin/com/mrstatemachine/dsl/StateMachineBuilder.kt:234-237 | `build` as `BuildTransition` says |
| MrDsl.ArrivalStep | mr-state-machine-engine/src/main/kotlin/com/mrstatemachine/dsl/StateMachineBuilder.kt:182-200 | `execute`, `storeExecutionOutput` and `extractInputFromExtendedState` replace their field; `propagateEvent` adds to the set; none fails |
| MrDsl.PropagatedEvents | mr-state-machine-engine/src/main/kotlin/com/mrstatemachine/dsl/StateMachineBuilder.kt:190-192 | an arrival block adds exactly the event classes it propagates, so repeating one is idempotent |
| MrDsl.RunArrivalBlockAppend | mr-state-machine-engine/src/main/kotlin/com/mrstatemachine/dsl/StateMachineBuilder.kt:141-149 | two arrival blocks on one builder act as their concatenation |
| MrDsl.ArrivalBlockFields | mr-state-machine-engine/src/main/kotlin/com/mrstatemachine/dsl/StateMachineBuilder.kt:182-200 | after a block there is an arrival function (an extractor) exactly when there was one or the block sets one |
| MrDsl.ArrivalBuilder.constructor | mr-state-machine-engine/src/main/kotlin/com/mrstatemachine/dsl/StateMachineBuilder.kt:204-209 | a new arrival builder has an empty propagation set and nothing else |
| MrDsl.ArrivalBuilder.Do | mr-state-machine-engine/src/main/kotlin/com/mrstatemachine/dsl/StateMachineBuilder.kt:182-200 | one DSL call, as `ArrivalStep` says |
| MrDsl.ArrivalBuilder.Run | mr-state-machine-engine/src/main/kotlin/com/mrstatemachine/dsl/StateMachineBuilder.kt:148 | an `uponArrival` block leaves what `RunArrivalBlock` gives |
| MrDsl.VertexStep | mr-state-machine-engine/src/main/kotlin/com/mrstatemachine/dsl/StateMachineBuilder.kt:129-149 | `on` fails on a registered event class or a transition that does not build; `uponArrival` continues the one arrival builder; state and flag never change |
| MrDsl.RunVertexBlock | mr-state-machine-engine/src/main/kotlin/com/mrstatemachine/dsl/StateMachineBuilder.kt:56-60 | a vertex block never changes the vertex's state or its flag |
| MrDsl.BuildVertex | mr-state-machine-engine/src/main/kotlin/com/mrstatemachine/dsl/StateMachineBuilder.kt:155-169 | the state processor gets the arrival data with an empty propagation set and `NoOpMerger` by default; it fails exactly when an arrival function lacks an extractor |
| MrDsl.UponArrivalAccumulates | mr-state-machine-engine/src/main/kotlin/com/mrstatemachine/dsl/StateMachineBuilder.kt:141-149 | two `uponArrival` blocks act as one block holding both |
| MrDsl.ExtractorRequired | mr-state-machine-engine/src/main/kotlin/com/mrstatemachine/dsl/StateMachineBuilder.kt:155-169 | a vertex with one `uponArrival` block fails to build exactly when the block sets `execute` but no extractor |
| MrDsl.VertexBuilder.constructor | mr-state-machine-engine/src/main/kotlin/com/mrstatemachine/dsl/StateMachineBuilder.kt:109-123 | a new vertex builder holds its state, its flag and nothing else |
| MrDsl.VertexBuilder.On | mr-state-machine-engine/src/main/kotlin/com/mrstatemachine/dsl/StateMachineBuilder.kt:129-139 | `on` agrees with `VertexStep` |
| MrDsl.VertexBuilder.UponArrival | mr-state-machine-engine/src/main/kotlin/com/mrstatemachine/dsl/StateMachineBuilder.kt:141-149 | creates the arrival builder on first use and reuses it afterwards |
| MrDsl.VertexBuilder.Do | mr-state-machine-engine/src/main/kotlin/com/mrstatemachine/dsl/StateMachineBuilder.kt:125-149 | one DSL call, as `VertexStep` says |
| MrDsl.VertexBuilder.Run | mr-state-machine-engine/src/main/kotlin/com/mrstatemachine/dsl/StateMachineBuilder.kt:56-60 | a vertex block leaves what `RunVertexBlock` gives, or its first failure |
| MrDsl.StartingStateStep | mr-state-machine-engine/src/main/kotlin/com/mrstatemachine/dsl/StateMachineBuilder.kt:25-31 | a second `startingState` fails |
| MrDsl.StartingExtendedStateStep | mr-state-machine-engine/src/main/kotlin/com/mrstatemachine/dsl/StateMachineBuilder.kt:35-41 | a second `startingExtendedState` fails |
| MrDsl.StateHandlerStep | mr-state-machine-engine/src/main/kotlin/com/mrstatemachine/dsl/StateMachineBuilder.kt:43-65 | a state is defined once; its handler starts with `useOutputFromPreviousVertexAsInput` false; nothing else changes |
| MrDsl.OneTargetTransition | mr-state-machine-engine/src/main/kotlin/com/mrstatemachine/dsl/StateMachineBuilder.kt:74-76 | the `{ transitionTo(state) }` block builds the transition task-less transition to `state` |
| MrDsl.PropagateOnArrival | mr-state-machine-engine/src/main/kotlin/com/mrstatemachine/dsl/StateMachineBuilder.kt:87-89 | `uponArrival { propagateEvent(...) }` adds the event class to the propagation set and changes nothing else |
| MrDsl.ThenStep | mr-state-machine-engine/src/main/kotlin/com/mrstatemachine/dsl/StateMachineBuilder.kt:67-77 | `then` without a body only registers the transition to the target |
| MrDsl.ThenWithStep | mr-state-machine-engine/src/main/kotlin/com/mrstatemachine/dsl/StateMachineBuilder.kt:79-97 | `then` with a body: the receiver propagates the event and moves on it to the new state, which is defined by the block and flagged to use the previous output |
| MrDsl.BuildMachine | mr-state-machine-engine/src/main/kotlin/com/mrstatemachine/dsl/StateMachineBuilder.kt:99-105 | `build` fails on an unset starting state, or on a vertex whose arrival function lacks an extractor; otherwise it builds every vertex |
| MrDsl.StateMachineBuilder.constructor | mr-state-machine-engine/src/main/kotlin/com/mrstatemachine/dsl/StateMachineBuilder.kt:14-17 | a new builder has nothing set |
| MrDsl.StateMachineBuilder.StartingState | mr-state-machine-engine/src/main/kotlin/com/mrstatemachine/dsl/StateMachineBuilder.kt:25-31 | sets the starting state once |
| MrDsl.StateMachineBuilder.StartingExtendedState | mr-state-machine-engine/src/main/kotlin/com/mrstatemachine/dsl/StateMachineBuilder.kt:35-41 | sets the starting extended state once |
| MrDsl.StateMachineBuilder.StateHandler | mr-state-machine-engine/src/main/kotlin/com/mrstatemachine/dsl/StateMachineBuilder.kt:48-65 | agrees with `StateHandlerStep` |
| MrDsl.StateMachineBuilder.Then | mr-state-machine-engine/src/main/kotlin/com/mrstatemachine/dsl/StateMachineBuilder.kt:67-77 | agrees with `ThenStep` |
| MrDsl.StateMachineBuilder.ThenWith | mr-state-machine-engine/src/main/kotlin/com/mrstatemachine/dsl/StateMachineBuilder.kt:79-97 | agrees with `ThenWithStep`, running its steps in the source's order |

## Left out

- Coroutines, `suspend` and `@Volatile`: the engine is modelled as sequential code. Concurrent calls to `processEvent` are not modelled.
- Java reflection and reified generics: the event's class (`event::class`, `TEvent::class`) is a function `tagOf` supplied with the definition. The calculator and the ETL pipeline give their own.
- Kotlin `lazy` and `lateinit`: the newer builder's lazily created extended-state store is a field created on first use and kept, so every `build` shares it. The `StateStore` wrapper around it, and the older builder's `lateinit` starting state, are modelled as the checks they perform on first use.
- Floating-point arithmetic: `compute` in `Operands.kt` parses operands as `Double` and formats the result. The model takes this as a parameter `arith` that may throw. Every calculator test is run key by key, but its expected number ("489", "702", "-1.5925714285714285") is stated only as the result of the `arith` calls in the order the calculator makes them.
- The calculator tests' `processEvents` filters out whitespace and maps each character to an event with `toEvent`. The model writes the resulting key sequences out directly (`OneOperation`, `MultipleOperations`, `NegativeFirst`, `NegativeSecond`, `Mega`, built from `NumberKeys`).
- Gson and `println` in the ETL test: decoding is a parameter `parse` that may throw, and printing is left out. The value the loading stage is handed is read from the ghost `calls` trace.
- The newer engine's own `StateMachineConfig` is not part of this model. The older engine's `StateMachineConfig.kt`, which has the same single field and the same default, stands for it.
- `LightBulbTest`, `AlternativeLightBulbTest` (multi-region machines with several current vertices), `NoOpProcessor`, the interface module's `TransitionTask`, the older engine's `StateStore`, and the empty `SocialMediaNotificationsTest` are not part of this model. None of them is reachable from the engines' code paths.
- The older engine's `Vertex` class and the machine built from the older DSL's `build()` are not part of this model. `MrDsl.BuildMachine` therefore yields the built vertices and the starting values, not a running machine.
- `useOutputFromPreviousVertexAsInput` is recorded on each older vertex as the DSL sets it. The older `StateProcessor` does not take it, and neither does the model.
- The builder objects returned by `stateDefinition` and `stateHandler`: later mutation through such a reference after its block has run is not modelled.
- The older DSL's arrival input and output types (`TArrivalInput`, `TArrivalOutput`) are unified into one type parameter `P`.
- Exceptions thrown by the older pipeline's merger, extractor or arrival function are not modelled. They are total functions there.
- `StateMachineTest.kt` line 36 asserts that a new machine is at the on vertex, while its constructor starts at the accepting (off) vertex. `MrLightBulb.LightBulbScenario` follows the constructor.
- `EtlTest.kt` lives in the older module but uses the newer DSL (`stateDefinition`, `uponArrival { execute }`, `eventToTrigger`). It is modelled on the newer engine.
- The calculator's event-class mismatch branch (a task receiving an event of another class) cannot occur, because the engine only hands a task events of the class it is registered for. The model leaves that branch out.
- KtEngine.StateMachine.ProcessEvent: the recursion through propagated events is bounded by `fuel`. When the bound is reached the call ends with `ChainTooLong`, which stands for the stack overflow that an endless chain causes in the source.
- KtEngine.Process: the same `fuel` bound; `KtEngineProperties.ProcessFuelMonotone` shows that any call ending within the bound ends the same with more.
- KtDsl.StateMachineBuilder.Run: on a failing block only the error is stated, not the partial configuration that the source leaves behind after the exception.
- KtDsl.VertexBuilder.Run: on a failing block only the error is stated.
- KtDsl.TransitionBuilder.Run: on a failing block only the error is stated.
- MrDsl.VertexBuilder.Run: on a failing block only the error is stated.
- MrDsl.TransitionBuilder.Run: on a failing block only the error is stated.
- MrDsl.StateMachineBuilder.ThenWith: on failure only the error is stated, not the receiver's already-registered transition and propagation.
- MrDsl.StateMachineBuilder.Then: requires the receiver state to have been defined, since the source's receiver is a vertex builder object that exists only once defined.
- MrDsl.ThenStep: requires the receiver state to have been defined, for the same reason.
- MrDsl.ThenWithStep: requires the receiver state to have been defined, for the same reason.
- MrDsl.BuildMachine: yields the built vertices and starting values (`Blueprint`) rather than a machine, as said above.
