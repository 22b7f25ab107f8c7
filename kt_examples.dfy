/** The old-school calculator of the newer engine's tests, written with the configuration DSL
    and run on the engine model: its "apply to all states" vertex clears it on On/C and Off,
    and its operand vertices hold the button tasks. */
module KtCalculator {
  import opened Wrappers
  import opened KtTypes
  import opened KtVertex
  import opened KtEngine
  import opened KtEngineProperties
  import opened DslCommon
  import opened KtDsl
  import opened Calculator

  /** The event classes transitions are keyed by: one per `Event` subclass. */
  datatype EventClass = OnCClass | OffClass | EqualsClass | PeriodClass | NumClass | OperatorClass

  function ClassOf(e: Event): EventClass {
    match e
    case OnCClicked => OnCClass
    case OffClicked => OffClass
    case EqualsClicked => EqualsClass
    case PeriodClicked => PeriodClass
    case NumClicked(_) => NumClass
    case OperatorClicked(_) => OperatorClass
  }

  /** What a task typed for one event class does when handed an event of another class; the
      engine never does so, because it looks transitions up by the event's class. */
  const WrongEventClass := "event of another class"

  /** `execute { _ -> ExtendedState() }`. */
  function Clear(x: ExtendedState): Result<ExtendedState> {
    Ok(Cleared)
  }

  function NumberTask(which: Operands): TransitionTask<Event, State, ExtendedState> {
    (e: Event, x: ExtendedState) => if e.NumClicked? then Ok(HandleNumber(which, e.digit, x)) else Thrown(WrongEventClass)
  }

  function PeriodTask(which: Operands): TransitionTask<Event, State, ExtendedState> {
    (e: Event, x: ExtendedState) => Ok(HandlePeriod(which, x))
  }

  function FirstOperatorTask(): TransitionTask<Event, State, ExtendedState> {
    (e: Event, x: ExtendedState) => if e.OperatorClicked? then Ok(FirstHandleOperator(e.operator, x)) else Thrown(WrongEventClass)
  }

  function SecondOperatorTask(arith: (string, char, string) -> Result<string>): TransitionTask<Event, State, ExtendedState> {
    (e: Event, x: ExtendedState) => if e.OperatorClicked? then SecondHandleOperator(e.operator, x, arith) else Thrown(WrongEventClass)
  }

  function EqualsTask(arith: (string, char, string) -> Result<string>): TransitionTask<Event, State, ExtendedState> {
    (e: Event, x: ExtendedState) => HandleEquals(x, arith)
  }

  type Command = MachineCommand<State, ExtendedState, Event, EventClass>
  type VertexBlock = seq<VertexCommand<State, ExtendedState, Event, EventClass>>
  type CalculatorVertex = Vertex<State, ExtendedState, Event, EventClass>
  type CalculatorDefinition = Definition<State, ExtendedState, Event, EventClass>

  /** `applyToAllStateDefinitions { ... }`: On/C clears and goes to `Operand1`, Off clears and
      goes to `Off`. */
  function AllStatesBlock(): VertexBlock {
    [ On(OnCClass, [TransitionTo(Operand1), ExecuteUpdate(Clear)]),
      On(OffClass, [TransitionTo(State.Off), ExecuteUpdate(Clear)]) ]
  }

  function Operand1Block(): VertexBlock {
    [ On(NumClass, [Execute(Some(NumberTask(First)))]),
      On(PeriodClass, [Execute(Some(PeriodTask(First)))]),
      On(OperatorClass, [Execute(Some(FirstOperatorTask()))]) ]
  }

  function Operand2Block(arith: (string, char, string) -> Result<string>): VertexBlock {
    [ On(NumClass, [Execute(Some(NumberTask(Second)))]),
      On(PeriodClass, [Execute(Some(PeriodTask(Second)))]),
      On(OperatorClass, [Execute(Some(SecondOperatorTask(arith)))]),
      On(EqualsClass, [TransitionTo(Operand1), Execute(Some(EqualsTask(arith)))]) ]
  }

  /** The test's `StateMachine<State, ExtendedState, Event> { ... }` block; `arith` is the
      double arithmetic of `compute`. */
  function CalculatorBlock(arith: (string, char, string) -> Result<string>): seq<Command> {
    [ StartingState(State.Off),
      StartingExtendedState(Cleared),
      ApplyToAllStateDefinitions(AllStatesBlock()),
      StateDefinition(State.Off, []),
      StateDefinition(Operand1, Operand1Block()),
      StateDefinition(Operand2, Operand2Block(arith)) ]
  }

  /** The vertices that block builds, written out. */
  function SuperVertex(): CalculatorVertex {
    Vertex(None, map[OnCClass := StateTransition(Some(Operand1), Some(UpdateTask(Clear))),
                     OffClass := StateTransition(Some(State.Off), Some(UpdateTask(Clear)))], None, None)
  }

  function Operand1Vertex(): CalculatorVertex {
    Vertex(Some(Operand1), map[NumClass := StateTransition(None, Some(NumberTask(First))),
                               PeriodClass := StateTransition(None, Some(PeriodTask(First))),
                               OperatorClass := StateTransition(None, Some(FirstOperatorTask()))], None, None)
  }

  function Operand2Vertex(arith: (string, char, string) -> Result<string>): CalculatorVertex {
    Vertex(Some(Operand2), map[NumClass := StateTransition(None, Some(NumberTask(Second))),
                               PeriodClass := StateTransition(None, Some(PeriodTask(Second))),
                               OperatorClass := StateTransition(None, Some(SecondOperatorTask(arith))),
                               EqualsClass := StateTransition(Some(Operand1), Some(EqualsTask(arith)))], None, None)
  }

  function Machine(arith: (string, char, string) -> Result<string>): CalculatorDefinition {
    Definition(map[State.Off := EmptyVertex(Some(State.Off)), Operand1 := Operand1Vertex(), Operand2 := Operand2Vertex(arith)],
               SuperVertex(), DefaultConfig(), ClassOf)
  }

  /** One `processEvent` call per event, as the test's `processEvents` does; the first call
      that throws ends the sequence. */
  function ProcessAll<S(==), X, E, K>(d: Definition<S, X, E, K>, current: S, x: X, events: seq<E>, fuel: nat): (r: Trace<S, X, E>)
    requires current in d.vertices
    ensures r.state in d.vertices
    decreases |events|
  {
    if events == [] then Trace(current, x, Completed, [])
    else
      var t := Process(d, current, x, events[0], fuel);
      if t.status != Completed then t
      else
        var rest := ProcessAll(d, t.state, t.ext, events[1..], fuel);
        Trace(rest.state, rest.ext, rest.status, t.calls + rest.calls)
  }

  /** Processing the events of two sequences one after the other is processing their
      concatenation. */
  lemma {:induction false} ProcessAllAppend<S, X, E, K>(d: Definition<S, X, E, K>, current: S, x: X, first: seq<E>, second: seq<E>, fuel: nat)
    requires current in d.vertices
    ensures var t := ProcessAll(d, current, x, first, fuel);
            ProcessAll(d, current, x, first + second, fuel)
            == if t.status != Completed then t
               else var rest := ProcessAll(d, t.state, t.ext, second, fuel);
                    Trace(rest.state, rest.ext, rest.status, t.calls + rest.calls)
    decreases |first|
  {
    if first == [] {
      assert first + second == second;
      var rest := ProcessAll(d, current, x, second, fuel);
      assert [] + rest.calls == rest.calls;
    } else {
      assert (first + second)[0] == first[0] && (first + second)[1..] == first[1..] + second;
      var t := Process(d, current, x, first[0], fuel);
      if t.status == Completed {
        ProcessAllAppend(d, t.state, t.ext, first[1..], second, fuel);
        var u := ProcessAll(d, t.state, t.ext, first[1..], fuel);
        if u.status == Completed {
          var rest := ProcessAll(d, u.state, u.ext, second, fuel);
          AppendAssociates(t.calls, u.calls, rest.calls);
        }
      }
    }
  }

  /** The builder after `startingState` and `startingExtendedState`. */
  function StartedDraft(): Draft<State, ExtendedState, Event, EventClass> {
    Draft(Some(State.Off), Some(Cleared), None, None, map[])
  }

  /** The builder after the whole block. */
  function FinalDraft(arith: (string, char, string) -> Result<string>): Draft<State, ExtendedState, Event, EventClass> {
    StartedDraft().(superVertex := Some(SuperVertex()), vertices := Machine(arith).vertices)
  }

  /** The DSL block builds exactly the machine written out above, starting in `Off` with both
      operands empty. */
  lemma CalculatorBuilds(arith: (string, char, string) -> Result<string>)
    ensures Define(CalculatorBlock(arith), ClassOf) == Built(Blueprint(Machine(arith), State.Off, Cleared))
  {
    CalculatorBlockRuns(arith);
    assert StoreCheck(FinalDraft(arith)).None?;
  }

  lemma CalculatorBlockRuns(arith: (string, char, string) -> Result<string>)
    ensures RunMachineBlock(EmptyDraft(), CalculatorBlock(arith)) == Built(FinalDraft(arith))
  {
    var rest := [ ApplyToAllStateDefinitions(AllStatesBlock()), StateDefinition(State.Off, []),
                  StateDefinition(Operand1, Operand1Block()), StateDefinition(Operand2, Operand2Block(arith)) ];
    assert CalculatorBlock(arith) == [StartingState(State.Off), StartingExtendedState(Cleared)] + rest;
    StartingValuesRun(State.Off, Cleared, rest);
    SuperVertexBuilds();
    Operand1Builds();
    Operand2Builds(arith);
    DefinitionsRun(AllStatesBlock(), SuperVertex(), Operand1Block(), Operand1Vertex(), Operand2Block(arith), Operand2Vertex(arith));
  }

  /** `applyToAllStateDefinitions` and the three state definitions register what their blocks
      build, whatever the tasks inside those blocks. */
  lemma DefinitionsRun(all: seq<VertexCommand<State, ExtendedState, Event, EventClass>>, super: CalculatorVertex,
                       first: seq<VertexCommand<State, ExtendedState, Event, EventClass>>, v1: CalculatorVertex,
                       second: seq<VertexCommand<State, ExtendedState, Event, EventClass>>, v2: CalculatorVertex)
    requires RunVertexBlock(EmptyVertex(None), all) == Built(super)
    requires RunVertexBlock(EmptyVertex(Some(Operand1)), first) == Built(v1)
    requires RunVertexBlock(EmptyVertex(Some(Operand2)), second) == Built(v2)
    ensures RunMachineBlock(StartedDraft(), [ ApplyToAllStateDefinitions(all), StateDefinition(State.Off, []),
                                              StateDefinition(Operand1, first), StateDefinition(Operand2, second) ])
            == Built(StartedDraft().(superVertex := Some(super),
                                     vertices := map[State.Off := EmptyVertex(Some(State.Off)), Operand1 := v1, Operand2 := v2]))
  {
    var a := ApplyToAllStateDefinitions(all);
    var f := StateDefinition(Operand1, first);
    var s := StateDefinition(Operand2, second);
    var rest := [StateDefinition(State.Off, [])] + ([f] + ([s] + []));
    assert [a, StateDefinition(State.Off, []), f, s] == [a] + rest;
    var d3 := StartedDraft().(superVertex := Some(super));
    MachineBlockStep(StartedDraft(), [a] + rest, d3);
    assert ([a] + rest)[1..] == rest;
    var off: CalculatorVertex := EmptyVertex(Some(State.Off));
    assert RunVertexBlock(off, []) == Built(off);
    var d4 := StateDefinitionRuns(d3, State.Off, [], off, [f] + ([s] + []));
    var d5 := StateDefinitionRuns(d4, Operand1, first, v1, [s] + []);
    var d6 := StateDefinitionRuns(d5, Operand2, second, v2, []);
  }

  lemma SuperVertexBuilds()
    ensures RunVertexBlock(EmptyVertex(None), AllStatesBlock()) == Built(SuperVertex())
  {
    var b := AllStatesBlock();
    TargetAndTask<State, ExtendedState, Event>(Operand1, ExecuteUpdate(Clear));
    TargetAndTask<State, ExtendedState, Event>(State.Off, ExecuteUpdate(Clear));
    var v0: CalculatorVertex := EmptyVertex(None);
    var v1 := v0.(transitions := map[OnCClass := StateTransition(Some(Operand1), Some(UpdateTask(Clear)))]);
    VertexBlockStep(v0, b, v1);
    var v2 := v1.(transitions := v1.transitions[OffClass := StateTransition(Some(State.Off), Some(UpdateTask(Clear)))]);
    VertexBlockStep(v1, b[1..], v2);
    assert b[2..] == [];
  }

  lemma Operand1Builds()
    ensures RunVertexBlock(EmptyVertex(Some(Operand1)), Operand1Block()) == Built(Operand1Vertex())
  {
    var b := Operand1Block();
    TaskOnly<State, ExtendedState, Event>(Execute(Some(NumberTask(First))));
    TaskOnly<State, ExtendedState, Event>(Execute(Some(PeriodTask(First))));
    TaskOnly<State, ExtendedState, Event>(Execute(Some(FirstOperatorTask())));
    var v0: CalculatorVertex := EmptyVertex(Some(Operand1));
    var v1 := v0.(transitions := map[NumClass := StateTransition(None, Some(NumberTask(First)))]);
    VertexBlockStep(v0, b, v1);
    var v2 := v1.(transitions := v1.transitions[PeriodClass := StateTransition(None, Some(PeriodTask(First)))]);
    VertexBlockStep(v1, b[1..], v2);
    var v3 := v2.(transitions := v2.transitions[OperatorClass := StateTransition(None, Some(FirstOperatorTask()))]);
    VertexBlockStep(v2, b[2..], v3);
    assert b[3..] == [];
  }

  lemma Operand2Builds(arith: (string, char, string) -> Result<string>)
    ensures RunVertexBlock(EmptyVertex(Some(Operand2)), Operand2Block(arith)) == Built(Operand2Vertex(arith))
  {
    var b := Operand2Block(arith);
    TaskOnly<State, ExtendedState, Event>(Execute(Some(NumberTask(Second))));
    TaskOnly<State, ExtendedState, Event>(Execute(Some(PeriodTask(Second))));
    TaskOnly<State, ExtendedState, Event>(Execute(Some(SecondOperatorTask(arith))));
    TargetAndTask<State, ExtendedState, Event>(Operand1, Execute(Some(EqualsTask(arith))));
    var v0: CalculatorVertex := EmptyVertex(Some(Operand2));
    var v1 := v0.(transitions := map[NumClass := StateTransition(None, Some(NumberTask(Second)))]);
    VertexBlockStep(v0, b, v1);
    var v2 := v1.(transitions := v1.transitions[PeriodClass := StateTransition(None, Some(PeriodTask(Second)))]);
    VertexBlockStep(v1, b[1..], v2);
    var v3 := v2.(transitions := v2.transitions[OperatorClass := StateTransition(None, Some(SecondOperatorTask(arith)))]);
    VertexBlockStep(v2, b[2..], v3);
    var v4 := v3.(transitions := v3.transitions[EqualsClass := StateTransition(Some(Operand1), Some(EqualsTask(arith)))]);
    VertexBlockStep(v3, b[3..], v4);
    assert b[4..] == [];
  }

  // ---------------------------------------------------------------------------------------
  // Running the calculator

  /** No vertex of the calculator has an arrival action, so no event is ever propagated and a
      call with any fuel left is a single step. */
  lemma SingleStep(arith: (string, char, string) -> Result<string>, current: State, x: ExtendedState, event: Event, fuel: nat)
    requires fuel > 0
    ensures Process(Machine(arith), current, x, event, fuel) == Step(Machine(arith), current, x, event).trace
  {
    WithoutArrivalsOneStep(Machine(arith), current, x, event, fuel);
  }

  /** The wildcard reset: from every state, On/C clears the calculator and moves it to
      `Operand1`, running only the clearing task; Off clears it and moves it to `Off`. */
  lemma ClearButtons(arith: (string, char, string) -> Result<string>, current: State, x: ExtendedState, fuel: nat)
    requires fuel > 0
    ensures Process(Machine(arith), current, x, OnCClicked, fuel) == Trace(Operand1, Cleared, Completed, [TaskCall(OnCClicked, x)])
    ensures Process(Machine(arith), current, x, OffClicked, fuel) == Trace(State.Off, Cleared, Completed, [TaskCall(OffClicked, x)])
  {
    SingleStep(arith, current, x, OnCClicked, fuel);
    SingleStep(arith, current, x, OffClicked, fuel);
    UpdateTaskResult<State, ExtendedState, Event>(Clear, OnCClicked, x);
    UpdateTaskResult<State, ExtendedState, Event>(Clear, OffClicked, x);
  }

  /** While off, every button except On/C and Off is ignored without an error (the default
      configuration does not throw on unrecognized events). */
  lemma OffIgnoresButtons(arith: (string, char, string) -> Result<string>, x: ExtendedState, event: Event, fuel: nat)
    requires fuel > 0 && event != OnCClicked && event != OffClicked
    ensures Process(Machine(arith), State.Off, x, event, fuel) == Trace(State.Off, x, Completed, [])
  {
    SingleStep(arith, State.Off, x, event, fuel);
  }

  /** The operand a state edits: the first in `Operand1`, the second otherwise. */
  function Which(current: State): Operands {
    if current == Operand1 then First else Second
  }

  /** A digit appends to the operand being entered and keeps the state. */
  lemma DigitAppends(arith: (string, char, string) -> Result<string>, current: State, x: ExtendedState, digit: char, fuel: nat)
    requires fuel > 0 && current != State.Off
    ensures Process(Machine(arith), current, x, NumClicked(digit), fuel)
            == Trace(current, HandleNumber(Which(current), digit, x).extendedState, Completed, [TaskCall(NumClicked(digit), x)])
  {
    SingleStep(arith, current, x, NumClicked(digit), fuel);
  }

  /** A decimal point goes to the operand being entered (at most once) and keeps the state. */
  lemma PeriodAppends(arith: (string, char, string) -> Result<string>, current: State, x: ExtendedState, fuel: nat)
    requires fuel > 0 && current != State.Off
    ensures Process(Machine(arith), current, x, PeriodClicked, fuel)
            == Trace(current, HandlePeriod(Which(current), x).extendedState, Completed, [TaskCall(PeriodClicked, x)])
  {
    SingleStep(arith, current, x, PeriodClicked, fuel);
  }

  /** An operator in `Operand1`, unless it is a minus starting a negative first operand,
      records it and moves to `Operand2`. */
  lemma OperatorStartsSecondOperand(arith: (string, char, string) -> Result<string>, x: ExtendedState, operator: char, fuel: nat)
    requires fuel > 0 && !(operator == '-' && x.operand1 == "")
    ensures Process(Machine(arith), Operand1, x, OperatorClicked(operator), fuel)
            == Trace(Operand2, x.(operator := Some(operator)), Completed, [TaskCall(OperatorClicked(operator), x)])
  {
    SingleStep(arith, Operand1, x, OperatorClicked(operator), fuel);
  }

  /** A minus on an empty first operand makes it "-" and stays in `Operand1`: the task names
      the current state, so no exit runs. */
  lemma NegativeFirstOperand(arith: (string, char, string) -> Result<string>, x: ExtendedState, fuel: nat)
    requires fuel > 0 && x.operand1 == ""
    ensures Process(Machine(arith), Operand1, x, OperatorClicked('-'), fuel)
            == Trace(Operand1, x.(operand1 := "-"), Completed, [TaskCall(OperatorClicked('-'), x)])
  {
    SingleStep(arith, Operand1, x, OperatorClicked('-'), fuel);
  }

  /** A minus on an empty second operand makes it "-" and stays in `Operand2`, with nothing
      computed. */
  lemma NegativeSecondOperand(arith: (string, char, string) -> Result<string>, x: ExtendedState, fuel: nat)
    requires fuel > 0 && x.operand2 == ""
    ensures Process(Machine(arith), Operand2, x, OperatorClicked('-'), fuel)
            == Trace(Operand2, x.(operand2 := "-"), Completed, [TaskCall(OperatorClicked('-'), x)])
  {
    SingleStep(arith, Operand2, x, OperatorClicked('-'), fuel);
  }

  /** Any other operator in `Operand2` computes the pending operation, whose result becomes the
      first operand of the new one, and stays in `Operand2`; when `compute` throws, the state
      and the extended state stay as they were and the call fails with its message. */
  lemma OperatorChains(arith: (string, char, string) -> Result<string>, x: ExtendedState, operator: char, fuel: nat)
    requires fuel > 0 && !(operator == '-' && x.operand2 == "")
    ensures var t := Process(Machine(arith), Operand2, x, OperatorClicked(operator), fuel);
            && (Compute(x, arith).Ok? ==>
                  t == Trace(Operand2, ExtendedState(Compute(x, arith).value.operand1, Some(operator), ""), Completed,
                             [TaskCall(OperatorClicked(operator), x)]))
            && (Compute(x, arith).Thrown? ==>
                  t == Trace(Operand2, x, CallbackThrew(Compute(x, arith).message), [TaskCall(OperatorClicked(operator), x)]))
  {
    SingleStep(arith, Operand2, x, OperatorClicked(operator), fuel);
  }

  /** Equals in `Operand2` computes the pending operation into the first operand and returns to
      `Operand1`; when `compute` throws, the state and the extended state stay as they were. */
  lemma EqualsComputes(arith: (string, char, string) -> Result<string>, x: ExtendedState, fuel: nat)
    requires fuel > 0
    ensures var t := Process(Machine(arith), Operand2, x, EqualsClicked, fuel);
            && (Compute(x, arith).Ok? ==> t == Trace(Operand1, Compute(x, arith).value, Completed, [TaskCall(EqualsClicked, x)]))
            && (Compute(x, arith).Thrown? ==> t == Trace(Operand2, x, CallbackThrew(Compute(x, arith).message), [TaskCall(EqualsClicked, x)]))
  {
    SingleStep(arith, Operand2, x, EqualsClicked, fuel);
  }

  /** Processing `events` from `current` with `x` completes every call and leaves the machine
      in `next` with `y`. */
  ghost predicate Leads<S, X, E, K>(d: Definition<S, X, E, K>, current: S, x: X, events: seq<E>, fuel: nat, next: S, y: X)
    requires current in d.vertices
  {
    var t := ProcessAll(d, current, x, events, fuel);
    t.state == next && t.ext == y && t.status == Completed
  }

  /** An event whose call completes leads where that call leaves the machine. */
  lemma KeyLeads<S, X, E, K>(d: Definition<S, X, E, K>, current: S, x: X, event: E, fuel: nat, next: S, y: X)
    requires current in d.vertices
    requires var t := Process(d, current, x, event, fuel); t.status == Completed && t.state == next && t.ext == y
    ensures next in d.vertices && Leads(d, current, x, [event], fuel, next, y)
  {
    assert [event][1..] == [];
  }

  /** Completing runs compose: where `first` leads, `second` goes on from. */
  lemma LeadsThen<S, X, E, K>(d: Definition<S, X, E, K>, current: S, x: X, first: seq<E>, second: seq<E>, fuel: nat,
                              mid: S, xm: X, next: S, y: X)
    requires current in d.vertices && mid in d.vertices
    requires Leads(d, current, x, first, fuel, mid, xm) && Leads(d, mid, xm, second, fuel, next, y)
    ensures Leads(d, current, x, first + second, fuel, next, y)
  {
    ProcessAllAppend(d, current, x, first, second, fuel);
  }

  /** After a completing run, one more event ends where that event's call ends. */
  lemma LeadsThenLast<S, X, E, K>(d: Definition<S, X, E, K>, current: S, x: X, keys: seq<E>, event: E, fuel: nat, mid: S, xm: X)
    requires current in d.vertices && mid in d.vertices && Leads(d, current, x, keys, fuel, mid, xm)
    ensures var t := ProcessAll(d, current, x, keys + [event], fuel);
            var u := Process(d, mid, xm, event, fuel);
            t.state == u.state && t.ext == u.ext && t.status == u.status
  {
    ProcessAllAppend(d, current, x, keys, [event], fuel);
    assert [event][1..] == [];
  }

  /** The keys typed for the digits and decimal points of `n`. */
  function NumberKeys(n: string): seq<Event> {
    if n == [] then [] else [KeyOf(n[0])] + NumberKeys(n[1..])
  }

  /** The key typed for one character of a number. */
  function KeyOf(c: char): Event {
    if c == '.' then PeriodClicked else NumClicked(c)
  }

  /** `s` holds at most one decimal point. */
  predicate AtMostOnePeriod(s: string) {
    multiset(s)['.'] <= 1
  }

  /** One key of a number appends its character to the operand being entered, unless it is a
      second decimal point. */
  lemma KeyAppends(arith: (string, char, string) -> Result<string>, current: State, x: ExtendedState, c: char, fuel: nat)
    requires fuel > 0 && current != State.Off
    requires c == '.' ==> '.' !in GetOperand(Which(current), x)
    ensures Leads(Machine(arith), current, x, [KeyOf(c)], fuel, current,
                  UpdateOperand(Which(current), x, GetOperand(Which(current), x) + [c]))
  {
    if c == '.' {
      PeriodAppends(arith, current, x, fuel);
    } else {
      DigitAppends(arith, current, x, c, fuel);
    }
    KeyLeads(Machine(arith), current, x, KeyOf(c), fuel, current,
             UpdateOperand(Which(current), x, GetOperand(Which(current), x) + [c]));
  }

  /** Appending the first character of `n` to an operand that takes `n` with at most one decimal
      point: that character is not a second point, and the rest of `n` still fits. */
  lemma FirstCharAppends(which: Operands, x: ExtendedState, n: string)
    requires n != [] && AtMostOnePeriod(GetOperand(which, x) + n)
    ensures n[0] == '.' ==> '.' !in GetOperand(which, x)
    ensures var y := UpdateOperand(which, x, GetOperand(which, x) + [n[0]]);
            && GetOperand(which, y) + n[1..] == GetOperand(which, x) + n
            && AtMostOnePeriod(GetOperand(which, y) + n[1..])
            && UpdateOperand(which, y, GetOperand(which, x) + n) == UpdateOperand(which, x, GetOperand(which, x) + n)
  {
    var operand := GetOperand(which, x);
    assert multiset(operand + n) == multiset(operand) + multiset(n) && n[0] in multiset(n);
    assert (operand + [n[0]]) + n[1..] == operand + n;
  }

  /** Typing a number appends it to the operand being entered, as long as the operand ends up
      with at most one decimal point (a second one would be dropped), and keeps the state. */
  lemma {:induction false} NumberEntered(arith: (string, char, string) -> Result<string>, current: State, x: ExtendedState, n: string, fuel: nat)
    requires fuel > 0 && current != State.Off
    requires AtMostOnePeriod(GetOperand(Which(current), x) + n)
    ensures Leads(Machine(arith), current, x, NumberKeys(n), fuel, current,
                  UpdateOperand(Which(current), x, GetOperand(Which(current), x) + n))
    decreases |n|
  {
    var d := Machine(arith);
    var which := Which(current);
    var operand := GetOperand(which, x);
    if n == [] {
      assert operand + n == operand;
      assert UpdateOperand(which, x, operand) == x;
    } else {
      var key := KeyOf(n[0]);
      var y := UpdateOperand(which, x, operand + [n[0]]);
      FirstCharAppends(which, x, n);
      KeyAppends(arith, current, x, n[0], fuel);
      NumberEntered(arith, current, y, n[1..], fuel);
      LeadsThen(d, current, x, [key], NumberKeys(n[1..]), fuel, current, y, current, UpdateOperand(which, x, operand + n));
    }
  }

  /** Where On/C leads from any state. */
  lemma ClearLeads(arith: (string, char, string) -> Result<string>, current: State, x: ExtendedState, fuel: nat)
    requires fuel > 0
    ensures Leads(Machine(arith), current, x, [OnCClicked], fuel, Operand1, Cleared)
  {
    ClearButtons(arith, current, x, fuel);
    KeyLeads(Machine(arith), current, x, OnCClicked, fuel, Operand1, Cleared);
  }

  /** One more key after a completing run. */
  lemma ThenKey(arith: (string, char, string) -> Result<string>, current: State, x: ExtendedState, keys: seq<Event>, event: Event, fuel: nat,
                mid: State, xm: ExtendedState, next: State, y: ExtendedState)
    requires Leads(Machine(arith), current, x, keys, fuel, mid, xm)
    requires var t := Process(Machine(arith), mid, xm, event, fuel); t.status == Completed && t.state == next && t.ext == y
    ensures Leads(Machine(arith), current, x, keys + [event], fuel, next, y)
  {
    KeyLeads(Machine(arith), mid, xm, event, fuel, next, y);
    LeadsThen(Machine(arith), current, x, keys, [event], fuel, mid, xm, next, y);
  }

  /** A number typed after a completing run, into the operand of the state that run ends in. */
  lemma ThenNumber(arith: (string, char, string) -> Result<string>, current: State, x: ExtendedState, keys: seq<Event>, n: string, fuel: nat,
                   mid: State, xm: ExtendedState)
    requires fuel > 0 && mid != State.Off
    requires Leads(Machine(arith), current, x, keys, fuel, mid, xm)
    requires AtMostOnePeriod(GetOperand(Which(mid), xm) + n)
    ensures Leads(Machine(arith), current, x, keys + NumberKeys(n), fuel, mid, UpdateOperand(Which(mid), xm, GetOperand(Which(mid), xm) + n))
  {
    NumberEntered(arith, mid, xm, n, fuel);
    LeadsThen(Machine(arith), current, x, keys, NumberKeys(n), fuel, mid, xm, mid, UpdateOperand(Which(mid), xm, GetOperand(Which(mid), xm) + n));
  }

  /** An operator key after a run that ends in `Operand1`, other than a minus on an empty
      first operand. */
  lemma ThenOperator(arith: (string, char, string) -> Result<string>, current: State, x: ExtendedState, keys: seq<Event>,
                     operator: char, fuel: nat, xm: ExtendedState)
    requires fuel > 0 && Leads(Machine(arith), current, x, keys, fuel, Operand1, xm)
    requires !(operator == '-' && xm.operand1 == "")
    ensures Leads(Machine(arith), current, x, keys + [OperatorClicked(operator)], fuel, Operand2, xm.(operator := Some(operator)))
  {
    OperatorStartsSecondOperand(arith, xm, operator, fuel);
    ThenKey(arith, current, x, keys, OperatorClicked(operator), fuel, Operand1, xm, Operand2, xm.(operator := Some(operator)));
  }

  /** A minus key after a run that ends in `Operand2` with an empty second operand. */
  lemma ThenMinus(arith: (string, char, string) -> Result<string>, current: State, x: ExtendedState, keys: seq<Event>,
                  fuel: nat, xm: ExtendedState)
    requires fuel > 0 && Leads(Machine(arith), current, x, keys, fuel, Operand2, xm) && xm.operand2 == ""
    ensures Leads(Machine(arith), current, x, keys + [OperatorClicked('-')], fuel, Operand2, xm.(operand2 := "-"))
  {
    NegativeSecondOperand(arith, xm, fuel);
    ThenKey(arith, current, x, keys, OperatorClicked('-'), fuel, Operand2, xm, Operand2, xm.(operand2 := "-"));
  }

  /** An operator key after a run that ends in `Operand2` with an operation `arith` computes
      as `r`. */
  lemma ThenChain(arith: (string, char, string) -> Result<string>, current: State, x: ExtendedState, keys: seq<Event>,
                  operator: char, fuel: nat, xm: ExtendedState, r: string)
    requires fuel > 0 && Leads(Machine(arith), current, x, keys, fuel, Operand2, xm) && xm.operand2 != ""
    requires xm.operator.Some? && xm.operator.value in SupportedOperators
    requires arith(xm.operand1, xm.operator.value, xm.operand2) == Ok(r)
    ensures Leads(Machine(arith), current, x, keys + [OperatorClicked(operator)], fuel, Operand2, ExtendedState(r, Some(operator), ""))
  {
    OperatorChains(arith, xm, operator, fuel);
    ThenKey(arith, current, x, keys, OperatorClicked(operator), fuel, Operand2, xm, Operand2, ExtendedState(r, Some(operator), ""));
  }

  /** The equals key after a run that ends in `Operand2` with an operation `arith` computes as
      `r`. */
  lemma ThenEquals(arith: (string, char, string) -> Result<string>, current: State, x: ExtendedState, keys: seq<Event>,
                   fuel: nat, xm: ExtendedState, r: string)
    requires fuel > 0 && Leads(Machine(arith), current, x, keys, fuel, Operand2, xm)
    requires xm.operator.Some? && xm.operator.value in SupportedOperators
    requires arith(xm.operand1, xm.operator.value, xm.operand2) == Ok(r)
    ensures Leads(Machine(arith), current, x, keys + [EqualsClicked], fuel, Operand1, ExtendedState(r, None, ""))
  {
    EqualsComputes(arith, xm, fuel);
    ThenKey(arith, current, x, keys, EqualsClicked, fuel, Operand2, xm, Operand1, ExtendedState(r, None, ""));
  }

  /** On/C and a number: the number is the first operand. */
  lemma FirstOperandEntered(arith: (string, char, string) -> Result<string>, current: State, x: ExtendedState, a: string, fuel: nat)
    requires fuel > 0 && AtMostOnePeriod(a)
    ensures Leads(Machine(arith), current, x, [OnCClicked] + NumberKeys(a), fuel, Operand1, ExtendedState(a, None, ""))
  {
    ClearLeads(arith, current, x, fuel);
    assert "" + a == a;
    ThenNumber(arith, current, x, [OnCClicked], a, fuel, Operand1, Cleared);
  }

  /** A minus and a number after a run that ends in `Operand2` with an empty second operand:
      the second operand is the negative number. */
  lemma ThenNegativeNumber(arith: (string, char, string) -> Result<string>, current: State, x: ExtendedState, keys: seq<Event>,
                           n: string, fuel: nat, xm: ExtendedState)
    requires fuel > 0 && Leads(Machine(arith), current, x, keys, fuel, Operand2, xm) && xm.operand2 == ""
    requires AtMostOnePeriod(n)
    ensures Leads(Machine(arith), current, x, keys + [OperatorClicked('-')] + NumberKeys(n), fuel, Operand2, xm.(operand2 := "-" + n))
  {
    ThenMinus(arith, current, x, keys, fuel, xm);
    assert multiset("-" + n) == multiset("-") + multiset(n);
    ThenNumber(arith, current, x, keys + [OperatorClicked('-')], n, fuel, Operand2, xm.(operand2 := "-"));
  }

  /** An operator key that computes the pending operation as `r`, then a minus and a number:
      the next second operand is the negative number. */
  lemma ThenChainNegative(arith: (string, char, string) -> Result<string>, current: State, x: ExtendedState, keys: seq<Event>,
                          operator: char, n: string, fuel: nat, xm: ExtendedState, r: string)
    requires fuel > 0 && Leads(Machine(arith), current, x, keys, fuel, Operand2, xm) && xm.operand2 != ""
    requires xm.operator.Some? && xm.operator.value in SupportedOperators
    requires arith(xm.operand1, xm.operator.value, xm.operand2) == Ok(r) && AtMostOnePeriod(n)
    ensures Leads(Machine(arith), current, x, keys + [OperatorClicked(operator)] + [OperatorClicked('-')] + NumberKeys(n), fuel,
                  Operand2, ExtendedState(r, Some(operator), "-" + n))
  {
    ThenChain(arith, current, x, keys, operator, fuel, xm, r);
    ThenNegativeNumber(arith, current, x, keys + [OperatorClicked(operator)], n, fuel, ExtendedState(r, Some(operator), ""));
  }

  /** A number after a run that ends in `Operand2` with an empty second operand. */
  lemma ThenSecondOperand(arith: (string, char, string) -> Result<string>, current: State, x: ExtendedState, keys: seq<Event>,
                          n: string, fuel: nat, xm: ExtendedState)
    requires fuel > 0 && Leads(Machine(arith), current, x, keys, fuel, Operand2, xm) && xm.operand2 == ""
    requires AtMostOnePeriod(n)
    ensures Leads(Machine(arith), current, x, keys + NumberKeys(n), fuel, Operand2, xm.(operand2 := n))
  {
    assert "" + n == n;
    ThenNumber(arith, current, x, keys, n, fuel, Operand2, xm);
  }

  /** The keys of "a op b =" after On/C. */
  function OneOperation(a: string, operator: char, b: string): seq<Event> {
    [OnCClicked] + NumberKeys(a) + [OperatorClicked(operator)] + NumberKeys(b) + [EqualsClicked]
  }

  /** The operands typed after a minus key, as the keys spell them. */
  lemma NegativeOperands()
    ensures "-" + "69" == "-69" && "-" + "42" == "-42" && "-" + "82.5" == "-82.5"
  {
  }

  /** The integer operands of the calculator tests have no decimal point. */
  lemma IntegerOperands()
    ensures AtMostOnePeriod("420") && AtMostOnePeriod("69") && AtMostOnePeriod("2") && AtMostOnePeriod("42") && AtMostOnePeriod("7")
  {
  }

  /** The decimal operands of the calculator tests have one decimal point each. */
  lemma DecimalOperands()
    ensures AtMostOnePeriod("4.20") && AtMostOnePeriod("6.9") && AtMostOnePeriod("420.420")
    ensures AtMostOnePeriod("0.69") && AtMostOnePeriod("82.5") && AtMostOnePeriod(".1")
  {
    OnePeriod("4", "20");
    OnePeriod("6", "9");
    OnePeriod("420", "420");
    OnePeriod("0", "69");
    OnePeriod("82", "5");
    OnePeriod("", "1");
  }

  /** A number with a decimal point between two runs of digits has only that one. */
  lemma OnePeriod(a: string, b: string)
    requires '.' !in a && '.' !in b
    ensures AtMostOnePeriod(a + "." + b)
  {
    assert multiset(a + "." + b) == multiset(a) + multiset(".") + multiset(b);
  }

  /** A single operation typed after On/C, from any state: it ends in `Operand1` with `arith`'s
      result as the only operand; when `arith` throws, the equals call fails with its message
      and the calculator stays in `Operand2` with both operands and the operator entered. */
  lemma OneOperationRuns(arith: (string, char, string) -> Result<string>, current: State, x: ExtendedState,
                         a: string, operator: char, b: string, fuel: nat)
    requires fuel > 0 && a != "" && operator in SupportedOperators
    requires AtMostOnePeriod(a) && AtMostOnePeriod(b)
    ensures var t := ProcessAll(Machine(arith), current, x, OneOperation(a, operator, b), fuel);
            && (arith(a, operator, b).Ok? ==> t.state == Operand1 && t.ext == ExtendedState(arith(a, operator, b).value, None, "") && t.status == Completed)
            && (arith(a, operator, b).Thrown? ==>
                  t.state == Operand2 && t.ext == ExtendedState(a, Some(operator), b) && t.status == CallbackThrew(arith(a, operator, b).message))
  {
    var d := Machine(arith);
    FirstOperandEntered(arith, current, x, a, fuel);
    var k1 := [OnCClicked] + NumberKeys(a);
    ThenOperator(arith, current, x, k1, operator, fuel, ExtendedState(a, None, ""));
    var k2 := k1 + [OperatorClicked(operator)];
    ThenSecondOperand(arith, current, x, k2, b, fuel, ExtendedState(a, Some(operator), ""));
    var x3 := ExtendedState(a, Some(operator), b);
    var k3 := k2 + NumberKeys(b);
    EqualsComputes(arith, x3, fuel);
    LeadsThenLast(d, current, x, k3, EqualsClicked, fuel, Operand2, x3);
  }

  /** The single-operation tests: "420 + 69 =", "4.20 + 69 =", "420 + 6.9 =", "420.420 + 6.9 =",
      "420 * 69 =", "420 / 69 =" and "420 - 69 =" each end in `Operand1` with the result of the
      operation as the only operand. */
  lemma SingleOperationTestsRun(arith: (string, char, string) -> Result<string>, current: State, x: ExtendedState, fuel: nat)
    requires fuel > 0
    ensures arith("420", '+', "69").Ok? ==> Leads(Machine(arith), current, x, OneOperation("420", '+', "69"), fuel,
                                                  Operand1, ExtendedState(arith("420", '+', "69").value, None, ""))
    ensures arith("4.20", '+', "69").Ok? ==> Leads(Machine(arith), current, x, OneOperation("4.20", '+', "69"), fuel,
                                                   Operand1, ExtendedState(arith("4.20", '+', "69").value, None, ""))
    ensures arith("420", '+', "6.9").Ok? ==> Leads(Machine(arith), current, x, OneOperation("420", '+', "6.9"), fuel,
                                                   Operand1, ExtendedState(arith("420", '+', "6.9").value, None, ""))
    ensures arith("420.420", '+', "6.9").Ok? ==> Leads(Machine(arith), current, x, OneOperation("420.420", '+', "6.9"), fuel,
                                                       Operand1, ExtendedState(arith("420.420", '+', "6.9").value, None, ""))
    ensures arith("420", '*', "69").Ok? ==> Leads(Machine(arith), current, x, OneOperation("420", '*', "69"), fuel,
                                                  Operand1, ExtendedState(arith("420", '*', "69").value, None, ""))
    ensures arith("420", '/', "69").Ok? ==> Leads(Machine(arith), current, x, OneOperation("420", '/', "69"), fuel,
                                                  Operand1, ExtendedState(arith("420", '/', "69").value, None, ""))
    ensures arith("420", '-', "69").Ok? ==> Leads(Machine(arith), current, x, OneOperation("420", '-', "69"), fuel,
                                                  Operand1, ExtendedState(arith("420", '-', "69").value, None, ""))
  {
    NegativeOperands();
    IntegerOperands();
    DecimalOperands();
    OneOperationRuns(arith, current, x, "420", '+', "69", fuel);
    OneOperationRuns(arith, current, x, "4.20", '+', "69", fuel);
    OneOperationRuns(arith, current, x, "420", '+', "6.9", fuel);
    OneOperationRuns(arith, current, x, "420.420", '+', "6.9", fuel);
    OneOperationRuns(arith, current, x, "420", '*', "69", fuel);
    OneOperationRuns(arith, current, x, "420", '/', "69", fuel);
    OneOperationRuns(arith, current, x, "420", '-', "69", fuel);
  }

  /** The keys of "420 - 69 * 2 =" after On/C. */
  function MultipleOperations(): seq<Event> {
    [OnCClicked] + NumberKeys("420") + [OperatorClicked('-')] + NumberKeys("69") + [OperatorClicked('*')] + NumberKeys("2") + [EqualsClicked]
  }

  /** "420 - 69 * 2 =" is evaluated left to right: the subtraction is computed when `*` is
      pressed, and its result is multiplied by 2. */
  lemma MultipleOperationsRuns(arith: (string, char, string) -> Result<string>, current: State, x: ExtendedState, fuel: nat,
                               difference: string, product: string)
    requires fuel > 0 && arith("420", '-', "69") == Ok(difference) && arith(difference, '*', "2") == Ok(product)
    ensures Leads(Machine(arith), current, x, MultipleOperations(), fuel, Operand1, ExtendedState(product, None, ""))
  {
    NegativeOperands();
    IntegerOperands();
    DecimalOperands();
    FirstOperandEntered(arith, current, x, "420", fuel);
    var k1 := [OnCClicked] + NumberKeys("420");
    ThenOperator(arith, current, x, k1, '-', fuel, ExtendedState("420", None, ""));
    var k2 := k1 + [OperatorClicked('-')];
    ThenSecondOperand(arith, current, x, k2, "69", fuel, ExtendedState("420", Some('-'), ""));
    var k3 := k2 + NumberKeys("69");
    ThenChain(arith, current, x, k3, '*', fuel, ExtendedState("420", Some('-'), "69"), difference);
    var k4 := k3 + [OperatorClicked('*')];
    ThenSecondOperand(arith, current, x, k4, "2", fuel, ExtendedState(difference, Some('*'), ""));
    ThenEquals(arith, current, x, k4 + NumberKeys("2"), fuel, ExtendedState(difference, Some('*'), "2"), product);
  }

  /** The keys of "-69 + 42 =" after On/C: the minus is an operator key. */
  function NegativeFirst(): seq<Event> {
    [OnCClicked] + [OperatorClicked('-')] + NumberKeys("69") + [OperatorClicked('+')] + NumberKeys("42") + [EqualsClicked]
  }

  /** "-69 + 42 =": the leading minus becomes part of the first operand, so `arith` adds "-69"
      and "42". */
  lemma NegativeFirstOperandRuns(arith: (string, char, string) -> Result<string>, current: State, x: ExtendedState, fuel: nat, sum: string)
    requires fuel > 0 && arith("-69", '+', "42") == Ok(sum)
    ensures Leads(Machine(arith), current, x, NegativeFirst(), fuel, Operand1, ExtendedState(sum, None, ""))
  {
    NegativeOperands();
    IntegerOperands();
    DecimalOperands();
    ClearLeads(arith, current, x, fuel);
    NegativeFirstOperand(arith, Cleared, fuel);
    ThenKey(arith, current, x, [OnCClicked], OperatorClicked('-'), fuel, Operand1, Cleared, Operand1, ExtendedState("-", None, ""));
    var k1 := [OnCClicked] + [OperatorClicked('-')];
    ThenNumber(arith, current, x, k1, "69", fuel, Operand1, ExtendedState("-", None, ""));
    var k2 := k1 + NumberKeys("69");
    ThenOperator(arith, current, x, k2, '+', fuel, ExtendedState("-69", None, ""));
    var k3 := k2 + [OperatorClicked('+')];
    ThenSecondOperand(arith, current, x, k3, "42", fuel, ExtendedState("-69", Some('+'), ""));
    ThenEquals(arith, current, x, k3 + NumberKeys("42"), fuel, ExtendedState("-69", Some('+'), "42"), sum);
  }

  /** The keys of "69 * -42 =" after On/C. */
  function NegativeSecond(): seq<Event> {
    [OnCClicked] + NumberKeys("69") + [OperatorClicked('*')] + [OperatorClicked('-')] + NumberKeys("42") + [EqualsClicked]
  }

  /** "69 * -42 =": the minus after the operator becomes part of the second operand, so
      `arith` multiplies "69" by "-42". */
  lemma NegativeSecondOperandRuns(arith: (string, char, string) -> Result<string>, current: State, x: ExtendedState, fuel: nat, product: string)
    requires fuel > 0 && arith("69", '*', "-42") == Ok(product)
    ensures Leads(Machine(arith), current, x, NegativeSecond(), fuel, Operand1, ExtendedState(product, None, ""))
  {
    NegativeOperands();
    IntegerOperands();
    DecimalOperands();
    FirstOperandEntered(arith, current, x, "69", fuel);
    var k1 := [OnCClicked] + NumberKeys("69");
    ThenOperator(arith, current, x, k1, '*', fuel, ExtendedState("69", None, ""));
    var k2 := k1 + [OperatorClicked('*')];
    ThenNegativeNumber(arith, current, x, k2, "42", fuel, ExtendedState("69", Some('*'), ""));
    ThenEquals(arith, current, x, k2 + [OperatorClicked('-')] + NumberKeys("42"), fuel, ExtendedState("69", Some('*'), "-42"), product);
  }

  /** The keys of "0.69 * -42 + -82.5 * .1 / 7 =" after On/C. */
  function Mega(): seq<Event> {
    MegaFirstHalf() + [OperatorClicked('*')] + NumberKeys(".1") + [OperatorClicked('/')] + NumberKeys("7") + [EqualsClicked]
  }

  /** The keys of "0.69 * -42" after On/C. */
  function MegaFirstProduct(): seq<Event> {
    [OnCClicked] + NumberKeys("0.69") + [OperatorClicked('*')] + [OperatorClicked('-')] + NumberKeys("42")
  }

  /** The keys of "0.69 * -42 + -82.5" after On/C. */
  function MegaFirstHalf(): seq<Event> {
    MegaFirstProduct() + [OperatorClicked('+')] + [OperatorClicked('-')] + NumberKeys("82.5")
  }

  /** "0.69 * -42": a decimal first operand and a negative second one. */
  lemma MegaFirstProductRuns(arith: (string, char, string) -> Result<string>, current: State, x: ExtendedState, fuel: nat)
    requires fuel > 0
    ensures Leads(Machine(arith), current, x, MegaFirstProduct(), fuel, Operand2, ExtendedState("0.69", Some('*'), "-42"))
  {
    NegativeOperands();
    IntegerOperands();
    DecimalOperands();
    FirstOperandEntered(arith, current, x, "0.69", fuel);
    var k1 := [OnCClicked] + NumberKeys("0.69");
    ThenOperator(arith, current, x, k1, '*', fuel, ExtendedState("0.69", None, ""));
    ThenNegativeNumber(arith, current, x, k1 + [OperatorClicked('*')], "42", fuel, ExtendedState("0.69", Some('*'), ""));
  }

  /** "0.69 * -42 + -82.5": the product is computed when `+` is pressed, and the second operand
      starts negative again. */
  lemma MegaFirstHalfRuns(arith: (string, char, string) -> Result<string>, current: State, x: ExtendedState, fuel: nat, r1: string)
    requires fuel > 0 && arith("0.69", '*', "-42") == Ok(r1)
    ensures Leads(Machine(arith), current, x, MegaFirstHalf(), fuel, Operand2, ExtendedState(r1, Some('+'), "-82.5"))
  {
    MegaFirstProductRuns(arith, current, x, fuel);
    NegativeOperands();
    IntegerOperands();
    DecimalOperands();
    ThenChainNegative(arith, current, x, MegaFirstProduct(), '+', "82.5", fuel, ExtendedState("0.69", Some('*'), "-42"), r1);
  }

  /** The mega test, "0.69 * -42 + -82.5 * .1 / 7 =": strictly left to right, each operator
      computing the operation before it, with negative second operands and a number starting
      with its decimal point. */
  lemma MegaRuns(arith: (string, char, string) -> Result<string>, current: State, x: ExtendedState, fuel: nat,
                 r1: string, r2: string, r3: string, r4: string)
    requires fuel > 0
    requires arith("0.69", '*', "-42") == Ok(r1) && arith(r1, '+', "-82.5") == Ok(r2)
    requires arith(r2, '*', ".1") == Ok(r3) && arith(r3, '/', "7") == Ok(r4)
    ensures Leads(Machine(arith), current, x, Mega(), fuel, Operand1, ExtendedState(r4, None, ""))
  {
    NegativeOperands();
    IntegerOperands();
    DecimalOperands();
    MegaFirstHalfRuns(arith, current, x, fuel, r1);
    var k1 := MegaFirstHalf();
    ThenChain(arith, current, x, k1, '*', fuel, ExtendedState(r1, Some('+'), "-82.5"), r2);
    var k2 := k1 + [OperatorClicked('*')];
    ThenSecondOperand(arith, current, x, k2, ".1", fuel, ExtendedState(r2, Some('*'), ""));
    var k3 := k2 + NumberKeys(".1");
    ThenChain(arith, current, x, k3, '/', fuel, ExtendedState(r2, Some('*'), ".1"), r3);
    var k4 := k3 + [OperatorClicked('/')];
    ThenSecondOperand(arith, current, x, k4, "7", fuel, ExtendedState(r3, Some('/'), ""));
    ThenEquals(arith, current, x, k4 + NumberKeys("7"), fuel, ExtendedState(r3, Some('/'), "7"), r4);
  }

  /** `ProcessAll` on a non-empty sequence: the first event, then (if it completed) the rest. */
  lemma ProcessAllUnfold<S, X, E, K>(d: Definition<S, X, E, K>, current: S, x: X, events: seq<E>, fuel: nat)
    requires current in d.vertices && events != []
    ensures var t := Process(d, current, x, events[0], fuel);
            && (t.status != Completed ==> ProcessAll(d, current, x, events, fuel) == t)
            && (t.status == Completed ==>
                 var rest := ProcessAll(d, t.state, t.ext, events[1..], fuel);
                 ProcessAll(d, current, x, events, fuel) == Trace(rest.state, rest.ext, rest.status, t.calls + rest.calls))
  {
  }

  /** `total` is where processing all the events leads, given that the calls in `done` have
      already been made and the events `rest` remain, from `current` with `x`. */
  ghost predicate Pending<S, X, E, K>(d: Definition<S, X, E, K>, current: S, x: X, rest: seq<E>, fuel: nat,
                                  total: Trace<S, X, E>, done: seq<Call<S, X, E>>)
    requires current in d.vertices
  {
    var r := ProcessAll(d, current, x, rest, fuel);
    total == Trace(r.state, r.ext, r.status, done + r.calls)
  }

  /** One more event of a sequence being processed: where the runs so far and the remaining
      events lead, given where the next event leads. */
  lemma ProcessAllAdvance<S, X, E, K>(d: Definition<S, X, E, K>, current: S, x: X, events: seq<E>, i: nat, fuel: nat,
                                      total: Trace<S, X, E>, done: seq<Call<S, X, E>>)
    requires current in d.vertices && i < |events|
    requires Pending(d, current, x, events[i..], fuel, total, done)
    ensures var t := Process(d, current, x, events[i], fuel);
            && (t.status != Completed ==> total == Trace(t.state, t.ext, t.status, done + t.calls))
            && (t.status == Completed ==> Pending(d, t.state, t.ext, events[i + 1..], fuel, total, done + t.calls))
  {
    ProcessAllUnfold(d, current, x, events[i..], fuel);
    assert events[i..][0] == events[i] && events[i..][1..] == events[i + 1..];
    var t := Process(d, current, x, events[i], fuel);
    if t.status == Completed {
      var rest := ProcessAll(d, t.state, t.ext, events[i + 1..], fuel);
      AppendAssociates(done, t.calls, rest.calls);
    }
  }

  /** One `processEvent` call of `processEvents`, for the event at `i`: the calls made so far
      become `done'`, and either the call ends the sequence at `total` or the remaining events
      lead there. */
  method ProcessNext<S(==), X, E, K(==)>(m: StateMachine<S, X, E, K>, events: seq<E>, i: nat, fuel: nat,
                                         ghost total: Trace<S, X, E>, ghost calls0: seq<Call<S, X, E>>,
                                         ghost done: seq<Call<S, X, E>>)
    returns (status: Status<S>, ghost done': seq<Call<S, X, E>>)
    requires m.Valid() && i < |events| && m.calls == calls0 + done
    requires Pending(m.def, m.CurrentState(), m.store.extState, events[i..], fuel, total, done)
    modifies m, m.store
    ensures m.Valid() && m.calls == calls0 + done'
    ensures status != Completed ==> total == Trace(m.CurrentState(), m.store.extState, status, done')
    ensures status == Completed ==> Pending(m.def, m.CurrentState(), m.store.extState, events[i + 1..], fuel, total, done')
  {
    ghost var t := Process(m.def, m.CurrentState(), m.store.extState, events[i], fuel);
    ProcessAllAdvance(m.def, m.CurrentState(), m.store.extState, events, i, fuel, total, done);
    status := m.ProcessEvent(events[i], fuel);
    done' := done + t.calls;
    AppendAssociates(calls0, done, t.calls);
  }

  /** The test's `processEvents`: one `processEvent` call per event, in order; an exception
      from one of them ends the loop and propagates. */
  method ProcessEvents<S(==), X, E, K(==)>(m: StateMachine<S, X, E, K>, events: seq<E>, fuel: nat) returns (status: Status<S>)
    requires m.Valid()
    modifies m, m.store
    ensures m.Valid()
    ensures var t := ProcessAll(m.def, old(m.CurrentState()), old(m.store.extState), events, fuel);
            && m.CurrentState() == t.state && m.store.extState == t.ext && status == t.status
            && m.calls == old(m.calls) + t.calls
  {
    ghost var total := ProcessAll(m.def, m.CurrentState(), m.store.extState, events, fuel);
    ghost var calls0 := m.calls;
    ghost var done: seq<Call<S, X, E>> := [];
    assert events[0..] == events && [] + total.calls == total.calls && calls0 + [] == calls0;
    var i := 0;
    while i < |events|
      invariant 0 <= i <= |events|
      invariant m.Valid() && m.calls == calls0 + done
      invariant Pending(m.def, m.CurrentState(), m.store.extState, events[i..], fuel, total, done)
    {
      status, done := ProcessNext(m, events, i, fuel, total, calls0, done);
      if status != Completed {
        return;
      }
      i := i + 1;
    }
    assert events[i..] == [];
    return Completed;
  }

  /** The integer addition test on a machine built by the DSL block: after On/C and
      "420 + 69 =", the calculator is in `Operand1` with the sum as the first operand. */
  method IntegerAdditionTest(arith: (string, char, string) -> Result<string>, fuel: nat)
    returns (state: State, extendedState: ExtendedState)
    requires fuel > 0 && arith("420", '+', "69").Ok?
    ensures state == Operand1 && extendedState == ExtendedState(arith("420", '+', "69").value, None, "")
  {
    CalculatorBuilds(arith);
    var built := DefineMachine(CalculatorBlock(arith), ClassOf);
    var calculator := built.value;
    var status := ProcessEvents(calculator, OneOperation("420", '+', "69"), fuel);
    SingleOperationTestsRun(arith, State.Off, Cleared, fuel);
    state := calculator.CurrentState();
    extendedState := calculator.CurrentExtendedState();
  }
}
