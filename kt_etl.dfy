/** The extract-transform-load pipeline of the newer engine's tests: one `Run` event, and each
    arrival action propagates the event that carries the machine to the next stage, so the
    whole pipeline runs inside that one `processEvent` call. JSON parsing is a parameter. */
module KtEtl {
  import opened Wrappers
  import opened KtTypes
  import opened KtVertex
  import opened KtEngine
  import opened DslCommon
  import opened KtDsl

  datatype State = Waiting | Extracting | Transforming | Loading

  /** Every event is an `object`, so it is its own event class. */
  datatype Event = Run | ExtractionSuccessful | TransformationSuccessful | LoadingSuccessful

  function ClassOf(e: Event): Event {
    e
  }

  datatype ExtractedData = ExtractedData(raw: string)

  datatype TransformedData = TransformedData(foo: string, bar: string)

  /** Both parts start out null. */
  datatype EtlState = EtlState(extractedData: Option<ExtractedData>, transformedData: Option<TransformedData>)

  function Initial(): EtlState {
    EtlState(None, None)
  }

  /** The document the extraction stage produces. */
  const Raw := "{\"foo\": \"I'm foo!\",\"bar\": \"I'm bar!\"}"

  /** What `extractedData!!` throws when nothing was extracted. */
  const NullExtractedData := "extractedData is null"

  /** A JSON decoder for `TransformedData`, standing in for Gson: it may throw. */
  type Parser = string -> Result<TransformedData>

  /** `execute { _ -> ExtendedState() }`. */
  function Reset(x: EtlState): Result<EtlState> {
    Ok(Initial())
  }

  /** Arrival at `Extracting`: store the raw document, then propagate `ExtractionSuccessful`. */
  function Extract(): Action<Event, EtlState> {
    (e: Event, x: EtlState) => Ok(ActionResult(EtlState(Some(ExtractedData(Raw)), None), Some(ExtractionSuccessful)))
  }

  /** Arrival at `Transforming`: decode the extracted document into the extended state, then
      propagate `TransformationSuccessful`; throws without extracted data or on a decoding error. */
  function Transform(parse: Parser): Action<Event, EtlState> {
    (e: Event, x: EtlState) =>
      if x.extractedData.None? then Thrown(NullExtractedData)
      else
        match parse(x.extractedData.value.raw)
        case Thrown(m) => Thrown(m)
        case Ok(t) => Ok(ActionResult(x.(transformedData := Some(t)), Some(TransformationSuccessful)))
  }

  /** Arrival at `Loading`: hand the transformed data over (the test records it), keep the
      extended state, then propagate `LoadingSuccessful`. */
  function Load(): Action<Event, EtlState> {
    (e: Event, x: EtlState) => Ok(ActionResult(x, Some(LoadingSuccessful)))
  }

  type Command = MachineCommand<State, EtlState, Event, Event>
  type EtlVertex = Vertex<State, EtlState, Event, Event>
  type EtlDefinition = Definition<State, EtlState, Event, Event>

  function WaitingBlock(): seq<VertexCommand<State, EtlState, Event, Event>> {
    [On(Run, [TransitionTo(Extracting), ExecuteUpdate(Reset)])]
  }

  function StageBlock(arrival: Action<Event, EtlState>, done: Event, next: State): seq<VertexCommand<State, EtlState, Event, Event>> {
    [UponArrival([arrival]), On(done, [TransitionTo(next)])]
  }

  /** The test's `StateMachine<State, ExtendedState, Event> { ... }` block. */
  function EtlBlock(parse: Parser): seq<Command> {
    [ StartingState(Waiting),
      StartingExtendedState(Initial()),
      StateDefinition(Waiting, WaitingBlock()),
      StateDefinition(Extracting, StageBlock(Extract(), ExtractionSuccessful, Transforming)),
      StateDefinition(Transforming, StageBlock(Transform(parse), TransformationSuccessful, Loading)),
      StateDefinition(Loading, StageBlock(Load(), LoadingSuccessful, Waiting)) ]
  }

  /** The vertices that block builds, written out. */
  function WaitingVertex(): EtlVertex {
    Vertex(Some(Waiting), map[Run := StateTransition(Some(Extracting), Some(UpdateTask(Reset)))], None, None)
  }

  function StageVertex(state: State, arrival: Action<Event, EtlState>, done: Event, next: State): EtlVertex {
    Vertex(Some(state), map[done := StateTransition(Some(next), None)], Some(arrival), None)
  }

  function Pipeline(parse: Parser): EtlDefinition {
    Definition(map[Waiting := WaitingVertex(),
                   Extracting := StageVertex(Extracting, Extract(), ExtractionSuccessful, Transforming),
                   Transforming := StageVertex(Transforming, Transform(parse), TransformationSuccessful, Loading),
                   Loading := StageVertex(Loading, Load(), LoadingSuccessful, Waiting)],
               EmptyVertex(None), DefaultConfig(), ClassOf)
  }

  // ---------------------------------------------------------------------------------------
  // Building the pipeline

  function StartedDraft(): Draft<State, EtlState, Event, Event> {
    Draft(Some(Waiting), Some(Initial()), None, None, map[])
  }

  /** The DSL block builds exactly the pipeline written out above, waiting with nothing
      extracted or transformed. */
  lemma EtlBuilds(parse: Parser)
    ensures Define(EtlBlock(parse), ClassOf) == Built(Blueprint(Pipeline(parse), Waiting, Initial()))
  {
    EtlBlockRuns(parse);
    var final := StartedDraft().(vertices := Pipeline(parse).vertices);
    assert StoreCheck(final).None?;
  }

  lemma EtlBlockRuns(parse: Parser)
    ensures RunMachineBlock(EmptyDraft(), EtlBlock(parse)) == Built(StartedDraft().(vertices := Pipeline(parse).vertices))
  {
    var rest := [ StateDefinition(Waiting, WaitingBlock()),
                  StateDefinition(Extracting, StageBlock(Extract(), ExtractionSuccessful, Transforming)),
                  StateDefinition(Transforming, StageBlock(Transform(parse), TransformationSuccessful, Loading)),
                  StateDefinition(Loading, StageBlock(Load(), LoadingSuccessful, Waiting)) ];
    assert EtlBlock(parse) == [StartingState(Waiting), StartingExtendedState(Initial())] + rest;
    StartingValuesRun(Waiting, Initial(), rest);
    StagesRun(Extract(), Transform(parse), Load());
  }

  /** The four state definitions build the four vertices whatever the stages' arrival actions. */
  lemma StagesRun(extract: Action<Event, EtlState>, transform: Action<Event, EtlState>, load: Action<Event, EtlState>)
    ensures RunMachineBlock(StartedDraft(), [ StateDefinition(Waiting, WaitingBlock()),
                                              StateDefinition(Extracting, StageBlock(extract, ExtractionSuccessful, Transforming)),
                                              StateDefinition(Transforming, StageBlock(transform, TransformationSuccessful, Loading)),
                                              StateDefinition(Loading, StageBlock(load, LoadingSuccessful, Waiting)) ])
            == Built(StartedDraft().(vertices := map[Waiting := WaitingVertex(),
                                                     Extracting := StageVertex(Extracting, extract, ExtractionSuccessful, Transforming),
                                                     Transforming := StageVertex(Transforming, transform, TransformationSuccessful, Loading),
                                                     Loading := StageVertex(Loading, load, LoadingSuccessful, Waiting)]))
  {
    var e := StateDefinition(Extracting, StageBlock(extract, ExtractionSuccessful, Transforming));
    var t := StateDefinition(Transforming, StageBlock(transform, TransformationSuccessful, Loading));
    var l := StateDefinition(Loading, StageBlock(load, LoadingSuccessful, Waiting));
    assert [StateDefinition(Waiting, WaitingBlock()), e, t, l] == [StateDefinition(Waiting, WaitingBlock())] + ([e] + ([t] + ([l] + [])));
    WaitingBuilds();
    var d3 := StateDefinitionRuns(StartedDraft(), Waiting, WaitingBlock(), WaitingVertex(), [e] + ([t] + ([l] + [])));
    var d4 := StageRuns(d3, Extracting, extract, ExtractionSuccessful, Transforming, [t] + ([l] + []));
    var d5 := StageRuns(d4, Transforming, transform, TransformationSuccessful, Loading, [l] + []);
    var d6 := StageRuns(d5, Loading, load, LoadingSuccessful, Waiting, []);
  }

  /** Defining a stage on a draft whose starting values are set adds its vertex; the rest of the
      block then runs on that draft. */
  lemma StageRuns(d: Draft<State, EtlState, Event, Event>, state: State, arrival: Action<Event, EtlState>, done: Event, next: State,
                  rest: seq<Command>)
    returns (r: Draft<State, EtlState, Event, Event>)
    requires state !in d.vertices && d.acceptingState.Some? && d.acceptingExtendedState.Some?
    ensures r == d.(vertices := d.vertices[state := StageVertex(state, arrival, done, next)])
    ensures RunMachineBlock(d, [StateDefinition(state, StageBlock(arrival, done, next))] + rest) == RunMachineBlock(r, rest)
  {
    StageBuilds(state, arrival, done, next);
    r := StateDefinitionRuns(d, state, StageBlock(arrival, done, next), StageVertex(state, arrival, done, next), rest);
  }

  lemma WaitingBuilds()
    ensures RunVertexBlock(EmptyVertex(Some(Waiting)), WaitingBlock()) == Built(WaitingVertex())
  {
    var b := WaitingBlock();
    TargetAndTask<State, EtlState, Event>(Extracting, ExecuteUpdate(Reset));
    var v0: EtlVertex := EmptyVertex(Some(Waiting));
    VertexBlockStep(v0, b, WaitingVertex());
    assert b[1..] == [];
  }

  lemma StageBuilds(state: State, arrival: Action<Event, EtlState>, done: Event, next: State)
    ensures RunVertexBlock(EmptyVertex(Some(state)), StageBlock(arrival, done, next)) == Built(StageVertex(state, arrival, done, next))
  {
    var b := StageBlock(arrival, done, next);
    var v0: EtlVertex := EmptyVertex(Some(state));
    var arrivals := [arrival];
    assert arrivals[1..] == [];
    assert RunActionBlock(v0.onArrival, arrivals) == Some(arrival);
    var v1 := v0.(onArrival := Some(arrival));
    VertexBlockStep(v0, b, v1);
    TargetOnly<State, EtlState, Event>(next);
    VertexBlockStep(v1, b[1..], StageVertex(state, arrival, done, next));
    assert b[1..][1..] == [];
  }

  // ---------------------------------------------------------------------------------------
  // Running the pipeline

  /** The extended state after extraction, and after transformation into `t`. */
  function Extracted(): EtlState {
    EtlState(Some(ExtractedData(Raw)), None)
  }

  function Transformed(t: TransformedData): EtlState {
    EtlState(Some(ExtractedData(Raw)), Some(t))
  }

  /** The user code one `Run` runs, up to the decoding: the reset task, then the arrivals at
      `Extracting` and `Transforming`. */
  function UpToTransform(x: EtlState): seq<Call<State, EtlState, Event>> {
    [TaskCall(Run, x), ArrivalCall(Some(Extracting), Run, Initial()), ArrivalCall(Some(Transforming), ExtractionSuccessful, Extracted())]
  }

  /** `Run` from `Waiting`: the reset task clears the extended state, the machine enters
      `Extracting`, whose arrival stores the document and propagates `ExtractionSuccessful`. */
  lemma RunStep(parse: Parser, x: EtlState)
    ensures Step(Pipeline(parse), Waiting, x, Run)
            == Stepped(Trace(Extracting, Extracted(), Completed, UpToTransform(x)[..2]), Some(ExtractionSuccessful))
  {
    UpdateTaskResult<State, EtlState, Event>(Reset, Run, x);
  }

  /** `ExtractionSuccessful` in `Extracting` enters `Transforming`, whose arrival decodes the
      document: on success it stores the data and propagates `TransformationSuccessful`; a
      decoding error is the call's error, with the machine already in `Transforming`. */
  lemma ExtractedStep(parse: Parser)
    ensures var s := Step(Pipeline(parse), Extracting, Extracted(), ExtractionSuccessful);
            && (parse(Raw).Ok? ==> s == Stepped(Trace(Transforming, Transformed(parse(Raw).value), Completed, UpToTransform(Initial())[2..]),
                                                Some(TransformationSuccessful)))
            && (parse(Raw).Thrown? ==> s == Stepped(Trace(Transforming, Extracted(), CallbackThrew(parse(Raw).message), UpToTransform(Initial())[2..]),
                                                    None))
  {
  }

  /** `TransformationSuccessful` in `Transforming` enters `Loading`, whose arrival sees the
      transformed data and propagates `LoadingSuccessful`. */
  lemma TransformedStep(parse: Parser, t: TransformedData)
    ensures Step(Pipeline(parse), Transforming, Transformed(t), TransformationSuccessful)
            == Stepped(Trace(Loading, Transformed(t), Completed, [ArrivalCall(Some(Loading), TransformationSuccessful, Transformed(t))]),
                       Some(LoadingSuccessful))
  {
  }

  /** `LoadingSuccessful` in `Loading` returns to `Waiting`, which has no arrival action. */
  lemma LoadedStep(parse: Parser, t: TransformedData)
    ensures Step(Pipeline(parse), Loading, Transformed(t), LoadingSuccessful) == Stepped(Trace(Waiting, Transformed(t), Completed, []), None)
  {
  }

  /** The test's run: with room for the three propagated events, one `Run` takes the pipeline
      through every stage and back to `Waiting`, holding the extracted document and its
      decoding; the loading stage is handed the decoded data. */
  lemma {:induction false} EtlRunsCompletely(parse: Parser, x: EtlState, fuel: nat)
    requires fuel >= 4 && parse(Raw).Ok?
    ensures var t := parse(Raw).value;
            Process(Pipeline(parse), Waiting, x, Run, fuel)
            == Trace(Waiting, Transformed(t), Completed,
                     UpToTransform(x) + [ArrivalCall(Some(Loading), TransformationSuccessful, Transformed(t))])
  {
    var d := Pipeline(parse);
    var t := parse(Raw).value;
    RunStep(parse, x);
    ExtractedStep(parse);
    TransformedStep(parse, t);
    LoadedStep(parse, t);
    var p4 := Process(d, Loading, Transformed(t), LoadingSuccessful, fuel - 3);
    assert p4 == Trace(Waiting, Transformed(t), Completed, []);
    var p3 := Process(d, Transforming, Transformed(t), TransformationSuccessful, fuel - 2);
    assert p3 == Trace(Waiting, Transformed(t), Completed, [ArrivalCall(Some(Loading), TransformationSuccessful, Transformed(t))]);
    var p2 := Process(d, Extracting, Extracted(), ExtractionSuccessful, fuel - 1);
    assert p2 == Trace(Waiting, Transformed(t), Completed, UpToTransform(x)[2..] + p3.calls);
    assert UpToTransform(x)[..2] + (UpToTransform(x)[2..] + p3.calls) == UpToTransform(x) + p3.calls;
  }

  /** With room for only two propagated events the chain is cut before `LoadingSuccessful` is
      processed: the call fails with the machine left in `Loading`, the data already stored. */
  lemma {:induction false} EtlChainCut(parse: Parser, x: EtlState)
    requires parse(Raw).Ok?
    ensures var t := parse(Raw).value;
            Process(Pipeline(parse), Waiting, x, Run, 3)
            == Trace(Loading, Transformed(t), ChainTooLong,
                     UpToTransform(x) + [ArrivalCall(Some(Loading), TransformationSuccessful, Transformed(t))])
  {
    var d := Pipeline(parse);
    var t := parse(Raw).value;
    RunStep(parse, x);
    ExtractedStep(parse);
    TransformedStep(parse, t);
    var p4 := Process(d, Loading, Transformed(t), LoadingSuccessful, 0);
    assert p4 == Trace(Loading, Transformed(t), ChainTooLong, []);
    var p3 := Process(d, Transforming, Transformed(t), TransformationSuccessful, 1);
    assert p3 == Trace(Loading, Transformed(t), ChainTooLong, [ArrivalCall(Some(Loading), TransformationSuccessful, Transformed(t))]);
    var p2 := Process(d, Extracting, Extracted(), ExtractionSuccessful, 2);
    assert p2 == Trace(Loading, Transformed(t), ChainTooLong, UpToTransform(x)[2..] + p3.calls);
    assert UpToTransform(x)[..2] + (UpToTransform(x)[2..] + p3.calls) == UpToTransform(x) + p3.calls;
  }

  /** A decoding error ends the call with that error, in `Transforming`, with the extracted
      document kept and nothing transformed; the loading stage never runs. */
  lemma {:induction false} EtlDecodingFails(parse: Parser, x: EtlState, fuel: nat)
    requires fuel >= 2 && parse(Raw).Thrown?
    ensures Process(Pipeline(parse), Waiting, x, Run, fuel)
            == Trace(Transforming, Extracted(), CallbackThrew(parse(Raw).message), UpToTransform(x))
  {
    var d := Pipeline(parse);
    RunStep(parse, x);
    ExtractedStep(parse);
    var p2 := Process(d, Extracting, Extracted(), ExtractionSuccessful, fuel - 1);
    assert p2 == Trace(Transforming, Extracted(), CallbackThrew(parse(Raw).message), UpToTransform(x)[2..]);
    assert UpToTransform(x)[..2] + UpToTransform(x)[2..] == UpToTransform(x);
  }

  /** The test itself, on a machine built by the DSL block: after one `Run` the machine is back
      in `Waiting` with the document and its decoding stored, and the data the loading stage
      was handed is the decoding. */
  method EtlTest(parse: Parser, fuel: nat)
    returns (state: State, extendedState: EtlState, ghost loadedData: Option<TransformedData>)
    requires fuel >= 4 && parse(Raw).Ok?
    ensures state == Waiting && extendedState == Transformed(parse(Raw).value)
    ensures loadedData == Some(parse(Raw).value)
  {
    EtlBuilds(parse);
    var built := DefineMachine(EtlBlock(parse), ClassOf);
    var etl := built.value;
    ghost var calls0 := etl.calls;
    var status := etl.ProcessEvent(Run, fuel);
    EtlRunsCompletely(parse, Initial(), fuel);
    ghost var run := etl.calls[|calls0|..];
    assert run == UpToTransform(Initial()) + [ArrivalCall(Some(Loading), TransformationSuccessful, Transformed(parse(Raw).value))];
    loadedData := run[3].input.transformedData;
    state := etl.CurrentState();
    extendedState := etl.CurrentExtendedState();
  }
}
