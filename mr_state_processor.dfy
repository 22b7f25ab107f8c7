/** The older engine's vertex and its arrival pipeline, `StateProcessor`: an optional arrival
    function fed by an extractor from the extended state, whose output a merger stores back
    into the extended state. The extended state may be absent (Kotlin `null`). */
module MrStateProcessor {
  import opened Wrappers

  /** `I` is the arrival input an extractor produces, `O` the arrival output a merger stores, `K`
      the event class of `eventsToPropagate`. */
  datatype StateProcessor<!X, !I, !O, K> = StateProcessor(
    onArrival: Option<I -> O>,
    merger: (O, Option<X>) -> Option<X>,
    extractor: Option<Option<X> -> I>,
    eventsToPropagate: set<K>)

  const ExtractorRequiredMessage := "if onArrival is defined then there must also be an extractor defined"

  /** The constructor's invariant: an arrival function comes with an extractor. */
  predicate Valid<X, I, O, K>(p: StateProcessor<X, I, O, K>) {
    p.onArrival.Some? ==> p.extractor.Some?
  }

  /** The constructor: fails exactly when an arrival function is given without an extractor;
      otherwise the processor holds what it was given. */
  function NewStateProcessor<X, I, O, K>(onArrival: Option<I -> O>, merger: (O, Option<X>) -> Option<X>,
                                         extractor: Option<Option<X> -> I>, eventsToPropagate: set<K>)
    : (r: Result<StateProcessor<X, I, O, K>>)
    ensures r.Thrown? <==> onArrival.Some? && extractor.None?
    ensures r.Thrown? ==> r.message == ExtractorRequiredMessage
    ensures r.Ok? ==> Valid(r.value) && r.value == StateProcessor(onArrival, merger, extractor, eventsToPropagate)
  {
    if onArrival.Some? && extractor.None? then Thrown(ExtractorRequiredMessage)
    else Ok(StateProcessor(onArrival, merger, extractor, eventsToPropagate))
  }

  /** The constructor with `eventsToPropagate` left to its default, the empty set. */
  function NewStateProcessorWithDefaults<X, I, O, K>(onArrival: Option<I -> O>, merger: (O, Option<X>) -> Option<X>,
                                                     extractor: Option<Option<X> -> I>)
    : (r: Result<StateProcessor<X, I, O, K>>)
    ensures r.Ok? ==> r.value.eventsToPropagate == {}
    ensures r == NewStateProcessor(onArrival, merger, extractor, {})
  {
    NewStateProcessor(onArrival, merger, extractor, {})
  }

  /** `arrive`: without an arrival function the extended state passes through unchanged;
      otherwise extract the input, run the arrival function, and merge its output into the
      extended state. */
  function Arrive<X, I, O, K>(p: StateProcessor<X, I, O, K>, extendedState: Option<X>): (r: Option<X>)
    requires Valid(p)
    ensures p.onArrival.None? ==> r == extendedState
    ensures p.onArrival.Some? ==> r == p.merger(p.onArrival.value(p.extractor.value(extendedState)), extendedState)
  {
    if p.onArrival.None? then extendedState
    else p.merger(p.onArrival.value(p.extractor.value(extendedState)), extendedState)
  }

  /** `NoOpMerger`: keeps the destination and ignores the output. */
  function NoOpMerger<O, X>(): (O, Option<X>) -> Option<X> {
    (output: O, destination: Option<X>) => destination
  }

  /** The no-op merger returns the destination it is given and drops the input. */
  lemma NoOpMergerIgnoresOutput<O, X>(output: O, destination: Option<X>)
    ensures NoOpMerger<O, X>()(output, destination) == destination
  {
  }

  /** What `arrive` computes, for every processor the constructor accepts: the extended state
      itself without an arrival function, the extract, run, merge composition with one. */
  lemma ArriveComposes<X, I, O, K>(onArrival: Option<I -> O>, merger: (O, Option<X>) -> Option<X>,
                                   extractor: Option<Option<X> -> I>, eventsToPropagate: set<K>, x: Option<X>)
    requires NewStateProcessor(onArrival, merger, extractor, eventsToPropagate).Ok?
    ensures var p := NewStateProcessor(onArrival, merger, extractor, eventsToPropagate).value;
            && (onArrival.None? ==> Arrive(p, x) == x)
            && (onArrival.Some? ==> Arrive(p, x) == merger(onArrival.value(extractor.value(x)), x))
  {
  }

  /** With the no-op merger, arriving never changes the extended state, whatever the arrival
      function produces. */
  lemma NoOpMergerKeepsExtendedState<X, I, O, K>(onArrival: Option<I -> O>, extractor: Option<Option<X> -> I>,
                                                 eventsToPropagate: set<K>, x: Option<X>)
    requires NewStateProcessor(onArrival, NoOpMerger(), extractor, eventsToPropagate).Ok?
    ensures Arrive(NewStateProcessor(onArrival, NoOpMerger(), extractor, eventsToPropagate).value, x) == x
  {
  }

  /** A vertex of the older engine: its state, its transitions keyed by event class, and its
      state processor. `Tr` is what a transition holds. */
  datatype Vertex<S, !X, !I, !O, K, Tr> = Vertex(
    state: S,
    transitions: map<K, Tr>,
    stateProcessor: StateProcessor<X, I, O, K>)
}
