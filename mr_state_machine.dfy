/** The older, minimal engine: the machine holds the current vertex and, for each event, follows
    the current vertex's transition for that event, or throws when there is none. Vertices are
    objects in the source; here `V` is a vertex's identity and `transitionsOf` gives the
    transition table each vertex object holds (its targets as identities). */
module MrStateMachine {
  import opened Wrappers

  const UnhandledEventMessage := "provided event cannot be handled by current vertex"

  /** Where `event` takes the machine from vertex `v`: the target of `v`'s transition for it,
      or the `IllegalArgumentException` when `v` has none. */
  function Step<V, E(==)>(transitionsOf: V -> map<E, V>, v: V, event: E): (r: Result<V>)
    ensures r.Ok? <==> event in transitionsOf(v)
    ensures r.Ok? ==> r.value == transitionsOf(v)[event]
    ensures r.Thrown? ==> r.message == UnhandledEventMessage
  {
    if event in transitionsOf(v) then Ok(transitionsOf(v)[event]) else Thrown(UnhandledEventMessage)
  }

  /** Where a sequence of `processEvent` calls takes the machine from `v`, stopping at the first
      event the current vertex cannot handle. */
  function Run<V, E(==)>(transitionsOf: V -> map<E, V>, v: V, events: seq<E>): Result<V>
    decreases |events|
  {
    if events == [] then Ok(v)
    else
      match Step(transitionsOf, v, events[0])
      case Thrown(m) => Thrown(m)
      case Ok(next) => Run(transitionsOf, next, events[1..])
  }

  /** Running two sequences of events one after the other is running their concatenation. */
  lemma {:induction false} RunAppend<V, E>(transitionsOf: V -> map<E, V>, v: V, first: seq<E>, second: seq<E>)
    ensures Run(transitionsOf, v, first + second)
            == (match Run(transitionsOf, v, first)
                case Thrown(m) => Thrown(m)
                case Ok(w) => Run(transitionsOf, w, second))
    decreases |first|
  {
    if first == [] {
      assert first + second == second;
    } else {
      assert (first + second)[0] == first[0];
      assert (first + second)[1..] == first[1..] + second;
      if Step(transitionsOf, v, first[0]).Ok? {
        RunAppend(transitionsOf, Step(transitionsOf, v, first[0]).value, first[1..], second);
      }
    }
  }

  class StateMachine<V, E(==)> {
    const transitionsOf: V -> map<E, V>
    const acceptingState: V
    var currentVertex: V

    /** Right after construction the current vertex is the accepting state. */
    constructor (transitionsOf: V -> map<E, V>, acceptingState: V)
      ensures this.transitionsOf == transitionsOf && this.acceptingState == acceptingState
      ensures currentVertex == acceptingState
    {
      this.transitionsOf := transitionsOf;
      this.acceptingState := acceptingState;
      currentVertex := acceptingState;
    }

    /** `processEvent`: moves to the target of the current vertex's transition for the event;
        an event the current vertex cannot handle throws and leaves the current vertex as it
        was. Only `currentVertex` can change. */
    method ProcessEvent(event: E) returns (r: Result<()>)
      modifies this
      ensures var s := Step(transitionsOf, old(currentVertex), event);
              && (r.Ok? <==> s.Ok?)
              && (s.Ok? ==> currentVertex == s.value)
              && (s.Thrown? ==> r == Thrown(s.message) && currentVertex == old(currentVertex))
    {
      var transitions := transitionsOf(currentVertex);
      if event !in transitions {
        return Thrown(UnhandledEventMessage);
      }
      currentVertex := transitions[event];
      return Ok(());
    }
  }
}

/** The light bulb of the older engine's test: an "on" vertex whose `OffClicked` leads to the
    "off" vertex, and an "off" vertex whose `OnClicked` leads back. */
module MrLightBulb {
  import opened Wrappers
  import opened MrStateMachine

  datatype Event = OnClicked | OffClicked

  /** The identities of the two vertex objects. */
  datatype BulbVertex = OnVertex | OffVertex

  function Transitions(v: BulbVertex): map<Event, BulbVertex> {
    match v
    case OnVertex => map[OffClicked := OffVertex]
    case OffVertex => map[OnClicked := OnVertex]
  }

  /** From the off vertex, `OnClicked` leads to the on vertex and `OffClicked` back; clicking
      "on" twice fails at the second click. */
  lemma RoundTrip()
    ensures Run(Transitions, OffVertex, [OnClicked]) == Ok(OnVertex)
    ensures Run(Transitions, OffVertex, [OnClicked, OffClicked]) == Ok(OffVertex)
    ensures Run(Transitions, OffVertex, [OnClicked, OnClicked]) == Thrown(UnhandledEventMessage)
  {
  }

  /** The test's scenario on the machine itself: it starts at the accepting (off) vertex, moves
      to the on vertex, then back to the off vertex. */
  method LightBulbScenario() returns (initial: BulbVertex, afterOn: BulbVertex, afterOff: BulbVertex)
    ensures initial == OffVertex && afterOn == OnVertex && afterOff == OffVertex
  {
    var machine := new StateMachine(Transitions, OffVertex);
    initial := machine.currentVertex;
    var r := machine.ProcessEvent(OnClicked);
    afterOn := machine.currentVertex;
    r := machine.ProcessEvent(OffClicked);
    afterOff := machine.currentVertex;
  }
}
