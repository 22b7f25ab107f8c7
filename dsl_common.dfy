/** What the two configuration DSLs share: the `require`/`check` failures their builders raise,
    the outcome of a builder call, and how a builder method is held to that outcome. */
module DslCommon {
  import opened Wrappers

  /** The builders' failures, with the message each one carries in the source. */
  datatype ConfigError =
    | DuplicateStartingState          // "state machine can only have one starting state"
    | DuplicateStartingExtendedState  // "state machine can only have one starting extended state"
    | DuplicateSuperVertex            // "can only call applyToAllStates once"
    | DuplicateState                  // "each state may only be defined once per state machine"
    | DuplicateEvent                  // "you may only register each event once per state"
    | DuplicateTarget                 // "next state is already configured to ..."
    | DuplicateTask                   // "there can only be one task per transition"
    | TargetUnset                     // `checkNotNull(nextState)` when a transition is built
    | StartingStateUnset              // "you must call startingState() ..." / uninitialized `lateinit`
    | StartingExtendedStateUnset      // "you must call startingExtendedState() ..."
    | NoVertexForStartingState        // "no configuration exists for starting state"
    | ExtractorMissing                // "if onArrival is defined then there must also be an extractor defined"

  datatype Outcome<+T> = Built(value: T) | Failed(error: ConfigError)

  /** A builder call ended as `o` says: on success the builder now holds `o.value`; on failure
      the error is reported and the builder is as it was. */
  ghost predicate Agrees<T>(o: Outcome<T>, err: Option<ConfigError>, before: T, after: T) {
    match o
    case Failed(e) => err == Some(e) && after == before
    case Built(v) => err.None? && after == v
  }

  /** A block ended as `o` says. A failing block may leave its builder half-configured, but the
      exception also abandons the whole definition, so only the error matters. */
  ghost predicate BlockAgrees<T>(o: Outcome<T>, err: Option<ConfigError>, after: T) {
    match o
    case Failed(e) => err == Some(e)
    case Built(v) => err.None? && after == v
  }

  ghost predicate Distinct<T>(s: seq<T>) {
    forall i, j :: 0 <= i < j < |s| ==> s[i] != s[j]
  }

  /** Defining `x` on top of `before` and then the distinct, all-new `rest` on top of the result
      defines the distinct, all-new `[x] + rest` on top of `before`, reaching the same keys. */
  lemma DefineFirst<T>(x: T, rest: seq<T>, before: set<T>, after: set<T>)
    requires x !in before && after == before + {x}
    requires Distinct(rest) && forall i :: 0 <= i < |rest| ==> rest[i] !in after
    ensures Distinct([x] + rest)
    ensures forall i :: 0 <= i < |[x] + rest| ==> ([x] + rest)[i] !in before
    ensures after + (set s | s in rest) == before + (set s | s in [x] + rest)
  {
    assert forall i :: 0 < i < |[x] + rest| ==> ([x] + rest)[i] == rest[i - 1];
  }
}
