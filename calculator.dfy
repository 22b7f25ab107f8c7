/** The calculator used to exercise the engines: its states, events and extended state, and
    the transition tasks of `Operands` that edit the operand strings. The arithmetic itself
    (parsing the operands as doubles, computing and printing the result) is a parameter. */
module Calculator {
  import opened Wrappers
  import opened KtTypes

  datatype State = Off | Operand1 | Operand2

  datatype ExtendedState = ExtendedState(operand1: string, operator: Option<char>, operand2: string)

  /** `ExtendedState()`: both operands empty, no operator. */
  const Cleared: ExtendedState := ExtendedState("", None, "")

  datatype Event =
    | OnCClicked
    | OffClicked
    | EqualsClicked
    | PeriodClicked
    | NumClicked(digit: char)
    | OperatorClicked(operator: char)

  /** The operators `compute` knows. */
  const SupportedOperators: set<char> := {'+', '-', '*', '/'}

  /** `Operands.First` edits `operand1`, `Operands.Second` edits `operand2`. */
  datatype Operands = First | Second

  function GetOperand(which: Operands, x: ExtendedState): string {
    match which
    case First => x.operand1
    case Second => x.operand2
  }

  /** Replaces the selected operand; the other fields are kept. */
  function UpdateOperand(which: Operands, x: ExtendedState, operand: string): (r: ExtendedState)
    ensures GetOperand(which, r) == operand
    ensures Untouched(which, x, r)
  {
    match which
    case First => x.(operand1 := operand)
    case Second => x.(operand2 := operand)
  }

  /** `a` and `b` agree on everything except the operand `which` selects. */
  predicate Untouched(which: Operands, a: ExtendedState, b: ExtendedState) {
    && a.operator == b.operator
    && (which == First ==> a.operand2 == b.operand2)
    && (which == Second ==> a.operand1 == b.operand1)
  }

  /** `handleNumber`: appends exactly the digit to the selected operand, changes nothing else
      and does not override the next state. */
  function HandleNumber(which: Operands, digit: char, x: ExtendedState): (r: TransitionTaskResult<State, ExtendedState>)
    ensures GetOperand(which, r.extendedState) == GetOperand(which, x) + [digit]
    ensures Untouched(which, x, r.extendedState)
    ensures r.nextState.None?
  {
    TransitionTaskResult(UpdateOperand(which, x, GetOperand(which, x) + [digit]), None)
  }

  /** `handlePeriod`: appends a decimal point to the selected operand unless it already has
      one, in which case the extended state is returned unchanged. */
  function HandlePeriod(which: Operands, x: ExtendedState): (r: TransitionTaskResult<State, ExtendedState>)
    ensures '.' in GetOperand(which, x) ==> r.extendedState == x
    ensures '.' !in GetOperand(which, x) ==> GetOperand(which, r.extendedState) == GetOperand(which, x) + ['.']
    ensures Untouched(which, x, r.extendedState)
    ensures '.' in GetOperand(which, r.extendedState)
    ensures r.nextState.None?
  {
    var operand := GetOperand(which, x);
    if '.' in operand then TransitionTaskResult(x, None)
    else TransitionTaskResult(UpdateOperand(which, x, operand + ['.']), None)
  }

  /** `First.handleOperator`: a minus on an empty first operand starts a negative number and
      stays in `Operand1`; anything else records the operator and moves to `Operand2`. */
  function FirstHandleOperator(operator: char, x: ExtendedState): (r: TransitionTaskResult<State, ExtendedState>)
    ensures operator == '-' && x.operand1 == "" ==> r == TransitionTaskResult(x.(operand1 := "-"), Some(Operand1))
    ensures !(operator == '-' && x.operand1 == "") ==> r == TransitionTaskResult(x.(operator := Some(operator)), Some(Operand2))
  {
    if operator == '-' && x.operand1 == "" then
      TransitionTaskResult(x.(operand1 := "-"), Some(Operand1))
    else
      TransitionTaskResult(x.(operator := Some(operator)), Some(Operand2))
  }

  /** `compute`: the operator must be one of the four supported ones (otherwise it throws
      "unsupported operator"); the result becomes the first operand, the operator is cleared
      and the second operand emptied. `arith` stands for the double arithmetic and its
      printing, and throws when an operand does not parse as a number. */
  function Compute(x: ExtendedState, arith: (string, char, string) -> Result<string>): (r: Result<ExtendedState>)
    ensures r.Ok? ==> r.value.operator.None? && r.value.operand2 == ""
    ensures (x.operator.None? || x.operator.value !in SupportedOperators) ==> r == Thrown("unsupported operator")
    ensures x.operator.Some? && x.operator.value in SupportedOperators && arith(x.operand1, x.operator.value, x.operand2).Ok?
            ==> r == Ok(ExtendedState(arith(x.operand1, x.operator.value, x.operand2).value, None, ""))
  {
    if x.operator.None? || x.operator.value !in SupportedOperators then Thrown("unsupported operator")
    else
      match arith(x.operand1, x.operator.value, x.operand2)
      case Thrown(m) => Thrown(m)
      case Ok(result) => Ok(ExtendedState(result, None, ""))
  }

  /** `Second.handleOperator`: a minus on an empty second operand starts a negative number
      without overriding the next state; anything else computes the pending operation, records
      the new operator and names `Operand2` as the next state. */
  function SecondHandleOperator(operator: char, x: ExtendedState, arith: (string, char, string) -> Result<string>): (r: Result<TransitionTaskResult<State, ExtendedState>>)
    ensures operator == '-' && x.operand2 == "" ==> r == Ok(TransitionTaskResult(x.(operand2 := "-"), None))
    ensures !(operator == '-' && x.operand2 == "") && Compute(x, arith).Ok?
            ==> r == Ok(TransitionTaskResult(Compute(x, arith).value.(operator := Some(operator)), Some(Operand2)))
    ensures !(operator == '-' && x.operand2 == "") && Compute(x, arith).Thrown? ==> r.Thrown?
  {
    if operator == '-' && x.operand2 == "" then
      Ok(TransitionTaskResult(x.(operand2 := "-"), None))
    else
      match Compute(x, arith)
      case Thrown(m) => Thrown(m)
      case Ok(computed) => Ok(TransitionTaskResult(computed.(operator := Some(operator)), Some(Operand2)))
  }

  /** `Second.handleEquals`: computes the pending operation, no next-state override. */
  function HandleEquals(x: ExtendedState, arith: (string, char, string) -> Result<string>): (r: Result<TransitionTaskResult<State, ExtendedState>>)
    ensures r.Ok? <==> Compute(x, arith).Ok?
    ensures r.Ok? ==> r.value == TransitionTaskResult(Compute(x, arith).value, None)
  {
    match Compute(x, arith)
    case Thrown(m) => Thrown(m)
    case Ok(computed) => Ok(TransitionTaskResult(computed, None))
  }

  /** Applying `handlePeriod` twice is the same as applying it once. */
  lemma HandlePeriodIdempotent(which: Operands, x: ExtendedState)
    ensures HandlePeriod(which, HandlePeriod(which, x).extendedState) == HandlePeriod(which, x)
  {
  }

  /** Operand isolation: what `handleNumber` and `handlePeriod` of one operand write into that
      operand depends only on that operand. */
  lemma OperandTasksReadOnlyTheirOperand(which: Operands, digit: char, x: ExtendedState, y: ExtendedState)
    requires GetOperand(which, x) == GetOperand(which, y)
    ensures GetOperand(which, HandleNumber(which, digit, x).extendedState) == GetOperand(which, HandleNumber(which, digit, y).extendedState)
    ensures GetOperand(which, HandlePeriod(which, x).extendedState) == GetOperand(which, HandlePeriod(which, y).extendedState)
  {
  }

  /** `compute` always resets the operator and the second operand, whatever the operation. */
  lemma ComputeResets(x: ExtendedState, arith: (string, char, string) -> Result<string>)
    requires Compute(x, arith).Ok?
    ensures Compute(x, arith).value.operator.None? && Compute(x, arith).value.operand2 == ""
    ensures x.operator.Some? && x.operator.value in SupportedOperators
  {
  }
}
