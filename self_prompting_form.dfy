/** The prompt-optimization form's submit handler. */
module SelfPromptingForm {
  import opened Provider
  import opened Schemas
  import opened CommaList
  import opened FormState
  import Optimization

  /** The form's initial values. */
  const DefaultValues: OptimizationValues := OptimizationValues("", "creativeModel,generalModel", 3)

  /** `{...values, modelNames: <parsed list>}`: the prompt and the round count
      pass through unchanged, and every model name the flow receives is
      non-empty, trimmed and comma-free. */
  function FlowInput(values: OptimizationValues): (input: Optimization.Input)
    ensures input.initialPrompt == values.initialPrompt
    ensures Optimization.RoundsOf(input) == values.optimizationRounds
    ensures forall i :: 0 <= i < |input.modelNames| ==>
      input.modelNames[i] != [] && IsTrimmed(input.modelNames[i]) && ',' !in input.modelNames[i]
  {
    Optimization.Input(values.initialPrompt, ParseList(values.modelNames), Some(values.optimizationRounds))
  }

  /** `onSubmit`. */
  method OnSubmit(state: RequestState<Optimization.Output>, values: OptimizationValues, respond: Optimization.Oracle, library: LibraryText)
    modifies state
    ensures !state.isLoading
    ensures var outcome := Optimization.Optimization(FlowInput(values), respond).0;
      match outcome
      case Success(response) => state.result == Some(response) && state.error == None
      case Failure(e) => state.error == Some(Message(e, library)) && state.result == None
  {
    state.Begin();
    var aiInput := FlowInput(values);
    var response, _ := Optimization.SelfPromptingOptimization(aiInput, respond);
    state.Settle(AsThrown(response, library), UnexpectedError);
  }

  /** A round count the form accepts is one the flow accepts, so a valid
      submission runs between 1 and 10 rounds. */
  lemma ValidRoundsAccepted(values: OptimizationValues, respond: Optimization.Oracle)
    requires OptimizationValid(values)
    ensures 1 <= Optimization.RoundsOf(FlowInput(values)) <= 10
    ensures Optimization.Optimization(FlowInput(values), respond).0 != Failure(SchemaViolation)
  {
  }

  /** The default model list parses to its two names; the default count is 3. */
  lemma Defaults()
    ensures ParseList(DefaultValues.modelNames) == ["creativeModel", "generalModel"]
    ensures DefaultValues.optimizationRounds == 3
  {
    assert DefaultValues.modelNames == "creativeModel" + "," + "generalModel";
    ParseTwo("creativeModel", "generalModel");
  }
}
