/** The energy-aware model selection form's submit handler. The selection flow
    itself is one provider call and is taken as a parameter. */
module SelectionForm {
  import opened Provider
  import opened Schemas
  import opened CommaList
  import opened FormState

  datatype SelectionInput = SelectionInput(taskDescription: string, availableModels: seq<string>)

  /** Nothing checks that `selectedModel` is one of the available models. */
  datatype SelectionDecision = SelectionDecision(selectedModel: string, reason: string)

  type SelectionFlow = SelectionInput -> Result<SelectionDecision, Error>

  /** The form's initial values. */
  const DefaultValues: SelectionValues := SelectionValues("", "modelA,modelB,modelC")

  /** `{...values, availableModels: <parsed list>}`: the task passes through
      unchanged, and every candidate the flow receives is non-empty, trimmed and
      comma-free. */
  function FlowInput(values: SelectionValues): (input: SelectionInput)
    ensures input.taskDescription == values.taskDescription
    ensures forall i :: 0 <= i < |input.availableModels| ==>
      input.availableModels[i] != [] && IsTrimmed(input.availableModels[i]) && ',' !in input.availableModels[i]
  {
    SelectionInput(values.taskDescription, ParseList(values.availableModels))
  }

  /** `onSubmit`. */
  method OnSubmit(state: RequestState<SelectionDecision>, values: SelectionValues, select: SelectionFlow, library: LibraryText)
    modifies state
    ensures !state.isLoading
    ensures match select(FlowInput(values))
      case Success(response) => state.result == Some(response) && state.error == None
      case Failure(e) => state.error == Some(Message(e, library)) && state.result == None
  {
    state.Begin();
    var aiInput := FlowInput(values);
    var response := select(aiInput);
    state.Settle(AsThrown(response, library), UnexpectedError);
  }

  /** The default candidate list parses to its three names in order. */
  lemma Defaults()
    ensures ParseList(DefaultValues.availableModels) == ["modelA", "modelB", "modelC"]
  {
    assert DefaultValues.availableModels == "modelA" + "," + "modelB" + "," + "modelC";
    ParseThree("modelA", "modelB", "modelC");
  }
}
