/** The collaborative-refinement form's submit handler. */
module CollaborativeForm {
  import opened Provider
  import opened Schemas
  import opened CommaList
  import opened FormState
  import Refinement

  /** The form's initial values. */
  const DefaultValues: RefinementValues := RefinementValues("", "creativeModel,generalModel,mathematicalModel")

  /** `{...values, modelNames: <parsed list>}`: the query passes through
      unchanged, and every model name the flow receives is non-empty, trimmed
      and comma-free. */
  function FlowInput(values: RefinementValues): (input: Refinement.Input)
    ensures input.query == values.query
    ensures forall i :: 0 <= i < |input.modelNames| ==>
      input.modelNames[i] != [] && IsTrimmed(input.modelNames[i]) && ',' !in input.modelNames[i]
  {
    Refinement.Input(values.query, ParseList(values.modelNames))
  }

  /** `onSubmit`. */
  method OnSubmit(state: RequestState<Refinement.Output>, values: RefinementValues, respond: Refinement.Oracle, library: LibraryText)
    modifies state
    ensures !state.isLoading
    ensures var outcome := Refinement.Collaborate(FlowInput(values), respond).0;
      match outcome
      case Success(response) => state.result == Some(response) && state.error == None
      case Failure(e) => state.error == Some(Message(e, library)) && state.result == None
  {
    state.Begin();
    var aiInput := FlowInput(values);
    var response, _ := Refinement.CollaborativeOutputRefinement(aiInput, respond);
    state.Settle(AsThrown(response, library), UnexpectedError);
  }

  /** A model list of only commas and white space passes the schema, parses to
      no names, and so the flow fails without calling the provider. */
  lemma BlankModelListFails(values: RefinementValues, respond: Refinement.Oracle)
    requires values.query != [] && values.modelNames != []
    requires forall k :: 0 <= k < |values.modelNames| ==>
      values.modelNames[k] == ',' || IsWhitespace(values.modelNames[k])
    ensures RefinementValid(values)
    ensures FlowInput(values).modelNames == []
    ensures Refinement.Collaborate(FlowInput(values), respond) == (Failure(SchemaViolation), [])
  {
    ParseOnlySeparators(values.modelNames);
  }

  /** The default names contain no comma and no outer white space. */
  lemma DefaultNamesPlain()
    ensures ',' !in "creativeModel" && IsTrimmed("creativeModel")
    ensures ',' !in "generalModel" && IsTrimmed("generalModel")
    ensures ',' !in "mathematicalModel" && IsTrimmed("mathematicalModel")
  {
  }

  lemma FirstTwoNamesJoined()
    ensures "creativeModel" + "," + "generalModel" == "creativeModel,generalModel"
  {
    assert "creativeModel" + "," == "creativeModel,";
  }

  lemma LastNameJoined()
    ensures "creativeModel,generalModel" + "," + "mathematicalModel" == DefaultValues.modelNames
  {
    assert "creativeModel,generalModel" + "," == "creativeModel,generalModel,";
  }

  lemma DefaultNamesJoined()
    ensures DefaultValues.modelNames == "creativeModel" + "," + "generalModel" + "," + "mathematicalModel"
  {
    FirstTwoNamesJoined();
    LastNameJoined();
  }

  /** The default model list parses to its three names in order. */
  lemma Defaults()
    ensures ParseList(DefaultValues.modelNames) == ["creativeModel", "generalModel", "mathematicalModel"]
  {
    DefaultNamesPlain();
    DefaultNamesJoined();
    ParseThree("creativeModel", "generalModel", "mathematicalModel");
  }
}
