/** The query-routing page's submit handler: one query drives two independent
    pipelines, the routing flow and the tool-recommendation flow, each with its
    own loading flag, error and result. The routing flow is one provider call
    and is taken as a parameter; the recommendation flow is modelled in full. */
module RoutingForm {
  import opened Provider
  import opened Schemas
  import opened FormState
  import Recommend

  /** Nothing checks that `model` is one of the models the prompt lists. */
  datatype RoutingDecision = RoutingDecision(model: string, reason: string)

  type RoutingFlow = RoutingValues -> Result<RoutingDecision, Error>

  /** The recommendation prompt, from the query to the model's structured reply. */
  type RecommendPrompt = Recommend.RecommendInput -> Reply<Recommend.RecommendationsOutput>

  const RoutingFallback: string := "An unexpected error occurred during query routing."
  const RecommendationsFallback: string := "An unexpected error occurred while fetching recommendations."

  /** The form's initial values. */
  const DefaultValues: RoutingValues := RoutingValues("")

  class QueryRoutingForm {
    var isRoutingLoading: bool
    var routingError: Option<string>
    var routingResult: Option<RoutingDecision>

    var isRecommendationsLoading: bool
    var recommendationsError: Option<string>
    var recommendationsResult: Option<Recommend.RecommendationsOutput>

    var submittedQuery: string

    constructor ()
      ensures !isRoutingLoading && routingError == None && routingResult == None
      ensures !isRecommendationsLoading && recommendationsError == None && recommendationsResult == None
      ensures submittedQuery == ""
    {
      isRoutingLoading, routingError, routingResult := false, None, None;
      isRecommendationsLoading, recommendationsError, recommendationsResult := false, None, None;
      submittedQuery := "";
    }

    /** Remember the query and reset both pipelines before either call. */
    method Reset(query: string)
      modifies this
      ensures submittedQuery == query
      ensures isRoutingLoading && routingError == None && routingResult == None
      ensures isRecommendationsLoading && recommendationsError == None && recommendationsResult == None
    {
      submittedQuery := query;
      isRoutingLoading := true;
      routingError := None;
      routingResult := None;
      isRecommendationsLoading := true;
      recommendationsError := None;
      recommendationsResult := None;
    }

    /** The routing `try`/`catch`/`finally`: it writes only the routing fields. */
    method SettleRouting(outcome: Result<RoutingDecision, Thrown>)
      modifies this`isRoutingLoading, this`routingError, this`routingResult
      ensures !isRoutingLoading
      ensures outcome.Success? ==> routingResult == Some(outcome.value) && routingError == old(routingError)
      ensures outcome.Failure? ==>
        routingError == Some(ErrorText(outcome.error, RoutingFallback)) && routingResult == old(routingResult)
    {
      match outcome {
        case Success(response) => routingResult := Some(response);
        case Failure(e) => routingError := Some(ErrorText(e, RoutingFallback));
      }
      isRoutingLoading := false;
    }

    /** The recommendations `try`/`catch`/`finally`: it writes only the
        recommendation fields. An empty list is a result, not an error. */
    method SettleRecommendations(outcome: Result<Recommend.RecommendationsOutput, Thrown>)
      modifies this`isRecommendationsLoading, this`recommendationsError, this`recommendationsResult
      ensures !isRecommendationsLoading
      ensures outcome.Success? ==>
        recommendationsResult == Some(outcome.value) && recommendationsError == old(recommendationsError)
      ensures outcome.Failure? ==>
        recommendationsError == Some(ErrorText(outcome.error, RecommendationsFallback))
        && recommendationsResult == old(recommendationsResult)
    {
      match outcome {
        case Success(response) => recommendationsResult := Some(response);
        case Failure(e) => recommendationsError := Some(ErrorText(e, RecommendationsFallback));
      }
      isRecommendationsLoading := false;
    }

    /** `onSubmit`: routing first, then recommendations for the same query. A
        routing failure does not stop the recommendation call, and each
        pipeline's fields reflect only its own flow's outcome. */
    method OnSubmit(values: RoutingValues, route: RoutingFlow, prompt: RecommendPrompt, library: LibraryText)
      modifies this
      ensures submittedQuery == values.query
      ensures !isRoutingLoading && !isRecommendationsLoading
      ensures match route(values)
        case Success(r) => routingResult == Some(r) && routingError == None
        case Failure(e) => routingError == Some(Message(e, library)) && routingResult == None
      ensures match Recommend.RecommendAiShortcuts(prompt(Recommend.RecommendInput(values.query)))
        case Success(r) => recommendationsResult == Some(r) && recommendationsError == None
        case Failure(e) => recommendationsError == Some(Message(e, library)) && recommendationsResult == None
    {
      Reset(values.query);
      var routingResponse := route(values);
      SettleRouting(AsThrown(routingResponse, library));
      var recommendationsInput := Recommend.RecommendInput(values.query);
      var recommendationsResponse := Recommend.RecommendAiShortcuts(prompt(recommendationsInput));
      SettleRecommendations(AsThrown(recommendationsResponse, library));
    }
  }
}
