/** The four form schemas, as validation predicates over the raw form values.
    Every string field is checked only for being non-empty; the round count
    must be an integer from 1 to 10. */
module Schemas {

  datatype RoutingValues = RoutingValues(query: string)

  datatype OptimizationValues = OptimizationValues(initialPrompt: string, modelNames: string, optimizationRounds: int)

  datatype SelectionValues = SelectionValues(taskDescription: string, availableModels: string)

  datatype RefinementValues = RefinementValues(query: string, modelNames: string)

  /** The fields a schema can reject. */
  datatype Field = Query | InitialPrompt | ModelNames | OptimizationRounds | TaskDescription | AvailableModels

  /** `z.string().min(1)`: at least one character, white space included. */
  predicate Required(s: string)
  {
    |s| >= 1
  }

  /** `.int().positive().min(1).max(10)` on a number already coerced to an integer. */
  predicate RoundsInRange(n: int)
  {
    n > 0 && n >= 1 && n <= 10
  }

  /** The fields `check` rejects, in declaration order. */
  function Check(f: Field, ok: bool): seq<Field>
  {
    if ok then [] else [f]
  }

  function RoutingIssues(v: RoutingValues): (issues: seq<Field>)
    ensures issues == [] <==> Required(v.query)
    ensures Query in issues <==> v.query == ""
  {
    Check(Query, Required(v.query))
  }

  function OptimizationIssues(v: OptimizationValues): (issues: seq<Field>)
    ensures issues == [] <==> Required(v.initialPrompt) && Required(v.modelNames) && 1 <= v.optimizationRounds <= 10
    ensures InitialPrompt in issues <==> v.initialPrompt == ""
    ensures ModelNames in issues <==> v.modelNames == ""
    ensures OptimizationRounds in issues <==> !(1 <= v.optimizationRounds <= 10)
  {
    Check(InitialPrompt, Required(v.initialPrompt))
    + Check(ModelNames, Required(v.modelNames))
    + Check(OptimizationRounds, RoundsInRange(v.optimizationRounds))
  }

  function SelectionIssues(v: SelectionValues): (issues: seq<Field>)
    ensures issues == [] <==> Required(v.taskDescription) && Required(v.availableModels)
    ensures TaskDescription in issues <==> v.taskDescription == ""
    ensures AvailableModels in issues <==> v.availableModels == ""
  {
    Check(TaskDescription, Required(v.taskDescription)) + Check(AvailableModels, Required(v.availableModels))
  }

  function RefinementIssues(v: RefinementValues): (issues: seq<Field>)
    ensures issues == [] <==> Required(v.query) && Required(v.modelNames)
    ensures Query in issues <==> v.query == ""
    ensures ModelNames in issues <==> v.modelNames == ""
  {
    Check(Query, Required(v.query)) + Check(ModelNames, Required(v.modelNames))
  }

  /** A form submits only values its schema accepts. */
  predicate RoutingValid(v: RoutingValues) { RoutingIssues(v) == [] }
  predicate OptimizationValid(v: OptimizationValues) { OptimizationIssues(v) == [] }
  predicate SelectionValid(v: SelectionValues) { SelectionIssues(v) == [] }
  predicate RefinementValid(v: RefinementValues) { RefinementIssues(v) == [] }

  /** Only emptiness is checked: a blank query and a model list of a lone comma
      or a lone space are accepted. */
  lemma BlankTextAccepted(q: string, names: string)
    requires q != [] && names != []
    ensures RoutingValid(RoutingValues(q))
    ensures RefinementValid(RefinementValues(q, names))
    ensures SelectionValid(SelectionValues(q, names))
    ensures RefinementValid(RefinementValues(" ", ","))
  {
  }
}
