/** The collaborative output refinement flow: one plain generation per model
    name, in order, then `n - 1` critique/refine rounds on a single running
    output, each round working on the output accumulated so far. */
module Refinement {
  import opened Provider

  /** The provider calls the flow makes. Only generation names a model; the
      critique and refine prompts run on the default model. */
  datatype Call =
    | Generate(model: string, prompt: string)
    | Critique(query: string, output: string)
    | Refine(query: string, initialOutput: string, critique: Option<string>)

  type Oracle = (seq<Call>, Call) -> Reply<string>

  datatype Input = Input(query: string, modelNames: seq<string>)

  datatype Output = Output(refinedOutput: string, intermediateOutputs: seq<string>)

  // ------------------------------------------------------- specification

  /** The collection loop after the first `j` model names. */
  function Collected(query: string, names: seq<string>, respond: Oracle, j: nat): Progress<seq<string>, Call>
    requires j <= |names|
  {
    if j == 0 then Going([], [])
    else
      match Collected(query, names, respond, j - 1)
      case Halted(e, tr) => Halted(e, tr)
      case Going(outputs, tr) =>
        var call := Generate(names[j - 1], query);
        match respond(tr, call)
        case Threw(m) => Halted(ProviderError(m), tr + [call])
        case Returned(None) => Halted(MissingOutput, tr + [call])
        case Returned(Some(text)) => Going(outputs + [text], tr + [call])
  }

  /** The refinement loop after `r` rounds, started from output `start` once
      `trace0` had been made. */
  function Refined(query: string, start: string, trace0: seq<Call>, respond: Oracle, r: nat): Progress<string, Call>
  {
    if r == 0 then Going(start, trace0)
    else
      match Refined(query, start, trace0, respond, r - 1)
      case Halted(e, tr) => Halted(e, tr)
      case Going(running, tr) =>
        var ask := Critique(query, running);
        match respond(tr, ask)
        case Threw(m) => Halted(ProviderError(m), tr + [ask])
        case Returned(critique) =>
          var fix := Refine(query, running, critique);
          match respond(tr + [ask], fix)
          case Threw(m) => Halted(ProviderError(m), tr + [ask, fix])
          case Returned(None) => Halted(MissingOutput, tr + [ask, fix])
          case Returned(Some(better)) => Going(better, tr + [ask, fix])
  }

  /** The whole flow: its result and the calls it made. With no model names the
      running output is undefined, which the output schema rejects. */
  function Collaborate(input: Input, respond: Oracle): (r: (Result<Output, Error>, seq<Call>))
    ensures r.0 == Failure(SchemaViolation) <==> input.modelNames == []
    ensures r.0.Success? ==> |r.0.value.intermediateOutputs| == |input.modelNames|
  {
    match Collected(input.query, input.modelNames, respond, |input.modelNames|)
    case Halted(e, tr) =>
      CollectedErrors(input.query, input.modelNames, respond, |input.modelNames|);
      (Failure(e), tr)
    case Going(outputs, tr) =>
      CollectedShape(input.query, input.modelNames, respond, |input.modelNames|);
      if |outputs| == 0 then (Failure(SchemaViolation), tr)
      else
        match Refined(input.query, outputs[0], tr, respond, |outputs| - 1)
        case Halted(e, tr') =>
          RefinedErrors(input.query, outputs[0], tr, respond, |outputs| - 1);
          (Failure(e), tr')
        case Going(final, tr') => (Success(Output(final, outputs)), tr')
  }

  // -------------------------------------------------------------- method

  /** `collaborativeOutputRefinementFlow`. */
  method CollaborativeOutputRefinement(input: Input, respond: Oracle) returns (result: Result<Output, Error>, trace: seq<Call>)
    ensures (result, trace) == Collaborate(input, respond)
  {
    var query, modelNames := input.query, input.modelNames;
    var initialOutputs: seq<string> := [];
    trace := [];
    var j := 0;
    while j < |modelNames|
      invariant j <= |modelNames|
      invariant Collected(query, modelNames, respond, j) == Going(initialOutputs, trace)
    {
      var call := Generate(modelNames[j], query);
      var reply := respond(trace, call);
      trace := trace + [call];
      if reply.Threw? {
        CollectedStaysHalted(query, modelNames, respond, j + 1, |modelNames|);
        return Failure(ProviderError(reply.message)), trace;
      }
      if reply.output.None? {
        CollectedStaysHalted(query, modelNames, respond, j + 1, |modelNames|);
        return Failure(MissingOutput), trace;
      }
      initialOutputs := initialOutputs + [reply.output.value];
      j := j + 1;
    }
    if |initialOutputs| == 0 {
      return Failure(SchemaViolation), trace;
    }

    var refinedOutput := initialOutputs[0];
    var trace0 := trace;
    var i := 1;
    while i < |initialOutputs|
      invariant 1 <= i <= |initialOutputs|
      invariant Refined(query, initialOutputs[0], trace0, respond, i - 1) == Going(refinedOutput, trace)
    {
      ghost var before := trace;
      var ask := Critique(query, refinedOutput);
      var critique := respond(trace, ask);
      trace := trace + [ask];
      if critique.Threw? {
        RefinedStaysHalted(query, initialOutputs[0], trace0, respond, i, |initialOutputs| - 1);
        return Failure(ProviderError(critique.message)), trace;
      }
      var fix := Refine(query, refinedOutput, critique.output);
      var output := respond(trace, fix);
      trace := trace + [fix];
      assert trace == before + [ask, fix];
      if output.Threw? {
        RefinedStaysHalted(query, initialOutputs[0], trace0, respond, i, |initialOutputs| - 1);
        return Failure(ProviderError(output.message)), trace;
      }
      if output.output.None? {
        RefinedStaysHalted(query, initialOutputs[0], trace0, respond, i, |initialOutputs| - 1);
        return Failure(MissingOutput), trace;
      }
      refinedOutput := output.output.value;
      i := i + 1;
    }
    result := Success(Output(refinedOutput, initialOutputs));
  }

  // -------------------------------------------------------------- lemmas

  /** A failure ends the collection: later steps change nothing. */
  lemma {:induction false} CollectedStaysHalted(query: string, names: seq<string>, respond: Oracle, j: nat, k: nat)
    requires j <= k <= |names|
    requires Collected(query, names, respond, j).Halted?
    ensures Collected(query, names, respond, k) == Collected(query, names, respond, j)
    decreases k
  {
    if k > j {
      CollectedStaysHalted(query, names, respond, j, k - 1);
    }
  }

  /** A failure ends the refinement: later rounds change nothing. */
  lemma {:induction false} RefinedStaysHalted(query: string, start: string, trace0: seq<Call>, respond: Oracle, r: nat, k: nat)
    requires r <= k
    requires Refined(query, start, trace0, respond, r).Halted?
    ensures Refined(query, start, trace0, respond, k) == Refined(query, start, trace0, respond, r)
    decreases k
  {
    if k > r {
      RefinedStaysHalted(query, start, trace0, respond, r, k - 1);
    }
  }

  /** The collection fails only through a generate call. */
  lemma {:induction false} CollectedErrors(query: string, names: seq<string>, respond: Oracle, j: nat)
    requires j <= |names|
    requires Collected(query, names, respond, j).Halted?
    ensures Collected(query, names, respond, j).error.ProviderError?
      || Collected(query, names, respond, j).error == MissingOutput
  {
    if j > 0 && Collected(query, names, respond, j - 1).Halted? {
      CollectedErrors(query, names, respond, j - 1);
    }
  }

  /** The refinement fails only through a critique or refine call. */
  lemma {:induction false} RefinedErrors(query: string, start: string, trace0: seq<Call>, respond: Oracle, r: nat)
    requires Refined(query, start, trace0, respond, r).Halted?
    ensures Refined(query, start, trace0, respond, r).error.ProviderError?
      || Refined(query, start, trace0, respond, r).error == MissingOutput
  {
    if r > 0 && Refined(query, start, trace0, respond, r - 1).Halted? {
      RefinedErrors(query, start, trace0, respond, r - 1);
    }
  }

  /** After `j` successful generations there is one output per model name, in
      name order, each the reply to exactly one generate call with that name and
      the raw query. */
  lemma {:induction false} CollectedShape(query: string, names: seq<string>, respond: Oracle, j: nat)
    requires j <= |names|
    requires Collected(query, names, respond, j).Going?
    ensures var p := Collected(query, names, respond, j);
      && |p.state| == j && |p.trace| == j
      && forall i :: 0 <= i < j ==>
           p.trace[i] == Generate(names[i], query) && ReplyTo(respond, p.trace, i) == Returned(Some(p.state[i]))
  {
    if j > 0 {
      CollectedShape(query, names, respond, j - 1);
      var prev := Collected(query, names, respond, j - 1);
      var call := Generate(names[j - 1], query);
      forall i | 0 <= i < j - 1
        ensures ReplyTo(respond, prev.trace + [call], i) == ReplyTo(respond, prev.trace, i)
      {
        ReplyToExtended(respond, prev.trace, [call], i);
      }
      assert (prev.trace + [call])[..j - 1] == prev.trace;
    }
  }

  /** The running output at the start of round `k` of a refinement begun from
      `start` at position `base` of the trace: `start` itself, then the reply to
      the previous round's refine call. */
  function RunningAt(respond: Oracle, trace: seq<Call>, start: string, base: nat, k: nat): string
    requires base + 2 * k <= |trace|
  {
    if k == 0 then start else TextOf(ReplyTo(respond, trace, base + 2 * k - 1))
  }

  /** Round `k` of the refinement in `trace`: a critique of the running output,
      then a refine call on that same running output with the critique's reply,
      whose reply carries the next output. */
  ghost predicate RoundAt(query: string, respond: Oracle, trace: seq<Call>, start: string, base: nat, k: nat)
  {
    var p := base + 2 * k;
    && p + 1 < |trace|
    && var running := RunningAt(respond, trace, start, base, k);
    && trace[p] == Critique(query, running)
    && ReplyTo(respond, trace, p).Returned?
    && trace[p + 1] == Refine(query, running, ReplyTo(respond, trace, p).output)
    && ReplyTo(respond, trace, p + 1).Returned?
    && ReplyTo(respond, trace, p + 1).output.Some?
  }

  /** Rounds already in a trace look the same when more calls follow. */
  lemma RoundAtExtended(query: string, respond: Oracle, trace: seq<Call>, more: seq<Call>, start: string, base: nat, k: nat)
    requires RoundAt(query, respond, trace, start, base, k)
    ensures RoundAt(query, respond, trace + more, start, base, k)
  {
    var p := base + 2 * k;
    ReplyToExtended(respond, trace, more, p);
    ReplyToExtended(respond, trace, more, p + 1);
    if k > 0 {
      ReplyToExtended(respond, trace, more, p - 1);
    }
  }

  /** After `r` successful rounds the trace is `trace0` followed by `r`
      critique/refine pairs, each on the output the previous round produced
      (round 0 on `start`), and the running output is the last refine reply. */
  lemma {:induction false} RefinedShape(query: string, start: string, trace0: seq<Call>, respond: Oracle, r: nat)
    requires Refined(query, start, trace0, respond, r).Going?
    ensures var p := Refined(query, start, trace0, respond, r);
      && |p.trace| == |trace0| + 2 * r
      && p.trace[..|trace0|] == trace0
      && (forall k :: 0 <= k < r ==> RoundAt(query, respond, p.trace, start, |trace0|, k))
      && p.state == RunningAt(respond, p.trace, start, |trace0|, r)
  {
    if r > 0 {
      RefinedShape(query, start, trace0, respond, r - 1);
      var prev := Refined(query, start, trace0, respond, r - 1);
      var tr, running := prev.trace, prev.state;
      var ask := Critique(query, running);
      var critique := respond(tr, ask);
      var fix := Refine(query, running, critique.output);
      var tr2 := tr + [ask, fix];
      assert tr2 == tr + [ask] + [fix];
      var base := |trace0|;
      forall k | 0 <= k < r - 1
        ensures RoundAt(query, respond, tr2, start, base, k)
      {
        RoundAtExtended(query, respond, tr, [ask, fix], start, base, k);
      }
      if r > 1 {
        ReplyToExtended(respond, tr, [ask, fix], base + 2 * (r - 1) - 1);
      }
      assert RunningAt(respond, tr2, start, base, r - 1) == running;
      assert tr2[..|tr|] == tr;
      assert (tr + [ask])[..|tr|] == tr;
      assert tr2[..|tr| + 1] == tr + [ask];
      assert RoundAt(query, respond, tr2, start, base, r - 1);
      assert tr2[..base] == tr[..base];
    }
  }

  /** What a successful run of the flow has done: one generate call per model
      name, in order, whose replies are exactly `intermediateOutputs`; then
      `n - 1` critique/refine rounds, the first on `intermediateOutputs[0]` and
      each later one on the previous round's refined output, none of them naming
      a model; `refinedOutput` is the last refine reply. */
  lemma CollaborateSucceeded(input: Input, respond: Oracle)
    requires Collaborate(input, respond).0.Success?
    ensures var (result, trace) := Collaborate(input, respond);
      var n := |input.modelNames|;
      var out := result.value;
      && n >= 1
      && |out.intermediateOutputs| == n
      && |trace| == n + 2 * (n - 1)
      && (forall i :: 0 <= i < n ==>
            trace[i] == Generate(input.modelNames[i], input.query)
            && ReplyTo(respond, trace, i) == Returned(Some(out.intermediateOutputs[i])))
      && (forall k :: 0 <= k < n - 1 ==>
            RoundAt(input.query, respond, trace, out.intermediateOutputs[0], n, k))
      && out.refinedOutput == RunningAt(respond, trace, out.intermediateOutputs[0], n, n - 1)
  {
    var query, names := input.query, input.modelNames;
    var n := |names|;
    CollectedShape(query, names, respond, n);
    var coll := Collected(query, names, respond, n);
    var outputs, tr := coll.state, coll.trace;
    RefinedShape(query, outputs[0], tr, respond, n - 1);
    var fin := Refined(query, outputs[0], tr, respond, n - 1);
    forall i | 0 <= i < n
      ensures fin.trace[i] == Generate(names[i], query)
      ensures ReplyTo(respond, fin.trace, i) == Returned(Some(outputs[i]))
    {
      assert fin.trace[i] == fin.trace[..n][i];
      assert fin.trace[..i] == tr[..i];
    }
  }

  /** Only the first `n` calls of a successful run are generate calls, so model
      names reach the provider only there. */
  lemma ModelsOnlyInGeneration(input: Input, respond: Oracle, p: nat)
    requires Collaborate(input, respond).0.Success?
    requires p < |Collaborate(input, respond).1|
    ensures Collaborate(input, respond).1[p].Generate? <==> p < |input.modelNames|
  {
    CollaborateSucceeded(input, respond);
    var (result, trace) := Collaborate(input, respond);
    var n := |input.modelNames|;
    if p >= n {
      var k := (p - n) / 2;
      assert RoundAt(input.query, respond, trace, result.value.intermediateOutputs[0], n, k);
    }
  }

  /** With a single model name no critique or refine call happens and the
      refined output is that model's own output. */
  lemma SingleModel(input: Input, respond: Oracle)
    requires |input.modelNames| == 1
    requires Collaborate(input, respond).0.Success?
    ensures var (result, trace) := Collaborate(input, respond);
      && |trace| == 1
      && result.value.intermediateOutputs == [result.value.refinedOutput]
  {
    CollaborateSucceeded(input, respond);
  }

  /** With no model names nothing is called and the flow fails. */
  lemma NoModels(input: Input, respond: Oracle)
    requires input.modelNames == []
    ensures Collaborate(input, respond) == (Failure(SchemaViolation), [])
  {
  }

  /** A failed generation is never masked: the flow fails with that call's error,
      and nothing after it is called. */
  lemma {:induction false} GenerationFailureIsFinal(input: Input, respond: Oracle, j: nat)
    requires j < |input.modelNames|
    requires Collected(input.query, input.modelNames, respond, j).Going?
    requires var tr := Collected(input.query, input.modelNames, respond, j).trace;
      !respond(tr, Generate(input.modelNames[j], input.query)).Returned? ||
      respond(tr, Generate(input.modelNames[j], input.query)).output.None?
    ensures var reply := respond(Collected(input.query, input.modelNames, respond, j).trace,
                                 Generate(input.modelNames[j], input.query));
      Collaborate(input, respond).0 == Failure(if reply.Threw? then ProviderError(reply.message) else MissingOutput)
    ensures |Collaborate(input, respond).1| == j + 1
  {
    var names := input.modelNames;
    CollectedShape(input.query, names, respond, j);
    CollectedStaysHalted(input.query, names, respond, j + 1, |names|);
  }

  /** A failed critique/refine round ends the flow: its error is the flow's
      error, it came from a provider call, no call follows it, and the round
      failed at its critique or its refine call. */
  lemma RoundFailureIsFinal(input: Input, respond: Oracle, r: nat)
    requires Collected(input.query, input.modelNames, respond, |input.modelNames|).Going?
    requires var c := Collected(input.query, input.modelNames, respond, |input.modelNames|);
      r + 1 < |c.state|
      && Refined(input.query, c.state[0], c.trace, respond, r).Going?
      && Refined(input.query, c.state[0], c.trace, respond, r + 1).Halted?
    ensures var c := Collected(input.query, input.modelNames, respond, |input.modelNames|);
      var failed := Refined(input.query, c.state[0], c.trace, respond, r + 1);
      && Collaborate(input, respond) == (Failure(failed.error), failed.trace)
      && (failed.error.ProviderError? || failed.error == MissingOutput)
      && |c.trace| + 2 * r < |failed.trace| <= |c.trace| + 2 * r + 2
  {
    var c := Collected(input.query, input.modelNames, respond, |input.modelNames|);
    RefinedShape(input.query, c.state[0], c.trace, respond, r);
    RefinedStaysHalted(input.query, c.state[0], c.trace, respond, r + 1, |c.state| - 1);
    RefinedErrors(input.query, c.state[0], c.trace, respond, r + 1);
  }
}
