/** The self-prompting optimization flow: exactly `optimizationRounds`
    feedback/optimize rounds that rewrite the current prompt, each appending one
    history entry that records the round number, the unchanging INITIAL prompt
    and that round's feedback. */
module Optimization {
  import opened Provider

  /** The provider calls the flow makes; neither names a model. */
  datatype Call =
    | Feedback(prompt: string)
    | Optimize(prompt: string, feedback: string)

  type Oracle = (seq<Call>, Call) -> Reply<string>

  /** `optimizationRounds` may be omitted, in which case the schema supplies 3. */
  datatype Input = Input(initialPrompt: string, modelNames: seq<string>, optimizationRounds: Option<int>)

  datatype HistoryEntry = HistoryEntry(round: int, prompt: string, feedback: string)

  datatype Output = Output(optimizedPrompt: string, optimizationHistory: seq<HistoryEntry>)

  /** The loop's variables: `currentPrompt` and `optimizationHistory`. */
  datatype LoopState = LoopState(currentPrompt: string, history: seq<HistoryEntry>)

  const DefaultRounds: int := 3

  /** The round count after the schema's default is applied: the given count,
      or 3 when none is given. */
  function RoundsOf(input: Input): (k: int)
    ensures input.optimizationRounds == Some(k) || (input.optimizationRounds == None && k == 3)
  {
    match input.optimizationRounds
    case None => DefaultRounds
    case Some(k) => k
  }

  // ------------------------------------------------------- specification

  /** The loop after its first `i` rounds. */
  function RoundsAfter(initialPrompt: string, respond: Oracle, i: nat): Progress<LoopState, Call>
  {
    if i == 0 then Going(LoopState(initialPrompt, []), [])
    else
      match RoundsAfter(initialPrompt, respond, i - 1)
      case Halted(e, tr) => Halted(e, tr)
      case Going(LoopState(current, history), tr) =>
        var ask := Feedback(current);
        match respond(tr, ask)
        case Threw(m) => Halted(ProviderError(m), tr + [ask])
        case Returned(None) => Halted(MissingOutput, tr + [ask])
        case Returned(Some(feedback)) =>
          var rewrite := Optimize(current, feedback);
          match respond(tr + [ask], rewrite)
          case Threw(m) => Halted(ProviderError(m), tr + [ask, rewrite])
          case Returned(None) => Halted(MissingOutput, tr + [ask, rewrite])
          case Returned(Some(optimized)) =>
            Going(LoopState(optimized, history + [HistoryEntry(i, initialPrompt, feedback)]), tr + [ask, rewrite])
  }

  /** The whole flow: its result and the calls it made. A round count that is not
      a positive integer is rejected by the input schema before any call. */
  function Optimization(input: Input, respond: Oracle): (r: (Result<Output, Error>, seq<Call>))
    ensures r.0 == Failure(SchemaViolation) <==> RoundsOf(input) <= 0
    ensures r.0.Success? ==> |r.0.value.optimizationHistory| == RoundsOf(input) && |r.1| == 2 * RoundsOf(input)
  {
    var k := RoundsOf(input);
    if k <= 0 then (Failure(SchemaViolation), [])
    else
      match RoundsAfter(input.initialPrompt, respond, k)
      case Halted(e, tr) =>
        RoundsErrors(input.initialPrompt, respond, k);
        (Failure(e), tr)
      case Going(LoopState(current, history), tr) =>
        RoundsShape(input.initialPrompt, respond, k);
        (Success(Output(current, history)), tr)
  }

  // -------------------------------------------------------------- method

  /** `selfPromptingOptimizationFlow`. */
  method SelfPromptingOptimization(input: Input, respond: Oracle) returns (result: Result<Output, Error>, trace: seq<Call>)
    ensures (result, trace) == Optimization(input, respond)
  {
    var rounds := RoundsOf(input);
    if rounds <= 0 {
      return Failure(SchemaViolation), [];
    }
    var currentPrompt := input.initialPrompt;
    var optimizationHistory: seq<HistoryEntry> := [];
    trace := [];
    var i := 0;
    while i < rounds
      invariant 0 <= i <= rounds
      invariant RoundsAfter(input.initialPrompt, respond, i) == Going(LoopState(currentPrompt, optimizationHistory), trace)
    {
      ghost var before := trace;
      var ask := Feedback(currentPrompt);
      var feedbackOutput := respond(trace, ask);
      trace := trace + [ask];
      if feedbackOutput.Threw? {
        RoundsStayHalted(input.initialPrompt, respond, i + 1, rounds);
        return Failure(ProviderError(feedbackOutput.message)), trace;
      }
      if feedbackOutput.output.None? {
        RoundsStayHalted(input.initialPrompt, respond, i + 1, rounds);
        return Failure(MissingOutput), trace;
      }
      var feedback := feedbackOutput.output.value;

      var rewrite := Optimize(currentPrompt, feedback);
      var optimizationOutput := respond(trace, rewrite);
      trace := trace + [rewrite];
      assert trace == before + [ask, rewrite];
      if optimizationOutput.Threw? {
        RoundsStayHalted(input.initialPrompt, respond, i + 1, rounds);
        return Failure(ProviderError(optimizationOutput.message)), trace;
      }
      if optimizationOutput.output.None? {
        RoundsStayHalted(input.initialPrompt, respond, i + 1, rounds);
        return Failure(MissingOutput), trace;
      }
      currentPrompt := optimizationOutput.output.value;

      optimizationHistory := optimizationHistory + [HistoryEntry(i + 1, input.initialPrompt, feedback)];
      i := i + 1;
    }
    result := Success(Output(currentPrompt, optimizationHistory));
  }

  // -------------------------------------------------------------- lemmas

  /** A failure ends the loop: later rounds change nothing. */
  lemma {:induction false} RoundsStayHalted(initialPrompt: string, respond: Oracle, i: nat, k: nat)
    requires i <= k
    requires RoundsAfter(initialPrompt, respond, i).Halted?
    ensures RoundsAfter(initialPrompt, respond, k) == RoundsAfter(initialPrompt, respond, i)
    decreases k
  {
    if k > i {
      RoundsStayHalted(initialPrompt, respond, i, k - 1);
    }
  }

  /** The prompt current at the start of round `m` (0-based): the initial prompt,
      then the reply to the previous round's optimize call. */
  function PromptAt(initialPrompt: string, respond: Oracle, trace: seq<Call>, m: nat): string
    requires 2 * m <= |trace|
  {
    if m == 0 then initialPrompt else TextOf(ReplyTo(respond, trace, 2 * m - 1))
  }

  /** Round `m` (0-based) in `trace` and `history`: feedback is asked on the
      prompt current at the start of the round; the optimize call gets that same
      prompt and that feedback and is answered; the entry records round `m + 1`,
      the initial prompt and that feedback. */
  ghost predicate RoundAt(initialPrompt: string, respond: Oracle, trace: seq<Call>, history: seq<HistoryEntry>, m: nat)
  {
    && m < |history|
    && 2 * m + 1 < |trace|
    && var prompt := PromptAt(initialPrompt, respond, trace, m);
    && trace[2 * m] == Feedback(prompt)
    && ReplyTo(respond, trace, 2 * m) == Returned(Some(history[m].feedback))
    && trace[2 * m + 1] == Optimize(prompt, history[m].feedback)
    && ReplyTo(respond, trace, 2 * m + 1).Returned?
    && ReplyTo(respond, trace, 2 * m + 1).output.Some?
    && history[m].round == m + 1
    && history[m].prompt == initialPrompt
  }

  /** Later calls and entries leave earlier rounds as they were. */
  lemma RoundAtExtended(initialPrompt: string, respond: Oracle, trace: seq<Call>, more: seq<Call>,
                        history: seq<HistoryEntry>, entries: seq<HistoryEntry>, m: nat)
    requires RoundAt(initialPrompt, respond, trace, history, m)
    ensures RoundAt(initialPrompt, respond, trace + more, history + entries, m)
  {
    ReplyToExtended(respond, trace, more, 2 * m);
    ReplyToExtended(respond, trace, more, 2 * m + 1);
    if m > 0 {
      ReplyToExtended(respond, trace, more, 2 * m - 1);
    }
  }

  /** After `j` successful rounds: `j` history entries and `2 j` calls, every
      round as RoundAt describes, and the current prompt is the last optimize
      reply (the initial prompt when `j` is 0). */
  lemma {:induction false} RoundsShape(initialPrompt: string, respond: Oracle, j: nat)
    requires RoundsAfter(initialPrompt, respond, j).Going?
    ensures var p := RoundsAfter(initialPrompt, respond, j);
      && |p.state.history| == j
      && |p.trace| == 2 * j
      && (forall m :: 0 <= m < j ==> RoundAt(initialPrompt, respond, p.trace, p.state.history, m))
      && p.state.currentPrompt == PromptAt(initialPrompt, respond, p.trace, j)
  {
    if j > 0 {
      RoundsShape(initialPrompt, respond, j - 1);
      var prev := RoundsAfter(initialPrompt, respond, j - 1);
      var tr, current, history := prev.trace, prev.state.currentPrompt, prev.state.history;
      var ask := Feedback(current);
      var feedback := respond(tr, ask).output.value;
      var rewrite := Optimize(current, feedback);
      var tr2 := tr + [ask, rewrite];
      var entry := HistoryEntry(j, initialPrompt, feedback);
      forall m | 0 <= m < j - 1
        ensures RoundAt(initialPrompt, respond, tr2, history + [entry], m)
      {
        RoundAtExtended(initialPrompt, respond, tr, [ask, rewrite], history, [entry], m);
      }
      if j > 1 {
        ReplyToExtended(respond, tr, [ask, rewrite], 2 * (j - 1) - 1);
      }
      assert PromptAt(initialPrompt, respond, tr2, j - 1) == current;
      assert tr2[..|tr|] == tr;
      assert tr2[..|tr| + 1] == tr + [ask];
      assert RoundAt(initialPrompt, respond, tr2, history + [entry], j - 1);
    }
  }

  /** A round fails only through one of its two provider calls. */
  lemma {:induction false} RoundsErrors(initialPrompt: string, respond: Oracle, i: nat)
    requires RoundsAfter(initialPrompt, respond, i).Halted?
    ensures RoundsAfter(initialPrompt, respond, i).error.ProviderError?
      || RoundsAfter(initialPrompt, respond, i).error == MissingOutput
  {
    if i > 0 && RoundsAfter(initialPrompt, respond, i - 1).Halted? {
      RoundsErrors(initialPrompt, respond, i - 1);
    }
  }

  /** A failed round ends the flow: its error is the flow's error, no call
      follows it, and it failed at its feedback or its optimize call. */
  lemma RoundFailureIsFinal(input: Input, respond: Oracle, j: nat)
    requires j < RoundsOf(input)
    requires RoundsAfter(input.initialPrompt, respond, j).Going?
    requires RoundsAfter(input.initialPrompt, respond, j + 1).Halted?
    ensures var failed := RoundsAfter(input.initialPrompt, respond, j + 1);
      && Optimization(input, respond) == (Failure(failed.error), failed.trace)
      && (failed.error.ProviderError? || failed.error == MissingOutput)
      && 2 * j < |failed.trace| <= 2 * j + 2
  {
    RoundsShape(input.initialPrompt, respond, j);
    RoundsStayHalted(input.initialPrompt, respond, j + 1, RoundsOf(input));
    RoundsErrors(input.initialPrompt, respond, j + 1);
  }

  /** Entries, once appended, are never changed, and calls once made stay in the trace. */
  lemma {:induction false} HistoryOnlyGrows(initialPrompt: string, respond: Oracle, i: nat, j: nat)
    requires i <= j
    requires RoundsAfter(initialPrompt, respond, j).Going?
    ensures RoundsAfter(initialPrompt, respond, i).Going?
    ensures RoundsAfter(initialPrompt, respond, i).state.history <= RoundsAfter(initialPrompt, respond, j).state.history
    ensures RoundsAfter(initialPrompt, respond, i).trace <= RoundsAfter(initialPrompt, respond, j).trace
    decreases j
  {
    if i < j {
      HistoryOnlyGrows(initialPrompt, respond, i, j - 1);
    }
  }

  /** What a successful run of the flow has done: exactly `k` rounds (the given
      count, or 3 when none is given), history entries numbered 1..k in order,
      every entry recording the initial prompt and its own round's feedback,
      feedback asked on the prompt current at the start of the round and the
      optimize call given that prompt and that feedback; the optimized prompt is
      the last optimize reply. */
  lemma OptimizationSucceeded(input: Input, respond: Oracle)
    requires Optimization(input, respond).0.Success?
    ensures var (result, trace) := Optimization(input, respond);
      var k := RoundsOf(input);
      var out := result.value;
      && k >= 1
      && |out.optimizationHistory| == k
      && |trace| == 2 * k
      && (forall m :: 0 <= m < k ==> out.optimizationHistory[m].round == m + 1)
      && (forall m :: 0 <= m < k ==> out.optimizationHistory[m].prompt == input.initialPrompt)
      && (forall m :: 0 <= m < k ==> RoundAt(input.initialPrompt, respond, trace, out.optimizationHistory, m))
      && out.optimizedPrompt == TextOf(ReplyTo(respond, trace, 2 * k - 1))
  {
    var k := RoundsOf(input);
    RoundsShape(input.initialPrompt, respond, k);
    var p := RoundsAfter(input.initialPrompt, respond, k);
    assert Optimization(input, respond) == (Success(Output(p.state.currentPrompt, p.state.history)), p.trace);
    forall m | 0 <= m < k
      ensures p.state.history[m].round == m + 1 && p.state.history[m].prompt == input.initialPrompt
    {
      assert RoundAt(input.initialPrompt, respond, p.trace, p.state.history, m);
    }
  }

  /** Without an explicit count the flow runs three rounds. */
  lemma DefaultThreeRounds(input: Input, respond: Oracle)
    requires input.optimizationRounds == None
    requires Optimization(input, respond).0.Success?
    ensures |Optimization(input, respond).0.value.optimizationHistory| == 3
  {
    OptimizationSucceeded(input, respond);
  }

  /** A count that is not positive is rejected before any provider call. */
  lemma NonPositiveRoundsRejected(input: Input, respond: Oracle)
    requires input.optimizationRounds.Some? && input.optimizationRounds.value <= 0
    ensures Optimization(input, respond) == (Failure(SchemaViolation), [])
  {
  }

  /** The model names are never read: the flow behaves the same whatever they are. */
  lemma IgnoresModelNames(input: Input, names: seq<string>, respond: Oracle)
    ensures Optimization(input.(modelNames := names), respond) == Optimization(input, respond)
  {
  }
}
