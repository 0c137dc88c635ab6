# SynergyAI control logic in Dafny

SynergyAI is a Next.js front end over Genkit flows that call a language model.
This project models the deterministic logic around those model calls and proves
its properties:

- **Refinement flow.** The collaborative output refinement flow first gets one
  plain generation per model name. It then runs `n - 1` critique/refine rounds on
  a single running output.
- **Optimization flow.** The self-prompting optimization flow runs exactly
  `optimizationRounds` feedback/optimize rounds and keeps a history.
- **Recommendation post-processing.** It fails when the model gave no output. It
  rewrites placeholder logo URLs from the task category.
- **Form schemas.** The four form schemas, as validation predicates.
- **Model-list parser.** The forms' comma-separated model lists are parsed with
  `split(",")`, `trim` and a filter on empty names.
- **Submit handlers.** Each form's submit handler resets, calls its flow,
  records the outcome and clears a loading flag. The routing page does this for
  two pipelines in turn.
- **Sidebar navigation.** A fixed table of entries, and the rule that marks an
  entry active for the current path.

The language model is an *oracle* (`Provider`). It is a function from the calls
made so far and the next call to a reply. A reply is either an exception with a
message, or a returned value that may be absent where the source writes `!`.
Because the oracle sees the history, it stands for any sequence of replies.

The modules:
- **Loop flows.** `Refinement` and `Optimization` are `method`s with `while`
  loops. Each is proved equal to a recursive specification function that gives
  the state after `j` steps and the trace of calls made. The shape lemmas are
  proved about those functions.
- **Pure code.** `Recommend`, `Schemas`, `CommaList` and `SidebarNav` are
  functions and lemmas.
- **Form state.** `FormState.RequestState` and
  `RoutingForm.QueryRoutingForm` are classes whose fields are the components'
  React state. Their methods carry `modifies` frames.

The routing and energy-aware selection flows are each one pass-through model
call, so the forms take them as function parameters.

## Model

| member | source | states |
|---|---|---|
| Refinement.Collaborate | src/ai/flows/collaborative-output-refinement.ts:62-100 | the specification of the flow: it fails with a schema rejection if and only if there are no model names, and a success has one intermediate output per model name |
| Refinement.CollaborativeOutputRefinement | src/ai/flows/collaborative-output-refinement.ts:68-99 | the two loops compute exactly the result and call trace of the specification `Collaborate` |
| Refinement.CollectedStaysHalted | src/ai/flows/collaborative-output-refinement.ts:72-78 | once a generation fails, later steps of the collection change neither the error nor the trace |
| Refinement.RefinedStaysHalted | src/ai/flows/collaborative-output-refinement.ts:82-93 | once a critique or refine fails, later rounds change nothing |
| Refinement.CollectedErrors | src/ai/flows/collaborative-output-refinement.ts:72-78 | the collection can fail only with a provider error or a missing output |
| Refinement.RefinedErrors | src/ai/flows/collaborative-output-refinement.ts:82-93 | the refinement can fail only with a provider error or a missing output |
| Refinement.CollectedShape | src/ai/flows/collaborative-output-refinement.ts:70-78 | after `j` generations there are `j` outputs; the `i`-th call of the trace is `Generate(modelNames[i], query)` and its reply is the `i`-th output |
| Refinement.RoundAtExtended | src/ai/flows/collaborative-output-refinement.ts:82-93 | a round already in the trace is unaffected by later calls |
| Refinement.RefinedShape | src/ai/flows/collaborative-output-refinement.ts:80-93 | after `r` rounds the trace has grown by `2r` calls; each round is a critique of the running output followed by a refine of that same running output with the critique; the running output is the last refine reply |
| Refinement.CollaborateSucceeded | src/ai/flows/collaborative-output-refinement.ts:68-99 | on success: at least one model; one intermediate output per model name, in order, each the reply to that model's generate call; `n - 1` critique/refine rounds, the first on `intermediateOutputs[0]` and each later one on the previous refined output; `refinedOutput` is the last refine reply |
| Refinement.ModelsOnlyInGeneration | src/ai/flows/collaborative-output-refinement.ts:72-91 | in a successful run a call names a model if and only if it is one of the first `n` calls |
| Refinement.SingleModel | src/ai/flows/collaborative-output-refinement.ts:80-97 | with one model name exactly one call is made and `refinedOutput` is that model's output |
| Refinement.NoModels | src/ai/flows/collaborative-output-refinement.ts:62-100 | with no model names nothing is called and the flow fails, because its output schema rejects the undefined running output |
| Refinement.GenerationFailureIsFinal | src/ai/flows/collaborative-output-refinement.ts:72-78 | a failed or empty generation makes the whole flow fail with that call's error (the provider's message, or a missing output), with no call after it |
| Refinement.RoundFailureIsFinal | src/ai/flows/collaborative-output-refinement.ts:82-93 | a failed critique/refine round makes the whole flow fail with that round's provider error or missing output; it failed at its critique or its refine call and nothing is called after it |
| Optimization.RoundsOf | src/ai/flows/self-prompting-optimization.ts:20-25 | the count is the given one, or 3 when none is given |
| Optimization.Optimization | src/ai/flows/self-prompting-optimization.ts:91-128 | the specification of the flow: it fails with a schema rejection if and only if the count is not positive; a success has one history entry per round and two calls per round |
| Optimization.SelfPromptingOptimization | src/ai/flows/self-prompting-optimization.ts:97-127 | the round loop computes exactly the result and call trace of the specification `Optimization` |
| Optimization.RoundsStayHalted | src/ai/flows/self-prompting-optimization.ts:101-121 | once a round fails, later rounds change nothing |
| Optimization.RoundAtExtended | src/ai/flows/self-prompting-optimization.ts:101-121 | a recorded round is unaffected by later calls and entries |
| Optimization.RoundsShape | src/ai/flows/self-prompting-optimization.ts:101-121 | after `j` rounds: `j` entries and `2j` calls; round `m` asks feedback on the prompt current at its start, then optimizes that same prompt with that feedback; entry `m` has round `m + 1`, the initial prompt and that feedback |
| Optimization.RoundsErrors | src/ai/flows/self-prompting-optimization.ts:101-121 | a round can fail only with a provider error or a missing output |
| Optimization.RoundFailureIsFinal | src/ai/flows/self-prompting-optimization.ts:101-121 | a failed round makes the whole flow fail with its error, at its feedback or its optimize call, and nothing is called after it |
| Optimization.HistoryOnlyGrows | src/ai/flows/self-prompting-optimization.ts:116-120 | earlier history and trace are prefixes of later ones: entries are only appended |
| Optimization.OptimizationSucceeded | src/ai/flows/self-prompting-optimization.ts:97-127 | on success: `k >= 1` rounds; exactly `k` entries and `2k` calls; rounds `1..k` in order; every entry's prompt is the initial prompt; `optimizedPrompt` is the last optimize reply |
| Optimization.DefaultThreeRounds | src/ai/flows/self-prompting-optimization.ts:20-25 | with no round count, a successful run has three history entries |
| Optimization.NonPositiveRoundsRejected | src/ai/flows/self-prompting-optimization.ts:20-25 | a count that is not positive fails validation before any call |
| Optimization.IgnoresModelNames | src/ai/flows/self-prompting-optimization.ts:97-127 | the result and the trace do not depend on `modelNames` |
| Recommend.RecommendAiShortcuts | src/ai/flows/recommend-ai-shortcuts.ts:82-97 | a thrown error propagates; a missing output is the error "No output received from AI for recommendations." (if and only if); any output succeeds, post-processed |
| Recommend.PostProcess | src/ai/flows/recommend-ai-shortcuts.ts:88-95 | same length and order; every field but `logoUrl` kept; a non-placeholder entry unchanged; a placeholder logo replaced by the keyword URL |
| Recommend.WithLogo | src/ai/flows/recommend-ai-shortcuts.ts:89-94 | only `logoUrl` changes, and only when it starts with the placeholder base; it is then replaced whole |
| Recommend.PostProcessIdempotent | src/ai/flows/recommend-ai-shortcuts.ts:88-95 | post-processing twice equals post-processing once |
| Recommend.WithLogoIdempotent | src/ai/flows/recommend-ai-shortcuts.ts:89-94 | rewriting one recommendation twice equals rewriting it once |
| Recommend.PlaceholderLogo | src/ai/flows/recommend-ai-shortcuts.ts:92 | the rewritten URL is the placeholder base, then `?query=`, then the percent-encoded category keyword; that query is non-empty and decodes back to the keyword |
| Recommend.FirstWord | src/ai/flows/recommend-ai-shortcuts.ts:91 | the result is a space-free prefix followed by a space or the end |
| Recommend.LowerChar | src/ai/flows/recommend-ai-shortcuts.ts:91 | the result is never an upper-case ASCII letter; only upper-case ASCII letters change, each to the same letter in lower case |
| Recommend.ToLower | src/ai/flows/recommend-ai-shortcuts.ts:91 | same length; each character is lower-cased on its own by `LowerChar`, so each upper-case ASCII letter becomes its lower-case letter and every other character is kept |
| Recommend.CategoryKeyword | src/ai/flows/recommend-ai-shortcuts.ts:91 | the keyword is never empty |
| Recommend.KeywordIsFirstWord | src/ai/flows/recommend-ai-shortcuts.ts:91 | the keyword is the lower-cased text before the first space, when that is non-empty |
| Recommend.KeywordDefault | src/ai/flows/recommend-ai-shortcuts.ts:91 | an empty category, or one that starts with a space, gives `abstract` |
| Recommend.KeywordKeepsPunctuation | src/ai/flows/recommend-ai-shortcuts.ts:91 | "Text-to-Image Generation" gives "text-to-image": punctuation is not stripped |
| Recommend.LowerExample | src/ai/flows/recommend-ai-shortcuts.ts:91 | lower-casing maps "Text-to-Image" to "text-to-image" |
| Recommend.HexDigit | src/ai/flows/recommend-ai-shortcuts.ts:92 | a digit below 16 becomes an upper-case hex character that reads back as that digit |
| Recommend.Utf8 | src/ai/flows/recommend-ai-shortcuts.ts:92 | a code point encodes to one to four bytes |
| Recommend.PercentEscape | src/ai/flows/recommend-ai-shortcuts.ts:92 | three characters per byte, each `%` or a hex digit |
| Recommend.EncodeUriComponent | src/ai/flows/recommend-ai-shortcuts.ts:92 | the encoding is never shorter than its input and uses only unreserved characters, `%` and hex digits |
| Recommend.EncodeUnreserved | src/ai/flows/recommend-ai-shortcuts.ts:92 | a string of unreserved characters encodes to itself |
| Recommend.Unescape | src/ai/flows/recommend-ai-shortcuts.ts:92 | a run of escapes reads back as one byte per three characters, the first from the first escape's digits |
| Recommend.Utf8RoundTrip | src/ai/flows/recommend-ai-shortcuts.ts:92 | the lead byte of a character's UTF-8 encoding gives the sequence's length, and the sequence carries the character's code point |
| Recommend.UnescapeEscape | src/ai/flows/recommend-ai-shortcuts.ts:92 | reading the percent escapes of bytes back gives those bytes |
| Recommend.DecodeEncode | src/ai/flows/recommend-ai-shortcuts.ts:92 | decoding the encoding of any string gives back its code points |
| Recommend.EncodeInjective | src/ai/flows/recommend-ai-shortcuts.ts:92 | different keywords have different encodings |
| Schemas.RoutingIssues | src/lib/schemas.ts:4-6 | no issue if and only if the query is non-empty |
| Schemas.OptimizationIssues | src/lib/schemas.ts:9-13 | no issue if and only if the prompt and model list are non-empty and the rounds are in 1..10; each field is reported exactly when its own check fails |
| Schemas.SelectionIssues | src/lib/schemas.ts:16-19 | no issue if and only if both fields are non-empty; field-wise reporting |
| Schemas.RefinementIssues | src/lib/schemas.ts:22-25 | no issue if and only if both fields are non-empty; field-wise reporting |
| Schemas.BlankTextAccepted | src/lib/schemas.ts:5-24 | any non-empty text is accepted, including " " and "," |
| CommaList.Split | src/components/sections/self-prompting-optimization-form.tsx:41 | at least one piece; no piece holds a comma; pieces hold only characters of the input |
| CommaList.TrimStart | src/components/sections/self-prompting-optimization-form.tsx:41 | a suffix whose removed prefix is all white space and whose first character is not |
| CommaList.TrimEnd | src/components/sections/self-prompting-optimization-form.tsx:41 | a prefix whose removed suffix is all white space and whose last character is not |
| CommaList.Trim | src/components/sections/self-prompting-optimization-form.tsx:41 | no white space is left at either end; the result is no longer than the input |
| CommaList.TrimAll | src/components/sections/self-prompting-optimization-form.tsx:41 | one trimmed name per piece, none longer than its piece; `TrimAllSingle` and `TrimAllAppend` fix each name to its piece's trim, in order |
| CommaList.DropEmpty | src/components/sections/self-prompting-optimization-form.tsx:41 | no longer than its input; every kept name is non-empty and was in the input |
| CommaList.TrimShape | src/components/sections/self-prompting-optimization-form.tsx:41 | trim returns an infix of its input with no white space at either end |
| CommaList.TrimCuts | src/components/sections/self-prompting-optimization-form.tsx:41 | everything trim removes, at either end, is white space |
| CommaList.TrimFixed | src/components/sections/self-prompting-optimization-form.tsx:41 | trim leaves a string unchanged if and only if it has no white space at either end |
| CommaList.TrimKeepsOut | src/components/sections/self-prompting-optimization-form.tsx:41 | trim introduces no character that was absent |
| CommaList.TrimAllWhitespace | src/components/sections/self-prompting-optimization-form.tsx:41 | white space alone trims to nothing |
| CommaList.JoinSplit | src/components/sections/self-prompting-optimization-form.tsx:41 | rejoining the split pieces with commas gives the input back |
| CommaList.SplitJoin | src/components/sections/self-prompting-optimization-form.tsx:41 | comma-free pieces survive a join and a split |
| CommaList.SplitAppend | src/components/sections/self-prompting-optimization-form.tsx:41 | splitting `a + "," + b` splits `a` and `b` independently |
| CommaList.SplitSingle | src/components/sections/self-prompting-optimization-form.tsx:41 | a comma-free string is one piece |
| CommaList.SplitCount | src/components/sections/self-prompting-optimization-form.tsx:41 | one piece more than there are commas |
| CommaList.TrimAllAppend | src/components/sections/self-prompting-optimization-form.tsx:41 | trimming each piece distributes over concatenation |
| CommaList.TrimAllSingle | src/components/sections/self-prompting-optimization-form.tsx:41 | the map on one piece is that piece's trim; with the map's distribution over concatenation this fixes its result for every list |
| CommaList.DropEmptyAppend | src/components/sections/self-prompting-optimization-form.tsx:41 | the filter distributes over concatenation |
| CommaList.DropEmptySingle | src/components/sections/self-prompting-optimization-form.tsx:41 | on one name the filter drops it if it is empty and keeps it otherwise; with the filter's distribution over concatenation this fixes its result for every list |
| CommaList.DropEmptyKeeps | src/components/sections/self-prompting-optimization-form.tsx:41 | every non-empty name of the input is kept |
| CommaList.EmptiesDrop | src/components/sections/self-prompting-optimization-form.tsx:41 | a list of empty names filters to nothing |
| CommaList.ParseList | src/components/sections/self-prompting-optimization-form.tsx:41 | every parsed name is non-empty, trimmed and comma-free, and there is at most one name more than there are commas |
| CommaList.CleanPieces | src/components/sections/self-prompting-optimization-form.tsx:41 | trimming comma-free pieces leaves them comma-free |
| CommaList.ParseAppend | src/components/sections/self-prompting-optimization-form.tsx:41 | the names before a comma come before the names after it, in order |
| CommaList.ParseSingle | src/components/sections/self-prompting-optimization-form.tsx:41 | a comma-free entry parses to its trimmed self, or to nothing when blank |
| CommaList.ParseOnlySeparators | src/components/sections/collaborative-output-refinement-form.tsx:40 | input of only commas and white space parses to no names |
| CommaList.ParseName | src/components/sections/self-prompting-optimization-form.tsx:41 | a trimmed comma-free name parses to itself |
| CommaList.ParseCons | src/components/sections/self-prompting-optimization-form.tsx:41 | a clean name before a comma is the first parsed name, followed by the names of the rest |
| CommaList.ParseTwo | src/components/sections/self-prompting-optimization-form.tsx:41 | two such names joined by a comma parse to exactly those two |
| CommaList.ParseThree | src/components/sections/collaborative-output-refinement-form.tsx:40 | three such names joined by commas parse to exactly those three, in order |
| FormState.FallbackOnlyForNonErrors | src/components/sections/self-prompting-optimization-form.tsx:47 | the fallback text is shown if and only if the thrown value is not an Error |
| FormState.AsThrown | src/components/sections/self-prompting-optimization-form.tsx:43-47 | a flow success reaches the form as that value; a flow failure shows its message whatever the fallback, so a modelled failure never shows the fallback text |
| FormState.RequestState.constructor | src/components/sections/self-prompting-optimization-form.tsx:20-22 | not loading, no error, no result |
| FormState.RequestState.Begin | src/components/sections/self-prompting-optimization-form.tsx:35-37 | loading, with error and result cleared |
| FormState.RequestState.Settle | src/components/sections/self-prompting-optimization-form.tsx:43-52 | success sets only the result; failure sets only the error, to the message or the fallback; loading ends either way |
| SelfPromptingForm.OnSubmit | src/components/sections/self-prompting-optimization-form.tsx:34-53 | afterwards not loading; on flow success the result is the response and the error is null; on failure the error is its message and the result is null |
| SelfPromptingForm.FlowInput | src/components/sections/self-prompting-optimization-form.tsx:39-42 | prompt and round count pass through unchanged; every model name handed to the flow is non-empty, trimmed and comma-free |
| SelfPromptingForm.ValidRoundsAccepted | src/lib/schemas.ts:12 | a count the form accepts is within 1..10 when it reaches the flow, so the flow never rejects it |
| SelfPromptingForm.Defaults | src/components/sections/self-prompting-optimization-form.tsx:29-41 | the default list parses to `creativeModel`, `generalModel`; the default count is 3 |
| CollaborativeForm.FlowInput | src/components/sections/collaborative-output-refinement-form.tsx:38-41 | the query passes through unchanged; every model name handed to the flow is non-empty, trimmed and comma-free |
| CollaborativeForm.OnSubmit | src/components/sections/collaborative-output-refinement-form.tsx:33-52 | the same reset, call and record transitions, with the query passed through and the names parsed |
| CollaborativeForm.BlankModelListFails | src/components/sections/collaborative-output-refinement-form.tsx:38-42 | a model list of only commas and white space passes the schema, parses to no names, and the flow fails without a call |
| CollaborativeForm.Defaults | src/components/sections/collaborative-output-refinement-form.tsx:29-40 | the default list parses to the three names in order |
| SelectionForm.FlowInput | src/components/sections/energy-aware-model-selection-form.tsx:37-40 | the task passes through unchanged; every candidate handed to the flow is non-empty, trimmed and comma-free |
| SelectionForm.OnSubmit | src/components/sections/energy-aware-model-selection-form.tsx:32-51 | the same transitions around the selection flow, with the task passed through and the candidates parsed |
| SelectionForm.Defaults | src/components/sections/energy-aware-model-selection-form.tsx:28-39 | the default list parses to `modelA`, `modelB`, `modelC` |
| RoutingForm.QueryRoutingForm.constructor | src/components/sections/dynamic-query-routing-form.tsx:22-30 | both pipelines idle with no error or result; the submitted query is empty |
| RoutingForm.QueryRoutingForm.Reset | src/components/sections/dynamic-query-routing-form.tsx:42-51 | the query is recorded and both pipelines are loading with nothing left from before |
| RoutingForm.QueryRoutingForm.SettleRouting | src/components/sections/dynamic-query-routing-form.tsx:53-64 | writes only the routing fields: success sets the result, failure the error text; routing loading ends |
| RoutingForm.QueryRoutingForm.SettleRecommendations | src/components/sections/dynamic-query-routing-form.tsx:66-82 | writes only the recommendation fields, with the same rule |
| RoutingForm.QueryRoutingForm.OnSubmit | src/components/sections/dynamic-query-routing-form.tsx:41-83 | the query is recorded; both loading flags end false; each pipeline's fields reflect only its own flow; recommendations are asked for `{query}` whatever routing did |
| SidebarNav.IsActive | src/components/layout/sidebar-nav.tsx:37 | an active entry's href begins the path; an exactly matched entry is active on no longer path; a non-exact entry is active if and only if its href begins the path |
| SidebarNav.ActiveItems | src/components/layout/sidebar-nav.tsx:36-37 | for every path, at most one entry is highlighted |
| SidebarNav.AtMostOneIndex | src/components/layout/sidebar-nav.tsx:36-37 | a set of active indices in which no two can both be active has at most one member |
| SidebarNav.TableShape | src/components/layout/sidebar-nav.tsx:22-29 | six entries; only the dashboard is matched exactly |
| SidebarNav.NoHrefIsPrefixOfAnother | src/components/layout/sidebar-nav.tsx:22-29 | no href is a character prefix of another |
| SidebarNav.HrefsDistinct | src/components/layout/sidebar-nav.tsx:22-39 | the hrefs, used as React keys, are pairwise distinct |
| SidebarNav.PrefixesComparable | src/components/layout/sidebar-nav.tsx:37 | two prefixes of one path are comparable |
| SidebarNav.AtMostOneActive | src/components/layout/sidebar-nav.tsx:22-37 | for every path, no two distinct entries are both active |
| SidebarNav.DashboardExact | src/components/layout/sidebar-nav.tsx:23-37 | the dashboard is active on `/dashboard` and not on any longer path |
| SidebarNav.PrefixActivates | src/components/layout/sidebar-nav.tsx:37 | a non-exact entry is active on any path that starts with its href, `/ai-toolsX` included |

## Left out

- **Provider calls** (`ai.generate`, `definePrompt`, `defineFlow`, the Gemini plugin): network I/O in a foreign library. Each is an oracle parameter.
- **Prompt template rendering**: the library's semantics are not visible. A call records the prompt's inputs, not the rendered text.
- **Routing and selection flows.** `src/ai/flows/dynamic-query-routing.ts` and `src/ai/flows/energy-aware-model-selection.ts` are each one pass-through model call, so the forms take them as function parameters. As in the source, nothing checks that the chosen model belongs to the offered set.
- **Zod internals.** The `z.coerce` conversion is not modelled: rounds are an `int`. URL validation is not modelled: URLs are strings.
- Refinement.CollaborativeOutputRefinement: an absent generate or refine output (`text!`, `output!`) stops the flow at once with `MissingOutput`. In JavaScript the undefined value flows on and is rejected by the output schema at the end. The model does not reproduce which later calls would still have been made.
- Refinement.CollaborateSucceeded: the source's requirement `|modelNames| >= 1` is an error path here, not a precondition. With no names the flow fails with `SchemaViolation`.
- Optimization.OptimizationSucceeded: the zero-round case is not reachable, because the input schema rejects a count below 1. So "with zero rounds the optimized prompt is the initial prompt" is only the base case of the specification.
- Provider.Message: the wording of the errors the JavaScript runtime raises for a `!` on a missing value, and the wording of the schema library's rejections, is not fixed by the source. It is a parameter (`LibraryText`), so the forms' contracts hold for any wording.
- **Validation messages**: the schemas' custom messages are only rendered next to the form fields, so they are not modelled. The predicates say which fields are rejected.
- Recommend.DecodeUriComponent: a reference inverse of the encoder, written for the round-trip lemma. It reads upper-case hex digits only, which is all the encoder writes; it is not a model of `decodeURIComponent`.
- Recommend.CategoryKeyword: `toLowerCase` is modelled on ASCII letters only; other characters are kept as they are.
- RoutingForm.QueryRoutingForm.OnSubmit: the contract does not state that routing is called before recommendations. The two flows are functions of their input here, so the order cannot be observed. The method body calls them in the source's order.
- **Toasts, async timing and rendering.** The toast messages, the `await` scheduling and the React rendering are not modelled.
- **`ai-tool-recommender-form.tsx`**: the same request-state wrapper around one flow, with no input transformation. Not modelled.
- **Rendering-only components**: the cards, layouts, pages, static tool tables and configuration files are not modelled.
