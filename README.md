# Translation agent core, modelled in Dafny

This project models the translation pipeline of `lib/translation.js`. It
translates a source text from one language to another with a language
model, in three stages:
1. a first translation;
2. a review that writes suggestions;
3. an edit that applies them.

`translate` counts the tokens of the text and picks a path:
- **Within the token budget**, the *single-chunk path* runs the three stages
  once on the whole text.
- **Over the budget**, it computes a chunk size (`calculateChunkSize`) and
  has the splitter cut the text into chunks. The *multi-chunk path* then
  makes three passes over the chunks, one stage per pass. Each chunk's
  prompt shows the whole text with that chunk wrapped in
  `<TRANSLATE_THIS>` markers (the *tagged view*). The pass-3 replies are
  joined with no separator.

Any failure is rethrown as `Translation failed: <cause>`.

Each module covers one part:
- `ChunkSize`: `calculateChunkSize`, branch for branch. The proofs cover:
  - its exact formula;
  - concrete values;
  - its bounds;
  - the fact that it is *not* bounded by the limit.
- `Text`:
  - `Join`, which is `Array.prototype.join('')`;
  - `ReplaceFirst`, which is `String.prototype.replace` with a string
    pattern: only the first occurrence is replaced.
- `Prompts`:
  - the tagged view;
  - the templates and the requests each stage sends;
  - the proofs that the sequential `replace` calls fill each placeholder
    exactly once when the inputs contain no `{`;
  - the proof that a chunk containing `{chunk_to_translate}` is instead
    substituted into its own copy, leaving the template's placeholder
    unfilled;
  - the proof that the reflection prompt holds the country sentence if and
    only if a country is given.
- `Completion`: the completion service (`getCompletion`) as a class whose
  state is the log of calls made. Each reply is arbitrary: any text or any
  error.
- `Pipeline`:
  - the pass loop, as a method with loop invariants;
  - the three passes, `multichunkTranslation`, the single-chunk path and
    `translate`, as methods on the service;
  - predicates that say which requests a run issues, in which order, and
    what it returns;
  - lemmas for the pass barrier, for which earlier reply each prompt quotes,
    for stopping at the first failure, for routing and for error wrapping.

Two facts about `calculateChunkSize` are worth knowing. For 2500 tokens
and a limit of 1000, an even division into `ceil(T / L) = 3` chunks would
give 833. The code adds a share of the remainder and returns
833 + 166 = 999 (`ChunkSize.ChunkSizeExamples`). Also, `n = ceil(T / L)`
chunks of the returned size need not hold `T - L` tokens: for T = 7 and
L = 2 the code gives 4 chunks of size 1, which hold only 4 tokens
(`ChunkSize.ChunkCoverageCanFallShort`).

## Model

| member | source | states |
|---|---|---|
| ChunkSize.CalculateChunkSize | lib/translation.js:38-52 | A count within the limit is returned unchanged; a positive count over a positive limit gives a positive size |
| ChunkSize.NumChunksIsCeiling | lib/translation.js:43 | The chunk count is the ceiling of count over limit: enough chunks of the limit hold the text, one fewer do not |
| ChunkSize.NumChunksAtMostCount | lib/translation.js:43-44 | Over the limit there are between one chunk and as many chunks as tokens, so the even share is at least 1 |
| ChunkSize.ChunkSizeFormula | lib/translation.js:43-51 | Over the limit the guarded addition equals `T / n + (T % L) / n` unconditionally, with `n = ceil(T / L)` |
| ChunkSize.ChunkSizeBounds | lib/translation.js:43-49 | Over the limit the size lies between the even share `T / n` and `T / n + (L - 1) / n`, and `n` chunks one token larger hold the text |
| ChunkSize.EvenDivisionGivesLimit | lib/translation.js:43-51 | When the limit divides the count, the chunk count is `T / L` and the size is exactly the limit |
| ChunkSize.ChunkSizeExamples | lib/translation.js:43-51 | (2500, 1000) gives 999, (2000, 1000) gives 1000, (1900, 1000) gives 1400, above the limit |
| ChunkSize.ChunkCoverageCanFallShort | lib/translation.js:43-51 | For (7, 2) four chunks of size 1 cover fewer than `T - L` tokens |
| Text.JoinAppend | lib/translation.js:159-161 | Joining two lists of pieces is joining each and concatenating |
| Text.JoinAround | lib/translation.js:159-161 | The join of all chunks is the join before `i`, chunk `i`, and the join after `i` |
| Text.JoinChars | lib/translation.js:159-161 | A character is in the join if and only if it is in one of the pieces |
| Text.PrefixIsOccurrence | lib/translation.js:163-165 | The pattern starts the text if and only if it occurs at index 0 |
| Text.ReplaceFirstNoMatch | lib/translation.js:163-165 | `replace` with no occurrence of the pattern returns the text unchanged |
| Text.ReplaceFirstAtFirstMatch | lib/translation.js:163-165 | With its first occurrence at `k`, `replace` returns the text before `k`, the replacement, and the text after the occurrence |
| Text.ReplaceFirstSkips | lib/translation.js:163-165 | Text before the first character of the pattern is left untouched by `replace` |
| Text.ReplaceFirstWithin | lib/translation.js:218-221 | When the front part holds an occurrence, `replace` acts inside it and leaves the rest untouched |
| Text.ReplaceFirstAtStart | lib/translation.js:163-165 | A text starting with the pattern gets the replacement in its place |
| Prompts.TaggedViewErasesToSource | lib/translation.js:159-161 | The markers sit right around chunk `i`, and cutting them out gives the join of all chunks, so the source text when the chunks partition it |
| Prompts.TaggedViewMarksOnlyChunk | lib/translation.js:214-216 | When neither marker occurs in the text before chunk `i`, in chunk `i` or in the text after it, each marker occurs exactly once in the tagged view: the opening one right before chunk `i`, the closing one right after it |
| Prompts.MarkerInChunkRepeats | lib/translation.js:214-216 | A marker inside chunk `i` occurs a second time in the tagged view, strictly between the two markers put around the chunk |
| Prompts.MarkerInChunkExample | lib/translation.js:214-216 | The single chunk `x</TRANSLATE_THIS>y` gives a tagged view with the closing marker at 17 and at 35 |
| Prompts.TaggedViewBraceFree | lib/translation.js:272-274 | The tagged view contains no `{` when no chunk does |
| Prompts.OneChunkReflectCountry | lib/translation.js:64-71 | The single-chunk reflection prompt has the country sentence right after its introduction if and only if a country is given |
| Prompts.MultiReflectCountry | lib/translation.js:177-181 | When the languages and the country contain no `{`, the pass-2 prompt has the country sentence right after its introduction if and only if a country is given |
| Prompts.MultiInitialPromptFilled | lib/translation.js:139-165 | With no `{` in the inputs, the pass-1 prompt is the template with the tagged view and chunk `i` exactly in the placeholders' places |
| Prompts.MultiReflectPromptFilled | lib/translation.js:183-221 | With no `{` in the languages, the country or the chunks, the pass-2 prompt holds the tagged view, chunk `i` and its pass-1 translation in the placeholders' places; the translation, filled last, may contain anything |
| Prompts.MultiImprovePromptFilled | lib/translation.js:230-280 | With no `{` in the inputs, the pass-3 prompt holds the tagged view, chunk `i`, its translation and its suggestions in the placeholders' places |
| Prompts.MultiInitialPromptCollision | lib/translation.js:163-165 | A chunk containing `{chunk_to_translate}` is substituted into its own copy in the tagged view, and the template's placeholder stays in the prompt |
| Prompts.FillsKeepPrefix | lib/translation.js:218-221 | Filling placeholders never changes a prefix without `{` |
| Completion.CompletionService.constructor | lib/translation.js:8-10 | A new service has made no calls |
| Completion.CompletionService.Complete | lib/translation.js:14-30 | One call appends exactly one exchange, its request and its reply, to the log |
| Completion.Replies | lib/translation.js:168 | The replies of a successful log, one per call, in call order |
| Pipeline.InitialRequestsContent | lib/translation.js:158-165 | One pass-1 request per chunk, all with the translator system message; with no `{` in the inputs, request `i` holds the tagged view for chunk `i` and then chunk `i` where the placeholders were |
| Pipeline.ReflectRequestsContent | lib/translation.js:213-221 | One pass-2 request per chunk, all with the reviewer system message; with no `{` in the languages, the country or the chunks, request `i` holds the tagged view, chunk `i` and entry `i` of the pass-1 output, whatever that entry contains, where the placeholders were |
| Pipeline.ImproveRequestsContent | lib/translation.js:271-280 | One pass-3 request per chunk, all with the editor system message; with no `{` in the inputs, request `i` holds the tagged view, chunk `i`, entry `i` of the pass-1 output and entry `i` of the pass-2 output where the placeholders were |
| Pipeline.RunPass | lib/translation.js:157-171 | Requests are sent in index order and the pass stops at the first failure with its error; otherwise there is one reply per request, in order |
| Pipeline.MultichunkInitialTranslation | lib/translation.js:137-172 | Pass 1: the log holds the pass-1 requests in chunk order, and the output is their replies or the first error |
| Pipeline.MultichunkReflectOnTranslation | lib/translation.js:174-228 | Pass 2: the same, for the reflection requests quoting the pass-1 output |
| Pipeline.MultichunkImproveTranslation | lib/translation.js:230-287 | Pass 3: the same, for the editing requests quoting the pass-1 and pass-2 outputs |
| Pipeline.FirstPassScheduled | lib/translation.js:290 | The calls of pass 1 are the planned pass-1 requests, whatever follows them |
| Pipeline.SecondPassScheduled | lib/translation.js:291 | Pass-2 calls come after all pass-1 calls succeeded, and each quotes the matching pass-1 reply |
| Pipeline.ThirdPassScheduled | lib/translation.js:292 | Pass-3 calls come after all pass-1 and pass-2 calls succeeded, and each quotes the matching replies |
| Pipeline.MultichunkTranslation | lib/translation.js:289-294 | The run's calls follow the three-pass schedule, it stops at the first failure, and it returns the pass-3 replies or that failure's error |
| Pipeline.MultiRunSucceeds | lib/translation.js:289-294 | A run without failure made `3n` calls, and its result holds, at index `i`, the pass-3 reply for chunk `i` |
| Pipeline.InitialCallAt | lib/translation.js:158-167 | Call `i` of a run is the pass-1 request for chunk `i` |
| Pipeline.ReflectCallAt | lib/translation.js:218-223 | Call `n + i` is the pass-2 request for chunk `i`, quoting the pass-1 replies, which all succeeded |
| Pipeline.ImproveCallAt | lib/translation.js:276-282 | Call `2n + i` is the pass-3 request for chunk `i`, quoting the pass-1 and pass-2 replies, which all succeeded |
| Pipeline.MultiRunStopsAtFailure | lib/translation.js:289-294 | Only the last call of a run can have failed, and then the run reports its error |
| Pipeline.OneChunkInitialTranslation | lib/translation.js:54-62 | Sends the single-chunk translation request once and returns its reply |
| Pipeline.OneChunkReflectOnTranslation | lib/translation.js:64-95 | Sends the single-chunk review request, quoting the first translation, and returns its reply |
| Pipeline.OneChunkImproveTranslation | lib/translation.js:97-128 | Sends the single-chunk editing request, quoting the translation and the review, and returns its reply |
| Pipeline.OneChunkTranslateText | lib/translation.js:130-135 | The three calls run in order, each quoting the earlier replies; the run stops at the first failure and returns the edited text or that error |
| Pipeline.OneRunSucceeds | lib/translation.js:130-135 | A single-chunk run without failure made exactly the three planned calls and returns the third reply verbatim |
| Pipeline.OneRunStopsAtFailure | lib/translation.js:130-135 | Only the last call of a single-chunk run can have failed, and then the run reports its error |
| Pipeline.FailureMessage | lib/translation.js:329-332 | The rethrown message is the fixed prefix followed by the original message, which can be read back after the prefix |
| Pipeline.Translate | lib/translation.js:296-333 | Routes by token count, splits with the computed chunk size, joins the pass-3 replies, and wraps every failure; the new log is exactly the calls made |
| Pipeline.TranslateErrorsWrapped | lib/translation.js:329-332 | Every failure of `translate`, from the tokenizer, the splitter or a call, carries the `Translation failed: ` prefix |
| Pipeline.TranslateRoutes | lib/translation.js:307-325 | Within the budget, at most three calls, the first on the whole text; over it, the splitter gets the computed chunk size and the first call is pass 1 on chunk 0 |
| Pipeline.TranslateDefaultBudget | lib/translation.js:296-313 | With the default budget of 1000 tokens, a text of 1000 tokens takes the single-chunk path and one of 1001 tokens is split with chunk size 500 |
| Pipeline.TranslateSucceeds | lib/translation.js:307-327 | On success every call succeeded. Within the budget it made three calls and returns the third reply verbatim; over it, `3n` calls and the pass-3 replies joined with no separator |

## Left out

- The completion service's behaviour is not modelled. That covers the OpenAI client, the model name, temperature, `max_tokens`, `top_p` and JSON mode of `getCompletion`. Each call returns an arbitrary text or error, and identical requests may get different replies.
- `numTokensInString` (tiktoken) and `RecursiveCharacterTextSplitter` (langchain) are parameters of `Translate`, with no behaviour assumed. Overlap 0 is implied by the splitter parameter. That the chunks partition the text is only a `requires` of `Prompts.TaggedViewErasesToSource`. The token-sized chunk size is passed where the splitter counts characters, and this mismatch is not modelled.
- The English wording of every prompt and system message is abridged to short constant texts. Kept as in the code:
  - the placeholders and their order;
  - the `<TRANSLATE_THIS>` markers;
  - the position of the country sentence;
  - the interpolation of the languages, as often as each prompt has it.
- `$&`, `$1` and the other special replacement patterns of `String.prototype.replace` are not modelled. `ReplaceFirst` inserts the replacement literally.
- `maxTokens` is a natural number. Negative, fractional or non-numeric budgets are not modelled. The default parameter value is the constant `Pipeline.MaxTokensPerChunk`, which callers pass explicitly; `Pipeline.TranslateDefaultBudget` states where that default puts the split.
- `country` is a string, with "no country" as the empty string. JavaScript truthiness of `undefined` or `null` is reduced to that.
- A `null` message content from the API, and errors thrown as non-`Error` values, are not modelled. A failure carries a message string.
- `async`/`await` scheduling, `console` output, `dotenv` and the module-level client are left out. The calls are modelled as sequential.
- The web route and the UI components are outside the modelled core.
- ChunkSize.CalculateChunkSize uses exact integer division. The code computes `Math.ceil(T / L)` and `Math.floor(T / n)` with JavaScript doubles, which agree with it only while the counts stay well below 2^53.
- Prompts.MultiInitialPromptFilled, Prompts.MultiReflectPromptFilled and Prompts.MultiImprovePromptFilled are stated only for inputs without `{`, except the value each fills last (the pass-2 translation, the pass-3 suggestions), which may contain anything. For other inputs the sequential `replace` calls can land inside earlier values, as `Prompts.MultiInitialPromptCollision` shows for one such input.
- Pipeline.InitialRequestsContent, Pipeline.ReflectRequestsContent and Pipeline.ImproveRequestsContent state the prompt of request `i` only for languages, country and chunks without `{`, and for pass 3 also entry `i` of the pass-1 output, for the same reason. Their system-message clauses hold for all inputs.
- Prompts.MarkerInChunkRepeats covers a marker inside chunk `i`. A marker inside another chunk shows up in the tagged view as well; that direction is not stated for the other chunks.
- Pipeline.ReflectRequests and Pipeline.ImproveRequests require the earlier outputs to have one entry per chunk. The code always passes such outputs. It would read `undefined` otherwise.
