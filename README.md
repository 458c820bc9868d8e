# Handle lifecycle and generation engine of the llama.cpp wrapper

This project models the C wrapper around llama.cpp that an offline chat app
loads through FFI (`offline_llm_app/native/llama_wrapper.cpp`): loading a
model into a handle, unloading it, the streaming `generate` call with its
sampler chain, cooperative cancellation, the `is_model_loaded` and
`get_model_info` queries, and the process-wide last-error slot.

llama.cpp is a black box. Each of its answers is an input to the model:
whether the model file loads and the context is created (as functions of the
path, the GPU layer count and the context parameters), the tokenizer's
result, whether the prompt decodes, and per emit-loop iteration the sampled
token, whether it ends the generation, the length of its text piece, whether
its decode succeeds and whether a concurrent `cancel` has landed. The
caller's callback is its answer at each iteration (0 continues).

Modules:

- `Errors` (errors.dfy): the error slot as a class and the fixed messages.
- `Sampling` (sampling.dfy): the sampler chain generate builds.
- `Resources` (resources.dfy): a ghost log of what the wrapper allocates
  and releases (the handle object itself with `new`/`delete`, and the model,
  context and sampler from llama.cpp), and `Live`, the count left alive.
- `Generation` (generation.dfy): the emit loop as a specification function
  (`Loop`), the whole reply of a generate call (`GenerateReply`) and the
  lemmas about both.
- `LlamaWrapper` (llama_wrapper.dfy): `LlamaContextInternal` as the class
  `Handle`, and load, unload, generate (a `while` loop proved against
  `Loop`), cancel and the two queries.

Where the code and its comments disagree, the model follows the code:

- The header says generate returns 0 on success (llama_wrapper.h:66). The
  code returns the number of tokens produced (llama_wrapper.cpp:271).
- A callback that asks to stop on the first token gets a count of 0, not 1.
  The loop breaks at cpp:250, before the token is decoded and before
  `n_generated++` at cpp:264 (`Generation.CallbackStopOnFirstToken`).

## Model

| member | source | states |
|---|---|---|
| Errors.ModelLoadFailed | offline_llm_app/native/llama_wrapper.cpp:89 | the load-failure message ends with the path that failed |
| Errors.ErrorChannel.constructor | offline_llm_app/native/llama_wrapper.cpp:20 | the slot starts empty |
| Errors.ErrorChannel.Set | offline_llm_app/native/llama_wrapper.cpp:41-44 | the last writer's message replaces whatever was there |
| Errors.ErrorChannel.Clear | offline_llm_app/native/llama_wrapper.cpp:46-49 | the slot becomes the empty string |
| Errors.ErrorChannel.Get | offline_llm_app/native/llama_wrapper.cpp:286-289 | returns the slot's current message and changes nothing |
| Sampling.ChooseChain | offline_llm_app/native/llama_wrapper.cpp:193-204 | the chain ends in exactly one selecting stage; it is greedy alone exactly when temperature is not positive; otherwise it is exactly top-p (keeping at least 1), then temperature, then the random draw with seed 0 |
| Sampling.GreedyIgnoresParameters | offline_llm_app/native/llama_wrapper.cpp:197-204 | with non-positive temperature neither temperature nor top-p affects the chain |
| Generation.Loop | offline_llm_app/native/llama_wrapper.cpp:220-265 | the count never exceeds the budget; the loop ends by exhausting the budget exactly when the count reaches max_tokens, so every other stop leaves the current token uncounted; without a callback nothing is shown and the callback never stops the loop |
| Generation.ProducedAreSamples | offline_llm_app/native/llama_wrapper.cpp:231-264 | the k-th counted token is the token sampled at iteration k |
| Generation.CountedIterations | offline_llm_app/native/llama_wrapper.cpp:224-264 | every counted iteration was within budget, saw no cancel, sampled a non-EOG token, was not stopped by the callback and decoded |
| Generation.StopIteration | offline_llm_app/native/llama_wrapper.cpp:224-262 | the iteration after the counted ones tripped exactly the stop rule that is reported (cancel, end of generation, callback, decode failure), with the earlier rules passed |
| Generation.EmittedPieces | offline_llm_app/native/llama_wrapper.cpp:238-253 | the callback sees the counted tokens with a non-empty piece, in order, plus the uncounted last token if its piece was shown before a callback stop or a decode failure |
| Generation.EmptyPieceStillCounted | offline_llm_app/native/llama_wrapper.cpp:240-264 | a token whose piece is empty is not shown to the callback but is still decoded and counted |
| Generation.CancelBoundsCount | offline_llm_app/native/llama_wrapper.cpp:224-228 | a cancel observed at iteration j bounds the count by j |
| Generation.NoBudgetNoIteration | offline_llm_app/native/llama_wrapper.cpp:220-224 | with max_tokens <= 0 the loop returns 0 with nothing shown, whatever the sampler, the library and the callback would answer |
| Generation.CallbackStopOnFirstToken | offline_llm_app/native/llama_wrapper.cpp:246-264 | a callback stop on the first token returns 0 with an empty error, having shown that token |
| Generation.CancelBeforeFirstToken | offline_llm_app/native/llama_wrapper.cpp:224-228 | a cancel before the first check returns 0 with an empty error and nothing shown |
| Generation.Advance | offline_llm_app/native/llama_wrapper.cpp:256-264 | a counted iteration extends the run so far by its token and its shown piece |
| Generation.Finish | offline_llm_app/native/llama_wrapper.cpp:224-262 | a stopping iteration completes the run with the reason that stopped it |
| Generation.GenerateReply | offline_llm_app/native/llama_wrapper.cpp:139-272 | -1 exactly for a null handle, -2 exactly for a null prompt on a handle, -3 exactly for a failed tokenize, -4 exactly for a failed prompt decode, each with its own message (the null-context, null-prompt, tokenize and prompt-decode texts); otherwise the number of tokens the emit loop produced, in 0..max(max_tokens, 0), with the pieces the loop showed the callback, and an error that is non-empty exactly when a generated token failed to decode, and then is the token-decode text |
| LlamaWrapper.Handle.constructor | offline_llm_app/native/llama_wrapper.cpp:27-35 | a new handle has no model, context or sampler, no cancel, window 2048 and an empty path |
| LlamaWrapper.ResolveContextSize | offline_llm_app/native/llama_wrapper.cpp:80 | the stored window is positive: the caller's when positive, otherwise 2048 |
| LlamaWrapper.LoadModel | offline_llm_app/native/llama_wrapper.cpp:65-111 | a handle is returned exactly when the path is given, the model loads and the context is created; it is fresh and ready with the resolved window and the path; an empty or null path, a model failure and a context failure each set their own message and return null; the allocation log grows by the steps taken and given back |
| LlamaWrapper.UnloadModel | offline_llm_app/native/llama_wrapper.cpp:113-137 | null is a no-op; otherwise sampler, context and model end absent, the handle is not loaded, and the log records their release in that order, then the handle's |
| LlamaWrapper.Generate | offline_llm_app/native/llama_wrapper.cpp:139-272 | return code, shown pieces and error slot are those of GenerateReply; the chain of ChooseChain is created and freed when tokenize succeeds, and only then; the handle is ready again with no sampler attached on every return; its cancel flag is set afterwards exactly when a cancel stopped the loop |
| LlamaWrapper.EmitTokens | offline_llm_app/native/llama_wrapper.cpp:219-265 | with the chain attached and the flag and error slot cleared, the count and the shown tokens are those of Loop; the error slot holds the token-decode message exactly when a decode failure stopped the loop and is empty otherwise; the cancel flag is set afterwards exactly when a cancel stopped it; model, context, chain, window and path are unchanged |
| LlamaWrapper.CancelGenerate | offline_llm_app/native/llama_wrapper.cpp:274-278 | on a handle the cancel flag is set and nothing else changes |
| LlamaWrapper.IsModelLoaded | offline_llm_app/native/llama_wrapper.cpp:280-284 | never true of null or of a handle missing its model or context; true of every ready handle |
| LlamaWrapper.LoadFailureLeaksNothing | offline_llm_app/native/llama_wrapper.cpp:86-108 | a load that fails at any step leaves every resource as alive as before |
| LlamaWrapper.GenerateLogLeaksNothing | offline_llm_app/native/llama_wrapper.cpp:194-269 | any series of generate calls leaves every resource as alive as before |
| LlamaWrapper.SessionLeaksNothing | offline_llm_app/native/llama_wrapper.cpp:65-137 | load, any number of generate calls, then unload leaves every resource as alive as before |
| LlamaWrapper.ModelInfo | offline_llm_app/native/llama_wrapper.cpp:291-321 | "{}" for a null handle, a missing model or a missing vocabulary; otherwise a prefix of the info text that is either all of it or exactly 1023 characters long |

## Left out

- `llama_wrapper_init` and `llama_wrapper_cleanup` (cpp:55-63): they only call llama.cpp's process-wide backend setup and teardown, and init clears the error slot.
- Mutexes and atomics: the per-handle generate lock is modelled as the exclusive access a method has to the handle it modifies; the error-slot lock as each write being whole. Unload blocking until a generation ends is not modelled.
- The error slot is process-wide and the code locks it only for each single write, so an operation on another handle can overwrite it in mid-call. The error-slot ensures of LoadModel and Generate assume no such concurrent writer; the last-writer-wins race between handles is not modelled.
- Paths are taken to hold no NUL character: the code measures the path with `strlen`, so a path starting with NUL counts as empty there, but as given in the model.
- A concurrent `cancel` is an input: the flag is raised just before the check of the iteration where it is observed. A cancel landing after the last check leaves the flag set after return in the code, and so does one landing after the reset at the top of generate and before the loop (during tokenize or the prompt decode), where the call then returns -3 or -4 with the flag still set; neither is modelled, and Generate's ensures state the flag as cleared on those -3/-4 returns.
- llama.cpp itself (tokenize, decode, sampling maths, vocabulary, token text) is a black box; the prompt's tokens, the sampled text and the context's cache are not modelled, so the cache growing across generate calls on one handle is not captured, nor is greedy sampling's determinism.
- The piece text handed to the callback and `user_data` are not modelled; the model records which tokens the callback was shown.
- Per-iteration answers are functions of the iteration index rather than finite sequences, so no length precondition is needed; the callback's answer is indexed by iteration too.
- Temperature and top-p are reals: a NaN temperature, which the code treats as greedy, has no counterpart.
- Memory: `new`/`delete`, the 256-byte piece buffer and pointer lifetimes are modelled as presence flags and as the allocation log. Use of a handle after unload is undefined in the code; Generate requires a ready handle instead.
- LoadModel: the GPU layer count only reaches the library's load answer.
- LlamaWrapper.ModelInfo: characters stand for bytes, the shared `g_model_info` buffer is not modelled, and the path is inserted without escaping, as in the code.
- LlamaWrapper.IsModelLoaded: its contract states the answer only for null, for handles missing a part and for ready handles; a handle with both parts and an attached sampler exists only inside Generate.
- Integer widths: counts stay between 0 and max_tokens, so 32-bit overflow does not arise; it is not modelled.
- `offline_llm_app/android/app/build.gradle.kts` is build configuration and is not part of this model.
