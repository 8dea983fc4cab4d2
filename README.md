# HttpLLMCalculator and ThreadSafeQueue in Dafny

This project models the per-request life of the OpenVINO Model Server's `HttpLLMCalculator`, the MediaPipe
node that serves the OpenAI-style `/v3/chat/completions` and `/v3/completions` endpoints, and the
`ThreadSafeQueue<T>` the server's threads share.

`Process` is called over and over for one request:
- The first call carries the HTTP payload. It classifies the URI into one of the two endpoints and parses the
  request. It builds the final prompt: the rendered chat template for chat, the request's prompt for
  completions. It refuses to submit for a client that is already gone. Otherwise it takes a request id from
  the process-wide counter, submits the tokenized prompt to the continuous-batching pipeline and creates the
  text streamer.
- Every later call carries only a loopback packet.
- In unary mode one blocking `read_all` gives exactly one response.
- In streaming mode each call reads at most one increment and puts its tokens into the streamer. The text
  the streamer's callback hands back after each put is appended to the chunk. While generation goes on, a
  non-empty chunk is emitted as a server-sent event, together with a loopback packet that asks to be called
  again. When generation finishes, one final message is emitted: the last chunk, then the usage chunk if
  the request asked for it, then `data: [DONE]`.
- Every call that reaches the end moves the output timestamp on by one. Errors map to `Cancelled`,
  `InvalidArgument` (every exception, too) or a failed `RET_CHECK` (`CheckFailed`).

The model has three layers:
- `Lifecycle.Step` is one call of `Process`. It is a pure function from the calculator's state, the
  request counter, the call's input packets, what the client connection reports and what the engine
  answers. It gives the returned status, the new state, and the request id taken, if any.
- `HttpLlmCalculator.HttpLLMCalculator` is the calculator as a class. Its fields are the C++ members plus
  the two output streams. Its `Process` method updates them step by step, and it is proved to end in
  exactly the state `Step` gives. The token loop of the streaming branch is a `while` loop proved against
  `TextStreaming.Feed`.
- `StepProperties`, `LifecycleProperties` and `Runs` prove what the source promises, both for one call and
  for a whole run of calls.

The collaborators are parameters: `NodeResources` holds JSON parsing, chat templating, the tokenizer, the
streamer's decoding and the serializers as functions, and `Engine` holds what the generation handle answers
during one call. The client connection is a small class whose `disconnected` flag the environment sets.

One behaviour of the source shows up in `StepProperties.FinalChunkRepeatsLastFragment`. At the end of a
stream, `lastStreamerCallbackOutput` is appended to the last chunk unless it is empty. Suppose `end()` does
not invoke the callback. Then this is the fragment of the last `put`, which the chunk already holds. Whether
`end()` can skip the callback after a `put` that invoked it depends on `TextCallbackStreamer`, which is not
part of this model, so this is not reported as a defect.

A streaming request can also end without `[DONE]` and without an error. A handle whose status is neither
running nor dropped by the handle (ignored, or dropped by the pipeline) and that has nothing to read makes
the call return Ok with no output and no loopback (`StepProperties.IdleStreamEmitsNothing`, line 224). With
no loopback the framework does not call `Process` again (`Runs.RequestEndsWithoutLoopback`), so the client
receives no closing event.

## Model

| member | source | states |
|---|---|---|
| ServerSentEvents.Pack | src/llm/http_llm_calculator.cc:47-51 | the event is the message behind the 6-character `data: ` prefix and before the `\n\n` terminator, 8 characters longer |
| ServerSentEvents.UnpackPack | src/llm/http_llm_calculator.cc:47-51 | stripping the prefix and terminator from a packed message gives the message back |
| ServerSentEvents.PackUnpack | src/llm/http_llm_calculator.cc:47-51 | every string that has the prefix and terminator is the packing of what is between them |
| ServerSentEvents.PackInjective | src/llm/http_llm_calculator.cc:47-51 | distinct messages give distinct events |
| ServerSentEvents.DoneEvent | src/llm/http_llm_calculator.cc:257 | the closing event unpacks to `[DONE]` |
| Endpoints.ClassifyEndpoint | src/llm/http_llm_calculator.cc:121-128 | chat exactly for `/v3/chat/completions` and `/v3/v1/chat/completions`; completions exactly for `/v3/completions` and `/v3/v1/completions`; no endpoint exactly for every other URI |
| Endpoints.ExactlyFourUrisAccepted | src/llm/http_llm_calculator.cc:121-128 | four distinct URIs are accepted, two per endpoint |
| StepProperties.UnsupportedUriIsRejected | src/llm/http_llm_calculator.cc:121-128 | a first call with any other URI returns InvalidArgument, changes no state and takes no request id |
| StepProperties.EmptyCallChangesNothing | src/llm/http_llm_calculator.cc:104-107 | a call with both input streams empty returns Ok and changes nothing: no output, no loopback, same timestamp |
| StepProperties.PayloadIsIngestedAtMostOnce | src/llm/http_llm_calculator.cc:110-116 | a payload arriving when any of apiHandler, generationHandle, streamer or client is set fails the check and changes nothing |
| Lifecycle.FinalPrompt | src/llm/http_llm_calculator.cc:137-159 | chat: a prompt exactly when the template succeeds with a non-empty text, encoded without special tokens; completions: the request's prompt, encoded with special tokens, and none when the request has no prompt |
| Lifecycle.TemplateInput | src/llm/http_llm_calculator.cc:142-146 | the chat template is applied to the processed JSON when the handler produced one, and to the request body otherwise |
| StepProperties.ChatPromptMustRender | src/llm/http_llm_calculator.cc:140-154 | a chat template that fails or renders an empty prompt returns InvalidArgument with no request id taken, no handle and nothing emitted |
| StepProperties.DisconnectedClientIsNotSubmitted | src/llm/http_llm_calculator.cc:164-167 | with the client gone, a first call never succeeds, takes no request id and creates no handle; a request that got as far as the check returns Cancelled |
| StepProperties.SubmissionUsesCounterAndEncoding | src/llm/http_llm_calculator.cc:161-182 | a submitted request carries the counter's current value as its id, the stored client is the payload's, and the prompt ids are the encoding of the final prompt with add_special_tokens set exactly for completions; the prompt token usage is their count |
| StepProperties.GoodRequestIsSubmitted | src/llm/http_llm_calculator.cc:161-191 | conversely, a first call whose URI, parse and prompt are accepted, whose client is connected and whose add_request does not throw is submitted with the counter's value and the encoded prompt, gets an empty streamer, and goes on to generation in the same call |
| Lifecycle.IngestRequest | src/llm/http_llm_calculator.cc:118-191 | the setup emits nothing and keeps the timestamp; it takes a request id only for an accepted URI and a connected client, and that id is the counter's value; when it succeeds the request is submitted with the payload's client |
| Lifecycle.FirstCall | src/llm/http_llm_calculator.cc:110-192 | a payload after one was taken fails the check with nothing changed; an id is taken only from a state with nothing ingested, and it is the counter's value |
| Lifecycle.Registration | src/llm/http_llm_calculator.cc:179-181 | at most one drop callback per call, registered exactly when the call created the generation handle |
| RequestIds.RequestIdCounter.FetchAndIncrement | src/llm/http_llm_calculator.cc:175 | returns the counter's value and moves it on by one with 64-bit wrap-around; the id joins the log of issued ids |
| RequestIds.RequestIdCounter.constructor | src/llm/http_llm_calculator.cc:54 | the counter starts at 0 with no id handed out |
| Lifecycle.NextRequestId | src/llm/http_llm_calculator.cc:175 | the counter stays a 64-bit value and is unchanged by a call that takes no id |
| RequestIds.IssuedIdsIncrease | src/llm/http_llm_calculator.cc:54 | until the counter wraps, every id handed out is strictly greater than all earlier ones |
| RequestIds.IssuedIdsRepeatAfterWrap | src/llm/http_llm_calculator.cc:54 | after 2^64 ids the counter hands out 0 again |
| StepProperties.DisconnectionCancelsLaterCalls | src/llm/http_llm_calculator.cc:194-201 | a loopback call with the client gone returns Cancelled and changes nothing once a request is submitted, and fails the check before that |
| Lifecycle.GenerationCycle | src/llm/http_llm_calculator.cc:194-201 | generation never takes an id and never changes the handle; it succeeds only for a submitted request with a connected client, and a failure changes nothing |
| Lifecycle.UnaryCycle | src/llm/http_llm_calculator.cc:204-214 | unary mode never emits a loopback; it succeeds exactly when read_all does not throw, the handle was not dropped and there is at least one output, and a failure changes nothing |
| StepProperties.UnaryCycleEmitsOneResponse | src/llm/http_llm_calculator.cc:204-214 | unary mode: InvalidArgument if read_all throws, Cancelled with nothing emitted if the handle was dropped, a failed check with no outputs; otherwise exactly one response, no loopback and the next timestamp |
| StepProperties.DroppedStreamIsCancelled | src/llm/http_llm_calculator.cc:220-222 | streaming mode: a dropped handle returns Cancelled and changes nothing |
| Lifecycle.StreamingCycle | src/llm/http_llm_calculator.cc:220-228 | streaming mode succeeds exactly when the handle was not dropped and either there is nothing to read or one increment is read without an exception; a failure changes nothing |
| StepProperties.IdleStreamEmitsNothing | src/llm/http_llm_calculator.cc:224 | streaming mode: a handle that is neither running nor readable emits nothing, not even a loopback, and the call still advances the timestamp |
| StepProperties.ContinuingStreamStep | src/llm/http_llm_calculator.cc:224-246 | generation not finished: the chunk is emitted exactly when non-empty, a loopback is always emitted, the streamer received the tokens in order, the processed token count grows by their number, and the chunk is the callback fragments concatenated in token order |
| Lifecycle.ConsumeIncrement | src/llm/http_llm_calculator.cc:229-239 | consuming an increment succeeds, puts its tokens into the streamer in order, adds their count to the processed tokens, keeps the handle and client, and advances the timestamp |
| Lifecycle.ContinueStream | src/llm/http_llm_calculator.cc:240-246 | generation not finished: one loopback at the current timestamp, and the chunk's event exactly when the chunk is not empty |
| TextStreaming.CallbackOutput | src/llm/http_llm_calculator.cc:185-189 | lastStreamerCallbackOutput becomes the callback's text when the streamer invokes the callback, and keeps its old value otherwise |
| TextStreaming.Feed | src/llm/http_llm_calculator.cc:233-238 | feeding tokens appends them to the streamer's history, and afterwards lastStreamerCallbackOutput is the callback's text for the last put whenever that put invoked the callback |
| TextStreaming.FeedConcatenatesFragments | src/llm/http_llm_calculator.cc:233-238 | when every put invokes the callback, the chunk is the concatenation of the fragments in token order and the last fragment is kept |
| TextStreaming.FeedComposes | src/llm/http_llm_calculator.cc:233-238 | two increments fed in turn give the same streamer state and the same total text as feeding them together: no text is reordered, skipped or repeated between reads |
| TextStreaming.StaleOutputIsRepeated | src/llm/http_llm_calculator.cc:185-189 | a put that does not invoke the callback appends the previous fragment again |
| StepProperties.FinishingStreamStep | src/llm/http_llm_calculator.cc:247-261 | generation finished: exactly one output and no loopback; it starts with the final chunk's event, holds the usage event exactly when the request asked for usage, and ends with the `[DONE]` event |
| Lifecycle.FinishStream | src/llm/http_llm_calculator.cc:247-261 | generation finished: no loopback, exactly one output appended, and it ends with the `[DONE]` event |
| Lifecycle.FinalChunk | src/llm/http_llm_calculator.cc:250-252 | the final chunk is the chunk read followed by lastStreamerCallbackOutput; the emptiness test makes no difference |
| Lifecycle.FinalStreamingResponse | src/llm/http_llm_calculator.cc:253-257 | the final message is the chunk's event, then the usage event if any, then the `[DONE]` event last |
| StepProperties.FinalChunkRepeatsLastFragment | src/llm/http_llm_calculator.cc:249-252 | when end() does not invoke the callback, the final chunk ends with the last put's fragment twice |
| StepProperties.IngestEmitsNothing | src/llm/http_llm_calculator.cc:110-192 | the first call's setup emits nothing and leaves the timestamp alone |
| StepProperties.GenerationCycleEffect | src/llm/http_llm_calculator.cc:194-263 | a generation cycle emits at most one output and one loopback, nothing if it fails, and advances the timestamp if it succeeds |
| StepProperties.EveryCallHasCallEffect | src/llm/http_llm_calculator.cc:264-271 | every call: an error return emits nothing and keeps the timestamp, a call that reaches the end advances it by exactly one, and at most one output and one loopback are appended without touching earlier ones |
| Lifecycle.Completed | src/llm/http_llm_calculator.cc:269 | a call that reaches the end returns Ok and moves the timestamp on by one, changing nothing else |
| Lifecycle.Step | src/llm/http_llm_calculator.cc:100-272 | a call with no input returns Ok and changes nothing; only a call carrying a payload, from a state with nothing ingested, takes a request id, and that id is the counter's value |
| LifecycleProperties.StepPreservesValid | src/llm/http_llm_calculator.cc:100-272 | every call keeps both streams' timestamps strictly increasing and below the current one, and a handle exists only with a complete setup |
| HttpLlmCalculator.HttpLLMCalculator.constructor | src/llm/http_llm_calculator.cc:56-69 | the calculator starts with no handler, handle, streamer or client, an empty callback output and timestamp 0 |
| HttpLlmCalculator.HttpLLMCalculator.Process | src/llm/http_llm_calculator.cc:100-272 | the returned status, the new member state, both output streams and the request counter are exactly those of `Step`; the payload's client gets one drop callback for the submitted request id; the invariant is kept |
| HttpLlmCalculator.HttpLLMCalculator.ProcessLoopback | src/llm/http_llm_calculator.cc:104-107 | a call without payload behaves as `Step` says and never takes a request id |
| HttpLlmCalculator.HttpLLMCalculator.ProcessPayload | src/llm/http_llm_calculator.cc:110-116 | a call with payload behaves as the first-call step says, including the failed check for a second payload |
| HttpLlmCalculator.HttpLLMCalculator.ReceivePayload | src/llm/http_llm_calculator.cc:118-192 | the setup writes the fields, the counter and the drop callback as the ingestion step says |
| HttpLlmCalculator.HttpLLMCalculator.Generate | src/llm/http_llm_calculator.cc:194-201 | the checks and the disconnection test before generation, then the unary or streaming cycle |
| HttpLlmCalculator.HttpLLMCalculator.UnaryGenerate | src/llm/http_llm_calculator.cc:204-214 | the unary cycle's status and new state |
| HttpLlmCalculator.HttpLLMCalculator.StreamingGenerate | src/llm/http_llm_calculator.cc:220-228 | the streaming cycle's status and new state |
| HttpLlmCalculator.HttpLLMCalculator.ConsumeOutput | src/llm/http_llm_calculator.cc:229-240 | counting the increment's tokens, feeding them and emitting, as the model of the increment says |
| HttpLlmCalculator.HttpLLMCalculator.EmitChunk | src/llm/http_llm_calculator.cc:240-246 | the not-finished branch's outputs, loopback and timestamp |
| HttpLlmCalculator.HttpLLMCalculator.EmitFinalResponse | src/llm/http_llm_calculator.cc:247-261 | the finished branch's single output and timestamp |
| HttpLlmCalculator.HttpLLMCalculator.PutTokens | src/llm/http_llm_calculator.cc:233-238 | the token loop leaves the chunk, the streamer and lastStreamerCallbackOutput exactly as `Feed` says |
| HttpLlmCalculator.HttpLLMCalculator.StreamerPut | src/llm/http_llm_calculator.cc:185-189 | a put extends the streamer's history by the token and the callback, when invoked, overwrites lastStreamerCallbackOutput |
| HttpLlmCalculator.HttpLLMCalculator.StreamerEnd | src/llm/http_llm_calculator.cc:249 | end() overwrites lastStreamerCallbackOutput only when it invokes the callback |
| Connection.ClientConnection.RegisterDisconnectionCallback | src/llm/http_llm_calculator.cc:179-181 | one drop callback for the request is registered on the connection |
| Runs.RunPreservesValid | src/llm/http_llm_calculator.cc:269 | over any run of calls the invariant holds: timestamps on both streams strictly increase, and the counter stays a 64-bit value |
| Runs.RunOnlyAppends | src/llm/http_llm_calculator.cc:100-272 | over any run of calls, outputs and loopbacks only grow, by at most one per call, and keep what was emitted; the timestamp never goes back |
| Runs.StepAfterIngestion | src/llm/http_llm_calculator.cc:110-116 | no call replaces a handle; after ingestion no call takes a request id, and a call that takes one ends ingested |
| Runs.HandleIsNeverReplaced | src/llm/http_llm_calculator.cc:110-116 | once a request is submitted, its handle is the same after any run of later calls |
| Runs.IngestedRunDrawsNothing | src/llm/http_llm_calculator.cc:110-116 | after a payload was ingested, no run of calls takes a request id |
| Runs.AtMostOneIdPerCalculator | src/llm/http_llm_calculator.cc:110-116 | a calculator takes at most one request id from the shared counter over any run of calls |
| Runs.TraceSteps | src/llm/http_llm_calculator.cc:100-272 | each call of a run is one step from the state and counter the previous call left |
| Runs.CallWithoutLoopbackIsSilent | src/llm/http_llm_calculator.cc:104-116 | after ingestion, a call without a loopback packet emits nothing and the request stays ingested |
| Runs.EmittingCallIsIngested | src/llm/http_llm_calculator.cc:194-261 | a call that emits an output leaves the request ingested |
| Runs.RequestEndsWithoutLoopback | src/llm/http_llm_calculator.cc:240-261 | when loopback packets arrive only after a call emitted one, a call that leaves the request ingested without a loopback ends it: no later call emits an output or a loopback |
| Runs.NothingAfterFinalOutput | src/llm/http_llm_calculator.cc:247-261 | in such a run, after a call that emits an output without a loopback (the unary response, or the streaming message ending with `[DONE]`), nothing more is emitted |
| Runs.TraceKeepsHandle | src/llm/http_llm_calculator.cc:110-116 | once a call of a run has a generation handle, every later call keeps the same handle |
| Runs.OneDisconnectionCallbackPerRequest | src/llm/http_llm_calculator.cc:179-181 | in any run, at most one call registers a disconnection callback |
| Queues.ThreadSafeQueue.constructor | src/threadsafequeue.hpp:54-57 | the queue starts empty |
| Queues.ThreadSafeQueue.Push | src/threadsafequeue.hpp:28-40 | both overloads: the element goes to the back and the others keep their order |
| Queues.ThreadSafeQueue.WaitAndPull | src/threadsafequeue.hpp:42-48 | returns the front element and leaves the rest; the n-th pull returns the n-th element pushed |
| Queues.ThreadSafeQueue.Size | src/threadsafequeue.hpp:50-52 | the number of elements pushed and not yet pulled |

## Left out

- Queues.ThreadSafeQueue.WaitAndPull: requires a non-empty queue. The source blocks on its condition variable until another thread pushes, and a single-threaded model has no such thread.
- The mutex and condition variable of `ThreadSafeQueue`, and the unlocked read in `size()`: concurrency is outside this model.
- The disconnection callback runs asynchronously and drops the handle. The model records the registration; disconnection and a dropped handle are inputs the environment sets between calls.
- `GetContract`, `Open`, `Close` and `REGISTER_CALCULATOR` are MediaPipe plumbing. The `RET_CHECK` on `nodeResources` always passes, because the class's resources are a constant set at construction.
- The internals of JSON parsing and serialization, chat templating, the tokenizer, the `TextCallbackStreamer` and the continuous-batching pipeline are collaborator functions and per-call engine answers. The parsed JSON document is kept as its text.
- Exceptions are modelled where the source's control flow depends on them: `add_request`, `read` and `read_all`, and `getPrompt().value()` on an absent prompt. Exceptions thrown inside the collaborators (parsing, templating, encoding, the streamer, the serializers) are not modelled.
- The status messages (the text of `InvalidArgumentError` and so on) are not modelled; only the status codes are.
- The generation config, the parse limits (`maxTokensLimit`, `bestOfLimit`, the speculative flag), the creation clock, `notifyExecutorThread`, profiling and logging have no observable effect on the modelled state.
- The first call asks the client whether it disconnected twice: before submission (line 165) and after the setup (line 199). The model takes one answer per call. So it does not model a client that disconnects between the two: the source then returns Cancelled after taking a request id, registering the drop callback and storing the handle and streamer.
- The streaming branch asks the handle for its status twice. The model takes one status per call, so a status change between the two queries is not modelled.
- Lifecycle.Completed: the MediaPipe timestamp is a bounded 64-bit value; the model counts it as an unbounded natural number and does not model its overflow.
- The unused `IGNORE_EOS_MAX_TOKENS_LIMIT` constant and `src/version.hpp` (string macros only) have no behaviour to model.
