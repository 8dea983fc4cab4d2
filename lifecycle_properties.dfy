/** Properties of one call of Process, and of any sequence of calls. */
module LifecycleProperties {
  import opened Wrappers
  import opened LlmTypes
  import opened ServerSentEvents
  import opened TextStreaming
  import opened RequestIds
  import opened Lifecycle

  lemma AppendKeepsIncreasing<T>(packets: seq<Packet<T>>, value: T, t: nat)
    requires Increasing(packets, t)
    ensures Increasing(packets + [Packet(value, t)], t + 1)
  {
  }

  lemma CompletedKeepsValid(s: CalculatorState)
    requires ValidState(s)
    ensures ValidState(Completed(s).state)
  {
  }

  lemma IngestPreservesValid(res: NodeResources, s: CalculatorState, nextId: nat, p: Payload, disconnected: bool, submitThrows: bool)
    requires ValidState(s) && NotIngested(s) && nextId < U64_LIMIT
    ensures ValidState(IngestRequest(res, s, nextId, p, disconnected, submitThrows).state)
  {
  }

  lemma UnaryPreservesValid(res: NodeResources, s: CalculatorState, engine: Engine)
    requires ValidState(s) && s.apiHandler.Some?
    ensures ValidState(UnaryCycle(res, s, engine).state)
  {
    if !engine.readThrows && engine.status != DroppedByHandle && |engine.generationOutputs| >= 1 {
      AppendKeepsIncreasing(s.outputs, res.serializeUnaryResponse(s.apiHandler.value, engine.generationOutputs), s.timestamp);
    }
  }

  lemma ContinuePreservesValid(res: NodeResources, s: CalculatorState, chunk: string)
    requires ValidState(s) && s.apiHandler.Some?
    ensures ValidState(ContinueStream(res, s, chunk).state)
  {
    AppendKeepsIncreasing(s.loopbacks, true, s.timestamp);
    AppendKeepsIncreasing(s.outputs, Pack(res.serializeStreamingChunk(s.apiHandler.value, chunk, NotFinished)), s.timestamp);
  }

  lemma FinishPreservesValid(res: NodeResources, s: CalculatorState, chunk: string, reason: FinishReason)
    requires ValidState(s) && s.apiHandler.Some? && s.streamer.Some?
    ensures ValidState(FinishStream(res, s, chunk, reason).state)
  {
    var r := FinishStream(res, s, chunk, reason);
    AppendKeepsIncreasing(s.outputs, r.state.outputs[|s.outputs|].value, s.timestamp);
  }

  lemma StreamingPreservesValid(res: NodeResources, s: CalculatorState, engine: Engine)
    requires ValidState(s) && Submitted(s)
    ensures ValidState(StreamingCycle(res, s, engine).state)
  {
    if engine.status != DroppedByHandle && (engine.status == Running || engine.canRead) && !engine.readThrows
       && |engine.generationOutputs| == 1 {
      var output := engine.generationOutputs[0];
      var handler := s.apiHandler.value.(processedTokens := s.apiHandler.value.processedTokens + |output.generatedIds|);
      var fed := Feed(res.onPut, s.streamer.value.pushed, s.lastStreamerCallbackOutput, output.generatedIds);
      var s1 := s.(apiHandler := Some(handler), streamer := Some(Streamer(fed.pushed)), lastStreamerCallbackOutput := fed.last);
      if output.finishReason == NotFinished {
        ContinuePreservesValid(res, s1, fed.text);
      } else {
        FinishPreservesValid(res, s1, fed.text, output.finishReason);
      }
    }
  }

  lemma GenerationPreservesValid(res: NodeResources, s: CalculatorState, disconnected: bool, engine: Engine)
    requires ValidState(s)
    ensures ValidState(GenerationCycle(res, s, disconnected, engine).state)
  {
    if Submitted(s) && !disconnected {
      if s.apiHandler.value.request.isStream {
        StreamingPreservesValid(res, s, engine);
      } else {
        UnaryPreservesValid(res, s, engine);
      }
    }
  }

  lemma FirstCallPreservesValid(res: NodeResources, s: CalculatorState, nextId: nat, p: Payload, disconnected: bool, engine: Engine)
    requires ValidState(s) && nextId < U64_LIMIT
    ensures ValidState(FirstCall(res, s, nextId, p, disconnected, engine).state)
  {
    if NotIngested(s) {
      IngestPreservesValid(res, s, nextId, p, disconnected, engine.submitThrows);
      var ingested := IngestRequest(res, s, nextId, p, disconnected, engine.submitThrows);
      if ingested.status == Ok {
        GenerationPreservesValid(res, ingested.state, disconnected, engine);
      }
    }
  }

  /** Every call keeps the invariant: timestamps strictly increase on both streams, a handle implies a finished setup. */
  lemma StepPreservesValid(res: NodeResources, s: CalculatorState, nextId: nat, input: Option<Payload>, loopback: Option<bool>,
                           disconnected: bool, engine: Engine)
    requires ValidState(s) && nextId < U64_LIMIT
    ensures ValidState(Step(res, s, nextId, input, loopback, disconnected, engine).state)
  {
    if input.Some? {
      FirstCallPreservesValid(res, s, nextId, input.value, disconnected, engine);
    } else if loopback.Some? {
      GenerationPreservesValid(res, s, disconnected, engine);
    }
  }
}

/** What one call of Process does, branch by branch. */
module StepProperties {
  import opened Wrappers
  import opened LlmTypes
  import opened ServerSentEvents
  import opened Endpoints
  import opened TextStreaming
  import opened Lifecycle

  /** A call with neither a payload nor a loopback packet returns Ok and changes nothing. */
  lemma EmptyCallChangesNothing(res: NodeResources, s: CalculatorState, nextId: nat, disconnected: bool, engine: Engine)
    ensures Step(res, s, nextId, None, None, disconnected, engine) == StepResult(Ok, s, None)
  {
  }

  /** A URI other than the four accepted ones is rejected before anything is set, parsed or submitted. */
  lemma UnsupportedUriIsRejected(res: NodeResources, s: CalculatorState, nextId: nat, p: Payload, loopback: Option<bool>,
                                 disconnected: bool, engine: Engine)
    requires NotIngested(s) && p.uri !in AcceptedUris()
    ensures Step(res, s, nextId, Some(p), loopback, disconnected, engine) == StepResult(InvalidArgument, s, None)
  {
  }

  /** A payload arriving after one was taken fails the check and changes nothing. */
  lemma PayloadIsIngestedAtMostOnce(res: NodeResources, s: CalculatorState, nextId: nat, p: Payload, loopback: Option<bool>,
                                    disconnected: bool, engine: Engine)
    requires !NotIngested(s)
    ensures Step(res, s, nextId, Some(p), loopback, disconnected, engine) == StepResult(CheckFailed, s, None)
  {
  }

  /** For chat, a template that fails or renders an empty prompt rejects the request before submission. */
  lemma ChatPromptMustRender(res: NodeResources, s: CalculatorState, nextId: nat, p: Payload, loopback: Option<bool>,
                             disconnected: bool, engine: Engine)
    requires NotIngested(s) && ClassifyEndpoint(p.uri) == Some(ChatCompletions)
    requires res.parseRequest(p.parsedJson, ChatCompletions).status == Ok
    requires var rendered := res.applyChatTemplate(TemplateInput(res.parseRequest(p.parsedJson, ChatCompletions).request, p.body));
             !rendered.0 || |rendered.1| == 0
    ensures var r := Step(res, s, nextId, Some(p), loopback, disconnected, engine);
            && r.status == InvalidArgument
            && r.drawnId.None?
            && r.state.generationHandle.None?
            && r.state.outputs == s.outputs && r.state.loopbacks == s.loopbacks
  {
  }

  /** A client that is already gone is never submitted: no request id is taken, no handle exists. */
  lemma DisconnectedClientIsNotSubmitted(res: NodeResources, s: CalculatorState, nextId: nat, p: Payload, loopback: Option<bool>,
                                         engine: Engine)
    requires NotIngested(s)
    ensures var r := Step(res, s, nextId, Some(p), loopback, true, engine);
            && r.status != Ok
            && r.drawnId.None?
            && r.state.generationHandle.None?
            && r.state.outputs == s.outputs && r.state.loopbacks == s.loopbacks
    ensures var endpoint := ClassifyEndpoint(p.uri);
            var parsed := if endpoint.Some? then res.parseRequest(p.parsedJson, endpoint.value) else ParseResult(Ok, ParsedRequest(false, false, "", None));
            endpoint.Some? && parsed.status == Ok && FinalPrompt(res, endpoint.value, parsed.request, p.body).Prompt? ==>
              Step(res, s, nextId, Some(p), loopback, true, engine).status == Cancelled
  {
  }

  /**
   * A submission takes the counter's current value as request id, and the prompt is encoded with
   * add_special_tokens set exactly for the completions endpoint.
   */
  lemma SubmissionUsesCounterAndEncoding(res: NodeResources, s: CalculatorState, nextId: nat, p: Payload, loopback: Option<bool>,
                                         disconnected: bool, engine: Engine)
    requires NotIngested(s)
    requires Step(res, s, nextId, Some(p), loopback, disconnected, engine).state.generationHandle.Some?
    ensures var r := Step(res, s, nextId, Some(p), loopback, disconnected, engine);
            var endpoint := ClassifyEndpoint(p.uri);
            && endpoint.Some?
            && !disconnected && !engine.submitThrows
            && r.drawnId == Some(nextId)
            && r.state.generationHandle.value.requestId == nextId
            && r.state.client == p.client
            && var prompt := FinalPrompt(res, endpoint.value, res.parseRequest(p.parsedJson, endpoint.value).request, p.body);
               && prompt.Prompt?
               && r.state.generationHandle.value.promptIds == res.encode(prompt.text, endpoint.value == Completions)
               && r.state.apiHandler.value.promptTokens == |r.state.generationHandle.value.promptIds|
  {
  }

  /**
   * The converse: a first call that passes every check before add_request, and whose add_request does not
   * throw, is submitted with the counter's current value and the encoded prompt, gets a fresh streamer, and
   * goes straight on to generation in the same call.
   */
  lemma GoodRequestIsSubmitted(res: NodeResources, s: CalculatorState, nextId: nat, p: Payload, loopback: Option<bool>,
                               engine: Engine, endpoint: Endpoint)
    requires NotIngested(s) && ClassifyEndpoint(p.uri) == Some(endpoint)
    requires res.parseRequest(p.parsedJson, endpoint).status == Ok
    requires FinalPrompt(res, endpoint, res.parseRequest(p.parsedJson, endpoint).request, p.body).Prompt?
    requires !engine.submitThrows
    ensures var request := res.parseRequest(p.parsedJson, endpoint).request;
            var prompt := FinalPrompt(res, endpoint, request, p.body);
            var promptIds := res.encode(prompt.text, endpoint == Completions);
            var ingested := IngestRequest(res, s, nextId, p, false, false);
            && ingested.status == Ok
            && ingested.drawnId == Some(nextId)
            && ingested.state == s.(apiHandler := Some(ApiHandler(endpoint, request, |promptIds|, 0)),
                                    generationHandle := Some(GenerationHandle(nextId, promptIds)),
                                    streamer := Some(Streamer([])),
                                    client := p.client)
            && Step(res, s, nextId, Some(p), loopback, false, engine)
               == GenerationCycle(res, ingested.state, false, engine).(drawnId := Some(nextId))
  {
  }

  /** Once a request is submitted, a disconnected client cancels every later call, which changes nothing. */
  lemma DisconnectionCancelsLaterCalls(res: NodeResources, s: CalculatorState, nextId: nat, engine: Engine)
    ensures Step(res, s, nextId, None, Some(true), true, engine)
         == (if Submitted(s) then StepResult(Cancelled, s, None) else StepResult(CheckFailed, s, None))
  {
  }

  /** Unary mode: one response from read_all, or Cancelled when the handle was dropped; never a loopback. */
  lemma UnaryCycleEmitsOneResponse(res: NodeResources, s: CalculatorState, engine: Engine)
    requires Submitted(s) && !s.apiHandler.value.request.isStream
    ensures var r := GenerationCycle(res, s, false, engine);
            && (engine.readThrows ==> r == StepResult(InvalidArgument, s, None))
            && (!engine.readThrows && engine.status == DroppedByHandle ==> r == StepResult(Cancelled, s, None))
            && (!engine.readThrows && engine.status != DroppedByHandle && |engine.generationOutputs| == 0 ==>
                  r == StepResult(CheckFailed, s, None))
            && (!engine.readThrows && engine.status != DroppedByHandle && |engine.generationOutputs| >= 1 ==>
                  && r.status == Ok
                  && r.state.outputs == s.outputs + [Packet(res.serializeUnaryResponse(s.apiHandler.value, engine.generationOutputs), s.timestamp)]
                  && r.state.loopbacks == s.loopbacks
                  && r.state.timestamp == s.timestamp + 1)
  {
  }

  /** Streaming mode: a dropped handle cancels the call, which changes nothing. */
  lemma DroppedStreamIsCancelled(res: NodeResources, s: CalculatorState, engine: Engine)
    requires Submitted(s) && s.apiHandler.value.request.isStream && engine.status == DroppedByHandle
    ensures GenerationCycle(res, s, false, engine) == StepResult(Cancelled, s, None)
  {
  }

  /** Streaming mode: with the handle not running and nothing to read, nothing is emitted, not even a loopback. */
  lemma IdleStreamEmitsNothing(res: NodeResources, s: CalculatorState, engine: Engine)
    requires Submitted(s) && s.apiHandler.value.request.isStream
    requires engine.status != DroppedByHandle && engine.status != Running && !engine.canRead
    ensures GenerationCycle(res, s, false, engine) == StepResult(Ok, s.(timestamp := s.timestamp + 1), None)
  {
  }

  /** The conditions under which a streaming call reads exactly one increment. */
  predicate ReadsOneIncrement(s: CalculatorState, engine: Engine)
  {
    && Submitted(s) && s.apiHandler.value.request.isStream
    && engine.status != DroppedByHandle && (engine.status == Running || engine.canRead)
    && !engine.readThrows && |engine.generationOutputs| == 1
  }

  /** The chunk text of the increment read in a streaming call. */
  function IncrementText(res: NodeResources, s: CalculatorState, engine: Engine): Fed
    requires ReadsOneIncrement(s, engine)
  {
    Feed(res.onPut, s.streamer.value.pushed, s.lastStreamerCallbackOutput, engine.generationOutputs[0].generatedIds)
  }

  /**
   * Streaming, generation not finished: the chunk is emitted only when it is not empty, a loopback is
   * always emitted, and the chunk is the callback fragments of the increment's tokens in order.
   */
  lemma ContinuingStreamStep(res: NodeResources, s: CalculatorState, engine: Engine)
    requires ReadsOneIncrement(s, engine) && engine.generationOutputs[0].finishReason == NotFinished
    ensures var r := GenerationCycle(res, s, false, engine);
            var ids := engine.generationOutputs[0].generatedIds;
            var fed := IncrementText(res, s, engine);
            && r.status == Ok
            && r.state.timestamp == s.timestamp + 1
            && r.state.loopbacks == s.loopbacks + [Packet(true, s.timestamp)]
            && (|fed.text| > 0 ==> r.state.outputs == s.outputs + [Packet(Pack(res.serializeStreamingChunk(r.state.apiHandler.value, fed.text, NotFinished)), s.timestamp)])
            && (|fed.text| == 0 ==> r.state.outputs == s.outputs)
            && r.state.streamer == Some(Streamer(s.streamer.value.pushed + ids))
            && r.state.apiHandler.value.processedTokens == s.apiHandler.value.processedTokens + |ids|
            && (CallsBackOnEveryPut(res.onPut, s.streamer.value.pushed, ids) ==>
                  fed.text == Concat(Fragments(res.onPut, s.streamer.value.pushed, ids)))
  {
    var ids := engine.generationOutputs[0].generatedIds;
    if CallsBackOnEveryPut(res.onPut, s.streamer.value.pushed, ids) {
      FeedConcatenatesFragments(res.onPut, s.streamer.value.pushed, s.lastStreamerCallbackOutput, ids);
    }
  }

  /**
   * Streaming, generation finished: exactly one output and no loopback. The output is the final chunk's
   * event, then the usage event exactly when the request asked for usage, then the [DONE] event last.
   */
  lemma FinishingStreamStep(res: NodeResources, s: CalculatorState, engine: Engine)
    requires ReadsOneIncrement(s, engine) && engine.generationOutputs[0].finishReason != NotFinished
    ensures var r := GenerationCycle(res, s, false, engine);
            var fed := IncrementText(res, s, engine);
            var last := CallbackOutput(res.onEnd(fed.pushed), fed.last);
            var handler := r.state.apiHandler.value;
            var chunkEvent := Pack(res.serializeStreamingChunk(handler, FinalChunk(fed.text, last), engine.generationOutputs[0].finishReason));
            && r.status == Ok
            && r.state.timestamp == s.timestamp + 1
            && r.state.loopbacks == s.loopbacks
            && |r.state.outputs| == |s.outputs| + 1
            && r.state.outputs[..|s.outputs|] == s.outputs
            && r.state.outputs[|s.outputs|].timestamp == s.timestamp
            && var response := r.state.outputs[|s.outputs|].value;
               && |response| >= |chunkEvent| + |DoneEvent()|
               && response[..|chunkEvent|] == chunkEvent
               && response[|response| - |DoneEvent()|..] == DoneEvent()
               && (handler.request.includeUsage <==> |response| > |chunkEvent| + |DoneEvent()|)
               && (handler.request.includeUsage ==>
                     response[|chunkEvent|..|response| - |DoneEvent()|] == Pack(res.serializeStreamingUsageChunk(handler)))
  {
    var r := GenerationCycle(res, s, false, engine);
    assert r.state.outputs[..|s.outputs|] == s.outputs;
  }

  /**
   * When end() does not invoke the callback, the final chunk gets lastStreamerCallbackOutput appended
   * once more: with a callback on every put, the last token's fragment then appears twice at its end.
   */
  lemma FinalChunkRepeatsLastFragment(res: NodeResources, s: CalculatorState, engine: Engine)
    requires ReadsOneIncrement(s, engine) && engine.generationOutputs[0].finishReason != NotFinished
    requires var ids := engine.generationOutputs[0].generatedIds;
             ids != [] && CallsBackOnEveryPut(res.onPut, s.streamer.value.pushed, ids)
             && res.onEnd(s.streamer.value.pushed + ids).None?
    ensures var ids := engine.generationOutputs[0].generatedIds;
            var fed := IncrementText(res, s, engine);
            var fragments := Fragments(res.onPut, s.streamer.value.pushed, ids);
            var lastFragment := fragments[|ids| - 1];
            && fed.text == Concat(fragments[..|ids| - 1]) + lastFragment
            && FinalChunk(fed.text, CallbackOutput(res.onEnd(fed.pushed), fed.last))
               == (if |lastFragment| > 0 then Concat(fragments[..|ids| - 1]) + lastFragment + lastFragment else fed.text)
  {
    var ids := engine.generationOutputs[0].generatedIds;
    FeedConcatenatesFragments(res.onPut, s.streamer.value.pushed, s.lastStreamerCallbackOutput, ids);
  }

  /** `after` is `before` with at most one element appended. */
  predicate AtMostOneMore<T(==)>(before: seq<T>, after: seq<T>)
  {
    |before| <= |after| <= |before| + 1 && after[..|before|] == before
  }

  /**
   * The effect every call has on the emitted streams and the timestamp: a call that fails emits nothing
   * and keeps the timestamp, a call that reaches the end advances it by one, and at most one output and
   * at most one loopback are appended.
   */
  predicate CallEffect(s: CalculatorState, r: StepResult, called: bool)
  {
    && (r.status != Ok ==> r.state.timestamp == s.timestamp && r.state.outputs == s.outputs && r.state.loopbacks == s.loopbacks)
    && (r.status == Ok && called ==> r.state.timestamp == s.timestamp + 1)
    && AtMostOneMore(s.outputs, r.state.outputs)
    && AtMostOneMore(s.loopbacks, r.state.loopbacks)
  }

  lemma StreamingCycleEffect(res: NodeResources, s: CalculatorState, engine: Engine)
    requires s.apiHandler.Some? && s.streamer.Some?
    ensures CallEffect(s, StreamingCycle(res, s, engine), true)
  {
    var r := StreamingCycle(res, s, engine);
    assert r.state.outputs[..|s.outputs|] == s.outputs;
    assert r.state.loopbacks[..|s.loopbacks|] == s.loopbacks;
  }

  lemma GenerationCycleEffect(res: NodeResources, s: CalculatorState, disconnected: bool, engine: Engine)
    ensures CallEffect(s, GenerationCycle(res, s, disconnected, engine), true)
  {
    var r := GenerationCycle(res, s, disconnected, engine);
    if Submitted(s) && !disconnected {
      if s.apiHandler.value.request.isStream {
        StreamingCycleEffect(res, s, engine);
      } else {
        assert r.state.outputs[..|s.outputs|] == s.outputs;
      }
    }
  }

  /** Ingestion never emits and never moves the timestamp. */
  lemma IngestEmitsNothing(res: NodeResources, s: CalculatorState, nextId: nat, p: Payload, disconnected: bool, submitThrows: bool)
    ensures var r := IngestRequest(res, s, nextId, p, disconnected, submitThrows);
            r.state.timestamp == s.timestamp && r.state.outputs == s.outputs && r.state.loopbacks == s.loopbacks
  {
  }

  /** Every call, whatever its inputs, has the effect CallEffect describes. */
  lemma EveryCallHasCallEffect(res: NodeResources, s: CalculatorState, nextId: nat, input: Option<Payload>, loopback: Option<bool>,
                               disconnected: bool, engine: Engine)
    ensures CallEffect(s, Step(res, s, nextId, input, loopback, disconnected, engine), input.Some? || loopback.Some?)
  {
    if input.Some? && NotIngested(s) {
      var ingested := IngestRequest(res, s, nextId, input.value, disconnected, engine.submitThrows);
      IngestEmitsNothing(res, s, nextId, input.value, disconnected, engine.submitThrows);
      if ingested.status == Ok {
        GenerationCycleEffect(res, ingested.state, disconnected, engine);
      }
    } else if input.None? && loopback.Some? {
      GenerationCycleEffect(res, s, disconnected, engine);
    }
  }
}
