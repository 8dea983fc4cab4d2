/**
 * One call of HttpLLMCalculator::Process as a function from the calculator's state before the call to
 * its status and its state after the call.
 */
module Lifecycle {
  import opened Wrappers
  import opened LlmTypes
  import opened Connection
  import opened ServerSentEvents
  import opened Endpoints
  import opened TextStreaming
  import opened RequestIds

  /** The calculator's member state and the two output streams it writes to. */
  datatype CalculatorState = CalculatorState(
    apiHandler: Option<ApiHandler>,
    generationHandle: Option<GenerationHandle>,
    streamer: Option<Streamer>,
    client: ClientConnection?,
    lastStreamerCallbackOutput: string,
    timestamp: nat,
    outputs: seq<Packet<string>>,
    loopbacks: seq<Packet<bool>>)

  /** The returned status, the new state, and the request id taken from the counter, if one was. */
  datatype StepResult = StepResult(status: Status, state: CalculatorState, drawnId: Option<nat>)

  /** The state right after Open: nothing ingested, timestamp 0, nothing emitted. */
  function Initial(): CalculatorState
  {
    CalculatorState(None, None, None, null, "", 0, [], [])
  }

  /** No payload has been ingested yet (the four RET_CHECKs of the first call pass). */
  predicate NotIngested(s: CalculatorState)
  {
    s.apiHandler.None? && s.generationHandle.None? && s.streamer.None? && s.client == null
  }

  /** A payload was submitted to the engine: everything the later calls check for is set. */
  predicate Submitted(s: CalculatorState)
  {
    s.apiHandler.Some? && s.generationHandle.Some? && s.streamer.Some? && s.client != null
  }

  /** Packets carry strictly increasing timestamps, all below `bound`. */
  ghost predicate Increasing<T>(packets: seq<Packet<T>>, bound: nat)
  {
    && (forall i, j :: 0 <= i < j < |packets| ==> packets[i].timestamp < packets[j].timestamp)
    && (forall i :: 0 <= i < |packets| ==> packets[i].timestamp < bound)
  }

  /** The invariant Process keeps between calls. */
  ghost predicate ValidState(s: CalculatorState)
  {
    && Increasing(s.outputs, s.timestamp)
    && Increasing(s.loopbacks, s.timestamp)
    && (s.generationHandle.Some? ==> Submitted(s))
    && (s.streamer.Some? ==> s.generationHandle.Some?)
    && (s.generationHandle.Some? ==> s.generationHandle.value.requestId < U64_LIMIT)
  }

  /** The prompt handed to the tokenizer, with its add_special_tokens flag, or why there is none. */
  datatype PromptOutcome = Prompt(text: string, addSpecialTokens: bool) | PromptRejected

  /** The text the chat template is applied to: the processed JSON if the handler produced one, else the body. */
  function TemplateInput(request: ParsedRequest, body: string): (text: string)
    ensures |request.processedJson| > 0 ==> text == request.processedJson
    ensures |request.processedJson| == 0 ==> text == body
  {
    if |request.processedJson| > 0 then request.processedJson else body
  }

  /** The final prompt: the rendered chat template for chat, the request's prompt for completions. */
  function FinalPrompt(res: NodeResources, endpoint: Endpoint, request: ParsedRequest, body: string): (r: PromptOutcome)
    ensures endpoint == ChatCompletions ==>
      (r.Prompt? <==> res.applyChatTemplate(TemplateInput(request, body)).0 && |res.applyChatTemplate(TemplateInput(request, body)).1| > 0)
    ensures endpoint == ChatCompletions && r.Prompt? ==>
      r.text == res.applyChatTemplate(TemplateInput(request, body)).1 && |r.text| > 0 && !r.addSpecialTokens
    ensures endpoint == Completions ==> (r.Prompt? <==> request.prompt.Some?)
    ensures endpoint == Completions && r.Prompt? ==> Some(r.text) == request.prompt && r.addSpecialTokens
  {
    match endpoint
    case ChatCompletions =>
      var (success, text) := res.applyChatTemplate(TemplateInput(request, body));
      if !success || |text| == 0 then PromptRejected else Prompt(text, false)
    case Completions =>
      // getPrompt().value() throws on an absent prompt; the exception becomes InvalidArgument
      if request.prompt.None? then PromptRejected else Prompt(request.prompt.value, true)
  }

  /** The first call's ingestion, up to and including the creation of the streamer; Ok means "go on". */
  function IngestRequest(res: NodeResources, s: CalculatorState, nextId: nat, p: Payload, disconnected: bool, submitThrows: bool): (r: StepResult)
    ensures r.state.timestamp == s.timestamp && r.state.outputs == s.outputs && r.state.loopbacks == s.loopbacks
    ensures r.drawnId.Some? ==> r.drawnId == Some(nextId) && !disconnected && ClassifyEndpoint(p.uri).Some?
    ensures r.status == Ok ==> r.drawnId.Some? && Submitted(r.state) && r.state.client == p.client
  {
    match ClassifyEndpoint(p.uri)
    case None => StepResult(InvalidArgument, s, None)
    case Some(endpoint) =>
      var parsed := res.parseRequest(p.parsedJson, endpoint);
      var handler := ApiHandler(endpoint, parsed.request, 0, 0);
      var s1 := s.(apiHandler := Some(handler), client := p.client);
      if parsed.status != Ok then
        StepResult(parsed.status, s1, None)
      else
        match FinalPrompt(res, endpoint, parsed.request, p.body)
        case PromptRejected => StepResult(InvalidArgument, s1, None)
        case Prompt(text, addSpecialTokens) =>
          if disconnected then
            StepResult(Cancelled, s1, None)
          else
            var promptIds := res.encode(text, addSpecialTokens);
            var s2 := s1.(apiHandler := Some(handler.(promptTokens := |promptIds|)));
            if submitThrows then
              StepResult(InvalidArgument, s2, Some(nextId))
            else
              StepResult(Ok, s2.(generationHandle := Some(GenerationHandle(nextId, promptIds)),
                                 streamer := Some(Streamer([]))), Some(nextId))
  }

  /** A call that reaches the end of Process: the timestamp moves to the next allowed one. */
  function Completed(s: CalculatorState): (r: StepResult)
    ensures r.status == Ok && r.drawnId.None?
    ensures r.state.timestamp == s.timestamp + 1 && r.state.(timestamp := s.timestamp) == s
  {
    StepResult(Ok, s.(timestamp := s.timestamp + 1), None)
  }

  /** Unary mode: one blocking read_all and one serialized response. */
  function UnaryCycle(res: NodeResources, s: CalculatorState, engine: Engine): (r: StepResult)
    requires s.apiHandler.Some?
    ensures r.drawnId.None? && r.state.loopbacks == s.loopbacks
    ensures r.status != Ok ==> r.state == s
    ensures r.status == Ok <==> !engine.readThrows && engine.status != DroppedByHandle && |engine.generationOutputs| >= 1
  {
    if engine.readThrows then
      StepResult(InvalidArgument, s, None)
    else if engine.status == DroppedByHandle then
      StepResult(Cancelled, s, None)
    else if |engine.generationOutputs| < 1 then
      StepResult(CheckFailed, s, None)
    else
      var response := res.serializeUnaryResponse(s.apiHandler.value, engine.generationOutputs);
      Completed(s.(outputs := s.outputs + [Packet(response, s.timestamp)]))
  }

  /** The final streaming message: the last chunk, the optional usage chunk, then the [DONE] event. */
  function FinalStreamingResponse(chunk: string, usage: Option<string>): (response: string)
    ensures |response| >= |Pack(chunk)| + |DoneEvent()|
    ensures response[..|chunk| + 8] == Pack(chunk)
    ensures response[|response| - |DoneEvent()|..] == DoneEvent()
    ensures usage.None? ==> |response| == |Pack(chunk)| + |DoneEvent()|
    ensures usage.Some? ==> response[|chunk| + 8..|response| - |DoneEvent()|] == Pack(usage.value)
  {
    var withUsage := Pack(chunk) + (if usage.Some? then Pack(usage.value) else "");
    assert (withUsage + DoneEvent())[..|chunk| + 8] == Pack(chunk);
    withUsage + DoneEvent()
  }

  /** Streaming mode: at most one incremental read, fed token by token to the streamer. */
  function StreamingCycle(res: NodeResources, s: CalculatorState, engine: Engine): (r: StepResult)
    requires s.apiHandler.Some? && s.streamer.Some?
    ensures r.drawnId.None?
    ensures r.status != Ok ==> r.state == s
    ensures r.status == Ok <==>
              engine.status != DroppedByHandle
              && (!(engine.status == Running || engine.canRead) || (!engine.readThrows && |engine.generationOutputs| == 1))
  {
    if engine.status == DroppedByHandle then
      StepResult(Cancelled, s, None)
    else if !(engine.status == Running || engine.canRead) then
      Completed(s)
    else if engine.readThrows then
      StepResult(InvalidArgument, s, None)
    else if |engine.generationOutputs| != 1 then
      StepResult(CheckFailed, s, None)
    else
      ConsumeIncrement(res, s, engine.generationOutputs[0])
  }

  /** The single generation output read in a streaming call: count its tokens, feed them, then emit. */
  function ConsumeIncrement(res: NodeResources, s: CalculatorState, output: GenerationOutput): (r: StepResult)
    requires s.apiHandler.Some? && s.streamer.Some?
    ensures r.status == Ok && r.drawnId.None?
    ensures r.state.streamer == Some(Streamer(s.streamer.value.pushed + output.generatedIds))
    ensures r.state.apiHandler.Some?
    ensures r.state.apiHandler.value.processedTokens == s.apiHandler.value.processedTokens + |output.generatedIds|
    ensures r.state.generationHandle == s.generationHandle && r.state.client == s.client
    ensures r.state.timestamp == s.timestamp + 1
  {
    var handler := s.apiHandler.value.(processedTokens := s.apiHandler.value.processedTokens + |output.generatedIds|);
    var fed := Feed(res.onPut, s.streamer.value.pushed, s.lastStreamerCallbackOutput, output.generatedIds);
    var s1 := s.(apiHandler := Some(handler), streamer := Some(Streamer(fed.pushed)), lastStreamerCallbackOutput := fed.last);
    if output.finishReason == NotFinished then
      ContinueStream(res, s1, fed.text)
    else
      FinishStream(res, s1, fed.text, output.finishReason)
  }

  /** Generation goes on: emit the chunk if it is not empty, and always ask to be called again. */
  function ContinueStream(res: NodeResources, s: CalculatorState, chunk: string): (r: StepResult)
    requires s.apiHandler.Some?
    ensures r.status == Ok && r.drawnId.None?
    ensures r.state.loopbacks == s.loopbacks + [Packet(true, s.timestamp)]
    ensures |chunk| > 0 ==> r.state.outputs == s.outputs + [Packet(Pack(res.serializeStreamingChunk(s.apiHandler.value, chunk, NotFinished)), s.timestamp)]
    ensures |chunk| == 0 ==> r.state.outputs == s.outputs
  {
    var outputs := if |chunk| > 0 then
                     s.outputs + [Packet(Pack(res.serializeStreamingChunk(s.apiHandler.value, chunk, NotFinished)), s.timestamp)]
                   else s.outputs;
    Completed(s.(outputs := outputs, loopbacks := s.loopbacks + [Packet(true, s.timestamp)]))
  }

  /** The text of the last chunk: the chunk read, then the end() flush or else the stale callback output. */
  function FinalChunk(chunk: string, last: string): (text: string)
    ensures text == chunk + last
  {
    if |last| > 0 then chunk + last else chunk
  }

  /** Generation is over: end the streamer and emit one final message, without asking to be called again. */
  function FinishStream(res: NodeResources, s: CalculatorState, chunk: string, reason: FinishReason): (r: StepResult)
    requires s.apiHandler.Some? && s.streamer.Some?
    ensures r.status == Ok && r.drawnId.None?
    ensures r.state.loopbacks == s.loopbacks
    ensures |r.state.outputs| == |s.outputs| + 1 && r.state.outputs[..|s.outputs|] == s.outputs
    ensures var response := r.state.outputs[|s.outputs|].value;
            |response| >= |DoneEvent()| && response[|response| - |DoneEvent()|..] == DoneEvent()
  {
    var handler := s.apiHandler.value;
    var last := CallbackOutput(res.onEnd(s.streamer.value.pushed), s.lastStreamerCallbackOutput);
    var usage := if handler.request.includeUsage then Some(res.serializeStreamingUsageChunk(handler)) else None;
    var response := FinalStreamingResponse(res.serializeStreamingChunk(handler, FinalChunk(chunk, last), reason), usage);
    Completed(s.(lastStreamerCallbackOutput := last, outputs := s.outputs + [Packet(response, s.timestamp)]))
  }

  /** Everything Process does after ingestion, on the first call and on every loopback call. */
  function GenerationCycle(res: NodeResources, s: CalculatorState, disconnected: bool, engine: Engine): (r: StepResult)
    ensures r.drawnId.None?
    ensures r.status != Ok ==> r.state == s
    ensures r.status == Ok ==> Submitted(s) && !disconnected && Submitted(r.state)
    ensures r.state.generationHandle == s.generationHandle
  {
    if !Submitted(s) then
      StepResult(CheckFailed, s, None)
    else if disconnected then
      StepResult(Cancelled, s, None)
    else if !s.apiHandler.value.request.isStream then
      UnaryCycle(res, s, engine)
    else
      StreamingCycle(res, s, engine)
  }

  /**
   * One call of Process. `input` is the payload packet, `loopback` the loopback packet, `disconnected`
   * what the client connection reports during the call and `engine` what the engine answers.
   */
  function Step(res: NodeResources, s: CalculatorState, nextId: nat, input: Option<Payload>, loopback: Option<bool>,
                disconnected: bool, engine: Engine): (r: StepResult)
    ensures input.None? && loopback.None? ==> r == StepResult(Ok, s, None)
    ensures r.drawnId.Some? ==> input.Some? && NotIngested(s) && r.drawnId == Some(nextId)
  {
    if input.None? && loopback.None? then
      StepResult(Ok, s, None)
    else if input.Some? then
      FirstCall(res, s, nextId, input.value, disconnected, engine)
    else
      GenerationCycle(res, s, disconnected, engine)
  }

  /** A call carrying the payload: it is refused if a payload was already taken, else ingested and acted on. */
  function FirstCall(res: NodeResources, s: CalculatorState, nextId: nat, p: Payload, disconnected: bool, engine: Engine): (r: StepResult)
    ensures !NotIngested(s) ==> r == StepResult(CheckFailed, s, None)
    ensures r.drawnId.Some? ==> NotIngested(s) && r.drawnId == Some(nextId)
  {
    if !NotIngested(s) then
      StepResult(CheckFailed, s, None)
    else
      var ingested := IngestRequest(res, s, nextId, p, disconnected, engine.submitThrows);
      if ingested.status != Ok then ingested
      else GenerationCycle(res, ingested.state, disconnected, engine).(drawnId := ingested.drawnId)
  }

  /** The request ids a drop callback was registered for in a call: the new handle's, if the call submitted. */
  function Registration(before: CalculatorState, after: CalculatorState): (ids: seq<nat>)
    ensures |ids| <= 1
    ensures ids != [] <==> before.generationHandle.None? && after.generationHandle.Some?
  {
    if before.generationHandle.None? && after.generationHandle.Some? then [after.generationHandle.value.requestId] else []
  }

  /** The request counter after a call: moved on by one, with 64-bit wrap-around, exactly when the call took an id. */
  function NextRequestId(nextId: nat, r: StepResult): (n: nat)
    ensures nextId < U64_LIMIT ==> n < U64_LIMIT
    ensures r.drawnId.None? ==> n == nextId
  {
    if r.drawnId.Some? then (nextId + 1) % U64_LIMIT else nextId
  }
}
