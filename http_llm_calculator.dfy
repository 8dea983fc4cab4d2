/** The HttpLLMCalculator node: its member state and Process, proved against Lifecycle.Step. */
module HttpLlmCalculator {
  import opened Wrappers
  import opened LlmTypes
  import opened Connection
  import opened ServerSentEvents
  import opened Endpoints
  import opened TextStreaming
  import opened RequestIds
  import opened Lifecycle
  import LifecycleProperties

  /** What the client connection relevant to a call reports: the payload's on the first call, else the stored one. */
  function ObservedDisconnection(input: Option<Payload>, client: ClientConnection?): bool
    reads (if input.Some? then {input.value.client} else {}), (if client != null then {client} else {})
  {
    if input.Some? then input.value.client.disconnected else client != null && client.disconnected
  }

  /** The objects a call may change besides the calculator and the counter: the payload's client. */
  function PayloadClient(input: Option<Payload>): set<ClientConnection>
  {
    if input.Some? then {input.value.client} else {}
  }

  class HttpLLMCalculator {
    /** The node resources found by Open. */
    const resources: NodeResources
    /** The process-wide request id counter, shared by all calculators. */
    const ids: RequestIdCounter

    var apiHandler: Option<ApiHandler>
    var generationHandle: Option<GenerationHandle>
    var streamer: Option<Streamer>
    var client: ClientConnection?
    var lastStreamerCallbackOutput: string
    var timestamp: nat
    /** Packets added to the HTTP_RESPONSE_PAYLOAD output stream. */
    var outputs: seq<Packet<string>>
    /** Packets added to the LOOPBACK output stream. */
    var loopbacks: seq<Packet<bool>>

    ghost function State(): CalculatorState
      reads this
    {
      CalculatorState(apiHandler, generationHandle, streamer, client, lastStreamerCallbackOutput, timestamp, outputs, loopbacks)
    }

    ghost predicate Valid()
      reads this, ids
    {
      ValidState(State()) && ids.Valid()
    }

    /** The calculator as Open leaves it. */
    constructor (resources: NodeResources, ids: RequestIdCounter)
      requires ids.Valid()
      ensures Valid() && State() == Initial()
      ensures this.resources == resources && this.ids == ids
    {
      this.resources := resources;
      this.ids := ids;
      apiHandler, generationHandle, streamer, client := None, None, None, null;
      lastStreamerCallbackOutput := "";
      timestamp := 0;
      outputs, loopbacks := [], [];
    }

    /** One call of Process by the framework. */
    method Process(input: Option<Payload>, loopback: Option<bool>, engine: Engine) returns (status: Status)
      requires Valid()
      modifies this, ids, PayloadClient(input)
      ensures Valid()
      ensures var r := Step(resources, old(State()), old(ids.next), input, loopback,
                            old(ObservedDisconnection(input, client)), engine);
              && status == r.status
              && State() == r.state
              && ids.next == NextRequestId(old(ids.next), r)
              && ids.issued == old(ids.issued) + (if r.drawnId.Some? then [r.drawnId.value] else [])
      ensures input.Some? ==>
        && input.value.client.dropCallbacks == old(input.value.client.dropCallbacks) + Registration(old(State()), State())
        && input.value.client.disconnected == old(input.value.client.disconnected)
    {
      if input.Some? {
        status := ProcessPayload(input.value, engine);
      } else {
        status := ProcessLoopback(loopback, engine);
      }
    }

    /** A call without payload: a loopback call, or a call with no input at all. */
    method ProcessLoopback(loopback: Option<bool>, engine: Engine) returns (status: Status)
      requires Valid()
      modifies this
      ensures Valid()
      ensures var r := Step(resources, old(State()), ids.next, None, loopback, old(client != null && client.disconnected), engine);
              status == r.status && State() == r.state && r.drawnId.None?
    {
      LifecycleProperties.StepPreservesValid(resources, State(), ids.next, None, loopback, client != null && client.disconnected, engine);
      if loopback.Some? {
        status := Generate(engine);
      } else {
        // MediaPipe may call Process with no inputs at all
        status := Ok;
      }
    }

    /** The call that carries the payload. */
    method ProcessPayload(p: Payload, engine: Engine) returns (status: Status)
      requires Valid()
      modifies this, ids, p.client
      ensures Valid()
      ensures var r := FirstCall(resources, old(State()), old(ids.next), p, old(p.client.disconnected), engine);
              && status == r.status
              && State() == r.state
              && ids.issued == old(ids.issued) + (if r.drawnId.Some? then [r.drawnId.value] else [])
      ensures p.client.dropCallbacks == old(p.client.dropCallbacks) + Registration(old(State()), State())
      ensures p.client.disconnected == old(p.client.disconnected)
    {
      LifecycleProperties.FirstCallPreservesValid(resources, State(), ids.next, p, p.client.disconnected, engine);
      // a second payload for the same request fails these checks
      if apiHandler.Some? || generationHandle.Some? || streamer.Some? || client != null {
        return CheckFailed;
      }
      ghost var ingested := IngestRequest(resources, State(), ids.next, p, p.client.disconnected, engine.submitThrows);
      status := ReceivePayload(p, engine.submitThrows);
      if status != Ok {
        return;
      }
      ghost var s1 := State();
      status := Generate(engine);
      assert State() == GenerationCycle(resources, s1, p.client.disconnected, engine).state;
    }

    /** The first call's ingestion of the payload (the request is submitted at most once). */
    method ReceivePayload(p: Payload, submitThrows: bool) returns (status: Status)
      requires Valid() && NotIngested(State())
      modifies this, ids, p.client
      ensures ids.Valid()
      ensures var r := IngestRequest(resources, old(State()), old(ids.next), p, old(p.client.disconnected), submitThrows);
              && status == r.status
              && State() == r.state
              && ids.issued == old(ids.issued) + (if r.drawnId.Some? then [r.drawnId.value] else [])
      ensures p.client.dropCallbacks == old(p.client.dropCallbacks) + Registration(old(State()), State())
      ensures p.client.disconnected == old(p.client.disconnected)
    {
      var endpoint := ClassifyEndpoint(p.uri);
      if endpoint.None? {
        return InvalidArgument;
      }
      var parsed := resources.parseRequest(p.parsedJson, endpoint.value);
      apiHandler := Some(ApiHandler(endpoint.value, parsed.request, 0, 0));
      client := p.client;
      if parsed.status != Ok {
        return parsed.status;
      }
      var prompt := FinalPrompt(resources, endpoint.value, parsed.request, p.body);
      if prompt.PromptRejected? {
        return InvalidArgument;
      }
      if client.disconnected {
        // the client went away while the request waited in the HTTP queue
        return Cancelled;
      }
      var promptIds := resources.encode(prompt.text, prompt.addSpecialTokens);
      apiHandler := Some(apiHandler.value.(promptTokens := |promptIds|));
      var requestId := ids.FetchAndIncrement();
      if submitThrows {
        // add_request threw; the catch clauses turn every exception into InvalidArgument
        return InvalidArgument;
      }
      generationHandle := Some(GenerationHandle(requestId, promptIds));
      client.RegisterDisconnectionCallback(requestId);
      streamer := Some(Streamer([]));
      status := Ok;
    }

    /** Reading the engine and emitting output, as every call does once a request is ingested. */
    method Generate(engine: Engine) returns (status: Status)
      modifies this
      ensures var r := GenerationCycle(resources, old(State()), old(client != null && client.disconnected), engine);
              status == r.status && State() == r.state
    {
      if generationHandle.None? || apiHandler.None? || streamer.None? || client == null {
        return CheckFailed;
      }
      if client.disconnected {
        return Cancelled;
      }
      if !apiHandler.value.request.isStream {
        status := UnaryGenerate(engine);
      } else {
        status := StreamingGenerate(engine);
      }
    }

    /** Unary mode: read_all blocks until the generation is finished or dropped. */
    method UnaryGenerate(engine: Engine) returns (status: Status)
      requires apiHandler.Some?
      modifies this`outputs, this`timestamp
      ensures var r := UnaryCycle(resources, old(State()), engine);
              status == r.status && State() == r.state
    {
      if engine.readThrows {
        return InvalidArgument;
      }
      var generationOutputs := engine.generationOutputs;
      if engine.status == DroppedByHandle {
        return Cancelled;
      }
      if |generationOutputs| < 1 {
        return CheckFailed;
      }
      var response := resources.serializeUnaryResponse(apiHandler.value, generationOutputs);
      outputs := outputs + [Packet(response, timestamp)];
      timestamp := timestamp + 1;
      status := Ok;
    }

    /** Streaming mode: each call reads at most one increment. */
    method StreamingGenerate(engine: Engine) returns (status: Status)
      requires apiHandler.Some? && streamer.Some?
      modifies this
      ensures var r := StreamingCycle(resources, old(State()), engine);
              status == r.status && State() == r.state
    {
      if engine.status == DroppedByHandle {
        return Cancelled;
      }
      if !(engine.status == Running || engine.canRead) {
        timestamp := timestamp + 1;
        return Ok;
      }
      if engine.readThrows {
        return InvalidArgument;
      }
      var generationOutputs := engine.generationOutputs;
      if |generationOutputs| != 1 {
        return CheckFailed;
      }
      status := ConsumeOutput(generationOutputs[0]);
    }

    /** Feeds the tokens of the one output read to the streamer and emits what the cycle calls for. */
    method ConsumeOutput(output: GenerationOutput) returns (status: Status)
      requires apiHandler.Some? && streamer.Some?
      modifies this
      ensures var r := ConsumeIncrement(resources, old(State()), output);
              status == r.status && State() == r.state
    {
      apiHandler := Some(apiHandler.value.(processedTokens := apiHandler.value.processedTokens + |output.generatedIds|));
      var chunk := PutTokens(output.generatedIds);
      if output.finishReason == NotFinished {
        status := EmitChunk(chunk);
      } else {
        status := EmitFinalResponse(chunk, output.finishReason);
      }
    }

    method EmitChunk(chunk: string) returns (status: Status)
      requires apiHandler.Some?
      modifies this`outputs, this`loopbacks, this`timestamp
      ensures var r := ContinueStream(resources, old(State()), chunk);
              status == r.status && State() == r.state
    {
      if |chunk| > 0 {
        var response := Pack(resources.serializeStreamingChunk(apiHandler.value, chunk, NotFinished));
        outputs := outputs + [Packet(response, timestamp)];
      }
      loopbacks := loopbacks + [Packet(true, timestamp)];
      timestamp := timestamp + 1;
      status := Ok;
    }

    method EmitFinalResponse(chunk: string, reason: FinishReason) returns (status: Status)
      requires apiHandler.Some? && streamer.Some?
      modifies this`outputs, this`lastStreamerCallbackOutput, this`timestamp
      ensures var r := FinishStream(resources, old(State()), chunk, reason);
              status == r.status && State() == r.state
    {
      StreamerEnd();
      var text := chunk;
      // the callback output of the last put is not part of what end() flushes, so it is added here
      if |lastStreamerCallbackOutput| > 0 {
        text := text + lastStreamerCallbackOutput;
      }
      var usage := if apiHandler.value.request.includeUsage
                    then Some(resources.serializeStreamingUsageChunk(apiHandler.value)) else None;
      var response := FinalStreamingResponse(resources.serializeStreamingChunk(apiHandler.value, text, reason), usage);
      outputs := outputs + [Packet(response, timestamp)];
      timestamp := timestamp + 1;
      status := Ok;
    }

    /** Puts every generated token into the streamer, appending the callback's last output after each. */
    method PutTokens(tokens: seq<Token>) returns (chunk: string)
      requires streamer.Some?
      modifies this`streamer, this`lastStreamerCallbackOutput
      ensures var fed := Feed(resources.onPut, old(streamer.value.pushed), old(lastStreamerCallbackOutput), tokens);
              && chunk == fed.text
              && streamer == Some(Streamer(fed.pushed))
              && lastStreamerCallbackOutput == fed.last
    {
      ghost var pushed0, last0 := streamer.value.pushed, lastStreamerCallbackOutput;
      chunk := "";
      var i := 0;
      while i < |tokens|
        invariant 0 <= i <= |tokens|
        invariant streamer.Some?
        invariant var fed := Feed(resources.onPut, pushed0, last0, tokens[..i]);
                  chunk == fed.text && streamer.value.pushed == fed.pushed && lastStreamerCallbackOutput == fed.last
      {
        assert tokens[..i + 1][..i] == tokens[..i];
        StreamerPut(tokens[i]);
        chunk := chunk + lastStreamerCallbackOutput;
        i := i + 1;
      }
      assert tokens[..|tokens|] == tokens;
    }

    /** streamer->put(token): the callback, when the streamer invokes it, overwrites lastStreamerCallbackOutput. */
    method StreamerPut(token: Token)
      requires streamer.Some?
      modifies this`streamer, this`lastStreamerCallbackOutput
      ensures streamer == Some(Streamer(old(streamer.value.pushed) + [token]))
      ensures lastStreamerCallbackOutput == CallbackOutput(resources.onPut(streamer.value.pushed), old(lastStreamerCallbackOutput))
    {
      streamer := Some(Streamer(streamer.value.pushed + [token]));
      var callback := resources.onPut(streamer.value.pushed);
      if callback.Some? {
        lastStreamerCallbackOutput := callback.value;
      }
    }

    /** streamer->end(): flushes what the streamer still holds through the callback, if it invokes it. */
    method StreamerEnd()
      requires streamer.Some?
      modifies this`lastStreamerCallbackOutput
      ensures lastStreamerCallbackOutput == CallbackOutput(resources.onEnd(streamer.value.pushed), old(lastStreamerCallbackOutput))
    {
      var callback := resources.onEnd(streamer.value.pushed);
      if callback.Some? {
        lastStreamerCallbackOutput := callback.value;
      }
    }
  }
}
