/** The values the calculator works with, and the collaborators it calls. */
module LlmTypes {
  import opened Wrappers
  import opened Connection

  /** The absl status codes Process returns; CheckFailed is the status of a failing RET_CHECK. */
  datatype Status = Ok | InvalidArgument | Cancelled | CheckFailed

  datatype Endpoint = ChatCompletions | Completions

  /** ov::genai::GenerationStatus. */
  datatype GenerationStatus = Running | Finished | Ignored | DroppedByPipeline | DroppedByHandle

  /** ov::genai::GenerationFinishReason; NotFinished is the library's NONE. */
  datatype FinishReason = NotFinished | Stop | Length

  type Token = int

  /** One ov::genai::GenerationOutput: the token ids generated since the last read. */
  datatype GenerationOutput = GenerationOutput(generatedIds: seq<Token>, finishReason: FinishReason)

  /** What parseRequest leaves in the API handler: the fields Process reads back. */
  datatype ParsedRequest = ParsedRequest(
    isStream: bool,
    includeUsage: bool,    // stream_options.include_usage
    processedJson: string, // getProcessedJson(); empty when the handler did not rewrite the body
    prompt: Option<string>) // getPrompt()

  /** The status parseRequest returns, with the request as it leaves it. */
  datatype ParseResult = ParseResult(status: Status, request: ParsedRequest)

  /** OpenAIChatCompletionsHandler: the endpoint, the parsed request and the token usage counters. */
  datatype ApiHandler = ApiHandler(endpoint: Endpoint, request: ParsedRequest, promptTokens: nat, processedTokens: nat)

  /** The generation handle add_request returns, with the request id and prompt ids it was submitted with. */
  datatype GenerationHandle = GenerationHandle(requestId: nat, promptIds: seq<Token>)

  /** The TextCallbackStreamer, as the sequence of tokens put into it so far. */
  datatype Streamer = Streamer(pushed: seq<Token>)

  /** A packet on one of the calculator's output streams. */
  datatype Packet<T> = Packet(value: T, timestamp: nat)

  /** The HttpPayload of the first call; the parsed JSON document is kept as its text. */
  datatype Payload = Payload(uri: string, body: string, parsedJson: string, client: ClientConnection)

  /**
   * What the continuous-batching pipeline and the generation handle answer during one call of Process:
   * whether add_request throws, the handle's status and can_read, whether read / read_all throws, and the
   * outputs read / read_all returns.
   */
  datatype Engine = Engine(
    submitThrows: bool,
    status: GenerationStatus,
    canRead: bool,
    readThrows: bool,
    generationOutputs: seq<GenerationOutput>)

  /**
   * The node resources' collaborators, as functions: request parsing, chat templating, the tokenizer,
   * the streamer's decoding and the response serializers. `onPut(h)` is the text the streamer hands to its
   * callback after the last token of history `h` is put (None: the callback is not invoked); `onEnd(h)`
   * likewise for end().
   */
  datatype NodeResources = NodeResources(
    parseRequest: (string, Endpoint) -> ParseResult,
    applyChatTemplate: string -> (bool, string),
    encode: (string, bool) -> seq<Token>,
    onPut: seq<Token> -> Option<string>,
    onEnd: seq<Token> -> Option<string>,
    serializeUnaryResponse: (ApiHandler, seq<GenerationOutput>) -> string,
    serializeStreamingChunk: (ApiHandler, string, FinishReason) -> string,
    serializeStreamingUsageChunk: ApiHandler -> string)
}
