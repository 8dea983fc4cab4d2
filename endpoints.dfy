/** Classification of the request URI into one of the two OpenAI-style endpoints. */
module Endpoints {
  import opened Wrappers
  import opened LlmTypes

  /** The four URIs the calculator accepts. */
  function AcceptedUris(): set<string>
  {
    {"/v3/chat/completions", "/v3/v1/chat/completions", "/v3/completions", "/v3/v1/completions"}
  }

  function ClassifyEndpoint(uri: string): (endpoint: Option<Endpoint>)
    ensures endpoint == Some(ChatCompletions) <==> uri == "/v3/chat/completions" || uri == "/v3/v1/chat/completions"
    ensures endpoint == Some(Completions) <==> uri == "/v3/completions" || uri == "/v3/v1/completions"
    ensures endpoint.None? <==> uri !in AcceptedUris()
  {
    if uri == "/v3/chat/completions" || uri == "/v3/v1/chat/completions" then
      Some(ChatCompletions)
    else if uri == "/v3/completions" || uri == "/v3/v1/completions" then
      Some(Completions)
    else
      None
  }

  /** Exactly four distinct URIs are accepted, two per endpoint. */
  lemma ExactlyFourUrisAccepted()
    ensures |AcceptedUris()| == 4
    ensures |set u | u in AcceptedUris() && ClassifyEndpoint(u) == Some(ChatCompletions)| == 2
    ensures |set u | u in AcceptedUris() && ClassifyEndpoint(u) == Some(Completions)| == 2
  {
    var chat, chatV1, completions, completionsV1 :=
      "/v3/chat/completions", "/v3/v1/chat/completions", "/v3/completions", "/v3/v1/completions";
    assert |chat| == 20 && |chatV1| == 23 && |completions| == 15 && |completionsV1| == 18;
    assert |{chat, chatV1}| == 2;
    assert {chat, chatV1, completions} == {chat, chatV1} + {completions};
    assert |{chat, chatV1, completions}| == 3;
    assert AcceptedUris() == {chat, chatV1, completions} + {completionsV1};
    assert (set u | u in AcceptedUris() && ClassifyEndpoint(u) == Some(ChatCompletions)) == {chat, chatV1};
    assert (set u | u in AcceptedUris() && ClassifyEndpoint(u) == Some(Completions)) == {completions, completionsV1};
  }
}
