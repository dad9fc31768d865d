/**
 * The model adapter `call_model`: it assembles the prompt list, normalises
 * the tools, hands the request to the completion service and picks what to
 * return from the service's response. The service and the two format
 * conversions it relies on are parameters.
 */
module Llm {
  import opened Wrappers
  import opened PyStr
  import opened Messages

  /**
   * What `call_model` hands to the completion service: the prompts, the
   * tools, the tracing metadata and callbacks, and the caller's model
   * configuration (model name, credentials, sampling parameters) as given.
   */
  datatype CompletionRequest<U> = CompletionRequest(
    messages: seq<Message>,
    tools: Option<seq<U>>,
    metadata: map<string, string>,
    callbacks: seq<string>,
    modelConf: map<string, string>)

  /** The completion service's response: the message of each choice. */
  datatype Completion = Completion(choices: seq<Message>)

  /** The same response in the chat-framework format: the message of each generation. */
  datatype ChatResult = ChatResult(generations: seq<Message>)

  /** What `call_model` returns. */
  datatype ModelOutput = FullCompletion(completion: Completion) | FullChatResult(chatResult: ChatResult) | Reply(message: Message)

  /** The exceptions `call_model` raises itself (not those of the service). */
  datatype LlmError = MissingModelKey | NoChoice | NoGeneration

  /** `if system_prompt:` — a prompt that is absent or empty counts as none. */
  predicate HasSystemPrompt(systemPrompt: Option<string>)
  {
    systemPrompt.Some? && systemPrompt.value != ""
  }

  /**
   * The prompt list: the system prompt first when there is one (as a human
   * message for `o1` models, which take no system prompt), then the caller's
   * messages unchanged. The model name is looked up only when there is a
   * system prompt.
   */
  method AssemblePrompts(messages: seq<Message>, modelConf: map<string, string>, systemPrompt: Option<string>)
    returns (r: Result<seq<Message>, LlmError>)
    ensures !HasSystemPrompt(systemPrompt) ==> r == Success(messages)
    ensures HasSystemPrompt(systemPrompt) && "model" !in modelConf ==> r == Failure(MissingModelKey)
    ensures HasSystemPrompt(systemPrompt) && "model" in modelConf ==>
      r.Success? && |r.value| > 0 && r.value[0] == (if StartsWith(modelConf["model"], "o1") then HumanMessage(systemPrompt.value)
                                   else SystemMessage(systemPrompt.value))
    ensures r.Success? ==>
      |r.value| == |messages| + (if HasSystemPrompt(systemPrompt) then 1 else 0) &&
      r.value[|r.value| - |messages|..] == messages
  {
    var chatPrompts: seq<Message> := [];
    if systemPrompt.Some? && systemPrompt.value != "" {
      chatPrompts := [SystemMessage(systemPrompt.value)];
      if "model" !in modelConf {
        return Failure(MissingModelKey);
      }
      if StartsWith(modelConf["model"], "o1") {
        chatPrompts := [HumanMessage(systemPrompt.value)];
      }
    }
    assert [] + messages == messages;
    chatPrompts := chatPrompts + messages;
    return Success(chatPrompts);
  }

  /** `[convert(t) for t in tools] if tools else None`. */
  function NormaliseTools<T, U>(tools: Option<seq<T>>, convert: T -> U): (r: Option<seq<U>>)
    ensures r.None? <==> tools.None? || |tools.value| == 0
    ensures r.Some? ==> |r.value| == |tools.value|
    ensures r.Some? ==> forall i :: 0 <= i < |r.value| ==> r.value[i] == convert(tools.value[i])
  {
    if tools.Some? && |tools.value| > 0 then Some(seq(|tools.value|, i requires 0 <= i < |tools.value| => convert(tools.value[i])))
    else None
  }

  /** Tracing metadata defaults to an empty map. */
  function TracingMetadata(tracingMetadata: Option<map<string, string>>): (m: map<string, string>)
    ensures tracingMetadata.None? ==> m == map[]
    ensures tracingMetadata.Some? ==> m == tracingMetadata.value
  {
    tracingMetadata.GetOr(map[])
  }

  /** The service callbacks in effect for the call: Langfuse only when tracing is on. */
  function Callbacks(enableTracing: bool): (c: seq<string>)
    ensures enableTracing ==> c == ["langfuse"]
    ensures !enableTracing ==> c == []
  {
    if enableTracing then ["langfuse"] else []
  }

  /**
   * The return value: the chat-framework conversion when `response_format`
   * is `"langchain"`, the raw response otherwise; the whole of it when
   * `return_full_response` is set, else the first message in it.
   */
  function SelectResponse(response: Completion, responseFormat: string, returnFullResponse: bool,
                          toChatResult: Completion -> ChatResult): (r: Result<ModelOutput, LlmError>)
    ensures responseFormat == "langchain" && returnFullResponse ==> r == Success(FullChatResult(toChatResult(response)))
    ensures responseFormat != "langchain" && returnFullResponse ==> r == Success(FullCompletion(response))
    ensures !returnFullResponse && responseFormat == "langchain" ==>
      if |toChatResult(response).generations| == 0 then r == Failure(NoGeneration)
      else r == Success(Reply(toChatResult(response).generations[0]))
    ensures !returnFullResponse && responseFormat != "langchain" ==>
      if |response.choices| == 0 then r == Failure(NoChoice)
      else r == Success(Reply(response.choices[0]))
  {
    if responseFormat == "langchain" then
      var chatResult := toChatResult(response);
      if returnFullResponse then Success(FullChatResult(chatResult))
      else if |chatResult.generations| == 0 then Failure(NoGeneration)
      else Success(Reply(chatResult.generations[0]))
    else if returnFullResponse then Success(FullCompletion(response))
    else if |response.choices| == 0 then Failure(NoChoice)
    else Success(Reply(response.choices[0]))
  }

  /**
   * `call_model`: assemble the request, send it to `complete` (the
   * completion service) and select the return value from its response.
   */
  method CallModel<T, U>(messages: seq<Message>, modelConf: map<string, string>, tools: Option<seq<T>>,
                         systemPrompt: Option<string>, enableTracing: bool,
                         tracingMetadata: Option<map<string, string>>, responseFormat: string,
                         returnFullResponse: bool, convertTool: T -> U,
                         complete: CompletionRequest<U> -> Completion, toChatResult: Completion -> ChatResult)
    returns (r: Result<ModelOutput, LlmError>, request: Option<CompletionRequest<U>>)
    ensures HasSystemPrompt(systemPrompt) && "model" !in modelConf ==> r == Failure(MissingModelKey) && request.None?
    ensures !(HasSystemPrompt(systemPrompt) && "model" !in modelConf) ==> request.Some?
    ensures request.Some? ==>
      var req := request.value;
      && |req.messages| == |messages| + (if HasSystemPrompt(systemPrompt) then 1 else 0)
      && req.messages[|req.messages| - |messages|..] == messages
      && (HasSystemPrompt(systemPrompt) ==>
            req.messages[0] == (if StartsWith(modelConf["model"], "o1") then HumanMessage(systemPrompt.value)
                                else SystemMessage(systemPrompt.value)))
      && req.modelConf == modelConf
      && req.tools == NormaliseTools(tools, convertTool)
      && req.metadata == TracingMetadata(tracingMetadata)
      && req.callbacks == Callbacks(enableTracing)
      && r == SelectResponse(complete(req), responseFormat, returnFullResponse, toChatResult)
  {
    var metadata := TracingMetadata(tracingMetadata);
    var prompts := AssemblePrompts(messages, modelConf, systemPrompt);
    if prompts.Failure? {
      return Failure(prompts.error), None;
    }
    var chatPrompts := prompts.value;
    var callbacks := Callbacks(enableTracing);
    var normalisedTools := NormaliseTools(tools, convertTool);
    var req := CompletionRequest(chatPrompts, normalisedTools, metadata, callbacks, modelConf);
    var response := complete(req);
    r := SelectResponse(response, responseFormat, returnFullResponse, toChatResult);
    request := Some(req);
  }
}
