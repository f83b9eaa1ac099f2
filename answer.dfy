/** The answer generator: one chat-completion request to the LLM gateway.

    The gateway itself is not modelled; it is a function parameter `llm`
    from the request sent to the response received. `PlanAnswer` is
    everything the generator decides before the call (the fallback for an
    empty input, the choice of system prompt, the request), so that
    "no gateway call" is the statement that no request is planned. */
module AnswerGenerator {
  import opened Config

  /** What the generator raises. */
  datatype Error =
    | PromptNotSpecified  // ValueError: neither the argument nor the settings give a prompt
    | NoChoices           // the gateway's response has no first choice to read

  datatype Result<+T> = Ok(value: T) | Err(error: Error)

  /** The answer to an empty input. */
  const FALLBACK_ANSWER: string := "? what do you mean"

  /** The gateway the client is pointed at. */
  const OPENROUTER_BASE_URL: string := "https://openrouter.ai/api/v1"

  datatype Role = System | User

  datatype ChatMessage = ChatMessage(role: Role, content: string)

  /** A chat-completion request, with the endpoint and key the client uses. */
  datatype ChatRequest = ChatRequest(baseUrl: string, apiKey: string, model: string, messages: seq<ChatMessage>)

  /** The part of the gateway's response the generator reads: the content
      of each choice, in order. */
  datatype Completion = Completion(choices: seq<string>)

  /** What the generator does for an input: answer at once, or ask the gateway. */
  datatype Plan = Immediate(answer: string) | Query(request: ChatRequest)

  /** The system prompt in effect: the argument when it is neither `None`
      nor empty, otherwise the configured one; `None` when that too is
      missing or empty. */
  function ResolvePrompt(systemPrompt: Option<string>, settings: Settings): (p: Option<string>)
    ensures p.Some? <==> Truthy(systemPrompt) || Truthy(settings.systemPrompt)
    ensures p.Some? ==> p.value != ""
    ensures Truthy(systemPrompt) ==> p == systemPrompt
    ensures !Truthy(systemPrompt) && Truthy(settings.systemPrompt) ==> p == settings.systemPrompt
  {
    var chosen := if Truthy(systemPrompt) then systemPrompt else settings.systemPrompt;
    if Truthy(chosen) then chosen else None
  }

  /** The request for a user input under a resolved system prompt. */
  function BuildRequest(prompt: string, userInput: string, settings: Settings): (r: ChatRequest)
    ensures |r.messages| == 2
    ensures r.messages[0].role == System && r.messages[0].content == prompt
    ensures r.messages[1].role == User && r.messages[1].content == userInput
    ensures r.model == settings.languageModel && r.apiKey == settings.openRouterApiKey
    ensures r.baseUrl == OPENROUTER_BASE_URL
  {
    ChatRequest(
      OPENROUTER_BASE_URL, settings.openRouterApiKey, settings.languageModel,
      [ChatMessage(System, prompt), ChatMessage(User, userInput)])
  }

  /** Everything the generator decides before it calls the gateway. */
  function PlanAnswer(userInput: string, systemPrompt: Option<string>, settings: Settings): (r: Result<Plan>)
    ensures userInput == "" ==> r == Ok(Immediate(FALLBACK_ANSWER))
    ensures r == Err(PromptNotSpecified) <==> userInput != "" && !Truthy(systemPrompt) && !Truthy(settings.systemPrompt)
    ensures r.Err? ==> r.error == PromptNotSpecified
    ensures r.Ok? && r.value.Immediate? ==> userInput == ""
    ensures r.Ok? && r.value.Query? ==>
      var p := if Truthy(systemPrompt) then systemPrompt.value else settings.systemPrompt.value;
      p != "" && r.value.request == BuildRequest(p, userInput, settings)
  {
    if userInput == "" then Ok(Immediate(FALLBACK_ANSWER))
    else match ResolvePrompt(systemPrompt, settings)
      case None => Err(PromptNotSpecified)
      case Some(p) => Ok(Query(BuildRequest(p, userInput, settings)))
  }

  /** The content of the response's first choice, unchanged. */
  function FirstChoice(response: Completion): (r: Result<string>)
    ensures r.Ok? <==> |response.choices| > 0
    ensures r.Ok? ==> r.value == response.choices[0]
    ensures r.Err? ==> r.error == NoChoices
  {
    if |response.choices| > 0 then Ok(response.choices[0]) else Err(NoChoices)
  }

  /** The requests sent to the gateway for one input: none or one. */
  function GatewayCalls(userInput: string, systemPrompt: Option<string>, settings: Settings): (calls: seq<ChatRequest>)
    ensures |calls| <= 1
    ensures |calls| == 1 <==> userInput != "" && (Truthy(systemPrompt) || Truthy(settings.systemPrompt))
  {
    match PlanAnswer(userInput, systemPrompt, settings)
    case Ok(Query(request)) => [request]
    case _ => []
  }

  /** The generator's answer for an input, given the gateway's behaviour. */
  function GenerateAnswer(userInput: string, systemPrompt: Option<string>, settings: Settings,
                          llm: ChatRequest -> Completion): (r: Result<string>)
    ensures userInput == "" ==> r == Ok(FALLBACK_ANSWER)
    ensures r == Err(PromptNotSpecified) <==> userInput != "" && !Truthy(systemPrompt) && !Truthy(settings.systemPrompt)
    ensures |GatewayCalls(userInput, systemPrompt, settings)| == 1 ==>
      r == FirstChoice(llm(GatewayCalls(userInput, systemPrompt, settings)[0]))
  {
    match PlanAnswer(userInput, systemPrompt, settings)
    case Err(e) => Err(e)
    case Ok(Immediate(answer)) => Ok(answer)
    case Ok(Query(request)) => FirstChoice(llm(request))
  }

  /** When no request is sent, the answer does not depend on the gateway. */
  lemma AnswerWithoutGateway(userInput: string, systemPrompt: Option<string>, settings: Settings,
                             llm1: ChatRequest -> Completion, llm2: ChatRequest -> Completion)
    requires GatewayCalls(userInput, systemPrompt, settings) == []
    ensures GenerateAnswer(userInput, systemPrompt, settings, llm1) == GenerateAnswer(userInput, systemPrompt, settings, llm2)
  {
  }

  /** A successful answer from the gateway is the first choice it returned,
      asked with the resolved prompt first and the user's input second. */
  lemma AnswerFromGateway(userInput: string, systemPrompt: Option<string>, settings: Settings,
                          llm: ChatRequest -> Completion)
    requires userInput != ""
    requires GenerateAnswer(userInput, systemPrompt, settings, llm).Ok?
    ensures |GatewayCalls(userInput, systemPrompt, settings)| == 1
    ensures var request := GatewayCalls(userInput, systemPrompt, settings)[0];
      && request.messages == [ChatMessage(System, ResolvePrompt(systemPrompt, settings).value), ChatMessage(User, userInput)]
      && |llm(request).choices| > 0
      && GenerateAnswer(userInput, systemPrompt, settings, llm).value == llm(request).choices[0]
  {
  }
}
