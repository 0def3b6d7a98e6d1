/**
 * The reply generator (backend/src/services/llm.ts): the prompt it sends, the
 * check for a configured key, and the closed mapping from whatever the completion
 * provider does to an LLMError. The provider itself is a function parameter.
 */
module Llm {
  import opened Types
  import opened JsText

  /**
   * The codes generateReply fails with; Name() is how each is spelled in a response
   * and Message() the message an error with that code carries. An API_ERROR keeps
   * the provider's own message, which its message ends with.
   */
  datatype ErrorCode =
    | MissingApiKey | EmptyResponse | InvalidApiKey | RateLimit
    | ServiceUnavailable | OtherApiError(providerMessage: string) | Timeout | UnknownError
  {
    function Name(): string {
      match this
      case MissingApiKey => "MISSING_API_KEY"
      case EmptyResponse => "EMPTY_RESPONSE"
      case InvalidApiKey => "INVALID_API_KEY"
      case RateLimit => "RATE_LIMIT"
      case ServiceUnavailable => "SERVICE_UNAVAILABLE"
      case OtherApiError(_) => "API_ERROR"
      case Timeout => "TIMEOUT"
      case UnknownError => "UNKNOWN_ERROR"
    }

    function Message(): string {
      match this
      case MissingApiKey => "OpenAI API key is not configured. Please set OPENAI_API_KEY environment variable."
      case EmptyResponse => "No response " + "generated from " + "the AI. Please " + "try again."
      case InvalidApiKey => "Invalid API key. Please check your OpenAI API key configuration."
      case RateLimit => "Rate limit exceeded. Please wait a moment and try again."
      case ServiceUnavailable => "OpenAI service is temporarily unavailable. Please try again later."
      case OtherApiError(providerMessage) => "OpenAI API error: " + providerMessage
      case Timeout => "Request timed out. Please try again."
      case UnknownError => "An unexpected error occurred while generating the response. Please try again."
    }
  }

  /** An LLMError; its message is `code.Message()`. */
  datatype LLMError = LLMError(code: ErrorCode, statusCode: int)

  /**
   * The configuration generateReply reads: OPENAI_API_KEY, and the system prompt
   * (the instructions plus the static knowledge base, opaque text here).
   */
  datatype GeneratorConfig = GeneratorConfig(apiKey: Option<string>, systemPrompt: string)

  /** What the provider call can throw. */
  datatype ProviderError =
    | ApiStatusError(status: Option<int>, message: string)  // an OpenAI.APIError
    | PlainError(message: string)                           // any other Error
    | NonErrorValue                                         // a thrown value that is not an Error

  /** How one provider call ends: `content` is choices[0]?.message?.content. */
  datatype ProviderOutcome = Completed(content: Option<string>) | Threw(error: ProviderError)

  /** What the catch block can receive: a provider failure, or the LLMError thrown in the try block. */
  datatype Caught = FromProvider(providerError: ProviderError) | Raised(llmError: LLMError)

  /** The request sent to the provider (None when no call is made) and the result. */
  datatype Generation = Generation(request: Option<seq<LLMMessage>>, result: Result<string, LLMError>)

  const MissingApiKeyError := LLMError(MissingApiKey, 500)
  const EmptyResponseError := LLMError(EmptyResponse, 500)
  const InvalidApiKeyError := LLMError(InvalidApiKey, 401)
  const RateLimitError := LLMError(RateLimit, 429)
  const ServiceUnavailableError := LLMError(ServiceUnavailable, 503)
  const TimeoutError := LLMError(Timeout, 504)
  const UnexpectedError := LLMError(UnknownError, 500)

  /**
   * The status each code travels with. API_ERROR carries the provider's own status,
   * which is never one of those the switch gives a code of its own.
   */
  predicate StatusFitsCode(e: LLMError) {
    match e.code
    case InvalidApiKey => e.statusCode == 401
    case RateLimit => e.statusCode == 429
    case ServiceUnavailable => e.statusCode == 503
    case Timeout => e.statusCode == 504
    case OtherApiError(_) => e.statusCode !in {401, 429, 502, 503}
    case _ => e.statusCode == 500
  }

  /** formatConversationHistory: stored turns in chat-completion form, same order. */
  function FormatConversationHistory(history: seq<Message>): (r: seq<LLMMessage>)
    ensures |r| == |history|
    ensures forall i :: 0 <= i < |history| ==>
      && r[i].content == history[i].text
      && (r[i].role == UserRole <==> history[i].sender == User)
      && (r[i].role == AssistantRole <==> history[i].sender == Ai)
  {
    seq(|history|, i requires 0 <= i < |history| =>
      LLMMessage(if history[i].sender == User then UserRole else AssistantRole, history[i].text))
  }

  /** The message list: the system prompt, the formatted history, then the new user turn. */
  function PromptMessages(systemPrompt: string, history: seq<Message>, userMessage: string): (r: seq<LLMMessage>)
    ensures |r| == |history| + 2
    ensures r[0] == LLMMessage(SystemRole, systemPrompt)
    ensures r[|r| - 1] == LLMMessage(UserRole, userMessage)
    ensures r[1..|r| - 1] == FormatConversationHistory(history)
    ensures forall i :: 0 < i < |r| ==> r[i].role != SystemRole
  {
    [LLMMessage(SystemRole, systemPrompt)] + FormatConversationHistory(history) + [LLMMessage(UserRole, userMessage)]
  }

  /** `!process.env.OPENAI_API_KEY` is false for an absent and for an empty key. */
  predicate HasApiKey(config: GeneratorConfig) {
    config.apiKey.Some? && config.apiKey.value != ""
  }

  /** The switch on error.status; `error.status || 500` also turns a status of 0 into 500. */
  function ApiStatusToError(status: Option<int>, message: string): (e: LLMError)
    ensures e.code == InvalidApiKey || e.code == RateLimit || e.code == ServiceUnavailable || e.code.OtherApiError?
    ensures StatusFitsCode(e)
  {
    if status == Some(401) then InvalidApiKeyError
    else if status == Some(429) then RateLimitError
    else if status == Some(500) || status == Some(502) || status == Some(503) then ServiceUnavailableError
    else LLMError(OtherApiError(message), if status.None? || status.value == 0 then 500 else status.value)
  }

  /** Any other Error: TIMEOUT when its message mentions "timeout", UNKNOWN_ERROR otherwise. */
  function PlainErrorToError(message: string): (e: LLMError)
    ensures e == TimeoutError || e == UnexpectedError
    ensures e == TimeoutError <==> Contains(message, "timeout")
  {
    if Contains(message, "timeout") then TimeoutError else UnexpectedError
  }

  /** The catch block, in its order: API errors, then timeouts, then LLMErrors, then the rest. */
  function ClassifyCaught(c: Caught): (e: LLMError)
    ensures c.FromProvider? ==> StatusFitsCode(e) && e.code != MissingApiKey && e.code != EmptyResponse
    ensures c == FromProvider(NonErrorValue) ==> e == UnexpectedError
    ensures c.Raised? && Contains(c.llmError.code.Message(), "timeout") ==> e == TimeoutError
    ensures c.Raised? && !Contains(c.llmError.code.Message(), "timeout") ==> e == c.llmError
  {
    match c
    case FromProvider(ApiStatusError(status, message)) => ApiStatusToError(status, message)
    case FromProvider(PlainError(message)) => PlainErrorToError(message)
    case FromProvider(NonErrorValue) => UnexpectedError
    case Raised(e) => if Contains(e.code.Message(), "timeout") then TimeoutError else e
  }

  predicate Lacks(s: string, c: char) {
    forall i :: 0 <= i < |s| ==> s[i] != c
  }

  lemma LacksConcat(a: string, b: string, c: char)
    requires Lacks(a, c) && Lacks(b, c)
    ensures Lacks(a + b, c)
  {
  }

  /** The LLMError the try block raises itself mentions no timeout, so it is rethrown unchanged. */
  lemma EmptyResponsePassesThrough()
    ensures !Contains(EmptyResponseError.code.Message(), "timeout")
    ensures ClassifyCaught(Raised(EmptyResponseError)) == EmptyResponseError
  {
    // The message has no 'u', and "timeout" has one.
    assert Lacks("No response ", 'u') && Lacks("generated from ", 'u');
    assert Lacks("the AI. Please ", 'u') && Lacks("try again.", 'u');
    LacksConcat("No response ", "generated from ", 'u');
    LacksConcat("No response " + "generated from ", "the AI. Please ", 'u');
    LacksConcat("No response " + "generated from " + "the AI. Please ", "try again.", 'u');
    var m := EmptyResponseError.code.Message();
    forall i | 0 <= i <= |m| - 7 ensures !OccursAt(m, "timeout", i) {
      assert m[i..i + 7][5] == m[i + 5];
    }
  }

  /**
   * The body of the try block: no content or empty content is EMPTY_RESPONSE,
   * anything else is returned trimmed; a provider failure goes to the catch block.
   */
  function Attempt(outcome: ProviderOutcome): (r: Result<string, Caught>)
    ensures r.Success? <==> outcome.Completed? && outcome.content.Some? && outcome.content.value != []
    ensures r.Success? ==> r.value == Trim(outcome.content.value)
    ensures outcome.Threw? ==> r == Failure(FromProvider(outcome.error))
    ensures outcome.Completed? && r.Failure? ==> r == Failure(Raised(EmptyResponseError))
  {
    match outcome
    case Threw(error) => Failure(FromProvider(error))
    case Completed(content) =>
      if content.None? || content.value == [] then Failure(Raised(EmptyResponseError))
      else Success(Trim(content.value))
  }

  /** generateReply with `provider` standing for client.chat.completions.create. */
  function GenerateReply(
    config: GeneratorConfig, history: seq<Message>, userMessage: string,
    provider: seq<LLMMessage> -> ProviderOutcome): (g: Generation)
    ensures g.request.None? <==> !HasApiKey(config)
    ensures g.request.None? ==> g.result == Failure(MissingApiKeyError)
    ensures g.request.Some? ==> g.request.value == PromptMessages(config.systemPrompt, history, userMessage)
    ensures g.result.Success? ==>
      && g.request.Some?
      && provider(g.request.value).Completed?
      && provider(g.request.value).content.Some?
      && provider(g.request.value).content.value != []
      && g.result.value == Trim(provider(g.request.value).content.value)
    ensures
      (&& g.request.Some?
       && provider(g.request.value).Completed?
       && provider(g.request.value).content.Some?
       && provider(g.request.value).content.value != [])
      ==> g.result == Success(Trim(provider(g.request.value).content.value))
    ensures g.result.Failure? ==> StatusFitsCode(g.result.error)
    ensures g.result.Failure? && g.request.Some? ==> g.result.error.code != MissingApiKey
  {
    if !HasApiKey(config) then
      Generation(None, Failure(MissingApiKeyError))
    else
      var request := PromptMessages(config.systemPrompt, history, userMessage);
      match Attempt(provider(request))
      case Success(reply) => Generation(Some(request), Success(reply))
      case Failure(caught) =>
        EmptyResponsePassesThrough();
        Generation(Some(request), Failure(ClassifyCaught(caught)))
  }

  /** The status mapping of the API-error switch, end to end. */
  lemma {:induction false} ApiStatusMapping(
    config: GeneratorConfig, history: seq<Message>, userMessage: string,
    provider: seq<LLMMessage> -> ProviderOutcome, status: Option<int>, message: string)
    requires HasApiKey(config)
    requires provider(PromptMessages(config.systemPrompt, history, userMessage)) == Threw(ApiStatusError(status, message))
    ensures var e := GenerateReply(config, history, userMessage, provider).result.error;
      && (status == Some(401) ==> e == InvalidApiKeyError)
      && (status == Some(429) ==> e == RateLimitError)
      && (status in {Some(500), Some(502), Some(503)} ==> e == ServiceUnavailableError)
      && (status !in {Some(401), Some(429), Some(500), Some(502), Some(503)} ==>
            e.code == OtherApiError(message) && e.code.Message() == "OpenAI API error: " + message
            && e.statusCode == (if status.None? || status == Some(0) then 500 else status.value))
  {
    var request := PromptMessages(config.systemPrompt, history, userMessage);
    assert Attempt(provider(request)) == Failure(FromProvider(ApiStatusError(status, message)));
    assert GenerateReply(config, history, userMessage, provider).result.error == ApiStatusToError(status, message);
  }

  /** A non-API error becomes TIMEOUT exactly when its message mentions "timeout". */
  lemma {:induction false} PlainErrorMapping(
    config: GeneratorConfig, history: seq<Message>, userMessage: string,
    provider: seq<LLMMessage> -> ProviderOutcome, message: string)
    requires HasApiKey(config)
    requires provider(PromptMessages(config.systemPrompt, history, userMessage)) == Threw(PlainError(message))
    ensures var e := GenerateReply(config, history, userMessage, provider).result.error;
      if Contains(message, "timeout") then e == TimeoutError else e == UnexpectedError
  {
  }

  /** A thrown value that is not an Error becomes UNKNOWN_ERROR. */
  lemma {:induction false} NonErrorMapping(
    config: GeneratorConfig, history: seq<Message>, userMessage: string, provider: seq<LLMMessage> -> ProviderOutcome)
    requires HasApiKey(config)
    requires provider(PromptMessages(config.systemPrompt, history, userMessage)) == Threw(NonErrorValue)
    ensures GenerateReply(config, history, userMessage, provider).result == Failure(UnexpectedError)
  {
  }

  /**
   * Absent or empty content is EMPTY_RESPONSE; any other content is the reply,
   * trimmed, so white-space-only content is a successful empty reply.
   */
  lemma {:induction false} ContentOutcomes(
    config: GeneratorConfig, history: seq<Message>, userMessage: string,
    provider: seq<LLMMessage> -> ProviderOutcome, content: Option<string>)
    requires HasApiKey(config)
    requires provider(PromptMessages(config.systemPrompt, history, userMessage)) == Completed(content)
    ensures var r := GenerateReply(config, history, userMessage, provider).result;
      && (content.None? || content == Some([]) ==> r == Failure(EmptyResponseError))
      && (content.Some? && content.value != [] ==> r == Success(Trim(content.value)))
      && (content.Some? && content.value != [] && AllWhitespace(content.value) ==> r == Success([]))
  {
    EmptyResponsePassesThrough();
  }
}
