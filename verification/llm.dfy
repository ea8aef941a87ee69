/** Provider dispatch and `generate_llm_response`: hosted (OpenAI) versus
    self-hosted chat-completion endpoints. */
module Llm {
  import opened Wrappers
  import opened Json
  import opened Chat

  /** The model names served by the hosted provider. */
  const OpenAiGptTypes: set<string> :=
    {"gpt-3.5-turbo", "gpt-3.5-turbo-16k", "gpt-3.5-turbo-0301", "gpt-4"}

  datatype Backend = Hosted | SelfHosted

  /** Dispatch is exact, case-sensitive membership in the closed set. */
  function SelectBackend(model: string): (b: Backend)
    ensures b == Hosted <==>
      model == "gpt-3.5-turbo" || model == "gpt-3.5-turbo-16k" ||
      model == "gpt-3.5-turbo-0301" || model == "gpt-4"
  {
    if model in OpenAiGptTypes then Hosted else SelfHosted
  }

  /** Token accounting the hosted provider reports with each completion. */
  datatype Usage = Usage(promptTokens: nat, completionTokens: nat, totalTokens: nat)

  /** What the hosted client's `chat.completions.create` returns; the SDK may
      leave the usage out. */
  datatype Completion = Completion(content: string, usage: Option<Usage>)

  /** The JSON body POSTed to a self-hosted endpoint, and where it goes.
      The fixed `temperature` field and `Content-Type` header are not represented. */
  datatype ChatRequest = ChatRequest(url: string, model: string, messages: seq<Message>)

  /** The remote services, as total functions of what is sent to them. Each may
      raise instead of answering (a rejected key, a refused connection, a prompt
      too long for the model, a body that is not JSON); `Failure` carries the
      exception's message. */
  datatype Services = Services(
    hosted: (string, string, seq<Message>) -> Result<Completion, string>,   // (api key, model, messages)
    selfHosted: ChatRequest -> Result<Json, string>)

  /** Run configuration: model name, `--llm-url`, and the `OPENAI_API_KEY` environment entry. */
  datatype LlmConfig = LlmConfig(model: string, llmUrl: Option<string>, apiKey: Option<string>)

  datatype LlmReply = LlmReply(text: string, usage: Option<Usage>)

  datatype LlmError =
    | ApiKeyMissing            // hosted model chosen but OPENAI_API_KEY is unset
    | ServiceError(msg: string) // the client call or the POST raised
    | MalformedReply           // the self-hosted reply lacks choices[0].message.content

  const CompletionsPath: string := "/v1/chat/completions"

  /** `f"{llm_url}/v1/chat/completions"`; an unset URL formats as `None`. */
  function CompletionsUrl(llmUrl: Option<string>): (url: string)
    ensures |url| >= |CompletionsPath| && url[|url| - |CompletionsPath|..] == CompletionsPath
    ensures llmUrl.Some? ==> llmUrl.value <= url
    ensures llmUrl.None? ==> "None" <= url
    ensures |url| == (if llmUrl.Some? then |llmUrl.value| else 4) + |CompletionsPath|
  {
    var base := match llmUrl case Some(u) => u case None => "None";
    base + CompletionsPath
  }

  /** The request the self-hosted path POSTs: the conversation, unchanged, to the completions address. */
  function SelfHostedRequest(model: string, messages: seq<Message>, llmUrl: Option<string>): (req: ChatRequest)
    ensures req.url == CompletionsUrl(llmUrl)
    ensures req.model == model && req.messages == messages
  {
    ChatRequest(CompletionsUrl(llmUrl), model, messages)
  }

  /** `resp.json()["choices"][0]["message"]["content"]`, when it is a string. */
  function ReplyContent(reply: Json): (content: Option<string>)
  {
    match Lookup(reply, [Key("choices"), At(0), Key("message"), Key("content")])
    case Some(JString(text)) => Some(text)
    case _ => None
  }

  /** Sends `messages` to the backend chosen by the model name. Only the hosted
      path needs the API key and only it reports usage; either path fails when
      its service raises, and the self-hosted path also on a reply of the wrong shape. */
  function GenerateResponse(cfg: LlmConfig, services: Services, messages: seq<Message>): (r: Result<LlmReply, LlmError>)
    ensures SelectBackend(cfg.model) == Hosted ==>
      && (cfg.apiKey.None? ==> r == Failure(ApiKeyMissing))
      && (cfg.apiKey.Some? ==>
            (match services.hosted(cfg.apiKey.value, cfg.model, messages)
             case Failure(msg) => r == Failure(ServiceError(msg))
             case Success(c) => r == Success(LlmReply(c.content, c.usage))))
    ensures SelectBackend(cfg.model) == SelfHosted ==>
      var answer := services.selfHosted(SelfHostedRequest(cfg.model, messages, cfg.llmUrl));
      && (answer.Failure? ==> r == Failure(ServiceError(answer.error)))
      && (answer.Success? ==> (r.Success? <==> ReplyContent(answer.value).Some?))
      && (answer.Success? && r.Failure? ==> r.error == MalformedReply)
      && (r.Success? ==> r.value == LlmReply(ReplyContent(answer.value).value, None))
    ensures r.Success? && r.value.usage.Some? ==> cfg.model in OpenAiGptTypes
  {
    match SelectBackend(cfg.model)
    case Hosted =>
      if cfg.apiKey.None? then Failure(ApiKeyMissing)
      else
        (match services.hosted(cfg.apiKey.value, cfg.model, messages)
         case Failure(msg) => Failure(ServiceError(msg))
         case Success(completion) => Success(LlmReply(completion.content, completion.usage)))
    case SelfHosted =>
      match services.selfHosted(SelfHostedRequest(cfg.model, messages, cfg.llmUrl))
      case Failure(msg) => Failure(ServiceError(msg))
      case Success(answer) =>
        match ReplyContent(answer)
        case None => Failure(MalformedReply)
        case Some(text) => Success(LlmReply(text, None))
  }

  /** Concrete routing cases: exact names only, no prefix or case folding. */
  lemma DispatchExamples()
    ensures SelectBackend("gpt-4") == Hosted
    ensures SelectBackend("gpt-3.5-turbo-16k") == Hosted
    ensures SelectBackend("gpt-4-32k") == SelfHosted
    ensures SelectBackend("GPT-4") == SelfHosted
    ensures SelectBackend("llama-local") == SelfHosted
  {
  }

  /** The API key matters only for hosted models: a self-hosted model gives the
      same answer whether or not the key is set. */
  lemma ApiKeyIrrelevantForSelfHosted(cfg: LlmConfig, services: Services, messages: seq<Message>, key: Option<string>)
    requires cfg.model !in OpenAiGptTypes
    ensures GenerateResponse(cfg, services, messages) == GenerateResponse(cfg.(apiKey := key), services, messages)
  {
  }
}
