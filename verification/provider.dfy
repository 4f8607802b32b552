/** The provider abstraction: one variant per backend, the factory that
    resolves a configured name to a variant, and dispatch of the three
    interface operations. */
module Providers {
  import opened Wrappers
  import opened Messages
  import opened Wire
  import OpenAI
  import OpenRouter
  import Anthropic
  import Cohere
  import HuggingFace
  import Langchain

  /** A value of the `Provider` interface: exactly one of the six variants. */
  datatype Provider =
    | OpenAIProvider(openai: OpenAI.Client)
    | AnthropicProvider(anthropic: Anthropic.Client)
    | CohereProvider(cohere: Cohere.Client)
    | HuggingFaceProvider(huggingface: HuggingFace.Client)
    | LangchainProvider(langchain: Langchain.Client)
    | OpenRouterProvider(openrouter: OpenRouter.Client)

  /** The backend kinds, as a reference for what the factory selects. */
  datatype Kind = OpenAIKind | AnthropicKind | CohereKind | HuggingFaceKind | LangchainKind | OpenRouterKind

  function KindOf(p: Provider): Kind {
    match p
    case OpenAIProvider(_) => OpenAIKind
    case AnthropicProvider(_) => AnthropicKind
    case CohereProvider(_) => CohereKind
    case HuggingFaceProvider(_) => HuggingFaceKind
    case LangchainProvider(_) => LangchainKind
    case OpenRouterProvider(_) => OpenRouterKind
  }

  function ModelOf(p: Provider): string {
    match p
    case OpenAIProvider(c) => c.model
    case AnthropicProvider(c) => c.model
    case CohereProvider(c) => c.model
    case HuggingFaceProvider(c) => c.model
    case LangchainProvider(c) => c.model
    case OpenRouterProvider(c) => c.model
  }

  function KeyOf(p: Provider): string {
    match p
    case OpenAIProvider(c) => c.apiKey
    case AnthropicProvider(c) => c.apiKey
    case CohereProvider(c) => c.apiKey
    case HuggingFaceProvider(c) => c.apiKey
    case LangchainProvider(c) => c.apiKey
    case OpenRouterProvider(c) => c.apiKey
  }

  /** The recognised provider names, each with its backend; matching is
      exact and case-sensitive. */
  const Names: map<string, Kind> := map[
    "openai" := OpenAIKind,
    "anthropic" := AnthropicKind,
    "cohere-ai" := CohereKind,
    "huggingface" := HuggingFaceKind,
    "langchain" := LangchainKind,
    "openrouter" := OpenRouterKind]

  /** The backend a configured name selects: its entry in `Names`, and
      OpenAI for every other name. */
  function Selected(name: string): Kind {
    if name in Names then Names[name] else OpenAIKind
  }

  /** The model a backend substitutes for an empty one (Langchain has none). */
  function DefaultModelOf(k: Kind): Option<string> {
    match k
    case OpenAIKind => Some("gpt-3.5-turbo")
    case AnthropicKind => Some("claude-2")
    case CohereKind => Some("command")
    case HuggingFaceKind => Some("gpt2")
    case LangchainKind => None
    case OpenRouterKind => Some("openai/gpt-3.5-turbo")
  }

  /** The model a provider of kind `k` ends up with when configured with `model`. */
  function EffectiveModel(k: Kind, model: string): string {
    if model == "" && DefaultModelOf(k).Some? then DefaultModelOf(k).value else model
  }

  function Lift<C>(r: Result<C, Error>, wrap: C -> Provider): Result<Provider, Error> {
    match r
    case Success(c) => Success(wrap(c))
    case Failure(e) => Failure(e)
  }

  /** The factory `New`: a name switch over the six constructors, with the
      OpenAI constructor as the fallback. It fails exactly when it resolves
      to OpenAI and the (defaulted) model is not allow-listed, with that
      constructor's error; otherwise the provider is of the selected kind and
      holds the API key and the effective model, and an OpenRouter provider
      is aimed at OpenRouter's server. */
  function New(name: string, apiKey: string, model: string): (r: Result<Provider, Error>)
    ensures r.Failure? <==> Selected(name) == OpenAIKind && EffectiveModel(OpenAIKind, model) !in OpenAI.ValidModels
    ensures r.Failure? ==> r.error == InvalidModel(model, OpenAI.ValidModels)
    ensures r.Success? ==> KindOf(r.value) == Selected(name)
    ensures r.Success? ==> ModelOf(r.value) == EffectiveModel(Selected(name), model)
    ensures r.Success? ==> KeyOf(r.value) == apiKey
    ensures r.Success? && r.value.OpenRouterProvider? ==> r.value.openrouter.baseURL == OpenRouter.BaseURL
  {
    if name == "openai" then Lift(OpenAI.New(apiKey, model), c => OpenAIProvider(c))
    else if name == "anthropic" then Lift(Anthropic.New(apiKey, model), c => AnthropicProvider(c))
    else if name == "cohere-ai" then Lift(Cohere.New(apiKey, model), c => CohereProvider(c))
    else if name == "huggingface" then Lift(HuggingFace.New(apiKey, model), c => HuggingFaceProvider(c))
    else if name == "langchain" then Lift(Langchain.New(apiKey, model), c => LangchainProvider(c))
    else if name == "openrouter" then Lift(OpenRouter.New(apiKey, model), c => OpenRouterProvider(c))
    else Lift(OpenAI.New(apiKey, model), c => OpenAIProvider(c))
  }

  /** Any unrecognised name, "" and near-misses such as "cohere" or "OpenAI"
      included, behaves exactly like "openai". */
  lemma UnknownNameIsOpenAI(name: string, apiKey: string, model: string)
    requires name !in Names
    ensures New(name, apiKey, model) == New("openai", apiKey, model)
  {
    assert name != "openai" && name != "anthropic" && name != "cohere-ai";
    assert name != "huggingface" && name != "langchain" && name != "openrouter";
  }

  /** Examples of the fallback: the empty name and the wrong spelling of
      Cohere's name both reach OpenAI. */
  lemma FallbackExamples(apiKey: string)
    ensures New("", apiKey, "") == Success(OpenAIProvider(OpenAI.Client(apiKey, "gpt-3.5-turbo")))
    ensures New("cohere", apiKey, "command").Failure?
    ensures New("cohere-ai", apiKey, "command") == Success(CohereProvider(Cohere.Client(apiKey, "command")))
  {
    UnknownNameIsOpenAI("cohere", apiKey, "command");
  }

  /** The two variants backed by a real client. */
  predicate Working(p: Provider) {
    p.OpenAIProvider? || p.OpenRouterProvider?
  }

  /** Where a working variant's requests go (the stubs send nothing). */
  function EndpointOf(p: Provider): Endpoint
    requires Working(p)
  {
    if p.OpenAIProvider? then OpenAI.EndpointOf(p.openai) else OpenRouter.EndpointOf(p.openrouter)
  }

  /** A working variant's backend answers the request `Send` builds without
      an empty choice list (both variants build the same list). */
  predicate CanSend(p: Provider, history: seq<Message>, message: Content, stream: bool, net: Network, marshal: Json -> string) {
    Working(p) ==> AnswersWithChoices(net, EndpointOf(p), Request(ModelOf(p), OpenAI.BuildMessages(history, message, marshal)), stream)
  }

  /** `Send` through the interface: the four stubs fail with their fixed
      not-implemented error whatever the arguments; the two working
      variants send the conversion of history and message under their
      model to their own endpoint. */
  function Send(p: Provider, history: seq<Message>, message: Content, stream: bool, net: Network, marshal: Json -> string): (r: Result<string, Error>)
    requires CanSend(p, history, message, stream, net, marshal)
    ensures !Working(p) ==> r.Failure? && r.error.NotImplemented?
    ensures Working(p) ==>
      r == Exchange(EndpointOf(p), Request(ModelOf(p), OpenAI.BuildMessages(history, message, marshal)), stream, net)
  {
    match p
    case OpenAIProvider(c) => OpenAI.Send(c, history, message, stream, net, marshal)
    case OpenRouterProvider(c) =>
      OpenRouter.SameMessagesAsOpenAI(history, message, marshal);
      OpenRouter.Send(c, history, message, stream, net, marshal)
    case AnthropicProvider(c) => Anthropic.Send(c, history, message, stream)
    case CohereProvider(c) => Cohere.Send(c, history, message, stream)
    case HuggingFaceProvider(c) => HuggingFace.Send(c, history, message, stream)
    case LangchainProvider(c) => Langchain.Send(c, history, message, stream)
  }

  /** `SupportsStreaming`: true for OpenAI and OpenRouter, false for the stubs. */
  function SupportsStreaming(p: Provider): (b: bool)
    ensures b <==> KindOf(p) == OpenAIKind || KindOf(p) == OpenRouterKind
  {
    match p
    case OpenAIProvider(c) => OpenAI.SupportsStreaming(c)
    case AnthropicProvider(c) => Anthropic.SupportsStreaming(c)
    case CohereProvider(c) => Cohere.SupportsStreaming(c)
    case HuggingFaceProvider(c) => HuggingFace.SupportsStreaming(c)
    case LangchainProvider(c) => Langchain.SupportsStreaming(c)
    case OpenRouterProvider(c) => OpenRouter.SupportsStreaming(c)
  }

  /** `HandleRateLimiting`: every variant passes the error through. */
  function HandleRateLimiting(p: Provider, err: Error): (r: Error)
    ensures r == err
  {
    match p
    case OpenAIProvider(c) => OpenAI.HandleRateLimiting(c, err)
    case AnthropicProvider(c) => Anthropic.HandleRateLimiting(c, err)
    case CohereProvider(c) => Cohere.HandleRateLimiting(c, err)
    case HuggingFaceProvider(c) => HuggingFace.HandleRateLimiting(c, err)
    case LangchainProvider(c) => Langchain.HandleRateLimiting(c, err)
    case OpenRouterProvider(c) => OpenRouter.HandleRateLimiting(c, err)
  }
}
