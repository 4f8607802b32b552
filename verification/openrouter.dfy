/** The OpenRouter provider: the OpenAI client pointed at OpenRouter's base
    URL, with any non-empty model accepted and the message list filled by
    index. */
module OpenRouter {
  import opened Wrappers
  import opened Messages
  import opened Wire
  import OpenAI

  const DefaultModel := "openai/gpt-3.5-turbo"
  const BaseURL := "https://openrouter.ai/api/v1"

  /** A constructed provider: a client keyed with the API key and aimed at
      `baseURL`, and the model every request names. */
  datatype Client = Client(apiKey: string, baseURL: string, model: string)

  /** Where a client's requests go: its base URL, with its key. */
  function EndpointOf(c: Client): Endpoint {
    Endpoint(c.baseURL, c.apiKey)
  }

  /** `NewOpenRouter`: never fails; an empty model means the default, any
      other model is kept as given. */
  function New(apiKey: string, model: string): (r: Result<Client, Error>)
    ensures r.Success?
    ensures r.value.apiKey == apiKey && r.value.baseURL == "https://openrouter.ai/api/v1"
    ensures model == "" ==> r.value.model == "openai/gpt-3.5-turbo"
    ensures model != "" ==> r.value.model == model
  {
    Success(Client(apiKey, BaseURL, if model == "" then DefaultModel else model))
  }

  /** The message list `Send` builds: a slice of `|history| + 1` entries,
      entry `i` the converted `history[i]`, the last one the user turn. */
  function BuildMessages(history: seq<Message>, message: Content, marshal: Json -> string): (r: seq<WireMessage>)
    ensures IsConversion(r, history, message, marshal)
  {
    seq(|history| + 1, i requires 0 <= i < |history| + 1 =>
      if i < |history| then ToWire(history[i], marshal) else UserTurn(message, marshal))
  }

  /** The index-filled list is the very list OpenAI builds by appending. */
  lemma SameMessagesAsOpenAI(history: seq<Message>, message: Content, marshal: Json -> string)
    ensures BuildMessages(history, message, marshal) == OpenAI.BuildMessages(history, message, marshal)
  {
    ConversionUnique(BuildMessages(history, message, marshal), OpenAI.BuildMessages(history, message, marshal),
      history, message, marshal);
  }

  /** `Send`: as for OpenAI, the request carries the client's model and the
      conversion of `history` and `message`, and `stream` picks the path. */
  function Send(c: Client, history: seq<Message>, message: Content, stream: bool, net: Network, marshal: Json -> string): (r: Result<string, Error>)
    requires AnswersWithChoices(net, EndpointOf(c), Request(c.model, BuildMessages(history, message, marshal)), stream)
    ensures forall msgs ::
      IsConversion(msgs, history, message, marshal) && AnswersWithChoices(net, EndpointOf(c), Request(c.model, msgs), stream) ==>
      r == (if stream then StreamReply(net.openStream(EndpointOf(c), Request(c.model, msgs)))
            else SingleReply(net.complete(EndpointOf(c), Request(c.model, msgs))))
  {
    var msgs := BuildMessages(history, message, marshal);
    assert forall other :: IsConversion(other, history, message, marshal) ==> other == msgs by {
      forall other | IsConversion(other, history, message, marshal)
        ensures other == msgs
      {
        ConversionUnique(other, msgs, history, message, marshal);
      }
    }
    Exchange(EndpointOf(c), Request(c.model, msgs), stream, net)
  }

  /** A client aimed at OpenRouter talks to another server than any OpenAI
      client, whatever the keys. */
  lemma OtherServerThanOpenAI(c: Client, o: OpenAI.Client)
    requires c.baseURL == BaseURL
    ensures EndpointOf(c) != OpenAI.EndpointOf(o)
  {
    assert BaseURL[8] != OpenAI.BaseURL[8];
  }

  /** OpenRouter and OpenAI differ only in where the request goes: with the
      same model, and a network that answers OpenRouter's endpoint as it
      answers OpenAI's for the request both build, they give the same reply
      to the same history and message. */
  lemma SameReplyAsOpenAI(c: Client, o: OpenAI.Client, history: seq<Message>, message: Content, stream: bool,
                          net: Network, marshal: Json -> string)
    requires c.model == o.model
    requires var req := Request(c.model, BuildMessages(history, message, marshal));
      && net.complete(EndpointOf(c), req) == net.complete(OpenAI.EndpointOf(o), req)
      && net.openStream(EndpointOf(c), req) == net.openStream(OpenAI.EndpointOf(o), req)
    requires AnswersWithChoices(net, EndpointOf(c), Request(c.model, BuildMessages(history, message, marshal)), stream)
    ensures AnswersWithChoices(net, OpenAI.EndpointOf(o), Request(o.model, OpenAI.BuildMessages(history, message, marshal)), stream)
    ensures Send(c, history, message, stream, net, marshal) == OpenAI.Send(o, history, message, stream, net, marshal)
  {
    SameMessagesAsOpenAI(history, message, marshal);
  }

  /** OpenRouter supports streaming. */
  function SupportsStreaming(c: Client): (b: bool)
    ensures b
  {
    true
  }

  /** The rate-limit hook passes every error through unchanged. */
  function HandleRateLimiting(c: Client, err: Error): (r: Error)
    ensures r == err
  {
    err
  }
}
