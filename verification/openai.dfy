/** The OpenAI provider: model validation against a fixed allow-list,
    conversion of the transcript by appending, and the two reply paths. */
module OpenAI {
  import opened Wrappers
  import opened Messages
  import opened Wire

  /** The model names the constructor accepts. */
  const ValidModels: set<string> :=
    {"gpt-4-turbo-preview", "gpt-4", "gpt-3.5-turbo", "gpt-3.5-turbo-0125", "text-davinci-003"}

  const DefaultModel := "gpt-3.5-turbo"

  /** A constructed provider: the client keyed with the API key, and the
      model every request names. */
  datatype Client = Client(apiKey: string, model: string)

  /** The server every client built by `openai.NewClient` talks to: the
      client library's default base URL. */
  const BaseURL := "https://api.openai.com/v1"

  /** Where a client's requests go: the default server, with the client's key. */
  function EndpointOf(c: Client): Endpoint {
    Endpoint(BaseURL, c.apiKey)
  }

  /** `NewOpenAI`: an empty model means the default; the result fails
      exactly when the resulting name is not allow-listed, and the error
      then names the rejected model and every allowed one. */
  function New(apiKey: string, model: string): (r: Result<Client, Error>)
    ensures r.Success? <==> model == "" || model in ValidModels
    ensures r.Success? ==> r.value.model in ValidModels && r.value.apiKey == apiKey
    ensures r.Success? && model == "" ==> r.value.model == "gpt-3.5-turbo"
    ensures r.Success? && model != "" ==> r.value.model == model
    ensures r.Failure? ==> r.error == InvalidModel(model, ValidModels)
  {
    var m := if model == "" then DefaultModel else model;
    if m !in ValidModels then Failure(InvalidModel(m, ValidModels))
    else Success(Client(apiKey, m))
  }

  /** The conversion loop: appends each history message, in order, to `acc`. */
  function AppendConverted(acc: seq<WireMessage>, history: seq<Message>, marshal: Json -> string): seq<WireMessage>
    decreases |history|
  {
    if history == [] then acc
    else AppendConverted(acc + [ToWire(history[0], marshal)], history[1..], marshal)
  }

  /** The loop keeps what was already in `acc` and adds one converted
      message per history entry, position for position. */
  lemma {:induction false} AppendConvertedKeepsOrder(acc: seq<WireMessage>, history: seq<Message>, marshal: Json -> string)
    ensures |AppendConverted(acc, history, marshal)| == |acc| + |history|
    ensures AppendConverted(acc, history, marshal)[..|acc|] == acc
    ensures forall i :: 0 <= i < |history| ==>
      AppendConverted(acc, history, marshal)[|acc| + i] == ToWire(history[i], marshal)
    decreases |history|
  {
    if history != [] {
      var acc' := acc + [ToWire(history[0], marshal)];
      AppendConvertedKeepsOrder(acc', history[1..], marshal);
      var r := AppendConverted(acc, history, marshal);
      assert r == AppendConverted(acc', history[1..], marshal);
      assert r[..|acc'|][..|acc|] == acc;
      forall i | 0 <= i < |history|
        ensures r[|acc| + i] == ToWire(history[i], marshal)
      {
        if i == 0 {
          assert r[..|acc'|][|acc|] == ToWire(history[0], marshal);
        } else {
          assert r[|acc'| + (i - 1)] == ToWire(history[1..][i - 1], marshal);
        }
      }
    }
  }

  /** The message list `Send` builds: the converted history, then the new
      message as a user turn. */
  function BuildMessages(history: seq<Message>, message: Content, marshal: Json -> string): (r: seq<WireMessage>)
    ensures IsConversion(r, history, message, marshal)
  {
    AppendConvertedKeepsOrder([], history, marshal);
    var converted := if |history| > 0 then AppendConverted([], history, marshal) else [];
    converted + [UserTurn(message, marshal)]
  }

  /** `Send`: the request names the client's model and carries the
      conversion of `history` and `message`; `stream` alone decides whether
      the reply is read as a stream or as a single completion. */
  function Send(c: Client, history: seq<Message>, message: Content, stream: bool, net: Network, marshal: Json -> string): (r: Result<string, Error>)
    requires AnswersWithChoices(net, EndpointOf(c), Request(c.model, BuildMessages(history, message, marshal)), stream)
    ensures forall msgs ::
      IsConversion(msgs, history, message, marshal) && AnswersWithChoices(net, EndpointOf(c), Request(c.model, msgs), stream) ==>
      r == (if stream then StreamReply(net.openStream(EndpointOf(c), Request(c.model, msgs)))
            else SingleReply(net.complete(EndpointOf(c), Request(c.model, msgs))))
  {
    var msgs := BuildMessages(history, message, marshal);
    assert forall other :: IsConversion(other, history, message, marshal) ==> other == msgs by {
      forall other | IsConversion(other, history, message, marshal)
        ensures other == msgs
      {
        ConversionUnique(other, msgs, history, message, marshal);
      }
    }
    Exchange(EndpointOf(c), Request(c.model, msgs), stream, net)
  }

  /** OpenAI supports streaming. */
  function SupportsStreaming(c: Client): (b: bool)
    ensures b
  {
    true
  }

  /** The rate-limit hook passes every error through unchanged. */
  function HandleRateLimiting(c: Client, err: Error): (r: Error)
    ensures r == err
  {
    err
  }
}
