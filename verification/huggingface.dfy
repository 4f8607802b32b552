/** The HuggingFace provider, a stub: it constructs with a default model but
    every `Send` fails. */
module HuggingFace {
  import opened Wrappers
  import opened Messages

  const DefaultModel := "gpt2"
  const NotImplementedText := "huggingface provider not yet implemented - requires huggingface-go client"

  datatype Client = Client(apiKey: string, model: string)

  /** `NewHuggingFace`: never fails; an empty model means the default, any other
      model is kept as given. */
  function New(apiKey: string, model: string): (r: Result<Client, Error>)
    ensures r.Success?
    ensures r.value.apiKey == apiKey
    ensures model == "" ==> r.value.model == "gpt2"
    ensures model != "" ==> r.value.model == model
  {
    Success(Client(apiKey, if model == "" then DefaultModel else model))
  }

  /** `Send`: fails with the fixed not-implemented error whatever the
      history, message and stream flag. */
  function Send(c: Client, history: seq<Message>, message: Content, stream: bool): (r: Result<string, Error>)
    ensures r.Failure? && r.error.NotImplemented?
    ensures r.error.text == "huggingface provider not yet implemented - requires huggingface-go client"
  {
    Failure(NotImplemented(NotImplementedText))
  }

  /** HuggingFace does not support streaming. */
  function SupportsStreaming(c: Client): (b: bool)
    ensures !b
  {
    false
  }

  /** The rate-limit hook passes every error through unchanged. */
  function HandleRateLimiting(c: Client, err: Error): (r: Error)
    ensures r == err
  {
    err
  }
}
