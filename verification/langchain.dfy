/** The Langchain provider, a stub: it keeps the model it is given, with no
    default, and every `Send` fails. */
module Langchain {
  import opened Wrappers
  import opened Messages

  const NotImplementedText := "langchain provider not yet implemented - requires langchain-go implementation"

  datatype Client = Client(apiKey: string, model: string)

  /** `NewLangchain`: never fails and keeps the API key and the model exactly as
      given; an empty model stays empty. */
  function New(apiKey: string, model: string): (r: Result<Client, Error>)
    ensures r.Success?
    ensures r.value.apiKey == apiKey && r.value.model == model
  {
    Success(Client(apiKey, model))
  }

  /** `Send`: fails with the fixed not-implemented error whatever the
      history, message and stream flag. */
  function Send(c: Client, history: seq<Message>, message: Content, stream: bool): (r: Result<string, Error>)
    ensures r.Failure? && r.error.NotImplemented?
    ensures r.error.text == "langchain provider not yet implemented - requires langchain-go implementation"
  {
    Failure(NotImplemented(NotImplementedText))
  }

  /** Langchain does not support streaming. */
  function SupportsStreaming(c: Client): (b: bool)
    ensures !b
  {
    false
  }

  /** The rate-limit hook passes every error through unchanged. */
  function HandleRateLimiting(c: Client, err: Error): (r: Error)
    ensures r == err
  {
    err
  }
}
