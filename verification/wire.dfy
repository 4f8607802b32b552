/** The part of the go-openai client that both working providers (OpenAI and
    OpenRouter) drive in exactly the same way: wire messages, the request,
    and the two ways of reading a reply. The network itself is an input:
    `Network` says what each endpoint answers to each request. */
module Wire {
  import opened Wrappers
  import opened Messages

  /** `openai.ChatCompletionMessage`: a role and already-stringified content. */
  datatype WireMessage = WireMessage(role: string, content: string)

  /** `openai.ChatCompletionRequest` as both working variants fill it. */
  datatype Request = Request(model: string, messages: seq<WireMessage>)

  /** A completion or a stream chunk, reduced to the text of each choice
      (`Message.Content` for a completion, `Delta.Content` for a chunk). */
  datatype Completion = Completion(choices: seq<string>)

  /** What successive `Recv` calls on an opened stream return: the chunks in
      arrival order, then either `io.EOF` (`end == None`) or another receive
      error. */
  datatype Stream = Stream(chunks: seq<Completion>, end: Option<Error>)

  /** The server a client talks to and the key it authenticates with: the
      base URL and token of the client's `openai.ClientConfig`. */
  datatype Endpoint = Endpoint(baseURL: string, apiKey: string)

  /** What `CreateChatCompletion` and `CreateChatCompletionStream` answer to
      each request, sent to each endpoint. */
  datatype Network = Network(
    complete: (Endpoint, Request) -> Result<Completion, Error>,
    openStream: (Endpoint, Request) -> Result<Stream, Error>)

  /** One history message in wire form: same role, content stringified. */
  function ToWire(m: Message, marshal: Json -> string): WireMessage {
    WireMessage(m.role, WireText(m.content, marshal))
  }

  /** The new message in wire form, always sent with the user role. */
  function UserTurn(message: Content, marshal: Json -> string): WireMessage {
    WireMessage(UserRole, WireText(message, marshal))
  }

  /** What a provider must send for `history` followed by `message`: one wire
      message per history entry, in order, then the user turn. */
  predicate IsConversion(r: seq<WireMessage>, history: seq<Message>, message: Content, marshal: Json -> string) {
    && |r| == |history| + 1
    && (forall i :: 0 <= i < |history| ==> r[i] == ToWire(history[i], marshal))
    && r[|history|] == UserTurn(message, marshal)
  }

  /** There is only one conversion of a given history and message. */
  lemma ConversionUnique(a: seq<WireMessage>, b: seq<WireMessage>, history: seq<Message>, message: Content, marshal: Json -> string)
    requires IsConversion(a, history, message, marshal)
    requires IsConversion(b, history, message, marshal)
    ensures a == b
  {
    assert forall i :: 0 <= i < |a| ==> a[i] == b[i] by {
      forall i | 0 <= i < |a|
        ensures a[i] == b[i]
      {
        if i < |history| {
          assert a[i] == ToWire(history[i], marshal) == b[i];
        }
      }
    }
  }

  /** Indexing `Choices[0]` panics on an empty choice list; the model
      requires the backend to answer with at least one choice. */
  predicate HasChoice(c: Completion) {
    |c.choices| > 0
  }

  predicate ChunksHaveChoice(s: Stream) {
    forall i :: 0 <= i < |s.chunks| ==> HasChoice(s.chunks[i])
  }

  /** The server at `at` answers `req` on the path `stream` selects without
      an empty choice list. */
  predicate AnswersWithChoices(net: Network, at: Endpoint, req: Request, stream: bool) {
    if stream then
      net.openStream(at, req).Success? ==> ChunksHaveChoice(net.openStream(at, req).value)
    else
      net.complete(at, req).Success? ==> HasChoice(net.complete(at, req).value)
  }

  /** The in-order concatenation of the first choice of every chunk. */
  function Accumulated(chunks: seq<Completion>): string
    requires forall i :: 0 <= i < |chunks| ==> HasChoice(chunks[i])
  {
    if chunks == [] then ""
    else
      assert HasChoice(chunks[|chunks| - 1]);
      Accumulated(chunks[..|chunks| - 1]) + chunks[|chunks| - 1].choices[0]
  }

  /** Accumulation distributes over splitting the chunk sequence: reading a
      stream in two halves gives the two halves' texts, concatenated. */
  lemma {:induction false} AccumulatedAppend(a: seq<Completion>, b: seq<Completion>)
    requires forall i :: 0 <= i < |a| ==> HasChoice(a[i])
    requires forall i :: 0 <= i < |b| ==> HasChoice(b[i])
    ensures forall i :: 0 <= i < |a + b| ==> HasChoice((a + b)[i])
    ensures Accumulated(a + b) == Accumulated(a) + Accumulated(b)
    decreases |b|
  {
    assert forall i :: 0 <= i < |a + b| ==> HasChoice((a + b)[i]) by {
      forall i | 0 <= i < |a + b|
        ensures HasChoice((a + b)[i])
      {
        if i >= |a| {
          assert (a + b)[i] == b[i - |a|];
        }
      }
    }
    if b == [] {
      assert a + b == a;
    } else {
      var b' := b[..|b| - 1];
      assert (a + b)[..|a + b| - 1] == a + b';
      AccumulatedAppend(a, b');
    }
  }

  /** The reply of the streaming path, given how opening the stream went. */
  function StreamReply(started: Result<Stream, Error>): Result<string, Error>
    requires started.Success? ==> ChunksHaveChoice(started.value)
  {
    match started
    case Failure(e) => Failure(e)
    case Success(s) => if s.end.Some? then Failure(s.end.value) else Success(Accumulated(s.chunks))
  }

  /** `handleStreamingResponse`: a failure to open the stream is returned as
      is; otherwise the chunks' deltas are appended in arrival order until
      `io.EOF`, and any other receive error returns the error and drops the
      text gathered so far. Printing each delta is left out. */
  method HandleStreamingResponse(started: Result<Stream, Error>) returns (r: Result<string, Error>)
    requires started.Success? ==> ChunksHaveChoice(started.value)
    ensures started.Failure? ==> r == Failure(started.error)
    ensures started.Success? && started.value.end.Some? ==> r == Failure(started.value.end.value)
    ensures started.Success? && started.value.end.None? ==> r == Success(Accumulated(started.value.chunks))
    ensures r == StreamReply(started)
  {
    if started.Failure? {
      return Failure(started.error);
    }
    var s := started.value;
    var full := "";
    var i := 0;
    while i < |s.chunks|
      invariant 0 <= i <= |s.chunks|
      invariant full == Accumulated(s.chunks[..i])
    {
      assert s.chunks[..i + 1][..i] == s.chunks[..i];
      full := full + s.chunks[i].choices[0];
      i := i + 1;
    }
    assert s.chunks[..i] == s.chunks;
    if s.end.Some? {
      return Failure(s.end.value);
    }
    return Success(full);
  }

  /** `handleSingleResponse`: the backend error as is, or the first choice. */
  function SingleReply(resp: Result<Completion, Error>): (r: Result<string, Error>)
    requires resp.Success? ==> HasChoice(resp.value)
    ensures r.Failure? <==> resp.Failure?
    ensures r.Failure? ==> r.error == resp.error
    ensures r.Success? ==> r.value == resp.value.choices[0]
  {
    match resp
    case Failure(e) => Failure(e)
    case Success(c) => Success(c.choices[0])
  }

  /** The tail of both working `Send`s: the request goes to the client's
      endpoint, and the stream flag alone picks the path. */
  function Exchange(at: Endpoint, req: Request, stream: bool, net: Network): Result<string, Error>
    requires AnswersWithChoices(net, at, req, stream)
  {
    if stream then StreamReply(net.openStream(at, req)) else SingleReply(net.complete(at, req))
  }

  /** Streaming and the single call agree whenever the backend's single
      answer is the concatenation of the chunks it would have streamed. */
  lemma StreamingMatchesSingle(at: Endpoint, req: Request, net: Network, chunks: seq<Completion>)
    requires forall i :: 0 <= i < |chunks| ==> HasChoice(chunks[i])
    requires net.openStream(at, req) == Success(Stream(chunks, None))
    requires net.complete(at, req) == Success(Completion([Accumulated(chunks)]))
    ensures Exchange(at, req, true, net) == Exchange(at, req, false, net) == Success(Accumulated(chunks))
  {
  }
}
