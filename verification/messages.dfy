/** The values that flow between the session, the providers and the action
    hooks: message content, transcript messages and errors. */
module Messages {

  /** A structured (non-string) value, as produced by decoding a JSON prompt
      or a stored history file. Its wire text comes from an uninterpreted
      marshaller passed in by the caller. */
  datatype Json =
    | Null
    | Bool(b: bool)
    | Number(literal: string)
    | Str(s: string)
    | Array(items: seq<Json>)
    | Object(members: seq<(string, Json)>)

  /** Message content is dynamically typed in the source: a Go `string`
      (`Text`) or any other value (`Structured`). A decoded JSON string is a
      Go `string`, so the code never produces `Structured(Str(_))`; the
      value of that shape corresponds to no state of the source. */
  datatype Content = Text(text: string) | Structured(value: Json)

  /** A transcript entry. The role is a free string, as in the source: the
      code itself only writes "system", "user" and "assistant", but a loaded
      history file may hold anything. */
  datatype Message = Message(role: string, content: Content)

  const SystemRole := "system"
  const UserRole := "user"
  const AssistantRole := "assistant"

  predicate KnownRole(role: string) {
    role == SystemRole || role == UserRole || role == AssistantRole
  }

  /** Every message of the transcript carries one of the three roles the
      code writes. */
  predicate KnownRoles(history: seq<Message>) {
    forall i :: 0 <= i < |history| ==> KnownRole(history[i].role)
  }

  /** The errors the core produces or passes through. `InvalidModel` carries
      the allowed names as a set because the source lists them in map
      iteration order. */
  datatype Error =
    | InvalidModel(model: string, validNames: set<string>)
    | NotImplemented(text: string)
    | Backend(text: string)
    | Io(text: string)
    | Decode(text: string)
    | NotExist

  /** The text a content value is sent as: strings verbatim, everything else
      through the marshaller (whose error the source ignores). */
  function WireText(c: Content, marshal: Json -> string): (t: string)
    ensures c.Text? ==> t == c.text
    ensures c.Structured? ==> t == marshal(c.value)
  {
    match c
    case Text(s) => s
    case Structured(v) => marshal(v)
  }
}
