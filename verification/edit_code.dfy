/** The "edit-code" action: its pre-hook puts a fixed editor instruction in
    front of the transcript, and its post-hook returns the reply as is. */
module EditCode {
  import opened Wrappers
  import opened Messages

  /** The instruction the pre-hook injects. */
  const EditorPrompt :=
    "You are a code editor. When asked to make changes to code:\n"
    + "1. Analyze the requested changes\n"
    + "2. Respond with only the modified code sections\n"
    + "3. Use ... to indicate unchanged code\n"
    + "4. Include brief comments explaining the changes"

  /** What a pre-hook hands on: the input and the transcript to send. */
  datatype Prepared = Prepared(input: Content, history: seq<Message>)

  /** `PreHook`: never fails, passes the input through, and returns a new
      transcript: the editor instruction as a system message, then the old
      transcript in order (which itself is not changed, being a value). */
  function PreHook(input: Content, history: seq<Message>): (r: Result<Prepared, Error>)
    ensures r.Success?
    ensures r.value.input == input
    ensures |r.value.history| == |history| + 1
    ensures r.value.history[0] == Message("system", Text(EditorPrompt))
    ensures r.value.history[1..] == history
  {
    Success(Prepared(input, [Message(SystemRole, Text(EditorPrompt))] + history))
  }

  /** `PostHook`: never fails and returns the response unchanged. */
  function PostHook(response: string): (r: Result<string, Error>)
    ensures r == Success(response)
  {
    Success(response)
  }
}
