# gopilot core in Dafny

A Dafny model of the message-and-history logic of gopilot, a command-line chat client
written in Go. The client sends a prompt to a configurable large-language-model provider,
keeps a conversation transcript between invocations, and prints the reply.

The model covers these parts of the client:

- **Session** (`Chat`). The transcript state machine. `NewSession` builds the provider and
  takes the stored transcript. `AddContext` appends a system message. `Send` handles the
  new-chat, one-shot and provider-failure cases and says when the transcript is saved.
- **Providers** (`Providers`, `OpenAI`, `OpenRouter`, `Anthropic`, `Cohere`, `HuggingFace`,
  `Langchain`). The factory `New` maps a provider name to one of six variants. It falls
  back to OpenAI for unknown names. Each constructor applies its own default model, and
  only OpenAI checks the model against an allow-list. OpenAI and OpenRouter are the two
  working variants. They turn `history + message` into the same wire list: OpenAI builds it
  by appending, OpenRouter by index. A streamed reply is folded into one string; a single
  reply yields its first choice. The four stubs always fail.
- **Wire** (`Wire`). The parts of the go-openai client that both working variants drive.
  The network is an input, given as the answers of the completion endpoint and the
  streaming endpoint to each request sent to each server. A server is a base URL with
  the API key the client authenticates with. OpenAI clients talk to the client
  library's default server, `https://api.openai.com/v1`, and OpenRouter clients to
  `https://openrouter.ai/api/v1`.
- **Configuration** (`Configuration`). This covers the `.env` line parser and the
  `os.Setenv` rules for the pairs it produces. It also covers `isValidConfig`, the
  extension switch of `loadFromFile`, the default-file search and the source precedence
  of `Load`. The environment is a map. Reading a file and decoding JSON or YAML are
  function-valued inputs.
- **Actions** (`Actions`, `EditCode`). The action registry is a map in which a later
  registration overwrites an earlier one. The edit-code action's pre-hook prepends one
  system message; its post-hook is the identity.
- **GoStrings**. The Go string operations the parser relies on: `strings.TrimSpace`,
  `strings.Trim`, `strings.Split`, `strings.SplitN` with a limit of 2, and `filepath.Ext`.

Notation: a Go `(value, error)` return is a `Result`. `Failure(e)` stands for the pair
`("", e)`, because every error return in these files, except `loadFromFile`'s, which `Load` passes on, pairs
the error with the empty string or a nil pointer. That exception is under "Left out". Message content is `Text` when it is a Go string and `Structured`
otherwise. Structured content becomes text through an uninterpreted `marshal` function.
The source ignores `json.Marshal`'s error there.

Two places in the code do not do what its interfaces suggest, and the model follows the
code:

- `internal/chat/session.go:64` passes only the input and the stream flag to the
  provider, although the `Provider` interface's `Send` takes the history as well. No
  history reaches the provider from a session. `Chat.Send` therefore takes the provider's
  reply as an input. `Chat.StubProviderTurn` composes a session turn with a stub's `Send`; this
  is sound because a stub's reply does not depend on its arguments.
- In `cmd/actions/edit_code.go`, `init` calls `Register`, which is not defined in that
  package. The model builds the registry explicitly (`Actions.Builtin`).

## Model

| member | source | states |
|---|---|---|
| Chat.NewSession | internal/chat/session.go:30-43 | The session keeps the stored transcript. It has a provider exactly when the factory succeeds. That provider is of the kind the configured name selects, holds the configured API key and the kind's effective model, and, for OpenRouter, is aimed at OpenRouter's server. |
| Chat.AddContext | internal/chat/session.go:45-50 | Appends exactly one `{system, context}` message. The existing transcript stays as its prefix and the provider is unchanged. |
| Chat.Send | internal/chat/session.go:52-78 | A new chat empties the transcript first. A one-shot turn then leaves it alone. Any other turn adds the user message, and adds the assistant reply only on success. The reply or error is returned verbatim. The transcript is saved exactly on a successful non-one-shot turn, and what is saved is the new transcript. |
| Chat.NewChatStartsFromEmpty | internal/chat/session.go:53-55 | A new-chat turn equals the same turn taken from an empty transcript, whatever the other flags and the reply. |
| Chat.OneShotKeepsHistory | internal/chat/session.go:53-77 | A one-shot turn without a new chat leaves the session unchanged and saves nothing, on success and on failure. |
| Chat.FailedTurnKeepsUserMessage | internal/chat/session.go:57-67 | A failed non-one-shot turn is not rolled back. The transcript grows by one, ends with the user message, and is not saved. The error is returned. |
| Chat.SendKeepsKnownRoles | internal/chat/session.go:52-78 | If every message in the transcript has one of the roles system, user or assistant, this still holds after `Send`. |
| Chat.AddContextKeepsKnownRoles | internal/chat/session.go:45-50 | `AddContext` preserves the same role invariant. |
| Chat.ConverseAppendsExchanges | internal/chat/session.go:57-75 | After n successful default turns, the transcript is the old one followed by each turn's user and assistant messages in order. It is exactly 2n longer. |
| Chat.StubProviderTurn | internal/chat/session.go:57-67 | With a stub provider, a non-one-shot turn returns the stub's not-implemented error. It records the user message without a reply and saves nothing. |
| OpenAI.New | internal/providers/openai.go:19-47 | An empty model means "gpt-3.5-turbo". Construction fails exactly when a non-empty model is outside the five allow-listed names. The error names that model and the whole allow-list. A valid model and the API key are stored unchanged. |
| OpenAI.AppendConvertedKeepsOrder | internal/providers/openai.go:53-70 | The append loop keeps what is already accumulated. It adds one converted message per history entry, position by position. |
| OpenAI.BuildMessages | internal/providers/openai.go:49-84 | The list has `|history|+1` entries. Entry i has history[i]'s role and its stringified content. The last entry is `{user, stringify(message)}`. |
| OpenAI.Send | internal/providers/openai.go:49-90 | The request names the client's model and carries the conversion of history and message. The stream flag alone picks the streaming or the single-completion path. |
| OpenAI.SupportsStreaming | internal/providers/openai.go:92-94 | Always true. |
| OpenAI.HandleRateLimiting | internal/providers/openai.go:96-99 | Returns the error unchanged. |
| Wire.ConversionUnique | internal/providers/openai.go:51-84 | A history and a message have only one conversion. Both variants therefore send the same list. |
| Wire.HandleStreamingResponse | internal/providers/openai.go:101-130 | A failure to open the stream is returned as is. Otherwise the first-choice deltas are concatenated in arrival order up to EOF. Any other receive error returns that error and drops the partial text. OpenRouter's copy at openrouter.go:79-108 is the same code. |
| Wire.AccumulatedAppend | internal/providers/openai.go:114-127 | The accumulated text of a stream read in two parts is the two parts' texts, concatenated. |
| Wire.SingleReply | internal/providers/openai.go:132-146 | A backend error is returned as is; otherwise the reply is the first choice's content. |
| Wire.StreamingMatchesSingle | internal/providers/openai.go:86-89 | If a server streams the same text that it would answer in one completion, both paths give the same reply. |
| OpenRouter.New | internal/providers/openrouter.go:18-31 | Never fails. An empty model becomes "openai/gpt-3.5-turbo" and any other model is kept. The client is aimed at the OpenRouter base URL with the given key. |
| OpenRouter.BuildMessages | internal/providers/openrouter.go:33-63 | The index-filled slice has `|history|+1` entries. Index i < |history| holds the converted history[i], and the last entry is `{user, stringify(message)}`. |
| OpenRouter.SameMessagesAsOpenAI | internal/providers/openrouter.go:33-63 | For the same history and message, OpenRouter builds the same list as OpenAI. |
| OpenRouter.Send | internal/providers/openrouter.go:33-69 | The request names the client's model and carries the conversion. The stream flag picks the path. |
| OpenRouter.OtherServerThanOpenAI | internal/providers/openrouter.go:23-26 | A client aimed at OpenRouter's base URL talks to a different server than any OpenAI client, whatever the keys. |
| OpenRouter.SameReplyAsOpenAI | internal/providers/openrouter.go:33-108 | The two working variants differ only in where the request goes. With the same model, and a network that answers OpenRouter's server as it answers OpenAI's for the request both build, they give the same reply to the same arguments. |
| OpenRouter.SupportsStreaming | internal/providers/openrouter.go:71-73 | Always true. |
| OpenRouter.HandleRateLimiting | internal/providers/openrouter.go:75-77 | Returns the error unchanged. |
| Anthropic.New | internal/providers/anthropic.go:12-20 | Never fails. An empty model becomes "claude-2" and any other model is kept, as is the key. |
| Anthropic.Send | internal/providers/anthropic.go:22-24 | Always fails with the fixed not-implemented error, whatever the arguments. |
| Anthropic.SupportsStreaming | internal/providers/anthropic.go:26-28 | Always false. |
| Anthropic.HandleRateLimiting | internal/providers/anthropic.go:30-32 | Returns the error unchanged. |
| Cohere.New | internal/providers/cohere.go:12-20 | Never fails. An empty model becomes "command" and any other model is kept, as is the key. |
| Cohere.Send | internal/providers/cohere.go:22-24 | Always fails with the fixed not-implemented error, whatever the arguments. |
| Cohere.SupportsStreaming | internal/providers/cohere.go:26-28 | Always false. |
| Cohere.HandleRateLimiting | internal/providers/cohere.go:30-32 | Returns the error unchanged. |
| HuggingFace.New | internal/providers/huggingface.go:12-20 | Never fails. An empty model becomes "gpt2" and any other model is kept, as is the key. |
| HuggingFace.Send | internal/providers/huggingface.go:22-24 | Always fails with the fixed not-implemented error, whatever the arguments. |
| HuggingFace.SupportsStreaming | internal/providers/huggingface.go:26-28 | Always false. |
| HuggingFace.HandleRateLimiting | internal/providers/huggingface.go:30-32 | Returns the error unchanged. |
| Langchain.New | internal/providers/langchain.go:12-17 | Never fails. Key and model are kept exactly, with no default, so an empty model stays empty. |
| Langchain.Send | internal/providers/langchain.go:19-21 | Always fails with the fixed not-implemented error, whatever the arguments. |
| Langchain.SupportsStreaming | internal/providers/langchain.go:23-25 | Always false. |
| Langchain.HandleRateLimiting | internal/providers/langchain.go:27-29 | Returns the error unchanged. |
| Providers.New | internal/providers/provider.go:14-31 | Fails exactly when the name resolves to OpenAI and the defaulted model is not allow-listed, with OpenAI's error. Otherwise the provider is of the selected kind and holds the given API key and the per-kind effective model. An OpenRouter provider is aimed at OpenRouter's base URL. |
| Providers.UnknownNameIsOpenAI | internal/providers/provider.go:28-29 | Any name outside the six recognised ones behaves exactly like "openai". |
| Providers.FallbackExamples | internal/providers/provider.go:15-29 | The empty name gives OpenAI with its default model. "cohere" falls back to OpenAI and is rejected with the model "command", while "cohere-ai" gives Cohere. Matching is exact. |
| Providers.Send | internal/providers/provider.go:8-12 | The four stubs fail with a not-implemented error. The working variants send the common conversion under their own model to their own server. |
| Providers.SupportsStreaming | internal/providers/provider.go:10 | True exactly for OpenAI and OpenRouter. |
| Providers.HandleRateLimiting | internal/providers/provider.go:11 | Every variant passes the error through. |
| Messages.WireText | internal/providers/openai.go:56-63 | A string is sent verbatim; any other content is sent as its marshalled text. The same switch sits at openai.go:73-80 and openrouter.go:37-44 and :52-59. |
| Configuration.ValidityIgnoresModel | internal/config/config.go:114-116 | A config is valid exactly when provider and API key are both non-empty. The model plays no part. |
| Configuration.ParseLine | internal/config/config.go:95-107 | A line assigns nothing exactly when its trimmed form is blank, starts with `#`, or has no `=`. Otherwise the line splits at the first `=`: the key is the trimmed left side, and the value is the trimmed right side with every leading and trailing quote character stripped. |
| Configuration.ParsedKeyShape | internal/config/config.go:100-105 | A parsed key never contains `=`. |
| Configuration.ParsedValueShape | internal/config/config.go:106-107 | A parsed value neither starts nor ends with a quote character. |
| Configuration.QuotedValueParses | internal/config/config.go:100-107 | For a key that is non-empty, does not start with `#`, holds no `=` and has no space at either end, and a non-empty `v` that neither starts nor ends with a quote, `key="v"` assigns `v` to `key`, even when `v` contains `=`. The quote condition matters: `K="'a'"` assigns `a`, because `strings.Trim` strips every quote at both ends. |
| Configuration.CollectAppend | internal/config/config.go:94-109 | The assignments of two consecutive runs of lines are the first run's followed by the second's. |
| Configuration.AssignmentsInLineOrder | internal/config/config.go:93-109 | A file's assignments come in line order across any line break. |
| Configuration.SetEnv | internal/config/config.go:108 | An accepted pair sets its key and leaves every other variable alone. On Unix, `os.Setenv` rejects an empty key, a key with `=` or NUL, and a value with NUL; a rejected pair changes nothing. |
| Configuration.UnassignedUnchanged | internal/config/config.go:94-109 | A variable that no accepted assignment names keeps its value, or stays unset. Assignments to it that `os.Setenv` rejects do not count. |
| Configuration.LastAssignmentWins | internal/config/config.go:94-109 | The last accepted assignment to a key determines its value. Later assignments to other keys, and later ones to the same key that `os.Setenv` rejects, do not change it. |
| Configuration.FormatOf | internal/config/config.go:49-58 | A file is decoded as YAML exactly when its extension is ".yml" or ".yaml"; every other file is decoded as JSON. |
| Configuration.FormatFromLastDot | internal/config/config.go:49-58 | Only the text after the last dot of the final path element decides the format, and case matters. |
| Configuration.FormatWithoutExtension | internal/config/config.go:49-58 | A final path element without a dot is decoded as JSON. |
| Configuration.DefaultJsonFormat | internal/config/config.go:64-65 | The first default file is decoded as JSON. |
| Configuration.DefaultYamlFormats | internal/config/config.go:66-67 | The second and third default files are decoded as YAML. |
| Configuration.LoadFromFile | internal/config/config.go:42-61 | A read error is returned as is. Otherwise the result is the decoder for the path's format applied to the file contents. |
| Configuration.FirstLoaded | internal/config/config.go:63-77 | It fails exactly when every file fails, and the error is then "does not exist". |
| Configuration.FirstSuccessWins | internal/config/config.go:70-74 | When a file loads and every file before it fails, the result is that file's. |
| Configuration.Load | internal/config/config.go:18-40 | A non-empty path gives exactly that file's result, errors included, and leaves the environment alone. Without a path the result is never an error. The environment gains the `.env` assignments when that file can be read. The result is then the environment's config if `.env` was read and the config is valid. Failing that, it is the first default file that loads. Failing that, it is the environment's config, valid or not. |
| Configuration.LastProviderAndKey | internal/config/config.go:94-109 | After applying a run of assignments, `PROVIDER` and `API_KEY` hold the values of their last accepted assignments, whichever of the two comes last. |
| Configuration.DotEnvDecides | internal/config/config.go:18-40 | Without a path, a readable `.env` whose last accepted `PROVIDER` and `API_KEY` assignments are non-empty decides the result, in whichever order the two lines come: `Load` returns exactly those two values, whatever the default files hold. |
| EditCode.PreHook | cmd/actions/edit_code.go:13-26 | Never fails and passes the input through. Returns the transcript with one `{system, editor prompt}` message in front and the original messages after it, in order. |
| EditCode.PostHook | cmd/actions/edit_code.go:28-31 | Never fails and returns the response unchanged. |
| Actions.Get | internal/actions/actions.go:22-25 | Finds an action exactly for registered names, and then the registered action. |
| Actions.Register | internal/actions/actions.go:17-19 | After registering, the name finds the new action. Every other name finds what it found before. |
| Actions.RegisterOverwrites | internal/actions/actions.go:17-19 | Registering a name twice keeps only the later action. |
| Actions.RegisterCommutes | internal/actions/actions.go:17-19 | Registrations under different names can be made in either order. |
| Actions.EmptyRegistryKnowsNothing | internal/actions/actions.go:14 | The initial, empty registry finds nothing. |
| Actions.Builtin | cmd/actions/edit_code.go:7-9 | After start-up, "edit-code" finds the edit-code action and no other name finds anything. |
| Actions.BuiltinEditCode | cmd/actions/edit_code.go:13-31 | The action registered as "edit-code" prepends exactly the editor prompt and passes replies through. |
| GoStrings.TrimLeftSuffix | internal/config/config.go:105-107 | Left trimming drops a run of cut characters and keeps the rest of the string. |
| GoStrings.TrimRightPrefix | internal/config/config.go:105-107 | Right trimming drops a run of cut characters and keeps the start of the string. |
| GoStrings.TrimWithin | internal/config/config.go:105 | Every character of a trimmed string occurs in the input. |
| GoStrings.TrimKeeps | internal/config/config.go:105-107 | A string whose ends are outside the cut set is left unchanged. |
| GoStrings.TrimSurrounded | internal/config/config.go:107 | One cut character on each side of a string with kept ends is removed, and nothing more. |
| GoStrings.TrimSpace | internal/config/config.go:95 | The result is empty exactly when the line is all white space. Otherwise it neither starts nor ends with white space, where white space means Go's `unicode.IsSpace`. |
| GoStrings.Trim | internal/config/config.go:107 | The result is empty exactly when every character is in the cut set. Otherwise it starts and ends with a character outside the set. |
| GoStrings.Split | internal/config/config.go:93 | Gives at least one piece, no piece contains the separator, and joining the pieces with the separator gives back the input. |
| GoStrings.SplitJoin | internal/config/config.go:93 | Splitting the join of separator-free pieces gives those pieces back. |
| GoStrings.SplitFirst | internal/config/config.go:100-103 | Finds no separator exactly when there is none. Otherwise the input is the part before, the separator, and the part after, and the part before holds no separator. |
| GoStrings.FirstIndex | internal/config/config.go:100 | If the input is a separator-free part, the separator, and the rest, the first separator sits right after that part. |
| GoStrings.Ext | internal/config/config.go:49 | On Unix, with `/` as the only separator: the extension is no longer than the path. It is either empty or a dot followed by text with no dot or slash. |
| GoStrings.ExtIsSuffix | internal/config/config.go:49 | The extension is a suffix of the path. |
| GoStrings.ExtAppend | internal/config/config.go:49 | One more character: a `/` clears the extension, a `.` starts a new one, and any other character extends an existing one. |
| GoStrings.ExtExtends | internal/config/config.go:49 | Text without a dot or slash extends an existing extension. |
| GoStrings.ExtFromLastDot | internal/config/config.go:49 | When the final element has a dot, the extension is everything from its last dot. |
| GoStrings.NoExtAfterSlash | internal/config/config.go:49 | A final element without a dot has no extension, even when an earlier element has one. |
| GoStrings.NoExtWithoutDot | internal/config/config.go:49 | A path with no dot and no slash has no extension. |

## Left out

- History persistence: the history file path, reading it (`loadHistory`) and writing it
  (`saveHistory`). `NewSession` takes the stored transcript as an input. `Chat.Send`
  reports in `Turn.saved` what would be written. A history-file round trip depends on
  `encoding/json` and is not modelled.
- The network: `CreateChatCompletion` and `CreateChatCompletionStream` are the two
  function fields of `Wire.Network`. A completion or chunk with no choices would panic in
  the source at `Choices[0]`; the model requires at least one choice instead.
- The go-openai client library is not part of this model. `OpenAI.BaseURL` is that
  library's default server, which `openai.NewClient` uses. Other client settings, such as
  the organisation, HTTP client and API type, are left out.
- JSON and YAML encoding and decoding. `json.Marshal` is an uninterpreted `marshal`
  argument. The JSON and YAML decoders of `loadFromFile` are fields of
  `Configuration.FileSystem`.
- Configuration.LoadFromFile: when a file is read but does not decode, the source returns
  the partly filled config together with the error. The model keeps only the error. Neither
  caller uses it: `Load` (config.go:23) passes the pair on and the program exits on any
  error from `Load`, and `loadFromDefaultFiles` (config.go:71) skips a file that fails.
- Printing: streamed deltas, the trailing newline after a stream, and the warning printed
  when the provider cannot be built.
- A session whose provider failed to build. Only `NewOpenAI` can fail, and it returns a nil
  `*OpenAI`, which `providers.New` wraps in a non-nil `Provider` interface value
  (`provider.go:17` and `:29`). A `provider != nil` check would pass, and the next `Send`
  would panic on the nil receiver at `o.client`. The model records the failure as an
  absent provider, and `Chat.Send` requires a provider.
- The text of errors. `InvalidModel` carries the rejected model and the set of allowed
  names, because the source lists those names in map iteration order. The stub errors
  keep their exact texts. Backend, I/O and decode errors are opaque.
- `cmd/main.go`: flag parsing, version output, reading the prompt from a file, JSON
  detection of the prompt, and reading context files.
- Cancellation contexts and retry or backoff. `HandleRateLimiting` is the identity in
  every variant and nothing calls it.
- Byte-level string handling: strings are sequences of Unicode code points, so invalid
  UTF-8 input is not modelled.

## Findings

None. The model follows the code as written, including two points a reader might not
expect. A failed turn keeps the user message in the transcript. The `.env` assignments
stay in the environment even when they do not form a valid config, and the final fallback
of `Load` reads them.
