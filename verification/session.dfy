/** The chat session: the in-memory transcript and how `AddContext` and
    `Send` change it. The provider's reply to a turn is an input, and saving
    the transcript is reported rather than performed. */
module Chat {
  import opened Wrappers
  import opened Messages
  import Providers
  import OpenRouter
  import Wire
  import Configuration

  /** The per-turn flags. */
  datatype Options = Options(stream: bool, newChat: bool, oneShot: bool)

  /** A session: the provider (absent when construction failed, which the
      source only warns about) and the transcript. */
  datatype Session = Session(provider: Option<Providers.Provider>, history: seq<Message>)

  /** The outcome of one `Send`: the session afterwards, the reply, and the
      transcript written to the history file, if it was written. */
  datatype Turn = Turn(session: Session, reply: Result<string, Error>, saved: Option<seq<Message>>)

  /** `NewSession`: the provider the factory builds from the configuration,
      or none if it fails, and the transcript loaded from the history file
      (`stored`, empty when the file is missing or unreadable). */
  function NewSession(cfg: Configuration.Config, stored: seq<Message>): (s: Session)
    ensures s.history == stored
    ensures s.provider.Some? <==> Providers.New(cfg.provider, cfg.apiKey, cfg.model).Success?
    ensures s.provider.Some? ==> Providers.KindOf(s.provider.value) == Providers.Selected(cfg.provider)
    ensures s.provider.Some? ==>
      && Providers.ModelOf(s.provider.value) == Providers.EffectiveModel(Providers.Selected(cfg.provider), cfg.model)
      && Providers.KeyOf(s.provider.value) == cfg.apiKey
      && (s.provider.value.OpenRouterProvider? ==> s.provider.value.openrouter.baseURL == OpenRouter.BaseURL)
  {
    Session(Providers.New(cfg.provider, cfg.apiKey, cfg.model).ToOption(), stored)
  }

  /** `AddContext`: one system message carrying the context, after
      everything already in the transcript. */
  function AddContext(s: Session, context: string): (s': Session)
    ensures |s'.history| == |s.history| + 1
    ensures s'.history[..|s.history|] == s.history
    ensures s'.history[|s.history|] == Message("system", Text(context))
    ensures s'.provider == s.provider
  {
    s.(history := s.history + [Message(SystemRole, Text(context))])
  }

  /** The user message a turn records. */
  function UserMessage(input: Content): Message {
    Message(UserRole, input)
  }

  /** The assistant message a successful turn records. */
  function AssistantMessage(reply: string): Message {
    Message(AssistantRole, Text(reply))
  }

  /** `Send`, given the provider's reply to `input`. A new chat empties the
      transcript first, whatever the other flags. A one-shot turn then
      leaves it alone; any other turn records the user message before the
      provider is asked and the assistant reply only if the provider
      succeeded, and only then is the transcript saved. The reply, or the
      error, is returned as the provider gave it. */
  function Send(s: Session, input: Content, opts: Options, reply: Result<string, Error>): (t: Turn)
    requires s.provider.Some?
    ensures t.session.provider == s.provider
    ensures t.reply == reply
    ensures var base := if opts.newChat then [] else s.history;
      && (opts.oneShot ==> t.session.history == base)
      && (!opts.oneShot && reply.Failure? ==> t.session.history == base + [Message("user", input)])
      && (!opts.oneShot && reply.Success? ==>
            t.session.history == base + [Message("user", input), Message("assistant", Text(reply.value))])
    ensures t.saved.Some? <==> !opts.oneShot && reply.Success?
    ensures t.saved.Some? ==> t.saved.value == t.session.history
  {
    var cleared := if opts.newChat then [] else s.history;
    var asked := if !opts.oneShot then cleared + [UserMessage(input)] else cleared;
    match reply
    case Failure(e) => Turn(s.(history := asked), Failure(e), None)
    case Success(response) =>
      if !opts.oneShot then
        var answered := asked + [AssistantMessage(response)];
        Turn(s.(history := answered), Success(response), Some(answered))
      else
        Turn(s.(history := asked), Success(response), None)
  }

  /** Clearing happens before anything else: a new-chat turn is the same
      turn taken from an empty transcript. */
  lemma NewChatStartsFromEmpty(s: Session, input: Content, opts: Options, reply: Result<string, Error>)
    requires s.provider.Some? && opts.newChat
    ensures Send(s, input, opts, reply) == Send(s.(history := []), input, opts.(newChat := false), reply)
  {
  }

  /** A one-shot turn that does not start a new chat changes nothing and
      saves nothing, on success or failure. */
  lemma OneShotKeepsHistory(s: Session, input: Content, opts: Options, reply: Result<string, Error>)
    requires s.provider.Some? && opts.oneShot && !opts.newChat
    ensures Send(s, input, opts, reply).session == s
    ensures Send(s, input, opts, reply).saved == None
  {
  }

  /** A failed turn that is not one-shot is not rolled back: the transcript
      keeps the user message, gains no assistant message, and is not saved. */
  lemma FailedTurnKeepsUserMessage(s: Session, input: Content, opts: Options, e: Error)
    requires s.provider.Some? && !opts.oneShot
    ensures var t := Send(s, input, opts, Failure(e));
      && |t.session.history| == |(if opts.newChat then [] else s.history)| + 1
      && t.session.history[|t.session.history| - 1] == Message("user", input)
      && t.reply == Failure(e)
      && t.saved == None
  {
  }

  /** Every message the session writes has a known role, so a transcript
      that starts with known roles keeps them. */
  lemma SendKeepsKnownRoles(s: Session, input: Content, opts: Options, reply: Result<string, Error>)
    requires s.provider.Some? && KnownRoles(s.history)
    ensures KnownRoles(Send(s, input, opts, reply).session.history)
  {
    var h := Send(s, input, opts, reply).session.history;
    var base := if opts.newChat then [] else s.history;
    assert forall i :: 0 <= i < |base| ==> KnownRole(base[i].role);
    assert forall i :: |base| <= i < |h| ==> KnownRole(h[i].role);
  }

  lemma AddContextKeepsKnownRoles(s: Session, context: string)
    requires KnownRoles(s.history)
    ensures KnownRoles(AddContext(s, context).history)
  {
    var h := AddContext(s, context).history;
    assert forall i :: 0 <= i < |s.history| ==> h[i] == s.history[i];
  }

  /** A conversation: successive default turns (no stream, no new chat, not
      one-shot), each given its input and the provider's successful reply. */
  function Converse(s: Session, turns: seq<(Content, string)>): (s': Session)
    requires s.provider.Some?
    ensures s'.provider == s.provider
    decreases |turns|
  {
    if turns == [] then s
    else Converse(Send(s, turns[0].0, Options(false, false, false), Success(turns[0].1)).session, turns[1..])
  }

  /** The transcript a conversation adds: a user message and the assistant
      reply for each turn, in order. */
  function Exchanges(turns: seq<(Content, string)>): seq<Message> {
    if turns == [] then []
    else [UserMessage(turns[0].0), AssistantMessage(turns[0].1)] + Exchanges(turns[1..])
  }

  /** After a conversation of successful default turns, the transcript is
      the old one followed by every turn's user and assistant messages in
      order, two messages per turn. */
  lemma {:induction false} ConverseAppendsExchanges(s: Session, turns: seq<(Content, string)>)
    requires s.provider.Some?
    ensures Converse(s, turns).history == s.history + Exchanges(turns)
    ensures |Converse(s, turns).history| == |s.history| + 2 * |turns|
    decreases |turns|
  {
    if turns != [] {
      var pair := [UserMessage(turns[0].0), AssistantMessage(turns[0].1)];
      var s1 := Send(s, turns[0].0, Options(false, false, false), Success(turns[0].1)).session;
      assert s1.history == s.history + pair;
      assert Converse(s, turns) == Converse(s1, turns[1..]);
      assert Exchanges(turns) == pair + Exchanges(turns[1..]);
      ConverseAppendsExchanges(s1, turns[1..]);
      assert s.history + pair + Exchanges(turns[1..]) == s.history + (pair + Exchanges(turns[1..]));
    }
  }

  /** With a stub provider the reply is its fixed error, whatever history or
      message it is handed, so a turn that is not one-shot leaves the user
      message recorded without a reply and returns that error. */
  lemma StubProviderTurn(s: Session, input: Content, opts: Options, handed: seq<Message>,
                         net: Wire.Network, marshal: Json -> string)
    requires s.provider.Some? && !Providers.Working(s.provider.value) && !opts.oneShot
    ensures var reply := Providers.Send(s.provider.value, handed, input, opts.stream, net, marshal);
      var t := Send(s, input, opts, reply);
      && t.reply.Failure? && t.reply.error.NotImplemented?
      && t.session.history == (if opts.newChat then [] else s.history) + [Message("user", input)]
      && t.saved == None
  {
  }
}
