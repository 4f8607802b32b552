/** The action registry: a map from names to actions, where registering a
    name again replaces its action. The source fills it by self-registration
    at load time; here it is an explicit value. */
module Actions {
  import opened Wrappers
  import opened Messages
  import EditCode

  /** The implementations of the `Action` interface. */
  datatype Action = EditCodeAction

  /** The pre-hook of an action. */
  function PreHook(a: Action, input: Content, history: seq<Message>): Result<EditCode.Prepared, Error> {
    match a
    case EditCodeAction => EditCode.PreHook(input, history)
  }

  /** The post-hook of an action. */
  function PostHook(a: Action, response: string): Result<string, Error> {
    match a
    case EditCodeAction => EditCode.PostHook(response)
  }

  type Registry<A> = map<string, A>

  /** `Get`: the action registered under `name`, if any. */
  function Get<A>(registry: Registry<A>, name: string): (r: Option<A>)
    ensures r.Some? <==> name in registry
    ensures r.Some? ==> r.value == registry[name]
  {
    if name in registry then Some(registry[name]) else None
  }

  /** `Register`: afterwards `name` looks up `action`, and every other
      name looks up what it did before. */
  function Register<A>(registry: Registry<A>, name: string, action: A): (r: Registry<A>)
    ensures Get(r, name) == Some(action)
    ensures forall other :: other != name ==> Get(r, other) == Get(registry, other)
  {
    registry[name := action]
  }

  /** Registering a name twice keeps only the later action. */
  lemma RegisterOverwrites<A>(registry: Registry<A>, name: string, first: A, second: A)
    ensures Register(Register(registry, name, first), name, second) == Register(registry, name, second)
  {
  }

  /** Registrations under different names commute. */
  lemma RegisterCommutes<A>(registry: Registry<A>, n1: string, a1: A, n2: string, a2: A)
    requires n1 != n2
    ensures Register(Register(registry, n1, a1), n2, a2) == Register(Register(registry, n2, a2), n1, a1)
  {
  }

  /** The empty registry knows no name. */
  lemma EmptyRegistryKnowsNothing<A>(registry: Registry<A>, name: string)
    requires registry == map[]
    ensures Get(registry, name) == None
  {
  }

  /** The registry after start-up: "edit-code" registered. */
  function Builtin(): (r: Registry<Action>)
    ensures Get(r, "edit-code") == Some(EditCodeAction)
    ensures forall name :: name != "edit-code" ==> Get(r, name) == None
  {
    Register(map[], "edit-code", EditCodeAction)
  }

  /** The action found under "edit-code" prepends exactly one system
      message and leaves replies alone. */
  lemma BuiltinEditCode(input: Content, history: seq<Message>, response: string)
    ensures Get(Builtin(), "edit-code").Some?
    ensures var a := Get(Builtin(), "edit-code").value;
      && PreHook(a, input, history).Success?
      && PreHook(a, input, history).value.history == [Message("system", Text(EditCode.EditorPrompt))] + history
      && PostHook(a, response) == Success(response)
  {
    var r := PreHook(EditCodeAction, input, history).value.history;
    assert r == [r[0]] + r[1..];
  }
}
