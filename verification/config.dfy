/** Configuration loading: an explicit config file, else a `.env` file
    folded into the environment, else the first default config file that
    loads, else the environment. The file system and the JSON and YAML
    decoders are inputs; the environment is a map. */
module Configuration {
  import opened Wrappers
  import opened Messages
  import opened GoStrings

  datatype Config = Config(provider: string, apiKey: string, model: string)

  /** The process environment. */
  type Env = map<string, string>

  /** What the loader can observe of the outside world: reading a file, and
      decoding its bytes as JSON or as YAML. */
  datatype FileSystem = FileSystem(
    read: string -> Result<string, Error>,
    decodeJson: string -> Result<Config, Error>,
    decodeYaml: string -> Result<Config, Error>)

  const DotEnvFile := ".env"
  const DefaultFiles := ["gopilot.config.json", "gopilot.config.yml", "gopilot.config.yaml"]

  /** `os.Getenv`: an unset variable reads as "". */
  function Getenv(env: Env, key: string): string {
    if key in env then env[key] else ""
  }

  /** `loadFromEnv`. */
  function FromEnv(env: Env): Config {
    Config(Getenv(env, "PROVIDER"), Getenv(env, "API_KEY"), Getenv(env, "MODEL"))
  }

  /** `isValidConfig`: a provider name and an API key are both present. */
  predicate IsValidConfig(cfg: Config) {
    cfg.provider != "" && cfg.apiKey != ""
  }

  /** Validity looks at the provider and the key only, never the model. */
  lemma ValidityIgnoresModel(cfg: Config, model: string)
    ensures IsValidConfig(cfg.(model := model)) <==> IsValidConfig(cfg)
    ensures IsValidConfig(cfg) <==> cfg.provider != "" && cfg.apiKey != ""
  {
  }

  // ---------------------------------------------------------------- .env

  /** The characters stripped from both ends of a value. */
  predicate IsQuote(c: char) {
    c == '"' || c == '\''
  }

  /** One `.env` line: trimmed; blank lines, `#` comments and lines without
      `=` assign nothing; otherwise the line splits at its FIRST `=`, both
      sides are trimmed, and every leading and trailing quote character is
      stripped from the value. */
  function ParseLine(line: string): (r: Option<(string, string)>)
    ensures var t := TrimSpace(line);
      r.None? <==> t == "" || t[0] == '#' || '=' !in t
    ensures r.Some? ==>
      var t := TrimSpace(line);
      var i := IndexOf(t, '=');
      r.value.0 == TrimSpace(t[..i]) && r.value.1 == Trim(TrimSpace(t[i + 1..]), IsQuote)
  {
    var t := TrimSpace(line);
    if t == "" || t[0] == '#' then None
    else
      match SplitFirst(t, '=')
      case NotFound => None
      case Found(key, value) =>
        FirstIndex(t, '=', key, value);
        Some((TrimSpace(key), Trim(TrimSpace(value), IsQuote)))
  }

  /** A parsed key holds no `=`. */
  lemma ParsedKeyShape(line: string)
    ensures ParseLine(line).Some? ==> '=' !in ParseLine(line).value.0
  {
    if ParseLine(line).Some? {
      var t := TrimSpace(line);
      TrimWithin(t[..IndexOf(t, '=')], IsSpace);
    }
  }

  /** A parsed value neither starts nor ends with a quote character. */
  lemma ParsedValueShape(line: string)
    ensures ParseLine(line).Some? && ParseLine(line).value.1 != "" ==>
      var v := ParseLine(line).value.1;
      !IsQuote(v[0]) && !IsQuote(v[|v| - 1])
  {
    if ParseLine(line).Some? {
      var t := TrimSpace(line);
      QuotesTrimmed(TrimSpace(t[IndexOf(t, '=') + 1..]));
    }
  }

  /** Trimming quotes leaves no quote at either end. */
  lemma QuotesTrimmed(s: string)
    ensures var v := Trim(s, IsQuote); v != [] ==> !IsQuote(v[0]) && !IsQuote(v[|v| - 1])
  {
  }

  /** The results `parse` gives the lines that yield one, in line order. */
  function Collect<T>(lines: seq<string>, parse: string -> Option<T>): seq<T> {
    if lines == [] then []
    else
      match parse(lines[0])
      case None => Collect(lines[1..], parse)
      case Some(kv) => [kv] + Collect(lines[1..], parse)
  }

  /** Collecting respects line order: the results of two consecutive runs
      of lines are those of the first run followed by those of the second. */
  lemma {:induction false} CollectAppend<T>(a: seq<string>, b: seq<string>, parse: string -> Option<T>)
    ensures Collect(a + b, parse) == Collect(a, parse) + Collect(b, parse)
    decreases |a|
  {
    if a == [] {
      assert a + b == b;
    } else {
      assert (a + b)[0] == a[0];
      assert (a + b)[1..] == a[1..] + b;
      CollectAppend(a[1..], b, parse);
      match parse(a[0])
      case None =>
      case Some(kv) =>
        assert Collect(a + b, parse) == [kv] + Collect(a[1..] + b, parse);
    }
  }

  /** The assignments of a `.env` file: its `\n`-separated lines, parsed. */
  function Assignments(data: string): seq<(string, string)> {
    Collect(Split(data, '\n'), ParseLine)
  }

  /** The assignments of two runs of lines joined by a line break are those
      of the first run followed by those of the second: a file is read in
      line order. */
  lemma AssignmentsInLineOrder(first: string, second: string)
    ensures Assignments(first + "\n" + second) == Assignments(first) + Assignments(second)
  {
    var a := Split(first, '\n');
    var b := Split(second, '\n');
    JoinAppend(a, b, '\n');
    SplitJoin(a + b, '\n');
    CollectAppend(a, b, ParseLine);
  }

  /** Whether `os.Setenv` accepts the pair: a non-empty key without `=` or
      NUL, and a value without NUL. */
  predicate Settable(key: string, value: string) {
    key != "" && '=' !in key && '\0' !in key && '\0' !in value
  }

  /** `os.Setenv`, whose error the loader ignores. */
  function SetEnv(env: Env, key: string, value: string): (env': Env)
    ensures Settable(key, value) ==> key in env' && env'[key] == value
    ensures forall k :: k != key ==> (k in env' <==> k in env)
    ensures forall k :: k != key && k in env ==> env'[k] == env[k]
    ensures !Settable(key, value) ==> env' == env
  {
    if Settable(key, value) then env[key := value] else env
  }

  /** Applies assignments to the environment in order. */
  function ApplyAll(env: Env, assigns: seq<(string, string)>): Env
    decreases |assigns|
  {
    if assigns == [] then env
    else ApplyAll(SetEnv(env, assigns[0].0, assigns[0].1), assigns[1..])
  }

  lemma {:induction false} ApplyAllAppend(env: Env, a: seq<(string, string)>, b: seq<(string, string)>)
    ensures ApplyAll(env, a + b) == ApplyAll(ApplyAll(env, a), b)
    decreases |a|
  {
    if a == [] {
      assert a + b == b;
    } else {
      var env1 := SetEnv(env, a[0].0, a[0].1);
      assert (a + b)[0] == a[0];
      assert (a + b)[1..] == a[1..] + b;
      assert ApplyAll(env, a + b) == ApplyAll(env1, a[1..] + b);
      ApplyAllAppend(env1, a[1..], b);
    }
  }

  /** A variable that no accepted assignment names keeps its value, or
      stays unset: assignments to other keys, and assignments to it that
      `os.Setenv` rejects, leave it alone. */
  lemma {:induction false} UnassignedUnchanged(env: Env, assigns: seq<(string, string)>, key: string)
    requires forall i :: 0 <= i < |assigns| && assigns[i].0 == key ==> !Settable(assigns[i].0, assigns[i].1)
    ensures key in ApplyAll(env, assigns) <==> key in env
    ensures key in env ==> ApplyAll(env, assigns)[key] == env[key]
    decreases |assigns|
  {
    if assigns != [] {
      UnassignedUnchanged(SetEnv(env, assigns[0].0, assigns[0].1), assigns[1..], key);
    }
  }

  /** The last accepted assignment to a key wins: later assignments to
      other keys, and later ones to the same key that `os.Setenv` rejects,
      do not change it. */
  lemma LastAssignmentWins(env: Env, before: seq<(string, string)>, key: string, value: string,
                           after: seq<(string, string)>)
    requires Settable(key, value)
    requires forall i :: 0 <= i < |after| && after[i].0 == key ==> !Settable(after[i].0, after[i].1)
    ensures key in ApplyAll(env, before + [(key, value)] + after)
    ensures ApplyAll(env, before + [(key, value)] + after)[key] == value
  {
    ApplyAllAppend(env, before + [(key, value)], after);
    ApplyAllAppend(env, before, [(key, value)]);
    var mid := ApplyAll(env, before + [(key, value)]);
    assert mid == SetEnv(ApplyAll(env, before), key, value);
    UnassignedUnchanged(mid, after, key);
  }

  /** `loadDotEnv` after a successful read: every line's assignment, in
      file order. */
  function ApplyDotEnv(env: Env, data: string): Env {
    ApplyAll(env, Assignments(data))
  }

  /** A quoted value comes back without its quotes and with any `=` it
      contains, under its key. */
  lemma QuotedValueParses(key: string, inner: string)
    requires key != [] && key[0] != '#' && '=' !in key
    requires !IsSpace(key[0]) && !IsSpace(key[|key| - 1])
    requires inner != [] && !IsQuote(inner[0]) && !IsQuote(inner[|inner| - 1])
    ensures ParseLine(key + "=\"" + inner + "\"") == Some((key, inner))
  {
    var t := key + "=\"" + inner + "\"";
    var quoted := [('"')] + inner + [('"')];
    assert t == key + ['='] + quoted;
    assert t[0] == key[0] && t[|t| - 1] == '"';
    TrimKeeps(t, IsSpace);
    assert TrimSpace(t) == t;
    FirstIndex(t, '=', key, quoted);
    TrimKeeps(key, IsSpace);
    TrimKeeps(quoted, IsSpace);
    TrimSurrounded(inner, '"', IsQuote);
    assert ParseLine(t).Some?;
  }

  // ---------------------------------------------------------------- files

  datatype Format = JsonFormat | YamlFormat

  /** `loadFromFile`'s extension switch: ".yml" and ".yaml" are YAML, and
      ".json" as well as every other extension, none included, is JSON. */
  function FormatOf(path: string): (f: Format)
    ensures f == YamlFormat <==> Ext(path) in {".yml", ".yaml"}
  {
    var ext := Ext(path);
    if ext == ".json" then JsonFormat
    else if ext == ".yml" || ext == ".yaml" then YamlFormat
    else JsonFormat
  }

  /** Only the text after the last dot of the final path element decides
      the format, and case matters: "yml" and "yaml" select YAML, anything
      else JSON. */
  lemma FormatFromLastDot(pre: string, tail: string)
    requires '.' !in tail && '/' !in tail
    ensures FormatOf(pre + "." + tail) == (if tail == "yml" || tail == "yaml" then YamlFormat else JsonFormat)
  {
    ExtFromLastDot(pre, tail);
    assert ("." + tail)[1..] == tail;
    assert ".yml"[1..] == "yml" && ".yaml"[1..] == "yaml";
  }

  /** A final path element without a dot is read as JSON. */
  lemma FormatWithoutExtension(pre: string, tail: string)
    requires '.' !in tail && '/' !in tail
    ensures FormatOf(pre + "/" + tail) == JsonFormat
  {
    NoExtAfterSlash(pre, tail);
  }

  /** The first default file is decoded as JSON. */
  lemma DefaultJsonFormat()
    ensures FormatOf(DefaultFiles[0]) == JsonFormat
  {
    assert DefaultFiles[0] == "gopilot.config" + "." + "json";
    FormatFromLastDot("gopilot.config", "json");
  }

  /** The second and third default files are decoded as YAML. */
  lemma DefaultYamlFormats()
    ensures FormatOf(DefaultFiles[1]) == YamlFormat
    ensures FormatOf(DefaultFiles[2]) == YamlFormat
  {
    DefaultYmlFormat();
    DefaultYamlFormat();
  }

  lemma DefaultYmlFormat()
    ensures FormatOf(DefaultFiles[1]) == YamlFormat
  {
    assert DefaultFiles[1] == "gopilot.config" + "." + "yml";
    FormatFromLastDot("gopilot.config", "yml");
  }

  lemma DefaultYamlFormat()
    ensures FormatOf(DefaultFiles[2]) == YamlFormat
  {
    assert DefaultFiles[2] == "gopilot.config" + "." + "yaml";
    FormatFromLastDot("gopilot.config", "yaml");
  }

  /** `loadFromFile`: a read error as is, else the decoder for the path's
      format applied to the contents. */
  function LoadFromFile(fs: FileSystem, path: string): (r: Result<Config, Error>)
    ensures fs.read(path).Failure? ==> r == Failure(fs.read(path).error)
    ensures fs.read(path).Success? && FormatOf(path) == YamlFormat ==> r == fs.decodeYaml(fs.read(path).value)
    ensures fs.read(path).Success? && FormatOf(path) == JsonFormat ==> r == fs.decodeJson(fs.read(path).value)
  {
    match fs.read(path)
    case Failure(e) => Failure(e)
    case Success(data) =>
      match FormatOf(path)
      case JsonFormat => fs.decodeJson(data)
      case YamlFormat => fs.decodeYaml(data)
  }

  /** `loadFromDefaultFiles` over `paths`, with `load` the per-file loader:
      the first file that loads wins; if none does, the result is "does not
      exist". */
  function FirstLoaded(paths: seq<string>, load: string -> Result<Config, Error>): (r: Result<Config, Error>)
    ensures r.Failure? <==> forall i :: 0 <= i < |paths| ==> load(paths[i]).Failure?
    ensures r.Failure? ==> r.error == NotExist
    decreases |paths|
  {
    if paths == [] then Failure(NotExist)
    else
      var first := load(paths[0]);
      if first.Success? then first
      else
        var rest := FirstLoaded(paths[1..], load);
        assert forall i :: 1 <= i < |paths| ==> paths[i] == paths[1..][i - 1];
        rest
  }

  /** The first file that loads wins: when every earlier file fails, the
      result is that file's. */
  lemma {:induction false} FirstSuccessWins(paths: seq<string>, load: string -> Result<Config, Error>, i: nat)
    requires i < |paths| && load(paths[i]).Success?
    requires forall j :: 0 <= j < i ==> load(paths[j]).Failure?
    ensures FirstLoaded(paths, load) == load(paths[i])
    decreases i
  {
    if i > 0 {
      assert load(paths[0]).Failure?;
      assert paths[1..][i - 1] == paths[i];
      assert forall j :: 0 <= j < i - 1 ==> paths[1..][j] == paths[j + 1];
      FirstSuccessWins(paths[1..], load, i - 1);
    }
  }

  /** The per-file loader `Load` uses. */
  function Loader(fs: FileSystem): string -> Result<Config, Error> {
    path => LoadFromFile(fs, path)
  }

  /** The outcome of `Load`: the configuration or error, and the
      environment afterwards (the `.env` assignments are applied to it). */
  datatype Loaded = Loaded(config: Result<Config, Error>, env: Env)

  /** `Load`. A non-empty path yields exactly that file's result and
      touches nothing else. Without a path the result is never an error:
      if `.env` can be read its assignments are applied to the environment,
      and the environment's configuration is used if it is valid; otherwise
      the first default file that loads; otherwise the environment's
      configuration, valid or not. */
  function Load(configPath: string, fs: FileSystem, env: Env): (o: Loaded)
    ensures configPath != "" ==> o == Loaded(LoadFromFile(fs, configPath), env)
    ensures configPath == "" ==> o.config.Success?
    ensures configPath == "" ==>
      o.env == (if fs.read(".env").Success? then ApplyDotEnv(env, fs.read(".env").value) else env)
    ensures configPath == "" && fs.read(".env").Success? && IsValidConfig(FromEnv(o.env)) ==>
      o.config.value == FromEnv(o.env)
    ensures configPath == "" && !(fs.read(".env").Success? && IsValidConfig(FromEnv(o.env))) ==>
      o.config == (if FirstLoaded(DefaultFiles, Loader(fs)).Success? then FirstLoaded(DefaultFiles, Loader(fs)) else Success(FromEnv(o.env)))
  {
    if configPath != "" then Loaded(LoadFromFile(fs, configPath), env)
    else
      var dot := fs.read(DotEnvFile);
      var env' := if dot.Success? then ApplyDotEnv(env, dot.value) else env;
      if dot.Success? && IsValidConfig(FromEnv(env')) then Loaded(Success(FromEnv(env')), env')
      else
        var defaults := FirstLoaded(DefaultFiles, Loader(fs));
        if defaults.Success? then Loaded(defaults, env')
        else Loaded(Success(FromEnv(env')), env')
  }

  /** The last accepted `PROVIDER` and `API_KEY` assignments are the two
      values the environment ends up with, in whichever order they come. */
  lemma LastProviderAndKey(env: Env, run: seq<(string, string)>,
                           b1: seq<(string, string)>, provider: string, a1: seq<(string, string)>,
                           b2: seq<(string, string)>, apiKey: string, a2: seq<(string, string)>)
    requires run == b1 + [("PROVIDER", provider)] + a1
    requires run == b2 + [("API_KEY", apiKey)] + a2
    requires Settable("PROVIDER", provider) && Settable("API_KEY", apiKey)
    requires forall i :: 0 <= i < |a1| && a1[i].0 == "PROVIDER" ==> !Settable(a1[i].0, a1[i].1)
    requires forall i :: 0 <= i < |a2| && a2[i].0 == "API_KEY" ==> !Settable(a2[i].0, a2[i].1)
    ensures var e := ApplyAll(env, run);
      Getenv(e, "PROVIDER") == provider && Getenv(e, "API_KEY") == apiKey
  {
    LastAssignmentWins(env, b1, "PROVIDER", provider, a1);
    LastAssignmentWins(env, b2, "API_KEY", apiKey, a2);
  }

  /** Without a path, a readable `.env` whose last accepted `PROVIDER` and
      `API_KEY` assignments are non-empty decides the result: `Load` returns
      exactly those two values, whatever the default files hold. */
  lemma DotEnvDecides(fs: FileSystem, env: Env, data: string,
                      b1: seq<(string, string)>, provider: string, a1: seq<(string, string)>,
                      b2: seq<(string, string)>, apiKey: string, a2: seq<(string, string)>)
    requires fs.read(DotEnvFile) == Success(data)
    requires Assignments(data) == b1 + [("PROVIDER", provider)] + a1
    requires Assignments(data) == b2 + [("API_KEY", apiKey)] + a2
    requires provider != "" && Settable("PROVIDER", provider)
    requires apiKey != "" && Settable("API_KEY", apiKey)
    requires forall i :: 0 <= i < |a1| && a1[i].0 == "PROVIDER" ==> !Settable(a1[i].0, a1[i].1)
    requires forall i :: 0 <= i < |a2| && a2[i].0 == "API_KEY" ==> !Settable(a2[i].0, a2[i].1)
    ensures Load("", fs, env).config.value.provider == provider
    ensures Load("", fs, env).config.value.apiKey == apiKey
  {
    LastProviderAndKey(env, Assignments(data), b1, provider, a1, b2, apiKey, a2);
    var env' := ApplyDotEnv(env, data);
    assert Getenv(env', "PROVIDER") == provider && Getenv(env', "API_KEY") == apiKey;
    assert IsValidConfig(FromEnv(env'));
  }
}
