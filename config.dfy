/**
 * The configuration loader (src/config.ts): `loadEnv` layers the env files of
 * the current mode under the process environment, and `loadConfig` validates
 * the five settings. The file system and `dotenv.parse` are inputs: each env
 * file name maps to what `statSync` and `readFileSync` + `parse` give for it.
 */
module Config {
  import opened Js
  import OpenAILLM

  // ---------------------------------------------------------------------------
  // Mode and the layered file list

  datatype Mode = Development | Test | Production

  /** The mode `loadEnv` picks from `NODE_ENV`. */
  function ModeOf(nodeEnv: Option<string>): Mode {
    if nodeEnv == Some("production") then Production
    else if nodeEnv == Some("test") then Test
    else Development
  }

  function ModeName(mode: Mode): string {
    match mode
    case Development => "development"
    case Test => "test"
    case Production => "production"
  }

  /** The array literal `loadEnv` builds, `None` standing for the `false` of the test mode. */
  function EnvFileCandidates(mode: Mode): seq<Option<string>> {
    [ Some(".env." + ModeName(mode) + ".local"),
      if mode != Test then Some(".env.local") else None,
      Some(".env." + ModeName(mode)),
      Some(".env") ]
  }

  /** The env files of a mode, highest priority first: the candidates after `.filter(Boolean)`. */
  function EnvFiles(mode: Mode): seq<string> {
    Truthies(EnvFileCandidates(mode))
  }

  /** Filtering four candidates of which the first, third and fourth are truthy. */
  lemma FilterFour(a: Option<string>, b: Option<string>, c: Option<string>, d: Option<string>)
    requires Truthy(a) && Truthy(c) && Truthy(d)
    ensures Truthies([a, b, c, d]) == [a.value] + (if Truthy(b) then [b.value] else []) + [c.value, d.value]
  {
    var mid := if Truthy(b) then [b.value] else [];
    assert [a][..0] == [];
    assert Truthies([a]) == [a.value];
    assert [a, b][..1] == [a];
    assert Truthies([a, b]) == [a.value] + mid;
    assert [a, b, c][..2] == [a, b];
    assert Truthies([a, b, c]) == [a.value] + mid + [c.value];
    assert [a, b, c, d][..3] == [a, b, c];
    assert Truthies([a, b, c, d]) == [a.value] + mid + [c.value] + [d.value];
  }

  /** `.env.local` is left out exactly in the test mode; the other three layers are always there. */
  lemma EnvFilesShape(mode: Mode)
    ensures var name := ModeName(mode);
      EnvFiles(mode) ==
        if mode == Test then [".env." + name + ".local", ".env." + name, ".env"]
        else [".env." + name + ".local", ".env.local", ".env." + name, ".env"]
  {
    var c := EnvFileCandidates(mode);
    FilterFour(c[0], c[1], c[2], c[3]);
    assert c == [c[0], c[1], c[2], c[3]];
  }

  lemma ProductionEnvFiles()
    ensures EnvFiles(Production) == [".env.production.local", ".env.local", ".env.production", ".env"]
  {
    EnvFilesShape(Production);
    assert ModeName(Production) == "production";
    assert ".env." + "production" + ".local" == ".env.production.local";
    assert ".env." + "production" == ".env.production";
  }

  lemma TestEnvFiles()
    ensures EnvFiles(Test) == [".env.test.local", ".env.test", ".env"]
  {
    EnvFilesShape(Test);
    assert ModeName(Test) == "test";
    assert ".env." + "test" + ".local" == ".env.test.local";
    assert ".env." + "test" == ".env.test";
  }

  lemma DevelopmentEnvFiles()
    ensures EnvFiles(Development) == [".env.development.local", ".env.local", ".env.development", ".env"]
  {
    EnvFilesShape(Development);
    assert ModeName(Development) == "development";
    assert ".env." + "development" + ".local" == ".env.development.local";
    assert ".env." + "development" == ".env.development";
  }

  /**
   * The files consulted for each value of `NODE_ENV`, in priority order: the mode
   * is `production` or `test` exactly when `NODE_ENV` says so, else `development`.
   */
  lemma EnvFilesForNodeEnv(nodeEnv: Option<string>)
    ensures nodeEnv == Some("production") ==>
      EnvFiles(ModeOf(nodeEnv)) == [".env.production.local", ".env.local", ".env.production", ".env"]
    ensures nodeEnv == Some("test") ==>
      EnvFiles(ModeOf(nodeEnv)) == [".env.test.local", ".env.test", ".env"]
    ensures nodeEnv != Some("production") && nodeEnv != Some("test") ==>
      EnvFiles(ModeOf(nodeEnv)) == [".env.development.local", ".env.local", ".env.development", ".env"]
  {
    if nodeEnv == Some("production") {
      ProductionEnvFiles();
    } else if nodeEnv == Some("test") {
      TestEnvFiles();
    } else {
      DevelopmentEnvFiles();
    }
  }

  // ---------------------------------------------------------------------------
  // Reading one env file

  /** The part of an `fs.Stats` the code could consult. */
  datatype Stats = Stats(isFile: bool)

  /** What `statSync` and then `parse(readFileSync(...))` give for an existing entry. */
  datatype EnvFile = EnvFile(stat: Result<Stats, Thrown>, read: Result<map<string, string>, Thrown>)

  /** What `statSync` throws for a name that does not exist. */
  function NotFound(name: string): Thrown {
    Thrown(true, Some("ENOENT"), Some("stat"), "ENOENT: no such file or directory, stat '" + name + "'")
  }

  datatype Attempt = Parsed(entries: map<string, string>) | Threw(error: Thrown)

  /**
   * The `try` block for one file. The guard `if (!stat.isFile)` tests the method
   * object, which is always truthy, so it never skips: the stats are not consulted
   * and a non-regular file is read like any other.
   */
  function ReadEnvFile(name: string, fs: map<string, EnvFile>): Attempt {
    if name !in fs then Threw(NotFound(name))
    else
      match fs[name].stat
      case Failure(e) => Threw(e)
      case Success(_) =>
        match fs[name].read
        case Failure(e) => Threw(e)
        case Success(entries) => Parsed(entries)
  }

  /** `isSystemError`: an `Error` that carries both `code` and `syscall`. */
  predicate IsSystemError(e: Thrown) {
    e.isError && e.code.Some? && e.syscall.Some?
  }

  /** The `catch` filter: only system errors other than ENOENT are rethrown. */
  predicate Aborts(e: Thrown) {
    IsSystemError(e) && e.code.value != "ENOENT"
  }

  datatype ConfigError =
    | EnvFileUnreadable(path: string)
    | MissingVariable(name: string)
    | UnsupportedModel(model: string)

  /** The message of the `Error` thrown for each failure. */
  function Message(e: ConfigError): (msg: string)
    ensures e.EnvFileUnreadable? ==> OccursAt(msg, e.path, |msg| - |e.path|)
    ensures e.MissingVariable? ==> OccursAt(msg, e.name, 1)
    ensures e.UnsupportedModel? ==> OccursAt(msg, e.model, |msg| - |e.model|)
  {
    match e
    case EnvFileUnreadable(path) =>
      var msg := "Failed to read environment file: " + path;
      assert msg[|msg| - |path|..] == path;
      msg
    case MissingVariable(name) =>
      var msg := "'" + name + "' environment variable is required.";
      assert msg[1..1 + |name|] == name;
      msg
    case UnsupportedModel(model) =>
      var msg := "'OPENAI_CHAT_MODEL' environment variable contains invalid or unsupported chat model: " + model;
      assert msg[|msg| - |model|..] == model;
      msg
  }

  // ---------------------------------------------------------------------------
  // Merging the files

  /**
   * The entries one parsed file adds to `acc`: those whose key is neither defined
   * on `acc` nor on the process environment `env` (inherited members included).
   */
  function Absorb(acc: map<string, string>, env: map<string, string>, parsed: map<string, string>): map<string, string> {
    acc + map k | k in parsed && !Defined(acc, k) && !Defined(env, k) :: parsed[k]
  }

  /** One iteration of the file loop. */
  function Step(name: string, fs: map<string, EnvFile>, env: map<string, string>, acc: map<string, string>)
    : Result<map<string, string>, ConfigError>
  {
    match ReadEnvFile(name, fs)
    case Parsed(entries) => Success(Absorb(acc, env, entries))
    case Threw(e) => if Aborts(e) then Failure(EnvFileUnreadable(name)) else Success(acc)
  }

  /** The file loop from `acc` on, as a fold: the first aborting file stops it. */
  function MergeFrom(files: seq<string>, fs: map<string, EnvFile>, env: map<string, string>, acc: map<string, string>)
    : Result<map<string, string>, ConfigError>
    decreases |files|
  {
    if files == [] then Success(acc)
    else
      match Step(files[0], fs, env, acc)
      case Failure(e) => Failure(e)
      case Success(next) => MergeFrom(files[1..], fs, env, next)
  }

  /** The first file, in priority order, whose read fails with an aborting error. */
  function FirstAbort(files: seq<string>, fs: map<string, EnvFile>): Option<string> {
    if files == [] then None
    else
      match ReadEnvFile(files[0], fs)
      case Threw(e) => if Aborts(e) then Some(files[0]) else FirstAbort(files[1..], fs)
      case Parsed(_) => FirstAbort(files[1..], fs)
  }

  /** The value the first file, in priority order, that parses and defines `key` gives it. */
  function FirstValue(files: seq<string>, fs: map<string, EnvFile>, key: string): Option<string> {
    if files == [] then None
    else
      match ReadEnvFile(files[0], fs)
      case Parsed(entries) => if key in entries then Some(entries[key]) else FirstValue(files[1..], fs, key)
      case Threw(_) => FirstValue(files[1..], fs, key)
  }

  /** The merge fails exactly when some file aborts, and then names the first such file. */
  lemma {:induction false} MergeFailsOnFirstAbort(files: seq<string>, fs: map<string, EnvFile>, env: map<string, string>, acc: map<string, string>)
    ensures MergeFrom(files, fs, env, acc).Failure? <==> FirstAbort(files, fs).Some?
    ensures FirstAbort(files, fs).Some? ==>
      MergeFrom(files, fs, env, acc) == Failure(EnvFileUnreadable(FirstAbort(files, fs).value))
    decreases |files|
  {
    if files != [] {
      var step := Step(files[0], fs, env, acc);
      if step.Success? {
        MergeFailsOnFirstAbort(files[1..], fs, env, step.value);
      }
    }
  }

  /**
   * What the merge holds for a key: what `acc` held, or else, when the process
   * environment does not define the key, the value of the first file defining it.
   */
  lemma {:induction false} MergedEntry(files: seq<string>, fs: map<string, EnvFile>, env: map<string, string>, acc: map<string, string>, key: string)
    requires MergeFrom(files, fs, env, acc).Success?
    ensures var merged := MergeFrom(files, fs, env, acc).value;
      && (key in merged <==> key in acc || (!Defined(env, key) && key !in OBJECT_PROTOTYPE_MEMBERS && FirstValue(files, fs, key).Some?))
      && (key in merged ==> merged[key] == if key in acc then acc[key] else FirstValue(files, fs, key).value)
    decreases |files|
  {
    if files != [] {
      var next := Step(files[0], fs, env, acc).value;
      MergedEntry(files[1..], fs, env, next, key);
    }
  }

  /** A file defines `key` when it parses and its entries hold `key`. */
  predicate Defines(name: string, fs: map<string, EnvFile>, key: string) {
    ReadEnvFile(name, fs).Parsed? && key in ReadEnvFile(name, fs).entries
  }

  /** An earlier file's value wins over every later file's. */
  lemma {:induction false} EarlierFileWins(files: seq<string>, fs: map<string, EnvFile>, key: string, i: nat)
    requires i < |files| && Defines(files[i], fs, key)
    requires forall j :: 0 <= j < i ==> !Defines(files[j], fs, key)
    ensures FirstValue(files, fs, key) == Some(ReadEnvFile(files[i], fs).entries[key])
    decreases i
  {
    if i > 0 {
      assert !Defines(files[0], fs, key);
      EarlierFileWins(files[1..], fs, key, i - 1);
    }
  }

  /** The inner loop over `Object.keys(result)` for one parsed file. */
  method AbsorbFile(parsedEnv: map<string, string>, env: map<string, string>, result: map<string, string>)
    returns (merged: map<string, string>)
    ensures merged == Absorb(parsedEnv, env, result)
  {
    merged := parsedEnv;
    var keys := result.Keys;
    while keys != {}
      invariant keys <= result.Keys
      invariant forall k :: k in merged <==>
        k in parsedEnv || (k in result && k !in keys && !Defined(parsedEnv, k) && !Defined(env, k))
      invariant forall k :: k in merged ==> merged[k] == if k in parsedEnv then parsedEnv[k] else result[k]
      decreases keys
    {
      var key :| key in keys;
      if !Defined(merged, key) && !Defined(env, key) {
        merged := merged[key := result[key]];
      }
      keys := keys - {key};
    }
  }

  /** The outer loop of `loadEnv` over the env files, filling `parsedEnv`. */
  method MergeEnvFiles(files: seq<string>, fs: map<string, EnvFile>, env: map<string, string>)
    returns (r: Result<map<string, string>, ConfigError>)
    ensures r == MergeFrom(files, fs, env, map[])
  {
    var parsedEnv: map<string, string> := map[];
    for i := 0 to |files|
      invariant MergeFrom(files, fs, env, map[]) == MergeFrom(files[i..], fs, env, parsedEnv)
    {
      assert files[i..][0] == files[i] && files[i..][1..] == files[i + 1..];
      match ReadEnvFile(files[i], fs)
      case Threw(err) =>
        if IsSystemError(err) && err.code.value != "ENOENT" {
          return Failure(EnvFileUnreadable(files[i]));
        }
      case Parsed(result) =>
        parsedEnv := AbsorbFile(parsedEnv, env, result);
    }
    assert files[|files|..] == [];
    return Success(parsedEnv);
  }

  // ---------------------------------------------------------------------------
  // The whole of loadEnv

  function NodeEnv(env: map<string, string>): Option<string> {
    Get(env, "NODE_ENV")
  }

  /** The result of `loadEnv` for a process environment: the merge laid under it. */
  function LoadedEnv(env: map<string, string>, fs: map<string, EnvFile>): Result<map<string, string>, ConfigError> {
    match MergeFrom(EnvFiles(ModeOf(NodeEnv(env))), fs, env, map[])
    case Failure(e) => Failure(e)
    case Success(merged) => Success(env + merged)
  }

  /**
   * What the loaded environment holds for each key: the process environment's
   * value if it has one, else the value from the highest-priority file defining
   * the key (keys named like `Object.prototype` members are never taken from a file).
   */
  lemma LoadedEnvEntry(env: map<string, string>, fs: map<string, EnvFile>, key: string)
    ensures LoadedEnv(env, fs).Success? ==>
      var loaded := LoadedEnv(env, fs).value;
      var files := EnvFiles(ModeOf(NodeEnv(env)));
      && (key in loaded <==> key in env || (key !in OBJECT_PROTOTYPE_MEMBERS && FirstValue(files, fs, key).Some?))
      && (key in loaded ==> loaded[key] == if key in env then env[key] else FirstValue(files, fs, key).value)
  {
    if LoadedEnv(env, fs).Success? {
      MergedEntry(EnvFiles(ModeOf(NodeEnv(env))), fs, env, map[], key);
    }
  }

  /** The process environment always wins: every key it defines keeps its value. */
  lemma ProcessEnvWins(env: map<string, string>, fs: map<string, EnvFile>, key: string)
    ensures LoadedEnv(env, fs).Success? && key in env ==>
      key in LoadedEnv(env, fs).value && LoadedEnv(env, fs).value[key] == env[key]
  {
    LoadedEnvEntry(env, fs, key);
  }

  /** `loadEnv` fails exactly when a file read fails with an aborting error, naming the first such file. */
  lemma LoadedEnvFailure(env: map<string, string>, fs: map<string, EnvFile>)
    ensures var files := EnvFiles(ModeOf(NodeEnv(env)));
      && (LoadedEnv(env, fs).Failure? <==> FirstAbort(files, fs).Some?)
      && (LoadedEnv(env, fs).Failure? ==> LoadedEnv(env, fs).error == EnvFileUnreadable(FirstAbort(files, fs).value))
  {
    MergeFailsOnFirstAbort(EnvFiles(ModeOf(NodeEnv(env))), fs, env, map[]);
  }

  /** A missing file is skipped: the merge goes on as if it were not listed. */
  lemma MissingFileSkipped(name: string, fs: map<string, EnvFile>, env: map<string, string>, acc: map<string, string>)
    requires name !in fs
    ensures Step(name, fs, env, acc) == Success(acc)
  {
  }

  /** A thrown value that is not a system error (no `code` or no `syscall`) is swallowed too. */
  lemma NonSystemErrorSkipped(name: string, fs: map<string, EnvFile>, env: map<string, string>, acc: map<string, string>)
    requires ReadEnvFile(name, fs).Threw? && !IsSystemError(ReadEnvFile(name, fs).error)
    ensures Step(name, fs, env, acc) == Success(acc)
  {
  }

  /**
   * The `isFile` guard never fires: whatever `statSync` reports about the kind of
   * entry, one iteration of the file loop does the same.
   */
  lemma StatKindIgnored(name: string, fs: map<string, EnvFile>, env: map<string, string>, acc: map<string, string>, isFile: bool)
    requires name in fs && fs[name].stat.Success?
    ensures Step(name, fs, env, acc) == Step(name, fs[name := EnvFile(Success(Stats(isFile)), fs[name].read)], env, acc)
  {
  }

  /**
   * A corollary: the `isFile` guard never fires: an entry that is not a regular file is read
   * anyway, so a directory named like an env file aborts with EISDIR instead of
   * being skipped.
   */
  lemma DirectoryIsNotSkipped(name: string, fs: map<string, EnvFile>, env: map<string, string>, acc: map<string, string>)
    requires name in fs && fs[name].stat == Success(Stats(false))
    requires fs[name].read == Failure(Thrown(true, Some("EISDIR"), Some("read"), "EISDIR: illegal operation on a directory, read"))
    ensures Step(name, fs, env, acc) == Failure(EnvFileUnreadable(name))
  {
    StatKindIgnored(name, fs, env, acc, true);
  }

  // ---------------------------------------------------------------------------
  // loadConfig

  /** The variables `loadConfig` requires, in the order it checks them. */
  const REQUIRED_VARIABLES: seq<string> := [
    "AZURE_DOCUMENT_INTELLIGENCE_ENDPOINT",
    "AZURE_DOCUMENT_INTELLIGENCE_API_KEY",
    "OPENAI_API_BASE_URL",
    "OPENAI_API_KEY"
  ]

  datatype Config = Config(
    documentIntelligenceEndpoint: string,
    documentIntelligenceApiKey: string,
    openAIApiBaseUrl: string,
    openAIApiKey: string,
    openAIChatModel: string)

  /** `env.OPENAI_CHAT_MODEL || 'o3-mini'`. */
  function ChatModelSetting(env: map<string, string>): string {
    var v := Get(env, "OPENAI_CHAT_MODEL");
    if Truthy(v) then v.value else OpenAILLM.DEFAULT_CHAT_MODEL
  }

  /** The checks of `loadConfig` on the loaded environment; the first failing one wins. */
  function ValidateConfig(env: map<string, string>): (r: Result<Config, ConfigError>)
    ensures r.Failure? ==> r.error.MissingVariable? || r.error.UnsupportedModel?
    ensures r.Failure? && r.error.MissingVariable? ==> r.error.name in REQUIRED_VARIABLES
    ensures r.Failure? && r.error.UnsupportedModel? ==>
      r.error.model == ChatModelSetting(env) && !OpenAILLM.IsChatModel(r.error.model)
    ensures r.Success? ==> r.value.openAIChatModel == ChatModelSetting(env) && OpenAILLM.IsChatModel(r.value.openAIChatModel)
  {
    var endpoint := Get(env, "AZURE_DOCUMENT_INTELLIGENCE_ENDPOINT");
    if !Truthy(endpoint) then Failure(MissingVariable("AZURE_DOCUMENT_INTELLIGENCE_ENDPOINT"))
    else
      var apiKey := Get(env, "AZURE_DOCUMENT_INTELLIGENCE_API_KEY");
      if !Truthy(apiKey) then Failure(MissingVariable("AZURE_DOCUMENT_INTELLIGENCE_API_KEY"))
      else
        var baseUrl := Get(env, "OPENAI_API_BASE_URL");
        if !Truthy(baseUrl) then Failure(MissingVariable("OPENAI_API_BASE_URL"))
        else
          var openAIKey := Get(env, "OPENAI_API_KEY");
          if !Truthy(openAIKey) then Failure(MissingVariable("OPENAI_API_KEY"))
          else
            var model := ChatModelSetting(env);
            if !OpenAILLM.IsChatModel(model) then Failure(UnsupportedModel(model))
            else Success(Config(endpoint.value, apiKey.value, baseUrl.value, openAIKey.value, model))
  }

  /** Validation succeeds exactly when the four required variables are non-empty and the chat model is listed. */
  lemma ValidateConfigSucceeds(env: map<string, string>)
    ensures ValidateConfig(env).Success? <==>
      (forall i :: 0 <= i < |REQUIRED_VARIABLES| ==> Truthy(Get(env, REQUIRED_VARIABLES[i])))
      && OpenAILLM.IsChatModel(ChatModelSetting(env))
  {
    var names := REQUIRED_VARIABLES;
    assert names[0] == "AZURE_DOCUMENT_INTELLIGENCE_ENDPOINT";
    assert names[1] == "AZURE_DOCUMENT_INTELLIGENCE_API_KEY";
    assert names[2] == "OPENAI_API_BASE_URL";
    assert names[3] == "OPENAI_API_KEY";
  }

  /** A validated configuration holds the environment's values, all non-empty. */
  lemma ValidatedFields(env: map<string, string>)
    requires ValidateConfig(env).Success?
    ensures var config := ValidateConfig(env).value;
      && Get(env, REQUIRED_VARIABLES[0]) == Some(config.documentIntelligenceEndpoint)
      && Get(env, REQUIRED_VARIABLES[1]) == Some(config.documentIntelligenceApiKey)
      && Get(env, REQUIRED_VARIABLES[2]) == Some(config.openAIApiBaseUrl)
      && Get(env, REQUIRED_VARIABLES[3]) == Some(config.openAIApiKey)
      && config.documentIntelligenceEndpoint != "" && config.documentIntelligenceApiKey != ""
      && config.openAIApiBaseUrl != "" && config.openAIApiKey != "" && config.openAIChatModel != ""
  {
    var names := REQUIRED_VARIABLES;
    assert names[0] == "AZURE_DOCUMENT_INTELLIGENCE_ENDPOINT";
    assert names[1] == "AZURE_DOCUMENT_INTELLIGENCE_API_KEY";
    assert names[2] == "OPENAI_API_BASE_URL";
    assert names[3] == "OPENAI_API_KEY";
    OpenAILLM.EmptyModelRejected();
  }

  /** The required variables are checked in order: the error names the first one that is unset or empty. */
  lemma FirstMissingVariableNamed(env: map<string, string>, i: nat)
    requires i < |REQUIRED_VARIABLES|
    ensures ValidateConfig(env) == Failure(MissingVariable(REQUIRED_VARIABLES[i])) <==>
      !Truthy(Get(env, REQUIRED_VARIABLES[i])) && forall j :: 0 <= j < i ==> Truthy(Get(env, REQUIRED_VARIABLES[j]))
  {
    var names := REQUIRED_VARIABLES;
    assert names[0] == "AZURE_DOCUMENT_INTELLIGENCE_ENDPOINT";
    assert names[1] == "AZURE_DOCUMENT_INTELLIGENCE_API_KEY";
    assert names[2] == "OPENAI_API_BASE_URL";
    assert names[3] == "OPENAI_API_KEY";
  }

  /** With the four required settings present, an unset or empty model setting validates as "o3-mini". */
  lemma DefaultChatModelApplies(env: map<string, string>)
    requires forall i :: 0 <= i < |REQUIRED_VARIABLES| ==> Truthy(Get(env, REQUIRED_VARIABLES[i]))
    requires !Truthy(Get(env, "OPENAI_CHAT_MODEL"))
    ensures ValidateConfig(env).Success? && ValidateConfig(env).value.openAIChatModel == "o3-mini"
  {
    OpenAILLM.DefaultModelIsListed();
    assert ChatModelSetting(env) == OpenAILLM.DEFAULT_CHAT_MODEL;
    assert Truthy(Get(env, REQUIRED_VARIABLES[0])) && Truthy(Get(env, REQUIRED_VARIABLES[1]));
    assert Truthy(Get(env, REQUIRED_VARIABLES[2])) && Truthy(Get(env, REQUIRED_VARIABLES[3]));
  }

  /** An endpoint that is unset (and not supplied by a file) fails first, naming the variable. */
  lemma MissingEndpointNamed(env: map<string, string>)
    requires "AZURE_DOCUMENT_INTELLIGENCE_ENDPOINT" !in env
    ensures ValidateConfig(env) == Failure(MissingVariable("AZURE_DOCUMENT_INTELLIGENCE_ENDPOINT"))
  {
  }

  /**
   * With the four required settings present, a model setting that is not on the
   * allow-list fails with an error naming that setting.
   */
  lemma UnknownModelNamed(env: map<string, string>)
    requires forall i :: 0 <= i < |REQUIRED_VARIABLES| ==> Truthy(Get(env, REQUIRED_VARIABLES[i]))
    requires !OpenAILLM.IsChatModel(ChatModelSetting(env))
    ensures ValidateConfig(env) == Failure(UnsupportedModel(ChatModelSetting(env)))
  {
    assert Truthy(Get(env, REQUIRED_VARIABLES[0])) && Truthy(Get(env, REQUIRED_VARIABLES[1]));
    assert Truthy(Get(env, REQUIRED_VARIABLES[2])) && Truthy(Get(env, REQUIRED_VARIABLES[3]));
  }

  /** `loadConfig` as a whole: load the environment, then validate it. */
  function ConfigFrom(env: map<string, string>, fs: map<string, EnvFile>): Result<Config, ConfigError> {
    match LoadedEnv(env, fs)
    case Failure(e) => Failure(e)
    case Success(loaded) => ValidateConfig(loaded)
  }

  /** The process environment after `loadEnv`, whether or not it succeeded. */
  function EnvAfterLoad(env: map<string, string>, fs: map<string, EnvFile>): map<string, string> {
    match LoadedEnv(env, fs)
    case Failure(_) => env
    case Success(loaded) => loaded
  }

  // ---------------------------------------------------------------------------
  // The process whose environment loadEnv updates in place

  class Process {
    var env: map<string, string>

    constructor (env: map<string, string>)
      ensures this.env == env
    {
      this.env := env;
    }

    /** `loadEnv`: merge the env files, then `Object.assign(process.env, parsedEnv)`. */
    method LoadEnv(fs: map<string, EnvFile>) returns (r: Result<map<string, string>, ConfigError>)
      modifies this
      ensures r == LoadedEnv(old(env), fs)
      ensures env == EnvAfterLoad(old(env), fs)
      ensures r.Success? ==> env == r.value
    {
      var mode := ModeOf(Get(env, "NODE_ENV"));
      var merged := MergeEnvFiles(EnvFiles(mode), fs, env);
      if merged.Failure? {
        return Failure(merged.error);
      }
      env := env + merged.value;
      return Success(env);
    }

    /** `loadConfig`. */
    method LoadConfig(fs: map<string, EnvFile>) returns (r: Result<Config, ConfigError>)
      modifies this
      ensures r == ConfigFrom(old(env), fs)
      ensures env == EnvAfterLoad(old(env), fs)
    {
      var loaded := LoadEnv(fs);
      if loaded.Failure? {
        return Failure(loaded.error);
      }
      return ValidateConfig(loaded.value);
    }
  }
}
