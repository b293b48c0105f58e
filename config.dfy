/**
 * The AI provider configuration: `initConfig`'s defaulting chain, the
 * snapshot `saveConfig` writes, and `loadConfig`'s null-on-failure read.
 * A field is None when it is undefined; JavaScript's `a || b` takes `a` only
 * when it is a non-empty string.
 */
module Config {
  import opened Js

  datatype AiConfig = AiConfig(apiKey: Option<string>, baseUrl: Option<string>, modelName: Option<string>, systemPrompt: Option<string>)

  /** The three environment variables consulted: API_KEY, BASE_URL and MODEL_NAME. */
  datatype Env = Env(apiKey: Option<string>, baseUrl: Option<string>, modelName: Option<string>)

  /** The object written to config.json: every config field plus `pausedChats` as an array. */
  datatype Snapshot = Snapshot(config: AiConfig, pausedChats: seq<string>)

  /** What reading config.json can meet. */
  datatype ConfigFile = Missing | Unreadable | Malformed | Parsed(saved: Option<Snapshot>)

  const DefaultBaseUrl: string := "https://openrouter.ai/api/v1"
  const DefaultModelName: string := "google/gemma-3n-e4b-it"
  const DefaultSystemPrompt: string := "You are a helpful and concise WhatsApp assistant. You answer in Indonesian."

  predicate Truthy(v: Option<string>) {
    v.Some? && v.value != []
  }

  /** `a || b` on possibly undefined strings. */
  function Or(a: Option<string>, b: Option<string>): Option<string> {
    if Truthy(a) then a else b
  }

  /**
   * `initConfig`: each of apiKey, baseUrl and modelName is the saved value
   * if truthy, else the environment's; baseUrl and modelName then fall back
   * to fixed defaults; systemPrompt ignores the environment.
   */
  function InitConfig(saved: Option<Snapshot>, env: Env): (c: AiConfig)
    ensures saved.Some? && Truthy(saved.value.config.apiKey) ==> c.apiKey == saved.value.config.apiKey
    ensures !(saved.Some? && Truthy(saved.value.config.apiKey)) ==> c.apiKey == env.apiKey
    ensures Truthy(c.baseUrl) && Truthy(c.modelName) && Truthy(c.systemPrompt)
    ensures saved.Some? && Truthy(saved.value.config.baseUrl) ==> c.baseUrl == saved.value.config.baseUrl
    ensures !(saved.Some? && Truthy(saved.value.config.baseUrl)) && Truthy(env.baseUrl) ==> c.baseUrl == env.baseUrl
    ensures !(saved.Some? && Truthy(saved.value.config.baseUrl)) && !Truthy(env.baseUrl) ==> c.baseUrl == Some(DefaultBaseUrl)
    ensures saved.Some? && Truthy(saved.value.config.modelName) ==> c.modelName == saved.value.config.modelName
    ensures !(saved.Some? && Truthy(saved.value.config.modelName)) && Truthy(env.modelName) ==> c.modelName == env.modelName
    ensures !(saved.Some? && Truthy(saved.value.config.modelName)) && !Truthy(env.modelName) ==> c.modelName == Some(DefaultModelName)
    ensures saved.Some? && Truthy(saved.value.config.systemPrompt) ==> c.systemPrompt == saved.value.config.systemPrompt
    ensures !(saved.Some? && Truthy(saved.value.config.systemPrompt)) ==> c.systemPrompt == Some(DefaultSystemPrompt)
  {
    var s := if saved.Some? then saved.value.config else AiConfig(None, None, None, None);
    AiConfig(
      Or(s.apiKey, env.apiKey),
      Or(Or(s.baseUrl, env.baseUrl), Some(DefaultBaseUrl)),
      Or(Or(s.modelName, env.modelName), Some(DefaultModelName)),
      Or(s.systemPrompt, Some(DefaultSystemPrompt)))
  }

  /**
   * Saving the initialised configuration and initialising again from the
   * saved file, under the same environment, gives the same configuration:
   * a restart does not drift.
   */
  lemma InitConfigStableAcrossRestart(saved: Option<Snapshot>, env: Env, paused: seq<string>)
    ensures var c := InitConfig(saved, env);
            InitConfig(Some(Snapshot(c, paused)), env) == c
  {
  }

  /**
   * `Array.from(pausedChats)`: every member of the set exactly once. (The
   * order, the set's insertion order, is not modelled: any order is allowed.)
   */
  method PausedList(paused: set<string>) returns (list: seq<string>)
    ensures |list| == |paused|
    ensures forall j :: j in list <==> j in paused
    ensures forall i, k | 0 <= i < k < |list| :: list[i] != list[k]
  {
    list := [];
    var rest := paused;
    while rest != {}
      invariant rest <= paused
      invariant forall j :: j in list <==> j in paused - rest
      invariant forall i, k | 0 <= i < k < |list| :: list[i] != list[k]
      invariant |list| + |rest| == |paused|
      decreases |rest|
    {
      var j :| j in rest;
      assert j !in list;
      var before := list;
      list := list + [j];
      assert forall i | 0 <= i < |before| :: list[i] == before[i] && list[i] != j;
      rest := rest - {j};
    }
  }

  /** The `toSave` object of `saveConfig`. */
  method SaveConfig(config: AiConfig, paused: set<string>) returns (snap: Snapshot)
    ensures snap.config == config
    ensures |snap.pausedChats| == |paused|
    ensures forall j :: j in snap.pausedChats <==> j in paused
  {
    var list := PausedList(paused);
    snap := Snapshot(config, list);
  }

  /** `loadConfig`: the parsed object, or null when the file is missing, unreadable or malformed. */
  function LoadConfig(file: ConfigFile): (r: Option<Snapshot>)
    ensures file.Parsed? ==> r == file.saved
    ensures !file.Parsed? ==> r == None
  {
    match file
    case Parsed(saved) => saved
    case _ => None
  }

  /** A failed load still initialises every field from the environment or the defaults. */
  lemma FailedLoadUsesEnvAndDefaults(file: ConfigFile, env: Env)
    requires !file.Parsed?
    ensures InitConfig(LoadConfig(file), env) ==
            AiConfig(env.apiKey,
                     if Truthy(env.baseUrl) then env.baseUrl else Some(DefaultBaseUrl),
                     if Truthy(env.modelName) then env.modelName else Some(DefaultModelName),
                     Some(DefaultSystemPrompt))
  {
  }
}
