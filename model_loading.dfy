/** `ModelLoader` (utils/model_loader.py): required API keys, the embedding model name and the
    choice of chat model, from the process environment and the loaded YAML configuration. */
module ModelLoading {
  import opened Wrappers
  import opened Failures
  import Text

  /** A configuration value as the YAML loader gives it. A float is kept as the text Python
      prints for it: the model never computes with one. */
  datatype Value =
    | StrValue(s: string)
    | IntValue(i: int)
    | FloatValue(repr: string)
    | BoolValue(b: bool)
    | NoneValue
    | MapValue(entries: map<string, Value>)

  /** The process environment, `os.environ`. */
  type Env = map<string, string>

  const GroqKey := "GROQ_API_KEY"
  const GoogleKey := "google_api_key"
  const RequiredEnvVars: seq<string> := [GroqKey, GoogleKey]

  /** `os.getenv(key)` */
  function GetEnv(env: Env, key: string): Option<string>
  {
    if key in env then Some(env[key]) else None
  }

  /** `not os.getenv(key)`: absent or empty. */
  predicate IsUnset(env: Env, key: string)
  {
    key !in env || env[key] == ""
  }

  /** `self.api_keys`: each required name with what the environment holds for it. */
  function ApiKeys(env: Env): (keys: map<string, Option<string>>)
    ensures keys.Keys == {GroqKey, GoogleKey}
  {
    map k | k in RequiredEnvVars :: GetEnv(env, k)
  }

  /** The names among `keys` that the environment leaves unset, in the order of `keys`. */
  function Unset(keys: seq<string>, env: Env): (missing: seq<string>)
    ensures forall k :: k in missing <==> k in keys && IsUnset(env, k)
    ensures |missing| <= |keys|
    decreases |keys|
  {
    if keys == [] then []
    else (if IsUnset(env, keys[0]) then [keys[0]] else []) + Unset(keys[1..], env)
  }

  /** `missing_vars` in `_validate_env`: exactly the unset required names, `GROQ_API_KEY` first. */
  function MissingVars(env: Env): (missing: seq<string>)
    ensures forall k :: k in missing <==> k in RequiredEnvVars && IsUnset(env, k)
    ensures missing == (if IsUnset(env, GroqKey) then [GroqKey] else [])
                     + (if IsUnset(env, GoogleKey) then [GoogleKey] else [])
  {
    assert RequiredEnvVars[1..] == [GoogleKey] && [GoogleKey][1..] == [];
    assert Unset([GoogleKey], env) == (if IsUnset(env, GoogleKey) then [GoogleKey] else []) + Unset([], env);
    Unset(RequiredEnvVars, env)
  }

  /** `_validate_env`: raises exactly when some required key is unset; otherwise keeps the
      keys. */
  function ValidateEnv(env: Env): (r: Result<map<string, Option<string>>, Failure>)
    ensures r.Failure? <==> IsUnset(env, GroqKey) || IsUnset(env, GoogleKey)
    ensures r.Failure? ==> r.error == PortalError("Missing required environment variables.", None)
    ensures r.Success? ==> forall k :: k in r.value ==> r.value[k].Some? && r.value[k].value != ""
  {
    if MissingVars(env) != [] then Failure(PortalError("Missing required environment variables.", None))
    else Success(ApiKeys(env))
  }

  /** `value[key]`. The `TypeError` text is abbreviated: Python names the value's type, as in
      "'NoneType' object is not subscriptable". */
  function Subscript(v: Value, key: string): Result<Value, Failure>
  {
    match v
    case MapValue(m) => if key in m then Success(m[key]) else Failure(KeyError(key))
    case _ => Failure(TypeError("configuration value is not a mapping"))
  }

  /** `value.get(key, default)`. The failure keeps only the attribute name: Python's text is
      e.g. "'str' object has no attribute 'get'". */
  function GetOr(v: Value, key: string, default: Value): Result<Value, Failure>
  {
    match v
    case MapValue(m) => Success(if key in m then m[key] else default)
    case _ => Failure(AttributeError("get"))
  }

  /** `str(value)` for the values a provider name can hold. */
  function Show(v: Value): string
  {
    match v
    case StrValue(s) => s
    case IntValue(i) => Text.IntToString(i)
    case FloatValue(r) => r
    case BoolValue(b) => if b then "True" else "False"
    case NoneValue => "None"
    case MapValue(_) => "{...}"
  }

  /** `type(value).__name__` */
  function TypeName(v: Value): string
  {
    match v
    case StrValue(_) => "str"
    case IntValue(_) => "int"
    case FloatValue(_) => "float"
    case BoolValue(_) => "bool"
    case NoneValue => "NoneType"
    case MapValue(_) => "dict"
  }

  datatype Embeddings = GoogleEmbeddings(modelName: Value)

  /** The configuration names an embedding model at `embedding_model.model_name`. */
  predicate HasEmbeddingName(config: Value)
  {
    && config.MapValue? && "embedding_model" in config.entries
    && config.entries["embedding_model"].MapValue?
    && "model_name" in config.entries["embedding_model"].entries
  }

  function EmbeddingName(config: Value): Value
    requires HasEmbeddingName(config)
  {
    config.entries["embedding_model"].entries["model_name"]
  }

  /** `load_embeddings`: the model named at `embedding_model.model_name`. A lookup failure, and
      the embeddings class refusing that name, both become one `DocumentPortalException`. */
  function LoadEmbeddings(config: Value, lib: Constructors): (r: Result<Embeddings, Failure>)
    ensures r.Success? <==> HasEmbeddingName(config) && lib.embeddings(EmbeddingName(config)).None?
    ensures r.Success? ==> r.value.modelName == EmbeddingName(config)
    ensures r.Failure? ==> r.error == PortalError("Failed to load embeddings", None)
  {
    match Subscript(config, "embedding_model")
    case Failure(_) => Failure(PortalError("Failed to load embeddings", None))
    case Success(block) =>
      match Subscript(block, "model_name")
      case Failure(_) => Failure(PortalError("Failed to load embeddings", None))
      case Success(name) =>
        if lib.embeddings(name).Some? then Failure(PortalError("Failed to load embeddings", None))
        else Success(GoogleEmbeddings(name))
  }

  datatype Provider = Google | Groq

  /** The arguments a chat model is built with. */
  datatype ChatModel = ChatModel(provider: Provider, modelName: Value, temperature: Value, maxTokens: Value)

  /** The library classes the loader instantiates, by what each raises for the arguments it is
      given (None when construction succeeds): `GoogleGenerativeAIEmbeddings(model=...)`, and
      `ChatGoogleGenerativeAI(...)` or `ChatGroq(...)`. */
  datatype Constructors = Constructors(embeddings: Value -> Option<Failure>, chat: ChatModel -> Option<Failure>)

  const DefaultTemperature := FloatValue("0.2")
  const DefaultMaxTokens := IntValue(2048)

  /** `os.getenv("LLM_PROVIDER", "groq")` */
  function ProviderKey(env: Env): (key: string)
    ensures "LLM_PROVIDER" !in env ==> key == "groq"
    ensures "LLM_PROVIDER" in env ==> key == env["LLM_PROVIDER"]
  {
    if "LLM_PROVIDER" in env then env["LLM_PROVIDER"] else "groq"
  }

  /** The `llm` block of the configuration is a mapping that holds an entry for `key`, and that
      entry is itself a mapping. */
  predicate HasProviderEntry(config: Value, key: string)
  {
    && config.MapValue? && "llm" in config.entries
    && config.entries["llm"].MapValue? && key in config.entries["llm"].entries
    && config.entries["llm"].entries[key].MapValue?
  }

  function ProviderEntry(config: Value, key: string): map<string, Value>
    requires HasProviderEntry(config, key)
  {
    config.entries["llm"].entries[key].entries
  }

  function Setting(entry: map<string, Value>, name: string, default: Value): Value
  {
    if name in entry then entry[name] else default
  }

  /** The entry the provider key selects names a provider the loader knows. */
  predicate KnownProvider(config: Value, env: Env)
  {
    HasProviderEntry(config, ProviderKey(env))
    && Setting(ProviderEntry(config, ProviderKey(env)), "provider", NoneValue) in {StrValue("google"), StrValue("groq")}
  }

  /** The chat model such an entry asks for, with the defaults filled in. */
  function Requested(config: Value, env: Env): ChatModel
    requires KnownProvider(config, env)
  {
    var entry := ProviderEntry(config, ProviderKey(env));
    ChatModel(if entry["provider"] == StrValue("google") then Google else Groq,
              Setting(entry, "model_name", NoneValue),
              Setting(entry, "temperature", DefaultTemperature),
              Setting(entry, "max_tokens", DefaultMaxTokens))
  }

  /** `if key not in llm_block: raise …` followed by `llm_block[key]`. On a string block `in` is a
      substring test, and a string cannot be subscripted by a string; on any other value that is
      not a mapping, `in` itself raises. */
  function ProviderBlock(block: Value, key: string): (r: Result<Value, Failure>)
    ensures r.Success? <==> block.MapValue? && key in block.entries
    ensures r.Success? ==> r.value == block.entries[key]
    ensures (block.MapValue? && key !in block.entries) || (block.StrValue? && !Text.Contains(block.s, key)) ==>
      r == Failure(ValueError("LLM Provider " + key + " not found in config"))
    ensures block.StrValue? && Text.Contains(block.s, key) ==> r == Failure(TypeError("string indices must be integers"))
    ensures !block.MapValue? && !block.StrValue? ==>
      r == Failure(TypeError("argument of type '" + TypeName(block) + "' is not iterable"))
  {
    if block.StrValue? then
      if Text.Contains(block.s, key) then Failure(TypeError("string indices must be integers"))
      else Failure(ValueError("LLM Provider " + key + " not found in config"))
    else if !block.MapValue? then Failure(TypeError("argument of type '" + TypeName(block) + "' is not iterable"))
    else if key !in block.entries then Failure(ValueError("LLM Provider " + key + " not found in config"))
    else Success(block.entries[key])
  }

  /** `load_llm` */
  function LoadLlm(config: Value, env: Env, lib: Constructors): (r: Result<ChatModel, Failure>)
    // the provider key selects an entry of the `llm` block; its `provider` must be google or
    // groq, and the chat class must accept the arguments
    ensures r.Success? <==> KnownProvider(config, env) && lib.chat(Requested(config, env)).None?
    ensures r.Success? ==>
      var entry := ProviderEntry(config, ProviderKey(env));
      && (r.value.provider == Google <==> entry["provider"] == StrValue("google"))
      && r.value.modelName == Setting(entry, "model_name", NoneValue)
      && r.value.temperature == Setting(entry, "temperature", DefaultTemperature)
      && r.value.maxTokens == Setting(entry, "max_tokens", DefaultMaxTokens)
    // a key the `llm` block lacks, and a provider other than the two, are ValueErrors
    ensures config.MapValue? && "llm" in config.entries && config.entries["llm"].MapValue?
            && ProviderKey(env) !in config.entries["llm"].entries ==>
      r == Failure(ValueError("LLM Provider " + ProviderKey(env) + " not found in config"))
    // on a string block, `in` is a substring test, and subscripting the string with the key
    // then raises
    ensures config.MapValue? && "llm" in config.entries && config.entries["llm"].StrValue? ==>
      var text := config.entries["llm"].s;
      && (!Text.Contains(text, ProviderKey(env)) ==>
            r == Failure(ValueError("LLM Provider " + ProviderKey(env) + " not found in config")))
      && (Text.Contains(text, ProviderKey(env)) ==> r == Failure(TypeError("string indices must be integers")))
    // on any other block that is not a mapping, `in` itself raises
    ensures config.MapValue? && "llm" in config.entries &&
            !config.entries["llm"].MapValue? && !config.entries["llm"].StrValue? ==>
      r == Failure(TypeError("argument of type '" + TypeName(config.entries["llm"]) + "' is not iterable"))
    ensures HasProviderEntry(config, ProviderKey(env)) && !KnownProvider(config, env) ==>
      r == Failure(ValueError("Unsupported LLM provider: " + Show(Setting(ProviderEntry(config, ProviderKey(env)), "provider", NoneValue))))
    // what the chat class raises is not wrapped
    ensures KnownProvider(config, env) && lib.chat(Requested(config, env)).Some? ==>
      r == Failure(lib.chat(Requested(config, env)).value)
  {
    match Subscript(config, "llm")
    case Failure(e) => Failure(e)
    case Success(block) =>
      match ProviderBlock(block, ProviderKey(env))
      case Failure(e) => Failure(e)
      case Success(llmConfig) =>
        match GetOr(llmConfig, "provider", NoneValue)
        case Failure(e) => Failure(e)
        case Success(provider) =>
          match GetOr(llmConfig, "model_name", NoneValue)
          case Failure(e) => Failure(e)
          case Success(modelName) =>
            match GetOr(llmConfig, "temperature", DefaultTemperature)
            case Failure(e) => Failure(e)
            case Success(temperature) =>
              match GetOr(llmConfig, "max_tokens", DefaultMaxTokens)
              case Failure(e) => Failure(e)
              case Success(maxTokens) =>
                if provider == StrValue("google") then Construct(ChatModel(Google, modelName, temperature, maxTokens), lib)
                else if provider == StrValue("groq") then Construct(ChatModel(Groq, modelName, temperature, maxTokens), lib)
                else Failure(ValueError("Unsupported LLM provider: " + Show(provider)))
  }

  /** With `LLM_PROVIDER` unset, an `llm` block that is a string without a `g`, such as
      "openai", does not hold "groq", so the loader reports the provider missing. */
  lemma StringLlmBlockWithoutKey(text: string, lib: Constructors)
    requires 'g' !in text
    ensures LoadLlm(MapValue(map["llm" := StrValue(text)]), map[], lib)
      == Failure(ValueError("LLM Provider groq not found in config"))
  {
    var config := MapValue(map["llm" := StrValue(text)]);
    assert Subscript(config, "llm") == Success(StrValue(text));
    Text.FirstCharMissing(text, "groq");
    assert ProviderKey(map[]) == "groq";
    assert "LLM Provider " + "groq" + " not found in config" == "LLM Provider groq not found in config";
  }

  /** An `llm` block that is the string "groq-cloud" holds "groq", and subscripting the string
      with it raises. */
  lemma StringLlmBlockWithKey(lib: Constructors)
    ensures LoadLlm(MapValue(map["llm" := StrValue("groq-cloud")]), map[], lib)
      == Failure(TypeError("string indices must be integers"))
  {
    var config := MapValue(map["llm" := StrValue("groq-cloud")]);
    assert Subscript(config, "llm") == Success(StrValue("groq-cloud"));
    assert "groq" <= "groq-cloud";
  }

  /** Instantiating the chat class: the model, or what the class raised. */
  function Construct(m: ChatModel, lib: Constructors): Result<ChatModel, Failure>
  {
    if lib.chat(m).Some? then Failure(lib.chat(m).value) else Success(m)
  }

  /** A constructed `ModelLoader`: the validated keys and the loaded configuration. */
  datatype ModelLoader = ModelLoader(apiKeys: map<string, Option<string>>, config: Value)

  /** `ModelLoader()`: validates the environment before the configuration is read, so a missing
      key wins over a configuration that fails to load. */
  function NewModelLoader(env: Env, loadedConfig: Result<Value, Failure>): (r: Result<ModelLoader, Failure>)
    ensures r.Success? <==> !IsUnset(env, GroqKey) && !IsUnset(env, GoogleKey) && loadedConfig.Success?
    ensures (IsUnset(env, GroqKey) || IsUnset(env, GoogleKey)) ==>
      r == Failure(PortalError("Missing required environment variables.", None))
    ensures r.Success? ==> r.value.config == loadedConfig.value && r.value.apiKeys == ApiKeys(env)
  {
    match ValidateEnv(env)
    case Failure(e) => Failure(e)
    case Success(keys) =>
      match loadedConfig
      case Failure(e) => Failure(e)
      case Success(config) => Success(ModelLoader(keys, config))
  }
}
