/**
 * The process-wide configuration manager: configurations are loaded once per name and
 * kept in a cache, a failed load is remembered as an empty configuration, and typed
 * getters read dotted paths with defaults. The file system is a loader function passed
 * to every call that may load: None stands for a load that raised.
 */
module ConfigManagerModule {
  import opened Wrappers
  import opened Strings
  import opened ConfigLoader

  type Loader = string -> Option<Value>

  const DefaultConfigName: string := "llm_config.yml"

  /** The configuration `get_config(name)` yields for a given cache and loader. */
  function Loaded(configs: map<string, Value>, name: string, load: Loader): Value {
    if name in configs then configs[name]
    else
      match load(name)
      case Some(c) => c
      case None => VDict(map[])
  }

  /** The path of a model-specific parameter and of its default, as the getter formats them. */
  function SpecificPath(model: string, param: string): string {
    "parameters.model_specific." + model + "." + param
  }

  function DefaultPath(param: string): string {
    "parameters.default." + param
  }

  /** The value `get_model_param` returns for a configuration. */
  function ModelParam(config: Value, model: string, param: string, default: Value): Value {
    var specific := ValueAt(config, SpecificPath(model, param), VNone);
    if specific != VNone then specific else ValueAt(config, DefaultPath(param), default)
  }

  class ConfigManager {
    /** `_configs`: every configuration loaded so far, by name. */
    var configs: map<string, Value>

    constructor()
      ensures configs == map[]
    {
      configs := map[];
    }

    /**
     * `get_config`: the cached configuration when there is one, without loading again;
     * otherwise the loaded one, or `{}` when loading fails, which is cached either way.
     */
    method GetConfig(name: string, load: Loader) returns (c: Value)
      modifies this
      ensures c == Loaded(old(configs), name, load)
      ensures configs == old(configs)[name := c]
      ensures name in old(configs) ==> c == old(configs)[name] && configs == old(configs)
      ensures name !in old(configs) && load(name).None? ==> c == VDict(map[])
    {
      if name in configs {
        return configs[name];
      }
      match load(name) {
        case Some(config) =>
          configs := configs[name := config];
          c := config;
        case None =>
          configs := configs[name := VDict(map[])];
          c := VDict(map[]);
      }
    }

    /** `get_value`: the dotted-path lookup in the named configuration. */
    method GetValue(path: string, default: Value, name: string, load: Loader) returns (r: Value)
      modifies this
      ensures r == ValueAt(Loaded(old(configs), name, load), path, default)
      ensures configs == old(configs)[name := Loaded(old(configs), name, load)]
    {
      var config := GetConfig(name, load);
      r := GetOrDefault(config, path, default);
    }

    /** `get_model_param`: the model's own value when it is set, else the default section's, else `default`. */
    method GetModelParam(model: string, param: string, default: Value, load: Loader) returns (r: Value)
      modifies this
      ensures r == ModelParam(Loaded(old(configs), DefaultConfigName, load), model, param, default)
      ensures configs == old(configs)[DefaultConfigName := Loaded(old(configs), DefaultConfigName, load)]
    {
      var specific := GetValue(SpecificPath(model, param), VNone, DefaultConfigName, load);
      if specific != VNone {
        return specific;
      }
      r := GetValue(DefaultPath(param), default, DefaultConfigName, load);
    }

    /** `get_default_model`: `models.default`, or the empty string. */
    method GetDefaultModel(load: Loader) returns (r: Value)
      modifies this
      ensures r == ValueAt(Loaded(old(configs), DefaultConfigName, load), "models.default", VStr(""))
      ensures configs == old(configs)[DefaultConfigName := Loaded(old(configs), DefaultConfigName, load)]
    {
      r := GetValue("models.default", VStr(""), DefaultConfigName, load);
    }

    /** `get_ollama_base_url`: `ollama.base_url`, else the environment's `OLLAMA_BASE_URL`, else the local server. */
    method GetOllamaBaseUrl(env: Option<string>, load: Loader) returns (r: Value)
      modifies this
      ensures r == ValueAt(Loaded(old(configs), DefaultConfigName, load), "ollama.base_url",
                           VStr(env.GetOr("http://localhost:11434")))
      ensures configs == old(configs)[DefaultConfigName := Loaded(old(configs), DefaultConfigName, load)]
    {
      r := GetValue("ollama.base_url", VStr(env.GetOr("http://localhost:11434")), DefaultConfigName, load);
    }

    /** `get_ollama_timeout`: `ollama.timeout`, or 30 seconds. */
    method GetOllamaTimeout(load: Loader) returns (r: Value)
      modifies this
      ensures r == ValueAt(Loaded(old(configs), DefaultConfigName, load), "ollama.timeout", VInt(30))
      ensures configs == old(configs)[DefaultConfigName := Loaded(old(configs), DefaultConfigName, load)]
    {
      r := GetValue("ollama.timeout", VInt(30), DefaultConfigName, load);
    }

    /** `get_alternative_models`: `models.alternatives`, or no alternatives. */
    method GetAlternativeModels(load: Loader) returns (r: Value)
      modifies this
      ensures r == ValueAt(Loaded(old(configs), DefaultConfigName, load), "models.alternatives", VList([]))
      ensures configs == old(configs)[DefaultConfigName := Loaded(old(configs), DefaultConfigName, load)]
    {
      r := GetValue("models.alternatives", VList([]), DefaultConfigName, load);
    }
  }

  /**
   * The class object with its `_instance` slot: the first construction creates the
   * manager with an empty cache, every later one hands back that same manager.
   */
  class ConfigManagerClass {
    var instance: Option<ConfigManager>

    constructor()
      ensures instance == None
    {
      instance := None;
    }

    method Construct() returns (m: ConfigManager)
      modifies this
      ensures instance == Some(m)
      ensures old(instance).Some? ==> m == old(instance).value
      ensures old(instance).None? ==> fresh(m) && m.configs == map[]
    {
      if instance.Some? {
        return instance.value;
      }
      m := new ConfigManager();
      instance := Some(m);
    }
  }

  /** A loaded configuration stays in force: later loaders are never consulted for that name. */
  lemma CacheIgnoresLaterLoads(configs: map<string, Value>, name: string, first: Loader, later: Loader)
    ensures var c := Loaded(configs, name, first);
      Loaded(configs[name := c], name, later) == c
  {
  }

  /** With dot-free names, the getter looks the model's parameter up first and the default section's after. */
  lemma ModelParamLookupOrder(config: Value, model: string, param: string, default: Value)
    requires '.' !in model && '.' !in param && !Falsy(config)
    ensures var specific := Walk(config, ["parameters", "model_specific", model, param]);
      specific.Some? && specific.value != VNone ==> ModelParam(config, model, param, default) == specific.value
    ensures var specific := Walk(config, ["parameters", "model_specific", model, param]);
      var general := Walk(config, ["parameters", "default", param]);
      (specific.None? || specific.value == VNone) && general.Some? && general.value != VNone ==>
        ModelParam(config, model, param, default) == general.value
  {
    SplitSpecificPath(model, param);
    SplitDefaultPath(param);
  }

  lemma SplitSpecificPath(model: string, param: string)
    requires '.' !in model && '.' !in param
    ensures Split(SpecificPath(model, param), '.') == ["parameters", "model_specific", model, param]
  {
    var tail := model + "." + param;
    assert Split(tail, '.') == [model, param] by {
      SplitSingle(param, '.');
      SplitFirst(model, param, '.');
    }
    assert SpecificPath(model, param) == "parameters" + "." + "model_specific" + "." + tail by {
      PathPrefixes();
    }
    SplitUnder("parameters", "model_specific", tail);
  }

  lemma SplitDefaultPath(param: string)
    requires '.' !in param
    ensures Split(DefaultPath(param), '.') == ["parameters", "default", param]
  {
    assert DefaultPath(param) == "parameters" + "." + "default" + "." + param by {
      PathPrefixes();
    }
    SplitSingle(param, '.');
    SplitUnder("parameters", "default", param);
  }

  /** The literal prefixes of the two paths, key by key. */
  lemma PathPrefixes()
    ensures "parameters.model_specific." == "parameters" + "." + "model_specific" + "."
    ensures "parameters.default." == "parameters" + "." + "default" + "."
  {
  }

  /**
   * A model name with a dot splits into two keys, so the parameters stored under that
   * name are never consulted: the getter falls through to the default.
   */
  lemma DottedModelNameIgnored(m1: string, m2: string, param: string, v: Value, default: Value)
    requires '.' !in m1 && '.' !in m2 && '.' !in param
    ensures var config := VDict(map["parameters" := VDict(map["model_specific" :=
              VDict(map[m1 + "." + m2 := VDict(map[param := v])])])]);
      ModelParam(config, m1 + "." + m2, param, default) == default
  {
    var model := m1 + "." + m2;
    var specific := VDict(map[model := VDict(map[param := v])]);
    var params := VDict(map["model_specific" := specific]);
    var config := VDict(map["parameters" := params]);
    SplitDottedPath(m1, m2, param);
    var parts := ["parameters", "model_specific", m1, m2, param];
    assert |m1| < |model|;
    assert parts[1..][1..] == [m1, m2, param];
    assert Walk(config, parts) == Walk(params, parts[1..]);
    assert Walk(params, parts[1..]) == Walk(specific, parts[1..][1..]);
    assert Walk(specific, parts[1..][1..]) == None;
    SplitDefaultPath(param);
    assert Walk(config, ["parameters", "default", param]) == Walk(params, ["default", param]);
  }

  lemma SplitDottedPath(m1: string, m2: string, param: string)
    requires '.' !in m1 && '.' !in m2 && '.' !in param
    ensures Split(SpecificPath(m1 + "." + m2, param), '.') == ["parameters", "model_specific", m1, m2, param]
  {
    var tail := m1 + "." + m2 + "." + param;
    assert Split(tail, '.') == [m1, m2, param] by {
      SplitSingle(param, '.');
      SplitUnder(m1, m2, param);
    }
    assert SpecificPath(m1 + "." + m2, param) == "parameters" + "." + "model_specific" + "." + tail by {
      PathPrefixes();
    }
    SplitUnder("parameters", "model_specific", tail);
  }
}
