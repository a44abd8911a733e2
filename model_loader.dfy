/**
 * The part of the model loader that prepares a model configuration for the local Ollama
 * client: the legacy `max_length` parameter is carried over to `max_tokens`, and every
 * parameter the client does not accept is dropped.
 */
module ModelLoaderModule {
  import opened ConfigLoader

  /** The parameters the Ollama client accepts. */
  const Supported: set<string> := {
    "model", "base_url", "temperature", "top_p", "top_k",
    "num_ctx", "num_predict", "num_thread", "repeat_penalty",
    "repeat_last_n", "seed", "stop", "tfs_z", "mirostat",
    "mirostat_eta", "mirostat_tau", "num_gpu", "num_batch",
    "callbacks", "max_tokens", "request_timeout", "timeout",
    "format", "keep_alive", "system"
  }

  /** The renaming table, in the order the loop visits it: old name to new name. */
  const ParamMapping: seq<(string, string)> := [("max_tokens", "max_tokens"), ("max_length", "max_tokens")]

  /** The configuration after the renaming step: `max_length` moves to `max_tokens` unless that is set. */
  function Renamed(config: Params): (r: Params)
    ensures "max_length" !in r
    ensures "max_tokens" in r <==> "max_tokens" in config || "max_length" in config
  {
    if "max_length" !in config then config
    else if "max_tokens" in config then config - {"max_length"}
    else (config - {"max_length"})["max_tokens" := config["max_length"]]
  }

  /** What `_adapt_ollama_parameters` returns: the renamed configuration restricted to `Supported`. */
  function Adapted(config: Params): Params {
    var renamed := Renamed(config);
    map k | k in renamed && k in Supported :: renamed[k]
  }

  /**
   * `_adapt_ollama_parameters`: works on a copy (the caller's dict is a value here and is
   * never changed), applies the renaming table, then pops the unsupported keys one by one.
   */
  method AdaptOllamaParameters(config: Params) returns (adapted: Params)
    ensures adapted == Adapted(config)
  {
    adapted := config;
    for i := 0 to |ParamMapping|
      invariant adapted == if i < 2 then config else Renamed(config)
    {
      var (oldParam, newParam) := ParamMapping[i];
      if oldParam in adapted && oldParam != newParam {
        if newParam !in adapted {
          adapted := adapted[newParam := adapted[oldParam]];
        }
        adapted := adapted - {oldParam};
      }
    }
    var renamed := adapted;
    var unsupported := set k | k in adapted && k !in Supported;
    while unsupported != {}
      invariant unsupported <= renamed.Keys
      invariant adapted.Keys == renamed.Keys - (set k | k in renamed && k !in Supported && k !in unsupported)
      invariant forall k :: k in adapted ==> adapted[k] == renamed[k]
      invariant forall k :: k in unsupported ==> k !in Supported
      decreases |unsupported|
    {
      var param :| param in unsupported;
      adapted := adapted - {param};
      unsupported := unsupported - {param};
    }
  }

  /** Every key of the result is a supported parameter. */
  lemma OnlySupportedKeys(config: Params)
    ensures Adapted(config).Keys <= Supported
  {
  }

  /** A supported parameter given under its own name keeps its value. */
  lemma SupportedKept(config: Params, k: string)
    requires k in config && k in Supported
    ensures k in Adapted(config) && Adapted(config)[k] == config[k]
  {
    assert k != "max_length";
  }

  /** `max_length` alone is carried over to `max_tokens`. */
  lemma MaxLengthRenamed(config: Params)
    requires "max_length" in config && "max_tokens" !in config
    ensures "max_tokens" in Adapted(config) && Adapted(config)["max_tokens"] == config["max_length"]
    ensures "max_length" !in Adapted(config)
  {
  }

  /** With both names given, `max_tokens` wins and `max_length` is dropped. */
  lemma MaxTokensWins(config: Params)
    requires "max_length" in config && "max_tokens" in config
    ensures "max_tokens" in Adapted(config) && Adapted(config)["max_tokens"] == config["max_tokens"]
    ensures "max_length" !in Adapted(config)
  {
  }

  /** An unsupported parameter never survives, and nothing outside the input appears. */
  lemma NothingInvented(config: Params)
    ensures forall k :: k in Adapted(config) ==> k in config || (k == "max_tokens" && "max_length" in config)
  {
  }

  /** Adapting an adapted configuration changes nothing. */
  lemma AdaptIdempotent(config: Params)
    ensures Adapted(Adapted(config)) == Adapted(config)
  {
    var a := Adapted(config);
    assert "max_length" !in a;
    assert Renamed(a) == a;
  }
}
