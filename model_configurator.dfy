/**
 * The model configurator: the parameters a model runs with, built from the registry's
 * stored parameters (or, for a model the registry does not know, from the configuration's
 * default and model-specific sections) and then overridden by the caller's parameters,
 * and the configuration dictionary a model is initialised with.
 */
module ModelConfiguratorModule {
  import opened Wrappers
  import opened ConfigLoader
  import opened ModelRegistryModule
  import Strings

  /** A section unpacked with `{**section}`: a mapping is copied, anything else raises. */
  function AsMapping(v: Value): (r: Option<Params>)
    ensures r.Some? <==> v.VDict?
    ensures r.Some? ==> r.value == v.entries
  {
    if v.VDict? then Some(v.entries) else None
  }

  /** `get_value("parameters.default", {})` unpacked with `**`. */
  function DefaultSection(config: Value): Option<Params> {
    AsMapping(ValueAtKeys(config, ["parameters", "default"], VDict(map[])))
  }

  /** `get_value(f"parameters.model_specific.{name}", {})` unpacked with `**`. */
  function SpecificSection(config: Value, name: string): Option<Params> {
    AsMapping(ValueAtKeys(config, ["parameters", "model_specific"] + Strings.Split(name, '.'), VDict(map[])))
  }

  /** What successive `dict.update` calls with `layers` produce on an empty dict. */
  function Apply(layers: seq<Params>): Params {
    if layers == [] then map[]
    else Merge(Apply(layers[..|layers| - 1]), layers[|layers| - 1])
  }

  /** A key of the result comes from some layer, and every layer's keys are kept. */
  lemma {:induction false} ApplyKeys(layers: seq<Params>)
    ensures forall k :: k in Apply(layers) <==> exists i :: 0 <= i < |layers| && k in layers[i]
  {
    if layers != [] {
      var init := layers[..|layers| - 1];
      ApplyKeys(init);
      forall k | k in Apply(layers)
        ensures exists i :: 0 <= i < |layers| && k in layers[i]
      {
        assert Apply(layers) == Merge(Apply(init), layers[|layers| - 1]);
        if k !in layers[|layers| - 1] {
          assert k in Apply(init);
          var i :| 0 <= i < |init| && k in init[i];
          assert layers[i] == init[i];
        }
      }
      forall k, i | 0 <= i < |layers| && k in layers[i]
        ensures k in Apply(layers)
      {
        if i < |init| {
          assert init[i] == layers[i];
        }
      }
    }
  }

  /** No layer after `i` holds `k`. */
  ghost predicate LastHolder(layers: seq<Params>, k: string, i: int) {
    forall j :: 0 <= i < j < |layers| ==> k !in layers[j]
  }

  /** A key takes its value from the last layer that holds it. */
  lemma {:induction false} ApplyLast(layers: seq<Params>, k: string, i: int)
    requires 0 <= i < |layers| && k in layers[i] && LastHolder(layers, k, i)
    ensures k in Apply(layers) && Apply(layers)[k] == layers[i][k]
  {
    var init := layers[..|layers| - 1];
    if i < |init| {
      assert layers[|layers| - 1] == layers[|layers| - 1];
      assert k !in layers[|layers| - 1];
      ApplyLast(init, k, i);
    }
  }

  lemma ApplyTwo(a: Params, b: Params)
    ensures Apply([a, b]) == Merge(a, b)
  {
    assert [a, b][..1] == [a];
    assert Apply([a]) == Merge(map[], a);
  }

  lemma ApplyThree(a: Params, b: Params, c: Params)
    ensures Apply([a, b, c]) == Merge(Merge(a, b), c)
  {
    assert [a, b, c][..2] == [a, b];
    ApplyTwo(a, b);
  }

  lemma ApplyFour(a: Params, b: Params, c: Params, d: Params)
    ensures Apply([a, b, c, d]) == Merge(Merge(Merge(a, b), c), d)
  {
    assert [a, b, c, d][..3] == [a, b, c];
    ApplyThree(a, b, c);
  }

  lemma MergeAssociative(a: Params, b: Params, c: Params)
    ensures Merge(Merge(a, b), c) == Merge(a, Merge(b, c))
  {
    assert (a + b) + c == a + (b + c);
  }

  /** `override_params`, with None standing for no overrides. */
  function Overrides(overrides: Option<Params>): Params {
    overrides.GetOr(map[])
  }

  /** The `{"model": name}` entry a configuration starts with, or nothing for an empty name. */
  function ModelEntry(name: string): (r: Params)
    ensures "model" in r <==> name != ""
    ensures name != "" ==> r["model"] == VStr(name)
    ensures |r.Keys| <= 1
  {
    if name != "" then map["model" := VStr(name)] else map[]
  }

  /**
   * `ModelConfigurator`, holding the registry it was built with and the configuration its
   * configuration manager returns for the default configuration file.
   */
  class ModelConfigurator {
    const registry: ModelRegistry
    const config: Value

    constructor(registry: ModelRegistry, config: Value)
      ensures this.registry == registry && this.config == config
    {
      this.registry := registry;
      this.config := config;
    }

    /**
     * `get_model_parameters`: a registered model's stored parameters under the overrides; for
     * an unknown non-empty name the configuration's default section under its model-specific
     * section under the overrides (Err when a section is not a mapping, where the dict
     * unpacking raises); with no usable name the overrides alone. The registry is only read.
     */
    method GetModelParameters(name: Option<string>, overrides: Option<Params>) returns (r: Result<Params>)
      ensures var info := registry.GetModelInfo(name);
        info.Some? ==> r == Ok(Apply([info.value.parameters.GetOr(map[]), Overrides(overrides)]))
      ensures var info := registry.GetModelInfo(name);
        info.None? && name.Some? && name.value != "" ==>
          var d, s := DefaultSection(config), SpecificSection(config, name.value);
          if d.Some? && s.Some? then r == Ok(Apply([d.value, s.value, Overrides(overrides)]))
          else r.Err?
      ensures var info := registry.GetModelInfo(name);
        info.None? && (name.None? || name.value == "") ==> r == Ok(Apply([Overrides(overrides)]))
    {
      var info := registry.GetModelInfo(name);
      var params: Params;
      if info.None? {
        if name.Some? && name.value != "" {
          var defaults := DefaultSection(config);
          var specific := SpecificSection(config, name.value);
          if defaults.None? || specific.None? {
            return Err("TypeError: a parameter section is not a mapping");
          }
          params := defaults.value + specific.value;
        } else {
          params := map[];
        }
      } else {
        params := info.value.parameters.GetOr(map[]);
      }
      ghost var base := params;
      if overrides.Some? && overrides.value != map[] {
        params := params + overrides.value;
      }
      assert params == Merge(base, Overrides(overrides));
      if info.Some? {
        ApplyTwo(base, Overrides(overrides));
      } else if name.Some? && name.value != "" {
        ApplyThree(DefaultSection(config).value, SpecificSection(config, name.value).value, Overrides(overrides));
      } else {
        OnlyOverrides(overrides);
      }
      return Ok(params);
    }

    /**
     * `create_model_config`: `{"model": name}` (the registered name, the default model's when
     * no name is given, nothing for an unregistered empty name) updated with the parameters
     * `get_model_parameters` gives for that name.
     */
    method CreateModelConfig(name: Option<string>, overrides: Option<Params>) returns (r: Result<Params>)
      ensures var n := name.GetOr(registry.defaultModel);
        var info := registry.GetModelInfo(Some(n));
        info.Some? ==>
          r == Ok(Apply([map["model" := VStr(info.value.name)], info.value.parameters.GetOr(map[]), Overrides(overrides)]))
      ensures var n := name.GetOr(registry.defaultModel);
        var info := registry.GetModelInfo(Some(n));
        info.None? && n != "" ==>
          var d, s := DefaultSection(config), SpecificSection(config, n);
          if d.Some? && s.Some? then r == Ok(Apply([ModelEntry(n), d.value, s.value, Overrides(overrides)]))
          else r.Err?
      ensures var n := name.GetOr(registry.defaultModel);
        registry.GetModelInfo(Some(n)).None? && n == "" ==> r == Ok(Apply([ModelEntry(n), Overrides(overrides)]))
    {
      var n := name.GetOr(registry.defaultModel);
      var info := registry.GetModelInfo(Some(n));
      var params := GetModelParameters(Some(n), overrides);
      if params.Err? {
        return params;
      }
      var base: Params;
      ghost var o := Overrides(overrides);
      if info.Some? {
        base := map["model" := VStr(info.value.name)];
        ghost var stored := info.value.parameters.GetOr(map[]);
        assert base + params.value == Apply([base, stored, o]) by {
          ApplyTwo(stored, o);
          ApplyThree(base, stored, o);
          MergeAssociative(base, stored, o);
        }
      } else if n != "" {
        base := ModelEntry(n);
        ghost var d, s := DefaultSection(config).value, SpecificSection(config, n).value;
        assert base + params.value == Apply([base, d, s, o]) by {
          ApplyThree(d, s, o);
          ApplyFour(base, d, s, o);
          MergeAssociative(base, d, s);
          MergeAssociative(base, Merge(d, s), o);
        }
      } else {
        base := ModelEntry(n);
        assert base + params.value == Apply([base, o]) by {
          OnlyOverrides(overrides);
          ApplyTwo(base, o);
        }
      }
      return Ok(base + params.value);
    }
  }

  /** The overrides win over the stored parameters, and every key the overrides leave alone is kept. */
  lemma OverridesOverStored(stored: Params, overrides: Params)
    ensures var r := Apply([stored, overrides]);
      && r.Keys == stored.Keys + overrides.Keys
      && (forall k :: k in overrides ==> r[k] == overrides[k])
      && (forall k :: k in stored && k !in overrides ==> r[k] == stored[k])
  {
    assert [stored, overrides][..1] == [stored];
    assert Apply([stored]) == stored;
  }

  /**
   * For an unknown model the priority is the overrides, then the model-specific section,
   * then the default section; the result holds the keys of all three.
   */
  lemma UnknownModelPriority(defaults: Params, specific: Params, overrides: Params, k: string)
    ensures var r := Apply([defaults, specific, overrides]);
      && (k in r <==> k in defaults || k in specific || k in overrides)
      && (k in overrides ==> r[k] == overrides[k])
      && (k !in overrides && k in specific ==> r[k] == specific[k])
      && (k !in overrides && k !in specific && k in defaults ==> r[k] == defaults[k])
  {
    var s := [defaults, specific, overrides];
    ApplyKeys(s);
    if k in defaults { assert k in s[0]; }
    if k in specific { assert k in s[1]; }
    if k in overrides { assert k in s[2]; ApplyLast(s, k, 2); }
    if k !in overrides && k in specific { ApplyLast(s, k, 1); }
    if k !in overrides && k !in specific && k in defaults { ApplyLast(s, k, 0); }
  }

  /** With no name and no registered default only the overrides come back. */
  lemma OnlyOverrides(overrides: Option<Params>)
    ensures Apply([Overrides(overrides)]) == overrides.GetOr(map[])
  {
    assert [Overrides(overrides)][..0] == [];
  }

  /** The model configuration names its model unless the parameters themselves set "model". */
  lemma {:induction false} ConfigNamesModel(name: string, rest: seq<Params>)
    requires name != ""
    requires forall i :: 0 <= i < |rest| ==> "model" !in rest[i]
    ensures var r := Apply([ModelEntry(name)] + rest);
      "model" in r && r["model"] == VStr(name)
  {
    var s := [ModelEntry(name)] + rest;
    forall j | 0 < j < |s| ensures "model" !in s[j] {
      assert s[j] == rest[j - 1];
    }
    assert "model" in s[0];
    ApplyLast(s, "model", 0);
  }

  /** An override of "model" renames the model in the configuration. */
  lemma ModelOverrideWins(name: string, middle: seq<Params>, overrides: Params)
    requires "model" in overrides
    ensures var r := Apply([ModelEntry(name)] + middle + [overrides]);
      "model" in r && r["model"] == overrides["model"]
  {
    var s := [ModelEntry(name)] + middle + [overrides];
    assert s[..|s| - 1] == [ModelEntry(name)] + middle;
  }
}
