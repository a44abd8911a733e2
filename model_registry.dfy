/**
 * The registry of LLM models: the default model and the alternatives named in the
 * configuration, each with its parameters (the default section overridden by the
 * model's own), a fallback model when the configuration is missing or broken, and the
 * availability flags the local server reports. Models are kept in insertion order.
 */
module ModelRegistryModule {
  import opened Wrappers
  import opened Seqs
  import opened ConfigLoader
  import opened Strings
  import ConfigManagerModule

  datatype ModelInfo = ModelInfo(name: string, description: Value, isAvailable: bool, parameters: Option<Params>)

  /** The model used when the configuration names none. */
  const LastResortModel: string := "gpt-oss:20b"

  /** `get_default_model()`, read as a model name. */
  function DefaultModelName(config: Value): string {
    match ValueAtKeys(config, ["models", "default"], VStr(""))
    case VStr(s) => s
    case _ => ""
  }

  /** The name `_add_fallback_model` registers: the configured default, else the last resort. */
  function FallbackName(config: Value): (r: string)
    ensures r != ""
    ensures DefaultModelName(config) != "" ==> r == DefaultModelName(config)
  {
    var d := DefaultModelName(config);
    if d == "" then LastResortModel else d
  }

  function FallbackInfo(name: string): ModelInfo {
    ModelInfo(name, VStr("Fallback model (" + name + ")"), false, None)
  }

  /**
   * One element of a sequence given to `dict(...)` or `update(...)`: a two-element list with a
   * string key, or a two-character string; any other element raises.
   */
  function PairOf(v: Value): Option<(string, Value)> {
    match v
    case VList(xs) => if |xs| == 2 && xs[0].VStr? then Some((xs[0].s, xs[1])) else None
    case VStr(s) => if |s| == 2 then Some(([s[0]], VStr([s[1]]))) else None
    case _ => None
  }

  /** `dict(pairs)`: later pairs overwrite earlier ones with the same key. */
  function PairsToParams(xs: seq<Value>): Option<Params> {
    if xs == [] then Some(map[])
    else
      var r0 := PairsToParams(xs[..|xs| - 1]);
      var p := PairOf(xs[|xs| - 1]);
      if r0.None? || p.None? then None else Some(r0.value[p.value.0 := p.value.1])
  }

  /** A list is accepted exactly when every element is a pair, and then its keys are the pairs' keys. */
  lemma {:induction false} PairsToParamsKeys(xs: seq<Value>)
    ensures var r := PairsToParams(xs);
      (r.Some? <==> forall i :: 0 <= i < |xs| ==> PairOf(xs[i]).Some?)
      && (r.Some? ==> forall k :: k in r.value <==>
            exists i :: 0 <= i < |xs| && PairOf(xs[i]).Some? && PairOf(xs[i]).value.0 == k)
  {
    if xs != [] {
      var init, last := xs[..|xs| - 1], xs[|xs| - 1];
      PairsToParamsKeys(init);
      assert forall i :: 0 <= i < |init| ==> init[i] == xs[i];
      var r0, p := PairsToParams(init), PairOf(last);
      if r0.Some? && p.Some? {
        var r := r0.value[p.value.0 := p.value.1];
        forall k | k in r ensures exists i :: 0 <= i < |xs| && PairOf(xs[i]).Some? && PairOf(xs[i]).value.0 == k {
          if k != p.value.0 {
            var i :| 0 <= i < |init| && PairOf(init[i]).Some? && PairOf(init[i]).value.0 == k;
            assert xs[i] == init[i];
          } else {
            assert xs[|xs| - 1] == last;
          }
        }
        forall k | exists i :: 0 <= i < |xs| && PairOf(xs[i]).Some? && PairOf(xs[i]).value.0 == k ensures k in r {
          var i :| 0 <= i < |xs| && PairOf(xs[i]).Some? && PairOf(xs[i]).value.0 == k;
          if i < |init| {
            assert init[i] == xs[i];
          }
        }
      } else if r0.None? {
        var i :| 0 <= i < |init| && PairOf(init[i]).None?;
        assert xs[i] == init[i];
      }
    }
  }

  /** The pair a key ends up with is the last pair naming it. */
  lemma {:induction false} PairsLastWins(xs: seq<Value>, i: nat)
    requires forall j :: 0 <= j < |xs| ==> PairOf(xs[j]).Some?
    requires i < |xs|
    requires forall j :: i < j < |xs| ==> PairOf(xs[j]).value.0 != PairOf(xs[i]).value.0
    ensures PairsToParams(xs).Some? && PairOf(xs[i]).value.0 in PairsToParams(xs).value
    ensures PairsToParams(xs).value[PairOf(xs[i]).value.0] == PairOf(xs[i]).value.1
  {
    PairsToParamsKeys(xs);
    var init := xs[..|xs| - 1];
    PairsToParamsKeys(init);
    assert forall j :: 0 <= j < |init| ==> init[j] == xs[j];
    if i < |xs| - 1 {
      assert init[i] == xs[i];
      forall j | i < j < |init| ensures PairOf(init[j]).value.0 != PairOf(init[i]).value.0 {
        assert init[j] == xs[j];
      }
      PairsLastWins(init, i);
    }
  }

  /**
   * A parameter section passed to `dict(...)`: a mapping is copied, a list of pairs is read
   * pair by pair, an empty string gives no parameters; anything else makes the load raise.
   */
  function AsParams(v: Value): (r: Option<Params>)
    ensures v.VDict? ==> r == Some(v.entries)
    ensures v.VStr? ==> (r.Some? <==> v.s == "") && (r.Some? ==> r.value == map[])
    ensures !v.VDict? && !v.VList? && !v.VStr? ==> r.None?
  {
    match v
    case VDict(m) => Some(m)
    case VList(xs) => PairsToParams(xs)
    case VStr(s) => if s == "" then Some(map[]) else None
    case _ => None
  }

  /** `get_value("parameters.default", {})` as a dict. */
  function DefaultParams(config: Value): Option<Params> {
    AsParams(ValueAtKeys(config, ["parameters", "default"], VDict(map[])))
  }

  /** `get_value(f"parameters.model_specific.{name}", {})` as a dict: the name's own dots split it further. */
  function SpecificParams(config: Value, name: string): Option<Params> {
    AsParams(ValueAtKeys(config, ["parameters", "model_specific"] + Split(name, '.'), VDict(map[])))
  }

  /**
   * The key lists above are what the registry's dotted paths split into: two dot-free
   * keys joined by a dot, and the model-specific prefix followed by the model's name.
   */
  lemma TwoKeyPath(a: string, b: string)
    requires '.' !in a && '.' !in b
    ensures Split(a + "." + b, '.') == [a, b]
  {
    SplitSingle(b, '.');
    SplitFirst(a, b, '.');
  }

  lemma SpecificParamsPath(config: Value, name: string)
    ensures SpecificParams(config, name) ==
      AsParams(ValueAt(config, "parameters.model_specific." + name, VDict(map[])))
  {
    assert "parameters.model_specific." + name == "parameters" + "." + "model_specific" + "." + name by {
      ConfigManagerModule.PathPrefixes();
    }
    SplitUnder("parameters", "model_specific", name);
  }

  /** `dict(base)` followed by `update(updates)`: the updates win, the other keys are kept. */
  function Merge(base: Params, updates: Params): (r: Params)
    ensures r.Keys == base.Keys + updates.Keys
    ensures forall k :: k in updates ==> r[k] == updates[k]
    ensures forall k :: k in base && k !in updates ==> r[k] == base[k]
  {
    base + updates
  }

  /** The parameters a successfully loaded model gets. */
  function ParamsFor(config: Value, name: string): Params {
    Merge(DefaultParams(config).GetOr(map[]), SpecificParams(config, name).GetOr(map[]))
  }

  /**
   * The entries of `models.alternatives` the loop visits: a list's items, nothing for an
   * empty mapping or string; iterating anything else raises.
   */
  function AlternativeItems(config: Value): Option<seq<Value>> {
    AlternativesOf(ValueAtKeys(config, ["models", "alternatives"], VList([])))
  }

  function AlternativesOf(v: Value): Option<seq<Value>> {
    match v
    case VList(items) => Some(items)
    case VDict(m) => if m == map[] then Some([]) else None
    case VStr(s) => if s == "" then Some([]) else None
    case _ => None
  }

  /** `model.get("name", "")` when it is a non-empty string; None for an entry that is skipped. */
  function NameOf(item: Value): Option<string> {
    if !item.VDict? then None
    else
      var v := if "name" in item.entries then item.entries["name"] else VStr("");
      if v.VStr? && v.s != "" then Some(v.s) else None
  }

  /** `model.get("description", "")` */
  function DescriptionOf(item: Value): Value {
    if item.VDict? && "description" in item.entries then item.entries["description"] else VStr("")
  }

  /** The names the alternatives bring in. */
  function AltNames(items: seq<Value>): set<string> {
    if items == [] then {}
    else
      var last := items[|items| - 1];
      AltNames(items[..|items| - 1]) + (if NameOf(last).Some? then {NameOf(last).value} else {})
  }

  /** The names the alternatives carry, in list order, repeats included. */
  function NamesOf(items: seq<Value>): seq<string> {
    if items == [] then []
    else
      var last := items[|items| - 1];
      NamesOf(items[..|items| - 1]) + (if NameOf(last).Some? then [NameOf(last).value] else [])
  }

  /**
   * The insertion order of `_models` after the default and the alternatives `prefix`: the
   * default first, then each alternative's name when it is not registered yet.
   */
  function InsertionOrder(default: string, prefix: seq<Value>): seq<string> {
    if prefix == [] then [default]
    else
      var o := InsertionOrder(default, prefix[..|prefix| - 1]);
      var name := NameOf(prefix[|prefix| - 1]);
      if name.Some? && name.value !in o then o + [name.value] else o
  }

  /** Before any alternative is read, the order holds the default model alone. */
  lemma InsertionOrderEmpty(default: string)
    ensures InsertionOrder(default, []) == [default]
  {
  }

  lemma {:induction false} NamesOfAltNames(items: seq<Value>)
    ensures forall n :: n in NamesOf(items) <==> n in AltNames(items)
  {
    if items != [] {
      NamesOfAltNames(items[..|items| - 1]);
    }
  }

  /** The insertion order is the default and the names with repeats dropped, in first-appearance order. */
  lemma {:induction false} InsertionOrderIsDedup(default: string, prefix: seq<Value>)
    ensures InsertionOrder(default, prefix) == Dedup([default] + NamesOf(prefix))
  {
    if prefix == [] {
      assert [default] + NamesOf(prefix) == [default];
      assert [default][..0] == [];
    } else {
      var init := prefix[..|prefix| - 1];
      InsertionOrderIsDedup(default, init);
      var before := [default] + NamesOf(init);
      var name := NameOf(prefix[|prefix| - 1]);
      if name.Some? {
        assert NamesOf(prefix) == NamesOf(init) + [name.value];
        assert [default] + NamesOf(prefix) == before + [name.value];
        DedupSnoc(before, name.value);
      } else {
        assert NamesOf(prefix) == NamesOf(init);
      }
    }
  }

  /** The insertion order starts with the default and lists it and every alternative's name once. */
  lemma InsertionOrderNames(default: string, prefix: seq<Value>)
    ensures var r := InsertionOrder(default, prefix);
      NoDups(r) && |r| >= 1 && r[0] == default
      && forall n :: n in r <==> n == default || n in AltNames(prefix)
  {
    InsertionOrderIsDedup(default, prefix);
    NamesOfAltNames(prefix);
    DedupPrefix([default], NamesOf(prefix));
    assert Dedup([default]) == [default] by {
      assert [default][..0] == [];
    }
  }

  /** One more alternative appends its name when it is new and changes nothing otherwise. */
  lemma InsertionOrderStep(default: string, prefix: seq<Value>, item: Value)
    ensures var o := InsertionOrder(default, prefix);
      InsertionOrder(default, prefix + [item]) ==
        if NameOf(item).Some? && NameOf(item).value !in o then o + [NameOf(item).value] else o
  {
    var s := prefix + [item];
    assert s[..|s| - 1] == prefix;
  }

  /** The first alternative carrying a name: later ones with the same name are skipped. */
  function FirstItem(items: seq<Value>, name: string): (r: Option<Value>)
    ensures r.Some? <==> name in AltNames(items)
    ensures r.Some? ==> r.value in items && NameOf(r.value) == Some(name)
  {
    if items == [] then None
    else
      var f := FirstItem(items[..|items| - 1], name);
      var last := items[|items| - 1];
      if f.Some? then f
      else if NameOf(last) == Some(name) then Some(last)
      else None
  }

  /** An entry that raises when the loop reaches it. */
  predicate BadItem(config: Value, item: Value) {
    !item.VDict? || (NameOf(item).Some? && SpecificParams(config, NameOf(item).value).None?)
  }

  /**
   * Python's `"models" in config`: a key of a mapping, an element of a list, a substring
   * of a string. On any other value `in` raises, and the load falls back.
   */
  predicate HasModels(config: Value) {
    match config
    case VDict(entries) => "models" in entries
    case VList(items) => VStr("models") in items
    case VStr(s) => Strings.Contains(s, "models")
    case _ => false
  }

  /** A string anywhere in which "models" occurs passes the models check. */
  lemma StringHasModels(before: string, after: string)
    ensures HasModels(VStr(before + "models" + after))
  {
    Strings.ContainsInfix(before, "models", after);
  }

  /**
   * The load gets past registering the default model. Only the two first checks read the
   * file at `config_path` (`fileConfig`); the default model, the parameters and the
   * alternatives come through the manager's getters, which always read its default file
   * (`config`).
   */
  predicate PastDefault(fileConfig: Value, config: Value) {
    !Falsy(fileConfig) && HasModels(fileConfig) && DefaultReadable(config)
  }

  /** A default model is named and its parameter sections read without an exception. */
  predicate DefaultReadable(config: Value) {
    && DefaultModelName(config) != ""
    && DefaultParams(config).Some?
    && SpecificParams(config, DefaultModelName(config)).Some?
  }

  /** The configuration is read through without an exception and without a fallback. */
  predicate LoadsCleanly(fileConfig: Value, config: Value) {
    PastDefault(fileConfig, config) && CleanAlternatives(config)
  }

  /** `models.alternatives` is iterable and none of its entries raises. */
  predicate CleanAlternatives(config: Value) {
    && AlternativeItems(config).Some?
    && var items := AlternativeItems(config).value;
       forall j :: 0 <= j < |items| ==> !BadItem(config, items[j])
  }

  /** The position of the first entry that raises, or the number of entries when none does. */
  function FirstBad(config: Value, items: seq<Value>): (k: nat)
    ensures k <= |items|
    ensures forall j :: 0 <= j < k ==> !BadItem(config, items[j])
    ensures k < |items| ==> BadItem(config, items[k])
  {
    if items == [] then 0
    else if BadItem(config, items[0]) then 0
    else 1 + FirstBad(config, items[1..])
  }

  /** The alternatives the loop has registered when it stops: those before the first that raises. */
  function KeptAlternatives(config: Value): seq<Value> {
    match AlternativeItems(config)
    case None => []
    case Some(items) => items[..FirstBad(config, items)]
  }

  /** The models that report as available, in insertion order. */
  function AvailableIn(order: seq<string>, models: map<string, ModelInfo>): (r: seq<string>)
    ensures forall n :: n in r <==> n in order && n in models && models[n].isAvailable
    ensures |r| <= |order|
  {
    if order == [] then []
    else
      var rest := AvailableIn(order[..|order| - 1], models);
      var last := order[|order| - 1];
      if last in models && models[last].isAvailable then rest + [last] else rest
  }

  /** A filter keeps the relative order of what it keeps. */
  lemma {:induction false} AvailableInOrder(order: seq<string>, models: map<string, ModelInfo>)
    requires NoDups(order)
    ensures var r := AvailableIn(order, models);
      NoDups(r) && forall i, j :: 0 <= i < j < |r| ==> FirstIndex(order, r[i]) < FirstIndex(order, r[j])
  {
    if order != [] {
      var init, last := order[..|order| - 1], order[|order| - 1];
      assert order == init + [last];
      assert NoDups(init);
      AvailableInOrder(init, models);
      var rest := AvailableIn(init, models);
      forall x | x in rest ensures FirstIndex(order, x) == FirstIndex(init, x) {
        FirstIndexOfPrefix(init, last, x);
      }
      assert last !in init;
      FirstIndexAtEnd(init, last);
      var r := AvailableIn(order, models);
      if last in models && models[last].isAvailable {
        assert r == rest + [last];
        forall i, j | 0 <= i < j < |r| ensures FirstIndex(order, r[i]) < FirstIndex(order, r[j]) {
          assert r[i] in rest;
          if j < |rest| {
            assert r[j] in rest;
          }
        }
      }
    }
  }

  /** Every model is listed once in the order, under its own name. */
  ghost predicate Consistent(models: map<string, ModelInfo>, order: seq<string>) {
    && NoDups(order)
    && (forall n :: n in models <==> n in order)
    && (forall n :: n in models ==> models[n].name == n)
  }

  /** The loop of `update_model_availability`: each registered model is available exactly when listed. */
  method SetAvailability(models: map<string, ModelInfo>, order: seq<string>, available: set<string>)
    returns (m: map<string, ModelInfo>)
    requires Consistent(models, order)
    ensures Consistent(m, order)
    ensures m.Keys == models.Keys
    ensures forall n :: n in m ==> m[n] == models[n].(isAvailable := n in available)
  {
    m := models;
    for i := 0 to |order|
      invariant forall n :: n in m <==> n in models
      invariant forall n :: n in m ==> m[n] == if n in order[..i] then models[n].(isAvailable := n in available) else models[n]
    {
      var n := order[i];
      assert order[..i + 1] == order[..i] + [n];
      m := m[n := models[n].(isAvailable := n in available)];
    }
    assert order[..|order|] == order;
  }

  /** Registering a new name at the end keeps the two consistent. */
  lemma ConsistentAppend(models: map<string, ModelInfo>, order: seq<string>, info: ModelInfo)
    requires Consistent(models, order) && info.name !in models
    ensures Consistent(models[info.name := info], order + [info.name])
  {
  }

  /**
   * The models registered from the default and the alternatives `prefix`: exactly those
   * names, each with its merged parameters, not yet available, and described by the first
   * alternative that names it.
   */
  ghost predicate Registered(models: map<string, ModelInfo>, default: string, config: Value, prefix: seq<Value>) {
    && (forall n :: n in models <==> n == default || n in AltNames(prefix))
    && (forall n :: n in models ==>
          && SpecificParams(config, n).Some?
          && models[n].name == n && !models[n].isAvailable
          && models[n].parameters == Some(ParamsFor(config, n)))
    && (forall n :: n in models && n != default ==>
          FirstItem(prefix, n).Some? && models[n].description == DescriptionOf(FirstItem(prefix, n).value))
  }

  /**
   * The models other than `default` are exactly the names `prefix` brings in, each with its
   * merged parameters, not yet available, and described by the first entry naming it.
   */
  ghost predicate RegisteredOthers(models: map<string, ModelInfo>, default: string, config: Value, prefix: seq<Value>) {
    && (forall n :: n in models <==> n == default || n in AltNames(prefix))
    && (forall n :: n in models && n != default ==>
          && models[n].name == n && !models[n].isAvailable
          && models[n].parameters == Some(ParamsFor(config, n))
          && FirstItem(prefix, n).Some? && models[n].description == DescriptionOf(FirstItem(prefix, n).value))
  }

  /** Replacing the default's entry keeps what the alternatives registered. */
  lemma OthersKept(models: map<string, ModelInfo>, default: string, config: Value, prefix: seq<Value>, info: ModelInfo)
    requires Registered(models, default, config, prefix)
    ensures RegisteredOthers(models[default := info], default, config, prefix)
  {
  }

  /** What the default and the alternatives registered includes what the alternatives did. */
  lemma OthersOfRegistered(models: map<string, ModelInfo>, default: string, config: Value, prefix: seq<Value>)
    requires Registered(models, default, config, prefix)
    ensures RegisteredOthers(models, default, config, prefix)
  {
  }

  /** An entry without a usable name, or with a registered one, changes nothing. */
  lemma RegisteredSkip(models: map<string, ModelInfo>, default: string, config: Value, prefix: seq<Value>, item: Value)
    requires Registered(models, default, config, prefix)
    requires NameOf(item).None? || NameOf(item).value in models
    ensures Registered(models, default, config, prefix + [item])
  {
    var s := prefix + [item];
    assert s[..|s| - 1] == prefix;
    forall n | n in models && n != default
      ensures FirstItem(s, n) == FirstItem(prefix, n)
    {
    }
  }

  /** An entry with a new name registers that name. */
  lemma RegisteredAdd(models: map<string, ModelInfo>, default: string, config: Value, prefix: seq<Value>, item: Value)
    requires Registered(models, default, config, prefix)
    requires NameOf(item).Some? && NameOf(item).value !in models
    requires SpecificParams(config, NameOf(item).value).Some?
    ensures var name := NameOf(item).value;
      Registered(models[name := ModelInfo(name, DescriptionOf(item), false, Some(ParamsFor(config, name)))],
                 default, config, prefix + [item])
  {
    var s := prefix + [item];
    assert s[..|s| - 1] == prefix;
    var name := NameOf(item).value;
    var info := ModelInfo(name, DescriptionOf(item), false, Some(ParamsFor(config, name)));
    var m := models[name := info];
    assert AltNames(s) == AltNames(prefix) + {name};
    assert forall n :: n in m <==> n == default || n in AltNames(s);
    assert name !in AltNames(prefix);
    assert FirstItem(s, name) == Some(item);
    forall n | n in m && n != default
      ensures FirstItem(s, n).Some? && m[n].description == DescriptionOf(FirstItem(s, n).value)
    {
      if n != name {
        assert FirstItem(s, n) == FirstItem(prefix, n);
      }
    }
    forall n | n in m
      ensures SpecificParams(config, n).Some? && m[n].name == n && !m[n].isAvailable
      ensures m[n].parameters == Some(ParamsFor(config, n))
    {
      if n != name {
        assert m[n] == models[n];
      }
    }
    assert Registered(m, default, config, s);
  }

  /** No entry of `items` makes the load raise. */
  ghost predicate AllGood(config: Value, items: seq<Value>) {
    forall v :: v in items ==> !BadItem(config, v)
  }

  /** One more entry that does not raise extends a prefix that does not raise. */
  lemma GoodPrefixStep(config: Value, items: seq<Value>, i: nat)
    requires i < |items| && AllGood(config, items[..i]) && !BadItem(config, items[i])
    ensures items[..i + 1] == items[..i] + [items[i]]
    ensures AllGood(config, items[..i + 1])
  {
    assert items[..i + 1] == items[..i] + [items[i]];
  }

  /** No registered model is available before the server has been asked. */
  lemma RegisteredNoneAvailable(models: map<string, ModelInfo>, default: string, config: Value, prefix: seq<Value>)
    requires Registered(models, default, config, prefix)
    ensures forall n :: n in models ==> !models[n].isAvailable
  {
  }

  /**
   * One pass of the `_add_alternatives` loop: an entry that raises reports `bad`; an unnamed
   * or already registered entry changes nothing; a new name is registered at the end.
   */
  method RegisterOne(models: map<string, ModelInfo>, order: seq<string>, default: string,
                     config: Value, ghost prefix: seq<Value>, item: Value)
    returns (bad: bool, m: map<string, ModelInfo>, o: seq<string>)
    requires Consistent(models, order) && default in models
    requires DefaultParams(config).Some? && Registered(models, default, config, prefix)
    requires order == InsertionOrder(default, prefix)
    ensures bad <==> BadItem(config, item)
    ensures bad ==> m == models && o == order
    ensures !bad ==> Consistent(m, o) && default in m && Registered(m, default, config, prefix + [item])
    ensures !bad ==> o == InsertionOrder(default, prefix + [item])
  {
    InsertionOrderStep(default, prefix, item);
    m, o := models, order;
    if !item.VDict? {
      return true, m, o;
    }
    var name := NameOf(item);
    if name.None? || name.value in m {
      RegisteredSkip(m, default, config, prefix, item);
      assert !BadItem(config, item);
      return false, m, o;
    }
    var specific := SpecificParams(config, name.value);
    if specific.None? {
      return true, m, o;
    }
    var info := ModelInfo(name.value, DescriptionOf(item), false, Some(Merge(DefaultParams(config).value, specific.value)));
    assert info.parameters == Some(ParamsFor(config, name.value));
    RegisteredAdd(m, default, config, prefix, item);
    ConsistentAppend(m, o, info);
    m := m[name.value := info];
    o := o + [name.value];
    bad := false;
  }

  /**
   * The body of `_add_alternatives` on the registry's contents: walks the entries in order,
   * skipping unnamed and already registered ones, and stops with false at the first entry
   * that raises (a non-mapping entry, or a name whose specific parameters `dict` cannot read).
   */
  method RegisterAlternatives(models: map<string, ModelInfo>, order: seq<string>, default: string,
                              config: Value, items: seq<Value>)
    returns (ok: bool, m: map<string, ModelInfo>, o: seq<string>)
    requires Consistent(models, order) && default in models
    requires DefaultParams(config).Some? && Registered(models, default, config, [])
    requires order == [default]
    ensures Consistent(m, o) && default in m
    ensures forall n :: n in m ==> !m[n].isAvailable
    ensures ok <==> forall j :: 0 <= j < |items| ==> !BadItem(config, items[j])
    ensures ok ==> Registered(m, default, config, items)
    ensures Registered(m, default, config, items[..FirstBad(config, items)])
    ensures o == InsertionOrder(default, items[..FirstBad(config, items)])
  {
    var stop;
    stop, m, o := RegisterUntilBad(models, order, default, config, items);
    FirstBadAt(config, items, stop);
    RegisteredNoneAvailable(m, default, config, items[..stop]);
    ok := stop == |items|;
    if ok {
      assert items[..stop] == items;
    }
  }

  /** The loop itself: registers entries until one raises, and says where it stopped. */
  method RegisterUntilBad(models: map<string, ModelInfo>, order: seq<string>, default: string,
                          config: Value, items: seq<Value>)
    returns (stop: nat, m: map<string, ModelInfo>, o: seq<string>)
    requires Consistent(models, order) && default in models
    requires DefaultParams(config).Some? && Registered(models, default, config, [])
    requires order == [default]
    ensures stop <= |items| && AllGood(config, items[..stop])
    ensures stop < |items| ==> BadItem(config, items[stop])
    ensures Consistent(m, o) && default in m
    ensures Registered(m, default, config, items[..stop])
    ensures o == InsertionOrder(default, items[..stop])
  {
    m, o := models, order;
    assert items[..0] == [];
    stop := 0;
    while stop < |items|
      invariant 0 <= stop <= |items|
      invariant Consistent(m, o) && default in m
      invariant AllGood(config, items[..stop])
      invariant Registered(m, default, config, items[..stop])
      invariant o == InsertionOrder(default, items[..stop])
    {
      var bad, m', o' := RegisterOne(m, o, default, config, items[..stop], items[stop]);
      if bad {
        return;
      }
      m, o := m', o';
      GoodPrefixStep(config, items, stop);
      stop := stop + 1;
    }
  }

  /** Good entries up to `i`, and a bad one at `i` or the end: `i` is the first bad position. */
  lemma FirstBadAt(config: Value, items: seq<Value>, i: nat)
    requires i <= |items| && AllGood(config, items[..i])
    requires i < |items| ==> BadItem(config, items[i])
    ensures FirstBad(config, items) == i
  {
    var k := FirstBad(config, items);
    if k < i {
      assert false;
    }
  }

  class ModelRegistry {
    /** `_models`, with `order` holding its insertion order. */
    var models: map<string, ModelInfo>
    var order: seq<string>
    /** `_default_model` */
    var defaultModel: string

    /**
     * The registry a clean load leaves: the configured default, the default and the named
     * alternatives (the first entry of each name wins), each with its merged parameters.
     */
    ghost predicate CleanLoad(config: Value)
      reads this
      requires AlternativeItems(config).Some?
    {
      && defaultModel == DefaultModelName(config)
      && Registered(models, defaultModel, config, AlternativeItems(config).value)
    }

    /** The registry after a failed load: the fallback model is the default and has no parameters. */
    ghost predicate FallbackLoad(config: Value)
      reads this
    {
      defaultModel == FallbackName(config) && defaultModel in models && models[defaultModel] == FallbackInfo(defaultModel)
    }

    ghost predicate Valid()
      reads this
    {
      Consistent(models, order)
    }

    /**
     * `ModelRegistry(config_path)`: `fileConfig` is what `get_config(config_path)` returned and
     * `config` what the manager's getters read from its default file (the same value when
     * `config_path` is the default file).
     */
    constructor(fileConfig: Value, config: Value)
      ensures Valid()
      ensures defaultModel in models
      ensures forall n :: n in models ==> !models[n].isAvailable
      ensures LoadsCleanly(fileConfig, config) ==> CleanLoad(config)
      ensures !LoadsCleanly(fileConfig, config) ==> FallbackLoad(config)
      ensures !PastDefault(fileConfig, config) ==>
        models == map[FallbackName(config) := FallbackInfo(FallbackName(config))] && order == [FallbackName(config)]
      ensures PastDefault(fileConfig, config) ==>
        RegisteredOthers(models, defaultModel, config, KeptAlternatives(config))
      ensures PastDefault(fileConfig, config) ==> order == InsertionOrder(defaultModel, KeptAlternatives(config))
    {
      models := map[];
      order := [];
      defaultModel := "";
      new;
      LoadFromConfig(fileConfig, config);
    }

    /**
     * `_load_from_config`, run once on an empty registry; any exception ends in the fallback,
     * which replaces the default's entry and keeps the alternatives registered before it.
     */
    method LoadFromConfig(fileConfig: Value, config: Value)
      requires models == map[] && order == []
      modifies this
      ensures Valid()
      ensures defaultModel in models
      ensures forall n :: n in models ==> !models[n].isAvailable
      ensures LoadsCleanly(fileConfig, config) ==> CleanLoad(config)
      ensures !LoadsCleanly(fileConfig, config) ==> FallbackLoad(config)
      ensures !PastDefault(fileConfig, config) ==>
        models == map[FallbackName(config) := FallbackInfo(FallbackName(config))] && order == [FallbackName(config)]
      ensures PastDefault(fileConfig, config) ==>
        RegisteredOthers(models, defaultModel, config, KeptAlternatives(config))
      ensures PastDefault(fileConfig, config) ==> order == InsertionOrder(defaultModel, KeptAlternatives(config))
    {
      if Falsy(fileConfig) || !HasModels(fileConfig) {
        assert !PastDefault(fileConfig, config) && !LoadsCleanly(fileConfig, config);
        AddFallbackModel(config);
        assert order == [FallbackName(config)];
        assert models == map[FallbackName(config) := FallbackInfo(FallbackName(config))];
        assert FallbackLoad(config);
        return;
      }
      assert PastDefault(fileConfig, config) == DefaultReadable(config);
      assert LoadsCleanly(fileConfig, config) == (DefaultReadable(config) && CleanAlternatives(config));
      LoadDefaultModel(config);
    }

    /** `_load_from_config` once the file has a models section: the default model, then the alternatives. */
    method LoadDefaultModel(config: Value)
      requires models == map[] && order == []
      modifies this
      ensures Valid()
      ensures defaultModel in models
      ensures forall n :: n in models ==> !models[n].isAvailable
      ensures DefaultReadable(config) && CleanAlternatives(config) ==> CleanLoad(config)
      ensures !(DefaultReadable(config) && CleanAlternatives(config)) ==> FallbackLoad(config)
      ensures !DefaultReadable(config) ==>
        models == map[FallbackName(config) := FallbackInfo(FallbackName(config))] && order == [FallbackName(config)]
      ensures DefaultReadable(config) ==>
        RegisteredOthers(models, defaultModel, config, KeptAlternatives(config))
      ensures DefaultReadable(config) ==> order == InsertionOrder(defaultModel, KeptAlternatives(config))
    {
      defaultModel := DefaultModelName(config);
      if defaultModel == "" {
        AddFallbackModel(config);
        return;
      }
      var defaults := DefaultParams(config);
      var specific := SpecificParams(config, defaultModel);
      if defaults.None? || specific.None? {
        AddFallbackModel(config);
        return;
      }
      models := map[defaultModel := ModelInfo(defaultModel, VStr("Default model (" + defaultModel + ")"), false,
                                              Some(Merge(defaults.value, specific.value)))];
      order := [defaultModel];
      LoadAlternatives(config);
    }

    /** The rest of `_load_from_config` once the default model is registered. */
    method LoadAlternatives(config: Value)
      requires order == [defaultModel] && models.Keys == {defaultModel}
      requires defaultModel == DefaultModelName(config) && defaultModel != ""
      requires DefaultParams(config).Some? && SpecificParams(config, defaultModel).Some?
      requires models[defaultModel].name == defaultModel && !models[defaultModel].isAvailable
      requires models[defaultModel].parameters == Some(ParamsFor(config, defaultModel))
      modifies this
      ensures Valid()
      ensures defaultModel in models
      ensures forall n :: n in models ==> !models[n].isAvailable
      ensures CleanAlternatives(config) ==> CleanLoad(config)
      ensures !CleanAlternatives(config) ==> FallbackLoad(config)
      ensures RegisteredOthers(models, defaultModel, config, KeptAlternatives(config))
      ensures order == InsertionOrder(defaultModel, KeptAlternatives(config))
    {
      var items := AlternativeItems(config);
      if items.None? {
        assert Registered(models, defaultModel, config, []);
        FallBackKeeping(config, []);
        return;
      }
      ghost var kept := items.value[..FirstBad(config, items.value)];
      assert kept == KeptAlternatives(config);
      var ok := AddAlternatives(config, items.value);
      if !ok {
        assert !CleanAlternatives(config);
        FallBackKeeping(config, kept);
      } else {
        assert kept == items.value;
        assert CleanAlternatives(config);
        OthersOfRegistered(models, defaultModel, config, items.value);
      }
    }

    /** `_add_fallback_model` after the alternatives `prefix`: the default's entry is replaced and the rest kept. */
    method FallBackKeeping(config: Value, ghost prefix: seq<Value>)
      requires Valid() && defaultModel in models
      requires defaultModel == DefaultModelName(config) && defaultModel != ""
      requires Registered(models, defaultModel, config, prefix)
      requires order == InsertionOrder(defaultModel, prefix)
      modifies this
      ensures Valid() && defaultModel in models && defaultModel == old(defaultModel)
      ensures forall n :: n in models ==> !models[n].isAvailable
      ensures FallbackLoad(config)
      ensures RegisteredOthers(models, defaultModel, config, prefix)
      ensures order == InsertionOrder(defaultModel, prefix)
    {
      ghost var before := models;
      assert FallbackName(config) == defaultModel && defaultModel in order;
      AddFallbackModel(config);
      OthersKept(before, defaultModel, config, prefix, FallbackInfo(defaultModel));
    }

    /** The loop over the alternatives; false when an entry raised. */
    method AddAlternatives(config: Value, items: seq<Value>) returns (ok: bool)
      requires Valid() && order == [defaultModel] && defaultModel in models
      requires DefaultParams(config).Some? && SpecificParams(config, defaultModel).Some?
      requires !models[defaultModel].isAvailable
      requires models[defaultModel].parameters == Some(ParamsFor(config, defaultModel))
      modifies this
      ensures Valid()
      ensures defaultModel == old(defaultModel) && defaultModel in models
      ensures forall n :: n in models ==> !models[n].isAvailable
      ensures ok <==> forall j :: 0 <= j < |items| ==> !BadItem(config, items[j])
      ensures ok ==> Registered(models, defaultModel, config, items)
      ensures Registered(models, defaultModel, config, items[..FirstBad(config, items)])
      ensures order == InsertionOrder(defaultModel, items[..FirstBad(config, items)])
    {
      assert Registered(models, defaultModel, config, []);
      ok, models, order := RegisterAlternatives(models, order, defaultModel, config, items);
    }

    /** `_add_fallback_model`: registers the fallback name and makes it the default. */
    method AddFallbackModel(config: Value)
      requires Valid()
      modifies this
      ensures Valid()
      ensures defaultModel == FallbackName(config)
      ensures models == old(models)[defaultModel := FallbackInfo(defaultModel)]
      ensures order == if defaultModel in old(order) then old(order) else old(order) + [defaultModel]
    {
      var name := FallbackName(config);
      defaultModel := name;
      models := models[name := FallbackInfo(name)];
      if name !in order {
        order := order + [name];
      }
    }

    /** `update_model_availability`: a model is available exactly when the server lists it. */
    method UpdateModelAvailability(available: set<string>)
      requires Valid()
      modifies this
      ensures Valid()
      ensures order == old(order) && defaultModel == old(defaultModel)
      ensures models.Keys == old(models).Keys
      ensures forall n :: n in models ==> models[n] == old(models)[n].(isAvailable := n in available)
      ensures forall n :: IsModelAvailable(n) <==> n in models && n in available
    {
      models := SetAvailability(models, order, available);
    }

    /** `get_model_info`: the named model, or the default one when no name is given. */
    function GetModelInfo(name: Option<string>): (r: Option<ModelInfo>)
      reads this
      ensures name.None? ==> r == (if defaultModel in models then Some(models[defaultModel]) else None)
      ensures name.Some? && name.value !in models ==> r == None
      ensures name.Some? && name.value in models ==> r == Some(models[name.value])
    {
      var n := name.GetOr(defaultModel);
      if n in models then Some(models[n]) else None
    }

    /** The names of the models `get_available_models` returns. */
    function AvailableNames(): (r: seq<string>)
      reads this
      ensures forall n :: n in r <==> n in models && models[n].isAvailable && n in order
    {
      AvailableIn(order, models)
    }

    /** `get_available_models`: the available models, in insertion order. */
    function GetAvailableModels(): (r: seq<ModelInfo>)
      reads this
      requires Valid()
      ensures |r| == |AvailableNames()|
      ensures forall i :: 0 <= i < |r| ==> r[i].isAvailable && r[i] == models[AvailableNames()[i]]
      ensures forall n :: n in models && models[n].isAvailable <==> exists i :: 0 <= i < |r| && r[i].name == n
    {
      var names := AvailableNames();
      var m := models;
      var r := seq(|names|, i requires 0 <= i < |names| => m[names[i]]);
      assert forall n :: n in models && models[n].isAvailable ==> n in names;
      r
    }

    /** Available models come out in the order they were registered. */
    lemma AvailableModelsInInsertionOrder()
      requires Valid()
      ensures forall i, j :: 0 <= i < j < |AvailableNames()| ==>
        FirstIndex(order, AvailableNames()[i]) < FirstIndex(order, AvailableNames()[j])
    {
      AvailableInOrder(order, models);
    }

    /** `get_all_models`: every model, in insertion order. */
    function GetAllModels(): (r: seq<ModelInfo>)
      reads this
      requires Valid()
      ensures |r| == |order| == |models|
      ensures forall i :: 0 <= i < |r| ==> r[i] == models[order[i]]
    {
      OrderCoversModels();
      var m, o := models, order;
      seq(|o|, i requires 0 <= i < |o| => m[o[i]])
    }

    lemma OrderCoversModels()
      requires Valid()
      ensures |order| == |models|
    {
      assert (set n | n in order) == models.Keys;
      DistinctCardinality(order);
    }

    /** `is_model_available` */
    function IsModelAvailable(name: string): (r: bool)
      reads this
      ensures r <==> name in models && models[name].isAvailable
    {
      var info := GetModelInfo(Some(name));
      info.Some? && info.value.isAvailable
    }
  }

  /** A list without duplicates has as many elements as its set. */
  lemma {:induction false} DistinctCardinality(s: seq<string>)
    requires NoDups(s)
    ensures |set x | x in s| == |s|
  {
    if s != [] {
      var init := s[..|s| - 1];
      assert s == init + [s[|s| - 1]];
      assert NoDups(init);
      DistinctCardinality(init);
      assert (set x | x in s) == (set x | x in init) + {s[|s| - 1]};
    }
  }
}
