/**
 * Configuration values as the YAML loader produces them, and the dotted-path lookup with a
 * default that every configuration read goes through. Reading and parsing the file is
 * not part of this model.
 */
module ConfigLoader {
  import opened Wrappers
  import opened Strings

  /** A parsed YAML value: mappings are keyed by strings. */
  datatype Value =
    | VNone
    | VBool(b: bool)
    | VInt(i: int)
    | VReal(x: real)
    | VStr(s: string)
    | VList(items: seq<Value>)
    | VDict(entries: map<string, Value>)

  /** A parameter dictionary: string keys to configuration values. */
  type Params = map<string, Value>

  /** Python's `not v`. */
  predicate Falsy(v: Value) {
    match v
    case VNone => true
    case VBool(b) => !b
    case VInt(i) => i == 0
    case VReal(x) => x == 0.0
    case VStr(s) => s == ""
    case VList(items) => items == []
    case VDict(entries) => entries == map[]
  }

  /** Following the keys one after the other through nested mappings; None once a step fails. */
  function Walk(current: Value, keys: seq<string>): Option<Value>
    decreases |keys|
  {
    if keys == [] then Some(current)
    else if current.VDict? && keys[0] in current.entries then Walk(current.entries[keys[0]], keys[1..])
    else None
  }

  /** The value found along the keys of a non-empty configuration, unless it is None; else `default`. */
  function ValueAtKeys(config: Value, keys: seq<string>, default: Value): Value {
    if Falsy(config) then default
    else
      match Walk(config, keys)
      case Some(v) => if v == VNone then default else v
      case None => default
  }

  /** The value `get_or_default(config, path, default)` returns. */
  function ValueAt(config: Value, path: string, default: Value): Value {
    ValueAtKeys(config, Split(path, '.'), default)
  }

  /** `get_or_default`, walking the dotted path one key at a time. */
  method GetOrDefault(config: Value, path: string, default: Value) returns (r: Value)
    ensures r == ValueAt(config, path, default)
  {
    if Falsy(config) {
      return default;
    }
    var parts := Split(path, '.');
    var current := config;
    var i := 0;
    while i < |parts|
      invariant 0 <= i <= |parts|
      invariant Walk(config, parts) == Walk(current, parts[i..])
    {
      assert parts[i..][0] == parts[i] && parts[i..][1..] == parts[i + 1..];
      if !current.VDict? || parts[i] !in current.entries {
        return default;
      }
      current := current.entries[parts[i]];
      i := i + 1;
    }
    assert parts[i..] == [];
    r := if current == VNone then default else current;
  }

  /** A walk along `a + b` is a walk along `a` continued along `b`. */
  lemma {:induction false} WalkAppend(v: Value, a: seq<string>, b: seq<string>)
    ensures Walk(v, a + b) == match Walk(v, a) case Some(w) => Walk(w, b) case None => None
  {
    if a != [] {
      assert (a + b)[0] == a[0] && (a + b)[1..] == a[1..] + b;
      if v.VDict? && a[0] in v.entries {
        WalkAppend(v.entries[a[0]], a[1..], b);
      }
    } else {
      assert a + b == b;
    }
  }

  /** Once a walk reaches something that is not a mapping, any further key fails. */
  lemma WalkPastLeaf(v: Value, a: seq<string>, b: seq<string>)
    requires Walk(v, a).Some? && !Walk(v, a).value.VDict? && b != []
    ensures Walk(v, a + b) == None
  {
    WalkAppend(v, a, b);
  }

  /** A value stored under a dot-free key of a non-empty mapping is found there. */
  lemma TopLevelKey(m: map<string, Value>, key: string, default: Value)
    requires key in m && '.' !in key && m[key] != VNone
    ensures ValueAt(VDict(m), key, default) == m[key]
  {
    SplitJoin([key], '.');
    assert Join([key], '.') == key;
    assert [key][1..] == [];
    assert Walk(VDict(m), [key]) == Walk(m[key], []);
  }

  /** A stored value two levels down is found by its dotted path. */
  lemma NestedKey(outer: string, inner: string, v: Value, default: Value)
    requires '.' !in outer && '.' !in inner && v != VNone
    ensures ValueAt(VDict(map[outer := VDict(map[inner := v])]), outer + "." + inner, default) == v
  {
    SplitJoin([outer, inner], '.');
    assert Join([outer, inner], '.') == outer + "." + inner by {
      assert [outer, inner][1..] == [inner];
    }
    var leaf := VDict(map[inner := v]);
    assert [outer, inner][1..] == [inner] && [inner][1..] == [];
    assert Walk(leaf, [inner]) == Walk(v, []);
    assert Walk(VDict(map[outer := leaf]), [outer, inner]) == Walk(leaf, [inner]);
  }

  /** An empty or missing configuration, or a path that reaches None, gives the default. */
  lemma DefaultCases(config: Value, path: string, default: Value)
    ensures Falsy(config) ==> ValueAt(config, path, default) == default
    ensures Walk(config, Split(path, '.')) == None ==> ValueAt(config, path, default) == default
    ensures Walk(config, Split(path, '.')) == Some(VNone) ==> ValueAt(config, path, default) == default
    ensures !Falsy(config) && Walk(config, Split(path, '.')).Some? && Walk(config, Split(path, '.')).value != VNone ==>
      ValueAt(config, path, default) == Walk(config, Split(path, '.')).value
  {
  }
}
