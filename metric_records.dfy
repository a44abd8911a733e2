/**
 * The review records the evaluation scripts read (the golden standard and the model's
 * output share one shape) and the counting dictionaries they fill.
 */
module MetricRecords {
  import opened Wrappers

  /** A review id as JSON gives it: a number or a string. */
  datatype Id = IntId(n: int) | StrId(s: string)

  /** Python truthiness of an id: 0 and "" are falsy. */
  predicate TruthyId(id: Id) {
    match id
    case IntId(n) => n != 0
    case StrId(s) => s != ""
  }

  /** One annotation; None stands for a key the annotation does not have. */
  datatype Annotation = Annotation(category: Option<string>, sentiment: Option<string>)

  /** One review; a review without an `annotations` key has none. */
  datatype Review = Review(id: Option<Id>, annotations: seq<Annotation>)

  /** Python truthiness of an optional string. */
  predicate Given(s: Option<string>) {
    s.Some? && s.value != ""
  }

  /** A counter's entry: `defaultdict(int)` reads a missing key as 0. */
  function Get<K>(m: map<K, nat>, k: K): nat {
    if k in m then m[k] else 0
  }

  /**
   * `for k in keys: m[k] += 1` on a `defaultdict(int)`: each key of `keys` counts once more,
   * and a counter only ever holds keys it has counted.
   */
  method Increment<K(==)>(m: map<K, nat>, keys: set<K>) returns (r: map<K, nat>)
    ensures forall k :: Get(r, k) == Get(m, k) + (if k in keys then 1 else 0)
    ensures forall k :: k in r <==> k in m || k in keys
  {
    r := m;
    var todo := keys;
    while todo != {}
      invariant todo <= keys
      invariant forall k :: Get(r, k) == Get(m, k) + (if k in keys && k !in todo then 1 else 0)
      invariant forall k :: k in r <==> k in m || (k in keys && k !in todo)
      decreases |todo|
    {
      var k :| k in todo;
      r := r[k := Get(r, k) + 1];
      todo := todo - {k};
    }
  }

  /** A counter that only ever grows holds positive counts. */
  predicate Positive<K>(m: map<K, nat>) {
    forall k :: k in m ==> m[k] > 0
  }

  lemma IncrementPositive<K>(m: map<K, nat>, keys: set<K>, r: map<K, nat>)
    requires Positive(m)
    requires forall k :: Get(r, k) == Get(m, k) + (if k in keys then 1 else 0)
    requires forall k :: k in r <==> k in m || k in keys
    ensures Positive(r)
  {
    forall k | k in r ensures r[k] > 0 {
      assert Get(r, k) == r[k];
    }
  }
}
