/**
 * Names as the database stores them and as the API exposes them: sentiment and source
 * maps with their inverses, the products as virtual groups of database categories, and
 * the two translations the dashboard applies to request filters. An empty filter list
 * means "all" on both sides.
 */
module Mappings {
  import opened Seqs

  predicate Injective(m: map<string, string>) {
    forall a, b :: a in m && b in m && a != b ==> m[a] != m[b]
  }

  /** `{v: k for k, v in m.items()}` for a map without repeated values. */
  function Invert(m: map<string, string>): (r: map<string, string>)
    requires Injective(m)
    ensures r.Keys == m.Values
    ensures forall k :: k in m ==> r[m[k]] == k
    ensures forall v :: v in r ==> r[v] in m && m[r[v]] == v
  {
    map k | k in m :: m[k] := k
  }

  const SentimentDbToApi: map<string, string> :=
    map["позитив" := "positive", "негатив" := "negative", "нейтральный" := "neutral"]

  function SentimentApiToDb(): (r: map<string, string>)
    ensures r.Keys == {"positive", "negative", "neutral"}
  {
    SentimentTableInjective();
    Invert(SentimentDbToApi)
  }

  lemma SentimentTableInjective()
    ensures Injective(SentimentDbToApi)
  {
  }

  /** The two sentiment tables are inverse to each other, both ways round. */
  lemma SentimentRoundTrip()
    ensures forall d :: d in SentimentDbToApi ==> SentimentApiToDb()[SentimentDbToApi[d]] == d
    ensures forall a :: a in SentimentApiToDb() ==> SentimentDbToApi[SentimentApiToDb()[a]] == a
  {
    SentimentTableInjective();
  }

  const SourceDbToApi: map<string, string> := map["Banki.ru" := "banki-ru", "Sravni.ru" := "sravni-ru"]

  lemma SourceTableInjective()
    ensures Injective(SourceDbToApi)
  {
  }

  function SourceApiToDb(): (r: map<string, string>)
    ensures r.Keys == {"banki-ru", "sravni-ru"}
  {
    SourceTableInjective();
    Invert(SourceDbToApi)
  }

  /** The two source tables are inverse to each other, both ways round. */
  lemma SourceRoundTrip()
    ensures forall d :: d in SourceDbToApi ==> SourceApiToDb()[SourceDbToApi[d]] == d
    ensures forall a :: a in SourceApiToDb() ==> SourceDbToApi[SourceApiToDb()[a]] == a
  {
    SourceTableInjective();
  }

  /** The product groups, in the order the table declares them. */
  const ProductToCategory: seq<(string, seq<string>)> := [
    ("credit-cards", ["Карты", "Кредиты", "Кэшбэк / Бонусы"]),
    ("debit-cards", ["Карты", "Кэшбэк / Бонусы", "Карточная служба"]),
    ("mortgage", ["Кредиты"]),
    ("auto-loan", ["Кредиты"]),
    ("consumer-loan", ["Кредиты"]),
    ("deposits", ["Вклады"]),
    ("savings", ["Вклады", "Счета"]),
    ("mobile-app", ["Приложение"]),
    ("online-banking", ["Приложение"]),
    ("support", ["Служба поддержки", "Обслуживание в офисе", "Курьерская служба"])
  ]

  function ProductKeys(): (r: seq<string>)
    ensures |r| == |ProductToCategory|
    ensures forall i :: 0 <= i < |r| ==> r[i] == ProductToCategory[i].0
  {
    seq(|ProductToCategory|, i requires 0 <= i < |ProductToCategory| => ProductToCategory[i].0)
  }

  lemma ProductKeysDistinct()
    ensures NoDups(ProductKeys())
  {
    var k := ProductKeys();
    assert k == ["credit-cards", "debit-cards", "mortgage", "auto-loan", "consumer-loan",
                 "deposits", "savings", "mobile-app", "online-banking", "support"];
  }

  /** `PRODUCT_TO_CATEGORY_MAPPING.get(product, [])` */
  function CategoriesFor(product: string): (r: seq<string>)
    ensures product !in ProductKeys() ==> r == []
    ensures forall i :: 0 <= i < |ProductToCategory| && ProductToCategory[i].0 == product ==>
      r == ProductToCategory[i].1
  {
    ProductKeysDistinct();
    LookupFinds(ProductToCategory, product);
    Lookup(ProductToCategory, product)
  }

  /** The entry of the first row with the given key, or nothing. */
  function Lookup(table: seq<(string, seq<string>)>, key: string): seq<string> {
    if table == [] then []
    else if table[0].0 == key then table[0].1
    else Lookup(table[1..], key)
  }

  lemma {:induction false} LookupFinds(table: seq<(string, seq<string>)>, key: string)
    ensures (forall i :: 0 <= i < |table| ==> table[i].0 != key) ==> Lookup(table, key) == []
    ensures forall i :: 0 <= i < |table| && table[i].0 == key && (forall j :: 0 <= j < i ==> table[j].0 != key) ==>
      Lookup(table, key) == table[i].1
  {
    if table != [] && table[0].0 != key {
      LookupFinds(table[1..], key);
      assert forall i :: 1 <= i < |table| ==> table[i] == table[1..][i - 1];
    }
  }

  /** The categories of the products in `table`, one list after the other, as the loop extends them. */
  function Extended(table: seq<(string, seq<string>)>, products: seq<string>): seq<string> {
    if products == [] then []
    else Extended(table, products[..|products| - 1]) + Lookup(table, products[|products| - 1])
  }

  lemma {:induction false} ExtendedMembers(table: seq<(string, seq<string>)>, products: seq<string>, c: string)
    ensures c in Extended(table, products) <==> exists p :: p in products && c in Lookup(table, p)
  {
    if products != [] {
      var init, last := products[..|products| - 1], products[|products| - 1];
      ExtendedMembers(table, init, c);
      assert Extended(table, products) == Extended(table, init) + Lookup(table, last);
      assert products == init + [last];
      if c in Extended(table, products) {
        if c in Lookup(table, last) {
          assert last in products;
        } else {
          var p :| p in init && c in Lookup(table, p);
          assert p in products;
        }
      }
      if exists p :: p in products && c in Lookup(table, p) {
        var p :| p in products && c in Lookup(table, p);
        if p != last {
          assert p in init;
        }
      }
    }
  }

  lemma {:induction false} UnknownProductsExtendNothing(table: seq<(string, seq<string>)>, products: seq<string>)
    requires forall p :: p in products ==> Lookup(table, p) == []
    ensures Extended(table, products) == []
  {
    if products != [] {
      assert products[|products| - 1] in products;
      UnknownProductsExtendNothing(table, products[..|products| - 1]);
    }
  }

  predicate KnownProduct(p: string) {
    p in ProductKeys()
  }

  /**
   * `get_categories_for_products`: the categories of all the listed products, each once
   * and in no particular order; unknown products add nothing, and no products give none.
   */
  method GetCategoriesForProducts(products: seq<string>) returns (r: seq<string>)
    ensures products == [] ==> r == []
    ensures NoDups(r)
    ensures forall c :: c in r <==> exists p :: p in products && c in CategoriesFor(p)
    ensures (forall p :: p in products ==> !KnownProduct(p)) ==> r == []
  {
    r := CategoriesForProducts(ProductToCategory, products);
    assert forall p :: CategoriesFor(p) == Lookup(ProductToCategory, p);
  }

  /** The loop of `get_categories_for_products` over a product table. */
  method CategoriesForProducts(table: seq<(string, seq<string>)>, products: seq<string>) returns (r: seq<string>)
    ensures products == [] ==> r == []
    ensures NoDups(r)
    ensures forall c :: c in r <==> exists p :: p in products && c in Lookup(table, p)
    ensures (forall p :: p in products ==> Lookup(table, p) == []) ==> r == []
  {
    if products == [] {
      return [];
    }
    var categories := [];
    var i := 0;
    while i < |products|
      invariant 0 <= i <= |products|
      invariant categories == Extended(table, products[..i])
    {
      assert products[..i + 1][..i] == products[..i];
      categories := categories + Lookup(table, products[i]);
      i := i + 1;
    }
    assert products[..i] == products;
    if forall p :: p in products ==> Lookup(table, p) == [] {
      UnknownProductsExtendNothing(table, products);
    }
    r := Distinct(categories);
    forall c ensures c in r <==> exists p :: p in products && c in Lookup(table, p) {
      ExtendedMembers(table, products, c);
    }
  }

  /** `list(set(xs))`: every value once, in an order the model leaves open. */
  method Distinct(xs: seq<string>) returns (r: seq<string>)
    ensures NoDups(r)
    ensures forall c :: c in r <==> c in xs
    ensures xs == [] ==> r == []
  {
    var remaining := set c | c in xs;
    r := [];
    while remaining != {}
      invariant remaining <= set c | c in xs
      invariant NoDups(r)
      invariant |r| + |remaining| == |set c | c in xs|
      invariant forall c :: c in r <==> c in xs && c !in remaining
      decreases |remaining|
    {
      var c :| c in remaining;
      r := r + [c];
      remaining := remaining - {c};
    }
  }

  /** `SOURCE_API_TO_DB.get(src, src)` */
  function DbSourceName(api: string): (r: string)
    ensures api in SourceApiToDb() ==> r in SourceDbToApi && SourceDbToApi[r] == api
    ensures api !in SourceApiToDb() ==> r == api
  {
    SourceRoundTrip();
    if api in SourceApiToDb() then SourceApiToDb()[api] else api
  }

  /**
   * `get_db_source_names`: every source translated in place, unknown ones kept as they
   * are; no sources give none.
   */
  function GetDbSourceNames(sources: seq<string>): (r: seq<string>)
    ensures |r| == |sources|
    ensures forall i :: 0 <= i < |sources| ==> r[i] == DbSourceName(sources[i])
  {
    if sources == [] then [] else seq(|sources|, i requires 0 <= i < |sources| => DbSourceName(sources[i]))
  }

  /** Translating database names to the API and back gives the database names again. */
  lemma DbNamesRoundTrip(names: seq<string>)
    requires forall i :: 0 <= i < |names| ==> names[i] in SourceDbToApi
    ensures GetDbSourceNames(seq(|names|, i requires 0 <= i < |names| => SourceDbToApi[names[i]])) == names
  {
    SourceRoundTrip();
  }
}
