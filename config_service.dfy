/**
 * The filter configuration the API serves: the sources found in the database in their API
 * spelling, the product groups with display labels and a grouping category, and the
 * fixed date presets.
 */
module ConfigService {
  import opened Strings
  import Mappings

  /** `SourceSchema`: the API value and the display label. */
  datatype SourceSchema = SourceSchema(value: string, title: string)

  /** `SOURCE_DB_TO_API.get(name, name.lower())` */
  function ApiSourceValue(name: string): (r: string)
    ensures name in Mappings.SourceDbToApi ==> r == Mappings.SourceDbToApi[name]
    ensures name !in Mappings.SourceDbToApi ==> r == Lower(name)
  {
    if name in Mappings.SourceDbToApi then Mappings.SourceDbToApi[name] else Lower(name)
  }

  /** `_get_sources` over the source names the database returned, in their order. */
  method GetSources(dbSources: seq<string>) returns (sources: seq<SourceSchema>)
    ensures |sources| == |dbSources|
    ensures forall i :: 0 <= i < |dbSources| ==>
      sources[i].title == dbSources[i] && sources[i].value == ApiSourceValue(dbSources[i])
  {
    sources := [];
    var i := 0;
    while i < |dbSources|
      invariant 0 <= i <= |dbSources|
      invariant |sources| == i
      invariant forall k :: 0 <= k < i ==>
        sources[k].title == dbSources[k] && sources[k].value == ApiSourceValue(dbSources[k])
    {
      sources := sources + [SourceSchema(ApiSourceValue(dbSources[i]), dbSources[i])];
      i := i + 1;
    }
  }

  /** A source from the table, offered to the client and sent back as a filter, reaches the database under its own name. */
  lemma KnownSourceRoundTrip(name: string)
    requires name in Mappings.SourceDbToApi
    ensures Mappings.DbSourceName(ApiSourceValue(name)) == name
  {
    Mappings.SourceRoundTrip();
  }

  /**
   * A source missing from the table is offered in lower case, and that spelling is passed
   * to the database unchanged: a name with capitals does not come back as itself.
   */
  lemma UnknownSourceLosesCase()
    ensures ApiSourceValue("iRecommend") == "irecommend"
    ensures Mappings.DbSourceName(ApiSourceValue("iRecommend")) != "iRecommend"
  {
    assert Lower("iRecommend") == "irecommend";
  }

  /** `ProductSchema`: the API value, the display label and the grouping category. */
  datatype ProductSchema = ProductSchema(value: string, title: string, category: string)

  const ProductLabels: map<string, string> := map[
    "credit-cards" := "Кредитные карты",
    "debit-cards" := "Дебетовые карты",
    "mortgage" := "Ипотека",
    "auto-loan" := "Автокредит",
    "consumer-loan" := "Потребительский кредит",
    "deposits" := "Вклады",
    "savings" := "Сбережения",
    "mobile-app" := "Мобильное приложение",
    "online-banking" := "Интернет-банк",
    "support" := "Поддержка"
  ]

  const ProductCategories: map<string, string> := map[
    "credit-cards" := "Banking",
    "debit-cards" := "Banking",
    "mortgage" := "Banking",
    "auto-loan" := "Banking",
    "consumer-loan" := "Banking",
    "deposits" := "Banking",
    "savings" := "Banking",
    "mobile-app" := "Digital",
    "online-banking" := "Digital",
    "support" := "Service"
  ]

  /** The product built for one key of the product table. */
  function ProductFor(key: string): (r: ProductSchema)
    ensures r.value == key
    ensures r.title == (if key in ProductLabels then ProductLabels[key] else key)
    ensures r.category == (if key in ProductCategories then ProductCategories[key] else "Other")
  {
    ProductSchema(key,
      if key in ProductLabels then ProductLabels[key] else key,
      if key in ProductCategories then ProductCategories[key] else "Other")
  }

  /** `_get_products`: one product per key of the product table, in the table's order. */
  method GetProducts() returns (products: seq<ProductSchema>)
    ensures |products| == |Mappings.ProductToCategory|
    ensures forall i :: 0 <= i < |products| ==> products[i] == ProductFor(Mappings.ProductToCategory[i].0)
  {
    var keys := Mappings.ProductKeys();
    products := [];
    var i := 0;
    while i < |keys|
      invariant 0 <= i <= |keys|
      invariant |products| == i
      invariant forall k :: 0 <= k < i ==> products[k] == ProductFor(keys[k])
    {
      products := products + [ProductFor(keys[i])];
      i := i + 1;
    }
  }

  /** Every product key has a label and a category, so neither fallback is ever used. */
  lemma ProductTablesCoverKeys()
    ensures forall k :: k in Mappings.ProductKeys() ==> k in ProductLabels && k in ProductCategories
    ensures forall k :: k in Mappings.ProductKeys() ==>
      ProductFor(k).category in {"Banking", "Digital", "Service"} && ProductFor(k).title != k
  {
    assert Mappings.ProductKeys() == ["credit-cards", "debit-cards", "mortgage", "auto-loan", "consumer-loan",
                                      "deposits", "savings", "mobile-app", "online-banking", "support"];
  }

  /** `DatePresetSchema`: a label and a day count that must be positive. */
  datatype DatePresetSchema = DatePresetSchema(title: string, days: int)

  predicate ValidPreset(p: DatePresetSchema) { p.days > 0 }

  /** `_get_date_presets` */
  const DatePresets: seq<DatePresetSchema> := [
    DatePresetSchema("Последние 7 дней", 7),
    DatePresetSchema("Последние 30 дней", 30),
    DatePresetSchema("Последние 90 дней", 90),
    DatePresetSchema("Последние 180 дней", 180),
    DatePresetSchema("Последний год", 365)
  ]

  /** Five presets, every one accepted by the schema, spanning ever longer periods. */
  lemma DatePresetsValid()
    ensures |DatePresets| == 5
    ensures forall i :: 0 <= i < |DatePresets| ==> ValidPreset(DatePresets[i])
    ensures forall i, j :: 0 <= i < j < |DatePresets| ==> DatePresets[i].days < DatePresets[j].days
  {
  }
}
