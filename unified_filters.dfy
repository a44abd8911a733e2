/**
 * The frontend's cross-filter store (UnifiedFiltersContext): the filter state every
 * dashboard widget reads, the three-action reducer that produces the next state,
 * the provider's setter and toggle methods, the two derived queries, and the choice
 * between fetched and fallback reference lists.
 *
 * Instants are integer milliseconds; "now" is a parameter.
 */
module UnifiedFiltersContext {
  import opened Wrappers
  import Seqs
  import Strings

  const DayMs: int := 86_400_000

  datatype DateRange = DateRange(from: int, to: int)

  datatype Sentiment = Positive | Neutral | Negative

  datatype FilterState = FilterState(
    dateRange: DateRange,
    sources: seq<string>,
    products: seq<string>,
    aspects: seq<string>,
    sentiments: seq<Sentiment>,
    searchText: Option<string>)

  /** The six keys of a filter state. */
  datatype Key = DateRangeKey | SourcesKey | ProductsKey | AspectsKey | SentimentsKey | SearchTextKey

  /** A key together with a value of that key's type: the payload of SET_FILTER. */
  datatype Assignment =
    | DateRangeTo(range: DateRange)
    | SourcesTo(sources: seq<string>)
    | ProductsTo(products: seq<string>)
    | AspectsTo(aspects: seq<string>)
    | SentimentsTo(sentiments: seq<Sentiment>)
    | SearchTextTo(text: Option<string>)
  {
    function Key(): Key {
      match this
      case DateRangeTo(_) => DateRangeKey
      case SourcesTo(_) => SourcesKey
      case ProductsTo(_) => ProductsKey
      case AspectsTo(_) => AspectsKey
      case SentimentsTo(_) => SentimentsKey
      case SearchTextTo(_) => SearchTextKey
    }
  }

  /**
   * The actions the reducer receives. `payload` is absent when the caller sent none;
   * `Unrecognised` stands for any other action type, which reaches the default branch.
   */
  datatype Action =
    | SetFilter(payload: Option<Assignment>)
    | ClearFilter(key: Option<Key>)
    | ClearAll
    | Unrecognised

  /** The value of one field, as the assignment that would produce it. */
  function Get(s: FilterState, k: Key): (a: Assignment)
    ensures a.Key() == k
  {
    match k
    case DateRangeKey => DateRangeTo(s.dateRange)
    case SourcesKey => SourcesTo(s.sources)
    case ProductsKey => ProductsTo(s.products)
    case AspectsKey => AspectsTo(s.aspects)
    case SentimentsKey => SentimentsTo(s.sentiments)
    case SearchTextKey => SearchTextTo(s.searchText)
  }

  /** Two states with the same value under every key are the same state. */
  lemma SameFieldsSameState(s: FilterState, t: FilterState)
    requires forall k :: Get(s, k) == Get(t, k)
    ensures s == t
  {
    assert Get(s, DateRangeKey) == Get(t, DateRangeKey);
    assert Get(s, SourcesKey) == Get(t, SourcesKey);
    assert Get(s, ProductsKey) == Get(t, ProductsKey);
    assert Get(s, AspectsKey) == Get(t, AspectsKey);
    assert Get(s, SentimentsKey) == Get(t, SentimentsKey);
    assert Get(s, SearchTextKey) == Get(t, SearchTextKey);
  }

  /** `{...state, [key]: value}` */
  function Assign(s: FilterState, a: Assignment): (r: FilterState)
    ensures Get(r, a.Key()) == a
    ensures forall k :: k != a.Key() ==> Get(r, k) == Get(s, k)
  {
    match a
    case DateRangeTo(range) => s.(dateRange := range)
    case SourcesTo(sources) => s.(sources := sources)
    case ProductsTo(products) => s.(products := products)
    case AspectsTo(aspects) => s.(aspects := aspects)
    case SentimentsTo(sentiments) => s.(sentiments := sentiments)
    case SearchTextTo(text) => s.(searchText := text)
  }

  /** The state built when the module is loaded: the last 30 days, nothing else selected. */
  function InitialState(now: int): (s: FilterState)
    ensures s.dateRange.to == now
    ensures s.dateRange.to - s.dateRange.from == 29 * DayMs
    ensures forall k :: k != DateRangeKey ==> IsEmptyValue(Get(s, k))
  {
    FilterState(DateRange(now - 29 * DayMs, now), [], [], [], [], None)
  }

  /** An empty list, or an absent search text. */
  predicate IsEmptyValue(a: Assignment) {
    match a
    case DateRangeTo(_) => false
    case SourcesTo(sources) => sources == []
    case ProductsTo(products) => products == []
    case AspectsTo(aspects) => aspects == []
    case SentimentsTo(sentiments) => sentiments == []
    case SearchTextTo(text) => text == None
  }

  /** The value CLEAR_FILTER writes under `k`. */
  function Cleared(initial: FilterState, k: Key): (a: Assignment)
    ensures a.Key() == k
    ensures k == DateRangeKey ==> a == Get(initial, DateRangeKey)
    ensures k != DateRangeKey ==> IsEmptyValue(a)
  {
    match k
    case DateRangeKey => DateRangeTo(initial.dateRange)
    case SourcesKey => SourcesTo([])
    case ProductsKey => ProductsTo([])
    case AspectsKey => AspectsTo([])
    case SentimentsKey => SentimentsTo([])
    case SearchTextKey => SearchTextTo(None)
  }

  /** `filtersReducer`; `initial` is the module-load snapshot, not a fresh "now". */
  function Reduce(initial: FilterState, s: FilterState, action: Action): (r: FilterState)
    ensures action.SetFilter? && action.payload.Some? ==>
      var a := action.payload.value;
      Get(r, a.Key()) == a && forall k :: k != a.Key() ==> Get(r, k) == Get(s, k)
    ensures action.ClearFilter? && action.key.Some? ==>
      var key := action.key.value;
      Get(r, key) == Cleared(initial, key) && forall k :: k != key ==> Get(r, k) == Get(s, k)
    ensures action.ClearAll? ==> r == initial
    ensures action == SetFilter(None) || action == ClearFilter(None) || action == Unrecognised ==> r == s
  {
    match action
    case SetFilter(payload) =>
      if payload.None? then s else Assign(s, payload.value)
    case ClearFilter(key) =>
      if key.None? then s else Assign(s, Cleared(initial, key.value))
    case ClearAll => initial
    case Unrecognised => s
  }

  /** Clearing every key one by one lands on the snapshot, like CLEAR_ALL. */
  lemma ClearEveryKeyIsClearAll(initial: FilterState, s: FilterState)
    requires forall k :: k != DateRangeKey ==> IsEmptyValue(Get(initial, k))
    ensures
      var keys := [DateRangeKey, SourcesKey, ProductsKey, AspectsKey, SentimentsKey, SearchTextKey];
      var t0 := Reduce(initial, s, ClearFilter(Some(keys[0])));
      var t1 := Reduce(initial, t0, ClearFilter(Some(keys[1])));
      var t2 := Reduce(initial, t1, ClearFilter(Some(keys[2])));
      var t3 := Reduce(initial, t2, ClearFilter(Some(keys[3])));
      var t4 := Reduce(initial, t3, ClearFilter(Some(keys[4])));
      var t5 := Reduce(initial, t4, ClearFilter(Some(keys[5])));
      t5 == Reduce(initial, s, ClearAll)
  {
    var t0 := Reduce(initial, s, ClearFilter(Some(DateRangeKey)));
    var t1 := Reduce(initial, t0, ClearFilter(Some(SourcesKey)));
    var t2 := Reduce(initial, t1, ClearFilter(Some(ProductsKey)));
    var t3 := Reduce(initial, t2, ClearFilter(Some(AspectsKey)));
    var t4 := Reduce(initial, t3, ClearFilter(Some(SentimentsKey)));
    var t5 := Reduce(initial, t4, ClearFilter(Some(SearchTextKey)));
    forall k ensures Get(t5, k) == Get(initial, k) {
      var e := Get(initial, k);
      match k
      case DateRangeKey =>
      case SourcesKey => assert e.sources == [];
      case ProductsKey => assert e.products == [];
      case AspectsKey => assert e.aspects == [];
      case SentimentsKey => assert e.sentiments == [];
      case SearchTextKey => assert e.text == None;
    }
    SameFieldsSameState(t5, initial);
  }

  /** SET_FILTER applied once per entry of `updates`, in order. */
  function ApplyAll(s: FilterState, updates: seq<Assignment>): FilterState {
    if updates == [] then s
    else Assign(ApplyAll(s, updates[..|updates| - 1]), updates[|updates| - 1])
  }

  /** The last entry of `updates` under key `k`, if any. */
  function LastFor(updates: seq<Assignment>, k: Key): (a: Option<Assignment>)
    ensures a.Some? ==> a.value in updates && a.value.Key() == k
    ensures a.None? <==> forall i :: 0 <= i < |updates| ==> updates[i].Key() != k
  {
    if updates == [] then None
    else if updates[|updates| - 1].Key() == k then Some(updates[|updates| - 1])
    else LastFor(updates[..|updates| - 1], k)
  }

  /**
   * After `updateFilters`, each key holds its last written value, and a key the
   * update does not mention keeps its old value.
   */
  lemma {:induction false} ApplyAllGet(s: FilterState, updates: seq<Assignment>, k: Key)
    ensures Get(ApplyAll(s, updates), k) == LastFor(updates, k).GetOr(Get(s, k))
  {
    if updates != [] {
      ApplyAllGet(s, updates[..|updates| - 1], k);
    }
  }

  /** `!!state.searchText` */
  predicate Truthy(text: Option<string>) {
    text.Some? && text.value != ""
  }

  /** `getActiveFiltersCount`: one per selected list item, one for a search text; the date range is not counted. */
  function ActiveFiltersCount(s: FilterState): (n: nat)
    ensures n == 0 <==>
      s.sources == [] && s.products == [] && s.aspects == [] && s.sentiments == [] && !Truthy(s.searchText)
    ensures n >= |s.sources| + |s.products| + |s.aspects| + |s.sentiments|
  {
    |s.sources| + |s.products| + |s.aspects| + |s.sentiments| + (if Truthy(s.searchText) then 1 else 0)
  }

  /** `isFiltered` */
  predicate IsFiltered(s: FilterState)
    ensures IsFiltered(s) <==> ActiveFiltersCount(s) > 0
  {
    |s.sources| > 0 || |s.products| > 0 || |s.aspects| > 0 || |s.sentiments| > 0 || Truthy(s.searchText)
  }

  /** The date range never contributes to the count. */
  lemma CountIgnoresDateRange(s: FilterState, d: DateRange)
    ensures ActiveFiltersCount(s.(dateRange := d)) == ActiveFiltersCount(s)
    ensures IsFiltered(s.(dateRange := d)) == IsFiltered(s)
  {
  }

  /** The snapshot is unfiltered, and an empty search text does not filter. */
  lemma InitialIsUnfiltered(now: int)
    ensures !IsFiltered(InitialState(now))
    ensures !IsFiltered(InitialState(now).(searchText := Some("")))
  {
  }

  datatype SourceOption = SourceOption(value: string, title: string)
  datatype ProductOption = ProductOption(value: string, title: string, category: string)

  const FallbackSources: seq<SourceOption> := [
    SourceOption("app-store", "App Store"),
    SourceOption("google-play", "Google Play"),
    SourceOption("banki-ru", "Banki.ru"),
    SourceOption("irecommend", "iRecommend"),
    SourceOption("social-vk", "ВКонтакте"),
    SourceOption("social-telegram", "Telegram"),
    SourceOption("reviews-site", "Сайт отзывов")
  ]

  const FallbackProducts: seq<ProductOption> := [
    ProductOption("credit-cards", "Кредитные карты", "Карты"),
    ProductOption("debit-cards", "Дебетовые карты", "Карты"),
    ProductOption("mortgage", "Ипотека", "Кредиты"),
    ProductOption("auto-loan", "Автокредит", "Кредиты"),
    ProductOption("consumer-loan", "Потребительский кредит", "Кредиты"),
    ProductOption("deposits", "Вклады", "Депозиты"),
    ProductOption("savings", "Накопительные счета", "Депозиты"),
    ProductOption("mobile-app", "Мобильное приложение", "Сервисы"),
    ProductOption("online-banking", "Интернет-банк", "Сервисы"),
    ProductOption("support", "Служба поддержки", "Сервисы")
  ]

  /** Sources offered to the widgets: the fallback list only when the config request failed. */
  function AvailableSources(fetchFailed: bool, fetched: seq<SourceOption>): (r: seq<SourceOption>)
    ensures fetchFailed ==> r == FallbackSources && |r| == 7
    ensures !fetchFailed ==> r == fetched
  {
    if fetchFailed then FallbackSources else fetched
  }

  /** Products offered to the widgets: the fallback list only when the config request failed. */
  function AvailableProducts(fetchFailed: bool, fetched: seq<ProductOption>): (r: seq<ProductOption>)
    ensures fetchFailed ==> r == FallbackProducts && |r| == 10
    ensures !fetchFailed ==> r == fetched
  {
    if fetchFailed then FallbackProducts else fetched
  }

  /** How a preset computes its range from "now". */
  datatype PresetRule =
    | LastDays(days: int)  // from = now - (days - 1) days
    | CurrentMonth
    | CurrentQuarter

  datatype DatePreset = DatePreset(title: string, value: string, rule: PresetRule)

  /** A preset as the config endpoint describes it. */
  datatype ApiPreset = ApiPreset(title: string, days: int)

  const StaticPresets: seq<DatePreset> := [
    DatePreset("Последние 7 дней", "week", LastDays(7)),
    DatePreset("Последние 30 дней", "month", LastDays(30)),
    DatePreset("Текущий месяц", "current-month", CurrentMonth),
    DatePreset("Текущий квартал", "quarter", CurrentQuarter)
  ]

  /** The range of a `LastDays` preset; the calendar presets are not part of this model. */
  function LastDaysRange(days: int, now: int): (r: DateRange)
    ensures r.to == now
    ensures r.to - r.from == (days - 1) * DayMs
    ensures days >= 1 ==> r.from <= r.to
  {
    DateRange(now - (days - 1) * DayMs, now)
  }

  /**
   * `label.toLowerCase().replace(/\s+/g, '-')`: a slug with no white space and no capital;
   * a one-word label is only lowered.
   */
  function PresetValue(title: string): (v: string)
    ensures forall i :: 0 <= i < |v| ==> !Strings.IsWhitespace(v[i]) && !Strings.IsUpper(v[i])
    ensures (forall i :: 0 <= i < |title| ==> !Strings.IsWhitespace(title[i])) ==> v == Strings.Lower(title)
  {
    var lower := Strings.Lower(title);
    Strings.LowerKeepsWhitespace(title);
    assert forall i :: 0 <= i < |lower| ==> lower[i] in lower;
    var v := Strings.DashWhitespaceRuns(lower);
    assert (forall i :: 0 <= i < |title| ==> !Strings.IsWhitespace(title[i])) ==> v == lower by {
      if forall i :: 0 <= i < |title| ==> !Strings.IsWhitespace(title[i]) {
        Strings.DashKeepsPlain(lower);
      }
    }
    v
  }

  /**
   * A label made of a word, a run of white space and the rest becomes the lowered word,
   * one hyphen, and the rest's slug.
   */
  lemma PresetValueWords(word: string, gap: string, rest: string)
    requires forall i :: 0 <= i < |word| ==> !Strings.IsWhitespace(word[i])
    requires Strings.Blank(gap)
    requires rest == [] || !Strings.IsWhitespace(rest[0])
    ensures PresetValue(word + gap + rest) == Strings.Lower(word) + "-" + PresetValue(rest)
  {
    Strings.LowerWordRun(word, gap, rest);
    Strings.DashWordRun(Strings.Lower(word), Strings.Lower(gap), Strings.Lower(rest));
  }

  /** Presets offered to the widgets: the static list on failure, else the fetched ones renamed. */
  function DatePresets(fetchFailed: bool, fetched: seq<ApiPreset>): (r: seq<DatePreset>)
    ensures fetchFailed ==> r == StaticPresets
    ensures !fetchFailed ==> |r| == |fetched| && forall i :: 0 <= i < |r| ==>
      r[i].title == fetched[i].title && r[i].value == PresetValue(fetched[i].title)
      && r[i].rule == LastDays(fetched[i].days)
  {
    if fetchFailed then StaticPresets
    else
      seq(|fetched|, i requires 0 <= i < |fetched| =>
        DatePreset(fetched[i].title, PresetValue(fetched[i].title), LastDays(fetched[i].days)))
  }

  /**
   * The provider: the reducer's current state, and the snapshot taken when the module
   * was loaded, which CLEAR_FILTER('dateRange') and CLEAR_ALL restore.
   */
  class UnifiedFilters {
    const initial: FilterState
    var state: FilterState

    constructor (now: int)
      ensures initial == InitialState(now) && state == initial
    {
      initial := InitialState(now);
      state := InitialState(now);
    }

    /** `dispatch` */
    method Dispatch(action: Action)
      modifies this
      ensures state == Reduce(initial, old(state), action)
    {
      state := Reduce(initial, state, action);
    }

    /** `setFilter(key, value)`: only that key changes. */
    method SetFilter(a: Assignment)
      modifies this
      ensures state == Assign(old(state), a)
      ensures Get(state, a.Key()) == a
      ensures forall k :: k != a.Key() ==> Get(state, k) == Get(old(state), k)
    {
      Dispatch(Action.SetFilter(Some(a)));
    }

    /** `clearFilter(key)` */
    method ClearFilter(k: Key)
      modifies this
      ensures Get(state, k) == Cleared(initial, k)
      ensures forall j :: j != k ==> Get(state, j) == Get(old(state), j)
    {
      Dispatch(Action.ClearFilter(Some(k)));
    }

    /** `clearAllFilters` */
    method ClearAllFilters()
      modifies this
      ensures state == initial
    {
      Dispatch(ClearAll);
    }

    /** `resetFilters`: the same as `clearAllFilters`. */
    method ResetFilters()
      modifies this
      ensures state == initial
    {
      ClearAllFilters();
    }

    /** `updateFilters`: one `setFilter` per entry, in the order of the entries. */
    method UpdateFilters(updates: seq<Assignment>)
      modifies this
      ensures state == ApplyAll(old(state), updates)
      ensures forall k :: Get(state, k) == LastFor(updates, k).GetOr(Get(old(state), k))
    {
      var i := 0;
      while i < |updates|
        invariant 0 <= i <= |updates|
        invariant state == ApplyAll(old(state), updates[..i])
      {
        SetFilter(updates[i]);
        assert updates[..i + 1][..i] == updates[..i];
        i := i + 1;
      }
      assert updates[..|updates|] == updates;
      forall k ensures Get(state, k) == LastFor(updates, k).GetOr(Get(old(state), k)) {
        ApplyAllGet(old(state), updates, k);
      }
    }

    method SetDateRange(range: DateRange)
      modifies this
      ensures state == old(state).(dateRange := range)
    {
      SetFilter(DateRangeTo(range));
    }

    method SetSources(sources: seq<string>)
      modifies this
      ensures state == old(state).(sources := sources)
    {
      SetFilter(SourcesTo(sources));
    }

    method SetProducts(products: seq<string>)
      modifies this
      ensures state == old(state).(products := products)
    {
      SetFilter(ProductsTo(products));
    }

    /** `filterByProduct`: remove every copy if selected, else append. */
    method FilterByProduct(product: string)
      modifies this
      ensures state == old(state).(products := Seqs.Toggle(old(state).products, product))
      ensures product in state.products <==> product !in old(state).products
    {
      Seqs.ToggleMembership(state.products, product);
      SetFilter(ProductsTo(Seqs.Toggle(state.products, product)));
    }

    /** `filterByAspect` */
    method FilterByAspect(aspect: string)
      modifies this
      ensures state == old(state).(aspects := Seqs.Toggle(old(state).aspects, aspect))
      ensures aspect in state.aspects <==> aspect !in old(state).aspects
    {
      Seqs.ToggleMembership(state.aspects, aspect);
      SetFilter(AspectsTo(Seqs.Toggle(state.aspects, aspect)));
    }

    /** `filterBySentiment` */
    method FilterBySentiment(sentiment: Sentiment)
      modifies this
      ensures state == old(state).(sentiments := Seqs.Toggle(old(state).sentiments, sentiment))
      ensures sentiment in state.sentiments <==> sentiment !in old(state).sentiments
    {
      Seqs.ToggleMembership(state.sentiments, sentiment);
      SetFilter(SentimentsTo(Seqs.Toggle(state.sentiments, sentiment)));
    }
  }
}
