# CustomerSentimentChecker in Dafny

This project models the computational core of CustomerSentimentChecker, a
customer-feedback analytics system for bank product reviews, and proves
properties of that model. It covers four parts of the system.

- **The dashboard frontend.**
  - The unified cross-filter store: the filter state, the
    SET_FILTER / CLEAR_FILTER / CLEAR_ALL reducer, the provider's setters and
    toggles, the active-filter count, and the choice between fetched and
    fallback reference lists.
  - The filter widgets built on the store: date range, products, sources and
    reviews.
  - The product comparison selection, the review card's tags and comment box,
    and the reviews feed's sorting and paging.
  - The sentiment helpers: levels, validation, the weighted score and trend
    styling.
  - The dashboard-data hook: the metrics mapping, trends, aggregation and
    drill-down.
- **The backend.**
  - The aggregation service: the period-over-period trend, the previous period,
    sparklines, percentage normalisation and the last-N-days list.
  - The API/database name mappings.
  - The request-schema validation.
  - The configuration service.
  - The date conversion of the SQLite loader.
- **The LLM configuration layer.**
  - The YAML configuration reader and its cached manager.
  - The model registry.
  - The model configurator, which layers default, model-specific and override
    parameters.
  - The loader's adaptation of parameters for the Ollama client.
- **The evaluation scripts.**
  - The per-category confusion matrix and the over-prediction statistics of the
    F1 script.
  - The label preparation and exact-match accuracy of the sentiment accuracy
    script.

How the source is modelled:

- **Pure code is modelled as functions and lemmas.**
- **Objects whose methods update fields are modelled as classes:**
  - the filter store and pickers;
  - the review card and the feed;
  - the configuration manager;
  - the model registry;
  - the F1 calculator.
- **Python's `round` and JavaScript's `Math.round` are written out.** They work
  on exact quotients, with ties to even and ties upward respectively (module
  `Numeric`).
- **Dictionaries are maps.** Where Python keeps insertion order, the model keeps
  it as a separate key sequence.
- **Iteration over a Python set has no fixed order.** Contracts about it speak
  only of sets and multisets.
- **"Now" is a parameter.** Frontend instants are integer milliseconds.
- **YAML configuration files are given as values.** The file reader is not
  modelled.

The frontend (SET_FILTER, `DateRangePicker.ApplyRange`) does not check that
`from` comes no later than `to`; only the backend schema rejects a `to` before
`from` (`FilterSchemas.ValidateDateRange`).

## Model

| member | source | states |
|---|---|---|
| UnifiedFiltersContext.Assign | frontend/src/contexts/UnifiedFiltersContext.tsx:142-145 | the key written holds the new value and every other key keeps its old value |
| UnifiedFiltersContext.InitialState | frontend/src/contexts/UnifiedFiltersContext.tsx:87-97 | the module-load snapshot covers the 29 days up to "now"; every list is empty and there is no search text |
| UnifiedFiltersContext.Cleared | frontend/src/contexts/UnifiedFiltersContext.tsx:150-168 | CLEAR_FILTER resets dateRange to the snapshot's range, a list key to empty and searchText to undefined |
| UnifiedFiltersContext.Reduce | frontend/src/contexts/UnifiedFiltersContext.tsx:138-181 | SET_FILTER changes only its key; CLEAR_FILTER changes only its key, to the cleared value; CLEAR_ALL returns the snapshot; a missing payload or an unknown action returns the state unchanged |
| UnifiedFiltersContext.ClearEveryKeyIsClearAll | frontend/src/contexts/UnifiedFiltersContext.tsx:147-176 | clearing the six keys one after another gives the same state as CLEAR_ALL |
| UnifiedFiltersContext.LastFor | frontend/src/contexts/UnifiedFiltersContext.tsx:238-242 | the last update written under a key; none exactly when no update names that key |
| UnifiedFiltersContext.ApplyAllGet | frontend/src/contexts/UnifiedFiltersContext.tsx:238-242 | after the per-key dispatches, each key holds its last written value, and an unmentioned key keeps its old value |
| UnifiedFiltersContext.ActiveFiltersCount | frontend/src/contexts/UnifiedFiltersContext.tsx:300-308 | zero exactly when every list is empty and the search text is falsy; never below the total number of list items |
| UnifiedFiltersContext.IsFiltered | frontend/src/contexts/UnifiedFiltersContext.tsx:290-298 | holds exactly when getActiveFiltersCount is positive |
| UnifiedFiltersContext.CountIgnoresDateRange | frontend/src/contexts/UnifiedFiltersContext.tsx:300-308 | replacing the date range changes neither the count nor isFiltered |
| UnifiedFiltersContext.InitialIsUnfiltered | frontend/src/contexts/UnifiedFiltersContext.tsx:290-298 | the snapshot is unfiltered, and an empty search text does not filter |
| UnifiedFiltersContext.AvailableSources | frontend/src/contexts/UnifiedFiltersContext.tsx:192-193 | the 7 fallback sources exactly when the config request failed, otherwise the fetched list (even an empty one) |
| UnifiedFiltersContext.AvailableProducts | frontend/src/contexts/UnifiedFiltersContext.tsx:192-194 | the 10 fallback products exactly when the config request failed, otherwise the fetched list |
| UnifiedFiltersContext.LastDaysRange | frontend/src/contexts/UnifiedFiltersContext.tsx:213-216 | a fetched preset's range ends at "now" and spans days - 1 days, so it is ordered for days >= 1 |
| UnifiedFiltersContext.PresetValue | frontend/src/contexts/UnifiedFiltersContext.tsx:212 | a preset value holds no white space and no Latin or Cyrillic capital; a one-word label is just lowered |
| UnifiedFiltersContext.PresetValueWords | frontend/src/contexts/UnifiedFiltersContext.tsx:212 | a label made of a word, a run of white space and the rest gives the lowered word, one hyphen and the rest's value |
| UnifiedFiltersContext.DatePresets | frontend/src/contexts/UnifiedFiltersContext.tsx:208-217 | the static presets on failure; otherwise one preset per fetched one, keeping its label, with the lowered, dashed value and a last-days rule |
| UnifiedFiltersContext.UnifiedFilters.constructor | frontend/src/contexts/UnifiedFiltersContext.tsx:87-97 | the provider starts from the snapshot and keeps it |
| UnifiedFiltersContext.UnifiedFilters.Dispatch | frontend/src/contexts/UnifiedFiltersContext.tsx:184 | the new state is the reducer applied to the old state |
| UnifiedFiltersContext.UnifiedFilters.SetFilter | frontend/src/contexts/UnifiedFiltersContext.tsx:220-225 | only the given key changes, to the given value |
| UnifiedFiltersContext.UnifiedFilters.ClearFilter | frontend/src/contexts/UnifiedFiltersContext.tsx:227-232 | only the given key changes, to its cleared value |
| UnifiedFiltersContext.UnifiedFilters.ClearAllFilters | frontend/src/contexts/UnifiedFiltersContext.tsx:234-236 | the state becomes the snapshot |
| UnifiedFiltersContext.UnifiedFilters.ResetFilters | frontend/src/contexts/UnifiedFiltersContext.tsx:244-246 | the state becomes the snapshot |
| UnifiedFiltersContext.UnifiedFilters.UpdateFilters | frontend/src/contexts/UnifiedFiltersContext.tsx:238-242 | one SET_FILTER per entry, in order; each key ends with its last written value |
| UnifiedFiltersContext.UnifiedFilters.SetDateRange | frontend/src/contexts/UnifiedFiltersContext.tsx:249-251 | only dateRange changes |
| UnifiedFiltersContext.UnifiedFilters.SetSources | frontend/src/contexts/UnifiedFiltersContext.tsx:253-255 | only sources changes |
| UnifiedFiltersContext.UnifiedFilters.SetProducts | frontend/src/contexts/UnifiedFiltersContext.tsx:257-259 | only products changes |
| UnifiedFiltersContext.UnifiedFilters.FilterByProduct | frontend/src/contexts/UnifiedFiltersContext.tsx:262-269 | products is toggled: a present product is removed (every copy), an absent one appended; nothing else changes |
| UnifiedFiltersContext.UnifiedFilters.FilterByAspect | frontend/src/contexts/UnifiedFiltersContext.tsx:271-278 | aspects is toggled the same way; nothing else changes |
| UnifiedFiltersContext.UnifiedFilters.FilterBySentiment | frontend/src/contexts/UnifiedFiltersContext.tsx:280-287 | sentiments is toggled the same way; nothing else changes |
| Seqs.Remove | frontend/src/contexts/UnifiedFiltersContext.tsx:265 | every copy of the value is gone, every other value stays, and the list never grows |
| Seqs.RemoveAbsent | frontend/src/contexts/UnifiedFiltersContext.tsx:265 | removing a value that is not there changes nothing |
| Seqs.RemoveKeepsNoDups | frontend/src/contexts/UnifiedFiltersContext.tsx:265 | removing keeps a duplicate-free list duplicate-free |
| Seqs.RemoveLengthNoDups | frontend/src/contexts/UnifiedFiltersContext.tsx:265 | in a duplicate-free list, removing drops exactly one element when the value is present |
| Seqs.RemoveAppend | frontend/src/contexts/UnifiedFiltersContext.tsx:265 | filtering a concatenation filters each part in place, so the kept values keep their order |
| Seqs.RemoveCounts | frontend/src/contexts/UnifiedFiltersContext.tsx:265 | the removed value occurs no more and every other value occurs as often as before |
| Seqs.RemoveSubseq | frontend/src/contexts/UnifiedFiltersContext.tsx:265 | what is left is a subsequence of the list: the kept values keep their order |
| Seqs.ToggleMembership | frontend/src/contexts/UnifiedFiltersContext.tsx:264-266 | a toggle flips the toggled value's membership and leaves every other value's membership alone |
| Seqs.ToggleTwiceRestores | frontend/src/contexts/UnifiedFiltersContext.tsx:264-266 | toggling an absent value twice restores the list |
| Seqs.ToggleKeepsNoDups | frontend/src/contexts/UnifiedFiltersContext.tsx:264-266 | a toggle never creates a duplicate |
| DateRangeFilter.DateRangePicker.constructor | frontend/src/components/filters/DateRangeFilter.tsx:11-12 | the picker starts with nothing staged, over the shared store |
| DateRangeFilter.DateRangePicker.HandleRangeSelect | frontend/src/components/filters/DateRangeFilter.tsx:14-20 | both endpoints stage {from, to}; only a start stages the one-day range {from, from}; no start leaves the staged range alone |
| DateRangeFilter.DateRangePicker.ApplyRange | frontend/src/components/filters/DateRangeFilter.tsx:22-26 | with a range staged, the store's dateRange becomes it as it is (the order of its ends is not checked) and nothing else changes; with nothing staged the store is unchanged |
| ProductsFilter.ToggleProduct | frontend/src/components/filters/ProductsFilter.tsx:14-19 | the store's products are toggled (a present value removed in every copy, an absent one appended); nothing else changes |
| ProductsFilter.ClearProducts | frontend/src/components/filters/ProductsFilter.tsx:21-23 | the store's products become empty; nothing else changes |
| ProductsFilter.CategoryProducts | frontend/src/components/filters/ProductsFilter.tsx:26-28 | exactly the values of the available products of that category |
| ProductsFilter.CategoryProductsSingleton | frontend/src/components/filters/ProductsFilter.tsx:26-28 | one product gives its value when it is in the category and nothing otherwise |
| ProductsFilter.CategoryProductsAppend | frontend/src/components/filters/ProductsFilter.tsx:26-28 | filtering then mapping distributes over concatenation, so the values come in list order, once per matching product |
| ProductsFilter.SelectAllInCategoryResult | frontend/src/components/filters/ProductsFilter.tsx:30-39 | when every product of the category is selected, the result is the selected list with the category filtered out: a subsequence of it, with each value outside the category as often as before; otherwise it is duplicate-free, holds the whole category and exactly the union of both |
| ProductsFilter.SelectAllInCategory | frontend/src/components/filters/ProductsFilter.tsx:25-40 | the store's products become that result; nothing else changes |
| ProductsFilter.SelectAllKeepsExistingFirst | frontend/src/components/filters/ProductsFilter.tsx:37 | adding a partly selected category keeps a duplicate-free selection unchanged, in order, at the front |
| ProductsFilter.SelectAllTwiceDeselects | frontend/src/components/filters/ProductsFilter.tsx:30-39 | a second click on the category removes exactly the category's products |
| ProductsFilter.DeselectKeepsNoDups | frontend/src/components/filters/ProductsFilter.tsx:34 | deselecting a category keeps a duplicate-free selection duplicate-free |
| Seqs.FindFirst | frontend/src/components/filters/ProductsFilter.tsx:45 | the first element whose key is the value, or none exactly when no element has it; the products and sources captions both look up their option with it |
| ProductsFilter.SelectedProductsText | frontend/src/components/filters/ProductsFilter.tsx:42-49 | "Все продукты" for none; for one, its label, or "1 продукт" when it has none or no label; otherwise "n продуктов" |
| ProductsFilter.Categories | frontend/src/components/filters/ProductsFilter.tsx:51 | duplicate-free, holding exactly the categories of the available products |
| ProductsFilter.CategoriesFirstAppearanceOrder | frontend/src/components/filters/ProductsFilter.tsx:51 | categories are listed in the order in which they first occur among the products |
| Seqs.RemoveAll | frontend/src/components/filters/ProductsFilter.tsx:34 | exactly the values of the list that are not in the removed list |
| Seqs.RemoveAllKeepsNoDups | frontend/src/components/filters/ProductsFilter.tsx:34 | removing values keeps a duplicate-free list duplicate-free |
| Seqs.RemoveAllAppend | frontend/src/components/filters/ProductsFilter.tsx:34 | filtering a concatenation filters each part in place |
| Seqs.RemoveAllCounts | frontend/src/components/filters/ProductsFilter.tsx:34 | a removed value occurs no more and any other occurs as often as before |
| Seqs.RemoveAllSubseq | frontend/src/components/filters/ProductsFilter.tsx:34 | what is left is a subsequence of the list, in the list's order |
| Seqs.Dedup | frontend/src/components/filters/ProductsFilter.tsx:37 | duplicate-free, with exactly the input's values, never longer than the input |
| Seqs.DedupOfNoDups | frontend/src/components/filters/ProductsFilter.tsx:37 | a list without duplicates is left unchanged |
| Seqs.DedupPrefix | frontend/src/components/filters/ProductsFilter.tsx:37 | de-duplicating a + b keeps the de-duplicated a as a prefix |
| Seqs.DedupFirstAppearanceOrder | frontend/src/components/filters/ProductsFilter.tsx:51 | the de-duplicated values appear in the order of their first occurrence |
| Seqs.FirstIndex | frontend/src/components/filters/ProductsFilter.tsx:51 | the first position holding the value |
| SourcesFilter.ToggleSource | frontend/src/components/filters/SourcesFilter.tsx:14-19 | the store's sources are toggled (a present value removed in every copy, an absent one appended); nothing else changes |
| SourcesFilter.ClearSources | frontend/src/components/filters/SourcesFilter.tsx:21-23 | the store's sources become empty; nothing else changes |
| SourcesFilter.SelectedSourcesText | frontend/src/components/filters/SourcesFilter.tsx:25-32 | "Все источники" for none; for one, its label, or "1 источник" when it has none or no label; otherwise "n источников" |
| ReviewsFilter.ReviewsFilterPanel.constructor | frontend/src/components/reviews/ReviewsFilter.tsx:32-36 | the panel starts with an empty search text and four empty lists |
| ReviewsFilter.ReviewsFilterPanel.ActiveFiltersCount | frontend/src/components/reviews/ReviewsFilter.tsx:79 | zero exactly when the search text and all four lists are empty; never below the total number of selected items |
| ReviewsFilter.ReviewsFilterPanel.SetSearchText | frontend/src/components/reviews/ReviewsFilter.tsx:32 | the search text becomes the typed text and nothing else changes |
| ReviewsFilter.ReviewsFilterPanel.ToggleAspect | frontend/src/components/reviews/ReviewsFilter.tsx:39-45 | only the aspects list changes, by a toggle that flips the aspect's membership |
| ReviewsFilter.ReviewsFilterPanel.ToggleSentiment | frontend/src/components/reviews/ReviewsFilter.tsx:47-53 | only the sentiments list changes, by a toggle that flips the sentiment's membership |
| ReviewsFilter.ReviewsFilterPanel.ToggleProduct | frontend/src/components/reviews/ReviewsFilter.tsx:55-61 | only the products list changes, by a toggle that flips the product's membership |
| ReviewsFilter.ReviewsFilterPanel.ToggleSource | frontend/src/components/reviews/ReviewsFilter.tsx:63-69 | only the sources list changes, by a toggle that flips the source's membership |
| ReviewsFilter.ReviewsFilterPanel.ClearAllFilters | frontend/src/components/reviews/ReviewsFilter.tsx:71-79 | the search text and all four lists are emptied, so the active count is 0 |
| ProductComparison.Comparison.constructor | frontend/src/components/comparative/ProductComparison.tsx:22 | the comparison starts with credit cards and debit cards, a valid selection |
| ProductComparison.Comparison.AddProduct | frontend/src/components/comparative/ProductComparison.tsx:24-28 | appends the product only when it is not compared yet and fewer than four are; one to four distinct products stay compared |
| ProductComparison.Comparison.RemoveProduct | frontend/src/components/comparative/ProductComparison.tsx:30-34 | removes the product only when more than one is compared, so at least one always stays; no duplicates appear |
| ProductComparison.Comparison.AvailableToAdd | frontend/src/components/comparative/ProductComparison.tsx:36 | exactly the available products whose value is not compared, each as often as in the list and in list order |
| Seqs.RemoveByKey | frontend/src/components/comparative/ProductComparison.tsx:36 | exactly the elements whose key is not in the excluded list, each as often as in the input and in input order (a subsequence), never more than the input |
| ReviewCard.GetSourceLabel | frontend/src/components/reviews/ReviewCard.tsx:28-39 | a known source id gets its caption, any other id is shown as it is (inherited object keys such as `toString` count as unknown ids) |
| ReviewCard.SourceLabelsMatchFallback | frontend/src/components/reviews/ReviewCard.tsx:28-37 | every fallback source's title is the caption the card shows for it, and every captioned id is a fallback source |
| ReviewCard.ReviewCardState.constructor | frontend/src/components/reviews/ReviewCard.tsx:118-121 | the card starts with the review's own tags, an empty comment and tag input, and the comment box closed |
| ReviewCard.ReviewCardState.AddTag | frontend/src/components/reviews/ReviewCard.tsx:125-130 | a non-empty tag not attached yet is appended and the tag input cleared; otherwise nothing changes; no tag is attached twice |
| ReviewCard.ReviewCardState.RemoveTag | frontend/src/components/reviews/ReviewCard.tsx:132-134 | every copy of the tag is removed, the other tags keep their order (a subsequence) and their counts |
| ReviewCard.ReviewCardState.TagOptions | frontend/src/components/reviews/ReviewCard.tsx:264-265 | the tag menu offers exactly the options not attached to the review |
| ReviewCard.ReviewCardState.SubmitComment | frontend/src/components/reviews/ReviewCard.tsx:136-143 | a comment that is not blank after trimming is cleared and the box closed; a blank one is kept and the box stays as it was |
| ReviewCard.BlankCommentIsKept | frontend/src/components/reviews/ReviewCard.tsx:136-137 | a comment made only of white space trims to the empty string, so it is never submitted |
| ReviewCard.ReviewCardState.SetComment | frontend/src/components/reviews/ReviewCard.tsx:281 | the comment becomes the typed text |
| ReviewCard.ReviewCardState.ToggleCommentBox | frontend/src/components/reviews/ReviewCard.tsx:235 | the comment box flips between open and closed |
| ReviewsFeed.SortReviews | frontend/src/components/reviews/ReviewsFeed.tsx:128-145 | the sorted copy is a permutation of the reviews, ordered by the selected key |
| ReviewsFeed.UnknownKeyKeepsOrder | frontend/src/components/reviews/ReviewsFeed.tsx:128-145 | an unknown sort key leaves the reviews in their original order, since the sort is stable |
| ReviewsFeed.DateOrders | frontend/src/components/reviews/ReviewsFeed.tsx:130-133 | "newest first" puts later reviews first, "oldest first" puts earlier reviews first |
| ReviewsFeed.SentimentOrdersAreScoreOrders | frontend/src/components/reviews/ReviewsFeed.tsx:134-141 | the sentiment orders sort exactly as the score orders do |
| ReviewsFeed.Feed.constructor | frontend/src/components/reviews/ReviewsFeed.tsx:124-126 | the feed starts sorted newest first, showing one page of ten |
| ReviewsFeed.Feed.Displayed | frontend/src/components/reviews/ReviewsFeed.tsx:147 | the displayed reviews are the first min(limit, count) reviews of the sorted copy |
| ReviewsFeed.Feed.ShowLoadMore | frontend/src/components/reviews/ReviewsFeed.tsx:189 | "load more" is shown exactly when some review is not displayed |
| ReviewsFeed.Feed.ShowAllLoaded | frontend/src/components/reviews/ReviewsFeed.tsx:203 | the "all loaded" note is shown exactly when every review is displayed and there are more than ten |
| ReviewsFeed.Feed.SetSortBy | frontend/src/components/reviews/ReviewsFeed.tsx:164 | the sort key becomes the selected one |
| ReviewsFeed.Feed.LoadMore | frontend/src/components/reviews/ReviewsFeed.tsx:149-151 | the limit grows by one page, so ten more reviews are displayed, up to all of them |
| SentimentUtils.GetSentimentLevel | frontend/src/lib/sentiment-utils.ts:92-97 | excellent from 70, good from 50, poor from 30, critical below that or for NaN, each as an if-and-only-if |
| SentimentUtils.GetSentimentType | frontend/src/lib/sentiment-utils.ts:86-90 | positive from 70, neutral from 50, negative below that or for NaN, each as an if-and-only-if |
| SentimentUtils.TypeRefinesLevel | frontend/src/lib/sentiment-utils.ts:86-97 | the type is the level with poor and critical merged into negative |
| SentimentUtils.LevelIsMonotone | frontend/src/lib/sentiment-utils.ts:92-97 | a higher score never gets a worse level |
| SentimentUtils.GetSentimentConfig | frontend/src/lib/sentiment-utils.ts:38-84 | the configuration's level, type and colours agree with the separate classifiers and the colour table, and its caption is the one of its level (Отлично, Хорошо, Плохо, Критично) |
| SentimentUtils.ValidateValue | frontend/src/lib/sentiment-utils.ts:118-120 | NaN becomes 0, a value below 0 becomes 0, one above 100 becomes 100, and a value already inside is kept |
| SentimentUtils.ValidateSentimentData | frontend/src/lib/sentiment-utils.ts:116-122 | each of the three shares is its own value validated independently: NaN to 0, clamped into [0, 100] |
| SentimentUtils.ValidateIdempotent | frontend/src/lib/sentiment-utils.ts:116-122 | validating validated data changes nothing |
| SentimentUtils.ValidBreakdownKept | frontend/src/lib/sentiment-utils.ts:116-122 | a breakdown whose three shares already lie in [0, 100] is returned unchanged |
| SentimentUtils.GetSentimentColor | frontend/src/lib/sentiment-utils.ts:99-102 | the positive colour exactly from 70, the neutral one exactly from 50 below 70, the negative one below 50 or for NaN |
| SentimentUtils.GetSentimentTextClass | frontend/src/lib/sentiment-utils.ts:108-111 | the text class of the sentiment type: positive exactly from 70, negative exactly below 50 or for NaN, the configuration's colour class |
| SentimentUtils.CalculateSentimentScore | frontend/src/lib/sentiment-utils.ts:127-135 | 0 when every validated share is 0; otherwise the whole number nearest to (positive + neutral / 2) / total * 100 of the validated shares, within 0 to 100 |
| SentimentUtils.ScoreExtremes | frontend/src/lib/sentiment-utils.ts:133-134 | all-positive shares score 100, all-negative shares score 0 |
| SentimentUtils.GetTrendIcon | frontend/src/lib/sentiment-utils.ts:154-156 | rising exactly for a positive trend, falling exactly for a negative one, flat otherwise or for NaN |
| SentimentUtils.GetTrendColorClass | frontend/src/lib/sentiment-utils.ts:161-166 | muted exactly for a zero trend; favourable exactly when the trend goes the way that is better |
| SentimentUtils.TrendColorFlips | frontend/src/lib/sentiment-utils.ts:161-166 | for a non-zero trend, flipping which direction is better swaps favourable and unfavourable |
| DashboardData.PercentageOrZero | frontend/src/hooks/useDashboardData.ts:48-50 | a missing percentage reads as 0, a present one as itself |
| DashboardData.MapApiResponseToMetrics | frontend/src/hooks/useDashboardData.ts:40-58 | the counts and sparklines are copied from the response, each percentage is the response's own or 0 when it is null |
| DashboardData.EmptyMetrics | frontend/src/hooks/useDashboardData.ts:114-138 | the fallback has every count and percentage 0 and four seven-day sparklines of zeros |
| DashboardData.ShownData | frontend/src/hooks/useDashboardData.ts:166-182 | with no data the dashboard shows the empty metrics and no chart days; otherwise the response |
| DashboardData.CombinedFilters | frontend/src/hooks/useDashboardData.ts:148-156 | the date range comes from the filters, sources and products from the filters unless empty, and the rest from the dashboard state |
| DashboardData.CombinedOfOneStore | frontend/src/hooks/useDashboardData.ts:145-156 | combining one store's state with itself gives that state back |
| DashboardData.CalculateTrend | frontend/src/hooks/useDashboardData.ts:197-212 | fewer than two points give "up, 0, 0"; otherwise the change is last minus first, the direction is up exactly when it is not negative, and the percentage is the absolute rounded ratio (0 when the first point is 0) |
| DashboardData.FlatSeriesHasNoTrend | frontend/src/hooks/useDashboardData.ts:197-212 | a flat series, such as the all-zero fallback, shows "up, 0, 0" |
| DashboardData.GetSentimentTrend | frontend/src/hooks/useDashboardData.ts:350-364 | fewer than two days are stable; otherwise up exactly when the change exceeds 2, down exactly below -2, stable in between, with the rounded signed percentage (0 from a first value of 0) |
| DashboardData.SentimentTrendPercentSign | frontend/src/hooks/useDashboardData.ts:355-362 | from a positive first value the percentage has the sign of the change |
| DashboardData.SumAppend | frontend/src/hooks/useDashboardData.ts:322-329 | summing a series split in two gives the sum of the parts |
| DashboardData.SumBounds | frontend/src/hooks/useDashboardData.ts:322-329 | daily percentages sum to between 0 and 100 times the number of days |
| DashboardData.GetAggregatedData | frontend/src/hooks/useDashboardData.ts:317-345 | no days give all zeros and no averages; otherwise the totals are the per-sentiment sums, the total their sum, and each average is its sum over the number of days rounded half up |
| DashboardData.AveragesArePercentages | frontend/src/hooks/useDashboardData.ts:332-334 | averages of daily percentages are percentages |
| DashboardData.FindDay | frontend/src/hooks/useDashboardData.ts:310 | the index of the first day with the date, or none exactly when no day has it |
| DashboardData.HandleDateClick | frontend/src/hooks/useDashboardData.ts:262-271 | the date range becomes the clicked instant and nothing else in the store changes |
| DashboardData.HandleSentimentClick | frontend/src/hooks/useDashboardData.ts:277-286 | the sentiment is toggled in the sentiment filter and nothing else in the store changes |
| DashboardData.HandleDrillDown | frontend/src/hooks/useDashboardData.ts:292-312 | the date range becomes the clicked instant, the sentiment filter becomes the given sentiment if any, the other filters are kept, and the topics are those of the first day with that date, or none |
| AggregationService.CalculateTrend | backend/app/services/aggregation_service.py:21-52 | up exactly when the value did not fall; the change is the absolute difference; from a positive previous value the percentage is the change ratio rounded to the nearest whole percent, otherwise 100 or 0 by whether the current value is positive; the trend is a valid schema value |
| AggregationService.RoundHalfEvenNonNegative | backend/app/services/aggregation_service.py:42 | rounding a non-negative ratio never gives a negative percentage |
| AggregationService.UnchangedIsFlatUp | backend/app/services/aggregation_service.py:21-52 | an unchanged value is an upward trend of 0 and 0% |
| AggregationService.SwappedPeriods | backend/app/services/aggregation_service.py:21-52 | swapping the periods keeps the size of the change and reverses a strict direction |
| AggregationService.DoublingIsHundredPercent | backend/app/services/aggregation_service.py:41-42 | doubling a positive value reads as +100% |
| AggregationService.PreviousPeriod | backend/app/services/aggregation_service.py:54-76 | the previous period is as long as the current one and ends one second before it starts |
| AggregationService.PreviousPeriodPrecedes | backend/app/services/aggregation_service.py:54-76 | for a valid range the previous period is a valid range wholly before it |
| AggregationService.ValuesOf | backend/app/services/aggregation_service.py:101-102 | the values of the points, in their order |
| AggregationService.FormatSparklineZeroDays | backend/app/services/aggregation_service.py:105-106 | as written, a day count of 0 with one point gives a series of length 1, not 0 |
| AggregationService.FormatSparkline | backend/app/services/aggregation_service.py:79-110 | the series has exactly the requested length, is padded with zeros in front, and holds values of the points (all of them when they fit) |
| AggregationService.Latest | backend/app/services/aggregation_service.py:104-110 | the last days values, padded with zeros in front when there are fewer |
| AggregationService.SortedValuesFromPoints | backend/app/services/aggregation_service.py:98-102 | the date-sorted series holds exactly the points' values, one per point |
| AggregationService.FormatSparklineAgrees | backend/app/services/aggregation_service.py:79-110 | for a positive day count, or no points, the corrected series is the one the source computes |
| AggregationService.SparklineOfOrderedPoints | backend/app/services/aggregation_service.py:98-110 | points already in date order come out as the latest values in that order, padded in front |
| AggregationService.SparklineLatestByDate | backend/app/services/aggregation_service.py:98-110 | for points in any order, the series is the latest values of the date-sorted permutation, and every kept point is dated no earlier than every dropped one |
| AggregationService.FormatSparklineAsWritten | backend/app/services/aggregation_service.py:79-110 | as written, the series has the requested length except that a day count of 0 with data keeps every point |
| AggregationService.NormalizePercentages | backend/app/services/aggregation_service.py:113-158 | shares adding up to 100 are returned as they are; otherwise the difference goes to the largest share (the first of equals) and every share is clamped to [0, 100] |
| AggregationService.NormalizeReachesHundred | backend/app/services/aggregation_service.py:113-158 | non-negative shares with a total of at most 150 come out adding up to exactly 100 |
| AggregationService.NormalizeIdempotent | backend/app/services/aggregation_service.py:113-158 | normalising normalised shares changes nothing |
| AggregationService.NormalizeCanMissHundred | backend/app/services/aggregation_service.py:150-158 | shares far from 100 can be clamped to a total other than 100 |
| AggregationService.CalculatePercentage | backend/app/services/aggregation_service.py:161-176 | 0 for an empty total, otherwise the ratio rounded to the nearest whole percent |
| AggregationService.PercentageBounds | backend/app/services/aggregation_service.py:161-176 | a part of a total is a percentage in [0, 100] |
| AggregationService.RoundedSharesNormalizeToHundred | backend/app/services/aggregation_service.py:113-176 | three rounded percentages of one total always normalise to exactly 100 |
| AggregationService.GetLastNDaysDates | backend/app/services/aggregation_service.py:179-199 | the requested number of instants (none below 1), one day apart, in chronological order, ending at the end date |
| Mappings.Invert | backend/app/core/mappings.py:12-14 | the inverse of a table without repeated values maps each value back to its key |
| Mappings.SentimentApiToDb | backend/app/core/mappings.py:12-14 | the API sentiment names are exactly positive, negative and neutral |
| Mappings.SentimentTableInjective | backend/app/core/mappings.py:6-10 | no two database sentiment names map to the same API name |
| Mappings.SentimentRoundTrip | backend/app/core/mappings.py:6-14 | the two sentiment tables are inverse to each other, both ways round |
| Mappings.SourceTableInjective | backend/app/core/mappings.py:42-45 | no two database source names map to the same API id |
| Mappings.SourceApiToDb | backend/app/core/mappings.py:47 | the API source ids are exactly banki-ru and sravni-ru |
| Mappings.SourceRoundTrip | backend/app/core/mappings.py:42-47 | the two source tables are inverse to each other, both ways round |
| Mappings.ProductKeys | backend/app/core/mappings.py:18-39 | the product ids in table order |
| Mappings.ProductKeysDistinct | backend/app/core/mappings.py:18-39 | no product id appears twice in the product table |
| Mappings.CategoriesFor | backend/app/core/mappings.py:67 | a known product gets its categories from the table, an unknown one none |
| Mappings.LookupFinds | backend/app/core/mappings.py:67 | a lookup finds the entry of the first row with the key, or nothing when no row has it |
| Mappings.ExtendedMembers | backend/app/core/mappings.py:65-67 | a category is collected exactly when some listed product has it |
| Mappings.UnknownProductsExtendNothing | backend/app/core/mappings.py:65-67 | products without categories collect nothing |
| Mappings.GetCategoriesForProducts | backend/app/core/mappings.py:50-68 | no products give no categories; otherwise exactly the categories of the listed products, each once; unknown products add nothing |
| Mappings.CategoriesForProducts | backend/app/core/mappings.py:62-68 | the same over any product table |
| Mappings.Distinct | backend/app/core/mappings.py:68 | every collected value exactly once |
| Mappings.DbSourceName | backend/app/core/mappings.py:86 | a known API source id becomes the database name that maps to it, an unknown one stays as it is |
| Mappings.GetDbSourceNames | backend/app/core/mappings.py:71-86 | every source is translated in place, so no sources give none |
| Mappings.DbNamesRoundTrip | backend/app/core/mappings.py:42-86 | translating database names to API ids and back gives the database names again |
| FilterSchemas.ValidateDateRange | backend/app/schemas/filters.py:19-37 | the end is rejected exactly when a start is present and the end lies before it; otherwise the end is kept |
| FilterSchemas.EqualEndsAccepted | backend/app/schemas/filters.py:34-37 | a one-instant range is accepted |
| FilterSchemas.MakeDateRange | backend/app/schemas/filters.py:8-37 | a range is built exactly when its start is not after its end, and then holds both ends |
| FilterSchemas.MakeOverviewRequest | backend/app/schemas/filters.py:87-99 | a request without filters gets empty source and product lists, that is no filtering; given filters are kept |
| DashboardSchemas.DynamicsSumNotEnforced | backend/app/schemas/dashboard.py:167-185 | the dynamics schema accepts shares that do not add up to 100 |
| ConfigService.ApiSourceValue | backend/app/services/config_service.py:62 | a source in the table gets its API id, any other name its lower-case spelling |
| ConfigService.GetSources | backend/app/services/config_service.py:51-71 | one source per database name, in order, titled with that name and valued with its API id |
| ConfigService.KnownSourceRoundTrip | backend/app/services/config_service.py:62 | a known source offered to the client and sent back as a filter reaches the database under its own name |
| ConfigService.UnknownSourceLosesCase | backend/app/services/config_service.py:62 | a source missing from the table with capitals in its name does not reach the database under that name |
| ConfigService.ProductFor | backend/app/services/config_service.py:111-118 | a product carries its key, its label (the key when none) and its category ("Other" when none) |
| ConfigService.GetProducts | backend/app/services/config_service.py:73-120 | one product per key of the product table, in the table's order |
| ConfigService.ProductTablesCoverKeys | backend/app/services/config_service.py:73-120 | every product key has a label and a Banking, Digital or Service category, so no fallback is used |
| ConfigService.DatePresetsValid | backend/app/services/config_service.py:122-135 | five presets, each with a positive day count the schema accepts, spanning ever longer periods |
| LoadToSqlite.DdmmyyyyToIso | backend/db/load_to_sqlite.py:110-116 | for any dot-free day, month and year, "d.m.y" becomes "y-m-d"; a value that does not split into three parts is kept |
| LoadToSqlite.SplitDotted | backend/db/load_to_sqlite.py:112 | "d.m.y" with dot-free parts splits into exactly those three parts |
| LoadToSqlite.KeepsLength | backend/db/load_to_sqlite.py:110-116 | converting a three-part value keeps its length |
| LoadToSqlite.NoDotKept | backend/db/load_to_sqlite.py:112-114 | a value without a dot is left as it is |
| LoadToSqlite.Example | backend/db/load_to_sqlite.py:111 | 31.12.2024 becomes 2024-12-31 |
| ConfigLoader.GetOrDefault | senana/langchain/src/utils/config_loader.py:113-141 | the loop walking the dotted path returns exactly the value the path reaches in the configuration, or the default (see the lemmas below) |
| ConfigLoader.WalkAppend | senana/langchain/src/utils/config_loader.py:136-139 | a walk along two key lists one after the other is the walk along their concatenation |
| ConfigLoader.WalkPastLeaf | senana/langchain/src/utils/config_loader.py:137-138 | once the walk reaches something that is not a mapping, any further key fails |
| ConfigLoader.TopLevelKey | senana/langchain/src/utils/config_loader.py:130-141 | a value stored under a dot-free key of a non-empty mapping is found there |
| ConfigLoader.NestedKey | senana/langchain/src/utils/config_loader.py:133-141 | a value stored two levels down is found by its dotted path |
| ConfigLoader.DefaultCases | senana/langchain/src/utils/config_loader.py:130-141 | an empty configuration, a path that breaks off, or a path that reaches None gives the default; any other path gives the value it reaches |
| ConfigManagerModule.ConfigManager.constructor | senana/langchain/src/utils/config_manager.py:36-40 | a new manager starts with an empty cache |
| ConfigManagerModule.ConfigManager.GetConfig | senana/langchain/src/utils/config_manager.py:42-66 | a cached configuration is returned without loading and the cache is unchanged; otherwise the loaded configuration, or an empty one when loading fails, is returned and cached |
| ConfigManagerModule.ConfigManager.GetValue | senana/langchain/src/utils/config_manager.py:68-86 | the dotted-path lookup with default in the named configuration, which is now cached |
| ConfigManagerModule.ConfigManager.GetModelParam | senana/langchain/src/utils/config_manager.py:88-114 | the model's own value when set, else the default section's, else the given default, read from the default configuration |
| ConfigManagerModule.ConfigManager.GetDefaultModel | senana/langchain/src/utils/config_manager.py:116-123 | models.default, or the empty string |
| ConfigManagerModule.ConfigManager.GetOllamaBaseUrl | senana/langchain/src/utils/config_manager.py:125-136 | ollama.base_url, else the OLLAMA_BASE_URL environment value, else the local server address |
| ConfigManagerModule.ConfigManager.GetOllamaTimeout | senana/langchain/src/utils/config_manager.py:138-145 | ollama.timeout, or 30 seconds |
| ConfigManagerModule.ConfigManager.GetAlternativeModels | senana/langchain/src/utils/config_manager.py:147-154 | models.alternatives, or no alternatives |
| ConfigManagerModule.ConfigManagerClass.constructor | senana/langchain/src/utils/config_manager.py:26 | no instance exists before the first construction |
| ConfigManagerModule.ConfigManagerClass.Construct | senana/langchain/src/utils/config_manager.py:29-40 | the first construction creates a manager with an empty cache; every later one returns that same manager |
| ConfigManagerModule.CacheIgnoresLaterLoads | senana/langchain/src/utils/config_manager.py:53-54 | once a name is cached, a later loader is never consulted for it |
| ConfigManagerModule.ModelParamLookupOrder | senana/langchain/src/utils/config_manager.py:106-114 | the model's own stored parameter wins; when it is missing or None the default section's value is used |
| ConfigManagerModule.SplitSpecificPath | senana/langchain/src/utils/config_manager.py:107 | a model-specific parameter path splits into four keys |
| ConfigManagerModule.SplitDefaultPath | senana/langchain/src/utils/config_manager.py:114 | a default parameter path splits into three keys |
| ConfigManagerModule.DottedModelNameIgnored | senana/langchain/src/utils/config_manager.py:106-114 | parameters stored under a model name containing a dot are never found; the getter falls through to the default |
| ModelRegistryModule.FallbackName | senana/langchain/src/llm/model_registry.py:121-127 | the fallback is the configured default model, or gpt-oss:20b when none is configured; never empty |
| ModelRegistryModule.TwoKeyPath | senana/langchain/src/llm/model_registry.py:74 | a dotted path of two dot-free keys splits into those two keys |
| ModelRegistryModule.SpecificParamsPath | senana/langchain/src/llm/model_registry.py:86-89 | the model-specific parameters are read at parameters.model_specific followed by the model name's own dot-separated parts |
| ModelRegistryModule.Merge | senana/langchain/src/llm/model_registry.py:85-90 | the model's own parameters win over the defaults, and every default key they leave alone is kept |
| ModelRegistryModule.AsParams | senana/langchain/src/llm/model_registry.py:85-90 | `dict(...)` of a section: a mapping is copied, an empty string gives no parameters, a non-empty string or a scalar raises, a list is read as pairs |
| ModelRegistryModule.PairsToParamsKeys | senana/langchain/src/llm/model_registry.py:85-90 | a list is accepted exactly when every element is a pair, and then its keys are exactly the pairs' keys |
| ModelRegistryModule.PairsLastWins | senana/langchain/src/llm/model_registry.py:85-90 | a key holds the value of the last pair naming it |
| ModelRegistryModule.FirstItem | senana/langchain/src/llm/model_registry.py:99-102 | the first alternative carrying a name exists exactly when some alternative has that name |
| ModelRegistryModule.AvailableIn | senana/langchain/src/llm/model_registry.py:167 | exactly the registered models that are available, taken from the insertion order |
| ModelRegistryModule.AvailableInOrder | senana/langchain/src/llm/model_registry.py:167 | the available models keep their relative insertion order and appear once each |
| ModelRegistryModule.SetAvailability | senana/langchain/src/llm/model_registry.py:142-143 | every registered model becomes available exactly when the server lists it; nothing else changes |
| ModelRegistryModule.ConsistentAppend | senana/langchain/src/llm/model_registry.py:111-115 | registering a new name at the end keeps the models and their order in step |
| ModelRegistryModule.RegisteredSkip | senana/langchain/src/llm/model_registry.py:100-102 | an alternative without a name, or with a registered one, changes nothing |
| ModelRegistryModule.RegisteredAdd | senana/langchain/src/llm/model_registry.py:104-115 | an alternative with a new name registers that name with its merged parameters and description |
| ModelRegistryModule.RegisteredNoneAvailable | senana/langchain/src/llm/model_registry.py:30 | no registered model is available before the server has been asked |
| ModelRegistryModule.RegisterOne | senana/langchain/src/llm/model_registry.py:99-115 | one pass of the alternatives loop: an entry that raises is reported and changes nothing; otherwise the registry stays consistent, and the entry's name is appended to the insertion order exactly when it is new |
| ModelRegistryModule.RegisterAlternatives | senana/langchain/src/llm/model_registry.py:98-115 | the loop succeeds exactly when no entry raises; the entries before the first that raises are registered, the first entry of each name winning, in the insertion order of the default followed by each new name |
| ModelRegistryModule.FirstBad | senana/langchain/src/llm/model_registry.py:99-117 | the position of the first alternative that raises: every entry before it is good, the one at it raises |
| ModelRegistryModule.OthersKept | senana/langchain/src/llm/model_registry.py:117-119 | replacing the default's entry with the fallback keeps every alternative registered so far |
| ModelRegistryModule.OthersOfRegistered | senana/langchain/src/llm/model_registry.py:98-115 | what the load registered includes every alternative with its parameters and description |
| ModelRegistryModule.InsertionOrderNames | senana/langchain/src/llm/model_registry.py:92-115 | the insertion order starts with the default and lists it and every alternative's name exactly once |
| ModelRegistryModule.StringHasModels | senana/langchain/src/llm/model_registry.py:68 | a configuration that is a string with "models" anywhere in it passes the models check, as Python's substring test does |
| ModelRegistryModule.InsertionOrderEmpty | senana/langchain/src/llm/model_registry.py:92-96 | before any alternative the order is the default alone |
| ModelRegistryModule.InsertionOrderStep | senana/langchain/src/llm/model_registry.py:99-115 | one more alternative appends its name when the name is new and leaves the order otherwise |
| ModelRegistryModule.ModelRegistry.constructor | senana/langchain/src/llm/model_registry.py:42-53 | the file at `config_path` only decides whether there is a models section; a clean load leaves the manager's configured default and alternatives registered with merged parameters; any other leaves the fallback as default beside what was registered; past the default, the models are in the insertion order of the default and then the kept alternatives' new names; no model is available yet |
| ModelRegistryModule.ModelRegistry.LoadFromConfig | senana/langchain/src/llm/model_registry.py:55-119 | an empty file, a file where `"models" in config` fails (no such key, list element or substring, or a value on which `in` raises) or no default model leave only the fallback; past the default, the registry holds the default and exactly the alternatives before the first entry that raises, each with merged parameters, ordered default first and then by first appearance; a clean load registers them all |
| ModelRegistryModule.ModelRegistry.LoadDefaultModel | senana/langchain/src/llm/model_registry.py:73-119 | with a models section present, no default name or an unreadable parameter section leaves only the fallback; otherwise the default and the alternatives before the first raising entry are registered, default first, and a clean read registers them all |
| ModelRegistryModule.ModelRegistry.LoadAlternatives | senana/langchain/src/llm/model_registry.py:98-119 | with the default registered, an iterable list without a raising entry gives the clean registry, anything else the fallback; the alternatives before the first raising entry stay registered, in their insertion order |
| ModelRegistryModule.ModelRegistry.FallBackKeeping | senana/langchain/src/llm/model_registry.py:116-133 | the fallback after an exception in the loop: the default's entry becomes the fallback entry, the other models and the order are kept |
| ModelRegistryModule.ModelRegistry.AddAlternatives | senana/langchain/src/llm/model_registry.py:98-115 | the alternatives loop on the registry, keeping the default model first and appending each new name in list order |
| ModelRegistryModule.ModelRegistry.AddFallbackModel | senana/langchain/src/llm/model_registry.py:121-133 | the fallback name becomes the default and is registered with no parameters, replacing any entry of that name |
| ModelRegistryModule.ModelRegistry.UpdateModelAvailability | senana/langchain/src/llm/model_registry.py:135-143 | a registered model is available exactly when the server lists it; names, order and default are kept |
| ModelRegistryModule.ModelRegistry.GetModelInfo | senana/langchain/src/llm/model_registry.py:145-158 | the named model, or the default model when no name is given, or none for an unknown name |
| ModelRegistryModule.ModelRegistry.AvailableNames | senana/langchain/src/llm/model_registry.py:160-167 | the names of exactly the available models |
| ModelRegistryModule.ModelRegistry.GetAvailableModels | senana/langchain/src/llm/model_registry.py:160-167 | exactly the available models, each once, in insertion order |
| ModelRegistryModule.ModelRegistry.AvailableModelsInInsertionOrder | senana/langchain/src/llm/model_registry.py:167 | available models come out in the order they were registered |
| ModelRegistryModule.ModelRegistry.GetAllModels | senana/langchain/src/llm/model_registry.py:169-176 | every registered model once, in insertion order |
| ModelRegistryModule.ModelRegistry.OrderCoversModels | senana/langchain/src/llm/model_registry.py:176 | the insertion order lists as many names as there are models |
| ModelRegistryModule.ModelRegistry.IsModelAvailable | senana/langchain/src/llm/model_registry.py:187-198 | true exactly when the model is registered and available |
| ModelRegistryModule.DistinctCardinality | senana/langchain/src/llm/model_registry.py:176 | a list without duplicates has as many elements as its set |
| ModelConfiguratorModule.ApplyKeys | senana/langchain/src/llm/model_configurator.py:65-80 | a key of successive dict updates comes from some layer, and every layer's keys are kept |
| ModelConfiguratorModule.ApplyLast | senana/langchain/src/llm/model_configurator.py:65-80 | a key takes its value from the last layer that holds it |
| ModelConfiguratorModule.MergeAssociative | senana/langchain/src/llm/model_configurator.py:137-146 | updating with two dicts in turn is updating with their merge |
| ModelConfiguratorModule.ModelEntry | senana/langchain/src/llm/model_configurator.py:133 | the configuration names the model exactly when the name is non-empty |
| ModelConfiguratorModule.AsMapping | senana/langchain/src/llm/model_configurator.py:65 | `{**section}` accepts a mapping only, and then copies it |
| ModelConfiguratorModule.ModelConfigurator.constructor | senana/langchain/src/llm/model_configurator.py:27-35 | the configurator keeps the registry and the configuration it was built with |
| ModelConfiguratorModule.ModelConfigurator.GetModelParameters | senana/langchain/src/llm/model_configurator.py:37-82 | a registered model's stored parameters under the overrides; for an unknown non-empty name the default section under the model-specific section under the overrides, or an error when a section is not a mapping; with no usable name the overrides alone |
| ModelConfiguratorModule.ModelConfigurator.CreateModelConfig | senana/langchain/src/llm/model_configurator.py:113-148 | the model entry (the registered name, the default model's when no name is given, nothing for an empty unregistered name) updated with the parameters the previous operation gives |
| ModelConfiguratorModule.OverridesOverStored | senana/langchain/src/llm/model_configurator.py:76-80 | the overrides win over the stored parameters and every key they leave alone is kept |
| ModelConfiguratorModule.UnknownModelPriority | senana/langchain/src/llm/model_configurator.py:59-71 | for an unknown model the overrides win, then the model-specific section, then the default section, and the result holds the keys of all three |
| ModelConfiguratorModule.OnlyOverrides | senana/langchain/src/llm/model_configurator.py:66-71 | with no usable name only the overrides come back |
| ModelConfiguratorModule.ConfigNamesModel | senana/langchain/src/llm/model_configurator.py:133-137 | the configuration names its model unless a parameter layer sets "model" itself |
| ModelConfiguratorModule.ModelOverrideWins | senana/langchain/src/llm/model_configurator.py:142-146 | an override of "model" renames the model in the configuration |
| ModelLoaderModule.Renamed | senana/langchain/src/llm/model_loader.py:62-74 | after the renaming step max_length is gone, and max_tokens is present exactly when either name was given |
| ModelLoaderModule.AdaptOllamaParameters | senana/langchain/src/llm/model_loader.py:49-94 | the renaming loop and the removal loop on a copy give the renamed configuration restricted to the supported parameters |
| ModelLoaderModule.OnlySupportedKeys | senana/langchain/src/llm/model_loader.py:76-91 | every key of the adapted configuration is a supported parameter |
| ModelLoaderModule.SupportedKept | senana/langchain/src/llm/model_loader.py:59-91 | a supported parameter given under its own name keeps its value |
| ModelLoaderModule.MaxLengthRenamed | senana/langchain/src/llm/model_loader.py:68-74 | max_length given alone is carried over to max_tokens and dropped |
| ModelLoaderModule.MaxTokensWins | senana/langchain/src/llm/model_loader.py:69-74 | with both names given max_tokens keeps its value and max_length is dropped |
| ModelLoaderModule.NothingInvented | senana/langchain/src/llm/model_loader.py:49-94 | no key appears that was not given, except max_tokens carried over from max_length |
| ModelLoaderModule.AdaptIdempotent | senana/langchain/src/llm/model_loader.py:49-94 | adapting an adapted configuration changes nothing |
| MetricRecords.Increment | dataset/metrics/metrics_f1score.py:69-71 | every key counted once more, others unchanged, and the counter holds only keys it has counted |
| MetricRecords.IncrementPositive | dataset/metrics/metrics_f1score.py:141-142 | a counter that only grows holds positive counts |
| F1Metrics.WhitelistDistinct | dataset/metrics/metrics_f1score.py:17-29 | the reference category list has no duplicates |
| F1Metrics.PredictionsWellFormed | dataset/metrics/metrics_f1score.py:52-66 | the prediction table lists each review id once, exactly its keys |
| F1Metrics.PredictedIds | dataset/metrics/metrics_f1score.py:56-66 | a review id is predicted exactly when some record of the model output carries it |
| F1Metrics.LastRecordWins | dataset/metrics/metrics_f1score.py:56-66 | the last record carrying an id decides its predicted categories |
| F1Metrics.CollectCategories | dataset/metrics/metrics_f1score.py:61-65 | a review's predicted set is exactly its annotations' non-empty categories |
| F1Metrics.PrepareCategoryPredictions | dataset/metrics/metrics_f1score.py:51-73 | the predictions are those of the model output, and each category's count is the number of predicted reviews whose set holds it |
| F1Metrics.CountContainingIsCardinality | dataset/metrics/metrics_f1score.py:69-71 | a category's count is the size of the set of predicted reviews holding it |
| F1Metrics.UniqueCategoriesCount | dataset/metrics/metrics_f1score.py:69-71 | the unique-category count of a category is the number of distinct predicted reviews holding it |
| F1Metrics.Tally | dataset/metrics/metrics_f1score.py:145-156 | each review adds exactly one to a category's four counts |
| F1Metrics.PredictedIn | dataset/metrics/metrics_f1score.py:136-137 | the prediction restricted to reference categories |
| F1Metrics.ScoreReview | dataset/metrics/metrics_f1score.py:126-171 | one pass of the review loop keeps the counts, matrix and extra counter equal to their definitions over the reviews so far |
| F1Metrics.TallyCategories | dataset/metrics/metrics_f1score.py:145-156 | every reference category's counts gain the outcome of this review, and only reference categories are counted |
| F1Metrics.AddReviewToConfusion | dataset/metrics/metrics_f1score.py:160-171 | the matrix gains this review's diagonal and missed-by-false cells |
| F1Metrics.AddMissedPairs | dataset/metrics/metrics_f1score.py:168-171 | every missed category is paired once with every falsely predicted one |
| F1Metrics.Precision | dataset/metrics/metrics_f1score.py:327-330 | precision lies in [0, 1], is 0 with nothing predicted, positive with a true positive, and 1 exactly when there are true positives and no false ones |
| F1Metrics.Recall | dataset/metrics/metrics_f1score.py:332-335 | recall lies in [0, 1], is 0 with nothing to find, positive with a true positive, and 1 exactly when there are true positives and no misses |
| F1Metrics.F1 | dataset/metrics/metrics_f1score.py:337-340 | the score lies in [0, 1] and is 0 exactly when precision or recall is 0 |
| F1Metrics.HarmonicMeanBounds | dataset/metrics/metrics_f1score.py:338 | the harmonic mean of two values in [0, 1] lies in [0, 1] and is 0 exactly when one of them is |
| F1Metrics.NoTruePositivesNoF1 | dataset/metrics/metrics_f1score.py:323-340 | a class the model never gets right has F1 zero |
| F1Metrics.F1MetricCalculator.constructor | dataset/metrics/metrics_f1score.py:31-41 | the calculator keeps the golden reviews, prepares the predictions and their counts, and starts with an empty extra counter |
| F1Metrics.F1MetricCalculator.CalculateConfusionMatrixPerCategory | dataset/metrics/metrics_f1score.py:114-173 | every reference category gets exactly its four counts over the golden reviews, the matrix holds exactly its defined cells, and the extra counter is rebuilt from zero |
| F1Metrics.F1MetricCalculator.CalculateOverpredictedPercentage | dataset/metrics/metrics_f1score.py:263-287 | the over-predicted share of the predicted reference categories, in percent, 0 when none is predicted, always within [0, 100] |
| F1Metrics.F1MetricCalculator.GetOverpredictedClassesList | dataset/metrics/metrics_f1score.py:289-311 | each reference category's count is the number of reviews predicting it falsely; only reference categories appear, with positive counts |
| F1Metrics.CountsConserved | dataset/metrics/metrics_f1score.py:145-156 | for every reference category the four counts add up to the number of scored reviews |
| F1Metrics.DiagonalIsTruePositives | dataset/metrics/metrics_f1score.py:160-162 | the matrix diagonal holds the true positives |
| F1Metrics.MatrixWithinWhitelist | dataset/metrics/metrics_f1score.py:120-171 | categories outside the reference list never appear in the matrix |
| F1Metrics.ExtraOutsideWhitelist | dataset/metrics/metrics_f1score.py:140-142 | reference categories are never counted as extra |
| F1Metrics.OffDiagonalPerReview | dataset/metrics/metrics_f1score.py:165-171 | one review adds exactly missed times falsely predicted off-diagonal cells |
| F1Metrics.ProductSize | dataset/metrics/metrics_f1score.py:168-171 | the pairs of two sets number the product of their sizes |
| F1Metrics.OverSet | dataset/metrics/metrics_f1score.py:281 | the over-predicted set is within the prediction and the reference list |
| F1Metrics.TotalsStep | dataset/metrics/metrics_f1score.py:277-283 | one more review adds its over-predicted and predicted sizes to the sums |
| F1Metrics.OverAtMostPredicted | dataset/metrics/metrics_f1score.py:281-283 | the over-predicted count never exceeds the predicted count |
| F1Metrics.OverCountOutsideWhitelist | dataset/metrics/metrics_f1score.py:302-309 | no category outside the reference list is counted as over-predicted |
| F1Metrics.OverpredictedListSumsToNumerator | dataset/metrics/metrics_f1score.py:263-311 | the per-category over-predicted counts add up to the numerator of the over-predicted percentage |
| F1Metrics.SumsAgree | dataset/metrics/metrics_f1score.py:263-311 | over any duplicate-free list covering the reference categories the per-category sums give the same total |
| SentimentAccuracy.PrepareData | dataset/metrics/accuracy.py:35-49 | the loop builds exactly the prediction map the model output defines |
| SentimentAccuracy.HasLabelStep | dataset/metrics/accuracy.py:47 | one more annotation adds a usable label exactly when it has a category and a sentiment |
| SentimentAccuracy.StoreNothing | dataset/metrics/accuracy.py:44-48 | annotations without a category or sentiment store nothing |
| SentimentAccuracy.FalsyIdSkipped | dataset/metrics/accuracy.py:41-43 | a record whose id is missing or falsy changes nothing |
| SentimentAccuracy.LaterAnnotationOverwrites | dataset/metrics/accuracy.py:48 | the last annotation of a category decides its sentiment |
| SentimentAccuracy.UnnamedCategoryKept | dataset/metrics/accuracy.py:44-48 | a category no usable annotation names keeps what it had |
| SentimentAccuracy.GoldenLabelsFail | dataset/metrics/accuracy.py:68 | reading a golden review's labels fails exactly when some annotation lacks its category or sentiment |
| SentimentAccuracy.PairsFromCommonCategories | dataset/metrics/accuracy.py:74-80 | every label pair comes from a category both sides annotate, with the golden and the predicted sentiment |
| SentimentAccuracy.ByCategoryPartitions | dataset/metrics/accuracy.py:76-84 | grouping the label lists by category gives each category exactly its own labels, in order |
| SentimentAccuracy.SelectAppend | dataset/metrics/accuracy.py:83-84 | one more pair extends only its own category's list |
| SentimentAccuracy.CategoryListsNonEmpty | dataset/metrics/accuracy.py:100-103 | every category in the report has equally long, non-empty label lists |
| SentimentAccuracy.AppendLabels | dataset/metrics/accuracy.py:79-84 | one pair is appended to the overall and to its category's lists, and the grouping stays exact |
| SentimentAccuracy.AddCategory | dataset/metrics/accuracy.py:76-84 | one common category's pair is added, keeping the grouping exact |
| SentimentAccuracy.AddCommonCategories | dataset/metrics/accuracy.py:74-84 | the lists gain exactly one pair per common category, in some order, and the grouping stays exact |
| SentimentAccuracy.AddReview | dataset/metrics/accuracy.py:63-94 | one golden review adds its common-category pairs, and a mismatch entry exactly when its category sets differ |
| SentimentAccuracy.ReadableStep | dataset/metrics/accuracy.py:63-68 | a review whose labels read cleanly extends a readable prefix |
| SentimentAccuracy.CollectLabels | dataset/metrics/accuracy.py:58-94 | the loop fails exactly when some scored golden review has an incomplete annotation; otherwise the pairs are exactly those the reviews define, grouped by category, with the mismatches in review order |
| SentimentAccuracy.Matches | dataset/metrics/accuracy.py:97-103 | the matches number at most the labels, and all of them exactly when the lists are equal |
| SentimentAccuracy.Accuracy | dataset/metrics/accuracy.py:97-103 | accuracy lies in [0, 1], is 0 for no labels, and is 1 exactly when every label matches |
| SentimentAccuracy.Evaluate | dataset/metrics/accuracy.py:51-109 | fails exactly when a golden annotation is incomplete; otherwise the mismatches are those of the reviews, the total accuracy is in [0, 1] and 0 with no pairs, and every category accuracy is in [0, 1] |
| SentimentAccuracy.MismatchedIffSymmetricDifference | dataset/metrics/accuracy.py:86-94 | a review is listed as mismatched exactly when its golden and predicted category sets differ |
| SentimentAccuracy.MismatchesHaveScoredIds | dataset/metrics/accuracy.py:63-94 | mismatch entries come only from golden reviews with a truthy id, and never with both lists empty |
| Numeric.Clamp | frontend/src/lib/sentiment-utils.ts:118-120 | the clamp of `validateSentimentData` and of `normalize_percentages` (aggregation_service.py, lines 154-156): the result lies in [lo, hi]; a value already in range is kept, one below goes to lo, one above to hi |
| Numeric.RoundHalfUp | frontend/src/hooks/useDashboardData.ts:205 | `Math.round` of the exact quotient n / d: the integer r with r - 1/2 <= n/d < r + 1/2, so halves go up |
| Numeric.RoundHalfEven | backend/app/services/aggregation_service.py:176 | Python `round` of the exact quotient n / d: the nearest integer, and the even one when n / d lies exactly halfway |
| Numeric.RealRound | frontend/src/lib/sentiment-utils.ts:134 | `Math.round` of a real: the integer r with r - 1/2 <= x < r + 1/2 |
| Numeric.RoundHalfEvenPercentBounds | backend/app/services/aggregation_service.py:172-176 | a rounded percentage of a count out of a positive total it does not exceed lies in [0, 100] |
| Numeric.RoundHalfUpWithin | frontend/src/hooks/useDashboardData.ts:205 | `Math.round` of a quotient lying in an integer range [lo, hi] stays in that range |
| Numeric.RoundHalfUpSign | frontend/src/hooks/useDashboardData.ts:205 | with a positive divisor the rounded quotient has the sign of the numerator or is 0 |
| Sorting.Insert | backend/app/services/aggregation_service.py:99 | inserting into a key-sorted list keeps it sorted, adds one element and no other members |
| Sorting.Sort | backend/app/services/aggregation_service.py:99 | the result is sorted by the key, as long as the input and holds exactly the input's members |
| Sorting.SortPermutes | frontend/src/components/reviews/ReviewsFeed.tsx:128-145 | sorting is a permutation: every element keeps its multiplicity |
| Sorting.InsertWithKey | backend/app/services/aggregation_service.py:99 | an inserted element comes before every element of the list that has its key, and the rest of that key class keeps its order |
| Sorting.SortStable | frontend/src/components/reviews/ReviewsFeed.tsx:128-145 | the sort is stable: for every key value, the elements with that key appear in the result in their input order |
| Sorting.EqualKeysKeepOrder | frontend/src/components/reviews/ReviewsFeed.tsx:128-145 | a list whose keys are all equal comes back unchanged, as a stable sort leaves it |
| Sorting.SameKeysSameSort | frontend/src/components/reviews/ReviewsFeed.tsx:130-141 | two key functions that agree everywhere give the same sorted list |
| Strings.Split | senana/langchain/src/utils/config_loader.py:133 | `str.split(sep)` gives at least one piece and no piece holds the separator |
| Strings.ContainsInfix | senana/langchain/src/llm/model_registry.py:68 | Python's `t in s` on strings holds whenever `t` occurs in `s`, whatever surrounds it |
| Strings.JoinSplit | senana/langchain/src/utils/config_loader.py:133 | joining the pieces of a split with the separator gives back the string |
| Strings.SplitJoin | senana/langchain/src/utils/config_loader.py:133 | splitting a join of separator-free pieces gives back the pieces |
| Strings.TrimStart | frontend/src/components/reviews/ReviewCard.tsx:137 | the result is a suffix that starts with no white space, and everything cut off is white space |
| Strings.TrimEnd | frontend/src/components/reviews/ReviewCard.tsx:137 | the result is a prefix that ends with no white space, and everything cut off is white space |
| Strings.TrimEmptyIffBlank | frontend/src/components/reviews/ReviewCard.tsx:137 | `trim()` is empty exactly when the string holds only white space |
| Strings.LowerChar | backend/app/services/config_service.py:62 | a Latin or Cyrillic capital goes to its small letter (Ё to ё), any other character is kept, and the result is never a capital |
| Strings.Lower | backend/app/services/config_service.py:62 | same length, capitals lowered to their own small letters, other characters kept, no capital left |
| Strings.LowerIdempotent | backend/app/services/config_service.py:62 | lowering twice is lowering once |
| Strings.LowerKeepsWhitespace | backend/app/services/config_service.py:62 | lowering keeps every white-space character where it is and adds none |
| Strings.LowerAppend | backend/app/services/config_service.py:62 | lowering a concatenation lowers each part |
| Strings.LowerWordRun | backend/app/services/config_service.py:62 | lowering a word, a gap and a rest lowers each of them |
| Strings.NatToString | frontend/src/components/filters/ProductsFilter.tsx:48 | decimal digits whose value is the number, with no leading zero except for 0 itself |
| Strings.DashWhitespaceRuns | frontend/src/contexts/UnifiedFiltersContext.tsx:212 | the result holds no white space and only hyphens or characters of the input, and is never longer |
| Strings.DashRun | frontend/src/contexts/UnifiedFiltersContext.tsx:212 | a leading run of white space becomes one hyphen |
| Strings.DashKeepsWords | frontend/src/contexts/UnifiedFiltersContext.tsx:212 | characters that are not white space are copied as they are |
| Strings.DashWordRun | frontend/src/contexts/UnifiedFiltersContext.tsx:212 | a word followed by a run of white space gives the word and one hyphen |
| Strings.DashKeepsPlain | frontend/src/contexts/UnifiedFiltersContext.tsx:212 | a string without white space is kept |

## Left out

- **Floating point.** JavaScript and Python floats become exact integers,
  rationals (`n / d`) or reals.
  - Binary rounding error is not modelled.
  - NaN is modelled only where the sentiment helpers test for it.
- **I/O.**
  - File reading, JSON/YAML parsing and the network are not modelled:
    `_load_json_data`, `_load_data`, `load_config`, HTTP fetching, and the
    SQLite loading besides `ddmmyyyy_to_iso`.
  - The loaded documents are parameters.
  - JSON `null` and non-string annotation values are not modelled.
- **React.** Rendering, effects, stale closures, the query cache and
  `highlightText`'s regular expression are not modelled. The state the
  components keep is modelled as class fields.
- **Calendar presets.** The current-month and current-quarter date presets are
  not modelled, because they depend on calendar arithmetic. Only the
  "last N days" presets are.
- **Formatting-only helpers.**
  - Not modelled: `getSentimentBadgeClass`, `formatPercentage` and
    `formatNumber`.
  - The colour lookups `getSentimentColor` and `getSentimentTextClass` are
    modelled, and so is the sentiment configuration (`GetSentimentConfig`).
- **Ollama client.**
  - Not modelled: the model loader's Ollama client, `check_ollama_server`,
    `load_model`, the environment variables, and `apply_parameters`.
    `apply_parameters` sets attributes on a foreign LLM object.
  - Only `_adapt_ollama_parameters` is modelled.
- **Configuration manager I/O.** It reads files through a loader, which becomes
  a function parameter. The registry and configurator receive the configuration
  it returns as a value. The registry receives two: the file at its
  `config_path`, which only decides whether a models section exists, and the
  manager's default `llm_config.yml`, which all its getters read.
  - A model name in the YAML file that is not a string is skipped.
  - In the registry, a parameter section is read as `dict(...)` reads it: a
    mapping, a list of two-element lists with a string key or of two-character
    strings, or an empty string. Any other section makes the load fall back.
    This includes pairs whose key is not a string, or a two-key mapping used as
    a pair, which Python would accept.
  - In the configurator, a section is unpacked with `**`. Anything but a mapping
    is an error (`Err`), where Python raises.
- **F1 script.** The scikit-learn parts are not modelled, and neither are
  plotting and printing: `calculate_f1_per_review`, `calculate_f1_average` and
  `generate_report`.
- **Ordering.**
  - The order of `sorted(all_categories)` and of `list(set(...))` is left open
    (`Mappings.Distinct`).
  - The accuracy script's mismatch lists are modelled as sets.
- **`get_default_model_name`.** It is a plain field read and is modelled as the
  field.
- Strings.LowerChar: does not model full Unicode case mapping, only the Latin and Cyrillic capitals the system's labels use.
- AggregationService.FormatSparkline: takes the number of days as a natural number; a negative `days` argument is not modelled.
- UnifiedFiltersContext.LastDaysRange: a day is exactly 86 400 000 ms, whereas `subDays` steps calendar days in local time, so a range across a daylight-saving change is not modelled (the same holds for the 30-day default range).
- ReviewCard.GetSourceLabel: the source's lookup is a plain object, so an id such as `toString` reaches an inherited property instead of falling back; the model treats every id outside the table as unknown and shows it as it is.

## Findings

| source | as written | input that shows it | evidently intended | confidence | as-written member | corrected member |
|---|---|---|---|---|---|---|
| backend/app/services/aggregation_service.py:105-106 | with data present, the series is `values[-days:]`, and `values[-0:]` is the whole list | one data point with value 5 and `days = 0` gives `[5]` instead of an empty series | a series of exactly `days` values, so an empty one for `days = 0` | not executed | AggregationService.FormatSparklineZeroDays | AggregationService.FormatSparkline |
