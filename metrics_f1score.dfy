/**
 * The category metrics of the evaluation scripts: the model's predicted categories per
 * review, how many reviews predict each category, the one-vs-rest 2x2 counts and the
 * misclassification matrix over the reference category list, the categories predicted
 * outside that list, the over-predicted share, and the per-class precision, recall and F1
 * with their zero guards.
 */
module F1Metrics {
  import opened Wrappers
  import opened Seqs
  import opened MetricRecords
  import opened Numeric

  /** `CATEGORY_WHITELIST`, the reference categories. */
  const CategoryWhitelist: seq<string> := [
    "Карты",
    "Банкоматы",
    "Кэшбэк / Бонусы",
    "Обслуживание в офисе",
    "Вклады",
    "Кредиты",
    "Курьерская служба",
    "Приложение / сайт",
    "Служба поддержки",
    "Счета",
    "Прочие услуги"
  ]

  /** `set(self.all_categories)` */
  const Whitelist: set<string> := set c | c in CategoryWhitelist

  lemma WhitelistDistinct()
    ensures NoDups(CategoryWhitelist)
  {
  }

  // ---------------------------------------------------------------------------------------
  // Predictions

  /** The model's predictions: the category set per review id, `ids` in insertion order. */
  datatype Predictions = Predictions(ids: seq<Id>, cats: map<Id, set<string>>)

  /** The ids are listed once each and are exactly the keys. */
  ghost predicate WellFormed(p: Predictions) {
    NoDups(p.ids) && forall id :: id in p.cats <==> id in p.ids
  }

  /** The non-empty categories of a review's annotations. */
  function CategoriesOf(anns: seq<Annotation>): set<string> {
    set a | a in anns && Given(a.category) :: a.category.value
  }

  /** `predictions` after the records so far: a record without an id is skipped, a later one replaces an earlier one. */
  function PredictionsOf(records: seq<Review>): Predictions {
    if records == [] then Predictions([], map[])
    else
      var p := PredictionsOf(records[..|records| - 1]);
      var last := records[|records| - 1];
      if last.id.None? then p
      else
        var id := last.id.value;
        Predictions(if id in p.cats then p.ids else p.ids + [id], p.cats[id := CategoriesOf(last.annotations)])
  }

  lemma {:induction false} PredictionsWellFormed(records: seq<Review>)
    ensures WellFormed(PredictionsOf(records))
  {
    if records != [] {
      PredictionsWellFormed(records[..|records| - 1]);
    }
  }

  /** A review id is predicted exactly when some record carries it. */
  lemma {:induction false} PredictedIds(records: seq<Review>, id: Id)
    ensures id in PredictionsOf(records).cats <==> exists k :: 0 <= k < |records| && records[k].id == Some(id)
  {
    if records != [] {
      var init := records[..|records| - 1];
      PredictedIds(init, id);
      if exists k :: 0 <= k < |init| && init[k].id == Some(id) {
        var k :| 0 <= k < |init| && init[k].id == Some(id);
        assert records[k] == init[k];
      }
      if exists k :: 0 <= k < |records| && records[k].id == Some(id) {
        var k :| 0 <= k < |records| && records[k].id == Some(id);
        if k < |init| {
          assert init[k] == records[k];
        }
      }
    }
  }

  /** The last record carrying an id decides its categories. */
  lemma {:induction false} LastRecordWins(records: seq<Review>, k: nat)
    requires k < |records| && records[k].id.Some?
    requires forall j :: k < j < |records| ==> records[j].id != records[k].id
    ensures var p := PredictionsOf(records);
      records[k].id.value in p.cats && p.cats[records[k].id.value] == CategoriesOf(records[k].annotations)
  {
    var init := records[..|records| - 1];
    if k < |init| {
      forall j | k < j < |init| ensures init[j].id != init[k].id {
        assert init[j] == records[j];
      }
      LastRecordWins(init, k);
    }
  }

  /** The loop over a review's annotations collecting the categories that are given. */
  method CollectCategories(anns: seq<Annotation>) returns (cats: set<string>)
    ensures cats == CategoriesOf(anns)
  {
    cats := {};
    for i := 0 to |anns|
      invariant cats == CategoriesOf(anns[..i])
    {
      assert anns[..i + 1] == anns[..i] + [anns[i]];
      if Given(anns[i].category) {
        cats := cats + {anns[i].category.value};
      }
    }
    assert anns[..|anns|] == anns;
  }

  /** The number of ids in `ids` whose predicted set holds `c`. */
  function CountContaining(ids: seq<Id>, cats: map<Id, set<string>>, c: string): nat {
    if ids == [] then 0
    else
      var last := ids[|ids| - 1];
      CountContaining(ids[..|ids| - 1], cats, c) + (if last in cats && c in cats[last] then 1 else 0)
  }

  /**
   * `_prepare_category_predictions`: the predictions of the model's records, and for each
   * category the number of predicted reviews that hold it.
   */
  method PrepareCategoryPredictions(modelData: seq<Review>) returns (predictions: Predictions, counts: map<string, nat>)
    ensures predictions == PredictionsOf(modelData)
    ensures forall c :: Get(counts, c) == CountContaining(predictions.ids, predictions.cats, c)
    ensures Positive(counts)
  {
    predictions := Predictions([], map[]);
    for i := 0 to |modelData|
      invariant predictions == PredictionsOf(modelData[..i])
    {
      assert modelData[..i + 1][..i] == modelData[..i];
      var review := modelData[i];
      if review.id.None? {
        continue;
      }
      var rid := review.id.value;
      var cats := CollectCategories(review.annotations);
      predictions := Predictions(if rid in predictions.cats then predictions.ids else predictions.ids + [rid],
                                 predictions.cats[rid := cats]);
    }
    assert modelData[..|modelData|] == modelData;
    PredictionsWellFormed(modelData);
    counts := map[];
    var ids, cats := predictions.ids, predictions.cats;
    for j := 0 to |ids|
      invariant forall c :: Get(counts, c) == CountContaining(ids[..j], cats, c)
      invariant Positive(counts)
    {
      assert ids[..j + 1][..j] == ids[..j];
      var next := Increment(counts, cats[ids[j]]);
      IncrementPositive(counts, cats[ids[j]], next);
      counts := next;
    }
    assert ids[..|ids|] == ids;
  }

  /** The count of a category is the number of predicted reviews whose set holds it. */
  lemma {:induction false} CountContainingIsCardinality(ids: seq<Id>, cats: map<Id, set<string>>, c: string)
    requires NoDups(ids)
    ensures CountContaining(ids, cats, c) == |set id | id in ids && id in cats && c in cats[id]|
  {
    if ids != [] {
      var init, last := ids[..|ids| - 1], ids[|ids| - 1];
      assert ids == init + [last];
      assert NoDups(init);
      CountContainingIsCardinality(init, cats, c);
      var before := set id | id in init && id in cats && c in cats[id];
      var after := set id | id in ids && id in cats && c in cats[id];
      assert last !in before;
      if last in cats && c in cats[last] {
        assert after == before + {last};
      } else {
        assert after == before;
      }
    }
  }

  lemma UniqueCategoriesCount(modelData: seq<Review>, c: string)
    ensures var p := PredictionsOf(modelData);
      CountContaining(p.ids, p.cats, c) == |set id | id in p.cats && c in p.cats[id]|
  {
    var p := PredictionsOf(modelData);
    PredictionsWellFormed(modelData);
    CountContainingIsCardinality(p.ids, p.cats, c);
    assert (set id | id in p.ids && id in p.cats && c in p.cats[id]) == (set id | id in p.cats && c in p.cats[id]);
  }

  // ---------------------------------------------------------------------------------------
  // Confusion counts

  /** One category's one-vs-rest counts. */
  datatype Counts = Counts(tp: nat, fp: nat, fn: nat, tn: nat)

  function Total(k: Counts): nat {
    k.tp + k.fp + k.fn + k.tn
  }

  /** One review's contribution to a category's counts. */
  function Tally(k: Counts, isTrue: bool, isPredicted: bool): (r: Counts)
    ensures Total(r) == Total(k) + 1
  {
    if isTrue && isPredicted then k.(tp := k.tp + 1)
    else if !isTrue && isPredicted then k.(fp := k.fp + 1)
    else if isTrue && !isPredicted then k.(fn := k.fn + 1)
    else k.(tn := k.tn + 1)
  }

  /** The golden review's reference categories. */
  function TrueCats(review: Review): set<string> {
    set a | a in review.annotations && a.category.Some? && a.category.value in Whitelist :: a.category.value
  }

  /** `self.model_predictions.get(rid, set())` */
  function PredictedAll(p: Predictions, id: Id): set<string> {
    if id in p.cats then p.cats[id] else {}
  }

  /** The predicted categories that are reference categories. */
  function PredictedIn(p: Predictions, id: Id): (r: set<string>)
    ensures r <= Whitelist
  {
    PredictedAll(p, id) * Whitelist
  }

  /** The golden reviews that are scored: those with an id. */
  function Scored(golden: seq<Review>): nat {
    if golden == [] then 0
    else Scored(golden[..|golden| - 1]) + (if golden[|golden| - 1].id.Some? then 1 else 0)
  }

  /** A category's counts over the golden reviews. */
  function CountsFor(golden: seq<Review>, p: Predictions, c: string): Counts {
    if golden == [] then Counts(0, 0, 0, 0)
    else
      var k := CountsFor(golden[..|golden| - 1], p, c);
      var r := golden[|golden| - 1];
      if r.id.None? then k else Tally(k, c in TrueCats(r), c in PredictedIn(p, r.id.value))
  }

  /**
   * One review's entry in the misclassification matrix: the diagonal counts a category that
   * is both true and predicted; off the diagonal, a true category the model missed is paired
   * with each category the model predicted falsely.
   */
  function ReviewCell(t: set<string>, q: set<string>, a: string, b: string): nat {
    if a == b then (if a in t && a in q then 1 else 0)
    else if a in t - q && b in q - t then 1 else 0
  }

  function Cell(golden: seq<Review>, p: Predictions, a: string, b: string): nat {
    if golden == [] then 0
    else
      var r := golden[|golden| - 1];
      Cell(golden[..|golden| - 1], p, a, b) +
        (if r.id.None? then 0 else ReviewCell(TrueCats(r), PredictedIn(p, r.id.value), a, b))
  }

  /** How many scored reviews predict `c` although it is not a reference category. */
  function ExtraCount(golden: seq<Review>, p: Predictions, c: string): nat {
    if golden == [] then 0
    else
      var r := golden[|golden| - 1];
      ExtraCount(golden[..|golden| - 1], p, c) +
        (if r.id.Some? && c in PredictedAll(p, r.id.value) - Whitelist then 1 else 0)
  }

  /** The per-category counts, the matrix and the extra counts after the reviews `golden`. */
  ghost predicate Tallied(golden: seq<Review>, p: Predictions, perCat: map<string, Counts>,
                          confusion: map<(string, string), nat>, extra: map<string, nat>) {
    && (forall c :: c in perCat <==> c in Whitelist)
    && (forall c :: c in perCat ==> perCat[c] == CountsFor(golden, p, c))
    && (forall a, b :: Get(confusion, (a, b)) == Cell(golden, p, a, b))
    && (forall c :: Get(extra, c) == ExtraCount(golden, p, c))
    && Positive(extra)
  }

  /** One pass of the loop over the golden reviews: the review at `i` is scored. */
  method ScoreReview(golden: seq<Review>, p: Predictions, i: nat, perCat: map<string, Counts>,
                     confusion: map<(string, string), nat>, extra: map<string, nat>)
    returns (perCat': map<string, Counts>, confusion': map<(string, string), nat>, extra': map<string, nat>)
    requires i < |golden| && Tallied(golden[..i], p, perCat, confusion, extra)
    ensures Tallied(golden[..i + 1], p, perCat', confusion', extra')
  {
    assert golden[..i + 1][..i] == golden[..i];
    var review := golden[i];
    if review.id.None? {
      return perCat, confusion, extra;
    }
    var rid := review.id.value;
    var trueCats := TrueCats(review);
    var predAll := PredictedAll(p, rid);
    var predCats := predAll * Whitelist;
    extra' := Increment(extra, predAll - Whitelist);
    IncrementPositive(extra, predAll - Whitelist, extra');
    perCat' := TallyCategories(perCat, trueCats, predCats);
    confusion' := AddReviewToConfusion(confusion, trueCats, predCats);
  }

  /** The inner loop over the reference categories for one review. */
  method TallyCategories(perCat: map<string, Counts>, t: set<string>, q: set<string>) returns (r: map<string, Counts>)
    requires forall c :: c in perCat <==> c in Whitelist
    ensures forall c :: c in r <==> c in Whitelist
    ensures forall c :: c in r ==> r[c] == Tally(perCat[c], c in t, c in q)
  {
    WhitelistDistinct();
    r := perCat;
    var cats := CategoryWhitelist;
    for j := 0 to |cats|
      invariant forall c :: c in r <==> c in Whitelist
      invariant forall c :: c in r ==> r[c] == if c in cats[..j] then Tally(perCat[c], c in t, c in q) else perCat[c]
    {
      var c := cats[j];
      assert c !in cats[..j];
      assert cats[..j + 1] == cats[..j] + [c];
      r := r[c := Tally(r[c], c in t, c in q)];
    }
    assert cats[..|cats|] == cats;
  }

  /** The diagonal and the missed-by-false pairs of one review, added to the matrix. */
  method AddReviewToConfusion(confusion: map<(string, string), nat>, t: set<string>, q: set<string>)
    returns (r: map<(string, string), nat>)
    ensures forall a, b :: Get(r, (a, b)) == Get(confusion, (a, b)) + ReviewCell(t, q, a, b)
  {
    var both := t * q;
    var diagonal := set c | c in both :: (c, c);
    assert forall a, b :: (a, b) in diagonal <==> a == b && a in both;
    var withDiagonal := Increment(confusion, diagonal);
    r := AddMissedPairs(withDiagonal, t - q, q - t);
    forall a, b ensures Get(r, (a, b)) == Get(confusion, (a, b)) + ReviewCell(t, q, a, b) {
      assert Get(withDiagonal, (a, b)) == Get(confusion, (a, b)) + (if (a, b) in diagonal then 1 else 0);
      if a == b {
        assert !(a in t - q && b in q - t);
      }
    }
  }

  /** The nested loop pairing every missed category with every falsely predicted one. */
  method AddMissedPairs(confusion: map<(string, string), nat>, missed: set<string>, falsePredicted: set<string>)
    returns (r: map<(string, string), nat>)
    ensures forall a, b :: Get(r, (a, b)) == Get(confusion, (a, b)) + (if a in missed && b in falsePredicted then 1 else 0)
  {
    r := confusion;
    var todo := missed;
    while todo != {}
      invariant todo <= missed
      invariant forall a, b :: Get(r, (a, b)) == Get(confusion, (a, b)) + (if a in missed && a !in todo && b in falsePredicted then 1 else 0)
      decreases |todo|
    {
      var trueCat :| trueCat in todo;
      var pairs := set b | b in falsePredicted :: (trueCat, b);
      assert forall a, b :: (a, b) in pairs <==> a == trueCat && b in falsePredicted;
      r := Increment(r, pairs);
      todo := todo - {trueCat};
    }
  }

  /** Per-class precision, recall and F1 with the guards against empty denominators. */
  function Precision(k: Counts): (r: real)
    ensures 0.0 <= r <= 1.0
    ensures k.tp + k.fp == 0 ==> r == 0.0
    ensures k.tp > 0 ==> r > 0.0
    ensures r == 1.0 <==> k.tp > 0 && k.fp == 0
  {
    if k.tp + k.fp > 0 then k.tp as real / (k.tp + k.fp) as real else 0.0
  }

  function Recall(k: Counts): (r: real)
    ensures 0.0 <= r <= 1.0
    ensures k.tp + k.fn == 0 ==> r == 0.0
    ensures k.tp > 0 ==> r > 0.0
    ensures r == 1.0 <==> k.tp > 0 && k.fn == 0
  {
    if k.tp + k.fn > 0 then k.tp as real / (k.tp + k.fn) as real else 0.0
  }

  function F1(precision: real, recall: real): (r: real)
    requires 0.0 <= precision <= 1.0 && 0.0 <= recall <= 1.0
    ensures 0.0 <= r <= 1.0
    ensures precision + recall == 0.0 ==> r == 0.0
    ensures r == 0.0 <==> precision == 0.0 || recall == 0.0
  {
    if precision + recall > 0.0 then
      HarmonicMeanBounds(precision, recall);
      2.0 * (precision * recall) / (precision + recall)
    else 0.0
  }

  lemma HarmonicMeanBounds(x: real, y: real)
    requires 0.0 <= x <= 1.0 && 0.0 <= y <= 1.0 && x + y > 0.0
    ensures 0.0 <= 2.0 * (x * y) / (x + y) <= 1.0
    ensures 2.0 * (x * y) / (x + y) == 0.0 <==> x == 0.0 || y == 0.0
  {
    assert x * y <= x by { assert x * y <= x * 1.0; }
    assert x * y <= y by { assert x * y <= 1.0 * y; }
    assert x * y >= 0.0;
    var p := x * y;
    assert p <= x && p <= y;
    assert 0.0 <= 2.0 * p;
    assert 2.0 * p <= x + y;
    RatioAtMostOne(2.0 * (x * y), x + y);
    if x != 0.0 && y != 0.0 {
      assert x * y > 0.0;
    }
  }

  /** A class the model never gets right has F1 zero. */
  lemma NoTruePositivesNoF1(k: Counts)
    requires k.tp == 0
    ensures F1(Precision(k), Recall(k)) == 0.0
  {
  }

  /**
   * `F1MetricCalculator`: the golden reviews and the prepared predictions are fixed at
   * construction; `extra_predicted_categories` is the counter each matrix calculation resets.
   */
  class F1MetricCalculator {
    const goldenData: seq<Review>
    const modelPredictions: Predictions
    const uniqueCategoriesCount: map<string, nat>
    var extraPredictedCategories: map<string, nat>

    constructor(golden: seq<Review>, modelOutput: seq<Review>)
      ensures goldenData == golden && modelPredictions == PredictionsOf(modelOutput)
      ensures forall c :: Get(uniqueCategoriesCount, c) == CountContaining(modelPredictions.ids, modelPredictions.cats, c)
      ensures extraPredictedCategories == map[]
    {
      goldenData := golden;
      var predictions, counts := PrepareCategoryPredictions(modelOutput);
      modelPredictions := predictions;
      uniqueCategoriesCount := counts;
      extraPredictedCategories := map[];
    }

    /**
     * `calculate_confusion_matrix_per_category`: the 2x2 counts of every reference category,
     * the misclassification matrix, and the counter of non-reference predictions, rebuilt
     * from zero.
     */
    method CalculateConfusionMatrixPerCategory() returns (perCat: map<string, Counts>, confusion: map<(string, string), nat>)
      modifies this
      ensures forall c :: c in perCat <==> c in Whitelist
      ensures forall c :: c in perCat ==> perCat[c] == CountsFor(goldenData, modelPredictions, c)
      ensures forall a, b :: Get(confusion, (a, b)) == Cell(goldenData, modelPredictions, a, b)
      ensures forall c :: Get(extraPredictedCategories, c) == ExtraCount(goldenData, modelPredictions, c)
      ensures Positive(extraPredictedCategories)
    {
      perCat := map c | c in Whitelist :: Counts(0, 0, 0, 0);
      confusion := map[];
      var extra: map<string, nat> := map[];
      var golden, preds := goldenData, modelPredictions;
      for i := 0 to |golden|
        invariant Tallied(golden[..i], preds, perCat, confusion, extra)
      {
        perCat, confusion, extra := ScoreReview(golden, preds, i, perCat, confusion, extra);
      }
      assert golden[..|golden|] == golden;
      extraPredictedCategories := extra;
    }

    /**
     * `calculate_overpredicted_percentage`: the share, in percent, of the reference
     * categories the model predicts that the golden review does not hold; 0 when the model
     * predicts no reference category at all.
     */
    method CalculateOverpredictedPercentage() returns (pct: real)
      ensures var over, total := OverTotal(goldenData, modelPredictions, modelPredictions.ids),
                                 PredictedTotal(modelPredictions, modelPredictions.ids);
        pct == if total == 0 then 0.0 else (over as real / total as real) * 100.0
      ensures 0.0 <= pct <= 100.0
    {
      var golden, preds := goldenData, modelPredictions;
      var ids := preds.ids;
      var totalOverpredicted, totalPredicted := 0, 0;
      for j := 0 to |ids|
        invariant totalOverpredicted == OverTotal(golden, preds, ids[..j])
        invariant totalPredicted == PredictedTotal(preds, ids[..j])
      {
        TotalsStep(golden, preds, ids, j);
        var trueCats := TrueFor(golden, ids[j]);
        var predCats := PredictedIn(preds, ids[j]);
        var overpredicted := predCats - trueCats;
        totalOverpredicted := totalOverpredicted + |overpredicted|;
        totalPredicted := totalPredicted + |predCats|;
      }
      assert ids[..|ids|] == ids;
      OverAtMostPredicted(golden, preds, ids);
      if totalPredicted == 0 {
        return 0.0;
      }
      RatioAtMostOne(totalOverpredicted as real, totalPredicted as real);
      pct := (totalOverpredicted as real / totalPredicted as real) * 100.0;
    }

    /** `get_overpredicted_classes_list`: per reference category, the reviews predicting it falsely. */
    method GetOverpredictedClassesList() returns (counts: map<string, nat>)
      ensures forall c :: Get(counts, c) == OverCount(goldenData, modelPredictions, modelPredictions.ids, c)
      ensures Positive(counts)
      ensures forall c :: c in counts ==> c in Whitelist
    {
      var golden, preds := goldenData, modelPredictions;
      var ids := preds.ids;
      counts := map[];
      for j := 0 to |ids|
        invariant forall c :: Get(counts, c) == OverCount(golden, preds, ids[..j], c)
        invariant Positive(counts)
      {
        assert ids[..j + 1][..j] == ids[..j];
        var overpredicted := PredictedIn(preds, ids[j]) - TrueFor(golden, ids[j]);
        var next := Increment(counts, overpredicted);
        IncrementPositive(counts, overpredicted, next);
        counts := next;
      }
      assert ids[..|ids|] == ids;
      forall c | c in counts ensures c in Whitelist {
        if c !in Whitelist {
          OverCountOutsideWhitelist(golden, preds, ids, c);
        }
      }
    }
  }

  /** For every reference category the four counts add up to the number of scored reviews. */
  lemma {:induction false} CountsConserved(golden: seq<Review>, p: Predictions, c: string)
    ensures Total(CountsFor(golden, p, c)) == Scored(golden)
  {
    if golden != [] {
      CountsConserved(golden[..|golden| - 1], p, c);
    }
  }

  /** The matrix diagonal holds the true positives. */
  lemma {:induction false} DiagonalIsTruePositives(golden: seq<Review>, p: Predictions, c: string)
    ensures Cell(golden, p, c, c) == CountsFor(golden, p, c).tp
  {
    if golden != [] {
      DiagonalIsTruePositives(golden[..|golden| - 1], p, c);
    }
  }

  /** Non-reference categories never show up in the matrix, and reference ones never as extra. */
  lemma {:induction false} MatrixWithinWhitelist(golden: seq<Review>, p: Predictions, a: string, b: string)
    requires a !in Whitelist || b !in Whitelist
    ensures Cell(golden, p, a, b) == 0
  {
    if golden != [] {
      MatrixWithinWhitelist(golden[..|golden| - 1], p, a, b);
    }
  }

  lemma {:induction false} ExtraOutsideWhitelist(golden: seq<Review>, p: Predictions, c: string)
    requires c in Whitelist
    ensures ExtraCount(golden, p, c) == 0
  {
    if golden != [] {
      ExtraOutsideWhitelist(golden[..|golden| - 1], p, c);
    }
  }

  /** The off-diagonal cells one review adds: every missed category with every false one. */
  lemma OffDiagonalPerReview(t: set<string>, q: set<string>)
    ensures (set a, b | a in t && b in q && a != b && ReviewCell(t, q, a, b) == 1 :: (a, b))
         == (set a, b | a in t - q && b in q - t :: (a, b))
    ensures |set a, b | a in t - q && b in q - t :: (a, b)| == |t - q| * |q - t|
  {
    ProductSize(t - q, q - t);
  }

  /** `A × B` */
  function Product(x: set<string>, y: set<string>): set<(string, string)> {
    set a, b | a in x && b in y :: (a, b)
  }

  /** `{a} × B` */
  function Row(a0: string, y: set<string>): set<(string, string)> {
    set b | b in y :: (a0, b)
  }

  lemma ProductSplit(x: set<string>, y: set<string>, a0: string)
    requires a0 in x
    ensures Product(x, y) == Product(x - {a0}, y) + Row(a0, y)
    ensures Product(x - {a0}, y) !! Row(a0, y)
  {
    forall t | t in Product(x, y) ensures t in Product(x - {a0}, y) + Row(a0, y) {
      if t.0 != a0 {
        assert t.0 in x - {a0};
      }
    }
  }

  /** `|A × B| = |A| · |B|` */
  lemma {:induction false} ProductSize(x: set<string>, y: set<string>)
    ensures |Product(x, y)| == |x| * |y|
    decreases |x|
  {
    if x != {} {
      var a0 :| a0 in x;
      var rest := x - {a0};
      assert |Product(rest, y)| == |rest| * |y| by {
        ProductSize(rest, y);
      }
      assert |Row(a0, y)| == |y| by {
        RowSize(a0, y);
      }
      assert |Product(x, y)| == |Product(rest, y)| + |Row(a0, y)| by {
        ProductSplit(x, y, a0);
      }
      assert |x| == |rest| + 1;
      assert (|rest| + 1) * |y| == |rest| * |y| + |y|;
    } else {
      assert Product(x, y) == {};
    }
  }

  lemma {:induction false} RowSize(a0: string, y: set<string>)
    ensures |Row(a0, y)| == |y|
    decreases |y|
  {
    if y != {} {
      var b0 :| b0 in y;
      RowSize(a0, y - {b0});
      assert Row(a0, y) == Row(a0, y - {b0}) + {(a0, b0)};
    } else {
      assert Row(a0, y) == {};
    }
  }

  // ---------------------------------------------------------------------------------------
  // Over-predicted categories

  /** `true_categories_by_id`: the reference categories of each golden review, the last review with an id winning. */
  function TrueById(golden: seq<Review>): map<Option<Id>, set<string>> {
    if golden == [] then map[]
    else
      var last := golden[|golden| - 1];
      TrueById(golden[..|golden| - 1])[last.id := TrueCats(last)]
  }

  /** `true_categories_by_id.get(rid, set())` */
  function TrueFor(golden: seq<Review>, id: Id): set<string> {
    var m := TrueById(golden);
    if Some(id) in m then m[Some(id)] else {}
  }

  /** The reference categories predicted for a review that its golden review does not hold. */
  function OverSet(golden: seq<Review>, p: Predictions, id: Id): (r: set<string>)
    ensures r <= PredictedIn(p, id) && r <= Whitelist
  {
    PredictedIn(p, id) - TrueFor(golden, id)
  }

  function OverTotal(golden: seq<Review>, p: Predictions, ids: seq<Id>): nat {
    if ids == [] then 0
    else OverTotal(golden, p, ids[..|ids| - 1]) + |OverSet(golden, p, ids[|ids| - 1])|
  }

  function PredictedTotal(p: Predictions, ids: seq<Id>): nat {
    if ids == [] then 0
    else PredictedTotal(p, ids[..|ids| - 1]) + |PredictedIn(p, ids[|ids| - 1])|
  }

  /** How many of the reviews falsely predict `c`. */
  function OverCount(golden: seq<Review>, p: Predictions, ids: seq<Id>, c: string): nat {
    if ids == [] then 0
    else OverCount(golden, p, ids[..|ids| - 1], c) + (if c in OverSet(golden, p, ids[|ids| - 1]) then 1 else 0)
  }

  /** One more review in the sums. */
  lemma TotalsStep(golden: seq<Review>, p: Predictions, ids: seq<Id>, j: nat)
    requires j < |ids|
    ensures OverTotal(golden, p, ids[..j + 1]) == OverTotal(golden, p, ids[..j]) + |PredictedIn(p, ids[j]) - TrueFor(golden, ids[j])|
    ensures PredictedTotal(p, ids[..j + 1]) == PredictedTotal(p, ids[..j]) + |PredictedIn(p, ids[j])|
  {
    assert ids[..j + 1][..j] == ids[..j];
  }

  /** The over-predicted count never exceeds the predicted count. */
  lemma {:induction false} OverAtMostPredicted(golden: seq<Review>, p: Predictions, ids: seq<Id>)
    ensures OverTotal(golden, p, ids) <= PredictedTotal(p, ids)
  {
    if ids != [] {
      var last := ids[|ids| - 1];
      OverAtMostPredicted(golden, p, ids[..|ids| - 1]);
      SubsetSize(OverSet(golden, p, last), PredictedIn(p, last));
    }
  }

  lemma SubsetSize(a: set<string>, b: set<string>)
    requires a <= b
    ensures |a| <= |b|
  {
    assert b == a + (b - a);
  }

  lemma {:induction false} OverCountOutsideWhitelist(golden: seq<Review>, p: Predictions, ids: seq<Id>, c: string)
    requires c !in Whitelist
    ensures OverCount(golden, p, ids, c) == 0
  {
    if ids != [] {
      OverCountOutsideWhitelist(golden, p, ids[..|ids| - 1], c);
    }
  }

  /** The sum of the per-category over-predicted counts over the categories `cs`. */
  function SumOverCategories(cs: seq<string>, golden: seq<Review>, p: Predictions, ids: seq<Id>): nat {
    if cs == [] then 0
    else SumOverCategories(cs[..|cs| - 1], golden, p, ids) + OverCount(golden, p, ids, cs[|cs| - 1])
  }

  /** How many of the categories `cs` lie in `s`. */
  function Members(cs: seq<string>, s: set<string>): nat {
    if cs == [] then 0
    else Members(cs[..|cs| - 1], s) + (if cs[|cs| - 1] in s then 1 else 0)
  }

  /**
   * The over-predicted classes list adds up to the numerator of the over-predicted
   * percentage: counting per category and counting per review agree.
   */
  lemma OverpredictedListSumsToNumerator(golden: seq<Review>, p: Predictions, ids: seq<Id>)
    ensures SumOverCategories(CategoryWhitelist, golden, p, ids) == OverTotal(golden, p, ids)
  {
    WhitelistDistinct();
    SumsAgree(CategoryWhitelist, golden, p, ids);
  }

  lemma {:induction false} SumsAgree(cs: seq<string>, golden: seq<Review>, p: Predictions, ids: seq<Id>)
    requires NoDups(cs) && Whitelist <= set c | c in cs
    ensures SumOverCategories(cs, golden, p, ids) == OverTotal(golden, p, ids)
  {
    if ids == [] {
      SumOverNothing(cs, golden, p);
    } else {
      SumsAgree(cs, golden, p, ids[..|ids| - 1]);
      MembersOfOver(cs, golden, p, ids[|ids| - 1]);
      SumSplit(cs, golden, p, ids);
    }
  }

  /** Counted over all whitelisted categories, one review's over-predicted set counts in full. */
  lemma MembersOfOver(cs: seq<string>, golden: seq<Review>, p: Predictions, id: Id)
    requires NoDups(cs) && Whitelist <= set c | c in cs
    ensures Members(cs, OverSet(golden, p, id)) == |OverSet(golden, p, id)|
  {
    var over := OverSet(golden, p, id);
    MembersCount(cs, over);
    assert over * (set c | c in cs) == over;
  }

  lemma {:induction false} SumOverNothing(cs: seq<string>, golden: seq<Review>, p: Predictions)
    ensures SumOverCategories(cs, golden, p, []) == 0
  {
    if cs != [] {
      SumOverNothing(cs[..|cs| - 1], golden, p);
    }
  }

  lemma {:induction false} SumSplit(cs: seq<string>, golden: seq<Review>, p: Predictions, ids: seq<Id>)
    requires ids != []
    ensures SumOverCategories(cs, golden, p, ids) ==
      SumOverCategories(cs, golden, p, ids[..|ids| - 1]) + Members(cs, OverSet(golden, p, ids[|ids| - 1]))
  {
    if cs != [] {
      SumSplit(cs[..|cs| - 1], golden, p, ids);
    }
  }

  lemma {:induction false} MembersCount(cs: seq<string>, s: set<string>)
    requires NoDups(cs)
    ensures Members(cs, s) == |s * (set c | c in cs)|
  {
    if cs != [] {
      var init, last := cs[..|cs| - 1], cs[|cs| - 1];
      assert cs == init + [last];
      assert NoDups(init);
      MembersCount(init, s);
      var before := s * (set c | c in init);
      assert last !in before;
      if last in s {
        assert s * (set c | c in cs) == before + {last};
      } else {
        assert s * (set c | c in cs) == before;
      }
    }
  }
}
