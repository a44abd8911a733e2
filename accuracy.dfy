/**
 * The sentiment accuracy evaluation: the model's sentiment per review and category, the
 * label pairs of the categories both the golden standard and the model annotate (globally
 * and per category), the reviews whose category sets differ, and the accuracies.
 */
module SentimentAccuracy {
  import opened Wrappers
  import opened MetricRecords
  import opened Numeric

  /** The sentiment of each category of one review. */
  type Labels = map<string, string>

  // ---------------------------------------------------------------------------------------
  // Model predictions

  /** `if category and sentiment`: an annotation the predictions keep. */
  predicate Labelled(a: Annotation) {
    Given(a.category) && Given(a.sentiment)
  }

  predicate HasLabel(anns: seq<Annotation>) {
    exists a :: a in anns && Labelled(a)
  }

  /** A review id the loops look at: present and truthy. */
  predicate Scored(id: Option<Id>) {
    id.Some? && TruthyId(id.value)
  }

  /** The labels stored from `anns` on top of `m`: a later annotation of a category overwrites an earlier one. */
  function StoreLabels(m: Labels, anns: seq<Annotation>): Labels {
    if anns == [] then m
    else
      var prev := StoreLabels(m, anns[..|anns| - 1]);
      var a := anns[|anns| - 1];
      if Labelled(a) then prev[a.category.value := a.sentiment.value] else prev
  }

  /** `model_predictions_map.get(review_id, {})` */
  function LabelsFor(pm: map<Id, Labels>, id: Id): Labels {
    if id in pm then pm[id] else map[]
  }

  /**
   * `model_predictions_map` after the records so far. A review id gets an entry once one of
   * its annotations is stored; a later record with the same id adds to that entry.
   */
  function PredictionMap(records: seq<Review>): map<Id, Labels> {
    if records == [] then map[]
    else
      var pm := PredictionMap(records[..|records| - 1]);
      var r := records[|records| - 1];
      if !Scored(r.id) || !HasLabel(r.annotations) then pm
      else pm[r.id.value := StoreLabels(LabelsFor(pm, r.id.value), r.annotations)]
  }

  /** `_prepare_data` */
  method PrepareData(modelData: seq<Review>) returns (pm: map<Id, Labels>)
    ensures pm == PredictionMap(modelData)
  {
    pm := map[];
    for i := 0 to |modelData|
      invariant pm == PredictionMap(modelData[..i])
    {
      assert modelData[..i + 1][..i] == modelData[..i];
      var review := modelData[i];
      if !Scored(review.id) {
        continue;
      }
      var id := review.id.value;
      var anns := review.annotations;
      ghost var before := pm;
      for j := 0 to |anns|
        invariant pm == if HasLabel(anns[..j]) then before[id := StoreLabels(LabelsFor(before, id), anns[..j])] else before
      {
        var a := anns[j];
        assert anns[..j + 1][..j] == anns[..j] && anns[..j + 1][j] == a;
        HasLabelStep(anns, j);
        if Labelled(a) {
          if !HasLabel(anns[..j]) {
            StoreNothing(LabelsFor(before, id), anns[..j]);
          }
          pm := pm[id := LabelsFor(pm, id)[a.category.value := a.sentiment.value]];
        }
      }
      assert anns[..|anns|] == anns;
    }
    assert modelData[..|modelData|] == modelData;
  }

  lemma HasLabelStep(anns: seq<Annotation>, j: nat)
    requires j < |anns|
    ensures HasLabel(anns[..j + 1]) <==> HasLabel(anns[..j]) || Labelled(anns[j])
  {
    assert anns[..j + 1] == anns[..j] + [anns[j]];
  }

  /** Annotations none of which is kept store nothing. */
  lemma {:induction false} StoreNothing(m: Labels, anns: seq<Annotation>)
    requires !HasLabel(anns)
    ensures StoreLabels(m, anns) == m
  {
    if anns != [] {
      var init := anns[..|anns| - 1];
      assert anns[|anns| - 1] in anns;
      assert forall a :: a in init ==> a in anns;
      StoreNothing(m, init);
    }
  }

  /** A record whose id is missing or falsy changes nothing. */
  lemma FalsyIdSkipped(records: seq<Review>, r: Review)
    requires r.id.None? || !TruthyId(r.id.value)
    ensures PredictionMap(records + [r]) == PredictionMap(records)
  {
    assert (records + [r])[..|records|] == records;
  }

  /** The last annotation of a category decides its sentiment. */
  lemma {:induction false} LaterAnnotationOverwrites(m: Labels, anns: seq<Annotation>, k: nat)
    requires k < |anns| && Labelled(anns[k])
    requires forall j :: k < j < |anns| && Labelled(anns[j]) ==> anns[j].category != anns[k].category
    ensures var s := StoreLabels(m, anns);
      anns[k].category.value in s && s[anns[k].category.value] == anns[k].sentiment.value
  {
    var init := anns[..|anns| - 1];
    if k < |init| {
      forall j | k < j < |init| && Labelled(init[j]) ensures init[j].category != init[k].category {
        assert init[j] == anns[j];
      }
      LaterAnnotationOverwrites(m, init, k);
    }
  }

  /** A category no kept annotation names keeps what it had. */
  lemma {:induction false} UnnamedCategoryKept(m: Labels, anns: seq<Annotation>, c: string)
    requires forall a :: a in anns && Labelled(a) ==> a.category.value != c
    ensures c in StoreLabels(m, anns) <==> c in m
    ensures c in m ==> StoreLabels(m, anns)[c] == m[c]
  {
    if anns != [] {
      var init := anns[..|anns| - 1];
      assert forall a :: a in init ==> a in anns;
      UnnamedCategoryKept(m, init, c);
    }
  }

  // ---------------------------------------------------------------------------------------
  // Label pairs

  /**
   * `{ann['category']: ann['sentiment'] for ann in ...}`: Err when an annotation lacks
   * either key (the comprehension raises); a later annotation of a category overwrites.
   */
  function GoldenLabels(anns: seq<Annotation>): Result<Labels> {
    if anns == [] then Ok(map[])
    else
      var prev := GoldenLabels(anns[..|anns| - 1]);
      var a := anns[|anns| - 1];
      if prev.Err? then prev
      else if a.category.None? || a.sentiment.None? then Err("KeyError")
      else Ok(prev.value[a.category.value := a.sentiment.value])
  }

  lemma {:induction false} GoldenLabelsFail(anns: seq<Annotation>)
    ensures GoldenLabels(anns).Err? <==> exists a :: a in anns && (a.category.None? || a.sentiment.None?)
  {
    if anns != [] {
      var init := anns[..|anns| - 1];
      GoldenLabelsFail(init);
      assert anns == init + [anns[|anns| - 1]];
    }
  }

  /** The label pairs one review contributes: one per category both sides annotate. */
  function ReviewTriples(g: Labels, p: Labels): set<(string, string, string)> {
    set c | c in g && c in p :: (c, g[c], p[c])
  }

  /** No scored review of `reviews` has unreadable labels. */
  ghost predicate Readable(reviews: seq<Review>) {
    forall r :: r in reviews ==> !Unreadable(r)
  }

  lemma ReadableStep(golden: seq<Review>, i: nat)
    requires i < |golden| && Readable(golden[..i]) && !Unreadable(golden[i])
    ensures Readable(golden[..i + 1])
  {
    assert golden[..i + 1] == golden[..i] + [golden[i]];
  }

  /** A golden review whose labels cannot be read. */
  predicate Unreadable(review: Review) {
    Scored(review.id) && GoldenLabels(review.annotations).Err?
  }

  /** The golden and predicted labels of a readable scored review. */
  function GoldenOf(review: Review): Labels {
    var g := GoldenLabels(review.annotations); if g.Ok? then g.value else map[]
  }

  /** All label pairs, each tagged with its category, over the golden reviews. */
  function ExpectedTriples(golden: seq<Review>, pm: map<Id, Labels>): multiset<(string, string, string)> {
    if golden == [] then multiset{}
    else
      var r := golden[|golden| - 1];
      ExpectedTriples(golden[..|golden| - 1], pm) +
        (if Scored(r.id) then multiset(ReviewTriples(GoldenOf(r), LabelsFor(pm, r.id.value))) else multiset{})
  }

  /** One entry of `mismatched_categories`. */
  datatype Mismatch = Mismatch(reviewId: Id, unpredictedInGolden: set<string>, extraPredicted: set<string>)

  function MismatchOf(id: Id, g: Labels, p: Labels): Option<Mismatch> {
    var unpredicted := g.Keys - p.Keys;
    var extra := p.Keys - g.Keys;
    if unpredicted != {} || extra != {} then Some(Mismatch(id, unpredicted, extra)) else None
  }

  function MismatchesOf(golden: seq<Review>, pm: map<Id, Labels>): seq<Mismatch> {
    if golden == [] then []
    else
      var r := golden[|golden| - 1];
      var prev := MismatchesOf(golden[..|golden| - 1], pm);
      if !Scored(r.id) then prev
      else
        match MismatchOf(r.id.value, GoldenOf(r), LabelsFor(pm, r.id.value))
        case Some(m) => prev + [m]
        case None => prev
  }

  /** The tagged pairs in the order they were appended. */
  function Triples(cats: seq<string>, ts: seq<string>, ps: seq<string>): seq<(string, string, string)>
    requires |cats| == |ts| == |ps|
  {
    seq(|cats|, k requires 0 <= k < |cats| => (cats[k], ts[k], ps[k]))
  }

  /** The elements of `xs` at the positions whose category is `c`, in order. */
  function Select(xs: seq<string>, cats: seq<string>, c: string): seq<string>
    requires |xs| == |cats|
  {
    if xs == [] then []
    else Select(xs[..|xs| - 1], cats[..|cats| - 1], c) + (if cats[|cats| - 1] == c then [xs[|xs| - 1]] else [])
  }

  /** One category's label lists. */
  datatype LabelLists = LabelLists(yTrue: seq<string>, yPred: seq<string>)

  /**
   * The per-category lists split the global lists: each category's lists are the global
   * lists restricted to the positions of that category, and every category present has one.
   */
  ghost predicate Partitioned(yTrue: seq<string>, yPred: seq<string>, cats: seq<string>, perCat: map<string, LabelLists>) {
    && |yTrue| == |yPred| == |cats|
    && (forall c :: c in perCat <==> c in cats)
    && (forall c :: c in perCat ==> perCat[c] == LabelLists(Select(yTrue, cats, c), Select(yPred, cats, c)))
  }

  /**
   * `category_metrics` built from the tagged global lists: each pair appended, in order, to
   * its category's lists, a category's lists starting empty.
   */
  function ByCategory(yTrue: seq<string>, yPred: seq<string>, cats: seq<string>): map<string, LabelLists>
    requires |yTrue| == |yPred| == |cats|
  {
    if cats == [] then map[]
    else
      var n := |cats| - 1;
      var m := ByCategory(yTrue[..n], yPred[..n], cats[..n]);
      var lists := if cats[n] in m then m[cats[n]] else LabelLists([], []);
      m[cats[n] := LabelLists(lists.yTrue + [yTrue[n]], lists.yPred + [yPred[n]])]
  }

  /** The global lists and the per-category lists agree. */
  ghost predicate Grouped(yTrue: seq<string>, yPred: seq<string>, cats: seq<string>, perCat: map<string, LabelLists>) {
    |yTrue| == |yPred| == |cats| && perCat == ByCategory(yTrue, yPred, cats)
  }

  /** The per-category lists partition the global lists. */
  lemma {:induction false} ByCategoryPartitions(yTrue: seq<string>, yPred: seq<string>, cats: seq<string>)
    requires |yTrue| == |yPred| == |cats|
    ensures Partitioned(yTrue, yPred, cats, ByCategory(yTrue, yPred, cats))
  {
    if cats != [] {
      var n := |cats| - 1;
      ByCategoryPartitions(yTrue[..n], yPred[..n], cats[..n]);
      PartitionAppend(yTrue[..n], yPred[..n], cats[..n], ByCategory(yTrue[..n], yPred[..n], cats[..n]), cats[n], yTrue[n], yPred[n]);
      assert yTrue[..n] + [yTrue[n]] == yTrue && yPred[..n] + [yPred[n]] == yPred && cats[..n] + [cats[n]] == cats;
    }
  }

  lemma SelectAppend(xs: seq<string>, cats: seq<string>, x: string, c: string, d: string)
    requires |xs| == |cats|
    ensures Select(xs + [x], cats + [c], d) == Select(xs, cats, d) + (if c == d then [x] else [])
  {
    assert (xs + [x])[..|xs|] == xs;
    assert (cats + [c])[..|cats|] == cats;
  }

  lemma {:induction false} SelectAbsent(xs: seq<string>, cats: seq<string>, d: string)
    requires |xs| == |cats| && d !in cats
    ensures Select(xs, cats, d) == []
  {
    if xs != [] {
      SelectAbsent(xs[..|xs| - 1], cats[..|cats| - 1], d);
    }
  }

  /** Appending one tagged pair keeps the split. */
  lemma PartitionAppend(yTrue: seq<string>, yPred: seq<string>, cats: seq<string>, perCat: map<string, LabelLists>,
                        c: string, t: string, p: string)
    requires Partitioned(yTrue, yPred, cats, perCat)
    ensures var old_ := if c in perCat then perCat[c] else LabelLists([], []);
      Partitioned(yTrue + [t], yPred + [p], cats + [c], perCat[c := LabelLists(old_.yTrue + [t], old_.yPred + [p])])
  {
    var old_ := if c in perCat then perCat[c] else LabelLists([], []);
    var next := perCat[c := LabelLists(old_.yTrue + [t], old_.yPred + [p])];
    forall d | d in next
      ensures next[d] == LabelLists(Select(yTrue + [t], cats + [c], d), Select(yPred + [p], cats + [c], d))
    {
      SelectAppend(yTrue, cats, t, c, d);
      SelectAppend(yPred, cats, p, c, d);
      if d == c && c !in perCat {
        SelectAbsent(yTrue, cats, c);
        SelectAbsent(yPred, cats, c);
      }
    }
  }

  /** Every category's lists are non-empty, so each per-category accuracy is defined. */
  lemma {:induction false} SelectPresent(xs: seq<string>, cats: seq<string>, d: string)
    requires |xs| == |cats| && d in cats
    ensures |Select(xs, cats, d)| > 0
  {
    if cats[|cats| - 1] != d {
      SelectPresent(xs[..|xs| - 1], cats[..|cats| - 1], d);
    }
  }

  lemma {:induction false} SelectSameLength(xs: seq<string>, ys: seq<string>, cats: seq<string>, d: string)
    requires |xs| == |ys| == |cats|
    ensures |Select(xs, cats, d)| == |Select(ys, cats, d)|
  {
    if xs != [] {
      SelectSameLength(xs[..|xs| - 1], ys[..|ys| - 1], cats[..|cats| - 1], d);
    }
  }

  lemma CategoryListsNonEmpty(yTrue: seq<string>, yPred: seq<string>, cats: seq<string>, perCat: map<string, LabelLists>, c: string)
    requires Partitioned(yTrue, yPred, cats, perCat) && c in perCat
    ensures |perCat[c].yTrue| == |perCat[c].yPred| > 0
  {
    SelectPresent(yTrue, cats, c);
    SelectSameLength(yTrue, yPred, cats, c);
  }

  /** The tagged pairs of the common categories in `s`. */
  function TriplesOn(g: Labels, p: Labels, s: set<string>): set<(string, string, string)> {
    set c | c in s && c in g && c in p :: (c, g[c], p[c])
  }

  lemma TriplesOnAdd(g: Labels, p: Labels, s: set<string>, c: string)
    requires c !in s && c in g && c in p
    ensures multiset(TriplesOn(g, p, s + {c})) == multiset(TriplesOn(g, p, s)) + multiset{(c, g[c], p[c])}
  {
    var t := (c, g[c], p[c]);
    assert t !in TriplesOn(g, p, s);
    assert TriplesOn(g, p, s + {c}) == TriplesOn(g, p, s) + {t};
  }

  lemma TriplesAppend(cats: seq<string>, ts: seq<string>, ps: seq<string>, c: string, t: string, p: string)
    requires |cats| == |ts| == |ps|
    ensures Triples(cats + [c], ts + [t], ps + [p]) == Triples(cats, ts, ps) + [(c, t, p)]
  {
  }

  /** One category's pair appended to the global lists and to that category's lists. */
  method AppendLabels(cat: string, trueLabel: string, predLabel: string, yTrue: seq<string>, yPred: seq<string>,
                      perCat: map<string, LabelLists>, ghost cats: seq<string>)
    returns (yTrue': seq<string>, yPred': seq<string>, perCat': map<string, LabelLists>, ghost cats': seq<string>)
    requires Grouped(yTrue, yPred, cats, perCat)
    ensures Grouped(yTrue', yPred', cats', perCat')
    ensures Triples(cats', yTrue', yPred') == Triples(cats, yTrue, yPred) + [(cat, trueLabel, predLabel)]
  {
    TriplesAppend(cats, yTrue, yPred, cat, trueLabel, predLabel);
    assert (yTrue + [trueLabel])[..|yTrue|] == yTrue && (yPred + [predLabel])[..|yPred|] == yPred;
    assert (cats + [cat])[..|cats|] == cats;
    var lists := if cat in perCat then perCat[cat] else LabelLists([], []);
    perCat' := perCat[cat := LabelLists(lists.yTrue + [trueLabel], lists.yPred + [predLabel])];
    yTrue', yPred', cats' := yTrue + [trueLabel], yPred + [predLabel], cats + [cat];
  }

  /**
   * The lists after the pairs of the categories in `done` were appended to the lists
   * `yTrue0`, `yPred0` (tagged `cats0`): still grouped by category, and holding those pairs.
   */
  ghost predicate AddedSoFar(g: Labels, p: Labels, done: set<string>,
                             yTrue0: seq<string>, yPred0: seq<string>, cats0: seq<string>,
                             yTrue: seq<string>, yPred: seq<string>, cats: seq<string>, perCat: map<string, LabelLists>) {
    && |yTrue0| == |yPred0| == |cats0|
    && Grouped(yTrue, yPred, cats, perCat)
    && multiset(Triples(cats, yTrue, yPred)) == multiset(Triples(cats0, yTrue0, yPred0)) + multiset(TriplesOn(g, p, done))
  }

  /** One common category's pair appended, as one turn of the loop below. */
  method AddCategory(g: Labels, p: Labels, cat: string, ghost done: set<string>,
                     ghost yTrue0: seq<string>, ghost yPred0: seq<string>, ghost cats0: seq<string>,
                     yTrue: seq<string>, yPred: seq<string>, perCat: map<string, LabelLists>, ghost cats: seq<string>)
    returns (yTrue': seq<string>, yPred': seq<string>, perCat': map<string, LabelLists>, ghost cats': seq<string>)
    requires cat !in done && cat in g && cat in p
    requires AddedSoFar(g, p, done, yTrue0, yPred0, cats0, yTrue, yPred, cats, perCat)
    ensures AddedSoFar(g, p, done + {cat}, yTrue0, yPred0, cats0, yTrue', yPred', cats', perCat')
  {
    yTrue', yPred', perCat', cats' := AppendLabels(cat, g[cat], p[cat], yTrue, yPred, perCat, cats);
    TriplesOnAdd(g, p, done, cat);
  }

  /**
   * The loop over the categories both sides annotate, for one review: each appends its
   * golden and predicted sentiment to the global lists and to its category's lists.
   */
  method AddCommonCategories(g: Labels, p: Labels, yTrue: seq<string>, yPred: seq<string>,
                             perCat: map<string, LabelLists>, ghost cats: seq<string>)
    returns (yTrue': seq<string>, yPred': seq<string>, perCat': map<string, LabelLists>, ghost cats': seq<string>)
    requires Grouped(yTrue, yPred, cats, perCat)
    ensures Grouped(yTrue', yPred', cats', perCat')
    ensures multiset(Triples(cats', yTrue', yPred')) == multiset(Triples(cats, yTrue, yPred)) + multiset(ReviewTriples(g, p))
  {
    yTrue', yPred', perCat', cats' := yTrue, yPred, perCat, cats;
    var common := g.Keys * p.Keys;
    var todo := common;
    assert TriplesOn(g, p, common - todo) == {};
    while todo != {}
      invariant todo <= common
      invariant AddedSoFar(g, p, common - todo, yTrue, yPred, cats, yTrue', yPred', cats', perCat')
      decreases |todo|
    {
      var cat :| cat in todo;
      yTrue', yPred', perCat', cats' := AddCategory(g, p, cat, common - todo, yTrue, yPred, cats, yTrue', yPred', perCat', cats');
      assert (common - todo) + {cat} == common - (todo - {cat});
      todo := todo - {cat};
    }
    assert TriplesOn(g, p, common - todo) == ReviewTriples(g, p);
  }

  /** One readable scored review: its common categories' pairs, then its mismatch if any. */
  method AddReview(reviewId: Id, g: Labels, p: Labels, yTrue: seq<string>, yPred: seq<string>,
                   perCat: map<string, LabelLists>, mismatched: seq<Mismatch>, ghost cats: seq<string>)
    returns (yTrue': seq<string>, yPred': seq<string>, perCat': map<string, LabelLists>,
             mismatched': seq<Mismatch>, ghost cats': seq<string>)
    requires Grouped(yTrue, yPred, cats, perCat)
    ensures Grouped(yTrue', yPred', cats', perCat')
    ensures multiset(Triples(cats', yTrue', yPred')) == multiset(Triples(cats, yTrue, yPred)) + multiset(ReviewTriples(g, p))
    ensures mismatched' == match MismatchOf(reviewId, g, p)
      case Some(m) => mismatched + [m]
      case None => mismatched
  {
    yTrue', yPred', perCat', cats' := AddCommonCategories(g, p, yTrue, yPred, perCat, cats);
    var unpredicted := g.Keys - p.Keys;
    var extra := p.Keys - g.Keys;
    mismatched' := mismatched;
    if unpredicted != {} || extra != {} {
      mismatched' := mismatched + [Mismatch(reviewId, unpredicted, extra)];
    }
  }

  /** What the loop over the golden reviews collects. */
  datatype Collected = Collected(yTrue: seq<string>, yPred: seq<string>, categoryMetrics: map<string, LabelLists>,
                                 mismatched: seq<Mismatch>)

  lemma CollectStep(golden: seq<Review>, pm: map<Id, Labels>, i: nat)
    requires i < |golden|
    ensures var r := golden[i];
      && ExpectedTriples(golden[..i + 1], pm) == ExpectedTriples(golden[..i], pm) +
           (if Scored(r.id) then multiset(ReviewTriples(GoldenOf(r), LabelsFor(pm, r.id.value))) else multiset{})
      && MismatchesOf(golden[..i + 1], pm) ==
           if !Scored(r.id) then MismatchesOf(golden[..i], pm)
           else match MismatchOf(r.id.value, GoldenOf(r), LabelsFor(pm, r.id.value))
             case Some(m) => MismatchesOf(golden[..i], pm) + [m]
             case None => MismatchesOf(golden[..i], pm)
  {
    assert golden[..i + 1][..i] == golden[..i];
  }

  /**
   * The loop of `evaluate` over the golden reviews: Err when a scored review's labels cannot
   * be read; otherwise the label pairs of the common categories, split by category, and the
   * reviews whose category sets differ.
   */
  method CollectLabels(golden: seq<Review>, pm: map<Id, Labels>) returns (r: Result<Collected>, ghost cats: seq<string>)
    ensures r.Err? <==> exists k :: 0 <= k < |golden| && Unreadable(golden[k])
    ensures r.Ok? ==> Grouped(r.value.yTrue, r.value.yPred, cats, r.value.categoryMetrics)
    ensures r.Ok? ==> multiset(Triples(cats, r.value.yTrue, r.value.yPred)) == ExpectedTriples(golden, pm)
    ensures r.Ok? ==> r.value.mismatched == MismatchesOf(golden, pm)
  {
    var yTrue, yPred: seq<string> := [], [];
    var perCat: map<string, LabelLists> := map[];
    var mismatched: seq<Mismatch> := [];
    cats := [];
    for i := 0 to |golden|
      invariant Readable(golden[..i])
      invariant Grouped(yTrue, yPred, cats, perCat)
      invariant multiset(Triples(cats, yTrue, yPred)) == ExpectedTriples(golden[..i], pm)
      invariant mismatched == MismatchesOf(golden[..i], pm)
    {
      CollectStep(golden, pm, i);
      var review := golden[i];
      if !Scored(review.id) {
        ReadableStep(golden, i);
        continue;
      }
      var reviewId := review.id.value;
      var goldenLabels := GoldenLabels(review.annotations);
      if goldenLabels.Err? {
        assert Unreadable(golden[i]);
        return Err(goldenLabels.message), cats;
      }
      ReadableStep(golden, i);
      yTrue, yPred, perCat, mismatched, cats :=
        AddReview(reviewId, goldenLabels.value, LabelsFor(pm, reviewId), yTrue, yPred, perCat, mismatched, cats);
    }
    assert golden[..|golden|] == golden;
    assert forall k :: 0 <= k < |golden| ==> golden[k] in golden;
    r := Ok(Collected(yTrue, yPred, perCat, mismatched));
  }

  // ---------------------------------------------------------------------------------------
  // Accuracy

  /** The positions where the two label lists agree. */
  function Matches(xs: seq<string>, ys: seq<string>): (r: nat)
    requires |xs| == |ys|
    ensures r <= |xs|
    ensures r == |xs| <==> xs == ys
  {
    if xs == [] then 0
    else
      var n := |xs| - 1;
      var rest := Matches(xs[..n], ys[..n]);
      assert xs == ys <==> xs[..n] == ys[..n] && xs[n] == ys[n] by {
        assert xs == xs[..n] + [xs[n]] && ys == ys[..n] + [ys[n]];
      }
      rest + (if xs[n] == ys[n] then 1 else 0)
  }

  /** `accuracy_score`, and 0 for no pairs at all. */
  function Accuracy(xs: seq<string>, ys: seq<string>): (r: real)
    requires |xs| == |ys|
    ensures 0.0 <= r <= 1.0
    ensures |xs| == 0 ==> r == 0.0
    ensures r == 1.0 <==> |xs| > 0 && xs == ys
  {
    if |xs| == 0 then 0.0
    else
      RatioAtMostOne(Matches(xs, ys) as real, |xs| as real);
      Matches(xs, ys) as real / |xs| as real
  }

  /** What `evaluate` reports. */
  datatype Report = Report(totalAccuracy: real, categoryAccuracy: map<string, real>, mismatched: seq<Mismatch>)

  /**
   * `evaluate`, on the loaded golden and model records: Err when a scored golden review's
   * labels cannot be read; otherwise the overall and per-category accuracies and the
   * reviews whose category sets differ.
   */
  method Evaluate(golden: seq<Review>, modelData: seq<Review>) returns (r: Result<Report>)
    ensures r.Err? <==> exists k :: 0 <= k < |golden| && Unreadable(golden[k])
    ensures r.Ok? ==> r.value.mismatched == MismatchesOf(golden, PredictionMap(modelData))
    ensures r.Ok? ==> 0.0 <= r.value.totalAccuracy <= 1.0
    ensures r.Ok? && ExpectedTriples(golden, PredictionMap(modelData)) == multiset{} ==> r.value.totalAccuracy == 0.0
    ensures r.Ok? ==> forall c :: c in r.value.categoryAccuracy ==> 0.0 <= r.value.categoryAccuracy[c] <= 1.0
  {
    var pm := PrepareData(modelData);
    var collected, cats := CollectLabels(golden, pm);
    if collected.Err? {
      return Err(collected.message);
    }
    var data := collected.value;
    var totalAccuracy := Accuracy(data.yTrue, data.yPred);
    if ExpectedTriples(golden, pm) == multiset{} {
      assert |Triples(cats, data.yTrue, data.yPred)| == 0;
    }
    var metrics := data.categoryMetrics;
    assert forall c :: c in metrics ==> |metrics[c].yTrue| == |metrics[c].yPred| by {
      forall c | c in metrics ensures |metrics[c].yTrue| == |metrics[c].yPred| {
        ByCategoryPartitions(data.yTrue, data.yPred, cats);
        CategoryListsNonEmpty(data.yTrue, data.yPred, cats, metrics, c);
      }
    }
    var categoryReport := map c | c in metrics :: Accuracy(metrics[c].yTrue, metrics[c].yPred);
    r := Ok(Report(totalAccuracy, categoryReport, data.mismatched));
  }

  /** Every pair comes from a category both sides annotate, so the two lists have equal length. */
  lemma PairsFromCommonCategories(g: Labels, p: Labels, t: (string, string, string))
    requires t in ReviewTriples(g, p)
    ensures t.0 in g && t.0 in p && t.1 == g[t.0] && t.2 == p[t.0]
  {
  }

  /** A review is listed as mismatched exactly when its category sets differ. */
  lemma {:induction false} MismatchedIffSymmetricDifference(golden: seq<Review>, pm: map<Id, Labels>, k: nat)
    requires k < |golden| && Scored(golden[k].id)
    ensures var r := golden[k];
      var g, p := GoldenOf(r).Keys, LabelsFor(pm, r.id.value).Keys;
      MismatchOf(r.id.value, GoldenOf(r), LabelsFor(pm, r.id.value)).Some? <==> (g - p) + (p - g) != {}
    ensures var r := golden[k];
      var g, p := GoldenOf(r).Keys, LabelsFor(pm, r.id.value).Keys;
      (g - p) + (p - g) != {} ==> Mismatch(r.id.value, g - p, p - g) in MismatchesOf(golden, pm)
  {
    var r := golden[k];
    var init := golden[..|golden| - 1];
    if k < |init| {
      assert init[k] == r;
      MismatchedIffSymmetricDifference(init, pm, k);
    }
  }

  /** Reviews with a missing or falsy id never appear among the mismatched ones. */
  lemma {:induction false} MismatchesHaveScoredIds(golden: seq<Review>, pm: map<Id, Labels>, m: Mismatch)
    requires m in MismatchesOf(golden, pm)
    ensures TruthyId(m.reviewId) && exists k :: 0 <= k < |golden| && golden[k].id == Some(m.reviewId)
    ensures m.unpredictedInGolden != {} || m.extraPredicted != {}
  {
    var init := golden[..|golden| - 1];
    var r := golden[|golden| - 1];
    if m in MismatchesOf(init, pm) {
      MismatchesHaveScoredIds(init, pm, m);
      var k :| 0 <= k < |init| && init[k].id == Some(m.reviewId);
      assert golden[k] == init[k];
    } else {
      assert r.id == Some(m.reviewId);
    }
  }
}
