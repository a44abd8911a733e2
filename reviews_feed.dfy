/**
 * The reviews feed: a sorted copy of the reviews, shown ten at a time.
 */
module ReviewsFeed {
  import Sorting

  /** The sort orders of the drop-down; any other value keeps the original order. */
  datatype SortKey = DateDesc | DateAsc | SentimentDesc | SentimentAsc | ScoreDesc | ScoreAsc | Other(name: string)

  /** The fields sorting looks at: the timestamp of the review date and the model score. */
  datatype FeedReview = FeedReview(id: string, timestamp: int, score: real)

  /**
   * The comparator `(a, b) => Rank(a) - Rank(b)`: ascending keys as they are, descending
   * keys negated, and a constant for an unknown key (the comparator returns 0).
   * The "sentiment" orders compare the score, exactly like the "score" orders.
   */
  function Rank(r: FeedReview, order: SortKey): real {
    match order
    case DateDesc => -(r.timestamp as real)
    case DateAsc => r.timestamp as real
    case SentimentDesc => -r.score
    case SentimentAsc => r.score
    case ScoreDesc => -r.score
    case ScoreAsc => r.score
    case Other(_) => 0.0
  }

  function KeyOf(order: SortKey): FeedReview -> real {
    r => Rank(r, order)
  }

  /** `[...reviews].sort(comparator)`: a stable sort of a copy; the input is left as it is. */
  function SortReviews(reviews: seq<FeedReview>, order: SortKey): (r: seq<FeedReview>)
    ensures |r| == |reviews| && multiset(r) == multiset(reviews)
    ensures forall i, j :: 0 <= i < j < |r| ==> Rank(r[i], order) <= Rank(r[j], order)
  {
    Sorting.SortPermutes(reviews, KeyOf(order));
    Sorting.Sort(reviews, KeyOf(order))
  }

  /** With an unknown key every comparison is 0, and the stable sort keeps the input order. */
  lemma UnknownKeyKeepsOrder(reviews: seq<FeedReview>, name: string)
    ensures SortReviews(reviews, Other(name)) == reviews
  {
    Sorting.EqualKeysKeepOrder(reviews, KeyOf(Other(name)));
  }

  /** "Newest first" puts a later review before an earlier one; "oldest first" the reverse. */
  lemma DateOrders(reviews: seq<FeedReview>, i: nat, j: nat)
    requires i < j < |reviews|
    ensures SortReviews(reviews, DateDesc)[i].timestamp >= SortReviews(reviews, DateDesc)[j].timestamp
    ensures SortReviews(reviews, DateAsc)[i].timestamp <= SortReviews(reviews, DateAsc)[j].timestamp
  {
    assert Rank(SortReviews(reviews, DateDesc)[i], DateDesc) <= Rank(SortReviews(reviews, DateDesc)[j], DateDesc);
    assert Rank(SortReviews(reviews, DateAsc)[i], DateAsc) <= Rank(SortReviews(reviews, DateAsc)[j], DateAsc);
  }

  /** The "sentiment" orders are the "score" orders under another name. */
  lemma SentimentOrdersAreScoreOrders(reviews: seq<FeedReview>)
    ensures SortReviews(reviews, SentimentDesc) == SortReviews(reviews, ScoreDesc)
    ensures SortReviews(reviews, SentimentAsc) == SortReviews(reviews, ScoreAsc)
  {
    Sorting.SameKeysSameSort(reviews, KeyOf(SentimentDesc), KeyOf(ScoreDesc));
    Sorting.SameKeysSameSort(reviews, KeyOf(SentimentAsc), KeyOf(ScoreAsc));
  }

  function Min(a: int, b: int): int { if a <= b then a else b }

  const PageSize: nat := 10

  class Feed {
    const reviews: seq<FeedReview>
    var sortBy: SortKey
    var displayLimit: nat

    constructor (reviews: seq<FeedReview>)
      ensures this.reviews == reviews && sortBy == DateDesc && displayLimit == PageSize
    {
      this.reviews := reviews;
      sortBy := DateDesc;
      displayLimit := PageSize;
    }

    /** `sortedReviews.slice(0, displayLimit)`: the first reviews of the sorted copy. */
    function Displayed(): (r: seq<FeedReview>)
      reads this
      ensures |r| == Min(displayLimit, |reviews|)
      ensures r <= SortReviews(reviews, sortBy)
    {
      var sorted := SortReviews(reviews, sortBy);
      sorted[..Min(displayLimit, |sorted|)]
    }

    /** The "load more" button: shown while some review is not displayed. */
    predicate ShowLoadMore()
      reads this
      ensures ShowLoadMore() <==> |Displayed()| < |reviews|
    {
      displayLimit < |reviews|
    }

    /** The "all loaded" note: every review is displayed, and there were more than one page. */
    predicate ShowAllLoaded()
      reads this
      ensures ShowAllLoaded() <==> |Displayed()| == |reviews| && |reviews| > PageSize
    {
      displayLimit >= |reviews| && |reviews| > PageSize
    }

    method SetSortBy(order: SortKey)
      modifies this`sortBy
      ensures sortBy == order
    {
      sortBy := order;
    }

    /** `loadMore`: one more page. */
    method LoadMore()
      modifies this`displayLimit
      ensures displayLimit == old(displayLimit) + PageSize
      ensures |Displayed()| == Min(old(|Displayed()|) + PageSize, |reviews|)
    {
      displayLimit := displayLimit + PageSize;
    }
  }
}
