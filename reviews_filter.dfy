/**
 * The filter panel of the reviews page. It keeps its own selection, separate from the
 * shared filter store: a search text and four independently toggled lists.
 */
module ReviewsFilter {
  import Seqs

  class ReviewsFilterPanel {
    var searchText: string
    var aspects: seq<string>
    var sentiments: seq<string>
    var products: seq<string>
    var sources: seq<string>

    constructor ()
      ensures searchText == "" && aspects == [] && sentiments == [] && products == [] && sources == []
    {
      searchText := "";
      aspects := [];
      sentiments := [];
      products := [];
      sources := [];
    }

    /** `activeFiltersCount`: one per selected item, one for a non-empty search text. */
    function ActiveFiltersCount(): (n: nat)
      reads this
      ensures n == 0 <==> searchText == "" && aspects == [] && sentiments == [] && products == [] && sources == []
      ensures n >= |aspects| + |sentiments| + |products| + |sources|
    {
      |aspects| + |sentiments| + |products| + |sources| + (if searchText != "" then 1 else 0)
    }

    /** Typing in the search box. */
    method SetSearchText(text: string)
      modifies this`searchText
      ensures searchText == text
    {
      searchText := text;
    }

    /** `toggleAspect`; the frame keeps the other lists as they were. */
    method ToggleAspect(aspect: string)
      modifies this`aspects
      ensures aspects == Seqs.Toggle(old(aspects), aspect)
      ensures aspect in aspects <==> aspect !in old(aspects)
    {
      Seqs.ToggleMembership(aspects, aspect);
      aspects := if aspect in aspects then Seqs.Remove(aspects, aspect) else aspects + [aspect];
    }

    /** `toggleSentiment` */
    method ToggleSentiment(sentiment: string)
      modifies this`sentiments
      ensures sentiments == Seqs.Toggle(old(sentiments), sentiment)
      ensures sentiment in sentiments <==> sentiment !in old(sentiments)
    {
      Seqs.ToggleMembership(sentiments, sentiment);
      sentiments := if sentiment in sentiments then Seqs.Remove(sentiments, sentiment) else sentiments + [sentiment];
    }

    /** `toggleProduct` */
    method ToggleProduct(product: string)
      modifies this`products
      ensures products == Seqs.Toggle(old(products), product)
      ensures product in products <==> product !in old(products)
    {
      Seqs.ToggleMembership(products, product);
      products := if product in products then Seqs.Remove(products, product) else products + [product];
    }

    /** `toggleSource` */
    method ToggleSource(source: string)
      modifies this`sources
      ensures sources == Seqs.Toggle(old(sources), source)
      ensures source in sources <==> source !in old(sources)
    {
      Seqs.ToggleMembership(sources, source);
      sources := if source in sources then Seqs.Remove(sources, source) else sources + [source];
    }

    /** `clearAllFilters`: afterwards nothing is counted as active. */
    method ClearAllFilters()
      modifies this
      ensures searchText == "" && aspects == [] && sentiments == [] && products == [] && sources == []
      ensures ActiveFiltersCount() == 0
    {
      searchText := "";
      aspects := [];
      sentiments := [];
      products := [];
      sources := [];
    }
  }
}
