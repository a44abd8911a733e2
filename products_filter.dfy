/**
 * The products widget: single-product toggles, clearing, the select-all / deselect-all
 * switch of a category, the button caption, and the list of categories.
 */
module ProductsFilter {
  import opened Wrappers
  import Seqs
  import Strings
  import opened UnifiedFiltersContext

  /** `toggleProduct` */
  method ToggleProduct(store: UnifiedFilters, product: string)
    modifies store
    ensures store.state == old(store.state).(products := Seqs.Toggle(old(store.state).products, product))
  {
    var current := store.state.products;
    var next := if product in current then Seqs.Remove(current, product) else current + [product];
    store.SetProducts(next);
  }

  /** `clearProducts` */
  method ClearProducts(store: UnifiedFilters)
    modifies store
    ensures store.state == old(store.state).(products := [])
  {
    store.SetProducts([]);
  }

  /** The values of the available products in `category`, in list order. */
  function CategoryProducts(available: seq<ProductOption>, category: string): (r: seq<string>)
    ensures forall v :: v in r <==> exists p :: p in available && p.category == category && p.value == v
  {
    if available == [] then []
    else
      var rest := CategoryProducts(available[..|available| - 1], category);
      var last := available[|available| - 1];
      assert available == available[..|available| - 1] + [last];
      if last.category == category then rest + [last.value] else rest
  }

  /** Filtering a single product keeps its value exactly when it is in `category`. */
  lemma CategoryProductsSingleton(p: ProductOption, category: string)
    ensures CategoryProducts([p], category) == if p.category == category then [p.value] else []
  {
    assert [p][..0] == [];
  }

  /**
   * Filtering distributes over concatenation: the values keep the list order and
   * occur once per matching product.
   */
  lemma {:induction false} CategoryProductsAppend(a: seq<ProductOption>, b: seq<ProductOption>, category: string)
    ensures CategoryProducts(a + b, category) == CategoryProducts(a, category) + CategoryProducts(b, category)
    decreases |b|
  {
    if b == [] {
      assert a + b == a;
    } else {
      var init := b[..|b| - 1];
      var last := b[|b| - 1];
      assert (a + b)[..|a + b| - 1] == a + init;
      assert (a + b)[|a + b| - 1] == last;
      CategoryProductsAppend(a, init, category);
    }
  }

  predicate AllSelected(selected: seq<string>, categoryProducts: seq<string>) {
    forall p :: p in categoryProducts ==> p in selected
  }

  /** The products list `selectAllInCategory` writes. */
  function SelectAllInCategoryResult(selected: seq<string>, categoryProducts: seq<string>): (r: seq<string>)
    ensures AllSelected(selected, categoryProducts) ==>
      (forall v :: v in r <==> v in selected && v !in categoryProducts)
      && Seqs.Subseq(r, selected)
      && forall v :: multiset(r)[v] == if v in categoryProducts then 0 else multiset(selected)[v]
    ensures !AllSelected(selected, categoryProducts) ==>
      Seqs.NoDups(r) && AllSelected(r, categoryProducts)
      && forall v :: v in r <==> v in selected || v in categoryProducts
  {
    if AllSelected(selected, categoryProducts) then
      Seqs.RemoveAllSubseq(selected, categoryProducts);
      forall v ensures multiset(Seqs.RemoveAll(selected, categoryProducts))[v]
                       == if v in categoryProducts then 0 else multiset(selected)[v] {
        Seqs.RemoveAllCounts(selected, categoryProducts, v);
      }
      Seqs.RemoveAll(selected, categoryProducts)
    else Seqs.Dedup(selected + categoryProducts)
  }

  /** `selectAllInCategory` */
  method SelectAllInCategory(store: UnifiedFilters, available: seq<ProductOption>, category: string)
    modifies store
    ensures store.state == old(store.state).(products :=
      SelectAllInCategoryResult(old(store.state).products, CategoryProducts(available, category)))
  {
    var categoryProducts := CategoryProducts(available, category);
    var current := store.state.products;
    if forall p :: p in categoryProducts ==> p in current {
      store.SetProducts(Seqs.RemoveAll(current, categoryProducts));
    } else {
      store.SetProducts(Seqs.Dedup(current + categoryProducts));
    }
  }

  /** Adding a partly selected category keeps the existing selection, in order, in front. */
  lemma SelectAllKeepsExistingFirst(selected: seq<string>, categoryProducts: seq<string>)
    requires Seqs.NoDups(selected) && !AllSelected(selected, categoryProducts)
    ensures var r := SelectAllInCategoryResult(selected, categoryProducts);
      |selected| <= |r| && r[..|selected|] == selected
  {
    Seqs.DedupPrefix(selected, categoryProducts);
    Seqs.DedupOfNoDups(selected);
  }

  /** A second click on the same category deselects what the first click selected. */
  lemma SelectAllTwiceDeselects(selected: seq<string>, categoryProducts: seq<string>)
    requires !AllSelected(selected, categoryProducts)
    ensures var once := SelectAllInCategoryResult(selected, categoryProducts);
      var twice := SelectAllInCategoryResult(once, categoryProducts);
      forall v :: v in twice <==> v in selected && v !in categoryProducts
  {
  }

  /** Deselecting a fully selected category leaves a list without duplicates if it had none. */
  lemma DeselectKeepsNoDups(selected: seq<string>, categoryProducts: seq<string>)
    requires Seqs.NoDups(selected) && AllSelected(selected, categoryProducts)
    ensures Seqs.NoDups(SelectAllInCategoryResult(selected, categoryProducts))
  {
    Seqs.RemoveAllKeepsNoDups(selected, categoryProducts);
  }

  /** `getSelectedProductsText` */
  function SelectedProductsText(selected: seq<string>, available: seq<ProductOption>): (r: string)
    ensures |selected| == 0 ==> r == "Все продукты"
    ensures |selected| == 1 ==>
      var found := Seqs.FindFirst(available, (p: ProductOption) => p.value, selected[0]);
      r == if found.Some? && found.value.title != "" then found.value.title else "1 продукт"
    ensures |selected| > 1 ==> r == Strings.NatToString(|selected|) + " продуктов"
  {
    if |selected| == 0 then "Все продукты"
    else if |selected| == 1 then
      var found := Seqs.FindFirst(available, (p: ProductOption) => p.value, selected[0]);
      if found.Some? && found.value.title != "" then found.value.title else "1 продукт"
    else Strings.NatToString(|selected|) + " продуктов"
  }

  function CategoriesInOrder(available: seq<ProductOption>): (r: seq<string>)
    ensures |r| == |available| && forall i :: 0 <= i < |r| ==> r[i] == available[i].category
  {
    seq(|available|, i requires 0 <= i < |available| => available[i].category)
  }

  /** `[...new Set(availableProducts.map(p => p.category))]` */
  function Categories(available: seq<ProductOption>): (r: seq<string>)
    ensures Seqs.NoDups(r)
    ensures forall c :: c in r <==> exists p :: p in available && p.category == c
  {
    var all := CategoriesInOrder(available);
    assert forall c :: c in all <==> exists p :: p in available && p.category == c by {
      forall c | c in all ensures exists p :: p in available && p.category == c {
        var i :| 0 <= i < |all| && all[i] == c;
        assert available[i] in available;
      }
      forall c | exists p :: p in available && p.category == c ensures c in all {
        var p :| p in available && p.category == c;
        var i :| 0 <= i < |available| && available[i] == p;
        assert all[i] == c;
      }
    }
    Seqs.Dedup(all)
  }

  /** Categories are listed in the order in which they first occur among the products. */
  lemma CategoriesFirstAppearanceOrder(available: seq<ProductOption>, i: nat, j: nat)
    requires i < j < |Categories(available)|
    ensures var all := CategoriesInOrder(available);
      Seqs.FirstIndex(all, Categories(available)[i]) < Seqs.FirstIndex(all, Categories(available)[j])
  {
    Seqs.DedupFirstAppearanceOrder(CategoriesInOrder(available), i, j);
  }
}
