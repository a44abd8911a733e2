/**
 * The product comparison chart: between one and four distinct products are compared
 * at any time.
 */
module ProductComparison {
  import Seqs
  import opened UnifiedFiltersContext

  const MaxCompared: nat := 4

  class Comparison {
    var selected: seq<string>

    /** One to four products, none twice. */
    ghost predicate Valid()
      reads this
    {
      1 <= |selected| <= MaxCompared && Seqs.NoDups(selected)
    }

    constructor ()
      ensures selected == ["credit-cards", "debit-cards"] && Valid()
    {
      selected := ["credit-cards", "debit-cards"];
    }

    /** `addProduct`: only a product not yet compared, and only while fewer than four are. */
    method AddProduct(product: string)
      requires Valid()
      modifies this
      ensures Valid()
      ensures selected == if product !in old(selected) && |old(selected)| < MaxCompared
                          then old(selected) + [product] else old(selected)
    {
      if product !in selected && |selected| < MaxCompared {
        selected := selected + [product];
      }
    }

    /** `removeProduct`: never removes the last product. */
    method RemoveProduct(product: string)
      requires Valid()
      modifies this
      ensures Valid()
      ensures selected == if |old(selected)| > 1 then Seqs.Remove(old(selected), product) else old(selected)
    {
      if |selected| > 1 {
        Seqs.RemoveLengthNoDups(selected, product);
        Seqs.RemoveKeepsNoDups(selected, product);
        selected := Seqs.Remove(selected, product);
      }
    }

    /** `availableToAdd`: the available products not already compared, in list order. */
    function AvailableToAdd(available: seq<ProductOption>): (r: seq<ProductOption>)
      reads this
      ensures forall p :: p in r <==> p in available && p.value !in selected
      ensures forall p :: multiset(r)[p] == if p.value in selected then 0 else multiset(available)[p]
      ensures Seqs.Subseq(r, available)
      ensures |r| <= |available|
    {
      Seqs.RemoveByKey(available, (p: ProductOption) => p.value, selected)
    }
  }
}
