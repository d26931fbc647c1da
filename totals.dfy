/**
 * `getTotal`: a `reduce` over the order's item ids that adds, for each id,
 * the price of the first catalog entry with that id (`product?.price || 0`).
 */
module Totals {
  import opened Wrappers
  import opened Types
  import opened Lookup

  /** `product?.price || 0`: a missing product, a null price and a zero price all give 0. */
  function PriceOrZero(p: Option<ProductItem>): (r: nat)
    ensures r > 0 ==> p.Some? && p.value.price == Some(r)
    ensures p.Some? && p.value.price.Some? ==> r == p.value.price.value
  {
    match p
    case None => 0
    case Some(item) => match item.price { case None => 0 case Some(n) => n }
  }

  /** What one order item id contributes to the total. */
  function ItemPrice(catalog: seq<ProductItem>, id: string): nat
  {
    PriceOrZero(FindById(catalog, id))
  }

  /** The reference sum: item prices added up from the first id to the last. */
  function SumPrices(catalog: seq<ProductItem>, items: seq<string>): nat
  {
    if items == [] then 0 else ItemPrice(catalog, items[0]) + SumPrices(catalog, items[1..])
  }

  /** The `reduce` itself: a left fold with accumulator `acc`; it equals `acc` plus the sum. */
  function FoldTotal(catalog: seq<ProductItem>, acc: int, items: seq<string>): (r: int)
    ensures r == acc + SumPrices(catalog, items)
    decreases items
  {
    if items == [] then acc
    else FoldTotal(catalog, acc + ItemPrice(catalog, items[0]), items[1..])
  }

  /** An id contributes the price of the FIRST catalog entry carrying it, or 0 when it has none. */
  lemma ItemPriceIsFirstMatch(catalog: seq<ProductItem>, id: string, k: nat)
    requires k < |catalog| && catalog[k].id == id
    requires forall j :: 0 <= j < k ==> catalog[j].id != id
    ensures ItemPrice(catalog, id) == match catalog[k].price { case None => 0 case Some(n) => n }
  {
    assert FindIndexById(catalog, id) == k;
  }

  /** An id with no catalog entry contributes nothing. */
  lemma ItemPriceOfUnknownId(catalog: seq<ProductItem>, id: string)
    requires forall j :: 0 <= j < |catalog| ==> catalog[j].id != id
    ensures ItemPrice(catalog, id) == 0
  {
  }

  /** Appending ids adds their sum. */
  lemma {:induction false} SumAppend(catalog: seq<ProductItem>, a: seq<string>, b: seq<string>)
    ensures SumPrices(catalog, a + b) == SumPrices(catalog, a) + SumPrices(catalog, b)
  {
    if a != [] {
      assert (a + b)[1..] == a[1..] + b;
      SumAppend(catalog, a[1..], b);
    } else {
      assert a + b == b;
    }
  }

  /** Removing the id at `i` subtracts exactly its price. */
  lemma {:induction false} SumRemoveAt(catalog: seq<ProductItem>, s: seq<string>, i: nat)
    requires i < |s|
    ensures SumPrices(catalog, s) == SumPrices(catalog, RemoveAt(s, i)) + ItemPrice(catalog, s[i])
  {
    assert s == s[..i] + [s[i]] + s[i + 1..];
    SumAppend(catalog, s[..i] + [s[i]], s[i + 1..]);
    SumAppend(catalog, s[..i], [s[i]]);
    SumAppend(catalog, s[..i], s[i + 1..]);
    assert SumPrices(catalog, [s[i]]) == ItemPrice(catalog, s[i]) by {
      assert [s[i]][1..] == [];
    }
  }

  /** The total depends only on which ids the order holds, and how often, not on their order. */
  lemma {:induction false} SumPermutation(catalog: seq<ProductItem>, a: seq<string>, b: seq<string>)
    requires multiset(a) == multiset(b)
    ensures SumPrices(catalog, a) == SumPrices(catalog, b)
    decreases |a|
  {
    if a == [] {
      assert |b| == |multiset(b)| == 0;
    } else {
      assert a[0] in multiset(b);
      var i := IndexOf(b, a[0]);
      var b' := RemoveAt(b, i);
      assert a == [a[0]] + a[1..];
      assert multiset(a[1..]) == multiset(a) - multiset{a[0]};
      SumPermutation(catalog, a[1..], b');
      SumRemoveAt(catalog, b, i);
    }
  }
}
