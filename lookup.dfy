/**
 * The array built-ins the state classes use: `indexOf`, `findIndex` and
 * `find` by product id, and `splice(index, 1)`.
 */
module Lookup {
  import opened Wrappers
  import opened Types

  /** `s.indexOf(x)`: the first position holding `x`, or -1. */
  function IndexOf<T(==)>(s: seq<T>, x: T): (r: int)
    ensures -1 <= r < |s|
    ensures r == -1 <==> x !in s
    ensures 0 <= r ==> s[r] == x && x !in s[..r]
  {
    if s == [] then -1
    else if s[0] == x then 0
    else
      var k := IndexOf(s[1..], x);
      assert s[1..][..if k < 0 then 0 else k] == s[1..1 + if k < 0 then 0 else k];
      if k == -1 then -1 else k + 1
  }

  /** `s.findIndex(item => item.id === id)`: the first position with that id, or -1. */
  function FindIndexById(s: seq<ProductItem>, id: string): (r: int)
    ensures -1 <= r < |s|
    ensures r == -1 <==> forall i :: 0 <= i < |s| ==> s[i].id != id
    ensures 0 <= r ==> s[r].id == id && forall j :: 0 <= j < r ==> s[j].id != id
  {
    if s == [] then -1
    else if s[0].id == id then 0
    else
      var k := FindIndexById(s[1..], id);
      if k == -1 then -1 else k + 1
  }

  /** `s.find(item => item.id === id)`: the first item with that id, if any. */
  function FindById(s: seq<ProductItem>, id: string): (r: Option<ProductItem>)
    ensures r == None <==> forall i :: 0 <= i < |s| ==> s[i].id != id
    ensures r.Some? ==> r.value in s && r.value.id == id
    ensures r.Some? ==> exists k :: 0 <= k < |s| && r.value == s[k] && forall j :: 0 <= j < k ==> s[j].id != id
  {
    var k := FindIndexById(s, id);
    if k == -1 then None else Some(s[k])
  }

  /** `s.splice(i, 1)` on a copy: the sequence without its element at `i`. */
  function RemoveAt<T>(s: seq<T>, i: nat): (r: seq<T>)
    requires i < |s|
    ensures |r| == |s| - 1
    ensures forall j :: 0 <= j < i ==> r[j] == s[j]
    ensures forall j :: i <= j < |r| ==> r[j] == s[j + 1]
    ensures multiset(r) == multiset(s) - multiset{s[i]}
  {
    assert s == s[..i] + [s[i]] + s[i + 1..];
    s[..i] + s[i + 1..]
  }

  /** No two items share an id. */
  predicate DistinctIds(s: seq<ProductItem>)
  {
    forall i, j :: 0 <= i < j < |s| ==> s[i].id != s[j].id
  }

  /** Appending an item whose id is absent keeps the ids distinct. */
  lemma AppendAbsentKeepsDistinct(s: seq<ProductItem>, p: ProductItem)
    requires DistinctIds(s)
    requires FindIndexById(s, p.id) == -1
    ensures DistinctIds(s + [p])
  {
  }

  /** Removing one element keeps the ids distinct. */
  lemma RemoveAtKeepsDistinct(s: seq<ProductItem>, i: nat)
    requires DistinctIds(s) && i < |s|
    ensures DistinctIds(RemoveAt(s, i))
  {
  }

  /** With distinct ids, removing the first item with an id removes every item with it. */
  lemma RemoveFoundLeavesNone(s: seq<ProductItem>, id: string)
    requires DistinctIds(s)
    requires FindIndexById(s, id) >= 0
    ensures FindIndexById(RemoveAt(s, FindIndexById(s, id)), id) == -1
  {
  }
}
