/** The shop page (`src/pages/ShopPage.tsx`): the sort selector, the filter
    drawer flag, and `sortedProducts`, a sort of a copy of the catalog with
    the comparator the selector picks. `Array.prototype.sort` is stable, so
    the sort is modelled as a stable insertion sort over that comparator. */
module Shop {
  import opened Catalog
  import Seqs

  const DefaultSort: string := "featured"
  const PriceLowHigh: string := "price-low-high"
  const PriceHighLow: string := "price-high-low"

  /** The comparator passed to `sort`: a negative result puts `a` first. */
  function Compare(sortBy: string, a: Product, b: Product): int {
    if sortBy == PriceLowHigh then a.price - b.price
    else if sortBy == PriceHighLow then b.price - a.price
    else 0
  }

  /** The number the comparator compares: ascending price, descending price,
      or nothing at all. */
  function Rank(sortBy: string, p: Product): (k: int)
    ensures sortBy == PriceLowHigh ==> k == p.price
    ensures sortBy == PriceHighLow ==> k == -p.price
    ensures sortBy != PriceLowHigh && sortBy != PriceHighLow ==> k == 0
  {
    if sortBy == PriceLowHigh then p.price
    else if sortBy == PriceHighLow then -p.price
    else 0
  }

  /** The comparator is the difference of the ranks. */
  lemma CompareIsRankDifference(sortBy: string, a: Product, b: Product)
    ensures Compare(sortBy, a, b) == Rank(sortBy, a) - Rank(sortBy, b)
  {
  }

  predicate SortedBy(sortBy: string, s: seq<Product>) {
    forall i, j :: 0 <= i < j < |s| ==> Rank(sortBy, s[i]) <= Rank(sortBy, s[j])
  }

  /** Puts `x` in front of the first element it does not compare above. */
  function Insert(sortBy: string, x: Product, r: seq<Product>): (t: seq<Product>)
    ensures multiset(t) == multiset(r) + multiset{x}
    ensures forall y :: y in t <==> y == x || y in r
  {
    if r == [] then [x]
    else if Compare(sortBy, x, r[0]) <= 0 then [x] + r
    else
      assert r == [r[0]] + r[1..];
      [r[0]] + Insert(sortBy, x, r[1..])
  }

  lemma {:induction false} InsertKeepsSorted(sortBy: string, x: Product, r: seq<Product>)
    requires SortedBy(sortBy, r)
    ensures SortedBy(sortBy, Insert(sortBy, x, r))
  {
    if r != [] {
      CompareIsRankDifference(sortBy, x, r[0]);
      if Compare(sortBy, x, r[0]) > 0 {
        var tail := r[1..];
        assert SortedBy(sortBy, tail) by {
          forall i, j | 0 <= i < j < |tail| ensures Rank(sortBy, tail[i]) <= Rank(sortBy, tail[j]) {
            assert tail[i] == r[i + 1] && tail[j] == r[j + 1];
          }
        }
        InsertKeepsSorted(sortBy, x, tail);
        forall y | y in tail ensures Rank(sortBy, r[0]) <= Rank(sortBy, y) {
          var k :| 0 <= k < |tail| && tail[k] == y;
          assert r[k + 1] == y;
        }
        ConsKeepsSorted(sortBy, r[0], Insert(sortBy, x, tail));
      } else {
        ConsKeepsSorted(sortBy, x, r);
      }
    }
  }

  /** Putting in front an element that ranks no higher than any other keeps
      a sorted list sorted. */
  lemma ConsKeepsSorted(sortBy: string, y: Product, r: seq<Product>)
    requires SortedBy(sortBy, r)
    requires forall z :: z in r ==> Rank(sortBy, y) <= Rank(sortBy, z)
    ensures SortedBy(sortBy, [y] + r)
  {
    var t := [y] + r;
    forall i, j | 0 <= i < j < |t| ensures Rank(sortBy, t[i]) <= Rank(sortBy, t[j]) {
      assert t[j] == r[j - 1];
      if i > 0 {
        assert t[i] == r[i - 1];
      } else {
        assert t[j] in r;
      }
    }
  }

  /** The sort: each element is inserted ahead of the already sorted ones
      that follow it in the input. */
  function Sort(sortBy: string, s: seq<Product>): (r: seq<Product>)
    ensures multiset(r) == multiset(s)
    ensures SortedBy(sortBy, r)
  {
    if s == [] then []
    else
      assert s == [s[0]] + s[1..];
      InsertKeepsSorted(sortBy, s[0], Sort(sortBy, s[1..]));
      Insert(sortBy, s[0], Sort(sortBy, s[1..]))
  }

  /** The page's `sortedProducts`. */
  function SortedProducts(catalog: seq<Product>, sortBy: string): seq<Product> {
    Sort(sortBy, catalog)
  }

  /** "Price: Low to High" lists prices in non-decreasing order, "High to
      Low" in non-increasing order; both are permutations of the catalog. */
  lemma PriceOrders(catalog: seq<Product>)
    ensures var r := SortedProducts(catalog, PriceLowHigh);
            multiset(r) == multiset(catalog)
            && forall i, j :: 0 <= i < j < |r| ==> r[i].price <= r[j].price
    ensures var r := SortedProducts(catalog, PriceHighLow);
            multiset(r) == multiset(catalog)
            && forall i, j :: 0 <= i < j < |r| ==> r[i].price >= r[j].price
  {
    var lo := SortedProducts(catalog, PriceLowHigh);
    var hi := SortedProducts(catalog, PriceHighLow);
    assert forall i, j :: 0 <= i < j < |lo| ==> Rank(PriceLowHigh, lo[i]) <= Rank(PriceLowHigh, lo[j]);
    assert forall i, j :: 0 <= i < j < |hi| ==> Rank(PriceHighLow, hi[i]) <= Rank(PriceHighLow, hi[j]);
  }

  /** Any other key, the default included, keeps the catalog order. */
  lemma {:induction false} OtherKeysKeepOrder(catalog: seq<Product>, sortBy: string)
    requires sortBy != PriceLowHigh && sortBy != PriceHighLow
    ensures SortedProducts(catalog, sortBy) == catalog
  {
    if catalog != [] {
      OtherKeysKeepOrder(catalog[1..], sortBy);
      assert catalog == [catalog[0]] + catalog[1..];
    }
  }

  function RankIs(sortBy: string, v: int): Product -> bool {
    (p: Product) => Rank(sortBy, p) == v
  }

  function PriceIs(price: int): Product -> bool {
    (p: Product) => p.price == price
  }

  /** Inserting `x` adds it to the front of its own rank class and leaves
      every other rank class as it was. */
  lemma {:induction false} InsertKeepsRankClasses(sortBy: string, x: Product, r: seq<Product>, v: int)
    ensures Seqs.Filter(RankIs(sortBy, v), Insert(sortBy, x, r))
            == (if Rank(sortBy, x) == v then [x] else []) + Seqs.Filter(RankIs(sortBy, v), r)
  {
    var p := RankIs(sortBy, v);
    var t := Insert(sortBy, x, r);
    if r == [] {
    } else if Compare(sortBy, x, r[0]) <= 0 {
      assert t[0] == x && t[1..] == r;
    } else {
      InsertKeepsRankClasses(sortBy, x, r[1..], v);
      assert t[0] == r[0] && t[1..] == Insert(sortBy, x, r[1..]);
      if Rank(sortBy, x) == v {
        // r[0] compares below x, so it is not in x's class
        assert !p(r[0]);
      }
    }
  }

  /** Stability: within each rank class the sort keeps the input order. */
  lemma {:induction false} SortIsStable(sortBy: string, s: seq<Product>, v: int)
    ensures Seqs.Filter(RankIs(sortBy, v), Sort(sortBy, s)) == Seqs.Filter(RankIs(sortBy, v), s)
  {
    if s != [] {
      SortIsStable(sortBy, s[1..], v);
      InsertKeepsRankClasses(sortBy, s[0], Sort(sortBy, s[1..]), v);
    }
  }

  /** Products that cost the same keep their catalog order under every key. */
  lemma EqualPricesKeepCatalogOrder(catalog: seq<Product>, sortBy: string, price: int)
    ensures Seqs.Filter(PriceIs(price), SortedProducts(catalog, sortBy)) == Seqs.Filter(PriceIs(price), catalog)
  {
    var r := SortedProducts(catalog, sortBy);
    if sortBy == PriceLowHigh || sortBy == PriceHighLow {
      var v := if sortBy == PriceLowHigh then price else -price;
      assert multiset(r) == multiset(catalog);
      assert forall x :: x in r ==> x in multiset(catalog);
      Seqs.FilterExt(RankIs(sortBy, v), PriceIs(price), r);
      Seqs.FilterExt(RankIs(sortBy, v), PriceIs(price), catalog);
      SortIsStable(sortBy, catalog, v);
    } else {
      OtherKeysKeepOrder(catalog, sortBy);
    }
  }

  class ShopPage {
    var isFilterOpen: bool
    var sortBy: string
    const catalog: seq<Product>

    constructor (catalog: seq<Product>)
      ensures !isFilterOpen && sortBy == DefaultSort && this.catalog == catalog
    {
      isFilterOpen := false;
      sortBy := DefaultSort;
      this.catalog := catalog;
    }

    method ToggleFilterDrawer()
      modifies this
      ensures isFilterOpen == !old(isFilterOpen) && sortBy == old(sortBy)
    {
      isFilterOpen := !isFilterOpen;
    }

    method HandleSortChange(value: string)
      modifies this
      ensures sortBy == value && isFilterOpen == old(isFilterOpen)
    {
      sortBy := value;
    }

    /** What the grid shows; the catalog itself is never reordered. */
    function Shown(): (r: seq<Product>)
      reads this
      ensures multiset(r) == multiset(catalog)
    {
      SortedProducts(catalog, sortBy)
    }
  }

  /** A fresh page lists the catalog as it is, and two presses of "Filter"
      leave the drawer as they found it. */
  method OpenAndCloseDrawer(catalog: seq<Product>) returns (page: ShopPage)
    ensures !page.isFilterOpen && page.Shown() == catalog
  {
    page := new ShopPage(catalog);
    page.ToggleFilterDrawer();
    page.ToggleFilterDrawer();
    OtherKeysKeepOrder(catalog, DefaultSort);
  }
}
