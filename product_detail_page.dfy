/** The product page (`src/pages/ProductDetailPage.tsx`): loading a product
    by id with its default size and colour, the quantity clamp, the related
    products, the FAQ accordion and the rating summary. The catalog is a
    parameter; the two mock reviews are the ones the effect installs. */
module ProductDetail {
  import opened Wrappers
  import opened Catalog
  import Seqs
  import Accordion

  datatype Review = Review(id: string, user: string, rating: int, comment: string, date: string)

  /** `mockProducts.find(p => p.id === id) || null`. */
  function Lookup(catalog: seq<Product>, id: string): (r: Option<Product>)
    ensures r.None? <==> forall p :: p in catalog ==> p.id != id
    ensures r.Some? ==> exists k :: 0 <= k < |catalog| && catalog[k] == r.value && r.value.id == id
                                     && forall j :: 0 <= j < k ==> catalog[j].id != id
  {
    if catalog == [] then None
    else if catalog[0].id == id then Some(catalog[0])
    else
      var r := Lookup(catalog[1..], id);
      if r.Some? then
        var k :| 0 <= k < |catalog[1..]| && catalog[1..][k] == r.value && r.value.id == id
                 && forall j :: 0 <= j < k ==> catalog[1..][j].id != id;
        assert catalog[k + 1] == r.value;
        r
      else
        r
  }

  /** `list?.[0] || null`: the first entry, unless the list is empty or the
      entry is the (falsy) empty string. */
  function DefaultSelection(s: seq<string>): (r: Option<string>)
    ensures r.Some? <==> |s| > 0 && s[0] != ""
    ensures r.Some? ==> r.value == s[0]
  {
    if |s| > 0 && s[0] != "" then Some(s[0]) else None
  }

  /** `product.stock || 10`: a stock of 0 is falsy and falls back to 10. */
  function Cap(stock: int): (c: int)
    ensures stock == 0 ==> c == 10
    ensures stock != 0 ==> c == stock
  {
    if stock != 0 then stock else 10
  }

  /** `Math.max(1, Math.min(cap, n))`. */
  function ClampQuantity(stock: int, n: int): (q: int)
    ensures q >= 1
    ensures Cap(stock) >= 1 ==> q <= Cap(stock)
    ensures 1 <= n <= Cap(stock) ==> q == n
    ensures n < 1 ==> q == 1
    ensures n > Cap(stock) ==> q == if Cap(stock) >= 1 then Cap(stock) else 1
  {
    var m := if Cap(stock) < n then Cap(stock) else n;
    if m < 1 then 1 else m
  }

  /** Clamping is idempotent once the cap is positive. */
  lemma ClampIdempotent(stock: int, n: int)
    requires Cap(stock) >= 1
    ensures ClampQuantity(stock, ClampQuantity(stock, n)) == ClampQuantity(stock, n)
  {
  }

  /** "First 4 different from current". */
  function RelatedProducts(catalog: seq<Product>, current: Product): seq<Product> {
    Seqs.Take(Seqs.Filter(NotCurrent(current.id), catalog), 4)
  }

  function NotCurrent(currentId: string): Product -> bool {
    (p: Product) => p.id != currentId
  }

  /** Related products are the first (at most four) products whose id is
      not the current one, in catalog order; another product is left out
      only when four are already shown. */
  lemma RelatedProductsShape(catalog: seq<Product>, current: Product)
    ensures var r := RelatedProducts(catalog, current);
            && |r| <= 4
            && r == Seqs.Filter(NotCurrent(current.id), catalog)[..|r|]
            && (forall p :: p in r ==> p.id != current.id && p in catalog)
            && Seqs.IsSubseq(r, catalog)
            && (forall p :: p in catalog && p.id != current.id && p !in r ==> |r| == 4)
  {
    var keep := NotCurrent(current.id);
    Seqs.TakeFilterIsSubseq(keep, catalog, 4);
    var f := Seqs.Filter(keep, catalog);
    var r := RelatedProducts(catalog, current);
    forall p | p in r ensures p.id != current.id && p in catalog {
      var k :| 0 <= k < |r| && r[k] == p;
      assert f[k] == p && f[k] in f;
      assert keep(p);
    }
  }

  /** `0` without reviews, otherwise the mean rating. */
  function AverageRating(reviews: seq<Review>): (avg: real)
    ensures reviews == [] ==> avg == 0.0
  {
    if |reviews| == 0 then 0.0 else (RatingSum(reviews) as real) / (|reviews| as real)
  }

  function RatingSum(reviews: seq<Review>): int {
    if reviews == [] then 0 else reviews[0].rating + RatingSum(reviews[1..])
  }

  lemma {:induction false} RatingSumBounds(reviews: seq<Review>, lo: int, hi: int)
    requires forall r :: r in reviews ==> lo <= r.rating <= hi
    ensures |reviews| * lo <= RatingSum(reviews) <= |reviews| * hi
  {
    if reviews != [] {
      assert forall r :: r in reviews[1..] ==> r in reviews;
      RatingSumBounds(reviews[1..], lo, hi);
      assert reviews[0] in reviews;
      MulStep(|reviews| - 1, lo);
      MulStep(|reviews| - 1, hi);
    }
  }

  lemma MulStep(n: int, x: int)
    ensures (n + 1) * x == n * x + x
  {
  }

  /** The mean of ratings within `[lo, hi]` stays within `[lo, hi]`. */
  lemma AverageWithinRatingRange(reviews: seq<Review>, lo: int, hi: int)
    requires reviews != []
    requires forall r :: r in reviews ==> lo <= r.rating <= hi
    ensures lo as real <= AverageRating(reviews) <= hi as real
  {
    RatingSumBounds(reviews, lo, hi);
    var n := |reviews| as real;
    var s := RatingSum(reviews) as real;
    assert n * (lo as real) <= s <= n * (hi as real);
    DivideBounds(s, n, lo as real, hi as real);
  }

  lemma DivideBounds(s: real, n: real, lo: real, hi: real)
    requires n > 0.0 && n * lo <= s <= n * hi
    ensures lo <= s / n <= hi
  {
    assert s / n * n == s;
  }

  const MockReviews: seq<Review> := [
    Review("r1", "John Doe", 5, "Great quality!", "2024-05-01"),
    Review("r2", "Jane Smith", 4, "Fits perfectly.", "2024-04-15")
  ]

  class ProductDetailPage {
    var product: Option<Product>
    var loading: bool
    var selectedSize: Option<string>
    var selectedColor: Option<string>
    var quantity: int
    var reviews: seq<Review>
    var faqOpenIndex: Option<int>
    const catalog: seq<Product>

    constructor (catalog: seq<Product>)
      ensures product == None && loading && selectedSize == None && selectedColor == None
      ensures quantity == 1 && reviews == [] && faqOpenIndex == None && this.catalog == catalog
    {
      product := None;
      loading := true;
      selectedSize := None;
      selectedColor := None;
      quantity := 1;
      reviews := [];
      faqOpenIndex := None;
      this.catalog := catalog;
    }

    /** The effect run for route parameter `id`. A missing product leaves the
        previous selections in place. */
    method LoadProduct(id: string)
      modifies this
      ensures product == Lookup(catalog, id) && reviews == MockReviews && !loading
      ensures product.Some? ==> selectedSize == DefaultSelection(product.value.sizes)
                                && selectedColor == DefaultSelection(product.value.colors)
      ensures product.None? ==> selectedSize == old(selectedSize) && selectedColor == old(selectedColor)
      ensures quantity == old(quantity) && faqOpenIndex == old(faqOpenIndex)
    {
      var found := Lookup(catalog, id);
      product := found;
      reviews := MockReviews;
      loading := false;
      if found.Some? {
        selectedSize := DefaultSelection(found.value.sizes);
        selectedColor := DefaultSelection(found.value.colors);
      }
    }

    /** The quantity input's `onChange`, rendered only once a product shows. */
    method ChangeQuantity(n: int)
      requires product.Some?
      modifies this
      ensures quantity == ClampQuantity(old(product).value.stock, n)
      ensures product == old(product) && selectedSize == old(selectedSize)
      ensures selectedColor == old(selectedColor) && faqOpenIndex == old(faqOpenIndex)
    {
      quantity := ClampQuantity(product.value.stock, n);
    }

    method SelectSize(size: string)
      modifies this
      ensures selectedSize == Some(size) && selectedColor == old(selectedColor) && quantity == old(quantity)
    {
      selectedSize := Some(size);
    }

    method SelectColor(color: string)
      modifies this
      ensures selectedColor == Some(color) && selectedSize == old(selectedSize) && quantity == old(quantity)
    {
      selectedColor := Some(color);
    }

    method ToggleFaq(index: int)
      modifies this
      ensures faqOpenIndex == Accordion.Toggle(old(faqOpenIndex), index)
      ensures quantity == old(quantity) && product == old(product)
    {
      faqOpenIndex := Accordion.Toggle(faqOpenIndex, index);
    }
  }

  /** After a load the page rates the mock reviews at 4.5. */
  lemma MockReviewsAverage()
    ensures AverageRating(MockReviews) == 4.5
  {
    assert RatingSum(MockReviews) == 9;
  }
}
