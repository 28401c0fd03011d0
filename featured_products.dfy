/** The home page's featured strip (`src/components/home/FeaturedProducts.tsx`):
    the first four products marked as featured. */
module Featured {
  import opened Catalog
  import Seqs

  function IsFeatured(p: Product): bool {
    p.featured
  }

  function FeaturedProducts(catalog: seq<Product>): seq<Product> {
    Seqs.Take(Seqs.Filter(IsFeatured, catalog), 4)
  }

  /** Number of featured products in the catalog. */
  function CountFeatured(catalog: seq<Product>): nat {
    if catalog == [] then 0 else (if catalog[0].featured then 1 else 0) + CountFeatured(catalog[1..])
  }

  lemma {:induction false} FilterCountsFeatured(catalog: seq<Product>)
    ensures |Seqs.Filter(IsFeatured, catalog)| == CountFeatured(catalog)
  {
    if catalog != [] {
      FilterCountsFeatured(catalog[1..]);
    }
  }

  /** Exactly the first min(4, #featured) featured products, in catalog
      order; a featured product is left out only when four are already
      shown. */
  lemma FeaturedShape(catalog: seq<Product>)
    ensures var r := FeaturedProducts(catalog);
            && |r| == (if CountFeatured(catalog) < 4 then CountFeatured(catalog) else 4)
            && r == Seqs.Filter(IsFeatured, catalog)[..|r|]
            && (forall p :: p in r ==> p.featured && p in catalog)
            && Seqs.IsSubseq(r, catalog)
            && (forall p :: p in catalog && p.featured && p !in r ==> |r| == 4)
  {
    FilterCountsFeatured(catalog);
    Seqs.TakeFilterIsSubseq(IsFeatured, catalog, 4);
    var f := Seqs.Filter(IsFeatured, catalog);
    var r := FeaturedProducts(catalog);
    forall p | p in r ensures p.featured && p in catalog {
      var k :| 0 <= k < |r| && r[k] == p;
      assert f[k] == p;
    }
  }
}
