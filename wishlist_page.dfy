/** The wishlist page (`src/pages/WishlistPage.tsx`): a local list of saved
    product ids and the catalog products it selects. */
module WishlistPage {
  import opened Catalog
  import Seqs

  const InitialIds: seq<string> := ["cargo-joggers", "classic-shirt"]

  function IdIn(ids: seq<string>): Product -> bool {
    (p: Product) => p.id in ids
  }

  function IsNot(id: string): string -> bool {
    (pid: string) => pid != id
  }

  function ProductIdIsNot(id: string): Product -> bool {
    (p: Product) => p.id != id
  }

  /** `mockProducts.filter(p => wishlistIds.includes(p.id))`. */
  function WishlistProducts(catalog: seq<Product>, ids: seq<string>): seq<Product> {
    Seqs.Filter(IdIn(ids), catalog)
  }

  /** `prev.filter(pid => pid !== id)`. */
  function RemovedIds(ids: seq<string>, id: string): seq<string> {
    Seqs.Filter(IsNot(id), ids)
  }

  /** The page shows exactly the catalog products whose id is saved, in
      catalog order. */
  lemma ShowsSavedProductsInCatalogOrder(catalog: seq<Product>, ids: seq<string>)
    ensures forall p :: p in WishlistProducts(catalog, ids) <==> p in catalog && p.id in ids
    ensures Seqs.IsSubseq(WishlistProducts(catalog, ids), catalog)
  {
    Seqs.FilterIsSubseq(IdIn(ids), catalog);
  }

  /** Only the set of saved ids matters: repeating an id or reordering the
      list shows the same products, each once if the catalog has unique ids. */
  lemma DependsOnlyOnIdSet(catalog: seq<Product>, ids1: seq<string>, ids2: seq<string>)
    requires forall id :: id in ids1 <==> id in ids2
    ensures WishlistProducts(catalog, ids1) == WishlistProducts(catalog, ids2)
  {
    Seqs.FilterExt(IdIn(ids1), IdIn(ids2), catalog);
  }

  lemma DuplicateIdShowsNothingNew(catalog: seq<Product>, ids: seq<string>, id: string)
    requires id in ids
    ensures WishlistProducts(catalog, ids + [id]) == WishlistProducts(catalog, ids)
  {
    DependsOnlyOnIdSet(catalog, ids + [id], ids);
  }

  function ProductId(p: Product): string {
    p.id
  }

  lemma ShownProductsHaveUniqueIds(catalog: seq<Product>, ids: seq<string>)
    requires Seqs.UniqueBy(ProductId, catalog)
    ensures Seqs.UniqueBy(ProductId, WishlistProducts(catalog, ids))
  {
    Seqs.FilterUnique(IdIn(ids), ProductId, catalog);
  }

  /** Removal drops every copy of the id, keeps the other ids in order, and
      leaves a list without the id unchanged. */
  lemma RemoveDropsEveryCopy(ids: seq<string>, id: string)
    ensures forall x :: x in RemovedIds(ids, id) <==> x in ids && x != id
    ensures Seqs.IsSubseq(RemovedIds(ids, id), ids)
    ensures id !in ids ==> RemovedIds(ids, id) == ids
  {
    Seqs.FilterIsSubseq(IsNot(id), ids);
    if id !in ids {
      Seqs.FilterAll(IsNot(id), ids);
    }
  }

  /** After removing an id the page shows what it showed before, minus the
      products with that id. */
  lemma {:induction false} RemoveHidesOnlyThatProduct(catalog: seq<Product>, ids: seq<string>, id: string)
    ensures WishlistProducts(catalog, RemovedIds(ids, id))
            == Seqs.Filter(ProductIdIsNot(id), WishlistProducts(catalog, ids))
  {
    if catalog != [] {
      RemoveHidesOnlyThatProduct(catalog[1..], ids, id);
      RemoveDropsEveryCopy(ids, id);
      var p := catalog[0];
      assert IdIn(RemovedIds(ids, id))(p) <==> IdIn(ids)(p) && ProductIdIsNot(id)(p);
      if IdIn(ids)(p) {
        var shown := WishlistProducts(catalog, ids);
        assert shown == [p] + WishlistProducts(catalog[1..], ids);
        assert shown[0] == p && shown[1..] == WishlistProducts(catalog[1..], ids);
      }
    }
  }

  class Page {
    var wishlistIds: seq<string>
    const catalog: seq<Product>

    constructor (catalog: seq<Product>)
      ensures wishlistIds == InitialIds && this.catalog == catalog
    {
      wishlistIds := InitialIds;
      this.catalog := catalog;
    }

    function Shown(): (r: seq<Product>)
      reads this
      ensures forall p :: p in r <==> p in catalog && p.id in wishlistIds
    {
      ShowsSavedProductsInCatalogOrder(catalog, wishlistIds);
      WishlistProducts(catalog, wishlistIds)
    }

    method RemoveFromWishlist(id: string)
      modifies this
      ensures wishlistIds == RemovedIds(old(wishlistIds), id)
      ensures Shown() == Seqs.Filter(ProductIdIsNot(id), old(Shown()))
    {
      RemoveHidesOnlyThatProduct(catalog, wishlistIds, id);
      wishlistIds := RemovedIds(wishlistIds, id);
    }
  }
}
