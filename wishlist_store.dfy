/** The wishlist store (`src/store/wishlistStore.ts`): a list of saved items,
    added only when no saved item has the same id. */
module Wishlist {
  import opened Wrappers
  import Seqs

  datatype WishlistItem = WishlistItem(
    id: string,
    name: string,
    image: string,
    price: int,
    color: Option<string>,
    size: Option<string>)

  function Id(item: WishlistItem): string {
    item.id
  }

  /** The store invariant: ids are unique. */
  predicate IdsUnique(items: seq<WishlistItem>) {
    Seqs.UniqueBy(Id, items)
  }

  /** `isInWishlist(id)`: `items.some(item => item.id === id)`. */
  function Contains(items: seq<WishlistItem>, id: string): (b: bool)
    ensures b <==> exists item :: item in items && item.id == id
  {
    if items == [] then false
    else items[0].id == id || Contains(items[1..], id)
  }

  /** The list `addToWishlist(newItem)` stores. */
  function AddedItems(items: seq<WishlistItem>, newItem: WishlistItem): seq<WishlistItem> {
    if Contains(items, newItem.id) then items else items + [newItem]
  }

  /** The list `removeFromWishlist(id)` stores. */
  function RemovedItems(items: seq<WishlistItem>, id: string): seq<WishlistItem> {
    Seqs.Filter((item: WishlistItem) => item.id != id, items)
  }

  class WishlistStore {
    var items: seq<WishlistItem>

    ghost predicate Valid()
      reads this
    {
      IdsUnique(items)
    }

    constructor ()
      ensures Valid() && items == []
    {
      items := [];
    }

    method AddToWishlist(newItem: WishlistItem)
      requires Valid()
      modifies this
      ensures Valid()
      ensures items == AddedItems(old(items), newItem)
    {
      AddKeepsIdsUnique(items, newItem);
      items := AddedItems(items, newItem);
    }

    method RemoveFromWishlist(id: string)
      requires Valid()
      modifies this
      ensures Valid()
      ensures items == RemovedItems(old(items), id)
    {
      Seqs.FilterUnique((item: WishlistItem) => item.id != id, Id, items);
      items := RemovedItems(items, id);
    }

    function IsInWishlist(id: string): (b: bool)
      reads this
      ensures b == Contains(items, id)
    {
      Contains(items, id)
    }

    method ClearWishlist()
      modifies this
      ensures Valid() && items == []
    {
      items := [];
    }
  }

  /** An unseen id is appended; a known one leaves the list as it was. */
  lemma AddAppendsOnlyNewIds(items: seq<WishlistItem>, newItem: WishlistItem)
    ensures (forall item :: item in items ==> item.id != newItem.id) ==> AddedItems(items, newItem) == items + [newItem]
    ensures (exists item :: item in items && item.id == newItem.id) ==> AddedItems(items, newItem) == items
  {
  }

  /** Deduplication looks at the id alone: an item with a saved id but a
      different size, colour, name or price is not added. */
  lemma AddIgnoresOtherFields(items: seq<WishlistItem>, newItem: WishlistItem, k: int)
    requires 0 <= k < |items| && items[k].id == newItem.id
    ensures AddedItems(items, newItem) == items
  {
    assert items[k] in items;
  }

  /** Adding twice is adding once. */
  lemma AddIdempotent(items: seq<WishlistItem>, newItem: WishlistItem)
    ensures AddedItems(AddedItems(items, newItem), newItem) == AddedItems(items, newItem)
  {
    var once := AddedItems(items, newItem);
    assert newItem in items + [newItem];
    assert Contains(once, newItem.id);
  }

  lemma AddKeepsIdsUnique(items: seq<WishlistItem>, newItem: WishlistItem)
    requires IdsUnique(items)
    ensures IdsUnique(AddedItems(items, newItem))
  {
    if !Contains(items, newItem.id) {
      var r := items + [newItem];
      forall i, j | 0 <= i < j < |r| ensures Id(r[i]) != Id(r[j]) {
        if j == |items| {
          assert r[i] in items;
        }
      }
    }
  }

  /** Removal drops the id, keeps the rest in order, and leaves a list
      without that id unchanged. */
  lemma RemoveDropsOnlyThatId(items: seq<WishlistItem>, id: string)
    ensures forall item :: item in RemovedItems(items, id) <==> item in items && item.id != id
    ensures Seqs.IsSubseq(RemovedItems(items, id), items)
    ensures !Contains(items, id) ==> RemovedItems(items, id) == items
  {
    Seqs.FilterIsSubseq((item: WishlistItem) => item.id != id, items);
    if !Contains(items, id) {
      Seqs.FilterAll((item: WishlistItem) => item.id != id, items);
    }
  }

  /** `isInWishlist` is true right after an add and false right after a
      removal of that id. */
  lemma MembershipAfterActions(items: seq<WishlistItem>, newItem: WishlistItem, id: string)
    ensures Contains(AddedItems(items, newItem), newItem.id)
    ensures !Contains(RemovedItems(items, id), id)
  {
    assert newItem in items + [newItem];
  }
}
