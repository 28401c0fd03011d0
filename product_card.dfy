/** The product card's handlers (`src/components/products/ProductCard.tsx`):
    the signed-in guard on the wishlist heart, the heart's toggle, and
    "Quick Add" with the first size and colour. The signed-in user is a
    parameter (`user` is truthy). */
module ProductCard {
  import opened Wrappers
  import opened Catalog
  import Cart
  import Wishlist

  /** What the heart button did. */
  datatype HeartOutcome = RedirectedToLogin | RemovedFromWishlist | AddedToWishlist

  /** `product.sizes[0]` / `product.colors[0]`: undefined on an empty list. */
  function First(s: seq<string>): (r: Option<string>)
    ensures r.Some? <==> |s| > 0
    ensures r.Some? ==> r.value == s[0]
  {
    if |s| > 0 then Some(s[0]) else None
  }

  /** The wishlist entry `addToWishlist(product)` stores for a product. */
  function AsWishlistItem(p: Product): (w: Wishlist.WishlistItem)
    ensures w.id == p.id && w.price == p.price
  {
    Wishlist.WishlistItem(p.id, p.name, p.image, p.price, None, None)
  }

  /** `user ? isInWishlist(product.id) : false`. */
  function IsProductInWishlist(signedIn: bool, store: Wishlist.WishlistStore, p: Product): (b: bool)
    reads store
    ensures b <==> signedIn && exists item :: item in store.items && item.id == p.id
  {
    if signedIn then store.IsInWishlist(p.id) else false
  }

  /** The list the heart leaves behind for a signed-in user: remove by id if
      saved, otherwise add. */
  function Toggled(items: seq<Wishlist.WishlistItem>, p: Product): seq<Wishlist.WishlistItem> {
    if Wishlist.Contains(items, p.id) then Wishlist.RemovedItems(items, p.id)
    else Wishlist.AddedItems(items, AsWishlistItem(p))
  }

  /** `handleWishlist`: without a user nothing in the store changes and the
      page goes to the login screen; with one, the product is toggled. */
  method HandleWishlist(signedIn: bool, store: Wishlist.WishlistStore, p: Product) returns (outcome: HeartOutcome)
    requires store.Valid()
    modifies store
    ensures store.Valid()
    ensures !signedIn ==> outcome == RedirectedToLogin && store.items == old(store.items)
    ensures signedIn ==> store.items == Toggled(old(store.items), p)
    ensures signedIn ==> (outcome == RemovedFromWishlist <==> Wishlist.Contains(old(store.items), p.id))
    ensures signedIn ==> outcome != RedirectedToLogin
  {
    if !signedIn {
      return RedirectedToLogin;
    }
    if IsProductInWishlist(signedIn, store, p) {
      store.RemoveFromWishlist(p.id);
      outcome := RemovedFromWishlist;
    } else {
      store.AddToWishlist(AsWishlistItem(p));
      outcome := AddedToWishlist;
    }
  }

  /** A toggle flips the product's membership. */
  lemma ToggleFlipsMembership(items: seq<Wishlist.WishlistItem>, p: Product)
    ensures Wishlist.Contains(Toggled(items, p), p.id) == !Wishlist.Contains(items, p.id)
  {
    Wishlist.MembershipAfterActions(items, AsWishlistItem(p), p.id);
  }

  /** Two toggles restore the product's membership; from "not saved" they
      restore the whole list. */
  lemma ToggleTwiceRestores(items: seq<Wishlist.WishlistItem>, p: Product)
    ensures Wishlist.Contains(Toggled(Toggled(items, p), p), p.id) == Wishlist.Contains(items, p.id)
    ensures !Wishlist.Contains(items, p.id) ==> Toggled(Toggled(items, p), p) == items
  {
    ToggleFlipsMembership(items, p);
    ToggleFlipsMembership(Toggled(items, p), p);
    if !Wishlist.Contains(items, p.id) {
      var w := AsWishlistItem(p);
      assert Toggled(items, p) == items + [w];
      Wishlist.RemoveDropsOnlyThatId(items, p.id);
      assert Wishlist.RemovedItems(items + [w], p.id) == Wishlist.RemovedItems(items, p.id) by {
        FilterDropsLast(items, w, p.id);
      }
    }
  }

  lemma {:induction false} FilterDropsLast(items: seq<Wishlist.WishlistItem>, w: Wishlist.WishlistItem, id: string)
    requires w.id == id
    ensures Wishlist.RemovedItems(items + [w], id) == Wishlist.RemovedItems(items, id)
  {
    if items == [] {
      assert Wishlist.RemovedItems([w], id) == Wishlist.RemovedItems([], id);
    } else {
      assert (items + [w])[1..] == items[1..] + [w];
      FilterDropsLast(items[1..], w, id);
    }
  }

  /** The line "Quick Add" asks for: quantity 1, first size, first colour. */
  function QuickAddLine(p: Product): (line: Cart.CartItem)
    ensures line.id == p.id && line.price == p.price && line.quantity == 1
    ensures line.size == First(p.sizes) && line.color == First(p.colors)
  {
    Cart.CartItem(p.id, p.name, p.image, p.price, 1, First(p.colors), First(p.sizes))
  }

  method HandleAddToCart(cart: Cart.CartStore, p: Product)
    requires cart.Valid()
    modifies cart
    ensures cart.Valid()
    ensures cart.items == Cart.AddedItems(old(cart.items), QuickAddLine(p))
  {
    cart.AddItem(QuickAddLine(p));
  }

  /** Each quick add puts exactly one more unit in the cart. */
  lemma QuickAddAddsOneUnit(items: seq<Cart.CartItem>, p: Product)
    requires Cart.KeysUnique(items)
    ensures Cart.ItemCount(Cart.AddedItems(items, QuickAddLine(p))) == Cart.ItemCount(items) + 1
  {
    Cart.AddIncreasesItemCount(items, QuickAddLine(p));
  }
}
