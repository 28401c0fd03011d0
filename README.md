# Storefront core, modelled in Dafny

This project models the logic of a React/TypeScript menswear storefront.

- **Two zustand stores.**
  - A cart of line items that merges on (id, size, colour) but removes and re-quantifies by id alone.
  - A wishlist deduplicated by id.
- **Order arithmetic.** The cart and checkout pages' shipping threshold, totals and quantity buttons.
- **Checkout wizard.** Its three steps.
- **Catalog derivations.** The shop's stable price sort, the featured and fit-room filters, related products, and the wishlist page's id filter.
- **The two forms' validators.** The sign-in/sign-up checks with their anchored address pattern, and the contact form's error map with its unanchored pattern.
- **UI state machines.** The single-open accordions (FAQ page, product FAQ, mobile menu), the fit room's model-or-photo choice, and the header's search suggestions.

Each store is a `class` whose `items` field is a `seq` and whose actions are methods. Each method's new state is given by a pure function: `Cart.AddedItems`, `Cart.RemovedItems`, `Cart.UpdatedItems`, `Wishlist.AddedItems` and `Wishlist.RemovedItems`. The properties are lemmas about those functions, and the store invariants are preserved by every action.

Each page holding state is a class with the page's `useState` fields. Its handlers are methods that state the whole new state. The page's derived lists and amounts are functions over the inputs.

The cart-page and checkout formulas used the same style: pure expressions become functions.

Modelling choices:
- **Inputs.** The catalog is a parameter. The signed-in user is a boolean. The subtotal and the tax are integer inputs. The shop, wishlist and product pages import a `mockProducts` that the data file does not export (it exports `products`), so the catalog they would see is not defined by the code.
- **Money.** Amounts are in minor currency units, as in the sample data.
- **Strings.** Strings are `seq<char>`. JavaScript whitespace (`trim`, `\s`) follows the ECMAScript WhiteSpace and LineTerminator code points.

Modules: `Wrappers`, `Seqs` and `Text` are helpers; `Catalog` holds the product record. `Accordion` is the `open === i ? null : i` toggle shared by three components. The other modules each model one source file:

| module | source file |
|---|---|
| `Cart` | `src/store/cartStore.ts` |
| `Wishlist` | `src/store/wishlistStore.ts` |
| `ProductCard` | `src/components/products/ProductCard.tsx` |
| `CartPage` | `src/pages/CartPage.tsx` |
| `Checkout` | `src/pages/CheckoutPage.tsx` |
| `Shop` | `src/pages/ShopPage.tsx` |
| `ProductDetail` | `src/pages/ProductDetailPage.tsx` |
| `Featured` | `src/components/home/FeaturedProducts.tsx` |
| `WishlistPage` | `src/pages/WishlistPage.tsx` |
| `FitRoom` | `src/pages/FitRoomPage.tsx` |
| `AuthForm` | `src/components/auth/AuthForm.tsx` |
| `Contact` | `src/pages/ContactPage.tsx` |
| `SearchHeader` | `src/components/common/Header.tsx` |
| `Faq` | `src/pages/FaqPage.tsx` |
| `MobileMenu` | `src/components/layout/MobileMenu.tsx` |

Where the code and the store's intended behaviour differ, the model follows the code:
- `removeItem` and `updateQuantity` match on `id` only, so they reach every size/colour variant of a product.
- `updateQuantity` does not clamp.
- No line id or price snapshot is generated.

`Cart.IdActionsHitEveryVariant` and `CartPage.DecrementReachesOtherVariants` show the first point on concrete carts.

## Model

| member | source | states |
|---|---|---|
| `Cart.FindLine` | src/store/cartStore.ts:32 | `None` exactly when no line has the new item's (id, size, color); otherwise a line of the list with that key |
| `Cart.CartStore.constructor` | src/store/cartStore.ts:28 | a fresh store is empty and satisfies the unique-key invariant |
| `Cart.CartStore.AddItem` | src/store/cartStore.ts:30-46 | keeps the unique-key invariant; the new list is `AddedItems(old list, newItem)` |
| `Cart.CartStore.RemoveItem` | src/store/cartStore.ts:48-50 | keeps the invariant; the new list is `RemovedItems(old list, id)` |
| `Cart.CartStore.UpdateQuantity` | src/store/cartStore.ts:52-57 | keeps the invariant; the new list is `UpdatedItems(old list, id, quantity)` |
| `Cart.CartStore.ClearCart` | src/store/cartStore.ts:59 | the list is empty and the invariant holds |
| `Cart.CartStore.GetTotal` | src/store/cartStore.ts:61-62 | the left-to-right sum of price × quantity over the current lines |
| `Cart.CartStore.GetItemCount` | src/store/cartStore.ts:64-65 | the left-to-right sum of quantities over the current lines |
| `Cart.FreshCartSumsZero` | src/store/cartStore.ts:28-65 | a fresh store has no lines, and its total and its item count are both 0 |
| `Cart.AddedItems` | src/store/cartStore.ts:30-46 | `addItem` on the list; specified by `AddNewKeyAppends`, `AddExistingKeyMerges`, `AddKeepsKeysUnique`, `AddIncreasesItemCount` and `AddIncreasesTotal` |
| `Cart.MergeQuantity` | src/store/cartStore.ts:35-41 | the merge `map`; specified by `AddExistingKeyMerges` |
| `Cart.RemovedItems` | src/store/cartStore.ts:49 | the `id !== id` filter; specified by `RemoveDropsAllVariants`, `RemoveAbsentIsNoop` and `RemoveKeepsKeysUnique` |
| `Cart.UpdatedItems` | src/store/cartStore.ts:53-55 | the by-id quantity `map`; specified by `UpdateSetsAllVariants`, `UpdateAbsentIsNoop` and `UpdateKeepsKeysUnique` |
| `Cart.Amount` | src/store/cartStore.ts:62 | one line's price × quantity; its growth on a merge is `MergedAmount` |
| `Cart.Total` | src/store/cartStore.ts:61-62 | the `reduce` of amounts; specified by `SumsAppend`, `TotalUpdateAt`, `SumsNonNegative` and `AddIncreasesTotal` |
| `Cart.ItemCount` | src/store/cartStore.ts:64-65 | the `reduce` of quantities; specified by `SumsAppend`, `ItemCountUpdateAt`, `SumsNonNegative` and `AddIncreasesItemCount` |
| `Cart.AddNewKeyAppends` | src/store/cartStore.ts:43-45 | an unseen (id, size, color) is appended at the end and the earlier lines are untouched |
| `Cart.AddExistingKeyMerges` | src/store/cartStore.ts:34-42 | under the invariant, a known key adds the new quantity to that one line; length, order and every other field (stored price included) stay |
| `Cart.AddKeepsKeysUnique` | src/store/cartStore.ts:30-46 | `addItem` preserves "no two lines share (id, size, color)" in both branches |
| `Cart.AddIncreasesItemCount` | src/store/cartStore.ts:30-46 | the item count grows by exactly the added quantity, whether the line is merged or appended |
| `Cart.AddIncreasesTotal` | src/store/cartStore.ts:30-46 | the total grows by price × added quantity: the new item's price when appended, the stored line's price when merged |
| `Cart.MergeRaisesTotal` | src/store/cartStore.ts:34-42 | merging into line `k` raises the total by that line's stored price × the added quantity |
| `Cart.BumpRaisesTotal` | src/store/cartStore.ts:39 | raising one line's quantity by `q` raises the total by its price × `q` |
| `Cart.MergedAmount` | src/store/cartStore.ts:39 | a line whose quantity grows by `q` has its amount grow by its price × `q` |
| `Cart.Distribute` | src/store/cartStore.ts:39 | multiplication by the price distributes over the summed quantities |
| `Cart.TotalUpdateAt` | src/store/cartStore.ts:61-62 | replacing one line changes the total by the difference of the two lines' amounts |
| `Cart.ItemCountUpdateAt` | src/store/cartStore.ts:64-65 | replacing one line changes the item count by the difference of the two quantities |
| `Cart.SumsNonNegative` | src/store/cartStore.ts:61-65 | with no negative price or quantity, neither sum is negative |
| `Cart.SumsAppend` | src/store/cartStore.ts:61-65 | both sums split over concatenation, so each is the sum over its lines |
| `Cart.RemoveDropsAllVariants` | src/store/cartStore.ts:48-50 | a line survives exactly when its id differs, whatever its size or colour, and survivors keep their order |
| `Cart.RemoveAbsentIsNoop` | src/store/cartStore.ts:49 | removing an id no line has leaves the list unchanged |
| `Cart.RemoveKeepsKeysUnique` | src/store/cartStore.ts:48-50 | `removeItem` preserves the unique-key invariant |
| `Cart.UpdateSetsAllVariants` | src/store/cartStore.ts:52-57 | every line with the id gets exactly the requested quantity (0 and negatives included); other lines and fields are unchanged; the length stays |
| `Cart.UpdateAbsentIsNoop` | src/store/cartStore.ts:53-55 | updating an id no line has leaves the list unchanged |
| `Cart.UpdateKeepsKeysUnique` | src/store/cartStore.ts:52-57 | `updateQuantity` preserves the unique-key invariant |
| `Cart.SameKeyTwiceMerges` | src/store/cartStore.ts:32-45 | the same key added twice gives one line with both quantities; a different size gives two lines |
| `Cart.IdActionsHitEveryVariant` | src/store/cartStore.ts:48-57 | on a cart with two sizes of one product, remove and update by id reach both sizes |
| `Cart.CartTotalScenario` | src/store/cartStore.ts:61-65 | two tees at 1999 plus one cargo at 2499: 3 items totalling 6497 |
| `Wishlist.Contains` | src/store/wishlistStore.ts:39 | true exactly when some saved item has the id |
| `Wishlist.AddedItems` | src/store/wishlistStore.ts:27-32 | `addToWishlist` on the list; specified by `AddAppendsOnlyNewIds`, `AddIgnoresOtherFields`, `AddIdempotent` and `AddKeepsIdsUnique` |
| `Wishlist.RemovedItems` | src/store/wishlistStore.ts:35 | the `id !== id` filter; specified by `RemoveDropsOnlyThatId` |
| `Wishlist.WishlistStore.constructor` | src/store/wishlistStore.ts:25 | a fresh wishlist is empty and has unique ids |
| `Wishlist.WishlistStore.AddToWishlist` | src/store/wishlistStore.ts:27-32 | keeps ids unique; the new list is `AddedItems(old list, newItem)` |
| `Wishlist.WishlistStore.RemoveFromWishlist` | src/store/wishlistStore.ts:34-36 | keeps ids unique; the new list is `RemovedItems(old list, id)` |
| `Wishlist.WishlistStore.IsInWishlist` | src/store/wishlistStore.ts:38-40 | the membership test on the current items |
| `Wishlist.WishlistStore.ClearWishlist` | src/store/wishlistStore.ts:42-44 | the list is empty |
| `Wishlist.AddAppendsOnlyNewIds` | src/store/wishlistStore.ts:27-32 | an unseen id is appended; a saved id leaves the list as it was |
| `Wishlist.AddIgnoresOtherFields` | src/store/wishlistStore.ts:28 | deduplication is by id alone: another size, colour, name or price with a saved id is not added |
| `Wishlist.AddIdempotent` | src/store/wishlistStore.ts:27-32 | adding the same item twice equals adding it once |
| `Wishlist.AddKeepsIdsUnique` | src/store/wishlistStore.ts:27-32 | adding preserves unique ids |
| `Wishlist.RemoveDropsOnlyThatId` | src/store/wishlistStore.ts:34-36 | the id is gone, the others survive in order, and a list without the id is unchanged |
| `Wishlist.MembershipAfterActions` | src/store/wishlistStore.ts:27-40 | `isInWishlist` is true right after an add and false right after a removal of that id |
| `ProductCard.First` | src/components/products/ProductCard.tsx:28-29 | `list[0]`: defined exactly for a non-empty list, and then the first entry |
| `ProductCard.AsWishlistItem` | src/components/products/ProductCard.tsx:45 | the stored entry carries the product's id and price |
| `ProductCard.IsProductInWishlist` | src/components/products/ProductCard.tsx:19 | true exactly when a user is signed in and a saved item has the product's id |
| `ProductCard.Toggled` | src/components/products/ProductCard.tsx:42-46 | remove by id if saved, otherwise add; specified by `ToggleFlipsMembership` and `ToggleTwiceRestores` |
| `ProductCard.HandleWishlist` | src/components/products/ProductCard.tsx:33-47 | signed out: redirect and nothing changes; signed in: remove by id if saved, otherwise add, and the outcome says which |
| `ProductCard.ToggleFlipsMembership` | src/components/products/ProductCard.tsx:42-46 | one press flips whether the product is saved |
| `ProductCard.ToggleTwiceRestores` | src/components/products/ProductCard.tsx:42-46 | two presses restore the membership, and from "not saved" the whole list |
| `ProductCard.QuickAddLine` | src/components/products/ProductCard.tsx:25-30 | quick add asks for quantity 1 with the first size and the first colour |
| `ProductCard.HandleAddToCart` | src/components/products/ProductCard.tsx:21-31 | the cart becomes `AddedItems` of that line and keeps its invariant |
| `ProductCard.QuickAddAddsOneUnit` | src/components/products/ProductCard.tsx:25-30 | each quick add raises the item count by exactly one |
| `CartPage.Shipping` | src/pages/CartPage.tsx:14 | 0 exactly when the subtotal is above 99900 (strictly), otherwise 9900 |
| `CartPage.Render` | src/pages/CartPage.tsx:11-103 | the empty state exactly for an empty cart; otherwise one amount per line equal to price × quantity, and total = subtotal + shipping + tax |
| `CartPage.AmountsSumToTotal` | src/pages/CartPage.tsx:103 | the line amounts shown add up to the store's total |
| `CartPage.DecrementRequest` | src/pages/CartPage.tsx:87 | "-" asks for `max(1, q - 1)`: never below 1, `q - 1` from 2 up, 1 at 2 and below |
| `CartPage.IncrementRequest` | src/pages/CartPage.tsx:95 | "+" asks for exactly one more than the current quantity |
| `CartPage.StepButtonsInverse` | src/pages/CartPage.tsx:87-95 | "+" then "-" returns to q from 1 up; "-" then "+" returns to q from 2 up; "-" at 1 stays at 1 |
| `CartPage.PressDecrement` | src/pages/CartPage.tsx:87 | the store receives `updateQuantity(id, max(1, q - 1))` for the pressed line |
| `CartPage.PressIncrement` | src/pages/CartPage.tsx:95 | the store receives `updateQuantity(id, q + 1)` for the pressed line |
| `CartPage.DecrementReachesOtherVariants` | src/pages/CartPage.tsx:87 | "-" on size L of a product also sets its size M line to the same quantity |
| `Checkout.ShippingCost` | src/pages/CheckoutPage.tsx:31 | express is 19900 whatever the subtotal; standard follows the cart page rule, 0 exactly above 99900 |
| `Checkout.OrderTotal` | src/pages/CheckoutPage.tsx:37 | the total exceeds subtotal + tax by exactly the shipping cost |
| `Checkout.ContinueFrom` | src/pages/CheckoutPage.tsx:40-43 | information leads to shipping and shipping to payment; specified with `BackFrom` by `BackContinueRoundTrip` |
| `Checkout.BackFrom` | src/pages/CheckoutPage.tsx:411-414 | payment goes back to shipping, shipping to information, and information stays; specified by `BackContinueRoundTrip` |
| `Checkout.BackContinueRoundTrip` | src/pages/CheckoutPage.tsx:39-50 | after the first step Back then Continue returns to the step; before the last Continue then Back does |
| `Checkout.CheckoutPage.constructor` | src/pages/CheckoutPage.tsx:11-22 | starts at information, standard shipping, credit card, no order placed |
| `Checkout.CheckoutPage.HandleContinue` | src/pages/CheckoutPage.tsx:39-50 | information to shipping, shipping to payment; at payment the cart is cleared and the order placed |
| `Checkout.CheckoutPage.HandleBack` | src/pages/CheckoutPage.tsx:411-414 | shipping to information, payment to shipping, information stays; nothing else changes |
| `Checkout.CheckoutPage.SelectShippingMethod` | src/pages/CheckoutPage.tsx:243-267 | sets the shipping method only |
| `Checkout.CheckoutPage.SelectPaymentMethod` | src/pages/CheckoutPage.tsx:295-335 | sets the payment method only |
| `Checkout.ContinueThroughCheckout` | src/pages/CheckoutPage.tsx:39-50 | three presses of Continue from a fresh page place the order and empty the cart |
| `Shop.Rank` | src/pages/ShopPage.tsx:18-22 | the key the comparator orders by: price, minus price, or nothing |
| `Shop.Compare` | src/pages/ShopPage.tsx:18-22 | the comparator; equal to the rank difference by `CompareIsRankDifference` |
| `Shop.CompareIsRankDifference` | src/pages/ShopPage.tsx:18-22 | the comparator is the difference of the two ranks |
| `Shop.Insert` | src/pages/ShopPage.tsx:18 | insertion adds exactly one copy of the element |
| `Shop.InsertKeepsSorted` | src/pages/ShopPage.tsx:18-22 | inserting into a sorted list keeps it sorted by the comparator |
| `Shop.Sort` | src/pages/ShopPage.tsx:18-22 | the result is a permutation of the input, sorted by the comparator |
| `Shop.SortedProducts` | src/pages/ShopPage.tsx:18-22 | the page's sorted copy; specified by `PriceOrders`, `OtherKeysKeepOrder` and `EqualPricesKeepCatalogOrder` |
| `Shop.PriceOrders` | src/pages/ShopPage.tsx:19-20 | low-to-high gives non-decreasing prices, high-to-low non-increasing; both are permutations of the catalog |
| `Shop.OtherKeysKeepOrder` | src/pages/ShopPage.tsx:21 | any other key, `featured` included, gives the catalog order |
| `Shop.InsertKeepsRankClasses` | src/pages/ShopPage.tsx:18-22 | an insertion puts the element at the head of its rank class and leaves every other class as it was |
| `Shop.SortIsStable` | src/pages/ShopPage.tsx:18-22 | within each rank class the sort keeps the input order |
| `Shop.EqualPricesKeepCatalogOrder` | src/pages/ShopPage.tsx:18-22 | products of one price appear in catalog order under every key |
| `Shop.ShopPage.constructor` | src/pages/ShopPage.tsx:7-8 | the drawer is closed and the key is `featured` |
| `Shop.ShopPage.ToggleFilterDrawer` | src/pages/ShopPage.tsx:10-12 | flips the drawer and keeps the key |
| `Shop.ShopPage.HandleSortChange` | src/pages/ShopPage.tsx:14-16 | sets the key and keeps the drawer |
| `Shop.ShopPage.Shown` | src/pages/ShopPage.tsx:18 | the grid is a permutation of the catalog, which is itself never reordered |
| `Shop.OpenAndCloseDrawer` | src/pages/ShopPage.tsx:7-12 | a fresh page lists the catalog as it is, and two presses leave the drawer closed |
| `ProductDetail.Lookup` | src/pages/ProductDetailPage.tsx:30-31 | `None` exactly when no product has the id; otherwise the first product with it |
| `ProductDetail.DefaultSelection` | src/pages/ProductDetailPage.tsx:39-40 | the first entry unless the list is empty or that entry is the falsy empty string |
| `ProductDetail.Cap` | src/pages/ProductDetailPage.tsx:197 | a stock of 0 falls back to 10, any other stock is the cap |
| `ProductDetail.ClampQuantity` | src/pages/ProductDetailPage.tsx:197 | the result is at least 1; it is at most the cap when the cap is at least 1; an in-range value passes unchanged; out-of-range values clamp |
| `ProductDetail.ClampIdempotent` | src/pages/ProductDetailPage.tsx:197 | clamping twice is clamping once |
| `ProductDetail.RelatedProducts` | src/pages/ProductDetailPage.tsx:93 | filter then `slice(0, 4)`; specified by `RelatedProductsShape` |
| `ProductDetail.RelatedProductsShape` | src/pages/ProductDetailPage.tsx:93 | the first (at most 4) products whose id is not the current one, in catalog order; another product is left out only when 4 are shown |
| `ProductDetail.AverageRating` | src/pages/ProductDetailPage.tsx:63-67 | 0 without reviews |
| `ProductDetail.RatingSum` | src/pages/ProductDetailPage.tsx:65 | the `reduce` of ratings; bounded by `RatingSumBounds` |
| `ProductDetail.MulStep` | src/pages/ProductDetailPage.tsx:65 | one more rating adds one more copy of the bound: (n + 1)·x = n·x + x |
| `ProductDetail.RatingSumBounds` | src/pages/ProductDetailPage.tsx:65 | the sum of ratings in `[lo, hi]` lies between n·lo and n·hi |
| `ProductDetail.AverageWithinRatingRange` | src/pages/ProductDetailPage.tsx:63-67 | the mean of ratings in `[lo, hi]` lies in `[lo, hi]` |
| `ProductDetail.ProductDetailPage.constructor` | src/pages/ProductDetailPage.tsx:18-25 | no product, loading, no selections, quantity 1, no reviews, no FAQ open |
| `ProductDetail.ProductDetailPage.LoadProduct` | src/pages/ProductDetailPage.tsx:27-44 | the product is the lookup result; the mock reviews are installed and loading ends; a found product sets the default size and colour |
| `ProductDetail.ProductDetailPage.ChangeQuantity` | src/pages/ProductDetailPage.tsx:197 | the quantity becomes the clamp of the entered number against the product's stock |
| `ProductDetail.ProductDetailPage.SelectSize` | src/pages/ProductDetailPage.tsx:176 | sets the size only |
| `ProductDetail.ProductDetailPage.SelectColor` | src/pages/ProductDetailPage.tsx:150 | sets the colour only |
| `ProductDetail.ProductDetailPage.ToggleFaq` | src/pages/ProductDetailPage.tsx:257 | the FAQ index follows the single-open toggle |
| `ProductDetail.MockReviewsAverage` | src/pages/ProductDetailPage.tsx:33-36 | the two mock reviews (5 and 4) average 4.5 |
| `Featured.FilterCountsFeatured` | src/components/home/FeaturedProducts.tsx:11 | the filter keeps as many products as are featured |
| `Featured.FeaturedProducts` | src/components/home/FeaturedProducts.tsx:11 | filter then `slice(0, 4)`; specified by `FeaturedShape` |
| `Featured.FeaturedShape` | src/components/home/FeaturedProducts.tsx:11 | exactly the first min(4, #featured) featured products, in catalog order: the prefix of length min(4, #featured) of the featured filter; a featured product is left out only when 4 are shown |
| `WishlistPage.ShowsSavedProductsInCatalogOrder` | src/pages/WishlistPage.tsx:21 | exactly the catalog products whose id is saved, in catalog order |
| `WishlistPage.WishlistProducts` | src/pages/WishlistPage.tsx:21 | the `includes` filter; specified by `ShowsSavedProductsInCatalogOrder`, `DependsOnlyOnIdSet` and `ShownProductsHaveUniqueIds` |
| `WishlistPage.RemovedIds` | src/pages/WishlistPage.tsx:30 | the `pid !== id` filter; specified by `RemoveDropsEveryCopy` |
| `WishlistPage.DependsOnlyOnIdSet` | src/pages/WishlistPage.tsx:21 | two id lists with the same members show the same products |
| `WishlistPage.DuplicateIdShowsNothingNew` | src/pages/WishlistPage.tsx:21 | repeating a saved id duplicates nothing |
| `WishlistPage.ShownProductsHaveUniqueIds` | src/pages/WishlistPage.tsx:21 | a catalog with unique ids shows each product once |
| `WishlistPage.RemoveDropsEveryCopy` | src/pages/WishlistPage.tsx:29-32 | every copy of the id goes, the others keep their order, and an absent id changes nothing |
| `WishlistPage.RemoveHidesOnlyThatProduct` | src/pages/WishlistPage.tsx:21-32 | after a removal the page shows what it showed before, minus the products with that id |
| `WishlistPage.Page.constructor` | src/pages/WishlistPage.tsx:15-18 | starts with the ids `cargo-joggers` and `classic-shirt` |
| `WishlistPage.Page.Shown` | src/pages/WishlistPage.tsx:21 | a product is shown exactly when it is in the catalog and its id is saved |
| `WishlistPage.Page.RemoveFromWishlist` | src/pages/WishlistPage.tsx:29-32 | the ids lose the removed one, and the shown list loses exactly the products with that id |
| `FitRoom.OfferedAreFirstClothing` | src/pages/FitRoomPage.tsx:15-168 | clothing is exactly the tees, outerwear and hoodies of the catalog; the offered garments are the first (at most 6) of them, in catalog order, and a clothing product is missing only when 6 are offered |
| `FitRoom.ClothingProducts` | src/pages/FitRoomPage.tsx:15-17 | the category filter; specified by `OfferedAreFirstClothing` |
| `FitRoom.OfferedProducts` | src/pages/FitRoomPage.tsx:168 | `slice(0, 6)` of the clothing; specified by `OfferedAreFirstClothing` |
| `FitRoom.FitRoomPage.PreviewDisabled` | src/pages/FitRoomPage.tsx:204 | the button is enabled exactly when a model or photo and a garment are chosen |
| `FitRoom.FitRoomPage.PreviewShown` | src/pages/FitRoomPage.tsx:219 | the preview renders exactly when the flag is set and the button's condition holds (a model or photo and a garment) |
| `FitRoom.FitRoomPage.constructor` | src/pages/FitRoomPage.tsx:8-12 | nothing chosen, no photo, no preview, models tab; the model-or-photo invariant holds |
| `FitRoom.FitRoomPage.HandleModelSelect` | src/pages/FitRoomPage.tsx:19-22 | the model is set and the photo cleared |
| `FitRoom.FitRoomPage.HandleProductSelect` | src/pages/FitRoomPage.tsx:24-26 | only the garment changes |
| `FitRoom.FitRoomPage.HandleImageUpload` | src/pages/FitRoomPage.tsx:28-39 | with a file its data URL replaces the model; without one nothing changes |
| `FitRoom.FitRoomPage.ClearUpload` | src/pages/FitRoomPage.tsx:132 | only the photo is cleared |
| `FitRoom.FitRoomPage.HandleShowPreview` | src/pages/FitRoomPage.tsx:41-45 | the flag is set when the button is enabled and otherwise keeps its value; the other fields stay |
| `FitRoom.FitRoomPage.SelectTab` | src/pages/FitRoomPage.tsx:71-81 | only the tab changes |
| `FitRoom.PreviewWithModelThenUpload` | src/pages/FitRoomPage.tsx:19-45 | model, garment, Preview shows the preview; a later upload swaps the model for the photo |
| `AuthForm.EmailPatternMeaning` | src/components/auth/AuthForm.tsx:28 | the pattern accepts exactly: no whitespace, exactly one `@`, a non-empty local part, a `.` in the domain with text on both sides |
| `AuthForm.MatchesEmailPattern` | src/components/auth/AuthForm.tsx:28 | the anchored address pattern; characterised by `EmailPatternMeaning` |
| `AuthForm.FirstError` | src/components/auth/AuthForm.tsx:22-44 | no error exactly when the address matches, the password has at least 6 characters and (sign-up only) the passwords agree; errors are the four messages |
| `AuthForm.ChecksInOrder` | src/components/auth/AuthForm.tsx:22-44 | the first failing check alone decides the message: an empty field wins over everything, a bad address over a short password, a short password over a differing confirmation, and sign-up with valid fields and a differing confirmation gets "Passwords do not match"; 6 characters pass the length check |
| `AuthForm.ConfirmOnlyForRegister` | src/components/auth/AuthForm.tsx:40-44 | sign-in ignores the confirmation; sign-up accepts exactly what sign-in accepts with matching passwords |
| `AuthForm.EmailSamples` | src/components/auth/AuthForm.tsx:28-29 | `ann@shop.in` passes; `ann@shop` and `ann@@shop.in` fail |
| `AuthForm.Form.constructor` | src/components/auth/AuthForm.tsx:11-14 | all fields and the error start empty |
| `AuthForm.Form.HandleSubmit` | src/components/auth/AuthForm.tsx:18-57 | the error is cleared, then set to the first failing check's message with no call; only when all pass is `register` or `login` called |
| `AuthForm.Form.HandleRemoteFailure` | src/components/auth/AuthForm.tsx:48-56 | the catch branches: the error's message, or "Registration failed" / "Login failed" when it is empty; the auth store never rethrows, so the program never reaches them |
| `Contact.DescriptionIsComplete` | src/pages/ContactPage.tsx:15-23 | the description of `validate` fixes a single error map |
| `Contact.NoErrorsIff` | src/pages/ContactPage.tsx:15-34 | the map is empty exactly when every field is non-blank and the address matches |
| `Contact.MatchesContactPattern` | src/pages/ContactPage.tsx:19 | the unanchored test: some substring is non-space, `@`, non-space, `.`, non-space; contrasted by `PatternsDisagree` |
| `Contact.DescribesErrors` | src/pages/ContactPage.tsx:15-23 | what `validate` returns, key by key; pinned to one map by `DescriptionIsComplete` |
| `Contact.PatternsDisagree` | src/pages/ContactPage.tsx:19 | `x y@a.b` passes this unanchored check but fails the sign-in form's pattern |
| `Contact.ContactPage.constructor` | src/pages/ContactPage.tsx:4-13 | empty form, no errors, not submitting, no message |
| `Contact.ContactPage.Validate` | src/pages/ContactPage.tsx:15-23 | keys only among the four fields; each required error exactly for a blank field; the email key holds "required" when blank, else "invalid" when the pattern fails |
| `Contact.ContactPage.HandleChange` | src/pages/ContactPage.tsx:25-27 | only the named field changes |
| `Contact.ContactPage.HandleSubmit` | src/pages/ContactPage.tsx:29-35 | the errors become `validate`'s; submitting becomes true when there are none and otherwise keeps its value |
| `Contact.ContactPage.CompleteSubmission` | src/pages/ContactPage.tsx:42-46 | thank-you message, all four fields empty, no longer submitting |
| `SearchHeader.SuggestionsMeaning` | src/components/common/Header.tsx:17-27 | a blank term suggests nothing; otherwise exactly the items containing the term ignoring case, in list order, each as many times as it occurs in the list, as a subsequence of the list |
| `SearchHeader.Suggestions` | src/components/common/Header.tsx:17-27 | the effect's suggestion list; specified by `SuggestionsMeaning` |
| `SearchHeader.MatchesTerm` | src/components/common/Header.tsx:23-25 | the case-insensitive `includes` test; used in `SuggestionsMeaning` |
| `SearchHeader.ItemSuggestsItself` | src/components/common/Header.tsx:23-25 | a non-blank list item is among its own suggestions |
| `SearchHeader.MockSuggestionsNotBlank` | src/components/common/Header.tsx:4-9 | none of the four fixed suggestions is blank |
| `SearchHeader.UntrimmedTermMatters` | src/components/common/Header.tsx:18-25 | "jeans" suggests "Jeans"; "jeans " does not, because only the blank test trims |
| `SearchHeader.Header.constructor` | src/components/common/Header.tsx:12-14 | empty term, no suggestions, list hidden |
| `SearchHeader.Header.OnType` | src/components/common/Header.tsx:67-70 | the term is set, the list is shown and the suggestions follow the term |
| `SearchHeader.Header.OnFocus` | src/components/common/Header.tsx:71 | the list is shown and the term kept |
| `SearchHeader.Header.PickSuggestion` | src/components/common/Header.tsx:79-83 | the term becomes the picked suggestion, the list hides, and the pick is among the new suggestions |
| `Accordion.Toggle` | src/pages/FaqPage.tsx:40 | the open entry closes itself; any other entry opens |
| `Accordion.ToggleOpensOnlyTarget` | src/pages/FaqPage.tsx:40 | after toggling `i`, an entry is open exactly when it is `i` and `i` was closed: at most one is open |
| `Accordion.ToggleTwice` | src/pages/FaqPage.tsx:40 | from closed, two toggles end closed; from any state they restore whether `i` is open |
| `Faq.FaqPage.constructor` | src/pages/FaqPage.tsx:37 | no panel is open |
| `Faq.FaqPage.IsOpen` | src/pages/FaqPage.tsx:71 | a panel shows its answer exactly when it is the open one |
| `Faq.FaqPage.ToggleIndex` | src/pages/FaqPage.tsx:39-41 | afterwards a panel is open exactly when it is the toggled one and that one was closed |
| `Faq.OpenTwoPanels` | src/pages/FaqPage.tsx:39-41 | pressing panels 0, 2 and 2 on a fresh page leaves every panel closed |
| `MobileMenu.DropdownActive` | src/components/layout/MobileMenu.tsx:37 | a dropdown parent is highlighted exactly when its path occurs somewhere in the pathname |
| `MobileMenu.PathActive` | src/components/layout/MobileMenu.tsx:69-71 | the plain link's exact pathname match; contrasted by `NestedPathHighlightsParent` |
| `MobileMenu.NestedPathHighlightsParent` | src/components/layout/MobileMenu.tsx:37-70 | on `/shop/tees` the `/shop` parent is highlighted though an exact-match link for `/shop` would not be |
| `MobileMenu.Menu.constructor` | src/components/layout/MobileMenu.tsx:21 | no submenu is open |
| `MobileMenu.Menu.ToggleSubmenu` | src/components/layout/MobileMenu.tsx:23-25 | the open submenu follows the single-open toggle |
| `MobileMenu.Menu.ShownItems` | src/components/layout/MobileMenu.tsx:48-50 | a link's items are listed only while it is the open submenu, and then all of its dropdown items |
| `Text.TrimEmptyIff` | src/pages/ContactPage.tsx:17 | `trim()` leaves nothing exactly when every character is whitespace |
| `Text.IsSpace` | src/pages/ContactPage.tsx:17 | the ECMAScript WhiteSpace and LineTerminator code points that `trim` and `\s` use |
| `Text.TrimStart` | src/pages/ContactPage.tsx:17 | drops exactly the leading whitespace: what it drops is whitespace and what it keeps does not start with whitespace |
| `Text.TrimEnd` | src/pages/ContactPage.tsx:17 | drops exactly the trailing whitespace: what it drops is whitespace and what it keeps does not end with whitespace |
| `Text.Trim` | src/pages/ContactPage.tsx:17 | `trim`; empty exactly for a blank string by `TrimEmptyIff` |
| `Text.ToLower` | src/components/common/Header.tsx:24 | same length; each character lowered if it is an ASCII capital, else kept |
| `Text.Contains` | src/components/common/Header.tsx:24 | `includes`; characterised by `ContainsIff` |
| `Text.ContainsIff` | src/components/common/Header.tsx:24 | the left-to-right `includes` scan succeeds exactly when the needle occurs at some offset |
| `Seqs.FilterCount` | src/components/common/Header.tsx:23-25 | `filter` keeps every copy of an accepted element and no copy of a rejected one |

## Left out

- Persistence: the stores' `persist` middleware, the `localStorage` keys and any rehydration are outside the model; the stores are in memory.
- The auth store, Firebase and Supabase: `login`/`register` are reported as the call the form would make (`AuthForm.RemoteCall`). The store catches every error and keeps its message in its own `error` field. The form shows that field through `formError || error`, and `isLoading` and that `error` are not modelled.
- AuthForm.Form.HandleRemoteFailure: this models the form's two `catch` branches, which the program never reaches because the store never rethrows. A real sign-in or sign-up failure shows the store's `error`, which is not modelled.
- Tax: `Math.round(subtotal * 0.18)` is floating point, so the tax is an integer input of `CartPage.Render` and `Checkout.OrderTotal`. The `/100 … toFixed(2)` display formatting is not modelled either.
- The subtotal: the pages call a `totalPrice()` the store does not define, so the subtotal is an input. `CartPage.AmountsSumToTotal` ties the displayed amounts to `Cart.Total`.
- CartPage.Render, Checkout.OrderTotal: as written, both pages call the undefined `totalPrice()` before any branch (`CartPage.tsx:11`, `CheckoutPage.tsx:28`), so each throws a TypeError on every render. Neither the empty-cart state nor any checkout step is ever shown. These members describe the pages as they would behave with a working subtotal function.
- The sample catalog has no `stock` field, so the product page's cap is always 10 there. It also has no `image` field (only `images`). `Catalog.Product` carries both fields as the pages read them.
- The page-level catalog import is broken: `mockProducts` is not exported by the data file. The model takes the catalog as a parameter instead. Even against the sample `products`, the wishlist page's two literal ids (`cargo-joggers`, `classic-shirt`) match no product, since the sample ids are `"1"`, `"2"`, and so on, so the page as written shows nothing. `WishlistPage.Page.constructor` keeps those literal ids.
- Other cart API mismatches: `addToCart` and the four-argument `addItem` do not exist in the store. Quick add is modelled as the one-argument `addItem` of the line that call describes (`ProductCard.QuickAddLine`). `WishlistPage`'s add-to-cart button is not modelled.
- ProductCard.QuickAddAddsOneUnit: this holds of the call as intended, not as written. As written, the extra arguments are dropped, so the stored line is the product itself. That line has no `quantity`, no `size` and no `color`, so the getTotal and getItemCount reductions become NaN after the first quick add.
- The cart page reads `item.product.images` / `item.color.name`, which the store's `CartItem` lacks. That is rendering only.
- Colours are modelled as strings compared by value. In the sample data each colour is a `{name, value}` object, and the pages store `product.colors[0]` itself, so `===` on colours compares object references in the program. This affects `ProductCard.QuickAddLine`, `ProductDetail.DefaultSelection` and `ProductDetail.ProductDetailPage.SelectColor`.
- ProductDetail.AverageRating: the mean is an exact `real` division, not IEEE floating point.
- `getProductAge` depends on the clock. It is not modelled.
- The size-guide modal flag and the share buttons (`window.open`) are not modelled. The "Added to cart/wishlist" alerts are not modelled either.
- ProductDetail.ClampQuantity: the entered value is an integer. `Number()` of a non-numeric or fractional input (NaN, 2.5) is not modelled.
- Timers and file reading: the contact form's 1.5 s `setTimeout` is the separate step `CompleteSubmission`, and the fit room's `FileReader` is reduced to the data URL it produces (`HandleImageUpload`'s argument, `None` for no file).
- The contact form's `catch` branch (`errors.submit`) is not modelled: nothing in the `try` can throw.
- Navigation: the redirects to `/login`, the checkout's `alert` and `window.location.href = '/'` are not modelled. The wishlist page's redirect effect for a signed-out user is left out as well. The checkout's completion is the `orderPlaced` flag, and the heart button's redirect is the `RedirectedToLogin` outcome.
- DOM plumbing: the `IntersectionObserver` animations, the header's click-outside listener and the checkout's address inputs (stored, never read) are left out.
- The shop filter drawer's checkboxes and price range are not wired to anything in the code, so there is no filtering to model.
- Text.ToLower: only ASCII `A`–`Z` are lowered, whereas `toLowerCase` lowers every Unicode capital.
- AuthForm.FirstError: the length test counts Dafny characters, whereas JavaScript's `length` counts UTF-16 code units. The two differ only for characters outside the Basic Multilingual Plane.
- SearchHeader.Suggestions is written with `Text.IsBlank`, not `trim().length === 0`. The two are the same test by `Text.TrimEmptyIff`.
- The markup-only components, the duplicate `components/home` files, `src/components/layout/Header.tsx`, `MiniCart` and `FitRoomModal` are not part of this model. The last three are wrappers whose state logic repeats the modelled pages.
