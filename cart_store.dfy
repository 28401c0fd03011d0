/** The cart store (`src/store/cartStore.ts`): an ordered list of line items.
    Adding merges on (id, size, color); removing and changing a quantity
    match on `id` alone, so they reach every size/colour variant of a
    product. The pure functions give each action's new list; the class
    holds the list and applies them. */
module Cart {
  import opened Wrappers
  import Seqs

  /** `color` and `size` are optional in the store's `CartItem`. */
  datatype CartItem = CartItem(
    id: string,
    name: string,
    image: string,
    price: int,
    quantity: int,
    color: Option<string>,
    size: Option<string>)

  /** The identity `addItem` merges on. */
  function Key(item: CartItem): (string, Option<string>, Option<string>) {
    (item.id, item.size, item.color)
  }

  predicate SameKey(a: CartItem, b: CartItem) {
    a.id == b.id && a.size == b.size && a.color == b.color
  }

  /** The store invariant: no two lines share (id, size, color). */
  predicate KeysUnique(items: seq<CartItem>) {
    Seqs.UniqueBy(Key, items)
  }

  /** `items.find(...)` in `addItem`: the first line with the new item's key. */
  function FindLine(items: seq<CartItem>, newItem: CartItem): (r: Option<CartItem>)
    ensures r.None? <==> forall line :: line in items ==> !SameKey(line, newItem)
    ensures r.Some? ==> r.value in items && SameKey(r.value, newItem)
  {
    if items == [] then None
    else if SameKey(items[0], newItem) then Some(items[0])
    else
      assert forall line :: line in items[1..] ==> line in items;
      FindLine(items[1..], newItem)
  }

  /** The merge branch's `items.map(...)`: every line with `existing`'s key
      gets `q` more; its other fields, the stored price included, stay. */
  function MergeQuantity(items: seq<CartItem>, existing: CartItem, q: int): seq<CartItem> {
    seq(|items|, k requires 0 <= k < |items| =>
      if SameKey(items[k], existing) then items[k].(quantity := items[k].quantity + q) else items[k])
  }

  /** The list `addItem(newItem)` stores. */
  function AddedItems(items: seq<CartItem>, newItem: CartItem): seq<CartItem> {
    match FindLine(items, newItem)
    case Some(existing) => MergeQuantity(items, existing, newItem.quantity)
    case None => items + [newItem]
  }

  /** The list `removeItem(id)` stores. */
  function RemovedItems(items: seq<CartItem>, id: string): seq<CartItem> {
    Seqs.Filter((line: CartItem) => line.id != id, items)
  }

  /** The list `updateQuantity(id, quantity)` stores: no clamping. */
  function UpdatedItems(items: seq<CartItem>, id: string, quantity: int): seq<CartItem> {
    seq(|items|, k requires 0 <= k < |items| =>
      if items[k].id == id then items[k].(quantity := quantity) else items[k])
  }

  /** What a line contributes to `getTotal`. */
  function Amount(line: CartItem): int {
    line.price * line.quantity
  }

  /** `getTotal`: the `reduce` of price × quantity, from the left. */
  function Total(items: seq<CartItem>): int {
    if items == [] then 0 else Total(items[..|items| - 1]) + Amount(items[|items| - 1])
  }

  /** `getItemCount`: the `reduce` of the quantities, from the left. */
  function ItemCount(items: seq<CartItem>): int {
    if items == [] then 0 else ItemCount(items[..|items| - 1]) + items[|items| - 1].quantity
  }

  /** Neither sum goes below zero while no line has a negative price or
      quantity. */
  lemma {:induction false} SumsNonNegative(items: seq<CartItem>)
    requires forall line :: line in items ==> line.price >= 0 && line.quantity >= 0
    ensures Total(items) >= 0 && ItemCount(items) >= 0
    decreases |items|
  {
    if items != [] {
      var n := |items| - 1;
      assert forall line :: line in items[..n] ==> line in items;
      SumsNonNegative(items[..n]);
      assert items[n] in items;
    }
  }

  class CartStore {
    var items: seq<CartItem>

    ghost predicate Valid()
      reads this
    {
      KeysUnique(items)
    }

    /** A fresh store holds no lines. */
    constructor ()
      ensures Valid() && items == []
    {
      items := [];
    }

    method AddItem(newItem: CartItem)
      requires Valid()
      modifies this
      ensures Valid()
      ensures items == AddedItems(old(items), newItem)
    {
      AddKeepsKeysUnique(items, newItem);
      items := AddedItems(items, newItem);
    }

    method RemoveItem(id: string)
      requires Valid()
      modifies this
      ensures Valid()
      ensures items == RemovedItems(old(items), id)
    {
      RemoveKeepsKeysUnique(items, id);
      items := RemovedItems(items, id);
    }

    method UpdateQuantity(id: string, quantity: int)
      requires Valid()
      modifies this
      ensures Valid()
      ensures items == UpdatedItems(old(items), id, quantity)
    {
      UpdateKeepsKeysUnique(items, id, quantity);
      items := UpdatedItems(items, id, quantity);
    }

    method ClearCart()
      modifies this
      ensures Valid() && items == []
    {
      items := [];
    }

    function GetTotal(): (t: int)
      reads this
      ensures t == Total(items)
    {
      Total(items)
    }

    function GetItemCount(): (n: int)
      reads this
      ensures n == ItemCount(items)
    {
      ItemCount(items)
    }
  }

  /** A fresh store has no lines, so its total and its item count are 0. */
  method FreshCartSumsZero() returns (cart: CartStore)
    ensures cart.Valid() && cart.items == []
    ensures cart.GetTotal() == 0 && cart.GetItemCount() == 0
  {
    cart := new CartStore();
  }

  // ----- addItem -----

  /** An unseen key is appended; the earlier lines are untouched. */
  lemma AddNewKeyAppends(items: seq<CartItem>, newItem: CartItem)
    requires forall line :: line in items ==> !SameKey(line, newItem)
    ensures AddedItems(items, newItem) == items + [newItem]
  {
  }

  /** With the invariant, a known key bumps that one line by the new
      quantity; length, order and every other field (the stored price
      included) are unchanged. */
  lemma {:induction false} AddExistingKeyMerges(items: seq<CartItem>, newItem: CartItem, k: int)
    requires KeysUnique(items)
    requires 0 <= k < |items| && SameKey(items[k], newItem)
    ensures AddedItems(items, newItem) == items[k := items[k].(quantity := items[k].quantity + newItem.quantity)]
  {
    assert items[k] in items;
    var existing := FindLine(items, newItem).value;
    var r := AddedItems(items, newItem);
    forall j | 0 <= j < |items|
      ensures r[j] == items[k := items[k].(quantity := items[k].quantity + newItem.quantity)][j]
    {
      if j != k {
        assert Key(items[j]) != Key(items[k]);
      }
    }
  }

  lemma {:induction false} AddKeepsKeysUnique(items: seq<CartItem>, newItem: CartItem)
    requires KeysUnique(items)
    ensures KeysUnique(AddedItems(items, newItem))
  {
    if FindLine(items, newItem).None? {
      var r := items + [newItem];
      forall i, j | 0 <= i < j < |r| ensures Key(r[i]) != Key(r[j]) {
        if j == |items| {
          assert r[i] in items;
        }
      }
    } else {
      var r := AddedItems(items, newItem);
      forall i, j | 0 <= i < j < |r| ensures Key(r[i]) != Key(r[j]) {
        assert Key(r[i]) == Key(items[i]) && Key(r[j]) == Key(items[j]);
      }
    }
  }

  /** With the invariant, `getItemCount` grows by exactly the added
      quantity, whichever branch `addItem` takes. */
  lemma AddIncreasesItemCount(items: seq<CartItem>, newItem: CartItem)
    requires KeysUnique(items)
    ensures ItemCount(AddedItems(items, newItem)) == ItemCount(items) + newItem.quantity
  {
    match FindLine(items, newItem)
    case None =>
      assert (items + [newItem])[..|items|] == items;
    case Some(existing) =>
      var k :| 0 <= k < |items| && items[k] == existing;
      AddExistingKeyMerges(items, newItem, k);
      ItemCountUpdateAt(items, k, items[k].(quantity := items[k].quantity + newItem.quantity));
  }

  /** With the invariant, `getTotal` grows by the price of the line that
      absorbs the quantity: the new item's price when appended, the stored
      line's price when merged. */
  lemma {:induction false} AddIncreasesTotal(items: seq<CartItem>, newItem: CartItem)
    requires KeysUnique(items)
    ensures FindLine(items, newItem).None? ==>
              Total(AddedItems(items, newItem)) == Total(items) + newItem.price * newItem.quantity
    ensures FindLine(items, newItem).Some? ==>
              Total(AddedItems(items, newItem)) == Total(items) + FindLine(items, newItem).value.price * newItem.quantity
  {
    var found := FindLine(items, newItem);
    if found.None? {
      assert AddedItems(items, newItem) == items + [newItem];
      assert (items + [newItem])[..|items|] == items;
    } else {
      var k :| 0 <= k < |items| && items[k] == found.value;
      MergeRaisesTotal(items, newItem, k);
    }
  }

  /** The merge case: line `k` holds the new item's key. */
  lemma {:induction false} MergeRaisesTotal(items: seq<CartItem>, newItem: CartItem, k: int)
    requires KeysUnique(items)
    requires 0 <= k < |items| && SameKey(items[k], newItem)
    ensures Total(AddedItems(items, newItem)) == Total(items) + items[k].price * newItem.quantity
  {
    var bumped := items[k := items[k].(quantity := items[k].quantity + newItem.quantity)];
    assert AddedItems(items, newItem) == bumped by {
      AddExistingKeyMerges(items, newItem, k);
    }
    BumpRaisesTotal(items, k, newItem.quantity);
  }

  /** Adding `q` to line `k`'s quantity raises the total by its price times `q`. */
  lemma {:induction false} BumpRaisesTotal(items: seq<CartItem>, k: int, q: int)
    requires 0 <= k < |items|
    ensures Total(items[k := items[k].(quantity := items[k].quantity + q)]) == Total(items) + items[k].price * q
  {
    TotalUpdateAt(items, k, items[k].(quantity := items[k].quantity + q));
    MergedAmount(items[k], q);
  }

  /** A merged line's amount grows by its own price times the added quantity. */
  lemma MergedAmount(line: CartItem, q: int)
    ensures Amount(line.(quantity := line.quantity + q)) == Amount(line) + line.price * q
  {
    Distribute(line.price, line.quantity, q);
  }

  lemma Distribute(p: int, a: int, b: int)
    ensures p * (a + b) == p * a + p * b
  {
  }

  lemma {:induction false} ItemCountUpdateAt(s: seq<CartItem>, k: int, x: CartItem)
    requires 0 <= k < |s|
    ensures ItemCount(s[k := x]) == ItemCount(s) - s[k].quantity + x.quantity
    decreases |s|
  {
    var n := |s| - 1;
    if k == n {
      assert s[k := x][..n] == s[..n];
    } else {
      assert s[k := x][..n] == s[..n][k := x];
      ItemCountUpdateAt(s[..n], k, x);
    }
  }

  lemma {:induction false} TotalUpdateAt(s: seq<CartItem>, k: int, x: CartItem)
    requires 0 <= k < |s|
    ensures Total(s[k := x]) == Total(s) - Amount(s[k]) + Amount(x)
    decreases |s|
  {
    var n := |s| - 1;
    if k == n {
      assert s[k := x][..n] == s[..n];
    } else {
      assert s[k := x][..n] == s[..n][k := x];
      TotalUpdateAt(s[..n], k, x);
    }
  }

  // ----- removeItem -----

  /** `removeItem(id)` drops every line with that id, whatever its size or
      colour, keeps the others in order, and keeps the invariant. */
  lemma RemoveDropsAllVariants(items: seq<CartItem>, id: string)
    ensures forall line :: line in RemovedItems(items, id) <==> line in items && line.id != id
    ensures Seqs.IsSubseq(RemovedItems(items, id), items)
  {
    Seqs.FilterIsSubseq((line: CartItem) => line.id != id, items);
  }

  /** Removing an id no line has changes nothing. */
  lemma RemoveAbsentIsNoop(items: seq<CartItem>, id: string)
    requires forall line :: line in items ==> line.id != id
    ensures RemovedItems(items, id) == items
  {
    Seqs.FilterAll((line: CartItem) => line.id != id, items);
  }

  lemma RemoveKeepsKeysUnique(items: seq<CartItem>, id: string)
    requires KeysUnique(items)
    ensures KeysUnique(RemovedItems(items, id))
  {
    Seqs.FilterUnique((line: CartItem) => line.id != id, Key, items);
  }

  // ----- updateQuantity -----

  /** Every line with the id, in every variant, gets exactly `quantity`
      (zero and negatives included); no other field or line changes. */
  lemma UpdateSetsAllVariants(items: seq<CartItem>, id: string, quantity: int)
    ensures |UpdatedItems(items, id, quantity)| == |items|
    ensures forall k :: 0 <= k < |items| && items[k].id == id ==>
              UpdatedItems(items, id, quantity)[k] == items[k].(quantity := quantity)
    ensures forall k :: 0 <= k < |items| && items[k].id != id ==>
              UpdatedItems(items, id, quantity)[k] == items[k]
  {
  }

  /** Updating an id no line has changes nothing. */
  lemma UpdateAbsentIsNoop(items: seq<CartItem>, id: string, quantity: int)
    requires forall line :: line in items ==> line.id != id
    ensures UpdatedItems(items, id, quantity) == items
  {
    var r := UpdatedItems(items, id, quantity);
    forall k | 0 <= k < |items| ensures r[k] == items[k] {
      assert items[k] in items;
    }
  }

  lemma UpdateKeepsKeysUnique(items: seq<CartItem>, id: string, quantity: int)
    requires KeysUnique(items)
    ensures KeysUnique(UpdatedItems(items, id, quantity))
  {
    var r := UpdatedItems(items, id, quantity);
    forall i, j | 0 <= i < j < |r| ensures Key(r[i]) != Key(r[j]) {
      assert Key(r[i]) == Key(items[i]) && Key(r[j]) == Key(items[j]);
    }
  }

  // ----- totals -----

  /** Both sums split over concatenation, so each is the sum of its lines. */
  lemma {:induction false} SumsAppend(a: seq<CartItem>, b: seq<CartItem>)
    ensures Total(a + b) == Total(a) + Total(b)
    ensures ItemCount(a + b) == ItemCount(a) + ItemCount(b)
    decreases |b|
  {
    if b == [] {
      assert a + b == a;
    } else {
      var n := |b| - 1;
      assert (a + b)[..|a + b| - 1] == a + b[..n];
      SumsAppend(a, b[..n]);
    }
  }

  /** Adding the same (id, size, color) twice leaves one line holding both
      quantities; a different size makes a second line. */
  lemma SameKeyTwiceMerges(a: CartItem, q1: int, q2: int)
    ensures AddedItems(AddedItems([], a.(quantity := q1)), a.(quantity := q2)) == [a.(quantity := q1 + q2)]
    ensures forall s: Option<string> :: s != a.size ==>
              |AddedItems(AddedItems([], a.(quantity := q1)), a.(quantity := q2, size := s))| == 2
  {
    var first := [a.(quantity := q1)];
    assert AddedItems([], a.(quantity := q1)) == first;
    assert FindLine(first, a.(quantity := q2)) == Some(first[0]);
    assert MergeQuantity(first, first[0], q2) == [a.(quantity := q1 + q2)];
  }

  /** Two variants of one product are both removed, and both updated, by id. */
  lemma IdActionsHitEveryVariant()
    ensures var m := CartItem("1", "Tee", "t.jpg", 1999, 2, Some("Black"), Some("M"));
            var l := m.(size := Some("L"));
            var j := CartItem("2", "Jogger", "j.jpg", 2499, 1, None, None);
            RemovedItems([m, l, j], "1") == [j]
            && UpdatedItems([m, l, j], "1", 0) == [m.(quantity := 0), l.(quantity := 0), j]
  {
    var m := CartItem("1", "Tee", "t.jpg", 1999, 2, Some("Black"), Some("M"));
    var l := m.(size := Some("L"));
    var j := CartItem("2", "Jogger", "j.jpg", 2499, 1, None, None);
    assert RemovedItems([l, j], "1") == RemovedItems([j], "1");
    assert RemovedItems([m, l, j], "1") == RemovedItems([l, j], "1");
  }

  /** Two units at 1999 and one at 2499: three items totalling 6497. */
  lemma CartTotalScenario()
    ensures var tee := CartItem("1", "Oversized Street Tee", "tee.jpg", 1999, 2, Some("Black"), Some("M"));
            var cargo := CartItem("2", "Cargo Pants", "cargo.jpg", 2499, 1, Some("Olive"), Some("32"));
            var items := AddedItems(AddedItems([], tee), cargo);
            ItemCount(items) == 3 && Total(items) == 6497
  {
    var tee := CartItem("1", "Oversized Street Tee", "tee.jpg", 1999, 2, Some("Black"), Some("M"));
    var cargo := CartItem("2", "Cargo Pants", "cargo.jpg", 2499, 1, Some("Olive"), Some("32"));
    assert AddedItems([], tee) == [tee];
    assert AddedItems([tee], cargo) == [tee, cargo];
    assert [tee, cargo][..1] == [tee];
    assert [tee][..0] == [];
    assert Total([tee]) == 3998 && ItemCount([tee]) == 2;
  }
}
