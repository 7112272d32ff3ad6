/** lib/cart-utils.ts: the cart reducer keyed by `productId`, and the browser slot it
    persists every result to. */
module CartUtils {
  import opened Wrappers

  /** An image reference from the catalog. */
  datatype Image = Image(url: string, imgixUrl: string)

  /** One cart line: a snapshot of the product taken when it was added. */
  datatype CartItem = CartItem(
    productId: string,
    slug: string,
    name: string,
    price: real,
    quantity: int,
    image: Option<Image>)

  datatype CartState = CartState(items: seq<CartItem>, totalItems: int, totalPrice: real)

  /** `{ items: [], totalItems: 0, totalPrice: 0 }` */
  const EmptyCart := CartState([], 0, 0.0)

  /** `items.reduce((sum, item) => sum + item.quantity, 0)` */
  function SumQuantities(items: seq<CartItem>): int {
    if items == [] then 0 else items[0].quantity + SumQuantities(items[1..])
  }

  /** `item.price * item.quantity` */
  function LineTotal(item: CartItem): real {
    item.price * item.quantity as real
  }

  /** `items.reduce((sum, item) => sum + item.price * item.quantity, 0)` */
  function SumPrices(items: seq<CartItem>): real {
    if items == [] then 0.0 else LineTotal(items[0]) + SumPrices(items[1..])
  }

  /** The totals of a cart are the ones its lines add up to. */
  predicate Consistent(c: CartState) {
    c.totalItems == SumQuantities(c.items) && c.totalPrice == SumPrices(c.items)
  }

  /** No two lines share a product id. */
  predicate UniqueIds(items: seq<CartItem>) {
    forall i, j :: 0 <= i < j < |items| ==> items[i].productId != items[j].productId
  }

  /** Every line holds at least one unit. */
  predicate PositiveQuantities(items: seq<CartItem>) {
    forall i :: 0 <= i < |items| ==> items[i].quantity >= 1
  }

  predicate WellFormed(items: seq<CartItem>) {
    UniqueIds(items) && PositiveQuantities(items)
  }

  predicate HasProduct(items: seq<CartItem>, productId: string) {
    exists i :: 0 <= i < |items| && items[i].productId == productId
  }

  /** `calculateTotals(items)` */
  function CalculateTotals(items: seq<CartItem>): (r: CartState)
    ensures r.items == items && Consistent(r)
  {
    CartState(items, SumQuantities(items), SumPrices(items))
  }

  /** `items.findIndex((i) => i.productId === productId)`: the first matching index, or -1. */
  function FindIndex(items: seq<CartItem>, productId: string): (k: int)
    ensures -1 <= k < |items|
    ensures k == -1 <==> !HasProduct(items, productId)
    ensures k >= 0 ==> items[k].productId == productId
    ensures forall j :: 0 <= j < k ==> items[j].productId != productId
  {
    if items == [] then -1
    else if items[0].productId == productId then 0
    else
      var k := FindIndex(items[1..], productId);
      assert forall j :: 0 < j < |items| ==> items[j] == items[1..][j - 1];
      if k == -1 then -1 else k + 1
  }

  /** The lines `addItemToCart` computes: the first line with the same product id has its
      quantity raised by the incoming quantity; otherwise the item is appended. */
  function ItemsWithAdded(items: seq<CartItem>, item: CartItem): seq<CartItem> {
    var k := FindIndex(items, item.productId);
    if k >= 0 then items[k := items[k].(quantity := items[k].quantity + item.quantity)]
    else items + [item]
  }

  /** The cart `addItemToCart(cart, item)` returns. */
  function CartWithItem(cart: CartState, item: CartItem): (r: CartState)
    ensures Consistent(r)
    ensures HasProduct(r.items, item.productId)
  {
    var k := FindIndex(cart.items, item.productId);
    var items := ItemsWithAdded(cart.items, item);
    var w := if k >= 0 then k else |cart.items|;
    assert items[w].productId == item.productId;
    CalculateTotals(items)
  }

  /** `items.filter((i) => i.productId !== productId)` */
  function ItemsWithout(items: seq<CartItem>, productId: string): (r: seq<CartItem>)
    ensures |r| <= |items|
  {
    if items == [] then []
    else if items[0].productId == productId then ItemsWithout(items[1..], productId)
    else [items[0]] + ItemsWithout(items[1..], productId)
  }

  /** The filter keeps exactly the lines of other products. */
  lemma {:induction false} ItemsWithoutMembers(items: seq<CartItem>, productId: string)
    ensures forall x :: x in ItemsWithout(items, productId) <==> x in items && x.productId != productId
  {
    if items != [] {
      ItemsWithoutMembers(items[1..], productId);
      assert items == [items[0]] + items[1..];
    }
  }

  /** What the filter keeps of one line. */
  function KeptUnless(x: CartItem, productId: string): seq<CartItem> {
    if x.productId == productId then [] else [x]
  }

  /** One step of the filter. */
  lemma WithoutCons(x: CartItem, rest: seq<CartItem>, productId: string)
    ensures ItemsWithout([x] + rest, productId) == KeptUnless(x, productId) + ItemsWithout(rest, productId)
  {
    assert ([x] + rest)[0] == x && ([x] + rest)[1..] == rest;
    if x.productId == productId {
      assert [] + ItemsWithout(rest, productId) == ItemsWithout(rest, productId);
    }
  }

  /** The filter keeps the remaining lines in order, whatever the cart holds: filtering a
      concatenation filters each part. */
  lemma {:induction false} WithoutAppend(a: seq<CartItem>, b: seq<CartItem>, productId: string)
    ensures ItemsWithout(a + b, productId) == ItemsWithout(a, productId) + ItemsWithout(b, productId)
  {
    if a == [] {
      assert a + b == b;
    } else {
      var x, rest := a[0], a[1..];
      assert a == [x] + rest;
      WithoutAppend(rest, b, productId);
      WithoutAppendStep(x, rest, b, productId);
    }
  }

  /** The inductive step of `WithoutAppend`. */
  lemma WithoutAppendStep(x: CartItem, rest: seq<CartItem>, b: seq<CartItem>, productId: string)
    requires ItemsWithout(rest + b, productId) == ItemsWithout(rest, productId) + ItemsWithout(b, productId)
    ensures ItemsWithout([x] + rest + b, productId) == ItemsWithout([x] + rest, productId) + ItemsWithout(b, productId)
  {
    var kx := KeptUnless(x, productId);
    assert [x] + rest + b == [x] + (rest + b);
    calc {
      ItemsWithout([x] + (rest + b), productId);
    == { WithoutCons(x, rest + b, productId); }
      kx + ItemsWithout(rest + b, productId);
    ==
      kx + (ItemsWithout(rest, productId) + ItemsWithout(b, productId));
    == { assert kx + (ItemsWithout(rest, productId) + ItemsWithout(b, productId))
           == (kx + ItemsWithout(rest, productId)) + ItemsWithout(b, productId); }
      (kx + ItemsWithout(rest, productId)) + ItemsWithout(b, productId);
    == { WithoutCons(x, rest, productId); }
      ItemsWithout([x] + rest, productId) + ItemsWithout(b, productId);
    }
  }

  /** The cart `removeItemFromCart(cart, productId)` returns. */
  function CartWithout(cart: CartState, productId: string): (r: CartState)
    ensures Consistent(r)
    ensures !HasProduct(r.items, productId)
  {
    ItemsWithoutMembers(cart.items, productId);
    var r := CalculateTotals(ItemsWithout(cart.items, productId));
    assert forall i :: 0 <= i < |r.items| ==> r.items[i] in r.items;
    r
  }

  /** `items.map((i) => i.productId === productId ? { ...i, quantity } : i)` */
  function ItemsWithQuantity(items: seq<CartItem>, productId: string, quantity: int): seq<CartItem> {
    seq(|items|, i requires 0 <= i < |items| =>
      if items[i].productId == productId then items[i].(quantity := quantity) else items[i])
  }

  /** The cart `updateItemQuantity(cart, productId, quantity)` returns. */
  function CartWithQuantity(cart: CartState, productId: string, quantity: int): (r: CartState)
    ensures Consistent(r)
  {
    if quantity <= 0 then CartWithout(cart, productId)
    else CalculateTotals(ItemsWithQuantity(cart.items, productId, quantity))
  }

  // ---------------------------------------------------------------------------
  // Properties of the reducer
  // ---------------------------------------------------------------------------

  lemma {:induction false} SumsAppend(a: seq<CartItem>, b: seq<CartItem>)
    ensures SumQuantities(a + b) == SumQuantities(a) + SumQuantities(b)
    ensures SumPrices(a + b) == SumPrices(a) + SumPrices(b)
  {
    if a == [] {
      assert a + b == b;
    } else {
      SumsAppend(a[1..], b);
      SumsAppendStep(a, b);
    }
  }

  /** The inductive step of `SumsAppend`. */
  lemma SumsAppendStep(a: seq<CartItem>, b: seq<CartItem>)
    requires a != []
    requires SumQuantities(a[1..] + b) == SumQuantities(a[1..]) + SumQuantities(b)
    requires SumPrices(a[1..] + b) == SumPrices(a[1..]) + SumPrices(b)
    ensures SumQuantities(a + b) == SumQuantities(a) + SumQuantities(b)
    ensures SumPrices(a + b) == SumPrices(a) + SumPrices(b)
  {
    assert (a + b)[0] == a[0];
    assert (a + b)[1..] == a[1..] + b;
  }

  /** Replacing line `k` changes the sums by the difference of the two lines. */
  lemma SumsReplace(items: seq<CartItem>, k: nat, x: CartItem)
    requires k < |items|
    ensures SumQuantities(items[k := x]) == SumQuantities(items) - items[k].quantity + x.quantity
    ensures SumPrices(items[k := x]) ==
      SumPrices(items) - LineTotal(items[k]) + LineTotal(x)
  {
    var pre, post := items[..k], items[k + 1..];
    assert items == pre + [items[k]] + post;
    assert items[k := x] == pre + [x] + post;
    SumsAppend(pre + [items[k]], post);
    SumsAppend(pre, [items[k]]);
    SumsAppend(pre + [x], post);
    SumsAppend(pre, [x]);
  }

  /** Raising a line's quantity raises its total by the extra units at the line's price. */
  lemma LineTotalMerge(y: CartItem, extra: int)
    ensures LineTotal(y.(quantity := y.quantity + extra)) == LineTotal(y) + y.price * extra as real
  {
    var p, a := y.price, y.quantity;
    assert p * (a + extra) as real == p * a as real + p * extra as real;
  }

  /** Dropping line `k` takes that line off both sums. */
  lemma SumsDrop(items: seq<CartItem>, k: nat)
    requires k < |items|
    ensures SumQuantities(items[..k] + items[k + 1..]) == SumQuantities(items) - items[k].quantity
    ensures SumPrices(items[..k] + items[k + 1..]) ==
      SumPrices(items) - LineTotal(items[k])
  {
    var pre, post := items[..k], items[k + 1..];
    assert items == pre + ([items[k]] + post);
    SumsAppend(pre, [items[k]] + post);
    SumsAppend([items[k]], post);
    SumsAppend(pre, post);
  }

  /** Dropping one line keeps ids unique and quantities positive. */
  lemma DropPreservesWellFormed(items: seq<CartItem>, k: nat)
    requires WellFormed(items) && k < |items|
    ensures WellFormed(items[..k] + items[k + 1..])
  {
    var r := items[..k] + items[k + 1..];
    assert forall i :: 0 <= i < k ==> r[i] == items[i];
    assert forall i :: k <= i < |r| ==> r[i] == items[i + 1];
  }

  /** Adding a product already in the cart changes only its first line: the quantity goes
      up by the incoming quantity and the stored name, slug, price and image are kept. */
  lemma AddMergesExisting(cart: CartState, item: CartItem)
    requires HasProduct(cart.items, item.productId)
    ensures var k := FindIndex(cart.items, item.productId);
      var r := CartWithItem(cart, item).items;
      && |r| == |cart.items|
      && r[k].productId == item.productId
      && r[k].quantity == cart.items[k].quantity + item.quantity
      && r[k].name == cart.items[k].name && r[k].slug == cart.items[k].slug
      && r[k].price == cart.items[k].price && r[k].image == cart.items[k].image
      && forall i :: 0 <= i < |r| && i != k ==> r[i] == cart.items[i]
  {
  }

  /** Adding a new product appends it after the existing lines, which keep their order. */
  lemma AddAppendsNew(cart: CartState, item: CartItem)
    requires !HasProduct(cart.items, item.productId)
    ensures CartWithItem(cart, item).items == cart.items + [item]
  {
  }

  /** Adding moves the totals by exactly the units added, priced at the stored snapshot
      when the product was already in the cart and at the incoming price otherwise. */
  lemma AddItemTotals(cart: CartState, item: CartItem)
    requires Consistent(cart)
    ensures var r := CartWithItem(cart, item);
      var k := FindIndex(cart.items, item.productId);
      var unit := if k >= 0 then cart.items[k].price else item.price;
      && r.totalItems == cart.totalItems + item.quantity
      && r.totalPrice == cart.totalPrice + unit * item.quantity as real
  {
    var k := FindIndex(cart.items, item.productId);
    if k >= 0 {
      AddExistingTotals(cart, item, k);
    } else {
      AddNewTotals(cart, item);
    }
  }

  /** `AddItemTotals` for a product already in the cart, at line `k`. */
  lemma AddExistingTotals(cart: CartState, item: CartItem, k: nat)
    requires Consistent(cart) && k == FindIndex(cart.items, item.productId)
    ensures CartWithItem(cart, item).totalItems == cart.totalItems + item.quantity
    ensures CartWithItem(cart, item).totalPrice == cart.totalPrice + cart.items[k].price * item.quantity as real
  {
    MergedTotals(cart.items, k, item.quantity);
  }

  /** `AddItemTotals` for a product not yet in the cart. */
  lemma AddNewTotals(cart: CartState, item: CartItem)
    requires Consistent(cart) && FindIndex(cart.items, item.productId) == -1
    ensures CartWithItem(cart, item).totalItems == cart.totalItems + item.quantity
    ensures CartWithItem(cart, item).totalPrice == cart.totalPrice + item.price * item.quantity as real
  {
    AppendedTotals(cart.items, item);
  }

  /** Appending a line adds its quantity and its line total to the sums. */
  lemma AppendedTotals(items: seq<CartItem>, item: CartItem)
    ensures SumQuantities(items + [item]) == SumQuantities(items) + item.quantity
    ensures SumPrices(items + [item]) == SumPrices(items) + item.price * item.quantity as real
  {
    SumsAppend(items, [item]);
    assert [item][1..] == [];
  }

  lemma MergedTotals(items: seq<CartItem>, k: nat, extra: int)
    requires k < |items|
    ensures var merged := items[k := items[k].(quantity := items[k].quantity + extra)];
      && SumQuantities(merged) == SumQuantities(items) + extra
      && SumPrices(merged) == SumPrices(items) + items[k].price * extra as real
  {
    var x := items[k].(quantity := items[k].quantity + extra);
    SumsReplace(items, k, x);
    LineTotalMerge(items[k], extra);
  }

  /** Unique ids and positive quantities survive an add of at least one unit. */
  lemma AddPreservesWellFormed(cart: CartState, item: CartItem)
    requires WellFormed(cart.items) && item.quantity >= 1
    ensures WellFormed(CartWithItem(cart, item).items)
  {
    var k := FindIndex(cart.items, item.productId);
    var r := CartWithItem(cart, item).items;
    if k < 0 {
      assert r == cart.items + [item];
      forall i, j | 0 <= i < j < |r| ensures r[i].productId != r[j].productId {
        if j == |cart.items| {
          assert r[i] == cart.items[i];
        }
      }
    }
  }

  /** Removing a product from a cart whose ids are unique drops exactly its one line (or
      nothing) and keeps the others in order. */
  lemma {:induction false} RemoveUnique(items: seq<CartItem>, productId: string)
    requires UniqueIds(items)
    ensures var k := FindIndex(items, productId);
      ItemsWithout(items, productId) == if k >= 0 then items[..k] + items[k + 1..] else items
  {
    if items != [] {
      var tail := items[1..];
      assert UniqueIds(tail) by {
        forall i, j | 0 <= i < j < |tail| ensures tail[i].productId != tail[j].productId {
          assert tail[i] == items[i + 1] && tail[j] == items[j + 1];
        }
      }
      RemoveUnique(tail, productId);
      RemoveUniqueStep(items, productId);
    }
  }

  /** The inductive step of `RemoveUnique`, for a non-empty cart. */
  lemma RemoveUniqueStep(items: seq<CartItem>, productId: string)
    requires items != [] && UniqueIds(items)
    requires var tail := items[1..];
      var kt := FindIndex(tail, productId);
      ItemsWithout(tail, productId) == if kt >= 0 then tail[..kt] + tail[kt + 1..] else tail
    ensures var k := FindIndex(items, productId);
      ItemsWithout(items, productId) == if k >= 0 then items[..k] + items[k + 1..] else items
  {
    if items[0].productId == productId {
      RemoveAtHead(items, productId);
    } else {
      RemoveAfterHead(items, productId);
    }
  }

  /** The removed line is the first one: the rest holds no other line of that product. */
  lemma RemoveAtHead(items: seq<CartItem>, productId: string)
    requires items != [] && UniqueIds(items) && items[0].productId == productId
    requires var tail := items[1..];
      FindIndex(tail, productId) == -1 ==> ItemsWithout(tail, productId) == tail
    ensures ItemsWithout(items, productId) == items[1..]
  {
    var tail := items[1..];
    assert !HasProduct(tail, productId) by {
      forall j | 0 <= j < |tail| ensures tail[j].productId != productId {
        assert tail[j] == items[j + 1];
      }
    }
  }

  /** The removed line, if any, lies after the first one. */
  lemma RemoveAfterHead(items: seq<CartItem>, productId: string)
    requires items != [] && items[0].productId != productId
    requires var tail := items[1..];
      var kt := FindIndex(tail, productId);
      ItemsWithout(tail, productId) == if kt >= 0 then tail[..kt] + tail[kt + 1..] else tail
    ensures var k := FindIndex(items, productId);
      ItemsWithout(items, productId) == if k >= 0 then items[..k] + items[k + 1..] else items
  {
    var tail := items[1..];
    var kt := FindIndex(tail, productId);
    assert FindIndex(items, productId) == if kt == -1 then -1 else kt + 1;
    assert ItemsWithout(items, productId) == [items[0]] + ItemsWithout(tail, productId);
    if kt >= 0 {
      SliceAroundAfterHead(items, kt);
    } else {
      assert [items[0]] + tail == items;
    }
  }

  /** Cutting out position `kt + 1` of a non-empty list is keeping its head and cutting
      position `kt` out of its tail. */
  lemma SliceAroundAfterHead(items: seq<CartItem>, kt: nat)
    requires kt + 1 < |items|
    ensures items[..kt + 1] + items[kt + 2..] == [items[0]] + (items[1..][..kt] + items[1..][kt + 1..])
  {
    assert items[..kt + 1] == [items[0]] + items[1..][..kt];
    assert items[kt + 2..] == items[1..][kt + 1..];
  }

  /** An id that is not in the cart leaves the lines as they were. */
  lemma {:induction false} RemoveAbsent(items: seq<CartItem>, productId: string)
    requires !HasProduct(items, productId)
    ensures ItemsWithout(items, productId) == items
  {
    if items != [] {
      assert !HasProduct(items[1..], productId) by {
        forall j | 0 <= j < |items| - 1 ensures items[1..][j].productId != productId {
          assert items[1..][j] == items[j + 1];
        }
      }
      RemoveAbsent(items[1..], productId);
      assert [items[0]] + items[1..] == items;
    }
  }

  /** Removing keeps the remaining lines well formed. */
  lemma {:induction false} RemovePreservesWellFormed(items: seq<CartItem>, productId: string)
    requires WellFormed(items)
    ensures WellFormed(ItemsWithout(items, productId))
  {
    RemoveUnique(items, productId);
    var k := FindIndex(items, productId);
    if k >= 0 {
      DropPreservesWellFormed(items, k);
    }
  }

  /** Removing a line takes its units and its price off the totals. */
  lemma RemoveItemTotals(cart: CartState, productId: string)
    requires Consistent(cart) && UniqueIds(cart.items)
    ensures var r := CartWithout(cart, productId);
      var k := FindIndex(cart.items, productId);
      && r.totalItems == cart.totalItems - (if k >= 0 then cart.items[k].quantity else 0)
      && r.totalPrice == cart.totalPrice -
           (if k >= 0 then LineTotal(cart.items[k]) else 0.0)
  {
    RemoveUnique(cart.items, productId);
    var k := FindIndex(cart.items, productId);
    if k >= 0 {
      SumsDrop(cart.items, k);
    } else {
      assert CartWithout(cart, productId).items == cart.items;
    }
  }

  /** With a quantity of zero or less, update is remove: the product's lines are gone and
      exactly the other lines remain. With a positive quantity, update sets (not adds to)
      the quantity of the matching lines and keeps the length and every other line. */
  lemma UpdateQuantityCases(cart: CartState, productId: string, quantity: int)
    ensures quantity <= 0 ==>
      var r := CartWithQuantity(cart, productId, quantity);
      && r == CartWithout(cart, productId)
      && forall x :: x in r.items <==> x in cart.items && x.productId != productId
    ensures quantity > 0 ==>
      var r := CartWithQuantity(cart, productId, quantity).items;
      && |r| == |cart.items|
      && forall i :: 0 <= i < |r| ==>
           r[i] == if cart.items[i].productId == productId
                   then cart.items[i].(quantity := quantity) else cart.items[i]
  {
    ItemsWithoutMembers(cart.items, productId);
  }

  /** Setting the same quantity twice is the same as setting it once. */
  lemma UpdateIdempotent(cart: CartState, productId: string, quantity: int)
    ensures var once := CartWithQuantity(cart, productId, quantity);
      CartWithQuantity(once, productId, quantity) == once
  {
    var once := CartWithQuantity(cart, productId, quantity);
    if quantity <= 0 {
      RemoveAbsent(once.items, productId);
    } else {
      assert ItemsWithQuantity(once.items, productId, quantity) == once.items;
    }
  }

  /** The "-" button on a line holding one unit calls update with quantity 0, which
      removes the line (components/CartPageClient.tsx:110). */
  lemma DecrementLastUnitRemoves(cart: CartState, k: nat)
    requires Consistent(cart) && WellFormed(cart.items)
    requires k < |cart.items| && cart.items[k].quantity == 1
    ensures var id := cart.items[k].productId;
      var r := CartWithQuantity(cart, id, cart.items[k].quantity - 1);
      && r == CartWithout(cart, id)
      && r.items == cart.items[..k] + cart.items[k + 1..]
      && r.totalItems == cart.totalItems - 1
  {
    var id := cart.items[k].productId;
    assert FindIndex(cart.items, id) == k by {
      var f := FindIndex(cart.items, id);
      assert f >= 0;
    }
    RemoveUnique(cart.items, id);
    RemoveItemTotals(cart, id);
  }

  /** With a positive quantity, update keeps the lines well formed. */
  lemma UpdatePreservesWellFormed(cart: CartState, productId: string, quantity: int)
    requires WellFormed(cart.items)
    ensures WellFormed(CartWithQuantity(cart, productId, quantity).items)
  {
    if quantity <= 0 {
      RemovePreservesWellFormed(cart.items, productId);
    }
  }

  // ---------------------------------------------------------------------------
  // The persisted slot
  // ---------------------------------------------------------------------------

  /** What the storage slot can hold: text written by `JSON.stringify(cart)`, or any other
      text (which this model treats as text `JSON.parse` rejects). */
  datatype Blob = Encoded(cart: CartState) | Malformed(text: string)

  /** `JSON.stringify(cart)`; its text is never empty. */
  function Stringify(cart: CartState): Blob {
    Encoded(cart)
  }

  /** `JSON.parse(stored) as CartState`, with a thrown `SyntaxError` as `None`. */
  function Parse(b: Blob): Option<CartState> {
    match b
    case Encoded(c) => Some(c)
    case Malformed(_) => None
  }

  /** A stored blob is falsy only when it is the empty string. */
  predicate BlobTruthy(b: Blob) {
    !(b.Malformed? && b.text == "")
  }

  /** The browser's `localStorage` slot under the key 'curated-commerce-cart', together
      with whether a `window` exists at all (it does not during server rendering). */
  class CartStore {
    const hasWindow: bool
    var slot: Option<Blob>

    constructor (hasWindow: bool, slot: Option<Blob>)
      ensures this.hasWindow == hasWindow && this.slot == slot
    {
      this.hasWindow := hasWindow;
      this.slot := slot;
    }

    /** `getCartFromStorage()`: the empty cart without a window, without a stored blob or
        when the blob does not parse; otherwise the parsed cart as stored, totals unchecked. */
    function GetCartFromStorage(): (r: CartState)
      reads this
      ensures !hasWindow || slot.None? ==> r == EmptyCart
      ensures hasWindow && slot.Some? && (!BlobTruthy(slot.value) || Parse(slot.value).None?) ==> r == EmptyCart
      ensures hasWindow && slot.Some? && BlobTruthy(slot.value) && Parse(slot.value).Some? ==>
        r == Parse(slot.value).value
    {
      if !hasWindow then EmptyCart
      else match slot
        case None => EmptyCart
        case Some(b) =>
          if !BlobTruthy(b) then EmptyCart
          else match Parse(b)
            case None => EmptyCart
            case Some(c) => c
    }

    /** What the slot holds after `saveCartToStorage(cart)`. */
    function SlotAfterSave(cart: CartState): Option<Blob>
      reads this
    {
      if hasWindow then Some(Stringify(cart)) else slot
    }

    /** `saveCartToStorage(cart)`: nothing without a window. */
    method SaveCartToStorage(cart: CartState)
      modifies this
      ensures slot == old(SlotAfterSave(cart))
    {
      if hasWindow {
        slot := Some(Stringify(cart));
      }
    }

    /** `addItemToCart(cart, item)` */
    method AddItemToCart(cart: CartState, item: CartItem) returns (newCart: CartState)
      modifies this
      ensures newCart == CartWithItem(cart, item)
      ensures slot == old(SlotAfterSave(newCart))
    {
      var items := ItemsWithAdded(cart.items, item);
      newCart := CalculateTotals(items);
      SaveCartToStorage(newCart);
    }

    /** `removeItemFromCart(cart, productId)` */
    method RemoveItemFromCart(cart: CartState, productId: string) returns (newCart: CartState)
      modifies this
      ensures newCart == CartWithout(cart, productId)
      ensures slot == old(SlotAfterSave(newCart))
    {
      newCart := CalculateTotals(ItemsWithout(cart.items, productId));
      SaveCartToStorage(newCart);
    }

    /** `updateItemQuantity(cart, productId, quantity)` */
    method UpdateItemQuantity(cart: CartState, productId: string, quantity: int) returns (newCart: CartState)
      modifies this
      ensures newCart == CartWithQuantity(cart, productId, quantity)
      ensures slot == old(SlotAfterSave(newCart))
    {
      if quantity <= 0 {
        newCart := RemoveItemFromCart(cart, productId);
        return;
      }
      newCart := CalculateTotals(ItemsWithQuantity(cart.items, productId, quantity));
      SaveCartToStorage(newCart);
    }

    /** `clearCart()` */
    method ClearCart() returns (newCart: CartState)
      modifies this
      ensures newCart == EmptyCart && newCart.items == [] && Consistent(newCart)
      ensures slot == old(SlotAfterSave(EmptyCart))
    {
      newCart := EmptyCart;
      SaveCartToStorage(newCart);
    }
  }

  /** Whatever was saved with a window present is what the next read returns. */
  lemma SaveThenGet(store: CartStore, cart: CartState)
    requires store.hasWindow && store.slot == Some(Stringify(cart))
    ensures store.GetCartFromStorage() == cart
  {
  }
}
