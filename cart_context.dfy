/** lib/cart-context.tsx: the second cart implementation. Lines are keyed by `id`, the
    provider stores the bare item array, opens the drawer on every add and does not save
    until the stored cart has been loaded. */
module CartContext {
  import opened Wrappers

  /** A cart line as this provider reads it. */
  datatype Item = Item(id: string, name: string, price: real, quantity: int)

  /** What `JSON.parse` can give back for the stored text: an array of lines, or some
      other JSON value. */
  datatype Json = JArray(elements: seq<Item>) | JNonArray

  /** What the storage slot can hold: text written by `JSON.stringify(items)`, or any other
      text (which this model treats as text `JSON.parse` rejects). */
  datatype Blob = Encoded(value: Json) | Malformed(text: string)

  function Parse(b: Blob): Option<Json> {
    match b
    case Encoded(v) => Some(v)
    case Malformed(_) => None
  }

  /** A stored blob is falsy only when it is the empty string. */
  predicate BlobTruthy(b: Blob) {
    !(b.Malformed? && b.text == "")
  }

  /** `loadCartFromStorage()`: the stored array when there is a window, a non-empty
      stored text, the text parses and the value is an array; `[]` in every other case. */
  function LoadCartFromStorage(hasWindow: bool, slot: Option<Blob>): (r: seq<Item>)
    ensures !hasWindow || slot.None? ==> r == []
    ensures slot.Some? && (!BlobTruthy(slot.value) || Parse(slot.value).None?) ==> r == []
    ensures slot.Some? && Parse(slot.value) == Some(JNonArray) ==> r == []
    ensures (hasWindow && slot.Some? && BlobTruthy(slot.value) && Parse(slot.value).Some?
             && Parse(slot.value).value.JArray?) ==> r == Parse(slot.value).value.elements
  {
    if !hasWindow then []
    else match slot
      case None => []
      case Some(b) =>
        if !BlobTruthy(b) then []
        else match Parse(b)
          case None => []
          case Some(JArray(xs)) => xs
          case Some(JNonArray) => []
  }

  /** `items.reduce((sum, item) => sum + item.quantity, 0)` */
  function TotalItemsOf(items: seq<Item>): int {
    if items == [] then 0 else items[0].quantity + TotalItemsOf(items[1..])
  }

  /** `item.price * item.quantity` */
  function LineTotal(item: Item): real {
    item.price * item.quantity as real
  }

  /** `items.reduce((sum, item) => sum + item.price * item.quantity, 0)` */
  function TotalPriceOf(items: seq<Item>): real {
    if items == [] then 0.0 else LineTotal(items[0]) + TotalPriceOf(items[1..])
  }

  predicate HasId(items: seq<Item>, id: string) {
    exists i :: 0 <= i < |items| && items[i].id == id
  }

  predicate UniqueIds(items: seq<Item>) {
    forall i, j :: 0 <= i < j < |items| ==> items[i].id != items[j].id
  }

  /** `prev.map((item) => item.id === id ? { ...item, quantity: item.quantity + extra } : item)` */
  function IncreaseMatching(prev: seq<Item>, id: string, extra: int): (r: seq<Item>)
    ensures |r| == |prev|
    ensures forall i :: 0 <= i < |prev| ==>
      r[i] == if prev[i].id == id then prev[i].(quantity := prev[i].quantity + extra) else prev[i]
  {
    if prev == [] then []
    else
      var head := if prev[0].id == id then prev[0].(quantity := prev[0].quantity + extra) else prev[0];
      [head] + IncreaseMatching(prev[1..], id, extra)
  }

  /** The `addItem` updater: when `prev.find` locates a line with the same id, every line
      with that id gets the incoming quantity added; otherwise the item is appended. */
  function ItemsWithAdded(prev: seq<Item>, newItem: Item): seq<Item> {
    if HasId(prev, newItem.id) then IncreaseMatching(prev, newItem.id, newItem.quantity)
    else prev + [newItem]
  }

  /** `prev.filter((item) => item.id !== id)` */
  function ItemsWithout(prev: seq<Item>, id: string): (r: seq<Item>)
    ensures |r| <= |prev|
  {
    if prev == [] then []
    else if prev[0].id == id then ItemsWithout(prev[1..], id)
    else [prev[0]] + ItemsWithout(prev[1..], id)
  }

  /** The filter keeps exactly the lines with another id. */
  lemma {:induction false} ItemsWithoutMembers(prev: seq<Item>, id: string)
    ensures forall x :: x in ItemsWithout(prev, id) <==> x in prev && x.id != id
  {
    if prev != [] {
      ItemsWithoutMembers(prev[1..], id);
      assert prev == [prev[0]] + prev[1..];
    }
  }

  /** What the filter keeps of one line. */
  function KeptUnless(x: Item, id: string): seq<Item> {
    if x.id == id then [] else [x]
  }

  /** One step of the filter. */
  lemma WithoutCons(x: Item, rest: seq<Item>, id: string)
    ensures ItemsWithout([x] + rest, id) == KeptUnless(x, id) + ItemsWithout(rest, id)
  {
    assert ([x] + rest)[0] == x && ([x] + rest)[1..] == rest;
    if x.id == id {
      assert [] + ItemsWithout(rest, id) == ItemsWithout(rest, id);
    }
  }

  /** `prev.map((item) => (item.id === id ? { ...item, quantity } : item))` */
  function SetMatching(prev: seq<Item>, id: string, quantity: int): (r: seq<Item>)
    ensures |r| == |prev|
    ensures forall i :: 0 <= i < |prev| ==>
      r[i] == if prev[i].id == id then prev[i].(quantity := quantity) else prev[i]
  {
    if prev == [] then []
    else
      var head := if prev[0].id == id then prev[0].(quantity := quantity) else prev[0];
      [head] + SetMatching(prev[1..], id, quantity)
  }

  /** The lines after `updateQuantity(id, quantity)`. */
  function ItemsWithQuantity(prev: seq<Item>, id: string, quantity: int): seq<Item> {
    if quantity <= 0 then ItemsWithout(prev, id) else SetMatching(prev, id, quantity)
  }

  // ---------------------------------------------------------------------------
  // Properties of the updaters
  // ---------------------------------------------------------------------------

  /** An id already present: the length stays and every line with that id, not only the
      first, gets the incoming quantity added; no other field changes. */
  lemma AddExisting(prev: seq<Item>, newItem: Item)
    requires HasId(prev, newItem.id)
    ensures var r := ItemsWithAdded(prev, newItem);
      && |r| == |prev|
      && forall i :: 0 <= i < |prev| ==>
           if prev[i].id == newItem.id
           then r[i].quantity == prev[i].quantity + newItem.quantity
                && r[i].(quantity := prev[i].quantity) == prev[i]
           else r[i] == prev[i]
  {
  }

  /** A new id: the item is appended after the existing lines. */
  lemma AddNew(prev: seq<Item>, newItem: Item)
    requires !HasId(prev, newItem.id)
    ensures ItemsWithAdded(prev, newItem) == prev + [newItem]
  {
  }

  lemma {:induction false} TotalsAppend(a: seq<Item>, b: seq<Item>)
    ensures TotalItemsOf(a + b) == TotalItemsOf(a) + TotalItemsOf(b)
    ensures TotalPriceOf(a + b) == TotalPriceOf(a) + TotalPriceOf(b)
  {
    if a == [] {
      assert a + b == b;
    } else {
      TotalsAppend(a[1..], b);
      TotalsAppendStep(a, b);
    }
  }

  /** The inductive step of `TotalsAppend`. */
  lemma TotalsAppendStep(a: seq<Item>, b: seq<Item>)
    requires a != []
    requires TotalItemsOf(a[1..] + b) == TotalItemsOf(a[1..]) + TotalItemsOf(b)
    requires TotalPriceOf(a[1..] + b) == TotalPriceOf(a[1..]) + TotalPriceOf(b)
    ensures TotalItemsOf(a + b) == TotalItemsOf(a) + TotalItemsOf(b)
    ensures TotalPriceOf(a + b) == TotalPriceOf(a) + TotalPriceOf(b)
  {
    assert (a + b)[0] == a[0];
    assert (a + b)[1..] == a[1..] + b;
  }

  /** Raising the quantity of the lines with `id` raises the unit total by `extra` for each
      such line; with unique ids, by `extra` once (or not at all when the id is absent). */
  lemma {:induction false} IncreaseTotalItems(prev: seq<Item>, id: string, extra: int)
    requires UniqueIds(prev)
    ensures TotalItemsOf(IncreaseMatching(prev, id, extra))
      == TotalItemsOf(prev) + (if HasId(prev, id) then extra else 0)
  {
    if prev != [] {
      var tail := prev[1..];
      assert UniqueIds(tail) by {
        forall i, j | 0 <= i < j < |tail| ensures tail[i].id != tail[j].id {
          assert tail[i] == prev[i + 1] && tail[j] == prev[j + 1];
        }
      }
      IncreaseTotalItems(tail, id, extra);
      IncreaseStep(prev, id, extra);
    }
  }

  /** The inductive step of `IncreaseTotalItems`. */
  lemma IncreaseStep(prev: seq<Item>, id: string, extra: int)
    requires prev != [] && UniqueIds(prev)
    requires TotalItemsOf(IncreaseMatching(prev[1..], id, extra))
      == TotalItemsOf(prev[1..]) + (if HasId(prev[1..], id) then extra else 0)
    ensures TotalItemsOf(IncreaseMatching(prev, id, extra))
      == TotalItemsOf(prev) + (if HasId(prev, id) then extra else 0)
  {
    var tail := prev[1..];
    var r := IncreaseMatching(prev, id, extra);
    assert r[1..] == IncreaseMatching(tail, id, extra);
    if prev[0].id == id {
      assert !HasId(tail, id) by {
        forall j | 0 <= j < |tail| ensures tail[j].id != id {
          assert tail[j] == prev[j + 1];
        }
      }
    } else {
      HasIdTail(prev, id);
    }
  }

  /** Past a first line with another id, the id is present exactly when it is in the rest. */
  lemma HasIdTail(prev: seq<Item>, id: string)
    requires prev != [] && prev[0].id != id
    ensures HasId(prev, id) <==> HasId(prev[1..], id)
  {
    var tail := prev[1..];
    if HasId(prev, id) {
      var i :| 0 <= i < |prev| && prev[i].id == id;
      assert tail[i - 1].id == id;
    }
    if HasId(tail, id) {
      var i :| 0 <= i < |tail| && tail[i].id == id;
      assert prev[i + 1].id == id;
    }
  }

  /** With unique ids, an add raises the derived unit total by exactly the incoming quantity. */
  lemma AddTotalItems(prev: seq<Item>, newItem: Item)
    requires UniqueIds(prev)
    ensures TotalItemsOf(ItemsWithAdded(prev, newItem)) == TotalItemsOf(prev) + newItem.quantity
  {
    if HasId(prev, newItem.id) {
      IncreaseTotalItems(prev, newItem.id, newItem.quantity);
    } else {
      TotalsAppend(prev, [newItem]);
      assert [newItem][1..] == [];
    }
  }

  /** Adding keeps ids unique. */
  lemma AddKeepsUnique(prev: seq<Item>, newItem: Item)
    requires UniqueIds(prev)
    ensures UniqueIds(ItemsWithAdded(prev, newItem))
  {
    if !HasId(prev, newItem.id) {
      var r := prev + [newItem];
      forall i, j | 0 <= i < j < |r| ensures r[i].id != r[j].id {
        if j == |prev| {
          assert r[i] == prev[i];
        }
      }
    }
  }

  /** An id that is not present leaves the lines as they were. */
  lemma {:induction false} RemoveAbsent(prev: seq<Item>, id: string)
    requires !HasId(prev, id)
    ensures ItemsWithout(prev, id) == prev
  {
    if prev != [] {
      assert !HasId(prev[1..], id) by {
        forall j | 0 <= j < |prev| - 1 ensures prev[1..][j].id != id {
          assert prev[1..][j] == prev[j + 1];
        }
      }
      RemoveAbsent(prev[1..], id);
      assert [prev[0]] + prev[1..] == prev;
    }
  }

  /** Removing keeps the lines with another id in their order: filtering a concatenation
      filters each part. */
  lemma {:induction false} WithoutAppend(a: seq<Item>, b: seq<Item>, id: string)
    ensures ItemsWithout(a + b, id) == ItemsWithout(a, id) + ItemsWithout(b, id)
  {
    if a == [] {
      assert a + b == b;
    } else {
      var x, rest := a[0], a[1..];
      assert a == [x] + rest;
      WithoutAppend(rest, b, id);
      WithoutAppendStep(x, rest, b, id);
    }
  }

  /** The inductive step of `WithoutAppend`. */
  lemma WithoutAppendStep(x: Item, rest: seq<Item>, b: seq<Item>, id: string)
    requires ItemsWithout(rest + b, id) == ItemsWithout(rest, id) + ItemsWithout(b, id)
    ensures ItemsWithout([x] + rest + b, id) == ItemsWithout([x] + rest, id) + ItemsWithout(b, id)
  {
    var kx := KeptUnless(x, id);
    assert [x] + rest + b == [x] + (rest + b);
    calc {
      ItemsWithout([x] + (rest + b), id);
    == { WithoutCons(x, rest + b, id); }
      kx + ItemsWithout(rest + b, id);
    ==
      kx + (ItemsWithout(rest, id) + ItemsWithout(b, id));
    == { assert kx + (ItemsWithout(rest, id) + ItemsWithout(b, id))
           == (kx + ItemsWithout(rest, id)) + ItemsWithout(b, id); }
      (kx + ItemsWithout(rest, id)) + ItemsWithout(b, id);
    == { WithoutCons(x, rest, id); }
      ItemsWithout([x] + rest, id) + ItemsWithout(b, id);
    }
  }

  /** Update with a quantity of zero or less is remove; with a positive one it overwrites
      the quantity of the matching lines and keeps everything else. */
  lemma UpdateQuantityCases(prev: seq<Item>, id: string, quantity: int)
    ensures quantity <= 0 ==> ItemsWithQuantity(prev, id, quantity) == ItemsWithout(prev, id)
    ensures quantity > 0 ==>
      var r := ItemsWithQuantity(prev, id, quantity);
      && |r| == |prev|
      && forall i :: 0 <= i < |prev| ==>
           r[i] == if prev[i].id == id then prev[i].(quantity := quantity) else prev[i]
  {
  }

  /** The value the provider hands to `useCart()` callers. */
  datatype CartContextValue = CartContextValue(
    items: seq<Item>,
    totalItems: int,
    totalPrice: real,
    isCartOpen: bool)

  const UseCartOutsideProvider := "useCart must be used within a CartProvider"

  /** `useCart()`: the provided value, or a thrown error outside any provider. */
  function UseCart(context: Option<CartContextValue>): (r: Result<CartContextValue, Thrown>)
    ensures r.Ok? <==> context.Some?
    ensures r.Ok? ==> r.value == context.value
    ensures r.Err? ==> r.error == ErrorObject(UseCartOutsideProvider)
  {
    match context
    case Some(v) => Ok(v)
    case None => Err(ErrorObject(UseCartOutsideProvider))
  }

  /** The provider's state cells `items`, `isCartOpen` and `isLoaded`, and the browser
      slot under 'curated-commerce-cart' that its effects read and write. Each updater
      method ends with the save effect that follows the re-render it causes. */
  class CartContextProvider {
    var items: seq<Item>
    var isCartOpen: bool
    var isLoaded: bool
    const hasWindow: bool
    var slot: Option<Blob>

    /** The first render: no lines, a closed drawer, nothing loaded yet. */
    constructor (hasWindow: bool, slot: Option<Blob>)
      ensures items == [] && !isCartOpen && !isLoaded
      ensures this.hasWindow == hasWindow && this.slot == slot
    {
      items := [];
      isCartOpen := false;
      isLoaded := false;
      this.hasWindow := hasWindow;
      this.slot := slot;
    }

    /** The value rendered into the context; the totals are recomputed from the lines. */
    function Value(): (v: CartContextValue)
      reads this
      ensures v.items == items && v.isCartOpen == isCartOpen
      ensures v.totalItems == TotalItemsOf(items) && v.totalPrice == TotalPriceOf(items)
    {
      CartContextValue(items, TotalItemsOf(items), TotalPriceOf(items), isCartOpen)
    }

    /** What the slot holds once the save effect has run on the current lines. */
    function SlotAfterSaveEffect(): Option<Blob>
      reads this
    {
      if isLoaded && hasWindow then Some(Encoded(JArray(items))) else slot
    }

    /** The effect on `[items, isLoaded]`: `saveCartToStorage(items)` only after the load. */
    method SaveEffect()
      modifies this
      ensures slot == old(SlotAfterSaveEffect())
      ensures items == old(items) && isCartOpen == old(isCartOpen) && isLoaded == old(isLoaded)
    {
      if isLoaded {
        if hasWindow {
          slot := Some(Encoded(JArray(items)));
        }
      }
    }

    /** The mount effect and the save effects around it. The load reads the slot first;
        the first render's save effect still sees the old `isLoaded` (false on a fresh
        provider) and the old lines; the load's updates then replace the lines, and the
        re-render's save effect writes them back. */
    method Mount()
      requires !isLoaded
      modifies this
      ensures items == LoadCartFromStorage(hasWindow, old(slot)) && isLoaded
      ensures slot == if hasWindow then Some(Encoded(JArray(items))) else old(slot)
      ensures isCartOpen == old(isCartOpen)
    {
      var storedItems := LoadCartFromStorage(hasWindow, slot);
      SaveEffect();
      items := storedItems;
      isLoaded := true;
      SaveEffect();
    }

    /** `addItem(newItem)`: merge or append, then open the drawer. */
    method AddItem(newItem: Item)
      modifies this
      ensures items == ItemsWithAdded(old(items), newItem) && isCartOpen
      ensures isLoaded == old(isLoaded)
      ensures slot == if isLoaded && hasWindow then Some(Encoded(JArray(items))) else old(slot)
    {
      items := ItemsWithAdded(items, newItem);
      isCartOpen := true;
      SaveEffect();
    }

    /** `removeItem(id)` */
    method RemoveItem(id: string)
      modifies this
      ensures items == ItemsWithout(old(items), id)
      ensures isLoaded == old(isLoaded) && isCartOpen == old(isCartOpen)
      ensures slot == if isLoaded && hasWindow then Some(Encoded(JArray(items))) else old(slot)
    {
      items := ItemsWithout(items, id);
      SaveEffect();
    }

    /** `updateQuantity(id, quantity)` */
    method UpdateQuantity(id: string, quantity: int)
      modifies this
      ensures items == ItemsWithQuantity(old(items), id, quantity)
      ensures isLoaded == old(isLoaded) && isCartOpen == old(isCartOpen)
      ensures slot == if isLoaded && hasWindow then Some(Encoded(JArray(items))) else old(slot)
    {
      if quantity <= 0 {
        items := ItemsWithout(items, id);
        SaveEffect();
        return;
      }
      items := SetMatching(items, id, quantity);
      SaveEffect();
    }

    /** `clearCart()` */
    method ClearCart()
      modifies this
      ensures items == [] && Value().totalItems == 0 && Value().totalPrice == 0.0
      ensures isLoaded == old(isLoaded) && isCartOpen == old(isCartOpen)
      ensures slot == if isLoaded && hasWindow then Some(Encoded(JArray([]))) else old(slot)
    {
      items := [];
      SaveEffect();
    }

    /** `setIsCartOpen(open)`: the lines do not change, so nothing is saved. */
    method SetIsCartOpen(open: bool)
      modifies this
      ensures isCartOpen == open
      ensures items == old(items) && isLoaded == old(isLoaded) && slot == old(slot)
    {
      isCartOpen := open;
    }
  }

  /** What the provider saved is what the next load returns. */
  lemma SaveThenLoad(items: seq<Item>)
    ensures LoadCartFromStorage(true, Some(Encoded(JArray(items)))) == items
  {
  }

  /** A client: an add before the load neither reaches storage nor survives the load, and
      a corrupt stored text is replaced by `[]` once the provider has mounted. */
  method AddBeforeLoad(newItem: Item, corrupt: string) returns (p: CartContextProvider)
    ensures p.items == [] && p.isCartOpen && p.isLoaded
    ensures p.slot == Some(Encoded(JArray([])))
  {
    p := new CartContextProvider(true, Some(Malformed(corrupt)));
    p.AddItem(newItem);
    assert p.slot == Some(Malformed(corrupt));
    p.Mount();
  }
}
