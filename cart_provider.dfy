/** components/CartProvider.tsx: the React provider around the cart reducer. Its three
    state cells are the fields of a class; every callback is a method. */
module CartProvider {
  import opened Wrappers
  import opened CartUtils

  /** What the provider hands to `useCart()` callers: the cart and the drawer flag. */
  datatype CartContextValue = CartContextValue(cart: CartState, isCartOpen: bool)

  const UseCartOutsideProvider := "useCart must be used within a CartProvider"

  /** `useCart()`: the provided value, or a thrown error outside any provider. */
  function UseCart(context: Option<CartContextValue>): (r: Result<CartContextValue, Thrown>)
    ensures r.Ok? <==> context.Some?
    ensures r.Ok? ==> r.value == context.value
    ensures r.Err? ==> r.error == ErrorObject(UseCartOutsideProvider)
  {
    match context
    case Some(v) => Ok(v)
    case None => Err(ErrorObject(UseCartOutsideProvider))
  }

  class CartProvider {
    var cart: CartState
    var isCartOpen: bool
    var mounted: bool
    /** The browser slot the reducer persists to. */
    const store: CartStore

    /** The first render: an empty cart, a closed drawer, not yet mounted. */
    constructor (store: CartStore)
      ensures this.store == store
      ensures cart == EmptyCart && !isCartOpen && !mounted
    {
      this.store := store;
      cart := EmptyCart;
      isCartOpen := false;
      mounted := false;
    }

    /** The value the provider exposes: before mounting, an empty cart and a closed
        drawer whatever the cells hold; afterwards, the cells themselves. */
    function Value(): (v: CartContextValue)
      reads this
      ensures !mounted ==> v.cart == EmptyCart && !v.isCartOpen
      ensures mounted ==> v.cart == cart && v.isCartOpen == isCartOpen
    {
      if mounted then CartContextValue(cart, isCartOpen) else CartContextValue(EmptyCart, false)
    }

    /** The mount effect: the cart is replaced by what storage holds and `mounted` is set. */
    method Mount()
      modifies this
      ensures cart == store.GetCartFromStorage() && mounted
      ensures isCartOpen == old(isCartOpen)
    {
      cart := store.GetCartFromStorage();
      mounted := true;
    }

    /** `addItem(item)`: a no-op before mounting; afterwards `addItemToCart` on the
        previous cart. The drawer flag is never touched. */
    method AddItem(item: CartItem)
      modifies this, store
      ensures mounted == old(mounted) && isCartOpen == old(isCartOpen)
      ensures old(mounted) ==> (cart == CartWithItem(old(cart), item)
                               && store.slot == old(store.SlotAfterSave(CartWithItem(cart, item))))
      ensures !old(mounted) ==> cart == old(cart) && store.slot == old(store.slot)
    {
      if mounted {
        cart := store.AddItemToCart(cart, item);
      }
    }

    /** `removeItem(productId)`: a no-op before mounting; afterwards `removeItemFromCart`. */
    method RemoveItem(productId: string)
      modifies this, store
      ensures mounted == old(mounted) && isCartOpen == old(isCartOpen)
      ensures old(mounted) ==> (cart == CartWithout(old(cart), productId)
                               && store.slot == old(store.SlotAfterSave(CartWithout(cart, productId))))
      ensures !old(mounted) ==> cart == old(cart) && store.slot == old(store.slot)
    {
      if mounted {
        cart := store.RemoveItemFromCart(cart, productId);
      }
    }

    /** `updateQuantity(productId, quantity)`: a no-op before mounting; afterwards
        `updateItemQuantity`. */
    method UpdateQuantity(productId: string, quantity: int)
      modifies this, store
      ensures mounted == old(mounted) && isCartOpen == old(isCartOpen)
      ensures old(mounted) ==> (cart == CartWithQuantity(old(cart), productId, quantity)
                               && store.slot == old(store.SlotAfterSave(CartWithQuantity(cart, productId, quantity))))
      ensures !old(mounted) ==> cart == old(cart) && store.slot == old(store.slot)
    {
      if mounted {
        cart := store.UpdateItemQuantity(cart, productId, quantity);
      }
    }

    /** `clearCart()`: a no-op before mounting; afterwards the empty cart, also stored. */
    method ClearCart()
      modifies this, store
      ensures mounted == old(mounted) && isCartOpen == old(isCartOpen)
      ensures old(mounted) ==> cart == EmptyCart && store.slot == old(store.SlotAfterSave(EmptyCart))
      ensures !old(mounted) ==> cart == old(cart) && store.slot == old(store.slot)
    {
      if mounted {
        cart := store.ClearCart();
      }
    }

    /** `setIsCartOpen(open)`: a no-op before mounting; the only way the flag changes. */
    method SetIsCartOpen(open: bool)
      modifies this
      ensures mounted == old(mounted) && cart == old(cart)
      ensures isCartOpen == if old(mounted) then open else old(isCartOpen)
    {
      if mounted {
        isCartOpen := open;
      }
    }
  }

  /** A client: before the mount effect every operation is ignored and the exposed cart is
      empty; after it, an add shows up in the exposed cart and leaves the drawer closed. */
  method MountThenAdd(store: CartStore, item: CartItem) returns (before: CartContextValue, after: CartContextValue)
    modifies store
    ensures before == CartContextValue(EmptyCart, false)
    ensures after.cart == CartWithItem(old(store.GetCartFromStorage()), item) && !after.isCartOpen
  {
    var p := new CartProvider(store);
    p.AddItem(item);
    p.SetIsCartOpen(true);
    before := p.Value();
    p.Mount();
    p.AddItem(item);
    after := p.Value();
  }
}
