/**
 * The handlers of the cart drawer (frontend/components/Cart.js): the quantity
 * change handler, the remove button, the minus/plus buttons of a line and the
 * clear-cart button, each dispatching store commands. Toast notifications are
 * not modelled.
 */
module CartDrawer {
  import opened CartLines
  import opened Store

  /** The cart after `handleQuantityChange(cartId, newQuantity)`. */
  function QuantityChanged(cart: seq<Line>, cartId: CartId, newQuantity: int): (changed: seq<Line>)
    ensures changed == CartLines.UpdateQuantity(cart, cartId, newQuantity)
    ensures newQuantity < 1 ==> !HasCartId(changed, cartId)
  {
    if newQuantity < 1 then CartLines.RemoveFromCart(cart, cartId)
    else CartLines.UpdateQuantity(cart, cartId, newQuantity)
  }

  /**
   * For the id of line `i`: a new quantity below 1 removes that line and only
   * it; otherwise that line's quantity becomes exactly the new value and no
   * other line changes. The handler agrees with `updateQuantity` alone.
   */
  lemma QuantityChangeEffect(cart: seq<Line>, i: nat, newQuantity: int)
    requires UniqueCartIds(cart)
    requires i < |cart|
    ensures QuantityChanged(cart, cart[i].cartId, newQuantity)
         == CartLines.UpdateQuantity(cart, cart[i].cartId, newQuantity)
    ensures newQuantity < 1 ==>
      QuantityChanged(cart, cart[i].cartId, newQuantity) == cart[..i] + cart[i + 1..]
    ensures newQuantity >= 1 ==>
      QuantityChanged(cart, cart[i].cartId, newQuantity) == cart[i := cart[i].(quantity := newQuantity)]
  {
    if newQuantity < 1 {
      RemoveKnown(cart, i);
    } else {
      UpdateKnown(cart, i, newQuantity);
    }
  }

  /**
   * The minus button of line `i` (`handleQuantityChange(item.cartId, item.quantity - 1)`)
   * removes the line when its quantity is 1 or less, and otherwise lowers it by one.
   */
  lemma MinusButtonEffect(cart: seq<Line>, i: nat)
    requires UniqueCartIds(cart)
    requires i < |cart|
    ensures cart[i].quantity <= 1 ==>
      QuantityChanged(cart, cart[i].cartId, cart[i].quantity - 1) == cart[..i] + cart[i + 1..]
    ensures cart[i].quantity > 1 ==>
      QuantityChanged(cart, cart[i].cartId, cart[i].quantity - 1)
        == cart[i := cart[i].(quantity := cart[i].quantity - 1)]
  {
    QuantityChangeEffect(cart, i, cart[i].quantity - 1);
  }

  /**
   * The plus button of line `i` raises a non-negative quantity by exactly one;
   * on a line whose quantity is already negative it removes the line.
   */
  lemma PlusButtonEffect(cart: seq<Line>, i: nat)
    requires UniqueCartIds(cart)
    requires i < |cart|
    ensures cart[i].quantity >= 0 ==>
      QuantityChanged(cart, cart[i].cartId, cart[i].quantity + 1)
        == cart[i := cart[i].(quantity := cart[i].quantity + 1)]
    ensures cart[i].quantity < 0 ==>
      QuantityChanged(cart, cart[i].cartId, cart[i].quantity + 1) == cart[..i] + cart[i + 1..]
  {
    QuantityChangeEffect(cart, i, cart[i].quantity + 1);
  }

  /** `handleQuantityChange(cartId, newQuantity)`. */
  method HandleQuantityChange(store: Store, cartId: CartId, newQuantity: int)
    requires store.Valid()
    modifies store
    ensures store.Valid()
    ensures store.State() == old(store.State()).(cart := QuantityChanged(old(store.cart), cartId, newQuantity))
  {
    if newQuantity < 1 {
      store.RemoveFromCart(cartId);
    } else {
      store.UpdateQuantity(cartId, newQuantity);
    }
  }

  /** `handleRemoveItem(cartId, title)`; the title only feeds the toast. */
  method HandleRemoveItem(store: Store, cartId: CartId, title: string)
    requires store.Valid()
    modifies store
    ensures store.Valid()
    ensures store.State() == old(store.State()).(cart := CartLines.RemoveFromCart(old(store.cart), cartId))
    ensures forall l :: l in store.cart <==> l in old(store.cart) && l.cartId != cartId
  {
    RemoveKeepsOthers(store.cart, cartId);
    store.RemoveFromCart(cartId);
  }

  /** The minus button of a rendered line. */
  method DecreaseQuantity(store: Store, item: Line)
    requires store.Valid()
    modifies store
    ensures store.Valid()
    ensures store.State()
         == old(store.State()).(cart := QuantityChanged(old(store.cart), item.cartId, item.quantity - 1))
  {
    HandleQuantityChange(store, item.cartId, item.quantity - 1);
  }

  /** The plus button of a rendered line. */
  method IncreaseQuantity(store: Store, item: Line)
    requires store.Valid()
    modifies store
    ensures store.Valid()
    ensures store.State()
         == old(store.State()).(cart := QuantityChanged(old(store.cart), item.cartId, item.quantity + 1))
  {
    HandleQuantityChange(store, item.cartId, item.quantity + 1);
  }

  /** The clear-cart button: the cart is empty afterwards. */
  method ClearCartButton(store: Store)
    requires store.Valid()
    modifies store
    ensures store.Valid()
    ensures store.State() == old(store.State()).(cart := [])
  {
    store.ClearCart();
  }

}
