/**
 * The client-side store object of frontend/store/useStore.js: one mutable
 * aggregate holding the cart, the wishlist, the product filters, the signed-in
 * user and two UI flags. Each command replaces some of its fields, as the
 * store's `set` does; the queries are folds over the current lists.
 */
module Store {
  import opened Wrappers
  import opened CartLines
  import opened Wishlist

  /** The signed-in user, as the authentication layer hands it over. */
  datatype User = User(id: int, username: string, email: string)

  /** A value in the filters record. */
  datatype FilterValue = Text(text: string) | Range(low: int, high: int) | Flag(flag: bool)

  /** The filters record; `{ ...filters, ...patch }` is the map union `filters + patch`. */
  type Filters = map<string, FilterValue>

  /** The initial filters, also restored by `clearFilters`. */
  const DefaultFilters: Filters := map[
    "category" := Text(""),
    "africanStyle" := Text(""),
    "priceRange" := Range(0, 1000),
    "inStock" := Flag(false),
    "search" := Text("")]

  /** A snapshot of every field, for stating what a command leaves alone. */
  datatype StoreState = StoreState(
    cart: seq<Line>,
    cartOpen: bool,
    filters: Filters,
    user: Option<User>,
    isAuthenticated: bool,
    mobileMenuOpen: bool,
    wishlist: seq<Product>)

  const InitialState := StoreState([], false, DefaultFilters, None, false, false, [])

  class Store {
    var cart: seq<Line>
    var cartOpen: bool
    var filters: Filters
    var user: Option<User>
    var isAuthenticated: bool
    var mobileMenuOpen: bool
    var wishlist: seq<Product>

    ghost function State(): StoreState
      reads this
    {
      StoreState(cart, cartOpen, filters, user, isAuthenticated, mobileMenuOpen, wishlist)
    }

    /**
     * One cart line per (product id, options), distinct line ids, one wishlist
     * entry per product id, and `isAuthenticated` exactly when a user is set.
     */
    ghost predicate Valid()
      reads this
    {
      UniqueKeys(cart) && UniqueCartIds(cart) && UniqueIds(wishlist)
      && isAuthenticated == user.Some?
    }

    constructor ()
      ensures Valid() && State() == InitialState
    {
      cart := [];
      cartOpen := false;
      filters := DefaultFilters;
      user := None;
      isAuthenticated := false;
      mobileMenuOpen := false;
      wishlist := [];
    }

    /** `addToCart(product, quantity, options)`; `freshId` is the new line's id if one is created. */
    method AddToCart(product: Product, quantity: int, options: Options, freshId: CartId)
      requires Valid()
      requires !HasCartId(cart, freshId)
      modifies this
      ensures Valid()
      ensures State() == old(State()).(cart := CartLines.AddToCart(old(cart), product, quantity, options, freshId))
    {
      AddKeepsInvariant(cart, product, quantity, options, freshId);
      cart := CartLines.AddToCart(cart, product, quantity, options, freshId);
    }

    /** `removeFromCart(cartId)`. */
    method RemoveFromCart(cartId: CartId)
      requires Valid()
      modifies this
      ensures Valid()
      ensures State() == old(State()).(cart := CartLines.RemoveFromCart(old(cart), cartId))
    {
      RemoveKeepsInvariant(cart, cartId);
      cart := CartLines.RemoveFromCart(cart, cartId);
    }

    /** `updateQuantity(cartId, quantity)`: a quantity of 0 or less removes the line. */
    method UpdateQuantity(cartId: CartId, quantity: int)
      requires Valid()
      modifies this
      ensures Valid()
      ensures State() == old(State()).(cart := CartLines.UpdateQuantity(old(cart), cartId, quantity))
    {
      if quantity <= 0 {
        RemoveFromCart(cartId);
        return;
      }
      UpdateKeepsInvariant(cart, cartId, quantity);
      cart := SetQuantity(cart, cartId, quantity);
    }

    /** `clearCart()`. */
    method ClearCart()
      requires Valid()
      modifies this
      ensures Valid()
      ensures State() == old(State()).(cart := [])
      ensures GetCartTotal() == 0 && GetCartItemsCount() == 0
    {
      cart := [];
    }

    /** `toggleCart()`. */
    method ToggleCart()
      requires Valid()
      modifies this
      ensures Valid()
      ensures State() == old(State()).(cartOpen := !old(cartOpen))
    {
      cartOpen := !cartOpen;
    }

    /** `getCartTotal()`. */
    function GetCartTotal(): int
      reads this
    {
      Total(cart)
    }

    /** `getCartItemsCount()`. */
    function GetCartItemsCount(): int
      reads this
    {
      ItemsCount(cart)
    }

    /** `updateFilters(newFilters)`: a shallow merge in which the new values win. */
    method UpdateFilters(patch: Filters)
      requires Valid()
      modifies this
      ensures Valid()
      ensures State() == old(State()).(filters := old(filters) + patch)
      ensures filters.Keys == old(filters).Keys + patch.Keys
      ensures forall k :: k in patch ==> filters[k] == patch[k]
      ensures forall k :: k in old(filters) && k !in patch ==> filters[k] == old(filters)[k]
    {
      filters := filters + patch;
    }

    /** `clearFilters()`. */
    method ClearFilters()
      requires Valid()
      modifies this
      ensures Valid()
      ensures State() == old(State()).(filters := DefaultFilters)
    {
      filters := DefaultFilters;
    }

    /** `setUser(user)`: `isAuthenticated` becomes whether a user is given. */
    method SetUser(u: Option<User>)
      requires Valid()
      modifies this
      ensures Valid()
      ensures State() == old(State()).(user := u, isAuthenticated := u.Some?)
    {
      user := u;
      isAuthenticated := u.Some?;
    }

    /** `logout()`: signs out and empties the cart; wishlist, filters and UI flags stay. */
    method Logout()
      requires Valid()
      modifies this
      ensures Valid()
      ensures State() == old(State()).(user := None, isAuthenticated := false, cart := [])
      ensures wishlist == old(wishlist)
      ensures GetCartTotal() == 0 && GetCartItemsCount() == 0
    {
      user := None;
      isAuthenticated := false;
      cart := [];
    }

    /** `toggleMobileMenu()`. */
    method ToggleMobileMenu()
      requires Valid()
      modifies this
      ensures Valid()
      ensures State() == old(State()).(mobileMenuOpen := !old(mobileMenuOpen))
    {
      mobileMenuOpen := !mobileMenuOpen;
    }

    /** `addToWishlist(product)`. */
    method AddToWishlist(product: Product)
      requires Valid()
      modifies this
      ensures Valid()
      ensures State() == old(State()).(wishlist := Wishlist.AddToWishlist(old(wishlist), product))
      ensures IsInWishlist(product.id)
    {
      AddKeepsUnique(wishlist, product);
      AddedIsIn(wishlist, product);
      if !InWishlist(wishlist, product.id) {
        wishlist := wishlist + [product];
      }
    }

    /** `removeFromWishlist(productId)`. */
    method RemoveFromWishlist(productId: int)
      requires Valid()
      modifies this
      ensures Valid()
      ensures State() == old(State()).(wishlist := Wishlist.RemoveFromWishlist(old(wishlist), productId))
      ensures !IsInWishlist(productId)
    {
      RemoveKeepsUnique(wishlist, productId);
      RemovedIsOut(wishlist, productId);
      wishlist := Wishlist.RemoveFromWishlist(wishlist, productId);
    }

    /** `isInWishlist(productId)`. */
    predicate IsInWishlist(productId: int)
      reads this
    {
      InWishlist(wishlist, productId)
    }
  }

}
