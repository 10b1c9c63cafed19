/**
 * The cart of the client-side store (frontend/store/useStore.js) as a value:
 * an ordered list of line items, each a product snapshot plus quantity,
 * options and a line id. The store's commands are the functions below; the
 * store class assigns their results to its `cart` field.
 */
module CartLines {
  import opened Wrappers
  import opened Seqs

  /** A JavaScript primitive as `===` compares it: a number never equals a string. */
  datatype JsValue = JsNumber(n: int) | JsString(s: string)

  /**
   * A product as the client holds it. `price` is in minor units. The product
   * list endpoint never sends `description` (None); `category` is whatever value
   * the API sent.
   */
  datatype Product = Product(
    id: int,
    title: string,
    price: int,
    description: Option<string>,
    category: JsValue)

  /**
   * Selected options (size, colour, ...) in insertion order. The store compares
   * options through `JSON.stringify`, which keeps key order, so two option
   * records are the same exactly when these ordered lists are equal.
   */
  type Options = seq<(string, string)>

  /** The default `options = {}`. */
  const NoOptions: Options := []

  type CartId = int

  /** A cart line: `{ ...product, quantity, options, cartId }`. */
  datatype Line = Line(product: Product, quantity: int, options: Options, cartId: CartId)

  /** The merge key of a line: product id and serialised options. */
  function Key(l: Line): (int, Options)
  {
    (l.product.id, l.options)
  }

  /** `cart.find(item => item.id === id && JSON.stringify(item.options) === JSON.stringify(options))` succeeds. */
  predicate HasKey(cart: seq<Line>, id: int, options: Options)
  {
    exists i | 0 <= i < |cart| :: Key(cart[i]) == (id, options)
  }

  predicate HasCartId(cart: seq<Line>, cartId: CartId)
  {
    exists i | 0 <= i < |cart| :: cart[i].cartId == cartId
  }

  /** At most one line per (product id, options). */
  predicate UniqueKeys(cart: seq<Line>)
  {
    forall i, j | 0 <= i < j < |cart| :: Key(cart[i]) != Key(cart[j])
  }

  /** Line ids are pairwise distinct. */
  predicate UniqueCartIds(cart: seq<Line>)
  {
    forall i, j | 0 <= i < j < |cart| :: cart[i].cartId != cart[j].cartId
  }

  /** The `cart.map` of the merge branch: every line with the key gets `quantity` more. */
  function Bump(cart: seq<Line>, id: int, options: Options, quantity: int): seq<Line>
  {
    seq(|cart|, i requires 0 <= i < |cart| =>
      if Key(cart[i]) == (id, options) then cart[i].(quantity := cart[i].quantity + quantity)
      else cart[i])
  }

  /** `addToCart(product, quantity, options)`, with `freshId` standing for `Date.now() + Math.random()`. */
  function AddToCart(cart: seq<Line>, product: Product, quantity: int, options: Options, freshId: CartId)
    : (added: seq<Line>)
    ensures HasKey(added, product.id, options)
    ensures |added| == if HasKey(cart, product.id, options) then |cart| else |cart| + 1
  {
    if HasKey(cart, product.id, options) then
      var i :| 0 <= i < |cart| && Key(cart[i]) == (product.id, options);
      var bumped := Bump(cart, product.id, options, quantity);
      assert Key(bumped[i]) == (product.id, options);
      bumped
    else
      var added := cart + [Line(product, quantity, options, freshId)];
      assert Key(added[|cart|]) == (product.id, options);
      added
  }

  /** The filter callback `item => item.cartId !== cartId`. */
  function OtherThan(cartId: CartId): Line -> bool
  {
    (l: Line) => l.cartId != cartId
  }

  /** `removeFromCart(cartId)`. */
  function RemoveFromCart(cart: seq<Line>, cartId: CartId): (kept: seq<Line>)
    ensures !HasCartId(kept, cartId)
    ensures |kept| <= |cart|
  {
    var kept := Filter(cart, OtherThan(cartId));
    assert forall i | 0 <= i < |kept| :: kept[i] in kept;
    kept
  }

  /** The `cart.map` of `updateQuantity`: every line with the id gets the new quantity. */
  function SetQuantity(cart: seq<Line>, cartId: CartId, quantity: int): seq<Line>
  {
    seq(|cart|, i requires 0 <= i < |cart| =>
      if cart[i].cartId == cartId then cart[i].(quantity := quantity) else cart[i])
  }

  /** `updateQuantity(cartId, quantity)`. */
  function UpdateQuantity(cart: seq<Line>, cartId: CartId, quantity: int): (updated: seq<Line>)
    ensures quantity <= 0 ==> !HasCartId(updated, cartId)
    ensures quantity > 0 ==> |updated| == |cart|
    ensures quantity > 0 ==> forall i :: 0 <= i < |updated| && updated[i].cartId == cartId ==> updated[i].quantity == quantity
  {
    if quantity <= 0 then RemoveFromCart(cart, cartId) else SetQuantity(cart, cartId, quantity)
  }

  function Amount(l: Line): int
  {
    l.product.price * l.quantity
  }

  function Quantity(l: Line): int
  {
    l.quantity
  }

  /** `getCartTotal()`: the reduce over `item.price * item.quantity`. */
  function Total(cart: seq<Line>): int
  {
    SumBy(cart, Amount)
  }

  /** `getCartItemsCount()`: the reduce over `item.quantity`. */
  function ItemsCount(cart: seq<Line>): int
  {
    SumBy(cart, Quantity)
  }

  // ---------------------------------------------------------------------------
  // addToCart
  // ---------------------------------------------------------------------------

  /**
   * Adding a product whose (id, options) matches line `i` adds `quantity` to
   * that line only: the line keeps its product snapshot (so its stored price),
   * no line is added, and total and count grow by the stored price times
   * `quantity` and by `quantity`.
   */
  lemma AddMatchingLine(cart: seq<Line>, product: Product, quantity: int, options: Options, freshId: CartId, i: nat)
    requires UniqueKeys(cart)
    requires i < |cart| && Key(cart[i]) == (product.id, options)
    ensures AddToCart(cart, product, quantity, options, freshId)
         == cart[i := cart[i].(quantity := cart[i].quantity + quantity)]
    ensures Total(AddToCart(cart, product, quantity, options, freshId))
         == Total(cart) + cart[i].product.price * quantity
    ensures ItemsCount(AddToCart(cart, product, quantity, options, freshId)) == ItemsCount(cart) + quantity
  {
    var r := AddToCart(cart, product, quantity, options, freshId);
    var bumped := cart[i].(quantity := cart[i].quantity + quantity);
    assert HasKey(cart, product.id, options);
    forall j | 0 <= j < |cart| && j != i
      ensures Key(cart[j]) != (product.id, options)
    {
      if j < i { assert Key(cart[j]) != Key(cart[i]); }
      else { assert Key(cart[i]) != Key(cart[j]); }
    }
    assert r == cart[i := bumped];
    SumByReplace(cart, i, bumped, Amount);
    SumByReplace(cart, i, bumped, Quantity);
  }

  /**
   * Adding a product with no line of the same (id, options) appends exactly one
   * line at the end, holding the product, quantity, options and the fresh id;
   * earlier lines are unchanged.
   */
  lemma AddNewLine(cart: seq<Line>, product: Product, quantity: int, options: Options, freshId: CartId)
    requires !HasKey(cart, product.id, options)
    ensures AddToCart(cart, product, quantity, options, freshId)
         == cart + [Line(product, quantity, options, freshId)]
    ensures Total(AddToCart(cart, product, quantity, options, freshId)) == Total(cart) + product.price * quantity
    ensures ItemsCount(AddToCart(cart, product, quantity, options, freshId)) == ItemsCount(cart) + quantity
  {
    TotalsOfAppend(cart, Line(product, quantity, options, freshId));
  }

  /**
   * Adding the same product with the same options twice, `q1` then `q2`, is
   * adding it once with `q1 + q2`: the second add merges into the line the
   * first one reached (its line id stays).
   */
  lemma AddTwiceMerges(cart: seq<Line>, product: Product, q1: int, q2: int, options: Options, id1: CartId, id2: CartId)
    ensures AddToCart(AddToCart(cart, product, q1, options, id1), product, q2, options, id2)
         == AddToCart(cart, product, q1 + q2, options, id1)
  {
    var once := AddToCart(cart, product, q1, options, id1);
    if HasKey(cart, product.id, options) {
      assert Bump(once, product.id, options, q2) == Bump(cart, product.id, options, q1 + q2);
    } else {
      var l := Line(product, q1, options, id1);
      assert once == cart + [l];
      forall j | 0 <= j < |cart| ensures Key(cart[j]) != (product.id, options) {
      }
      assert Bump(once, product.id, options, q2) == cart + [l.(quantity := q1 + q2)];
    }
  }

  /**
   * Adding the same product with two different option lists, neither yet in
   * the cart, appends two separate lines in order.
   */
  lemma AddDistinctOptions(cart: seq<Line>, product: Product, q1: int, q2: int, o1: Options, o2: Options,
                           id1: CartId, id2: CartId)
    requires o1 != o2
    requires !HasKey(cart, product.id, o1) && !HasKey(cart, product.id, o2)
    ensures AddToCart(AddToCart(cart, product, q1, o1, id1), product, q2, o2, id2)
         == cart + [Line(product, q1, o1, id1), Line(product, q2, o2, id2)]
  {
    AddNewLine(cart, product, q1, o1, id1);
    var once := cart + [Line(product, q1, o1, id1)];
    forall j | 0 <= j < |once| ensures Key(once[j]) != (product.id, o2) {
      if j < |cart| {
        assert once[j] == cart[j];
      }
    }
    AddNewLine(once, product, q2, o2, id2);
  }

  /** `addToCart` keeps one line per (id, options), and distinct line ids when the new id is fresh. */
  lemma AddKeepsInvariant(cart: seq<Line>, product: Product, quantity: int, options: Options, freshId: CartId)
    requires UniqueKeys(cart) && UniqueCartIds(cart)
    requires !HasCartId(cart, freshId)
    ensures UniqueKeys(AddToCart(cart, product, quantity, options, freshId))
    ensures UniqueCartIds(AddToCart(cart, product, quantity, options, freshId))
  {
    var r := AddToCart(cart, product, quantity, options, freshId);
    if HasKey(cart, product.id, options) {
      assert forall j | 0 <= j < |cart| :: Key(r[j]) == Key(cart[j]) && r[j].cartId == cart[j].cartId;
    } else {
      assert forall j | 0 <= j < |cart| :: r[j] == cart[j];
      assert r[|cart|].cartId == freshId && Key(r[|cart|]) == (product.id, options);
      forall i, j | 0 <= i < j < |r|
        ensures Key(r[i]) != Key(r[j]) && r[i].cartId != r[j].cartId
      {
        if j == |cart| {
          assert Key(cart[i]) != (product.id, options);
          assert cart[i].cartId != freshId;
        }
      }
    }
  }

  // ---------------------------------------------------------------------------
  // removeFromCart
  // ---------------------------------------------------------------------------

  /**
   * `removeFromCart(cartId)` keeps exactly the lines with a different id, in
   * their original order.
   */
  lemma RemoveKeepsOthers(cart: seq<Line>, cartId: CartId)
    ensures IsSubsequence(RemoveFromCart(cart, cartId), cart)
    ensures forall l :: l in RemoveFromCart(cart, cartId) <==> l in cart && l.cartId != cartId
  {
    FilterIsSubsequence(cart, OtherThan(cartId));
  }

  /** An unknown line id leaves the cart as it was. */
  lemma RemoveUnknown(cart: seq<Line>, cartId: CartId)
    requires !HasCartId(cart, cartId)
    ensures RemoveFromCart(cart, cartId) == cart
  {
    FilterKeepsAll(cart, OtherThan(cartId));
  }

  /**
   * With distinct line ids, removing the id of line `i` deletes that line and
   * nothing else, and takes its amount and quantity out of total and count.
   */
  lemma RemoveKnown(cart: seq<Line>, i: nat)
    requires UniqueCartIds(cart)
    requires i < |cart|
    ensures RemoveFromCart(cart, cart[i].cartId) == cart[..i] + cart[i + 1..]
    ensures Total(RemoveFromCart(cart, cart[i].cartId)) == Total(cart) - Amount(cart[i])
    ensures ItemsCount(RemoveFromCart(cart, cart[i].cartId)) == ItemsCount(cart) - cart[i].quantity
  {
    var keep := OtherThan(cart[i].cartId);
    forall j | 0 <= j < |cart| && j != i
      ensures keep(cart[j])
    {
      if j < i { assert cart[j].cartId != cart[i].cartId; }
      else { assert cart[i].cartId != cart[j].cartId; }
    }
    FilterDropsOne(cart, keep, i);
    SumByDelete(cart, i, Amount);
    SumByDelete(cart, i, Quantity);
  }

  /** Deleting a line keeps both uniqueness invariants. */
  lemma DeleteKeepsInvariant(cart: seq<Line>, i: nat)
    requires UniqueKeys(cart) && UniqueCartIds(cart)
    requires i < |cart|
    ensures UniqueKeys(cart[..i] + cart[i + 1..])
    ensures UniqueCartIds(cart[..i] + cart[i + 1..])
  {
    var r := cart[..i] + cart[i + 1..];
    assert forall k | 0 <= k < |r| :: r[k] == cart[if k < i then k else k + 1];
  }

  /** `removeFromCart` keeps both uniqueness invariants. */
  lemma RemoveKeepsInvariant(cart: seq<Line>, cartId: CartId)
    requires UniqueKeys(cart) && UniqueCartIds(cart)
    ensures UniqueKeys(RemoveFromCart(cart, cartId))
    ensures UniqueCartIds(RemoveFromCart(cart, cartId))
  {
    if HasCartId(cart, cartId) {
      var i :| 0 <= i < |cart| && cart[i].cartId == cartId;
      RemoveKnown(cart, i);
      DeleteKeepsInvariant(cart, i);
    } else {
      RemoveUnknown(cart, cartId);
    }
  }

  // ---------------------------------------------------------------------------
  // updateQuantity
  // ---------------------------------------------------------------------------

  /**
   * A positive quantity for the id of line `i` sets that line's quantity to
   * exactly the new value (not a delta) and changes no other line.
   */
  lemma UpdateKnown(cart: seq<Line>, i: nat, quantity: int)
    requires UniqueCartIds(cart)
    requires i < |cart| && quantity > 0
    ensures UpdateQuantity(cart, cart[i].cartId, quantity) == cart[i := cart[i].(quantity := quantity)]
    ensures Total(UpdateQuantity(cart, cart[i].cartId, quantity))
         == Total(cart) - Amount(cart[i]) + cart[i].product.price * quantity
    ensures ItemsCount(UpdateQuantity(cart, cart[i].cartId, quantity))
         == ItemsCount(cart) - cart[i].quantity + quantity
  {
    var updated := cart[i].(quantity := quantity);
    forall j | 0 <= j < |cart| && j != i
      ensures cart[j].cartId != cart[i].cartId
    {
      if j < i { assert cart[j].cartId != cart[i].cartId; }
      else { assert cart[i].cartId != cart[j].cartId; }
    }
    assert UpdateQuantity(cart, cart[i].cartId, quantity) == cart[i := updated];
    SumByReplace(cart, i, updated, Amount);
    SumByReplace(cart, i, updated, Quantity);
  }

  /** An unknown id leaves the cart as it was, whatever the quantity. */
  lemma UpdateUnknown(cart: seq<Line>, cartId: CartId, quantity: int)
    requires !HasCartId(cart, cartId)
    ensures UpdateQuantity(cart, cartId, quantity) == cart
  {
    RemoveUnknown(cart, cartId);
    if quantity > 0 {
      assert forall j | 0 <= j < |cart| :: cart[j].cartId != cartId;
    }
  }

  /** `updateQuantity` keeps both uniqueness invariants. */
  lemma UpdateKeepsInvariant(cart: seq<Line>, cartId: CartId, quantity: int)
    requires UniqueKeys(cart) && UniqueCartIds(cart)
    ensures UniqueKeys(UpdateQuantity(cart, cartId, quantity))
    ensures UniqueCartIds(UpdateQuantity(cart, cartId, quantity))
  {
    if quantity <= 0 {
      RemoveKeepsInvariant(cart, cartId);
    } else {
      var r := UpdateQuantity(cart, cartId, quantity);
      assert forall j | 0 <= j < |cart| :: Key(r[j]) == Key(cart[j]) && r[j].cartId == cart[j].cartId;
    }
  }

  // ---------------------------------------------------------------------------
  // Totals
  // ---------------------------------------------------------------------------

  /** An empty cart (after `clearCart` or `logout`) has total 0 and count 0. */
  lemma EmptyCartTotals()
    ensures Total([]) == 0 && ItemsCount([]) == 0
  {
  }

  /**
   * The reduce step: appending a line adds its price × quantity to the total
   * and its quantity (not 1) to the item count.
   */
  lemma TotalsOfAppend(cart: seq<Line>, l: Line)
    ensures Total(cart + [l]) == Total(cart) + l.product.price * l.quantity
    ensures ItemsCount(cart + [l]) == ItemsCount(cart) + l.quantity
  {
    SumByAppend(cart, [l], Amount);
    SumByAppend(cart, [l], Quantity);
    SumByOne(l, Amount);
    SumByOne(l, Quantity);
  }

  /** When every line has quantity at least 1, the count is non-zero exactly when the cart is non-empty. */
  lemma CountZeroIffEmpty(cart: seq<Line>)
    requires forall i :: 0 <= i < |cart| ==> cart[i].quantity >= 1
    ensures ItemsCount(cart) != 0 <==> cart != []
  {
    SumByAtLeastLength(cart, Quantity);
  }

  /**
   * `addToCart` does not reject non-positive quantities: a cart with two lines
   * of quantities 1 and -1 counts 0 items.
   */
  lemma NonPositiveQuantityHidesLines(p: Product, q: Product, a: CartId, b: CartId)
    requires p.id != q.id && a != b
    ensures var cart := AddToCart(AddToCart([], p, 1, NoOptions, a), q, -1, NoOptions, b);
            |cart| == 2 && ItemsCount(cart) == 0
  {
    var l1, l2 := Line(p, 1, NoOptions, a), Line(q, -1, NoOptions, b);
    AddNewLine([], p, 1, NoOptions, a);
    assert [] + [l1] == [l1];
    assert !HasKey([l1], q.id, NoOptions) by {
      assert Key([l1][0]) != (q.id, NoOptions);
    }
    AddNewLine([l1], q, -1, NoOptions, b);
    TotalsOfAppend([], l1);
    TotalsOfAppend([l1], l2);
  }

}
