/**
 * The products page (frontend/pages/products.js): the client-side search and
 * category filter over the loaded products, the results label, and the two
 * handlers that write to the store (add to cart, wishlist toggle).
 *
 * Two behaviours of the page are kept as they are. The category `<select>`
 * yields a string while the API sends a category id, and `===` never equates
 * a number with a string. The list endpoint may send products without a
 * `description`; reading `.toLowerCase()` of it then throws, which is modelled
 * as the filter producing no list (None).
 */
module ProductsPage {
  import opened Wrappers
  import opened Seqs
  import opened Text
  import opened CartLines
  import opened Wishlist
  import opened Store

  /**
   * `matchesSearch`: the lower-cased title, or else the lower-cased
   * description, includes the lower-cased query. None when the title misses
   * and the description is absent (the callback throws).
   */
  function MatchesSearch(p: Product, query: string): (matches: Option<bool>)
    ensures matches.None? <==> !Includes(Lower(p.title), Lower(query)) && p.description.None?
    ensures matches == Some(true) <==>
      Includes(Lower(p.title), Lower(query))
      || (p.description.Some? && Includes(Lower(p.description.value), Lower(query)))
  {
    if Includes(Lower(p.title), Lower(query)) then Some(true)
    else match p.description
      case None => None
      case Some(d) => Some(Includes(Lower(d), Lower(query)))
  }

  /** `matchesCategory`: no category selected, or the product's category `===` the selected string. */
  predicate MatchesCategory(p: Product, selectedCategory: string)
  {
    selectedCategory == "" || p.category == JsString(selectedCategory)
  }

  /** The product is shown. */
  predicate Shown(p: Product, query: string, selectedCategory: string)
  {
    MatchesSearch(p, query) == Some(true) && MatchesCategory(p, selectedCategory)
  }

  function ShownBy(query: string, selectedCategory: string): Product -> bool
  {
    (p: Product) => Shown(p, query, selectedCategory)
  }

  /** Evaluating the filter callback on `p` throws. */
  predicate Throws(p: Product, query: string)
  {
    MatchesSearch(p, query).None?
  }

  /**
   * `filteredProducts`: the callback runs on each product in order. The result
   * is None exactly when some product makes it throw, and otherwise the loaded
   * products that are shown, in their order.
   */
  function FilteredProducts(products: seq<Product>, query: string, selectedCategory: string)
    : (r: Option<seq<Product>>)
    ensures r.None? <==> exists i | 0 <= i < |products| :: Throws(products[i], query)
    ensures r.Some? ==> r.value == Filter(products, ShownBy(query, selectedCategory))
    decreases |products|
  {
    if products == [] then Some([])
    else
      var p := products[0];
      match MatchesSearch(p, query)
      case None => None
      case Some(search) =>
        match FilteredProducts(products[1..], query, selectedCategory)
        case None => None
        case Some(rest) =>
          Some((if search && MatchesCategory(p, selectedCategory) then [p] else []) + rest)
  }

  /**
   * When the filter yields a list, it is an order-preserving subsequence of
   * the loaded products and holds exactly the products whose lower-cased
   * title or description includes the lower-cased query and whose category
   * matches.
   */
  lemma FilteredIsShownSubsequence(products: seq<Product>, query: string, selectedCategory: string)
    requires FilteredProducts(products, query, selectedCategory).Some?
    ensures IsSubsequence(FilteredProducts(products, query, selectedCategory).value, products)
    ensures forall p :: p in FilteredProducts(products, query, selectedCategory).value <==>
      p in products
      && (Includes(Lower(p.title), Lower(query))
          || (p.description.Some? && Includes(Lower(p.description.value), Lower(query))))
      && (selectedCategory == "" || p.category == JsString(selectedCategory))
  {
    FilterIsSubsequence(products, ShownBy(query, selectedCategory));
  }

  /**
   * The list endpoint sends no descriptions. With such products the filter
   * throws exactly when some product's lower-cased title does not include the
   * lower-cased query, and otherwise shows the products whose category matches.
   */
  lemma ListPayloadFilter(products: seq<Product>, query: string, selectedCategory: string)
    requires forall i :: 0 <= i < |products| ==> products[i].description.None?
    ensures FilteredProducts(products, query, selectedCategory).None? <==>
      exists i | 0 <= i < |products| :: !Includes(Lower(products[i].title), Lower(query))
    ensures FilteredProducts(products, query, selectedCategory).Some? ==>
      FilteredProducts(products, query, selectedCategory).value
        == Filter(products, (p: Product) => MatchesCategory(p, selectedCategory))
  {
    var r := FilteredProducts(products, query, selectedCategory);
    if r.Some? {
      forall i | 0 <= i < |products| ensures Includes(Lower(products[i].title), Lower(query)) {
        assert !Throws(products[i], query);
      }
      FilterSame(products, ShownBy(query, selectedCategory), (p: Product) => MatchesCategory(p, selectedCategory));
    }
  }

  /** With an empty query and no category selected, every loaded product is shown. */
  lemma NoCriteriaShowsAll(products: seq<Product>)
    ensures FilteredProducts(products, "", "") == Some(products)
  {
    forall i | 0 <= i < |products|
      ensures MatchesSearch(products[i], "") == Some(true)
    {
      assert Lower("") == "";
      IncludesEmpty(Lower(products[i].title));
    }
    FilterKeepsAll(products, ShownBy("", ""));
  }

  /**
   * When the API sends numeric category ids, selecting any category hides
   * every product: the filter yields an empty list or throws.
   */
  lemma SelectedCategoryHidesNumericIds(products: seq<Product>, query: string, selectedCategory: string)
    requires selectedCategory != ""
    requires forall i :: 0 <= i < |products| ==> products[i].category.JsNumber?
    ensures FilteredProducts(products, query, selectedCategory) in {None, Some([])}
  {
    var r := FilteredProducts(products, query, selectedCategory);
    if r.Some? {
      forall p | p in products ensures !MatchesCategory(p, selectedCategory) {
        var i :| 0 <= i < |products| && products[i] == p;
      }
      assert forall k | 0 <= k < |r.value| :: r.value[k] in r.value;
    }
  }

  /** `{filteredProducts.length} product{... !== 1 ? 's' : ''}`: the noun of the results label. */
  function ResultsNoun(count: nat): (noun: string)
    ensures noun == "product" <==> count == 1
    ensures noun == "products" <==> count != 1
  {
    if count != 1 then "products" else "product"
  }

  /** The wishlist after `handleWishlistToggle(product)`. */
  function ToggledWishlist(wishlist: seq<Product>, product: Product): seq<Product>
  {
    if InWishlist(wishlist, product.id) then Wishlist.RemoveFromWishlist(wishlist, product.id)
    else Wishlist.AddToWishlist(wishlist, product)
  }

  /** The toggle flips membership of the product's id and leaves every other id's membership alone. */
  lemma ToggleFlips(wishlist: seq<Product>, product: Product)
    ensures InWishlist(ToggledWishlist(wishlist, product), product.id) == !InWishlist(wishlist, product.id)
    ensures forall k :: k != product.id ==>
      (InWishlist(ToggledWishlist(wishlist, product), k) <==> InWishlist(wishlist, k))
  {
    if InWishlist(wishlist, product.id) {
      RemovedIsOut(wishlist, product.id);
    } else {
      AddedIsIn(wishlist, product);
      var w := wishlist + [product];
      forall k | k != product.id
        ensures InWishlist(w, k) <==> InWishlist(wishlist, k)
      {
        if InWishlist(wishlist, k) {
          var i :| 0 <= i < |wishlist| && wishlist[i].id == k;
          assert w[i] == wishlist[i];
        }
      }
    }
  }

  /** Toggling a product that is not in the wishlist twice restores the wishlist. */
  lemma ToggleTwice(wishlist: seq<Product>, product: Product)
    requires !InWishlist(wishlist, product.id)
    ensures ToggledWishlist(ToggledWishlist(wishlist, product), product) == wishlist
  {
    AddedIsIn(wishlist, product);
    var w := wishlist + [product];
    assert w[..|wishlist|] == wishlist;
    forall j | 0 <= j < |w| && j != |wishlist|
      ensures OtherProduct(product.id)(w[j])
    {
      assert w[j] == wishlist[j];
    }
    FilterDropsOne(w, OtherProduct(product.id), |wishlist|);
  }

  /**
   * Repeated "add to cart" clicks on the same product (quantity 1, default
   * options) grow a single line: the second click adds no line and raises the
   * item count by one more.
   */
  lemma RepeatedClicksGrowOneLine(cart: seq<Line>, product: Product, id1: CartId, id2: CartId)
    requires UniqueKeys(cart)
    ensures var once := CartLines.AddToCart(cart, product, 1, NoOptions, id1);
            var twice := CartLines.AddToCart(once, product, 1, NoOptions, id2);
            |twice| == |once| <= |cart| + 1
            && ItemsCount(twice) == ItemsCount(cart) + 2
  {
    var once := CartLines.AddToCart(cart, product, 1, NoOptions, id1);
    if HasKey(cart, product.id, NoOptions) {
      var i :| 0 <= i < |cart| && Key(cart[i]) == (product.id, NoOptions);
      AddMatchingLine(cart, product, 1, NoOptions, id1, i);
      assert forall j | 0 <= j < |once| :: Key(once[j]) == Key(cart[j]);
      assert UniqueKeys(once);
      AddMatchingLine(once, product, 1, NoOptions, id2, i);
    } else {
      AddNewLine(cart, product, 1, NoOptions, id1);
      assert forall j | 0 <= j < |cart| :: once[j] == cart[j];
      assert UniqueKeys(once) by {
        forall i, j | 0 <= i < j < |once| ensures Key(once[i]) != Key(once[j]) {
          if j == |cart| {
            assert Key(cart[i]) != (product.id, NoOptions);
          }
        }
      }
      AddMatchingLine(once, product, 1, NoOptions, id2, |cart|);
    }
  }

  /** `handleAddToCart(product)`: one unit with the default options. */
  method HandleAddToCart(store: Store, product: Product, freshId: CartId)
    requires store.Valid()
    requires !HasCartId(store.cart, freshId)
    modifies store
    ensures store.Valid()
    ensures store.State()
         == old(store.State()).(cart := CartLines.AddToCart(old(store.cart), product, 1, NoOptions, freshId))
  {
    store.AddToCart(product, 1, NoOptions, freshId);
  }

  /** `handleWishlistToggle(product)`. */
  method HandleWishlistToggle(store: Store, product: Product)
    requires store.Valid()
    modifies store
    ensures store.Valid()
    ensures store.State() == old(store.State()).(wishlist := ToggledWishlist(old(store.wishlist), product))
    ensures store.IsInWishlist(product.id) == !old(store.IsInWishlist(product.id))
  {
    ToggleFlips(store.wishlist, product);
    if store.IsInWishlist(product.id) {
      store.RemoveFromWishlist(product.id);
    } else {
      store.AddToWishlist(product);
    }
  }

}
