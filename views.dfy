/**
 * The product and order endpoints of backend/products/views.py over an
 * in-memory table: the `get_queryset` filter chain, `featured`,
 * `african_styles`, `by_category` and `update_status`. Database ordering is
 * the order of the given table; decimal parsing of the price parameters is a
 * caller-supplied function.
 */
module Views {
  import opened Wrappers
  import opened Seqs
  import opened Models

  /** A product row: the columns the views filter on. `price` is in minor units. */
  datatype ProductRow = ProductRow(
    id: int,
    title: string,
    price: int,
    categoryId: int,
    africanStyle: string,
    stockQuantity: nat,
    isCustomOrder: bool,
    isFeatured: bool,
    isActive: bool)

  datatype CategoryRow = CategoryRow(id: int, name: string, isActive: bool)

  /** `request.query_params` (one value per name). */
  type QueryParams = map<string, string>

  /** `request.query_params.get(name)`. */
  function Param(params: QueryParams, name: string): Option<string>
  {
    if name in params then Some(params[name]) else None
  }

  /** Python truthiness of a query value: present and non-empty. */
  predicate Given(value: Option<string>)
  {
    value.Some? && value.value != ""
  }

  predicate StyleMatches(params: QueryParams, p: ProductRow)
  {
    Given(Param(params, "style")) ==> p.africanStyle == Param(params, "style").value
  }

  predicate AboveMinPrice(params: QueryParams, parsePrice: string -> int, p: ProductRow)
  {
    Given(Param(params, "min_price")) ==> p.price >= parsePrice(Param(params, "min_price").value)
  }

  predicate BelowMaxPrice(params: QueryParams, parsePrice: string -> int, p: ProductRow)
  {
    Given(Param(params, "max_price")) ==> p.price <= parsePrice(Param(params, "max_price").value)
  }

  /** `Q(stock_quantity__gt=0) | Q(is_custom_order=True)` when `in_stock == 'true'`. */
  predicate StockMatches(params: QueryParams, p: ProductRow)
  {
    Param(params, "in_stock") == Some("true") ==> p.stockQuantity > 0 || p.isCustomOrder
  }

  /** A row survives the whole `get_queryset` chain. */
  predicate Selected(params: QueryParams, parsePrice: string -> int, p: ProductRow)
  {
    p.isActive && StyleMatches(params, p) && AboveMinPrice(params, parsePrice, p)
    && BelowMaxPrice(params, parsePrice, p) && StockMatches(params, p)
  }

  function SelectedBy(params: QueryParams, parsePrice: string -> int): ProductRow -> bool
  {
    (p: ProductRow) => Selected(params, parsePrice, p)
  }

  // The conditions of the chain, one `.filter(...)` each, and the conditions in
  // force after each step.

  function ActiveRow(): ProductRow -> bool
  {
    (p: ProductRow) => p.isActive
  }

  function StyleIs(style: string): ProductRow -> bool
  {
    (p: ProductRow) => p.africanStyle == style
  }

  function PriceAtLeast(bound: int): ProductRow -> bool
  {
    (p: ProductRow) => p.price >= bound
  }

  function PriceAtMost(bound: int): ProductRow -> bool
  {
    (p: ProductRow) => p.price <= bound
  }

  function Available(): ProductRow -> bool
  {
    (p: ProductRow) => p.stockQuantity > 0 || p.isCustomOrder
  }

  function AfterStyle(params: QueryParams): ProductRow -> bool
  {
    (p: ProductRow) => p.isActive && StyleMatches(params, p)
  }

  function AfterMinPrice(params: QueryParams, parsePrice: string -> int): ProductRow -> bool
  {
    (p: ProductRow) => AfterStyle(params)(p) && AboveMinPrice(params, parsePrice, p)
  }

  function AfterMaxPrice(params: QueryParams, parsePrice: string -> int): ProductRow -> bool
  {
    (p: ProductRow) => AfterMinPrice(params, parsePrice)(p) && BelowMaxPrice(params, parsePrice, p)
  }

  /** `ProductViewSet.get_queryset()`: the active rows, narrowed by each given parameter in turn. */
  method GetQueryset(table: seq<ProductRow>, params: QueryParams, parsePrice: string -> int)
    returns (queryset: seq<ProductRow>)
    ensures queryset == Filter(table, SelectedBy(params, parsePrice))
  {
    queryset := Filter(table, ActiveRow());

    var style := Param(params, "style");
    if Given(style) {
      FilterTwice(table, ActiveRow(), StyleIs(style.value), AfterStyle(params));
      queryset := Filter(queryset, StyleIs(style.value));
    } else {
      FilterSame(table, ActiveRow(), AfterStyle(params));
    }

    var minPrice := Param(params, "min_price");
    var maxPrice := Param(params, "max_price");
    if Given(minPrice) {
      FilterTwice(table, AfterStyle(params), PriceAtLeast(parsePrice(minPrice.value)),
        AfterMinPrice(params, parsePrice));
      queryset := Filter(queryset, PriceAtLeast(parsePrice(minPrice.value)));
    } else {
      FilterSame(table, AfterStyle(params), AfterMinPrice(params, parsePrice));
    }
    if Given(maxPrice) {
      FilterTwice(table, AfterMinPrice(params, parsePrice), PriceAtMost(parsePrice(maxPrice.value)),
        AfterMaxPrice(params, parsePrice));
      queryset := Filter(queryset, PriceAtMost(parsePrice(maxPrice.value)));
    } else {
      FilterSame(table, AfterMinPrice(params, parsePrice), AfterMaxPrice(params, parsePrice));
    }

    var inStock := Param(params, "in_stock");
    if inStock == Some("true") {
      FilterTwice(table, AfterMaxPrice(params, parsePrice), Available(), SelectedBy(params, parsePrice));
      queryset := Filter(queryset, Available());
    } else {
      FilterSame(table, AfterMaxPrice(params, parsePrice), SelectedBy(params, parsePrice));
    }
  }

  /**
   * The queryset is an order-preserving subsequence of the table holding
   * exactly the active rows that pass every given filter: a non-empty `style`
   * is matched exactly, non-empty `min_price`/`max_price` are inclusive
   * bounds, `in_stock == 'true'` keeps exactly the rows that `is_in_stock`
   * accepts; an absent or empty parameter, or any other `in_stock` value,
   * filters nothing.
   */
  lemma QuerysetContents(table: seq<ProductRow>, params: QueryParams, parsePrice: string -> int)
    ensures IsSubsequence(Filter(table, SelectedBy(params, parsePrice)), table)
    ensures forall p :: p in Filter(table, SelectedBy(params, parsePrice)) <==>
      p in table && p.isActive
      && ("style" in params && params["style"] != "" ==> p.africanStyle == params["style"])
      && ("min_price" in params && params["min_price"] != "" ==> parsePrice(params["min_price"]) <= p.price)
      && ("max_price" in params && params["max_price"] != "" ==> p.price <= parsePrice(params["max_price"]))
      && ("in_stock" in params && params["in_stock"] == "true" ==> IsInStock(p.stockQuantity, p.isCustomOrder))
  {
    FilterIsSubsequence(table, SelectedBy(params, parsePrice));
  }

  /** With no query parameters the queryset is every active row. */
  lemma NoParamsKeepsActive(table: seq<ProductRow>, parsePrice: string -> int)
    ensures Filter(table, SelectedBy(map[], parsePrice)) == Filter(table, ActiveRow())
  {
    FilterSame(table, SelectedBy(map[], parsePrice), ActiveRow());
  }

  function FeaturedRow(): ProductRow -> bool
  {
    (p: ProductRow) => p.isFeatured
  }

  function FeaturedBy(params: QueryParams, parsePrice: string -> int): ProductRow -> bool
  {
    (p: ProductRow) => Selected(params, parsePrice, p) && p.isFeatured
  }

  /** `featured`: the filtered queryset restricted to featured rows, in order. */
  method Featured(table: seq<ProductRow>, params: QueryParams, parsePrice: string -> int)
    returns (featured: seq<ProductRow>)
    ensures featured == Filter(table, FeaturedBy(params, parsePrice))
    ensures IsSubsequence(featured, table)
    ensures forall p :: p in featured <==> p in table && Selected(params, parsePrice, p) && p.isFeatured
  {
    var queryset := GetQueryset(table, params, parsePrice);
    FilterTwice(table, SelectedBy(params, parsePrice), FeaturedRow(), FeaturedBy(params, parsePrice));
    featured := Filter(queryset, FeaturedRow());
    FilterIsSubsequence(table, FeaturedBy(params, parsePrice));
  }

  datatype StyleOption = StyleOption(value: string, display: string)

  /** `african_styles`: one `{value, label}` per `AFRICAN_STYLES` choice, in order. */
  function AfricanStyleOptions(): (options: seq<StyleOption>)
    ensures |options| == |AfricanStyles| == 11
    ensures forall i :: 0 <= i < |options| ==>
      options[i].value == AfricanStyles[i].0 && options[i].display == AfricanStyles[i].1
  {
    seq(|AfricanStyles|, i requires 0 <= i < |AfricanStyles| => StyleOption(AfricanStyles[i].0, AfricanStyles[i].1))
  }

  /** The per-category limit of `by_category`. */
  const PerCategory := 6

  /** A queryset slice `[:n]`. */
  function Take<T>(s: seq<T>, n: nat): seq<T>
  {
    if |s| <= n then s else s[..n]
  }

  function ActiveCategory(): CategoryRow -> bool
  {
    (c: CategoryRow) => c.isActive
  }

  function InCategory(categoryId: int): ProductRow -> bool
  {
    (p: ProductRow) => p.categoryId == categoryId
  }

  datatype CategoryGroup = CategoryGroup(category: CategoryRow, products: seq<ProductRow>)

  /** The products listed for one category: the first six of its filtered rows. */
  function CategoryProducts(table: seq<ProductRow>, params: QueryParams, parsePrice: string -> int, category: CategoryRow)
    : seq<ProductRow>
  {
    Take(Filter(Filter(table, SelectedBy(params, parsePrice)), InCategory(category.id)), PerCategory)
  }

  /**
   * Each category lists at most six products, each from that category and in
   * the filtered queryset, in queryset order.
   */
  lemma CategoryProductsBound(table: seq<ProductRow>, params: QueryParams, parsePrice: string -> int, category: CategoryRow)
    ensures |CategoryProducts(table, params, parsePrice, category)| <= PerCategory
    ensures forall p :: p in CategoryProducts(table, params, parsePrice, category) ==>
      p.categoryId == category.id && p in table && Selected(params, parsePrice, p)
  {
    var inCategory := Filter(Filter(table, SelectedBy(params, parsePrice)), InCategory(category.id));
    if |inCategory| > PerCategory {
      assert forall p :: p in inCategory[..PerCategory] ==> p in inCategory;
    }
  }

  /** `by_category`: one group per active category, in order, built by appending in a loop. */
  method ByCategory(categories: seq<CategoryRow>, table: seq<ProductRow>, params: QueryParams, parsePrice: string -> int)
    returns (groups: seq<CategoryGroup>)
    ensures |groups| == |Filter(categories, ActiveCategory())|
    ensures forall j :: 0 <= j < |groups| ==>
      groups[j].category == Filter(categories, ActiveCategory())[j]
      && groups[j].category.isActive
      && groups[j].products == CategoryProducts(table, params, parsePrice, groups[j].category)
  {
    var active := Filter(categories, ActiveCategory());
    groups := [];
    for i := 0 to |active|
      invariant |groups| == i
      invariant forall j :: 0 <= j < i ==>
        groups[j].category == active[j]
        && groups[j].products == CategoryProducts(table, params, parsePrice, active[j])
    {
      var queryset := GetQueryset(table, params, parsePrice);
      var products := Take(Filter(queryset, InCategory(active[i].id)), PerCategory);
      groups := groups + [CategoryGroup(active[i], products)];
    }
    assert forall j :: 0 <= j < |active| ==> active[j] in active;
  }

  /** The HTTP answer of `update_status`. */
  datatype StatusResponse = StatusResponse(httpStatus: int, message: string)

  /**
   * `OrderViewSet.update_status`: a value among the seven status codes is
   * stored (and the order saved); anything else, or no value, is answered with
   * 400 and leaves the order unchanged.
   */
  method UpdateStatus(order: OrderModel, newStatus: Option<string>, uuidHex: string)
    returns (response: StatusResponse)
    requires IsUuidHex(uuidHex)
    modifies order
    ensures response.httpStatus == 200 <==> newStatus.Some? && IsStatusCode(newStatus.value)
    ensures response.httpStatus == 200 || response.httpStatus == 400
    ensures response.httpStatus == 200 ==>
      order.status == newStatus.value
      && (old(order.orderNumber) != "" ==> order.orderNumber == old(order.orderNumber))
      && (old(order.orderNumber) == "" ==> order.orderNumber == GeneratedOrderNumber(uuidHex))
    ensures response.httpStatus == 400 ==>
      order.status == old(order.status) && order.orderNumber == old(order.orderNumber)
  {
    if newStatus.Some? && IsStatusCode(newStatus.value) {
      order.status := newStatus.value;
      order.Save(uuidHex);
      return StatusResponse(200, "Order status updated");
    }
    return StatusResponse(400, "Invalid status");
  }

}
