/**
 * The rules inside the backend models (backend/products/models.py): stock
 * availability, slug and order-number defaulting on save, and the line total
 * of an order item. Persistence (`super().save()`) is not modelled; Django's
 * `slugify` and `uuid.uuid4()` are supplied by the caller. Prices are integers
 * in minor units; the `PositiveIntegerField`s are `nat`.
 */
module Models {
  import opened Text

  /** `Product.is_in_stock`. */
  predicate IsInStock(stockQuantity: nat, isCustomOrder: bool)
  {
    stockQuantity > 0 || isCustomOrder
  }

  /** The slug after `save()`: derived from `source` only when empty. */
  function SlugOnSave(slug: string, source: string, slugify: string -> string): string
  {
    if slug == "" then slugify(source) else slug
  }

  /**
   * A non-empty slug is never changed by a save; an empty one becomes the
   * slugified source; saving again changes nothing more.
   */
  lemma SlugDefaulting(slug: string, source: string, slugify: string -> string)
    ensures slug != "" ==> SlugOnSave(slug, source, slugify) == slug
    ensures slug == "" ==> SlugOnSave(slug, source, slugify) == slugify(source)
    ensures SlugOnSave(SlugOnSave(slug, source, slugify), source, slugify) == SlugOnSave(slug, source, slugify)
  {
  }

  predicate IsLowerHexDigit(c: char)
  {
    '0' <= c <= '9' || 'a' <= c <= 'f'
  }

  predicate IsUpperHexDigit(c: char)
  {
    '0' <= c <= '9' || 'A' <= c <= 'F'
  }

  /** What `uuid.uuid4().hex` yields: 32 lower-case hex digits. */
  predicate IsUuidHex(hex: string)
  {
    |hex| == 32 && forall i :: 0 <= i < |hex| ==> IsLowerHexDigit(hex[i])
  }

  /** `f"FC{uuid.uuid4().hex[:8].upper()}"`. */
  function GeneratedOrderNumber(hex: string): (orderNumber: string)
    requires IsUuidHex(hex)
    ensures |orderNumber| == 10
    ensures orderNumber[..2] == "FC"
    ensures forall i :: 2 <= i < 10 ==> IsUpperHexDigit(orderNumber[i])
    ensures forall i :: 2 <= i < 10 ==> LowerChar(orderNumber[i]) == hex[i - 2]
  {
    var digits := Upper(hex[..8]);
    assert forall i :: 0 <= i < 8 ==> IsUpperHexDigit(digits[i]) && LowerChar(digits[i]) == hex[i] by {
      forall i | 0 <= i < 8 ensures IsUpperHexDigit(digits[i]) && LowerChar(digits[i]) == hex[i] {
        assert IsLowerHexDigit(hex[i]);
      }
    }
    "FC" + digits
  }

  /** The `AFRICAN_STYLES` choices: (stored value, label). */
  const AfricanStyles: seq<(string, string)> := [
    ("dashiki", "Dashiki Style"),
    ("kaftan", "Kaftan Style"),
    ("agbada", "Agbada Style"),
    ("boubou", "Boubou Style"),
    ("kente", "Kente Inspired"),
    ("ankara", "Ankara Pattern"),
    ("mudcloth", "Mudcloth Design"),
    ("traditional", "Traditional African"),
    ("modern_african", "Modern African Fusion"),
    ("crochet_traditional", "Traditional Crochet"),
    ("crochet_modern", "Modern Crochet")]

  /** The `Order.STATUS_CHOICES`: (stored value, label). */
  const StatusChoices: seq<(string, string)> := [
    ("pending", "Pending"),
    ("confirmed", "Confirmed"),
    ("in_progress", "In Progress"),
    ("ready", "Ready for Pickup/Delivery"),
    ("shipped", "Shipped"),
    ("delivered", "Delivered"),
    ("cancelled", "Cancelled")]

  /** `value in dict(Order.STATUS_CHOICES)`. */
  predicate IsStatusCode(value: string)
  {
    exists i | 0 <= i < |StatusChoices| :: StatusChoices[i].0 == value
  }

  /** The status codes are exactly the seven listed. */
  lemma StatusCodes(value: string)
    ensures IsStatusCode(value) <==>
      value in {"pending", "confirmed", "in_progress", "ready", "shipped", "delivered", "cancelled"}
  {
    var codes := ["pending", "confirmed", "in_progress", "ready", "shipped", "delivered", "cancelled"];
    assert forall i | 0 <= i < |StatusChoices| :: StatusChoices[i].0 == codes[i];
    if value in codes {
      var i :| 0 <= i < |codes| && codes[i] == value;
      assert StatusChoices[i].0 == value;
    }
  }

  /** `Category`: the fields its `save` reads and writes. */
  class CategoryModel {
    var name: string
    var slug: string

    constructor (name: string, slug: string)
      ensures this.name == name && this.slug == slug
    {
      this.name := name;
      this.slug := slug;
    }

    /** `Category.save()`: an empty slug becomes `slugify(name)`. */
    method Save(slugify: string -> string)
      modifies this`slug
      ensures slug == SlugOnSave(old(slug), name, slugify)
    {
      if slug == "" {
        slug := slugify(name);
      }
    }
  }

  /** `Product`: the fields its `save` and `is_in_stock` read and write. */
  class ProductModel {
    var title: string
    var slug: string
    var stockQuantity: nat
    var isCustomOrder: bool
    var estimatedDeliveryDays: nat

    constructor (title: string, slug: string)
      ensures this.title == title && this.slug == slug
      ensures stockQuantity == 0 && !isCustomOrder && estimatedDeliveryDays == 7
    {
      this.title := title;
      this.slug := slug;
      stockQuantity := 0;
      isCustomOrder := false;
      estimatedDeliveryDays := 7;
    }

    /** `Product.save()`: an empty slug becomes `slugify(title)`. */
    method Save(slugify: string -> string)
      modifies this`slug
      ensures slug == SlugOnSave(old(slug), title, slugify)
    {
      if slug == "" {
        slug := slugify(title);
      }
    }

    /** `is_in_stock`. */
    predicate InStock()
      reads this
    {
      IsInStock(stockQuantity, isCustomOrder)
    }
  }

  /** `Order`: the fields its `save` and `update_status` read and write. */
  class OrderModel {
    var orderNumber: string
    var status: string

    constructor (orderNumber: string)
      ensures this.orderNumber == orderNumber && status == "pending"
    {
      this.orderNumber := orderNumber;
      status := "pending";
    }

    /** `Order.save()`: an empty order number becomes "FC" plus 8 upper-case hex digits. */
    method Save(uuidHex: string)
      requires IsUuidHex(uuidHex)
      modifies this`orderNumber
      ensures old(orderNumber) != "" ==> orderNumber == old(orderNumber)
      ensures old(orderNumber) == "" ==> orderNumber == GeneratedOrderNumber(uuidHex)
      ensures |orderNumber| == 10 || orderNumber == old(orderNumber)
    {
      if orderNumber == "" {
        orderNumber := GeneratedOrderNumber(uuidHex);
      }
    }
  }

  /** `OrderItem`: quantity, unit price and the stored line total. */
  class OrderItemModel {
    var quantity: nat
    var unitPrice: int
    var totalPrice: int

    constructor (quantity: nat, unitPrice: int, totalPrice: int)
      ensures this.quantity == quantity && this.unitPrice == unitPrice && this.totalPrice == totalPrice
    {
      this.quantity := quantity;
      this.unitPrice := unitPrice;
      this.totalPrice := totalPrice;
    }

    /** `OrderItem.save()`: the total is recomputed, whatever it was before. */
    method Save()
      modifies this`totalPrice
      ensures totalPrice == unitPrice * quantity
    {
      totalPrice := unitPrice * quantity;
    }
  }

}
