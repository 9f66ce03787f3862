/** The cart and checkout handlers of the storefront's API server, with the
    document store replaced by fields of an in-memory `Server` object: the
    products collection, the single cart of the mock user (absent until it
    is first needed) and the orders collection. Every handler is the
    read-modify-write sequence the route performs, with its validation
    errors returned as `Failure` responses instead of thrown or sent. */
module Backend {
  import opened Wrappers
  import opened JsArray

  /** A document identifier handed out by the store (`_id`). */
  type ObjectId = nat

  datatype Product = Product(
    oid: ObjectId,       // the store's `_id`, which requests refer to
    id: nat,             // the catalog number, 1..10 for the seed data
    name: string,
    price: int,          // whole rupees
    image: string,
    description: string,
    category: string)

  /** One line of a cart or of an order. `id` is the line's own `_id`. */
  datatype LineItem = LineItem(
    id: ObjectId,
    productId: ObjectId,
    quantity: int,
    price: int,
    name: string,
    total: int)

  /** What the cart routes send back as `data`. */
  datatype CartView = CartView(items: seq<LineItem>, subTotal: int)

  datatype Order = Order(
    customerName: string,
    customerEmail: string,
    cartItems: seq<LineItem>,
    total: int,
    orderDate: int,
    orderId: string)

  datatype Receipt = Receipt(
    orderId: string,
    customerName: string,
    customerEmail: string,
    items: seq<LineItem>,
    total: int,
    timestamp: int,
    message: string)

  /** The JSON envelope with its HTTP status: `{success: true, data}` or
      `{success: false, error}`. */
  datatype Response<T> =
    | Success(status: nat, message: string, data: T)
    | Failure(status: nat, error: string)

  function ProductKey(p: Product): ObjectId { p.oid }
  function LineKey(item: LineItem): ObjectId { item.id }
  function ProductOf(item: LineItem): ObjectId { item.productId }

  // ---------------------------------------------------------------- sums

  /** `items.reduce((acc, item) => acc + item.total, 0)`. */
  function SumTotals(items: seq<LineItem>): int
  {
    if items == [] then 0 else SumTotals(items[..|items| - 1]) + items[|items| - 1].total
  }

  /** With no negative line totals the sum is not negative and bounds every
      line's total. */
  lemma {:induction false} SumTotalsBounds(items: seq<LineItem>)
    requires forall i :: 0 <= i < |items| ==> items[i].total >= 0
    ensures SumTotals(items) >= 0
    ensures forall i :: 0 <= i < |items| ==> items[i].total <= SumTotals(items)
  {
    if items != [] {
      var init := items[..|items| - 1];
      SumTotalsBounds(init);
      assert forall i :: 0 <= i < |init| ==> init[i] == items[i];
    }
  }

  lemma {:induction false} SumTotalsAppend(a: seq<LineItem>, b: seq<LineItem>)
    ensures SumTotals(a + b) == SumTotals(a) + SumTotals(b)
  {
    if b == [] {
      assert a + b == a;
    } else {
      assert (a + b)[..|a + b| - 1] == a + b[..|b| - 1];
      SumTotalsAppend(a, b[..|b| - 1]);
    }
  }

  /** Replacing one line changes the sum by the difference of the two totals. */
  lemma SumTotalsUpdate(s: seq<LineItem>, i: nat, x: LineItem)
    requires i < |s|
    ensures SumTotals(s[i := x]) == SumTotals(s) - s[i].total + x.total
  {
    assert s == s[..i] + [s[i]] + s[i + 1..];
    assert s[i := x] == s[..i] + [x] + s[i + 1..];
    SumTotalsAppend(s[..i] + [s[i]], s[i + 1..]);
    SumTotalsAppend(s[..i] + [x], s[i + 1..]);
    SumTotalsAppend(s[..i], [s[i]]);
    SumTotalsAppend(s[..i], [x]);
  }

  // ------------------------------------------------------------- catalog

  /** `Product.findById(productId)`. */
  function FindProduct(products: seq<Product>, oid: ObjectId): (r: Option<Product>)
    ensures r.Some? ==> r.value in products && r.value.oid == oid
    ensures r.None? <==> forall i :: 0 <= i < |products| ==> products[i].oid != oid
  {
    var k := FindIndex(products, ProductKey, oid);
    if k == -1 then None else Some(products[k])
  }

  /** Catalog entry number n (1..10) of the demonstration data, one field
      per table below; its `oid` is filled in when it is inserted. */
  function SeedRow(n: nat): (p: Product)
    requires 1 <= n <= 10
    ensures p.id == n && p.price > 0
  {
    Product(0, n, SeedName(n), SeedPrice(n), SeedImage(n), SeedDescription(n), SeedCategory(n))
  }

  /** Names of the demonstration products. */
  function SeedName(n: nat): string
    requires 1 <= n <= 10
  {
    match n
    case 1 => "Wireless Headphones"
    case 2 => "Smart Watch"
    case 3 => "Coffee Maker"
    case 4 => "Running Shoes"
    case 5 => "Backpack"
    case 6 => "Desk Lamp"
    case 7 => "Water Bottle"
    case 8 => "Bluetooth Speaker"
    case 9 => "Yoga Mat"
    case 10 => "Sunglasses"
  }

  /** Prices of the demonstration products, in rupees. */
  function SeedPrice(n: nat): (price: int)
    requires 1 <= n <= 10
    ensures price > 0
  {
    match n
    case 1 => 2999
    case 2 => 4999
    case 3 => 1999
    case 4 => 3499
    case 5 => 1499
    case 6 => 899
    case 7 => 499
    case 8 => 2499
    case 9 => 799
    case 10 => 1299
  }

  /** Image addresses of the demonstration products. */
  function SeedImage(n: nat): string
    requires 1 <= n <= 10
  {
    match n
    case 1 => "https://images.unsplash.com/photo-1505740420928-5e560c06d30e?w=500"
    case 2 => "https://images.unsplash.com/photo-1523275335684-37898b6baf30?w=500"
    case 3 => "https://images.unsplash.com/photo-1517668808822-9ebb02f2a0e6?w=500"
    case 4 => "https://images.unsplash.com/photo-1542291026-7eec264c27ff?w=500"
    case 5 => "https://images.unsplash.com/photo-1553062407-98eeb64c6a62?w=500"
    case 6 => "https://images.unsplash.com/photo-1507473885765-e6ed057f782c?w=500"
    case 7 => "https://images.unsplash.com/photo-1602143407151-7111542de6e8?w=500"
    case 8 => "https://images.unsplash.com/photo-1608043152269-423dbba4e7e1?w=500"
    case 9 => "https://images.unsplash.com/photo-1601925260368-ae2f83cf8b7f?w=500"
    case 10 => "https://images.unsplash.com/photo-1572635196237-14b3f281503f?w=500"
  }

  /** Descriptions of the demonstration products. */
  function SeedDescription(n: nat): string
    requires 1 <= n <= 10
  {
    match n
    case 1 => "Premium wireless headphones with noise cancellation"
    case 2 => "Fitness tracker with heart rate monitor"
    case 3 => "Automatic drip coffee maker"
    case 4 => "Lightweight running shoes for comfort"
    case 5 => "Durable travel backpack with laptop compartment"
    case 6 => "LED desk lamp with adjustable brightness"
    case 7 => "Insulated stainless steel water bottle"
    case 8 => "Portable Bluetooth speaker with bass boost"
    case 9 => "Non-slip yoga mat for all exercises"
    case 10 => "UV protection sunglasses"
  }

  /** Categories of the demonstration products. */
  function SeedCategory(n: nat): string
    requires 1 <= n <= 10
  {
    match n
    case 1 => "Electronics"
    case 2 => "Electronics"
    case 3 => "Home"
    case 4 => "Fashion"
    case 5 => "Fashion"
    case 6 => "Home"
    case 7 => "Sports"
    case 8 => "Electronics"
    case 9 => "Sports"
    case 10 => "Fashion"
  }

  /** The ten demonstration products inserted into an empty catalog, the
      i-th receiving the store-assigned identifier oids[i]. */
  function SeedProducts(oids: seq<ObjectId>): (r: seq<Product>)
    requires |oids| == 10
    ensures |r| == 10
    ensures forall i :: 0 <= i < 10 ==> r[i] == SeedRow(i + 1).(oid := oids[i])
    ensures forall i :: 0 <= i < 10 ==> r[i].oid == oids[i] && r[i].id == i + 1 && r[i].price > 0
  {
    seq(10, i requires 0 <= i < 10 => SeedRow(i + 1).(oid := oids[i]))
  }

  // ---------------------------------------------------------------- lines

  /** The line pushed for a product not yet in the cart: it captures the
      product's price at the time of the add. */
  function NewLine(lineId: ObjectId, p: Product, quantity: int): (line: LineItem)
    ensures line.productId == p.oid && line.quantity == quantity
    ensures line.price == p.price && line.total == p.price * quantity
  {
    LineItem(lineId, p.oid, quantity, p.price, p.name, p.price * quantity)
  }

  /** No product appears on two lines. */
  ghost predicate DistinctProducts(items: seq<LineItem>)
  {
    forall i, j :: 0 <= i < j < |items| ==> items[i].productId != items[j].productId
  }

  /** With distinct products, the line `findIndex` finds for a product is
      that product's only line. */
  lemma OnlyLineOfProduct(items: seq<LineItem>)
    requires DistinctProducts(items)
    ensures forall i :: 0 <= i < |items| ==> FindIndex(items, ProductOf, items[i].productId) == i
  {
    forall i | 0 <= i < |items|
      ensures FindIndex(items, ProductOf, items[i].productId) == i
    {
      var k := FindIndex(items, ProductOf, items[i].productId);
      assert 0 <= k <= i;
    }
  }

  /** Removing lines never makes two lines share a product. */
  lemma {:induction false} FilterOutKeepsDistinct(items: seq<LineItem>, lineId: ObjectId)
    requires DistinctProducts(items)
    ensures DistinctProducts(FilterOut(items, LineKey, lineId))
  {
    if items != [] {
      var rest := FilterOut(items[1..], LineKey, lineId);
      FilterOutKeepsDistinct(items[1..], lineId);
      forall y | y in rest
        ensures y.productId != items[0].productId
      {
        var j :| 0 <= j < |items[1..]| && items[1..][j] == y;
        assert items[j + 1] == y;
      }
    }
  }

  /** A line for a product not yet on any line keeps the products distinct. */
  lemma AppendKeepsDistinct(items: seq<LineItem>, line: LineItem)
    requires DistinctProducts(items)
    requires forall i :: 0 <= i < |items| ==> items[i].productId != line.productId
    ensures DistinctProducts(items + [line])
  {
    var s := items + [line];
    forall i, j | 0 <= i < j < |s|
      ensures s[i].productId != s[j].productId
    {
      assert s[i] == items[i];
      if j < |items| { assert s[j] == items[j]; }
    }
  }

  // ------------------------------------------------------------------ cart

  /** The mock user's cart document. Its methods are the field updates the
      handlers perform on a loaded cart, each ending, as the handlers do,
      with the subtotal recomputed from the lines. */
  class Cart {
    var items: seq<LineItem>
    var subTotal: int

    /** The subtotal is the sum of the line totals, no product is on two
        lines, and every quantity is at least 1 (the schema's minimum). */
    ghost predicate Valid()
      reads this
    {
      && subTotal == SumTotals(items)
      && DistinctProducts(items)
      && forall i :: 0 <= i < |items| ==> items[i].quantity >= 1
    }

    /** `Cart.create({items, subTotal})`: the fields are taken as given. */
    constructor Create(items: seq<LineItem>, subTotal: int)
      ensures this.items == items && this.subTotal == subTotal
    {
      this.items := items;
      this.subTotal := subTotal;
    }

    /** `items[k].quantity += q; items[k].total = items[k].quantity * unitPrice`. */
    method IncreaseLine(k: nat, q: int, unitPrice: int)
      requires Valid() && k < |items| && q > 0
      modifies this
      ensures Valid()
      ensures var sum := old(items)[k].quantity + q;
        && items == old(items)[k := old(items)[k].(quantity := sum, total := sum * unitPrice)]
        && subTotal == old(subTotal) - old(items)[k].total + sum * unitPrice
    {
      ghost var before := items;
      items := items[k := items[k].(quantity := items[k].quantity + q)];
      items := items[k := items[k].(total := items[k].quantity * unitPrice)];
      SumTotalsUpdate(before, k, items[k]);
      subTotal := SumTotals(items);
    }

    /** `items.push(line)` for a product that has no line yet. */
    method Push(line: LineItem)
      requires Valid() && line.quantity >= 1
      requires forall i :: 0 <= i < |items| ==> items[i].productId != line.productId
      modifies this
      ensures Valid()
      ensures items == old(items) + [line] && subTotal == old(subTotal) + line.total
    {
      SumTotalsAppend(items, [line]);
      AppendKeepsDistinct(items, line);
      items := items + [line];
      subTotal := SumTotals(items);
    }

    /** `items[k].quantity = q; items[k].total = items[k].price * q`: the
        line's own stored price is used. */
    method SetQuantity(k: nat, q: int)
      requires Valid() && k < |items| && q > 0
      modifies this
      ensures Valid()
      ensures var line := old(items)[k];
        && items == old(items)[k := line.(quantity := q, total := line.price * q)]
        && subTotal == old(subTotal) - line.total + line.price * q
    {
      ghost var before := items;
      items := items[k := items[k].(quantity := q)];
      items := items[k := items[k].(total := items[k].price * q)];
      SumTotalsUpdate(before, k, items[k]);
      subTotal := SumTotals(items);
    }

    /** `items = items.filter(item => item._id !== lineId)`. Removing an id no
        line carries changes nothing. */
    method RemoveLines(lineId: ObjectId)
      requires Valid()
      modifies this
      ensures Valid()
      ensures items == FilterOut(old(items), LineKey, lineId)
      ensures (forall i :: 0 <= i < |old(items)| ==> old(items)[i].id != lineId) ==>
        items == old(items) && subTotal == old(subTotal)
    {
      FilterOutKeepsDistinct(items, lineId);
      FilterOutLength(items, LineKey, lineId);
      if |FilterOut(items, LineKey, lineId)| == |items| {
        FilterOutAbsent(items, LineKey, lineId);
      }
      items := FilterOut(items, LineKey, lineId);
      subTotal := SumTotals(items);
    }

    /** `{items: [], subTotal: 0}`, the update checkout applies. */
    method Clear()
      modifies this
      ensures Valid() && items == [] && subTotal == 0
    {
      items, subTotal := [], 0;
    }
  }

  // -------------------------------------------------------------- requests

  /** `!productId || !qty`: a missing field, or a quantity of zero. */
  predicate AddFieldsMissing(productId: Option<ObjectId>, qty: Option<int>): (missing: bool)
    ensures !missing <==> productId.Some? && qty.Some? && (qty.value < 0 || qty.value >= 1)
  {
    productId.None? || qty.None? || qty.value == 0
  }

  /** `!quantity || quantity <= 0`. */
  predicate QuantityInvalid(quantity: Option<int>): (invalid: bool)
    ensures !invalid <==> quantity.Some? && quantity.value >= 1
  {
    quantity.None? || quantity.value <= 0
  }

  /** `!s`: a missing or empty string. A string of spaces passes. */
  predicate BlankField(s: Option<string>): (blank: bool)
    ensures !blank <==> s.Some? && |s.value| >= 1
  {
    s.None? || s.value == ""
  }

  /** `ORD-<time>-<random>`; the two varying parts are supplied by the caller. */
  function OrderId(stamp: string, suffix: string): (id: string)
    ensures |id| > 4 && id[..4] == "ORD-"
    ensures id[4..] == stamp + "-" + suffix
  {
    "ORD-" + stamp + "-" + suffix
  }

  /** The receipt sent back for a placed order. */
  function ReceiptOf(order: Order): (r: Receipt)
    ensures r.orderId == order.orderId && r.customerName == order.customerName
    ensures r.customerEmail == order.customerEmail && r.items == order.cartItems
    ensures r.total == order.total && r.timestamp == order.orderDate
    ensures r.message == "Thank you for your order!"
  {
    Receipt(order.orderId, order.customerName, order.customerEmail,
            order.cartItems, order.total, order.orderDate, "Thank you for your order!")
  }

  // ---------------------------------------------------------------- server

  class Server {
    var products: seq<Product>
    var cart: Cart?
    var orders: seq<Order>

    ghost predicate Valid()
      reads this, cart
    {
      cart != null ==> cart.Valid()
    }

    /** The stored cart, if there is one. */
    ghost function View(): Option<CartView>
      reads this, cart
    {
      if cart == null then None else Some(CartView(cart.items, cart.subTotal))
    }

    /** An empty database. */
    constructor ()
      ensures Valid() && products == [] && cart == null && orders == []
    {
      products := [];
      cart := null;
      orders := [];
    }

    /** GET /api/products: seeds an empty catalog with the ten demonstration
        products (the store assigning them `oids`), then lists the catalog. */
    method ListProducts(oids: seq<ObjectId>) returns (r: Response<seq<Product>>)
      requires Valid() && |oids| == 10
      modifies this
      ensures Valid() && cart == old(cart) && orders == old(orders)
      ensures old(products) == [] ==> products == SeedProducts(oids)
      ensures old(products) != [] ==> products == old(products)
      ensures r == Success(200, "", products)
    {
      if |products| == 0 {
        products := SeedProducts(oids);
      }
      r := Success(200, "", products);
    }

    /** GET /api/cart: returns the cart, first creating an empty one if the
        mock user has none. */
    method GetCart() returns (r: Response<CartView>)
      requires Valid()
      modifies this
      ensures Valid() && products == old(products) && orders == old(orders)
      ensures old(cart) != null ==> cart == old(cart) && View() == old(View())
      ensures old(cart) == null ==> cart != null && fresh(cart) && View() == Some(CartView([], 0))
      ensures View().Some? && r == Success(200, "", View().value)
    {
      if cart == null {
        cart := new Cart.Create([], 0);
      }
      r := Success(200, "", CartView(cart.items, cart.subTotal));
    }

    /** POST /api/cart with `{productId, qty}`; `lineId` is the identifier
        the store gives a line if one has to be created. */
    method AddItem(productId: Option<ObjectId>, qty: Option<int>, lineId: ObjectId)
      returns (r: Response<CartView>)
      requires Valid()
      modifies this, cart
      ensures Valid() && products == old(products) && orders == old(orders)
      ensures AddFieldsMissing(productId, qty) ==>
        r == Failure(400, "Product ID and quantity are required")
        && cart == old(cart) && View() == old(View())
      ensures !AddFieldsMissing(productId, qty) && qty.value < 0 ==>
        r == Failure(400, "Quantity must be greater than 0")
        && cart == old(cart) && View() == old(View())
      ensures !AddFieldsMissing(productId, qty) && qty.value > 0
              && FindProduct(products, productId.value).None? ==>
        r == Failure(404, "Product not found")
        && cart == old(cart) && View() == old(View())
      // first use: the cart is created holding the one new line
      ensures !AddFieldsMissing(productId, qty) && qty.value > 0 && old(cart) == null
              && FindProduct(products, productId.value).Some? ==>
        var p := FindProduct(products, productId.value).value;
        && cart != null && fresh(cart)
        && cart.items == [NewLine(lineId, p, qty.value)]
        && cart.subTotal == p.price * qty.value
        && r == Success(201, "Item added to cart successfully", View().value)
      // the product already has a line: only that line's quantity grows, and
      // its total is recomputed from the catalog price
      ensures !AddFieldsMissing(productId, qty) && qty.value > 0 && old(cart) != null
              && FindProduct(products, productId.value).Some?
              && FindIndex(old(cart.items), ProductOf, productId.value) >= 0 ==>
        var p := FindProduct(products, productId.value).value;
        var k := FindIndex(old(cart.items), ProductOf, productId.value);
        var sum := old(cart.items)[k].quantity + qty.value;
        && cart == old(cart)
        && cart.items == old(cart.items)[k := old(cart.items)[k].(quantity := sum, total := sum * p.price)]
        && cart.subTotal == old(cart.subTotal) - old(cart.items)[k].total + sum * p.price
        && r == Success(201, "Item added to cart successfully", View().value)
      // the product has no line yet: one line is appended, the rest untouched
      ensures !AddFieldsMissing(productId, qty) && qty.value > 0 && old(cart) != null
              && FindProduct(products, productId.value).Some?
              && FindIndex(old(cart.items), ProductOf, productId.value) == -1 ==>
        var p := FindProduct(products, productId.value).value;
        && cart == old(cart)
        && cart.items == old(cart.items) + [NewLine(lineId, p, qty.value)]
        && cart.subTotal == old(cart.subTotal) + p.price * qty.value
        && r == Success(201, "Item added to cart successfully", View().value)
    {
      if productId.None? || qty.None? || qty.value == 0 {
        return Failure(400, "Product ID and quantity are required");
      }
      var quantity := qty.value;
      if quantity <= 0 {
        return Failure(400, "Quantity must be greater than 0");
      }
      var found := FindProduct(products, productId.value);
      if found.None? {
        return Failure(404, "Product not found");
      }
      var product := found.value;
      if cart != null {
        var itemIndex := FindIndex(cart.items, ProductOf, productId.value);
        if itemIndex > -1 {
          cart.IncreaseLine(itemIndex, quantity, product.price);
        } else {
          cart.Push(NewLine(lineId, product, quantity));
        }
      } else {
        cart := new Cart.Create([NewLine(lineId, product, quantity)], product.price * quantity);
      }
      r := Success(201, "Item added to cart successfully", CartView(cart.items, cart.subTotal));
    }

    /** DELETE /api/cart/:id: keeps every line whose id differs from `itemId`. */
    method RemoveItem(itemId: ObjectId) returns (r: Response<CartView>)
      requires Valid()
      modifies cart
      ensures Valid()
      ensures old(cart) == null ==> r == Failure(404, "Cart not found") && View() == None
      ensures old(cart) != null ==>
        && cart.items == FilterOut(old(cart.items), LineKey, itemId)
        && r == Success(200, "Item removed from cart", View().value)
      ensures old(cart) != null && (forall i :: 0 <= i < |old(cart.items)| ==> old(cart.items)[i].id != itemId) ==>
        View() == old(View())
    {
      if cart == null {
        return Failure(404, "Cart not found");
      }
      cart.RemoveLines(itemId);
      r := Success(200, "Item removed from cart", CartView(cart.items, cart.subTotal));
    }

    /** PUT /api/cart/:id with `{quantity}`: sets the line's quantity and
        recomputes its total from the line's own stored price. */
    method UpdateItem(itemId: ObjectId, quantity: Option<int>) returns (r: Response<CartView>)
      requires Valid()
      modifies cart
      ensures Valid()
      ensures QuantityInvalid(quantity) ==>
        r == Failure(400, "Valid quantity is required") && View() == old(View())
      ensures !QuantityInvalid(quantity) && old(cart) == null ==>
        r == Failure(404, "Cart not found") && View() == None
      ensures !QuantityInvalid(quantity) && old(cart) != null
              && FindIndex(old(cart.items), LineKey, itemId) == -1 ==>
        r == Failure(404, "Item not found in cart") && View() == old(View())
      ensures !QuantityInvalid(quantity) && old(cart) != null
              && FindIndex(old(cart.items), LineKey, itemId) >= 0 ==>
        var k := FindIndex(old(cart.items), LineKey, itemId);
        var line := old(cart.items)[k];
        && cart.items == old(cart.items)[k := line.(quantity := quantity.value, total := line.price * quantity.value)]
        && cart.subTotal == old(cart.subTotal) - line.total + line.price * quantity.value
        && r == Success(200, "Cart updated successfully", View().value)
    {
      if quantity.None? || quantity.value <= 0 {
        return Failure(400, "Valid quantity is required");
      }
      if cart == null {
        return Failure(404, "Cart not found");
      }
      var itemIndex := FindIndex(cart.items, LineKey, itemId);
      if itemIndex == -1 {
        return Failure(404, "Item not found in cart");
      }
      cart.SetQuantity(itemIndex, quantity.value);
      r := Success(200, "Cart updated successfully", CartView(cart.items, cart.subTotal));
    }

    /** POST /api/checkout with `{cartItems, customerName, customerEmail}`.
        `now` is the order date, `stamp` and `suffix` the time-based and
        random parts of the order id. The submitted lines are trusted as
        they are: the total is the sum of their totals. */
    method Checkout(cartItems: Option<seq<LineItem>>, customerName: Option<string>,
                    customerEmail: Option<string>, now: int, stamp: string, suffix: string)
      returns (r: Response<Receipt>)
      requires Valid()
      modifies this, cart
      ensures Valid() && products == old(products) && cart == old(cart)
      ensures (cartItems.None? || cartItems.value == []) ==>
        r == Failure(400, "Cart is empty") && orders == old(orders) && View() == old(View())
      ensures cartItems.Some? && cartItems.value != []
              && (BlankField(customerName) || BlankField(customerEmail)) ==>
        r == Failure(400, "Customer name and email are required")
        && orders == old(orders) && View() == old(View())
      ensures cartItems.Some? && cartItems.value != []
              && !BlankField(customerName) && !BlankField(customerEmail) ==>
        var order := Order(customerName.value, customerEmail.value, cartItems.value,
                           SumTotals(cartItems.value), now, OrderId(stamp, suffix));
        && orders == old(orders) + [order]
        && (old(cart) != null ==> View() == Some(CartView([], 0)))
        && (old(cart) == null ==> View() == None)
        && r == Success(201, "Order placed successfully", ReceiptOf(order))
    {
      if cartItems.None? || |cartItems.value| == 0 {
        return Failure(400, "Cart is empty");
      }
      if customerName.None? || customerName.value == "" || customerEmail.None? || customerEmail.value == "" {
        return Failure(400, "Customer name and email are required");
      }
      var total := SumTotals(cartItems.value);
      var orderId := OrderId(stamp, suffix);
      var order := Order(customerName.value, customerEmail.value, cartItems.value, total, now, orderId);
      orders := orders + [order];
      if cart != null {
        cart.Clear();
      }
      r := Success(201, "Order placed successfully", ReceiptOf(order));
    }
  }

  /** A client of the catalog route: the second listing neither reseeds nor
      duplicates the products. */
  method SeedOnce() returns (listed: Response<seq<Product>>, again: Response<seq<Product>>)
    ensures listed.Success? && |listed.data| == 10 && listed.data[0].price == 2999
    ensures again == listed
  {
    var server := new Server();
    listed := server.ListProducts([101, 102, 103, 104, 105, 106, 107, 108, 109, 110]);
    again := server.ListProducts([201, 202, 203, 204, 205, 206, 207, 208, 209, 210]);
  }

  /** A client of the add route: two headphones at 2999 make one line of
      total 5998 and a subtotal of 5998. */
  method AddScenario() returns (server: Server)
    ensures server.Valid() && server.cart != null
    ensures server.cart.items == [LineItem(900, 101, 2, 2999, "Wireless Headphones", 5998)]
  {
    var headphones := Product(101, 1, "Wireless Headphones", 2999, "", "", "");
    server := new Server();
    server.products := [headphones];
    assert FindProduct(server.products, 101) == Some(headphones);
    var added := server.AddItem(Some(101), Some(2), 900);
    assert added.Success? && added.data.subTotal == 5998;
  }

  /** A client of the update route: raising that line to three gives 8997;
      a quantity of zero is refused and changes nothing. */
  method UpdateScenario(server: Server)
    requires server.Valid() && server.cart != null
    requires server.cart.items == [LineItem(900, 101, 2, 2999, "Wireless Headphones", 5998)]
    modifies server.cart
    ensures server.cart.items == [LineItem(900, 101, 3, 2999, "Wireless Headphones", 8997)]
  {
    assert FindIndex(server.cart.items, LineKey, 900) == 0;
    assert server.cart.subTotal == SumTotals(server.cart.items) == 5998;
    var rejected := server.UpdateItem(900, Some(0));
    assert rejected == Failure(400, "Valid quantity is required");
    var updated := server.UpdateItem(900, Some(3));
    assert updated.Success? && updated.data.subTotal == 8997;
  }

  /** A client of the checkout route: the receipt carries the submitted
      total and the cart is left empty. */
  method CheckoutScenario(server: Server) returns (receipt: Response<Receipt>)
    requires server.Valid() && server.cart != null
    requires server.cart.items == [LineItem(900, 101, 3, 2999, "Wireless Headphones", 8997)]
    modifies server, server.cart
    ensures receipt.Success? && receipt.status == 201
    ensures receipt.data.total == 8997 && receipt.data.orderId == "ORD-1700000000000-K3Q9Z"
    ensures |server.orders| > 0 && server.orders[|server.orders| - 1].total == 8997
    ensures server.cart != null && server.cart.items == [] && server.cart.subTotal == 0
  {
    var items := server.cart.items;
    assert SumTotals(items) == 8997;
    receipt := server.Checkout(Some(items), Some("Asha"), Some("asha@example.com"),
                               0, "1700000000000", "K3Q9Z");
  }
}
