/** The order handlers: checkout of the whole cart, buy-now of one product,
    cancel by the owner, the admin status overwrite, and the pricing and
    pagination arithmetic they share. Checkout and buy-now run in one
    database transaction: here every check is made against a working copy
    of the product collection, which is written back only when all of them
    pass and the order is stored. */
module OrderController {
  import opened Common
  import opened ProductModel
  import opened OrderModel
  import opened CartController

  // ---------------------------------------------------------------------
  // Pricing

  /** Shipping, tax and grand total of an order. */
  datatype Totals = Totals(shippingCost: int, tax: int, totalAmount: int)

  const FreeShippingAbove: int := 500
  const FlatShipping: int := 50

  /** The pricing rule shared by checkout and buy-now: free shipping strictly
      above 500, 50 otherwise; tax is 18% of the subtotal rounded to the
      nearest unit (halves up, as `Math.round` does); the total adds all three. */
  function Price(subtotal: int): (t: Totals)
    ensures t.shippingCost == 0 <==> subtotal > FreeShippingAbove
    ensures t.shippingCost == 0 || t.shippingCost == FlatShipping
    ensures 100 * t.tax - 50 <= 18 * subtotal < 100 * t.tax + 50
    ensures t.totalAmount == subtotal + t.shippingCost + t.tax
  {
    var shipping := if subtotal > FreeShippingAbove then 0 else FlatShipping;
    var tax := (18 * subtotal + 50) / 100;
    Totals(shipping, tax, subtotal + shipping + tax)
  }

  /** The rounding bounds pin the tax down: no other whole number is within
      half a unit of 18% of the subtotal from below and strictly less than
      half a unit from above. */
  lemma TaxIsRounded(subtotal: int, tax: int)
    requires 100 * tax - 50 <= 18 * subtotal < 100 * tax + 50
    ensures tax == Price(subtotal).tax
  {
  }

  /** For a subtotal that is not negative, every amount is not negative and
      the total is at least the subtotal, as the order schema requires. */
  lemma PriceNonNegative(subtotal: int)
    requires subtotal >= 0
    ensures Price(subtotal).tax >= 0 && Price(subtotal).shippingCost >= 0
    ensures Price(subtotal).totalAmount >= subtotal
  {
  }

  // ---------------------------------------------------------------------
  // Checkout, as a function of the product collection and the cart lines

  /** Total quantity of a product over cart lines. */
  function LinesQty(lines: seq<CartItem>, id: ProductId): int
    decreases |lines|
  {
    if lines == [] then 0
    else
      var last := lines[|lines| - 1];
      LinesQty(lines[..|lines| - 1], id) + (if last.product == id then last.quantity else 0)
  }

  /** Total quantity of a product over order lines. */
  function ItemsQty(items: seq<OrderItem>, id: ProductId): int
    decreases |items|
  {
    if items == [] then 0
    else
      var last := items[|items| - 1];
      ItemsQty(items[..|items| - 1], id) + (if last.product == id then last.quantity else 0)
  }

  /** The state the checkout loop carries: the working product collection,
      the order lines built so far and their running subtotal. */
  datatype Reservation = Reservation(products: map<ProductId, Product>, items: seq<OrderItem>, subtotal: int)

  /** The order line a cart line becomes: the product's current name, the
      quantity, and the price captured in the cart (not the live price). */
  function LineItem(line: CartItem, name: string): OrderItem {
    OrderItem(line.product, name, line.quantity, line.price, line.quantity * line.price)
  }

  /** One turn of the checkout loop. A line whose product no longer exists
      fails on `item.product._id` (an exception); an inactive product or one
      with less stock than the line is a 400; the decremented product must
      pass its schema on save (a validation error, like an order's);
      otherwise the line is priced and reserved. */
  function ReserveLine(res: Reservation, line: CartItem): Result<Reservation> {
    if line.product !in res.products then Err(Internal)
    else
      var p := res.products[line.product];
      if !p.isActive then Err(ProductUnavailable)
      else if p.stock < line.quantity then Err(InsufficientStock)
      else
        var updated := p.(stock := p.stock - line.quantity);
        if !SchemaValid(updated) then Err(ValidationFailed)
        else
          var item := LineItem(line, p.name);
          Ok(Reservation(res.products[line.product := updated], res.items + [item], res.subtotal + item.total))
  }

  /** The whole checkout loop over the cart lines, in order; the first line
      that fails decides the error. */
  function ReserveAll(products: map<ProductId, Product>, lines: seq<CartItem>): Result<Reservation>
    decreases |lines|
  {
    if lines == [] then Ok(Reservation(products, [], 0))
    else
      match ReserveAll(products, lines[..|lines| - 1])
      case Err(e) => Err(e)
      case Ok(res) => ReserveLine(res, lines[|lines| - 1])
  }

  /** A failure part way through is the failure of the whole checkout. */
  lemma {:induction false} ReserveFailurePersists(products: map<ProductId, Product>, lines: seq<CartItem>, i: nat)
    requires i <= |lines| && ReserveAll(products, lines[..i]).Err?
    ensures ReserveAll(products, lines) == ReserveAll(products, lines[..i])
    decreases |lines| - i
  {
    if i < |lines| {
      var n := |lines| - 1;
      assert lines[..n][..i] == lines[..i];
      ReserveFailurePersists(products, lines[..n], i);
      assert lines[..|lines|] == lines;
    } else {
      assert lines[..i] == lines;
    }
  }

  /** A successful checkout lowers each product's stock by exactly the
      quantity the cart asks of it and changes nothing else in the catalog. */
  lemma {:induction false} ReserveStock(products: map<ProductId, Product>, lines: seq<CartItem>)
    requires ReserveAll(products, lines).Ok?
    ensures ReserveAll(products, lines).value.products.Keys == products.Keys
    ensures forall id :: id in products ==>
              ReserveAll(products, lines).value.products[id]
                == products[id].(stock := products[id].stock - LinesQty(lines, id))
    decreases |lines|
  {
    if lines != [] {
      var init := lines[..|lines| - 1];
      ReserveStock(products, init);
    }
  }

  /** The order lines mirror the cart lines one for one, each product named
      as in the catalog and priced at the cart's captured price; every line's
      product existed and was active. */
  lemma {:induction false} ReserveItems(products: map<ProductId, Product>, lines: seq<CartItem>)
    requires ReserveAll(products, lines).Ok?
    ensures |ReserveAll(products, lines).value.items| == |lines|
    ensures forall k :: 0 <= k < |lines| ==>
              && lines[k].product in products
              && products[lines[k].product].isActive
              && ReserveAll(products, lines).value.items[k] == LineItem(lines[k], products[lines[k].product].name)
    decreases |lines|
  {
    if lines != [] {
      var init := lines[..|lines| - 1];
      ReserveItems(products, init);
      ReserveStock(products, init);
      var res := ReserveAll(products, init).value;
      assert forall k :: 0 <= k < |init| ==> init[k] == lines[k];
      assert forall k :: 0 <= k < |init| ==> ReserveAll(products, lines).value.items[k] == res.items[k];
    }
  }

  /** The running subtotal is the sum of the line totals, so it agrees with
      the order's own recompute on save. */
  lemma {:induction false} ReserveSubtotal(products: map<ProductId, Product>, lines: seq<CartItem>)
    requires ReserveAll(products, lines).Ok?
    ensures ReserveAll(products, lines).value.subtotal == ItemsTotal(ReserveAll(products, lines).value.items)
    decreases |lines|
  {
    if lines != [] {
      var init := lines[..|lines| - 1];
      ReserveSubtotal(products, init);
      var res := ReserveAll(products, init).value;
      var items := ReserveAll(products, lines).value.items;
      assert items[..|items| - 1] == res.items;
    }
  }

  /** The order asks of each product exactly what the cart asked. */
  lemma {:induction false} ReserveQuantities(products: map<ProductId, Product>, lines: seq<CartItem>, id: ProductId)
    requires ReserveAll(products, lines).Ok?
    ensures ItemsQty(ReserveAll(products, lines).value.items, id) == LinesQty(lines, id)
    decreases |lines|
  {
    if lines != [] {
      var init := lines[..|lines| - 1];
      ReserveQuantities(products, init, id);
      var items := ReserveAll(products, lines).value.items;
      assert items[..|items| - 1] == ReserveAll(products, init).value.items;
    }
  }

  /** Dropping the last line keeps the lines unique, and the last line's
      product has no line before it. */
  lemma UniqueInit(lines: seq<CartItem>)
    requires UniqueLines(lines) && lines != []
    ensures UniqueLines(lines[..|lines| - 1])
    ensures FindLine(lines[..|lines| - 1], lines[|lines| - 1].product) == -1
  {
    var n := |lines| - 1;
    var init := lines[..n];
    assert forall k :: 0 <= k < n ==> init[k] == lines[k];
    assert forall k :: 0 <= k < n ==> init[k].product != lines[n].product;
  }

  /** A line-per-product cart asks of a product no more than one line's quantity. */
  lemma {:induction false} LinesQtyUnique(lines: seq<CartItem>, id: ProductId)
    requires UniqueLines(lines)
    ensures FindLine(lines, id) == -1 ==> LinesQty(lines, id) == 0
    ensures FindLine(lines, id) >= 0 ==> LinesQty(lines, id) == lines[FindLine(lines, id)].quantity
    decreases |lines|
  {
    if lines != [] {
      var n := |lines| - 1;
      var init := lines[..n];
      UniqueInit(lines);
      LinesQtyUnique(init, id);
      if lines[n].product == id {
        assert FindLine(lines, id) == n by {
          assert forall k :: 0 <= k < n ==> lines[k].product != id;
        }
      } else {
        var i := FindLine(init, id);
        assert FindLine(lines, id) == i;
      }
    }
  }

  /** Over a valid catalog and a cart with one line per product, checkout
      succeeds exactly when every line's product exists, is active and has
      at least the line's quantity in stock. */
  lemma {:induction false} ReserveSucceedsIff(products: map<ProductId, Product>, lines: seq<CartItem>)
    requires forall id :: id in products ==> SchemaValid(products[id])
    requires UniqueLines(lines)
    ensures ReserveAll(products, lines).Ok? <==>
              forall k :: 0 <= k < |lines| ==>
                && lines[k].product in products
                && products[lines[k].product].isActive
                && lines[k].quantity <= products[lines[k].product].stock
    decreases |lines|
  {
    if lines != [] {
      var n := |lines| - 1;
      var init := lines[..n];
      UniqueInit(lines);
      ReserveSucceedsIff(products, init);
      assert forall k :: 0 <= k < n ==> init[k] == lines[k];
      if ReserveAll(products, init).Ok? {
        ReserveLastLine(products, lines);
      }
    }
  }

  /** Once the earlier lines are reserved, the last line of a cart with one
      line per product meets the catalog's untouched stock of its product. */
  lemma ReserveLastLine(products: map<ProductId, Product>, lines: seq<CartItem>)
    requires forall id :: id in products ==> SchemaValid(products[id])
    requires UniqueLines(lines) && lines != []
    requires ReserveAll(products, lines[..|lines| - 1]).Ok?
    ensures var last := lines[|lines| - 1];
            ReserveAll(products, lines).Ok? <==>
              && last.product in products
              && products[last.product].isActive
              && last.quantity <= products[last.product].stock
  {
    var init := lines[..|lines| - 1];
    UniqueInit(lines);
    ReserveStock(products, init);
    LinesQtyUnique(init, lines[|lines| - 1].product);
  }

  /** Over a valid catalog, a successful checkout leaves a valid catalog: in
      particular no stock goes below 0. */
  lemma {:induction false} ReserveKeepsCatalogValid(products: map<ProductId, Product>, lines: seq<CartItem>)
    requires forall id :: id in products ==> SchemaValid(products[id])
    requires ReserveAll(products, lines).Ok?
    ensures forall id :: id in ReserveAll(products, lines).value.products ==>
              SchemaValid(ReserveAll(products, lines).value.products[id])
    decreases |lines|
  {
    if lines != [] {
      ReserveKeepsCatalogValid(products, lines[..|lines| - 1]);
    }
  }

  // ---------------------------------------------------------------------
  // Cancel, as a function of the product collection and the order lines

  /** One `$inc` of the cancel loop: a product that no longer exists is
      skipped (the update matches nothing). */
  function RestoreLine(products: map<ProductId, Product>, item: OrderItem): map<ProductId, Product> {
    if item.product in products then
      products[item.product := products[item.product].(stock := products[item.product].stock + item.quantity)]
    else products
  }

  /** The cancel loop over the order lines, in order. */
  function RestoreAll(products: map<ProductId, Product>, items: seq<OrderItem>): map<ProductId, Product>
    decreases |items|
  {
    if items == [] then products
    else RestoreLine(RestoreAll(products, items[..|items| - 1]), items[|items| - 1])
  }

  /** Cancelling gives each product back exactly the quantity the order holds
      of it, and changes nothing else in the catalog. */
  lemma {:induction false} RestoreStock(products: map<ProductId, Product>, items: seq<OrderItem>)
    ensures RestoreAll(products, items).Keys == products.Keys
    ensures forall id :: id in products ==>
              RestoreAll(products, items)[id] == products[id].(stock := products[id].stock + ItemsQty(items, id))
    decreases |items|
  {
    if items != [] {
      RestoreStock(products, items[..|items| - 1]);
    }
  }

  /** Giving stock back never takes a product out of its schema: over a
      valid catalog and lines of quantity at least 0 (a stored order's are
      at least 1) every product stays valid. */
  lemma {:induction false} RestoreKeepsCatalogValid(products: map<ProductId, Product>, items: seq<OrderItem>)
    requires forall id :: id in products ==> SchemaValid(products[id])
    requires forall k :: 0 <= k < |items| ==> items[k].quantity >= 0
    ensures forall id :: id in RestoreAll(products, items) ==> SchemaValid(RestoreAll(products, items)[id])
    decreases |items|
  {
    if items != [] {
      RestoreKeepsCatalogValid(products, items[..|items| - 1]);
    }
  }

  /** Checkout followed by cancel of the order it created restores every
      product exactly as it was before the checkout. */
  lemma CancelUndoesCheckout(products: map<ProductId, Product>, lines: seq<CartItem>)
    requires ReserveAll(products, lines).Ok?
    ensures var res := ReserveAll(products, lines).value;
            RestoreAll(res.products, res.items) == products
  {
    var res := ReserveAll(products, lines).value;
    ReserveStock(products, lines);
    RestoreStock(res.products, res.items);
    forall id | id in products
      ensures RestoreAll(res.products, res.items)[id] == products[id]
    {
      ReserveQuantities(products, lines, id);
    }
  }

  // ---------------------------------------------------------------------
  // The handlers

  /** `x || fallback` on an optional request string: the fallback when the
      value is absent or empty. */
  function TextOr(value: Option<string>, fallback: string): (r: string)
    ensures value.Some? && value.value != "" ==> r == value.value
    ensures value.None? || value.value == "" ==> r == fallback
  {
    if value.Some? && value.value != "" then value.value else fallback
  }

  const DefaultPaymentMethod: string := "cod"
  const UserCancelReason: string := "Cancelled by user"

  /** The order a successful checkout or buy-now stores: the given lines,
      a generated number, pending order and payment, the pricing rule's
      totals, and no tracking, delivery or cancellation marks. */
  predicate IsNewOrder(o: Order, user: UserId, items: seq<OrderItem>, address: ShippingAddress,
                       paymentMethod: string, notes: Option<string>, generated: string)
    reads o
  {
    var t := Price(ItemsTotal(items));
    && o.Valid() && o.user == user && o.items == items
    && o.orderNumber == Some(generated)
    && o.shippingAddress == WithDefaultCountry(address)
    && o.paymentInfo == PaymentInfo(Some(paymentMethod), None, None, PaymentPending)
    && o.orderStatus == Pending
    && o.subtotal == ItemsTotal(items)
    && o.shippingCost == t.shippingCost && o.tax == t.tax && o.totalAmount == t.totalAmount
    && o.notes == notes
    && o.trackingNumber.None? && !o.deliveredAt && !o.cancelledAt && o.cancellationReason.None?
  }

  /** The checkout loop of `createOrderFromCart`: each line is checked
      against the working copy of the product collection and, when it
      passes, priced and its stock taken; the first failing line returns its
      error. Proved to compute `ReserveAll`. */
  method ReserveLines(products: map<ProductId, Product>, lines: seq<CartItem>) returns (r: Result<Reservation>)
    ensures r == ReserveAll(products, lines)
    ensures r.Ok? && (forall id :: id in products ==> SchemaValid(products[id])) ==>
              forall id :: id in r.value.products ==> SchemaValid(r.value.products[id])
  {
    var stock := products;
    var orderItems: seq<OrderItem> := [];
    var subtotal := 0;
    var i := 0;
    while i < |lines|
      invariant 0 <= i <= |lines|
      invariant ReserveAll(products, lines[..i]) == Ok(Reservation(stock, orderItems, subtotal))
    {
      var line := lines[i];
      assert lines[..i + 1][..i] == lines[..i];
      if line.product !in stock {
        ReserveFailurePersists(products, lines, i + 1);
        return Err(Internal);
      }
      var product := stock[line.product];
      if !product.isActive {
        ReserveFailurePersists(products, lines, i + 1);
        return Err(ProductUnavailable);
      }
      if product.stock < line.quantity {
        ReserveFailurePersists(products, lines, i + 1);
        return Err(InsufficientStock);
      }
      var updated := product.(stock := product.stock - line.quantity);
      if !SchemaValid(updated) {
        ReserveFailurePersists(products, lines, i + 1);
        return Err(ValidationFailed);
      }
      var itemTotal := line.quantity * line.price;
      orderItems := orderItems + [OrderItem(line.product, product.name, line.quantity, line.price, itemTotal)];
      subtotal := subtotal + itemTotal;
      stock := stock[line.product := updated];
      i := i + 1;
    }
    assert lines[..|lines|] == lines;
    r := Ok(Reservation(stock, orderItems, subtotal));
    if forall id :: id in products ==> SchemaValid(products[id]) {
      ReserveKeepsCatalogValid(products, lines);
    }
  }

  /** `createOrderFromCart`: after the request's validators, a missing or
      empty cart is rejected; the lines are checked and reserved one by one
      against the live stock; the order is built from them with the pricing
      rule and saved; only then are the new stock and the emptied cart
      committed. Any failure leaves catalog and cart as they were. */
  method CreateOrderFromCart(catalog: Catalog, user: UserId, cart: Cart?, requestValid: bool,
                             address: ShippingAddress, paymentMethod: Option<string>,
                             notes: Option<string>, generated: string)
    returns (r: Result<Order>)
    requires generated != ""
    requires cart != null ==> cart.user == user
    modifies catalog, cart
    ensures !requestValid ==> r == Err(ValidationFailed)
    ensures requestValid && (cart == null || old(cart.items) == []) ==> r == Err(EmptyCart)
    ensures requestValid && cart != null && old(cart.items) != [] ==>
              match ReserveAll(old(catalog.products), old(cart.items))
              case Err(e) => r == Err(e)
              case Ok(res) =>
                var t := Price(res.subtotal);
                var payWith := paymentMethod.GetOr(DefaultPaymentMethod);
                if Creatable(res.items, address, payWith, t.shippingCost, t.tax, notes) then
                  && r.Ok? && fresh(r.value)
                  && IsNewOrder(r.value, user, res.items, address, payWith, notes, generated)
                  && catalog.products == res.products
                  && cart.items == []
                else r == Err(ValidationFailed)
    ensures r.Err? ==> unchanged(catalog) && (cart != null ==> unchanged(cart))
    ensures old(catalog.Valid()) ==> catalog.Valid()
  {
    if !requestValid {
      return Err(ValidationFailed);
    }
    if cart == null || cart.items == [] {
      return Err(EmptyCart);
    }
    var lines := cart.items;
    var reserved := ReserveLines(catalog.products, lines);
    if reserved.Err? {
      assert ReserveAll(old(catalog.products), old(cart.items)) == Err(reserved.error);
      return Err(reserved.error);
    }
    var res := reserved.value;
    var stock, orderItems, subtotal := res.products, res.items, res.subtotal;
    assert ReserveAll(old(catalog.products), old(cart.items)) == Ok(res);
    ReserveSubtotal(catalog.products, lines);
    var t := Price(subtotal);
    var payWith := paymentMethod.GetOr(DefaultPaymentMethod);
    var saved, order := NewOrderSaved(user, orderItems, address, payWith, subtotal,
                                      t.shippingCost, t.tax, t.totalAmount, notes, generated);
    if saved.Fail? {
      return Err(ValidationFailed);
    }
    catalog.products := stock;
    cart.items := [];
    r := Ok(order);
  }

  /** `buyNow`: after the request's validators, a missing or inactive product
      is 404 and a quantity above its stock is 400; the single line is priced
      at the effective price, the order is saved, and then the decremented
      product; any failure leaves the catalog as it was. */
  method BuyNow(catalog: Catalog, user: UserId, requestValid: bool, productId: ProductId, quantity: int,
                address: ShippingAddress, paymentMethod: Option<string>, notes: Option<string>,
                generated: string)
    returns (r: Result<Order>)
    requires generated != ""
    modifies catalog
    ensures !requestValid ==> r == Err(ValidationFailed)
    ensures requestValid && !(productId in old(catalog.products) && old(catalog.products)[productId].isActive) ==>
              r == Err(NotFound)
    ensures requestValid && productId in old(catalog.products) && old(catalog.products)[productId].isActive ==>
              var p := old(catalog.products)[productId];
              var price := EffectivePrice(p);
              var item := OrderItem(productId, p.name, quantity, price, quantity * price);
              var t := Price(item.total);
              var payWith := paymentMethod.GetOr(DefaultPaymentMethod);
              var updated := p.(stock := p.stock - quantity);
              if p.stock < quantity then r == Err(InsufficientStock)
              else if !Creatable([item], address, payWith, t.shippingCost, t.tax, notes) then r == Err(ValidationFailed)
              else if !SchemaValid(updated) then r == Err(ValidationFailed)
              else
                && r.Ok? && fresh(r.value)
                && IsNewOrder(r.value, user, [item], address, payWith, notes, generated)
                && catalog.products == old(catalog.products)[productId := updated]
    ensures r.Ok? ==>
              && productId in old(catalog.products)
              && var line := CartItem(productId, quantity, EffectivePrice(old(catalog.products)[productId]));
                 ReserveAll(old(catalog.products), [line])
                   == Ok(Reservation(catalog.products, r.value.items, r.value.subtotal))
    ensures r.Err? ==> unchanged(catalog)
    ensures old(catalog.Valid()) ==> catalog.Valid()
  {
    if !requestValid {
      return Err(ValidationFailed);
    }
    if !(productId in catalog.products && catalog.products[productId].isActive) {
      return Err(NotFound);
    }
    var product := catalog.products[productId];
    if product.stock < quantity {
      return Err(InsufficientStock);
    }
    var price := EffectivePrice(product);
    var itemTotal := quantity * price;
    var subtotal := itemTotal;
    var t := Price(subtotal);
    var payWith := paymentMethod.GetOr(DefaultPaymentMethod);
    var item := OrderItem(productId, product.name, quantity, price, itemTotal);
    assert ItemsTotal([item]) == itemTotal by {
      assert [item][..0] == [];
    }
    var saved, order := NewOrderSaved(user, [item], address, payWith, subtotal,
                                      t.shippingCost, t.tax, t.totalAmount, notes, generated);
    if saved.Fail? {
      return Err(ValidationFailed);
    }
    var updated := product.(stock := product.stock - quantity);
    if !SchemaValid(updated) {
      return Err(ValidationFailed);
    }
    var line := CartItem(productId, quantity, price);
    assert [line][..0] == [];
    assert LineItem(line, product.name) == item;
    assert ReserveAll(catalog.products, [line])
        == Ok(Reservation(catalog.products[productId := updated], [] + [item], 0 + itemTotal));
    assert [] + [item] == [item];
    catalog.products := catalog.products[productId := updated];
    r := Ok(order);
  }

  /** A status from which the owner may still cancel. */
  predicate Cancellable(s: OrderStatus) {
    s != Shipped && s != Delivered && s != Cancelled
  }

  /** `cancelOrder`: only the owner's order (anyone else's is 404), and only
      before it ships: shipped, delivered and cancelled orders are refused.
      The order becomes cancelled with the given reason or the default one
      and is saved; then every line's quantity goes back to its product's
      stock. A refused or failed cancel changes nothing. */
  method CancelOrder(catalog: Catalog, user: UserId, order: Order?, reason: Option<string>, generated: string)
    returns (r: Outcome)
    requires generated != ""
    modifies catalog, order
    ensures order == null || order.user != user ==> r == Fail(NotFound)
    ensures order != null && order.user == user && !Cancellable(old(order.orderStatus)) ==>
              r == Fail(InvalidTransition)
    ensures order != null && order.user == user && Cancellable(old(order.orderStatus)) ==>
              r == (if old(order.ValidAfterHooks(generated)) then Pass else Fail(ValidationFailed))
    ensures r.Pass? ==>
              && order != null
              && order.orderStatus == Cancelled && order.cancelledAt
              && order.cancellationReason == Some(TextOr(reason, UserCancelReason))
              && order.paymentInfo == old(order.paymentInfo)
              && order.trackingNumber == old(order.trackingNumber) && order.deliveredAt == old(order.deliveredAt)
              && ContentKept(order)
              && order.Valid()
              && catalog.products == RestoreAll(old(catalog.products), order.items)
    ensures r.Fail? ==> unchanged(catalog) && (order != null ==> unchanged(order))
    ensures old(catalog.Valid()) ==> catalog.Valid()
  {
    if order == null || order.user != user {
      return Fail(NotFound);
    }
    if !Cancellable(order.orderStatus) {
      return Fail(InvalidTransition);
    }
    var saved := order.SaveProgress(Cancelled, order.paymentInfo, order.trackingNumber, order.deliveredAt,
                                    true, Some(TextOr(reason, UserCancelReason)), generated);
    if saved.Fail? {
      return Fail(ValidationFailed);
    }
    assert forall k :: 0 <= k < |order.items| ==> ItemValid(order.items[k]);
    GiveBackStock(catalog, order.items);
    r := Pass;
  }

  /** The loop of `cancelOrder` that gives each line's quantity back to its
      product, one line at a time. */
  method GiveBackStock(catalog: Catalog, items: seq<OrderItem>)
    modifies catalog
    ensures catalog.products == RestoreAll(old(catalog.products), items)
    ensures old(catalog.Valid()) && (forall k :: 0 <= k < |items| ==> items[k].quantity >= 0) ==> catalog.Valid()
  {
    var i := 0;
    while i < |items|
      invariant 0 <= i <= |items|
      invariant catalog.products == RestoreAll(old(catalog.products), items[..i])
    {
      assert items[..i + 1][..i] == items[..i];
      catalog.products := RestoreLine(catalog.products, items[i]);
      i := i + 1;
    }
    assert items[..|items|] == items;
    if old(catalog.Valid()) && (forall k :: 0 <= k < |items| ==> items[k].quantity >= 0) {
      RestoreKeepsCatalogValid(old(catalog.products), items);
    }
  }

  /** `updateOrderStatus` (admin): any order, any target status, no check of
      the transition and no stock change. A status the enum does not know
      fails the save; a tracking number is recorded only when one is given;
      delivery is stamped only for "delivered" (and a cancel here stamps no
      cancellation). */
  method UpdateOrderStatus(order: Order?, status: string, trackingNumber: Option<string>, generated: string)
    returns (r: Outcome)
    requires generated != ""
    modifies order
    ensures order == null ==> r == Fail(NotFound)
    ensures order != null ==>
              r == (if ParseOrderStatus(status).Some? && old(order.ValidAfterHooks(generated)) then Pass
                    else Fail(ValidationFailed))
    ensures r.Pass? ==> order != null && Some(order.orderStatus) == ParseOrderStatus(status) && order.Valid()
    ensures r.Pass? ==> order.trackingNumber == (if trackingNumber.Some? && trackingNumber.value != "" then trackingNumber
                                                 else old(order.trackingNumber))
    ensures r.Pass? ==> order.deliveredAt == (old(order.deliveredAt) || order.orderStatus == Delivered)
    ensures r.Pass? ==> order.cancelledAt == old(order.cancelledAt)
    ensures r.Pass? ==> order.cancellationReason == old(order.cancellationReason)
    ensures r.Pass? ==> order.paymentInfo == old(order.paymentInfo) && ContentKept(order)
    ensures r.Fail? && order != null ==> unchanged(order)
  {
    if order == null {
      return Fail(NotFound);
    }
    var parsed := ParseOrderStatus(status);
    if parsed.None? {
      // The enum validator rejects the document; nothing is stored.
      return Fail(ValidationFailed);
    }
    var tracking := if trackingNumber.Some? && trackingNumber.value != "" then trackingNumber else order.trackingNumber;
    var saved := order.SaveProgress(parsed.value, order.paymentInfo, tracking,
                                    order.deliveredAt || parsed.value == Delivered,
                                    order.cancelledAt, order.cancellationReason, generated);
    if saved.Fail? {
      return Fail(ValidationFailed);
    }
    r := Pass;
  }

  /** Checkout then cancel by the same user: the new order is the caller's,
      pending and valid, so a checkout that succeeds is always cancellable,
      and the catalog is back to what it was before the checkout. */
  method CheckoutThenCancel(catalog: Catalog, user: UserId, cart: Cart, address: ShippingAddress,
                            paymentMethod: Option<string>, notes: Option<string>,
                            generated: string, reason: Option<string>)
    returns (placed: Result<Order>, cancelled: Outcome)
    requires generated != ""
    requires cart.user == user
    modifies catalog, cart
    ensures placed.Ok? ==> cancelled.Pass?
    ensures placed.Ok? ==> catalog.products == old(catalog.products)
  {
    placed := CreateOrderFromCart(catalog, user, cart, true, address, paymentMethod, notes, generated);
    if placed.Err? {
      return placed, Fail(placed.error);
    }
    var lines := old(cart.items);
    var res := ReserveAll(old(catalog.products), lines).value;
    CancelUndoesCheckout(old(catalog.products), lines);
    cancelled := CancelOrder(catalog, user, placed.value, reason, generated);
  }

  // ---------------------------------------------------------------------
  // Pagination of the order lists

  const DefaultPage: int := 1
  const UserPageSize: int := 10
  const AdminPageSize: int := 20

  /** `parseInt(query) || fallback`: `parsed` is None when the query is absent
      or not a number; a parsed 0 also falls back. */
  function QueryOr(parsed: Option<int>, fallback: int): (r: int)
    ensures fallback != 0 ==> r != 0
    ensures parsed.Some? && parsed.value != 0 ==> r == parsed.value
    ensures parsed.None? || parsed.value == 0 ==> r == fallback
  {
    if parsed.Some? && parsed.value != 0 then parsed.value else fallback
  }

  /** How many orders precede the requested page. */
  function Skip(page: int, limit: int): int {
    (page - 1) * limit
  }

  /** `Math.ceil(total / limit)` for a limit that is never 0 (the fallbacks
      are not): the smallest page count whose pages hold `total` orders. */
  function PageCount(total: int, limit: int): (pages: int)
    requires limit != 0
    ensures limit > 0 ==> (pages - 1) * limit < total <= pages * limit
    ensures limit < 0 ==> pages * limit <= total < (pages - 1) * limit
  {
    if limit > 0 then
      var q := (-total) / limit;
      assert -total == q * limit + (-total) % limit;
      assert (-q - 1) * limit == -q * limit - limit;
      -q
    else
      var q := total / (-limit);
      assert total == q * (-limit) + total % (-limit);
      assert (-q) * limit == q * (-limit);
      assert (-q - 1) * limit == q * (-limit) - limit;
      -q
  }

  /** With a positive page size every one of `total` orders lands on a page
      between 1 and the page count: none is out of reach of the pager. */
  lemma PagesCoverOrders(total: int, limit: int, k: int)
    requires limit > 0 && 0 <= k < total
    ensures var page := k / limit + 1;
            && 1 <= page <= PageCount(total, limit)
            && Skip(page, limit) <= k < Skip(page, limit) + limit
  {
    var page := k / limit + 1;
    assert k == (k / limit) * limit + k % limit;
    assert Skip(page, limit) == (k / limit) * limit;
  }
}
