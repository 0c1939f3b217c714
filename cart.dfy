/** The cart handlers: a self-healing read, add (merging into an existing
    line), update (0 or less removes the line), remove and clear. Together
    they keep at most one line per product, and every line they write holds
    no more than the product's stock at that moment. */
module CartController {
  import opened Common
  import opened Text
  import opened ProductModel

  /** One cart line: the product, the quantity and the unit price captured
      when the line was last written. */
  datatype CartItem = CartItem(product: ProductId, quantity: int, price: int)

  /** A user's cart document; its `items` list is what the handlers change. */
  class Cart {
    const user: UserId
    var items: seq<CartItem>

    constructor (user: UserId)
      ensures this.user == user && items == []
    {
      this.user := user;
      items := [];
    }
  }

  /** At most one line per product. */
  predicate UniqueLines(items: seq<CartItem>) {
    forall i, j :: 0 <= i < j < |items| ==> items[i].product != items[j].product
  }

  /** `items.findIndex(item => item.product === productId)`: the first line
      for the product, or -1 when there is none. */
  function FindLine(items: seq<CartItem>, productId: ProductId): (i: int)
    ensures -1 <= i < |items|
    ensures i >= 0 ==> items[i].product == productId
    ensures forall k :: 0 <= k < |items| && (i == -1 || k < i) ==> items[k].product != productId
    decreases |items|
  {
    if items == [] then -1
    else if items[0].product == productId then 0
    else
      var j := FindLine(items[1..], productId);
      if j == -1 then -1 else j + 1
  }

  /** The read's filter condition: the product exists, is active and in stock. */
  predicate Available(products: map<ProductId, Product>, productId: ProductId) {
    productId in products && products[productId].isActive && products[productId].stock > 0
  }

  /** The lines the read keeps: exactly those whose product is available. */
  function KeepAvailable(items: seq<CartItem>, products: map<ProductId, Product>): (r: seq<CartItem>)
    ensures |r| <= |items|
    ensures forall x :: x in r <==> x in items && Available(products, x.product)
    ensures |r| == |items| <==> forall k :: 0 <= k < |items| ==> Available(products, items[k].product)
    ensures |r| == |items| ==> r == items
    decreases |items|
  {
    if items == [] then []
    else
      var rest := KeepAvailable(items[1..], products);
      assert forall x :: x in items <==> x == items[0] || x in items[1..];
      if Available(products, items[0].product) then [items[0]] + rest
      else
        assert |rest| < |items| by { assert |rest| <= |items[1..]|; }
        rest
  }

  /** The filter keeps the original order: it works line by line. */
  lemma {:induction false} KeepAvailableAppend(a: seq<CartItem>, b: seq<CartItem>, products: map<ProductId, Product>)
    ensures KeepAvailable(a + b, products) == KeepAvailable(a, products) + KeepAvailable(b, products)
    decreases |a|
  {
    if a == [] {
      assert a + b == b;
    } else {
      assert (a + b)[0] == a[0];
      assert (a + b)[1..] == a[1..] + b;
      KeepAvailableAppend(a[1..], b, products);
    }
  }

  /** The lines the remove handler keeps: all those of other products. */
  function WithoutProduct(items: seq<CartItem>, productId: ProductId): (r: seq<CartItem>)
    ensures |r| <= |items|
    ensures forall x :: x in r <==> x in items && x.product != productId
    ensures |r| == |items| <==> FindLine(items, productId) == -1
    ensures FindLine(items, productId) == -1 ==> r == items
    decreases |items|
  {
    if items == [] then []
    else
      var rest := WithoutProduct(items[1..], productId);
      assert forall x :: x in items <==> x == items[0] || x in items[1..];
      if items[0].product != productId then [items[0]] + rest
      else
        assert |rest| < |items| by { assert |rest| <= |items[1..]|; }
        rest
  }

  /** Appending a line of the removed product leaves the result unchanged. */
  lemma {:induction false} WithoutProductAppendOwn(items: seq<CartItem>, line: CartItem)
    ensures WithoutProduct(items + [line], line.product) == WithoutProduct(items, line.product)
    decreases |items|
  {
    if items == [] {
      assert WithoutProduct([line], line.product) == WithoutProduct([], line.product);
    } else {
      assert (items + [line])[0] == items[0];
      assert (items + [line])[1..] == items[1..] + [line];
      WithoutProductAppendOwn(items[1..], line);
    }
  }

  /** Rewriting a line of the removed product leaves the result unchanged. */
  lemma {:induction false} WithoutProductUpdateOwn(items: seq<CartItem>, i: nat, line: CartItem)
    requires i < |items| && items[i].product == line.product
    ensures WithoutProduct(items[i := line], line.product) == WithoutProduct(items, line.product)
    decreases |items|
  {
    if i > 0 {
      assert items[i := line][0] == items[0];
      assert items[i := line][1..] == items[1..][i - 1 := line];
      WithoutProductUpdateOwn(items[1..], i - 1, line);
    } else {
      assert items[i := line][1..] == items[1..];
    }
  }


  /** Filtering a cart with one line per product leaves one line per product. */
  lemma {:induction false} KeepAvailableUnique(items: seq<CartItem>, products: map<ProductId, Product>)
    requires UniqueLines(items)
    ensures UniqueLines(KeepAvailable(items, products))
    decreases |items|
  {
    if items != [] {
      var rest := KeepAvailable(items[1..], products);
      KeepAvailableUnique(items[1..], products);
      forall x | x in rest ensures x.product != items[0].product {
        assert x in items[1..];
        var k :| 0 <= k < |items[1..]| && items[1..][k] == x;
        assert items[k + 1] == x;
      }
    }
  }

  lemma {:induction false} WithoutProductUnique(items: seq<CartItem>, productId: ProductId)
    requires UniqueLines(items)
    ensures UniqueLines(WithoutProduct(items, productId))
    decreases |items|
  {
    if items != [] {
      var rest := WithoutProduct(items[1..], productId);
      WithoutProductUnique(items[1..], productId);
      forall x | x in rest ensures x.product != items[0].product {
        assert x in items[1..];
        var k :| 0 <= k < |items[1..]| && items[1..][k] == x;
        assert items[k + 1] == x;
      }
    }
  }

  /** In a cart with one line per product, splicing out the product's line
      (what an update to quantity 0 does) is the same as removing the product. */
  lemma {:induction false} SpliceIsRemove(items: seq<CartItem>, productId: ProductId)
    requires UniqueLines(items)
    requires FindLine(items, productId) >= 0
    ensures var i := FindLine(items, productId);
            items[..i] + items[i + 1..] == WithoutProduct(items, productId)
    decreases |items|
  {
    var i := FindLine(items, productId);
    var tail := items[1..];
    UniqueLinesTail(items);
    if i == 0 {
      OnlyFirstLine(items, productId);
      assert items[..0] + items[1..] == tail;
      assert WithoutProduct(items, productId) == WithoutProduct(tail, productId);
    } else {
      assert FindLine(tail, productId) == i - 1;
      SpliceIsRemove(tail, productId);
      SpliceAfterFirst(items, i);
      assert WithoutProduct(items, productId) == [items[0]] + WithoutProduct(tail, productId);
    }
  }

  /** Splicing out a line after the first keeps the first line in front of
      the splice of the rest. */
  lemma SpliceAfterFirst(items: seq<CartItem>, i: nat)
    requires 0 < i < |items|
    ensures items[..i] + items[i + 1..] == [items[0]] + (items[1..][..i - 1] + items[1..][i..])
  {
    assert items[..i] == [items[0]] + items[1..][..i - 1];
    assert items[i + 1..] == items[1..][i..];
  }

  /** Dropping the first line keeps the lines unique. */
  lemma UniqueLinesTail(items: seq<CartItem>)
    requires UniqueLines(items) && items != []
    ensures UniqueLines(items[1..])
  {
    var tail := items[1..];
    forall a, b | 0 <= a < b < |tail| ensures tail[a].product != tail[b].product {
      assert tail[a] == items[a + 1] && tail[b] == items[b + 1];
    }
  }

  /** In a cart with unique lines, the product of the first line has no
      other line. */
  lemma OnlyFirstLine(items: seq<CartItem>, productId: ProductId)
    requires UniqueLines(items) && items != [] && items[0].product == productId
    ensures FindLine(items[1..], productId) == -1
  {
    forall k | 0 <= k < |items[1..]| ensures items[1..][k].product != productId {
      assert items[1..][k] == items[k + 1];
    }
  }


  /** The quantity of a product the cart holds: its line's, or 0. */
  function QuantityOf(items: seq<CartItem>, productId: ProductId): int {
    var i := FindLine(items, productId);
    if i == -1 then 0 else items[i].quantity
  }

  /** The add handler's two stock checks: the requested quantity alone, and
      the line's quantity after the add. */
  predicate AddFits(stock: int, items: seq<CartItem>, productId: ProductId, quantity: int) {
    quantity <= stock && QuantityOf(items, productId) + quantity <= stock
  }

  /** A line appended for a product the cart does not hold is that product's line. */
  lemma AppendedLine(items: seq<CartItem>, line: CartItem)
    requires FindLine(items, line.product) == -1
    ensures FindLine(items + [line], line.product) == |items|
    ensures UniqueLines(items) ==> UniqueLines(items + [line])
  {
    var r := items + [line];
    assert r[|items|] == line;
    assert forall k :: 0 <= k < |items| ==> r[k] == items[k];
  }

  /** A line rewritten in place for the same product stays that product's line. */
  lemma RewrittenLine(items: seq<CartItem>, i: nat, line: CartItem)
    requires i < |items| && FindLine(items, line.product) == i
    ensures FindLine(items[i := line], line.product) == i
    ensures UniqueLines(items) ==> UniqueLines(items[i := line])
  {
    var r := items[i := line];
    assert forall k :: 0 <= k < |items| && k != i ==> r[k] == items[k];
    assert r[i].product == line.product;
  }

  /** The lines after an add: the product's line gains the quantity and takes
      the current price, or a new line is appended; no other line changes and
      there is still one line per product. */
  function AddLine(items: seq<CartItem>, productId: ProductId, quantity: int, price: int): (r: seq<CartItem>)
    ensures FindLine(r, productId) >= 0
    ensures r[FindLine(r, productId)] == CartItem(productId, QuantityOf(items, productId) + quantity, price)
    ensures QuantityOf(r, productId) == QuantityOf(items, productId) + quantity
    ensures WithoutProduct(r, productId) == WithoutProduct(items, productId)
    ensures |r| == if FindLine(items, productId) == -1 then |items| + 1 else |items|
    ensures UniqueLines(items) ==> UniqueLines(r)
  {
    var i := FindLine(items, productId);
    if i == -1 then
      var line := CartItem(productId, quantity, price);
      WithoutProductAppendOwn(items, line);
      AppendedLine(items, line);
      assert QuantityOf(items, productId) == 0;
      items + [line]
    else
      var line := CartItem(productId, items[i].quantity + quantity, price);
      WithoutProductUpdateOwn(items, i, line);
      RewrittenLine(items, i, line);
      assert QuantityOf(items, productId) == items[i].quantity;
      items[i := line]
  }

  // ---------------------------------------------------------------------
  // The request quantity's JSON type

  /** A request quantity as JSON brings it: a number, or a string. `isInt`
      tests the text of the value, so the validators accept a string of
      digits as readily as a number, and no chain converts it (`toInt()`). */
  datatype RequestQuantity = JsonNumber(n: int) | JsonString(text: string)

  /** A quantity the add's `isInt` accepts, in the forms modelled here. */
  predicate Numeric(q: RequestQuantity) {
    q.JsonString? ==> AllDigits(q.text)
  }

  /** The number a request quantity stands for once converted. */
  function QuantityValue(q: RequestQuantity): (v: int)
    requires Numeric(q)
    ensures q.JsonString? ==> v >= 0
  {
    match q
    case JsonNumber(n) => n
    case JsonString(text) => DigitsValue(text)
  }

  /** `cart.items[i].quantity + quantity` as written. A string quantity is
      appended to the decimal text of the line's quantity; the comparison
      with the stock and the schema's cast on save then both read that text
      as a number, so the line's quantity is shifted left by the string's
      length instead of increased. */
  function MergedQuantityAsWritten(current: nat, q: RequestQuantity): (r: int)
    requires Numeric(q)
    ensures q.JsonNumber? ==> r == current + q.n
    ensures q.JsonString? ==> r == current * Pow10(|q.text|) + DigitsValue(q.text)
  {
    match q
    case JsonNumber(n) => current + n
    case JsonString(text) =>
      DecimalRoundTrip(current);
      DigitsValueConcat(Decimal(current), text);
      DigitsValue(Decimal(current) + text)
  }

  /** The merge the handler means: the line's quantity plus the requested
      number, whichever JSON type carried it. The add handler of this model
      takes the quantity in this converted form. */
  function MergedQuantity(current: nat, q: RequestQuantity): int
    requires Numeric(q)
  {
    current + QuantityValue(q)
  }

  /** With the conversion, a number and its decimal text merge alike, and
      the merge is what `AddLine` stores on the product's line. */
  lemma {:induction false} StringQuantityMergesAsNumber(items: seq<CartItem>, productId: ProductId, n: nat, price: int)
    requires QuantityOf(items, productId) >= 0
    ensures MergedQuantity(QuantityOf(items, productId), JsonString(Decimal(n)))
         == MergedQuantity(QuantityOf(items, productId), JsonNumber(n))
    ensures QuantityOf(AddLine(items, productId, QuantityValue(JsonString(Decimal(n))), price), productId)
         == MergedQuantity(QuantityOf(items, productId), JsonString(Decimal(n)))
  {
    DecimalRoundTrip(n);
  }

  /** As written, a string quantity on an existing line always yields more
      than the intended sum: a line of 3 plus "2" becomes 32, not 5. */
  lemma {:induction false} StringQuantityInflates(current: nat, text: string)
    requires current >= 1 && text != [] && AllDigits(text)
    ensures MergedQuantityAsWritten(current, JsonString(text)) > MergedQuantity(current, JsonString(text))
  {
    Pow10AtLeast10(|text|);
    var p := Pow10(|text|);
    assert current * p == current + current * (p - 1);
    assert current * (p - 1) > 0;
  }

  lemma {:induction false} Pow10AtLeast10(k: nat)
    requires k >= 1
    ensures Pow10(k) >= 10
  {
    if k > 1 {
      Pow10AtLeast10(k - 1);
    }
  }

  /** The concrete case: a line of 3 and `{"quantity": "2"}` become a line
      of 32, which the stock check lets through whenever the stock is 32 or
      more, where 5 was meant. */
  lemma StringQuantityExample()
    ensures MergedQuantityAsWritten(3, JsonString("2")) == 32
    ensures MergedQuantity(3, JsonString("2")) == 5
  {
    assert "2"[..0] == [];
    assert DigitsValue("2") == 2;
    assert Pow10(1) == 10;
  }

  /** `getCart`: the user's cart, created empty when there is none, without
      the lines whose product is gone, inactive or out of stock. */
  method GetCart(products: map<ProductId, Product>, user: UserId, cart: Cart?) returns (c: Cart)
    requires cart != null ==> cart.user == user
    modifies cart
    ensures c.user == user
    ensures cart == null ==> fresh(c) && c.items == []
    ensures cart != null ==> c == cart && c.items == KeepAvailable(old(cart.items), products)
    ensures forall k :: 0 <= k < |c.items| ==> Available(products, c.items[k].product)
    ensures cart != null && UniqueLines(old(cart.items)) ==> UniqueLines(c.items)
  {
    if cart == null {
      c := new Cart(user);
      return;
    }
    c := cart;
    var active := KeepAvailable(c.items, products);
    if |active| != |c.items| {
      c.items := active;
    }
    if UniqueLines(old(cart.items)) {
      KeepAvailableUnique(old(cart.items), products);
    }
    assert forall k :: 0 <= k < |c.items| ==> c.items[k] in c.items;
  }

  /** The add handler's merge step on the lines: the product's line gains
      the quantity when the sum still fits the stock, or a new line is
      appended; `None` when the sum does not fit. */
  method MergeLine(before: seq<CartItem>, productId: ProductId, q: int, price: int, stock: int)
    returns (after: Option<seq<CartItem>>)
    requires q <= stock
    ensures after == if AddFits(stock, before, productId, q) then Some(AddLine(before, productId, q, price)) else None
  {
    var i := FindLine(before, productId);
    if i > -1 {
      var newQuantity := before[i].quantity + q;
      assert QuantityOf(before, productId) == before[i].quantity;
      if newQuantity > stock {
        return None;
      }
      after := Some(before[i := CartItem(productId, newQuantity, price)]);
      assert after.value == AddLine(before, productId, q, price);
    } else {
      assert QuantityOf(before, productId) == 0;
      after := Some(before + [CartItem(productId, q, price)]);
      assert after.value == AddLine(before, productId, q, price);
    }
  }

  /** `addToCart`: after the request's validators, an unknown or inactive
      product is 404; otherwise the quantity (1 when absent) must fit the
      stock both alone and added to the product's line; the line is merged
      or appended and carries the current effective price. */
  method AddToCart(products: map<ProductId, Product>, user: UserId, cart: Cart?, requestValid: bool,
                   productId: ProductId, quantity: Option<int>) returns (r: Result<Cart>)
    requires cart != null ==> cart.user == user
    modifies cart
    ensures !requestValid ==> r == Err(ValidationFailed)
    ensures requestValid && !(productId in products && products[productId].isActive) ==> r == Err(NotFound)
    ensures requestValid && productId in products && products[productId].isActive ==>
              var before := if cart == null then [] else old(cart.items);
              var q := quantity.GetOr(1);
              if AddFits(products[productId].stock, before, productId, q) then
                && r.Ok? && r.value.user == user
                && r.value.items == AddLine(before, productId, q, EffectivePrice(products[productId]))
                && (cart == null ==> fresh(r.value))
                && (cart != null ==> r.value == cart)
              else r == Err(InsufficientStock)
    ensures r.Ok? ==> QuantityOf(r.value.items, productId) <= products[productId].stock
    ensures r.Err? && cart != null ==> unchanged(cart)
  {
    if !requestValid {
      return Err(ValidationFailed);
    }
    if !(productId in products && products[productId].isActive) {
      return Err(NotFound);
    }
    var product := products[productId];
    var q := quantity.GetOr(1);
    if product.stock < q {
      return Err(InsufficientStock);
    }
    var before := if cart == null then [] else cart.items;
    var after := MergeLine(before, productId, q, EffectivePrice(product), product.stock);
    if after.None? {
      return Err(InsufficientStock);
    }
    var c: Cart;
    if cart == null {
      c := new Cart(user);
    } else {
      c := cart;
    }
    c.items := after.value;
    r := Ok(c);
  }

  /** `updateCartItem`: after the request's validators and the 404s for a
      missing cart or line, a quantity of 0 or less splices the line out;
      otherwise the product must still be active with enough stock, and the
      line takes the quantity and the current effective price. */
  method UpdateCartItem(products: map<ProductId, Product>, cart: Cart?, requestValid: bool,
                        productId: ProductId, quantity: int) returns (r: Outcome)
    modifies cart
    ensures !requestValid ==> r == Fail(ValidationFailed)
    ensures requestValid && cart == null ==> r == Fail(NotFound)
    ensures requestValid && cart != null && FindLine(old(cart.items), productId) == -1 ==> r == Fail(NotFound)
    ensures requestValid && cart != null && FindLine(old(cart.items), productId) >= 0 && quantity <= 0 ==>
              var i := FindLine(old(cart.items), productId);
              r == Pass && cart.items == old(cart.items)[..i] + old(cart.items)[i + 1..]
    ensures requestValid && cart != null && FindLine(old(cart.items), productId) >= 0 && quantity > 0 ==>
              if !(productId in products && products[productId].isActive) then r == Fail(NotFound)
              else if products[productId].stock < quantity then r == Fail(InsufficientStock)
              else
                var i := FindLine(old(cart.items), productId);
                r == Pass && cart.items == old(cart.items)[i := CartItem(productId, quantity, EffectivePrice(products[productId]))]
    ensures r.Pass? && quantity > 0 ==> cart != null && QuantityOf(cart.items, productId) <= products[productId].stock
    ensures r.Fail? && cart != null ==> unchanged(cart)
    ensures cart != null && UniqueLines(old(cart.items)) ==> UniqueLines(cart.items)
  {
    if !requestValid {
      return Fail(ValidationFailed);
    }
    if cart == null {
      return Fail(NotFound);
    }
    var before := cart.items;
    var i := FindLine(before, productId);
    if i == -1 {
      return Fail(NotFound);
    }
    if quantity <= 0 {
      var after := before[..i] + before[i + 1..];
      if UniqueLines(before) {
        SpliceIsRemove(before, productId);
        WithoutProductUnique(before, productId);
        assert UniqueLines(after);
      }
      cart.items := after;
      return Pass;
    }
    if !(productId in products && products[productId].isActive) {
      return Fail(NotFound);
    }
    var product := products[productId];
    if product.stock < quantity {
      return Fail(InsufficientStock);
    }
    var line := CartItem(productId, quantity, EffectivePrice(product));
    RewrittenLine(before, i, line);
    assert QuantityOf(before[i := line], productId) == quantity;
    cart.items := before[i := line];
    r := Pass;
  }

  /** `removeFromCart`: drops every line of the product; 404 when the cart
      is missing or holds no such line. */
  method RemoveFromCart(cart: Cart?, productId: ProductId) returns (r: Outcome)
    modifies cart
    ensures cart == null ==> r == Fail(NotFound)
    ensures cart != null ==> (r == Pass <==> FindLine(old(cart.items), productId) >= 0)
    ensures r.Pass? ==> cart != null && cart.items == WithoutProduct(old(cart.items), productId)
    ensures r.Pass? ==> QuantityOf(cart.items, productId) == 0
    ensures r.Fail? ==> r == Fail(NotFound) && (cart != null ==> unchanged(cart))
    ensures cart != null && UniqueLines(old(cart.items)) ==> UniqueLines(cart.items)
  {
    if cart == null {
      return Fail(NotFound);
    }
    var initialLength := |cart.items|;
    var kept := WithoutProduct(cart.items, productId);
    if |kept| == initialLength {
      return Fail(NotFound);
    }
    if UniqueLines(cart.items) {
      WithoutProductUnique(cart.items, productId);
    }
    cart.items := kept;
    r := Pass;
  }

  /** `clearCart`: every line is dropped; 404 when there is no cart. */
  method ClearCart(cart: Cart?) returns (r: Outcome)
    modifies cart
    ensures r == Pass <==> cart != null
    ensures r == Fail(NotFound) <==> cart == null
    ensures cart != null ==> cart.items == []
  {
    if cart == null {
      return Fail(NotFound);
    }
    cart.items := [];
    r := Pass;
  }
}
