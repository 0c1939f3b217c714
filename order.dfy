/** The order document: line items, shipping address, payment information,
    totals and the two status fields, with the schema's validators, the two
    save hooks (order number, totals recompute) and `updateStatus`. */
module OrderModel {
  import opened Common

  datatype OrderStatus = Pending | Processing | Shipped | Delivered | Cancelled

  datatype PaymentStatus = PaymentPending | Completed | Failed | Refunded

  /** The string the schema's `orderStatus` enum stores for each state. */
  function OrderStatusName(s: OrderStatus): string {
    match s
    case Pending => "pending"
    case Processing => "processing"
    case Shipped => "shipped"
    case Delivered => "delivered"
    case Cancelled => "cancelled"
  }

  /** The enum validator on `orderStatus`: a string names a state, or the
      document fails validation. */
  function ParseOrderStatus(t: string): (r: Option<OrderStatus>)
    ensures r.Some? ==> OrderStatusName(r.value) == t
    ensures r.None? ==> forall s :: OrderStatusName(s) != t
  {
    if t == "pending" then Some(Pending)
    else if t == "processing" then Some(Processing)
    else if t == "shipped" then Some(Shipped)
    else if t == "delivered" then Some(Delivered)
    else if t == "cancelled" then Some(Cancelled)
    else None
  }

  /** One order line: a copy of the product's id and name, the quantity,
      the unit price captured at checkout and the line total. */
  datatype OrderItem = OrderItem(product: ProductId, name: string, quantity: int, price: int, total: int)

  /** The shipping address; `country` is absent when the request left it out. */
  datatype ShippingAddress = ShippingAddress(
    name: string, street: string, city: string, state: string,
    postalCode: string, country: Option<string>, phone: string)

  /** The `paymentInfo` sub-document. `razorpayOrderId` is written and queried
      by the payment handlers although the schema does not declare it. */
  datatype PaymentInfo = PaymentInfo(
    paymentMethod: Option<string>,
    transactionId: Option<string>,
    razorpayOrderId: Option<string>,
    status: PaymentStatus)

  const DefaultCountry: string := "India"

  /** The schema default of `shippingAddress.country`, applied when absent. */
  function WithDefaultCountry(a: ShippingAddress): (r: ShippingAddress)
    ensures r.country.Some?
    ensures a.country.Some? ==> r == a
    ensures r.(country := a.country) == a
  {
    if a.country.None? then a.(country := Some(DefaultCountry)) else a
  }

  /** The totals hook's `items.reduce((total, item) => total + item.total, 0)`,
      a left fold; it is not negative when no line total is. */
  function ItemsTotal(items: seq<OrderItem>): (r: int)
    ensures (forall i :: 0 <= i < |items| ==> items[i].total >= 0) ==> r >= 0
    decreases |items|
  {
    if items == [] then 0 else ItemsTotal(items[..|items| - 1]) + items[|items| - 1].total
  }

  /** The fold splits over concatenation: the sum of the lines is the sum of
      the parts, whatever order the parts were built in. */
  lemma {:induction false} ItemsTotalAppend(a: seq<OrderItem>, b: seq<OrderItem>)
    ensures ItemsTotal(a + b) == ItemsTotal(a) + ItemsTotal(b)
    decreases |b|
  {
    if b == [] {
      assert a + b == a;
    } else {
      var n := |b| - 1;
      assert (a + b)[..|a + b| - 1] == a + b[..n];
      ItemsTotalAppend(a, b[..n]);
    }
  }

  // The schema's validators, each on its own part of the document.

  /** `orderNumber` is required: present and not the empty string. */
  predicate NumberValid(n: Option<string>) {
    n.Some? && n.value != ""
  }

  /** A line: name required, quantity at least 1, price and total not negative. */
  predicate ItemValid(it: OrderItem) {
    it.name != "" && it.quantity >= 1 && it.price >= 0 && it.total >= 0
  }

  /** Every address field is required (so not empty); country has a default. */
  predicate AddressValid(a: ShippingAddress) {
    && a.name != "" && a.street != "" && a.city != "" && a.state != ""
    && a.postalCode != "" && a.phone != ""
    && a.country.Some? && a.country.value != ""
  }

  /** The payment methods the schema's enum allows; the checkout
      validator's `isIn` list is the same. */
  const PaymentMethods: seq<string> := ["stripe", "cod"]

  /** `paymentInfo.method` (here `paymentMethod`) is required and one of `PaymentMethods`. */
  predicate PaymentInfoValid(p: PaymentInfo) {
    p.paymentMethod.Some? && p.paymentMethod.value in PaymentMethods
  }

  predicate NotesValid(notes: Option<string>) {
    notes.None? || |notes.value| <= 500
  }

  /** Everything the validators check except the order number. */
  predicate ContentValid(
    items: seq<OrderItem>, address: ShippingAddress, payment: PaymentInfo,
    subtotal: int, shippingCost: int, tax: int, totalAmount: int, notes: Option<string>)
  {
    && (forall i :: 0 <= i < |items| ==> ItemValid(items[i]))
    && AddressValid(address)
    && PaymentInfoValid(payment)
    && subtotal >= 0 && shippingCost >= 0 && tax >= 0 && totalAmount >= 0
    && NotesValid(notes)
  }

  /** A new order built from these values passes validation once the save
      hooks have given it a number and recomputed its totals. */
  predicate Creatable(
    items: seq<OrderItem>, address: ShippingAddress, paymentMethod: string,
    shippingCost: int, tax: int, notes: Option<string>)
  {
    var subtotal := ItemsTotal(items);
    ContentValid(items, WithDefaultCountry(address), PaymentInfo(Some(paymentMethod), None, None, PaymentPending),
                 subtotal, shippingCost, tax, subtotal + shippingCost + tax, notes)
  }

  /** An order document. Timestamps (`deliveredAt`, `cancelledAt`) are kept
      as flags saying whether they are set. */
  class Order {
    const user: UserId
    var orderNumber: Option<string>
    var items: seq<OrderItem>
    var shippingAddress: ShippingAddress
    var paymentInfo: PaymentInfo
    var orderStatus: OrderStatus
    var subtotal: int
    var shippingCost: int
    var tax: int
    var totalAmount: int
    var notes: Option<string>
    var trackingNumber: Option<string>
    var deliveredAt: bool
    var cancelledAt: bool
    var cancellationReason: Option<string>

    /** `new Order({...})`: the caller's values plus the schema defaults
        (country, pending statuses, no number yet). */
    constructor (user: UserId, items: seq<OrderItem>, shippingAddress: ShippingAddress, paymentMethod: string,
                 subtotal: int, shippingCost: int, tax: int, totalAmount: int, notes: Option<string>)
      ensures this.user == user && this.items == items
      ensures this.shippingAddress == WithDefaultCountry(shippingAddress)
      ensures paymentInfo == PaymentInfo(Some(paymentMethod), None, None, PaymentPending)
      ensures orderStatus == Pending && orderNumber.None?
      ensures this.subtotal == subtotal && this.shippingCost == shippingCost
      ensures this.tax == tax && this.totalAmount == totalAmount && this.notes == notes
      ensures trackingNumber.None? && !deliveredAt && !cancelledAt && cancellationReason.None?
    {
      this.user := user;
      this.items := items;
      this.shippingAddress := WithDefaultCountry(shippingAddress);
      this.paymentInfo := PaymentInfo(Some(paymentMethod), None, None, PaymentPending);
      this.orderStatus := Pending;
      this.orderNumber := None;
      this.subtotal := subtotal;
      this.shippingCost := shippingCost;
      this.tax := tax;
      this.totalAmount := totalAmount;
      this.notes := notes;
      this.trackingNumber := None;
      this.deliveredAt := false;
      this.cancelledAt := false;
      this.cancellationReason := None;
    }

    predicate SchemaValid()
      reads this`orderNumber, this`items, this`shippingAddress, this`paymentInfo, this`subtotal,
            this`shippingCost, this`tax, this`totalAmount, this`notes
    {
      NumberValid(orderNumber)
      && ContentValid(items, shippingAddress, paymentInfo, subtotal, shippingCost, tax, totalAmount, notes)
    }

    /** The totals invariant every save re-establishes. */
    predicate TotalsConsistent()
      reads this`items, this`subtotal, this`shippingCost, this`tax, this`totalAmount
    {
      subtotal == ItemsTotal(items) && totalAmount == subtotal + shippingCost + tax
    }

    /** A stored order: it passed validation and its totals were recomputed. */
    predicate Valid()
      reads this`orderNumber, this`items, this`shippingAddress, this`paymentInfo, this`subtotal,
            this`shippingCost, this`tax, this`totalAmount, this`notes
    {
      SchemaValid() && TotalsConsistent()
    }

    /** The order number after the first hook: generated when missing or empty. */
    function NumberAfterHooks(generated: string): Option<string>
      reads this`orderNumber
    {
      if orderNumber.None? || orderNumber.value == "" then Some(generated) else orderNumber
    }

    /** Whether the document passes validation after both hooks ran. */
    predicate ValidAfterHooks(generated: string)
      reads this`orderNumber, this`items, this`shippingAddress, this`paymentInfo, this`shippingCost,
            this`tax, this`notes
    {
      var s := ItemsTotal(items);
      NumberValid(NumberAfterHooks(generated))
      && ContentValid(items, shippingAddress, paymentInfo, s, shippingCost, tax, s + shippingCost + tax, notes)
    }

    /** `save()` with the two hooks run before validation: a number is
        generated only when none exists; `subtotal` and `totalAmount` are
        recomputed from the lines whatever the caller stored; then the
        validators decide whether the write happens. `generated` stands for the
        generated `ORD-<time>-<random>` string. */
    method Save(generated: string) returns (r: Outcome)
      requires generated != ""
      modifies this`orderNumber, this`subtotal, this`totalAmount
      ensures r == (if old(ValidAfterHooks(generated)) then Pass else Fail(ValidationFailed))
      ensures r.Pass? ==> Valid()
      ensures r.Pass? ==> orderNumber == old(NumberAfterHooks(generated))
      ensures r.Pass? && old(NumberValid(orderNumber)) ==> orderNumber == old(orderNumber)
      ensures r.Pass? ==> subtotal == ItemsTotal(items) && totalAmount == subtotal + shippingCost + tax
      ensures r.Fail? ==> unchanged(this)
      ensures old(Valid()) ==> r == Pass && unchanged(this)
    {
      var number := NumberAfterHooks(generated);
      var s := ItemsTotal(items);
      if ValidAfterHooks(generated) {
        orderNumber, subtotal, totalAmount := number, s, s + shippingCost + tax;
        r := Pass;
      } else {
        r := Fail(ValidationFailed);
      }
    }

    /** `save()` as the framework runs it for this schema: validation first
        (where `orderNumber` is required), the two hooks afterwards. A new
        order has no number yet, so it is always rejected. */
    method SaveAsWritten(generated: string) returns (r: Outcome)
      modifies this`orderNumber, this`subtotal, this`totalAmount
      ensures r == (if old(SchemaValid()) then Pass else Fail(ValidationFailed))
      ensures old(orderNumber).None? ==> r == Fail(ValidationFailed) && unchanged(this)
      ensures r.Pass? ==> orderNumber == old(orderNumber) && TotalsConsistent()
      ensures r.Fail? ==> unchanged(this)
    {
      if SchemaValid() {
        orderNumber := NumberAfterHooks(generated);
        subtotal := ItemsTotal(items);
        totalAmount := subtotal + shippingCost + tax;
        r := Pass;
      } else {
        r := Fail(ValidationFailed);
      }
    }

    /** Writes the fields the handlers change on an existing order. */
    method SetProgress(orderStatus: OrderStatus, paymentInfo: PaymentInfo, trackingNumber: Option<string>,
                       deliveredAt: bool, cancelledAt: bool, cancellationReason: Option<string>)
      modifies this`orderStatus, this`paymentInfo, this`trackingNumber, this`deliveredAt, this`cancelledAt,
               this`cancellationReason
      ensures this.orderStatus == orderStatus && this.paymentInfo == paymentInfo
      ensures this.trackingNumber == trackingNumber && this.deliveredAt == deliveredAt
      ensures this.cancelledAt == cancelledAt && this.cancellationReason == cancellationReason
    {
      this.orderStatus, this.paymentInfo, this.trackingNumber := orderStatus, paymentInfo, trackingNumber;
      this.deliveredAt, this.cancelledAt, this.cancellationReason := deliveredAt, cancelledAt, cancellationReason;
    }

    /** A handler's write of the progress fields followed by `save()`: when
        the save rejects the document the stored order keeps its old values,
        so the fields are put back. The payment method stays the order's own. */
    method SaveProgress(orderStatus: OrderStatus, paymentInfo: PaymentInfo, trackingNumber: Option<string>,
                        deliveredAt: bool, cancelledAt: bool, cancellationReason: Option<string>,
                        generated: string)
      returns (r: Outcome)
      requires generated != ""
      requires paymentInfo.paymentMethod == this.paymentInfo.paymentMethod
      modifies this`orderStatus, this`paymentInfo, this`trackingNumber, this`deliveredAt, this`cancelledAt,
               this`cancellationReason, this`orderNumber, this`subtotal, this`totalAmount
      ensures r == (if old(ValidAfterHooks(generated)) then Pass else Fail(ValidationFailed))
      ensures r.Pass? ==> Valid() && ContentKept(this)
      ensures r.Pass? ==> this.orderStatus == orderStatus && this.paymentInfo == paymentInfo
      ensures r.Pass? ==> this.trackingNumber == trackingNumber && this.deliveredAt == deliveredAt
      ensures r.Pass? ==> this.cancelledAt == cancelledAt && this.cancellationReason == cancellationReason
      ensures r.Fail? ==> unchanged(this)
    {
      var oldStatus, oldInfo, oldTracking := this.orderStatus, this.paymentInfo, this.trackingNumber;
      var oldDelivered, oldCancelled, oldReason := this.deliveredAt, this.cancelledAt, this.cancellationReason;
      SetProgress(orderStatus, paymentInfo, trackingNumber, deliveredAt, cancelledAt, cancellationReason);
      r := Save(generated);
      if r.Fail? {
        SetProgress(oldStatus, oldInfo, oldTracking, oldDelivered, oldCancelled, oldReason);
      }
    }

    /** `updateStatus(status)`: sets the status, stamps `deliveredAt` only for
        delivered and `cancelledAt` only for cancelled, and touches nothing
        else; it does not save. */
    method UpdateStatus(status: OrderStatus)
      modifies this`orderStatus, this`deliveredAt, this`cancelledAt
      ensures orderStatus == status
      ensures deliveredAt == (old(deliveredAt) || status == Delivered)
      ensures cancelledAt == (old(cancelledAt) || status == Cancelled)
      ensures old(Valid()) ==> Valid()
    {
      orderStatus := status;
      if status == Delivered {
        deliveredAt := true;
      } else if status == Cancelled {
        cancelledAt := true;
      }
    }
  }

  /** What a status or payment update with its save leaves as it was: the
      lines, the address, the charges and the notes; the number of an order
      that had one; the subtotal and total of an order whose totals were
      consistent (the recompute on save then finds the same values). */
  twostate predicate ContentKept(o: Order)
    reads o
  {
    && o.items == old(o.items) && o.shippingAddress == old(o.shippingAddress)
    && o.shippingCost == old(o.shippingCost) && o.tax == old(o.tax) && o.notes == old(o.notes)
    && (old(NumberValid(o.orderNumber)) ==> o.orderNumber == old(o.orderNumber))
    && (old(o.TotalsConsistent()) ==> o.subtotal == old(o.subtotal) && o.totalAmount == old(o.totalAmount))
  }

  /** A new order saved the framework's way is rejected, whatever it holds. */
  method NewOrderRejectedAsWritten(
    user: UserId, items: seq<OrderItem>, address: ShippingAddress, paymentMethod: string,
    subtotal: int, shippingCost: int, tax: int, totalAmount: int, notes: Option<string>, generated: string)
    returns (r: Outcome)
    ensures r == Fail(ValidationFailed)
  {
    var order := new Order(user, items, address, paymentMethod, subtotal, shippingCost, tax, totalAmount, notes);
    r := order.SaveAsWritten(generated);
  }

  /** A new order saved with the hooks first is stored exactly when its
      content is valid, with a fresh number and recomputed totals, whatever
      subtotal and total the caller passed. */
  method NewOrderSaved(
    user: UserId, items: seq<OrderItem>, address: ShippingAddress, paymentMethod: string,
    subtotal: int, shippingCost: int, tax: int, totalAmount: int, notes: Option<string>, generated: string)
    returns (r: Outcome, order: Order)
    requires generated != ""
    ensures r.Pass? <==> Creatable(items, address, paymentMethod, shippingCost, tax, notes)
    ensures r.Pass? ==> order.Valid() && order.orderNumber == Some(generated)
    ensures r.Pass? ==> order.subtotal == ItemsTotal(items)
    ensures r.Pass? ==> order.totalAmount == ItemsTotal(items) + shippingCost + tax
    ensures fresh(order) && order.user == user && order.items == items
    ensures order.shippingAddress == WithDefaultCountry(address) && order.notes == notes
    ensures order.paymentInfo == PaymentInfo(Some(paymentMethod), None, None, PaymentPending)
    ensures order.orderStatus == Pending && order.shippingCost == shippingCost && order.tax == tax
    ensures order.trackingNumber.None? && !order.deliveredAt && !order.cancelledAt && order.cancellationReason.None?
  {
    order := new Order(user, items, address, paymentMethod, subtotal, shippingCost, tax, totalAmount, notes);
    r := order.Save(generated);
  }
}
