/** The payment handlers of the gateway integration: creating a gateway
    order for an unpaid order, confirming a payment, refunding, and reading
    the payment status. The gateway's HTTP calls and the HMAC signature are
    not modelled: their outcomes arrive as parameters (`configured` for a
    client built from the two keys, `gatewayOrderId` for the created gateway
    order, `signatureValid`, `refundAccepted`). */
module PaymentController {
  import opened Common
  import opened ProductModel
  import opened OrderModel
  import opened OrderController

  /** The amount sent to the gateway, in paise: `Math.round(total * 100)`,
      which for a total in whole rupees is exact and converts back. */
  function GatewayAmount(totalAmount: int): (paise: int)
    ensures paise % 100 == 0 && paise / 100 == totalAmount
    ensures totalAmount >= 0 ==> paise >= totalAmount
  {
    100 * totalAmount
  }

  /** `createPaymentIntent`: 503 without a gateway client, 400 for a request
      the validators reject, 404 for an order that is missing or belongs to
      someone else, 400 for an order already paid; otherwise the gateway
      order is created for the whole total and its id is stored on the
      order. Any refusal or failure leaves the order as it was. */
  method CreatePaymentIntent(configured: bool, requestValid: bool, user: UserId, order: Order?,
                             gatewayOrderId: Option<string>, generated: string)
    returns (r: Result<int>)
    requires generated != ""
    modifies order
    ensures !configured ==> r == Err(Unavailable)
    ensures configured && !requestValid ==> r == Err(ValidationFailed)
    ensures configured && requestValid && (order == null || order.user != user) ==> r == Err(NotFound)
    ensures configured && requestValid && order != null && order.user == user ==>
              if old(order.paymentInfo.status) == Completed then r == Err(AlreadyPaid)
              else if gatewayOrderId.None? then r == Err(Internal)
              else if !old(order.ValidAfterHooks(generated)) then r == Err(ValidationFailed)
              else r == Ok(GatewayAmount(old(order.totalAmount)))
    ensures r.Ok? ==>
              && order != null && order.Valid()
              && order.paymentInfo == old(order.paymentInfo).(razorpayOrderId := gatewayOrderId)
              && order.orderStatus == old(order.orderStatus)
              && order.trackingNumber == old(order.trackingNumber) && order.deliveredAt == old(order.deliveredAt)
              && order.cancelledAt == old(order.cancelledAt)
              && order.cancellationReason == old(order.cancellationReason)
              && ContentKept(order)
    ensures r.Ok? && old(order.TotalsConsistent()) ==> r.value == GatewayAmount(order.totalAmount)
    ensures r.Err? && order != null ==> unchanged(order)
  {
    if !configured {
      return Err(Unavailable);
    }
    if !requestValid {
      return Err(ValidationFailed);
    }
    if order == null || order.user != user {
      return Err(NotFound);
    }
    if order.paymentInfo.status == Completed {
      return Err(AlreadyPaid);
    }
    var amount := GatewayAmount(order.totalAmount);
    if gatewayOrderId.None? {
      // The gateway call threw.
      return Err(Internal);
    }
    var saved := order.SaveProgress(order.orderStatus, order.paymentInfo.(razorpayOrderId := gatewayOrderId),
                                    order.trackingNumber, order.deliveredAt, order.cancelledAt,
                                    order.cancellationReason, generated);
    if saved.Fail? {
      return Err(ValidationFailed);
    }
    r := Ok(amount);
  }

  /** `confirmPayment`: 503 without a gateway client, 400 for a rejected
      request, 404 unless the order is the caller's and carries this gateway
      order id, 400 for a signature that does not match; otherwise payment
      becomes completed with the payment id as transaction id and the order
      becomes processing, whatever its status was. */
  method ConfirmPayment(configured: bool, requestValid: bool, user: UserId, order: Order?,
                        gatewayOrderId: string, paymentId: string, signatureValid: bool, generated: string)
    returns (r: Outcome)
    requires generated != ""
    modifies order
    ensures !configured ==> r == Fail(Unavailable)
    ensures configured && !requestValid ==> r == Fail(ValidationFailed)
    ensures configured && requestValid &&
            (order == null || order.user != user || order.paymentInfo.razorpayOrderId != Some(gatewayOrderId)) ==>
              r == Fail(NotFound)
    ensures configured && requestValid && order != null && order.user == user
            && old(order.paymentInfo.razorpayOrderId) == Some(gatewayOrderId) ==>
              if !signatureValid then r == Fail(BadSignature)
              else r == (if old(order.ValidAfterHooks(generated)) then Pass else Fail(ValidationFailed))
    ensures r.Pass? ==>
              && order != null && order.Valid()
              && order.paymentInfo == old(order.paymentInfo).(status := Completed, transactionId := Some(paymentId))
              && order.orderStatus == Processing
              && order.trackingNumber == old(order.trackingNumber) && order.deliveredAt == old(order.deliveredAt)
              && order.cancelledAt == old(order.cancelledAt)
              && order.cancellationReason == old(order.cancellationReason)
              && ContentKept(order)
    ensures r.Fail? && order != null ==> unchanged(order)
  {
    if !configured {
      return Fail(Unavailable);
    }
    if !requestValid {
      return Fail(ValidationFailed);
    }
    if order == null || order.user != user || order.paymentInfo.razorpayOrderId != Some(gatewayOrderId) {
      return Fail(NotFound);
    }
    if !signatureValid {
      return Fail(BadSignature);
    }
    var saved := order.SaveProgress(Processing, order.paymentInfo.(status := Completed, transactionId := Some(paymentId)),
                                    order.trackingNumber, order.deliveredAt, order.cancelledAt,
                                    order.cancellationReason, generated);
    if saved.Fail? {
      return Fail(ValidationFailed);
    }
    r := Pass;
  }

  const RefundReason: string := "Refund processed"

  /** `refundPayment` (admin): 503 without a gateway client, 404 for a
      missing order, 400 unless its payment is completed; once the gateway
      accepts the refund, payment becomes refunded and the order cancelled
      with the given reason or the default one. No stock is given back. */
  method RefundPayment(configured: bool, order: Order?, reason: Option<string>, refundAccepted: bool,
                       generated: string)
    returns (r: Outcome)
    requires generated != ""
    modifies order
    ensures !configured ==> r == Fail(Unavailable)
    ensures configured && order == null ==> r == Fail(NotFound)
    ensures configured && order != null ==>
              if old(order.paymentInfo.status) != Completed then r == Fail(NotCompleted)
              else if !refundAccepted then r == Fail(Internal)
              else r == (if old(order.ValidAfterHooks(generated)) then Pass else Fail(ValidationFailed))
    ensures r.Pass? ==>
              && order != null && order.Valid()
              && order.paymentInfo == old(order.paymentInfo).(status := Refunded)
              && order.orderStatus == Cancelled && order.cancelledAt
              && order.cancellationReason == Some(TextOr(reason, RefundReason))
              && order.trackingNumber == old(order.trackingNumber) && order.deliveredAt == old(order.deliveredAt)
              && ContentKept(order)
    ensures r.Fail? && order != null ==> unchanged(order)
  {
    if !configured {
      return Fail(Unavailable);
    }
    if order == null {
      return Fail(NotFound);
    }
    if order.paymentInfo.status != Completed {
      return Fail(NotCompleted);
    }
    if !refundAccepted {
      // The gateway call threw.
      return Fail(Internal);
    }
    var saved := order.SaveProgress(Cancelled, order.paymentInfo.(status := Refunded), order.trackingNumber,
                                    order.deliveredAt, true, Some(TextOr(reason, RefundReason)), generated);
    if saved.Fail? {
      return Fail(ValidationFailed);
    }
    r := Pass;
  }

  /** What `getPaymentStatus` reports for an order. */
  datatype PaymentStatusView = PaymentStatusView(
    orderNumber: Option<string>,
    paymentStatus: PaymentStatus,
    orderStatus: OrderStatus,
    totalAmount: int,
    paymentMethod: string)

  const GatewayName: string := "razorpay"

  /** `getPaymentStatus`: 404 unless the order is the caller's; otherwise the
      number, both statuses, the total, and the payment method, reported as
      the gateway's name when the order stores none. */
  function PaymentStatusOf(user: UserId, order: Order?): (r: Result<PaymentStatusView>)
    reads order
    ensures r.Err? <==> order == null || order.user != user
    ensures r.Err? ==> r.error == NotFound
    ensures r.Ok? ==>
              && r.value.paymentStatus == order.paymentInfo.status
              && r.value.orderStatus == order.orderStatus
              && r.value.totalAmount == order.totalAmount
              && r.value.orderNumber == order.orderNumber
              && r.value.paymentMethod == TextOr(order.paymentInfo.paymentMethod, GatewayName)
  {
    if order == null || order.user != user then Err(NotFound)
    else
      Ok(PaymentStatusView(order.orderNumber, order.paymentInfo.status, order.orderStatus,
                           order.totalAmount, TextOr(order.paymentInfo.paymentMethod, GatewayName)))
  }

  /** A stored order always has a method the schema allows, so the gateway's
      name is never what the status read reports for one. */
  lemma StoredOrderNeverReportsGateway(user: UserId, order: Order)
    requires order.Valid() && order.user == user
    ensures PaymentStatusOf(user, order).Ok?
    ensures PaymentStatusOf(user, order).value.paymentMethod in {"stripe", "cod"}
  {
  }

  /** Refund and cancel do not meet: once refunded an order is cancelled, so
      the owner's cancel is refused and the stock the order holds never goes
      back to the catalog. */
  method RefundThenCancel(catalog: Catalog, user: UserId, order: Order, reason: Option<string>, generated: string)
    returns (refunded: Outcome, cancelled: Outcome)
    requires generated != ""
    requires order.user == user
    modifies catalog, order
    ensures refunded.Pass? ==> cancelled == Fail(InvalidTransition)
    ensures refunded.Pass? ==> catalog.products == old(catalog.products)
    ensures refunded.Pass? ==> order.paymentInfo.status == Refunded
  {
    refunded := RefundPayment(true, order, reason, true, generated);
    cancelled := CancelOrder(catalog, user, order, reason, generated);
  }

  /** A confirmation is not guarded by the order's state: it moves even a
      refunded, cancelled order back to completed and processing. */
  method ConfirmAfterRefund(user: UserId, order: Order, gatewayOrderId: string, paymentId: string,
                            generated: string)
    returns (refunded: Outcome, confirmed: Outcome)
    requires generated != ""
    requires order.user == user && order.paymentInfo.razorpayOrderId == Some(gatewayOrderId)
    modifies order
    ensures refunded.Pass? ==> confirmed == Pass
    ensures refunded.Pass? ==> order.paymentInfo.status == Completed && order.orderStatus == Processing
  {
    refunded := RefundPayment(true, order, None, true, generated);
    confirmed := ConfirmPayment(true, true, user, order, gatewayOrderId, paymentId, true, generated);
  }
}
