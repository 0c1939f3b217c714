/** Shared value types of the shop backend: optional values, the outcome of a
    request handler, and the error kinds a handler reports instead of its
    JSON failure envelope. */
module Common {

  /** Identifier of a product document (a database object id). */
  type ProductId = string

  /** Identifier of a user document (a database object id). */
  type UserId = string

  datatype Option<+T> = None | Some(value: T) {
    /** A destructuring default (`{ quantity = 1 } = req.body`): the default
        applies only when the value is absent. */
    function GetOr(default: T): T {
      match this
      case Some(v) => v
      case None => default
    }
  }

  /** What a handler answers: `success: false` with one of these kinds, or
      `success: true` with its data. */
  datatype Error =
    | ValidationFailed    // a request or a document failed its validators
    | NotFound            // 404: missing cart, cart line, order or product
    | EmptyCart           // 400 "Cart is empty" at checkout
    | ProductUnavailable  // 400: a checkout line whose product is inactive
    | InsufficientStock   // 400: requested quantity above the live stock
    | InvalidTransition   // 400: cancel of a shipped, delivered or cancelled order
    | AlreadyPaid         // 400: payment intent for a paid order
    | BadSignature        // 400: gateway signature does not match
    | NotCompleted        // 400: refund of a payment that is not completed
    | Unavailable         // 503: payment gateway client not configured
    | Internal            // an exception handed to the error handler

  datatype Result<+T> = Ok(value: T) | Err(error: Error)

  datatype Outcome = Pass | Fail(error: Error)
}
