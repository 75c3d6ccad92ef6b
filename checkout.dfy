/**
 * What the booking form and the offer form share: the visitor's details, how the card payment
 * went, and the error text a failed submission leaves on the form.
 */
module Checkout {
  import opened Wrappers

  /** The form fields `name`, `email`, `phone` and `location`. */
  datatype Contact = Contact(name: string, email: string, phone: string, location: string)

  /**
   * The payment steps a submission goes through before it writes to the ledger: the POST to
   * /create-payment-intent, then Stripe's `confirmCardPayment`. Both are calls into services the
   * model does not see, so their result is an input.
   */
  datatype PaymentStep =
    | IntentFailed(message: string)   // the payment-intent request threw
    | ConfirmFailed(message: string)  // the confirmation returned `error`, which the form rethrows
    | Confirmed(clientSecret: string)

  /** How the request to the ledger endpoint went. */
  datatype Delivery = Delivered | Rejected(message: string)

  /** The signal a payment-request event is completed with (`event.complete(...)`). */
  datatype Completion = CompleteSuccess | CompleteFail

  const PaymentFailed: string := "Failed to process payment."

  /** `err.message || "Failed to process payment."` */
  function ErrorText(message: string): (r: string)
    ensures r != []
    ensures message != [] ==> r == message
  {
    if message != [] then message else PaymentFailed
  }

  /** The error a submission leaves on the form: from the first step that threw, if any. */
  function SubmitError(payment: PaymentStep, delivery: Delivery): (r: Option<string>)
    ensures r.None? <==> payment.Confirmed? && delivery.Delivered?
    ensures r.Some? ==> r.value != []
  {
    match payment
    case IntentFailed(m) => Some(ErrorText(m))
    case ConfirmFailed(m) => Some(ErrorText(m))
    case Confirmed(_) => if delivery.Rejected? then Some(ErrorText(delivery.message)) else None
  }
}
