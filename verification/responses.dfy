/** What a request handler answers, abstracted from the HTTP layer, and the
    detail messages the handlers use. */
module Responses {
  import opened Models

  datatype Reply =
      /** 200 with a detail message. */
    | Ok(detail: string)
      /** 201: a record was created under key `id`. */
    | Created(id: Id)
      /** 200 from the payment-success view, naming the invoice. */
    | MarkedPaid(invoice: Id)
      /** 400: a business conflict (already cancelled, already paid). */
    | Conflict(detail: string)
      /** 400: a validation failure (missing or invalid input, a second
          active subscription). */
    | BadRequest(detail: string)
      /** The looked-up record is absent or filtered out of the queryset.
          The framework raises its not-found exception, which the views'
          catch-all handlers turn into a 500 carrying its text. */
    | NotFound
      /** An object-level permission refusal. */
    | Forbidden
      /** 500 from a catch-all handler with the exception's message. */
    | ServerError(detail: string)

  /** A handler's reply together with the store it leaves behind. */
  datatype Response = Response(reply: Reply, store: Store)

  const ActiveExistsMsg := "You already have an active subscription."
  const UnknownPlanMsg := "Invalid plan."
  const AlreadyCancelledMsg := "Subscription already cancelled."
  const CancelledMsg := "Subscription cancelled."
  const CancelledSuccessfullyMsg := "Subscription cancelled successfully."
  const AlreadyPaidMsg := "Invoice already paid."
  const PaymentSuccessfulMsg := "Payment successful."
  const InvoiceIdRequiredMsg := "Invoice ID is required."
  const MissingApiKeyMsg := "Stripe api key not found"
}
