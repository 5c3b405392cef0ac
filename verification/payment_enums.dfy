/** The three enumerations every component of the payment simulator shares. */
module PaymentEnums {

  /** Lifecycle states of a transaction. `Pending`, `Processing` and `Cancelled` are
      declared but never stored: a payment is resolved before it is recorded. */
  datatype PaymentStatus = Pending | Processing | Approved | Declined | Failed | Refunded | Cancelled

  /** The simulated payment providers. */
  datatype PaymentGateway = Stripe | PayPal | MercadoPago

  /** Card brands the classifier can recognise. */
  datatype CardType = Visa | MasterCard | AmericanExpress | Unknown

  /** Amounts are decimals in the system; `real` keeps them exact. */
  type Amount = real

  /** Clock readings are opaque values supplied by the caller. */
  type Timestamp = nat
}
