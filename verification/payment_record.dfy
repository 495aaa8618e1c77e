/**
 * The payment record as the backend returns it, shared by the Payments page
 * and the Dashboard's recent-payments table.
 */
module PaymentRecord {
  import opened Common

  /**
   * One payment. The optional fields may be missing from the server's JSON;
   * `amount` is in minor currency units (paise) and `createdAt` is kept as the
   * opaque timestamp text the server sends.
   */
  datatype Payment = Payment(
    id: string,
    razorpayPaymentId: Option<string>,
    razorpayOrderId: Option<string>,
    name: Option<string>,
    email: Option<string>,
    phone: Option<string>,
    amount: int,
    status: Option<string>,
    createdAt: string)

  /** How many identifier characters an ID cell shows. */
  const IdCellWidth: nat := 20

  /** The placeholder a cell shows when there is nothing to show. */
  const Placeholder := "-"

  /** Whether the record has some identifier an ID cell can show. */
  predicate HasDisplayId(p: Payment) {
    Truthy(p.razorpayPaymentId) || Truthy(p.razorpayOrderId)
  }
}
