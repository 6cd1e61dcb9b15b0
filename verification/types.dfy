/** The entities of the CRM store, as closed enumerations and records.
    Money is in centavos, dates are millisecond timestamps, ids are opaque strings. */
module Types {

  datatype Option<+T> = None | Some(value: T)

  /** The value held by `o`, or `d` when there is none (JavaScript's `o ?? d`). */
  function Or<T>(o: Option<T>, d: T): T {
    match o
    case Some(v) => v
    case None => d
  }

  type Id = string

  /** Milliseconds since the epoch, as `Date.getTime()` yields them. */
  type Timestamp = int

  /** An amount of money in centavos. */
  type Money = int

  datatype JobStatus = Scheduled | InProgress | Completed | Canceled

  datatype PaymentStatus = Pending | Paid

  datatype JobType = Installation | Maintenance | Repair

  /** The four statuses the quote record declares, plus any other string a stored
      quote may carry at run time (the dashboard counts one, "active", that is
      not declared). */
  datatype QuoteStatus = Draft | Sent | Accepted | Rejected | Undeclared(name: string)

  /** A client. The record declares a single `address` string, while the client
      form writes seven separate address fields; both are kept, each optional
      because older records may lack them. */
  datatype Client = Client(
    id: Id,
    name: string,
    phone: string,
    address: Option<string>,
    street: Option<string>,
    number: Option<string>,
    complement: Option<string>,
    neighborhood: Option<string>,
    city: Option<string>,
    state: Option<string>,
    zipCode: Option<string>,
    createdAt: Timestamp)

  datatype Job = Job(
    id: Id,
    clientId: Id,
    jobType: JobType,
    description: string,
    date: Timestamp,
    price: Money,
    jobStatus: JobStatus,
    paymentStatus: PaymentStatus,
    createdAt: Timestamp)

  datatype QuoteItem = QuoteItem(id: Id, description: string, quantity: int, unitPrice: Money)

  datatype Quote = Quote(
    id: Id,
    clientId: Id,
    date: Timestamp,
    items: seq<QuoteItem>,
    total: Money,
    status: QuoteStatus,
    createdAt: Timestamp)

  datatype Settings = Settings(companyName: string, logo: Option<string>, onboardingCompleted: bool)

  function IdOfClient(c: Client): Id { c.id }
  function IdOfJob(j: Job): Id { j.id }
  function IdOfQuote(q: Quote): Id { q.id }
  function IdOfItem(item: QuoteItem): Id { item.id }

  function Price(j: Job): Money { j.price }

  /** What one quote line contributes to the total: quantity times unit price. */
  function Amount(item: QuoteItem): Money { item.quantity * item.unitPrice }

  predicate IsPaid(j: Job) { j.paymentStatus == Paid }
}
