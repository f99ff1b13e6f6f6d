/**
 * The payments platform as the job sees it: immutable invoice snapshots, each
 * carrying its line items, and the two paginated list endpoints.
 */
module StripeApi {
  import opened Wrappers
  import Paging

  datatype InvoiceStatus = Draft | Open | Paid | Void | Uncollectible

  datatype CollectionMethod = ChargeAutomatically | SendInvoice

  /** A line item; amounts are integer minor units, `amount` includes tax. */
  datatype LineItem = LineItem(
    id: string,
    description: string,
    quantity: nat,
    amount: int,
    amountExcludingTax: int)

  /**
   * An invoice. `finalizedAt` and `paidAt` are the `status_transitions`
   * timestamps; `lines` is the whole line-item collection, which clients
   * read page by page through `ListLines`.
   */
  datatype Invoice = Invoice(
    id: string,
    number: string,
    status: InvoiceStatus,
    customer: string,
    customerName: string,
    created: int,
    finalizedAt: int,
    dueDate: Option<int>,
    paidAt: int,
    collectionMethod: CollectionMethod,
    paid: bool,
    paidOutOfBand: bool,
    charge: string,
    lines: seq<LineItem>)

  /** Page size the line-item endpoint uses when the caller names none. */
  const DEFAULT_PAGE_LIMIT: nat := 10

  /** The invoices matching the `created` range filter `gte <= created < lt`, in store order. */
  function CreatedIn(store: seq<Invoice>, gte: int, lt: int): seq<Invoice> {
    if store == [] then []
    else
      var rest := CreatedIn(store[1..], gte, lt);
      if gte <= store[0].created < lt then [store[0]] + rest else rest
  }

  /** The filter keeps exactly the records created in range. */
  lemma {:induction false} CreatedInMembers(store: seq<Invoice>, gte: int, lt: int)
    ensures forall x :: x in CreatedIn(store, gte, lt) <==> x in store && gte <= x.created < lt
  {
    if store != [] {
      CreatedInMembers(store[1..], gte, lt);
      assert store == [store[0]] + store[1..];
    }
  }

  /** Filtering keeps records distinct. */
  lemma {:induction false} CreatedInDistinct(store: seq<Invoice>, gte: int, lt: int)
    requires Paging.Distinct(store)
    ensures Paging.Distinct(CreatedIn(store, gte, lt))
  {
    if store != [] {
      CreatedInMembers(store[1..], gte, lt);
      CreatedInDistinct(store[1..], gte, lt);
    }
  }

  /** `stripe.Invoice.list(limit, starting_after, created={"gte", "lt"})`. */
  function ListInvoices(store: seq<Invoice>, startingAfter: Option<Invoice>, limit: nat, gte: int, lt: int)
    : Paging.Page<Invoice>
    requires limit > 0
  {
    Paging.List(CreatedIn(store, gte, lt), startingAfter, limit)
  }

  /** `invoice.lines.list(starting_after)`. */
  function ListLines(invoice: Invoice, startingAfter: Option<LineItem>): Paging.Page<LineItem>
  {
    Paging.List(invoice.lines, startingAfter, DEFAULT_PAGE_LIMIT)
  }

  /** The sum of the tax-inclusive amounts of `lines`. */
  function AmountTotal(lines: seq<LineItem>): int {
    if lines == [] then 0 else AmountTotal(lines[..|lines| - 1]) + lines[|lines| - 1].amount
  }
}
