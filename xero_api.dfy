/**
 * The accounting platform's organisation as an in-memory store: invoices
 * keyed by invoice number, contacts keyed by contact number, and the payments
 * recorded against each invoice, with the create endpoints the job calls.
 */
module XeroApi {
  import opened Wrappers
  import Decimal

  /**
   * A local date-time in the organisation's time zone: the instant `timestamp`
   * (seconds), moved on by `plusDays` calendar days.
   */
  datatype XDate = XDate(timestamp: int, plusDays: nat)

  function PlusDays(d: XDate, days: nat): XDate {
    d.(plusDays := d.plusDays + days)
  }

  datatype Tracking = Tracking(categoryId: string, optionId: Option<string>)

  /** A contact as an invoice refers to it; the job fills only some of its fields. */
  datatype ContactRef = ContactRef(contactId: string, contactNumber: Option<string>)

  datatype Contact = Contact(contactId: string, name: string, contactNumber: string)

  /** A line item; amounts are integer minor units, `lineAmount` excludes tax. */
  datatype LineItem = LineItem(
    accountCode: string,
    description: string,
    lineAmount: int,
    taxAmount: int,
    tracking: seq<Tracking>)

  datatype Invoice = Invoice(
    invoiceNumber: string,
    contact: ContactRef,
    lineItems: seq<LineItem>,
    date: XDate,
    dueDate: XDate,
    invoiceType: string,
    status: string,
    sentToContact: bool)

  datatype Payment = Payment(
    invoiceNumber: string,
    date: XDate,
    amount: int,
    accountCode: string,
    reference: string)

  /** The organisation's data; `contactsCreated` numbers the contact ids it hands out. */
  datatype OrgState = OrgState(
    invoices: map<string, Invoice>,
    contacts: map<string, Contact>,
    payments: map<string, seq<Payment>>,
    contactsCreated: nat)

  /** The sum of the lines' tax-exclusive and tax amounts. */
  function LinesTotal(lines: seq<LineItem>): int {
    if lines == [] then 0
    else LinesTotal(lines[..|lines| - 1]) + lines[|lines| - 1].lineAmount + lines[|lines| - 1].taxAmount
  }

  /** The invoice total the organisation computes from the submitted lines. */
  function Total(invoice: Invoice): int {
    LinesTotal(invoice.lineItems)
  }

  /** The payments recorded against invoice `number`. */
  function PaymentsOf(s: OrgState, number: string): seq<Payment> {
    if number in s.payments then s.payments[number] else []
  }

  /** The id the organisation gives the `serial`-th contact created through the job. */
  function NewContactId(serial: nat): string {
    "contact-" + Decimal.NatToString(serial)
  }

  /** Creating a contact with display name `name` and contact number `number`. */
  function AddContact(s: OrgState, name: string, number: string): (r: (OrgState, Contact))
    ensures r.1.name == name && r.1.contactNumber == number
    ensures r.0.contacts == s.contacts[number := r.1]
    ensures r.0 == s.(contacts := r.0.contacts, contactsCreated := s.contactsCreated + 1)
  {
    var c := Contact(NewContactId(s.contactsCreated), name, number);
    (s.(contacts := s.contacts[number := c], contactsCreated := s.contactsCreated + 1), c)
  }

  /** Creating an invoice. */
  function AddInvoice(s: OrgState, invoice: Invoice): OrgState {
    s.(invoices := s.invoices[invoice.invoiceNumber := invoice])
  }

  /** Recording a payment against the invoice it names. */
  function AddPayment(s: OrgState, p: Payment): OrgState {
    s.(payments := s.payments[p.invoiceNumber := PaymentsOf(s, p.invoiceNumber) + [p]])
  }

  /**
   * Every record sits under its own key, and payments are recorded only
   * against invoices that exist.
   */
  predicate Consistent(s: OrgState) {
    && (forall n :: n in s.invoices ==> s.invoices[n].invoiceNumber == n)
    && (forall n :: n in s.contacts ==> s.contacts[n].contactNumber == n)
    && (forall n :: n in s.payments ==> n in s.invoices)
    && (forall n, i :: n in s.payments && 0 <= i < |s.payments[n]| ==> s.payments[n][i].invoiceNumber == n)
  }

  /** The destination organisation, updated in place by the create endpoints. */
  class XeroOrg {
    var invoices: map<string, Invoice>
    var contacts: map<string, Contact>
    var payments: map<string, seq<Payment>>
    var contactsCreated: nat

    function State(): OrgState
      reads this
    {
      OrgState(invoices, contacts, payments, contactsCreated)
    }

    /** The organisation's data is consistent; every client method keeps it so. */
    ghost predicate Valid()
      reads this
    {
      Consistent(State())
    }

    constructor (initial: OrgState)
      ensures State() == initial
      ensures Valid() <==> Consistent(initial)
    {
      invoices := initial.invoices;
      contacts := initial.contacts;
      payments := initial.payments;
      contactsCreated := initial.contactsCreated;
    }

    /** The contact-create endpoint, for a contact number no contact has yet. */
    method CreateContact(name: string, number: string) returns (created: Contact)
      requires number !in contacts
      modifies this
      ensures (State(), created) == AddContact(old(State()), name, number)
    {
      created := Contact(NewContactId(contactsCreated), name, number);
      contacts := contacts[number := created];
      contactsCreated := contactsCreated + 1;
    }

    /** The invoice-create endpoint, for an invoice number no invoice has yet. */
    method CreateInvoice(invoice: Invoice)
      requires invoice.invoiceNumber !in invoices
      modifies this
      ensures State() == AddInvoice(old(State()), invoice)
    {
      invoices := invoices[invoice.invoiceNumber := invoice];
    }

    /** The payment-create endpoint. */
    method CreatePayment(p: Payment)
      modifies this
      ensures State() == AddPayment(old(State()), p)
    {
      payments := payments[p.invoiceNumber := PaymentsOf(State(), p.invoiceNumber) + [p]];
    }
  }
}
