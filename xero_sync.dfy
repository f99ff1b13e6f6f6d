/**
 * The migration rules of the Xero client (src/xero.py): contact resolution,
 * ledger-account routing, line-item mapping, the idempotent create-if-absent
 * of an invoice and the payment gate. `MigrateStep` states what one
 * `migrate_invoice` call does to the organisation; `XeroClient` is the client
 * class, whose methods carry it out step by step against a `XeroOrg`.
 */
module XeroSync {
  import opened Wrappers
  import Decimal
  import Paging
  import S = StripeApi
  import X = XeroApi

  /** One tracking-category setting: the category id and its option id, each possibly unset. */
  datatype TrackingSetting = TrackingSetting(categoryId: Option<string>, optionId: Option<string>)

  /** The client's static configuration. */
  datatype Config = Config(
    genericCustomerContactId: string,
    trackingOne: TrackingSetting,
    trackingTwo: TrackingSetting,
    accountSales: string,
    accountSalesLongTerm: string,
    accountBank: string,
    longTermContactNumbers: seq<string>)

  const INVOICE_TYPE := "ACCREC"
  const INVOICE_STATUS := "AUTHORISED"
  const QUANTITY_TAG := " (Quantity: "
  const DUE_AFTER_DAYS: nat := 7

  // ------------------------------------------------------------------
  // Tracking categories

  /** A category is attached when its id is set and non-empty; its option id is not checked. */
  predicate IsConfigured(t: TrackingSetting) {
    t.categoryId.Some? && |t.categoryId.value| > 0
  }

  function TrackingEntry(t: TrackingSetting): X.Tracking
    requires IsConfigured(t)
  {
    X.Tracking(t.categoryId.value, t.optionId)
  }

  /** The tracking list attached to every line: category one, then category two, each if configured. */
  function TrackingFor(cfg: Config): (tc: seq<X.Tracking>)
    ensures |tc| <= 2
    ensures |tc| == (if IsConfigured(cfg.trackingOne) then 1 else 0) + (if IsConfigured(cfg.trackingTwo) then 1 else 0)
    ensures IsConfigured(cfg.trackingOne) ==> tc[0] == TrackingEntry(cfg.trackingOne)
    ensures IsConfigured(cfg.trackingTwo) ==> tc[|tc| - 1] == TrackingEntry(cfg.trackingTwo)
    ensures forall i :: 0 <= i < |tc| ==> |tc[i].categoryId| > 0
  {
    (if IsConfigured(cfg.trackingOne) then [TrackingEntry(cfg.trackingOne)] else [])
    + (if IsConfigured(cfg.trackingTwo) then [TrackingEntry(cfg.trackingTwo)] else [])
  }

  // ------------------------------------------------------------------
  // Line items

  /** The destination description: the source description with the quantity as text. */
  function Description(description: string, quantity: nat): string {
    description + QUANTITY_TAG + Decimal.NatToString(quantity) + ")"
  }

  /** Reads a description written by `Description` back into its two parts. */
  function ParseDescription(text: string): Option<(string, nat)> {
    if text == [] || text[|text| - 1] != ')' then None
    else
      var body := text[..|text| - 1];
      var k := Decimal.TrailingDigits(body);
      var head := body[..|body| - k];
      if k == 0 || |head| < |QUANTITY_TAG| || head[|head| - |QUANTITY_TAG|..] != QUANTITY_TAG then None
      else Some((head[..|head| - |QUANTITY_TAG|], Decimal.DigitsToNat(body[|body| - k..])))
  }

  /** The description keeps the source description and the quantity, both recoverable. */
  lemma DescriptionRoundTrip(description: string, quantity: nat)
    ensures ParseDescription(Description(description, quantity)) == Some((description, quantity))
  {
    var digits := Decimal.NatToString(quantity);
    Decimal.NatToStringIsNumeral(quantity);
    var head := description + QUANTITY_TAG;
    var text := Description(description, quantity);
    assert text == head + digits + ")";
    var body := text[..|text| - 1];
    assert body == head + digits;
    assert head[|head| - 1] == ' ';
    Decimal.TrailingDigitsAfter(head, digits);
    assert body[..|body| - |digits|] == head;
    assert body[|body| - |digits|..] == digits;
    assert head[|head| - |QUANTITY_TAG|..] == QUANTITY_TAG;
    assert head[..|head| - |QUANTITY_TAG|] == description;
    Decimal.DigitsRoundTrip(quantity);
  }

  /** Two lines get the same description only if description and quantity agree. */
  lemma DescriptionInjective(d1: string, q1: nat, d2: string, q2: nat)
    requires Description(d1, q1) == Description(d2, q2)
    ensures d1 == d2 && q1 == q2
  {
    DescriptionRoundTrip(d1, q1);
    DescriptionRoundTrip(d2, q2);
  }

  /**
   * One destination line: the tax-exclusive amount as the line amount, the
   * rest of the tax-inclusive amount as tax, so that the two add up to it.
   */
  function MapLine(line: S.LineItem, account: string, tracking: seq<X.Tracking>): X.LineItem {
    X.LineItem(
      account,
      Description(line.description, line.quantity),
      line.amountExcludingTax,
      line.amount - line.amountExcludingTax,
      tracking)
  }

  /** The lines of a new invoice: line `i` is the image of source line `i`. */
  function MapLines(lines: seq<S.LineItem>, account: string, tracking: seq<X.Tracking>): (xs: seq<X.LineItem>)
    ensures |xs| == |lines|
  {
    if lines == [] then []
    else MapLines(lines[..|lines| - 1], account, tracking) + [MapLine(lines[|lines| - 1], account, tracking)]
  }

  /** Line `i` of the result is the image of source line `i`. */
  lemma {:induction false} MapLinesAt(lines: seq<S.LineItem>, account: string, tracking: seq<X.Tracking>, i: nat)
    requires i < |lines|
    ensures MapLines(lines, account, tracking)[i] == MapLine(lines[i], account, tracking)
  {
    var init := lines[..|lines| - 1];
    if i < |lines| - 1 {
      MapLinesAt(init, account, tracking, i);
    }
  }

  /** Mapping keeps the number of lines, their order, one account and one tracking list. */
  lemma MappedLines(lines: seq<S.LineItem>, account: string, tracking: seq<X.Tracking>)
    ensures var xs := MapLines(lines, account, tracking);
            && |xs| == |lines|
            && forall i :: 0 <= i < |xs| ==>
                 && xs[i].accountCode == account
                 && xs[i].tracking == tracking
                 && xs[i].lineAmount == lines[i].amountExcludingTax
                 && xs[i].lineAmount + xs[i].taxAmount == lines[i].amount
                 && ParseDescription(xs[i].description) == Some((lines[i].description, lines[i].quantity))
  {
    var xs := MapLines(lines, account, tracking);
    forall i | 0 <= i < |xs|
      ensures xs[i] == MapLine(lines[i], account, tracking)
      ensures ParseDescription(xs[i].description) == Some((lines[i].description, lines[i].quantity))
    {
      MapLinesAt(lines, account, tracking, i);
      DescriptionRoundTrip(lines[i].description, lines[i].quantity);
    }
  }

  /** Mapping distributes over concatenation. */
  lemma {:induction false} MapLinesAppend(xs: seq<S.LineItem>, ys: seq<S.LineItem>, account: string, tracking: seq<X.Tracking>)
    ensures MapLines(xs + ys, account, tracking) == MapLines(xs, account, tracking) + MapLines(ys, account, tracking)
  {
    if ys == [] {
      assert xs + ys == xs;
    } else {
      var init := ys[..|ys| - 1];
      assert (xs + ys)[..|xs + ys| - 1] == xs + init;
      MapLinesAppend(xs, init, account, tracking);
    }
  }

  /** The mapped lines add up to the sum of the source lines' tax-inclusive amounts. */
  lemma {:induction false} MappedLinesKeepTotal(lines: seq<S.LineItem>, account: string, tracking: seq<X.Tracking>)
    ensures X.LinesTotal(MapLines(lines, account, tracking)) == S.AmountTotal(lines)
  {
    if lines != [] {
      var n := |lines|;
      var xs := MapLines(lines, account, tracking);
      assert xs[..n - 1] == MapLines(lines[..n - 1], account, tracking);
      MappedLinesKeepTotal(lines[..n - 1], account, tracking);
    }
  }

  // ------------------------------------------------------------------
  // Contacts and accounts

  /** The send-invoice contact: the one with the customer's contact number, else a new one. */
  function FindOrCreateContact(s: X.OrgState, inv: S.Invoice): (X.OrgState, X.ContactRef) {
    if inv.customer in s.contacts then
      (s, X.ContactRef(s.contacts[inv.customer].contactId, None))
    else
      var (s', created) := X.AddContact(s, inv.customerName, inv.customer);
      (s', X.ContactRef(created.contactId, None))
  }

  lemma ContactReusedOrCreated(s: X.OrgState, inv: S.Invoice)
    ensures var (s', c) := FindOrCreateContact(s, inv);
            && s'.invoices == s.invoices && s'.payments == s.payments
            && (inv.customer in s.contacts ==>
                  s' == s && c.contactId == s.contacts[inv.customer].contactId)
            && (inv.customer !in s.contacts ==>
                  && s'.contacts == s.contacts[inv.customer := X.Contact(c.contactId, inv.customerName, inv.customer)]
                  && |s'.contacts| == |s.contacts| + 1)
  {
  }

  /** The contact of a new invoice: the generic customer for card payments, else found or created. */
  function ResolveContact(cfg: Config, s: X.OrgState, inv: S.Invoice): (X.OrgState, X.ContactRef) {
    match inv.collectionMethod
    case ChargeAutomatically => (s, X.ContactRef(cfg.genericCustomerContactId, None))
    case SendInvoice => FindOrCreateContact(s, inv)
  }

  /** The sales account, or the long-term one when the contact's number is on the allow-list. */
  function AccountFor(cfg: Config, contact: X.ContactRef): string {
    if contact.contactNumber.Some? && contact.contactNumber.value in cfg.longTermContactNumbers then
      cfg.accountSalesLongTerm
    else
      cfg.accountSales
  }

  lemma LongTermIff(cfg: Config, contact: X.ContactRef)
    requires cfg.accountSales != cfg.accountSalesLongTerm
    ensures AccountFor(cfg, contact) in {cfg.accountSales, cfg.accountSalesLongTerm}
    ensures AccountFor(cfg, contact) == cfg.accountSalesLongTerm
            <==> contact.contactNumber.Some? && contact.contactNumber.value in cfg.longTermContactNumbers
  {
  }

  // ------------------------------------------------------------------
  // One invoice

  function IssueDate(inv: S.Invoice): X.XDate {
    X.XDate(inv.finalizedAt, 0)
  }

  function DueDate(inv: S.Invoice): X.XDate {
    match inv.dueDate
    case Some(d) => X.XDate(d, 0)
    case None => X.PlusDays(IssueDate(inv), DUE_AFTER_DAYS)
  }

  /** Creating the destination invoice for `inv`, its contact first. */
  function NewInvoice(cfg: Config, s: X.OrgState, inv: S.Invoice): (X.OrgState, X.Invoice) {
    var (s', contact) := ResolveContact(cfg, s, inv);
    var lines := MapLines(inv.lines, AccountFor(cfg, contact), TrackingFor(cfg));
    var xi := X.Invoice(inv.number, contact, lines, IssueDate(inv), DueDate(inv), INVOICE_TYPE, INVOICE_STATUS, true);
    (X.AddInvoice(s', xi), xi)
  }

  /** The source invoice was collected by card through the platform itself. */
  predicate WantsPayment(inv: S.Invoice) {
    inv.collectionMethod == S.ChargeAutomatically && inv.paid && !inv.paidOutOfBand
  }

  /** The payment gate, given the payments the destination invoice already has. */
  predicate PaymentDue(inv: S.Invoice, existing: seq<X.Payment>) {
    |existing| == 0 && WantsPayment(inv)
  }

  function PaymentFor(cfg: Config, inv: S.Invoice, xi: X.Invoice): X.Payment {
    X.Payment(xi.invoiceNumber, X.XDate(inv.paidAt, 0), X.Total(xi), cfg.accountBank, inv.charge)
  }

  function SettlePayment(cfg: Config, s: X.OrgState, inv: S.Invoice, xi: X.Invoice, existing: seq<X.Payment>): X.OrgState {
    if PaymentDue(inv, existing) then X.AddPayment(s, PaymentFor(cfg, inv, xi)) else s
  }

  /** What one `migrate_invoice` call does to the organisation. */
  function MigrateStep(cfg: Config, s: X.OrgState, inv: S.Invoice): X.OrgState {
    if inv.number in s.invoices then
      SettlePayment(cfg, s, inv, s.invoices[inv.number], X.PaymentsOf(s, inv.number))
    else
      var (s', xi) := NewInvoice(cfg, s, inv);
      SettlePayment(cfg, s', inv, xi, [])
  }

  /** An invoice that already exists is reused: no invoice or contact is created or changed. */
  lemma ExistingInvoiceKept(cfg: Config, s: X.OrgState, inv: S.Invoice)
    requires inv.number in s.invoices
    ensures var s' := MigrateStep(cfg, s, inv);
            s'.invoices == s.invoices && s'.contacts == s.contacts && s'.contactsCreated == s.contactsCreated
  {
  }

  /**
   * A missing invoice is created, as the only new invoice, under the source
   * number, with the mapped lines, the issue and due dates and the fixed
   * type and status.
   */
  lemma AbsentInvoiceCreated(cfg: Config, s: X.OrgState, inv: S.Invoice)
    requires inv.number !in s.invoices
    ensures var s' := MigrateStep(cfg, s, inv);
            && inv.number in s'.invoices
            && s'.invoices == s.invoices[inv.number := s'.invoices[inv.number]]
            && var xi := s'.invoices[inv.number];
               && xi.invoiceNumber == inv.number
               && xi.date == X.XDate(inv.finalizedAt, 0)
               && xi.dueDate == (if inv.dueDate.Some? then X.XDate(inv.dueDate.value, 0)
                                 else X.XDate(inv.finalizedAt, 7))
               && xi.invoiceType == "ACCREC" && xi.status == "AUTHORISED" && xi.sentToContact
               && xi.lineItems == MapLines(inv.lines, AccountFor(cfg, xi.contact), TrackingFor(cfg))
  {
  }

  /** Card-collected invoices get the generic customer contact, and no contact is looked up or made. */
  lemma CardInvoiceUsesGenericContact(cfg: Config, s: X.OrgState, inv: S.Invoice)
    requires inv.number !in s.invoices
    requires inv.collectionMethod == S.ChargeAutomatically
    ensures var s' := MigrateStep(cfg, s, inv);
            && s'.invoices[inv.number].contact == X.ContactRef(cfg.genericCustomerContactId, None)
            && s'.contacts == s.contacts && s'.contactsCreated == s.contactsCreated
  {
  }

  /** Send-invoice invoices reuse the contact with the customer's number, or create exactly that one. */
  lemma SendInvoiceContact(cfg: Config, s: X.OrgState, inv: S.Invoice)
    requires inv.number !in s.invoices
    requires inv.collectionMethod == S.SendInvoice
    ensures var s' := MigrateStep(cfg, s, inv);
            var c := s'.invoices[inv.number].contact;
            && (inv.customer in s.contacts ==>
                  s'.contacts == s.contacts && c.contactId == s.contacts[inv.customer].contactId)
            && (inv.customer !in s.contacts ==>
                  && s'.contacts == s.contacts[inv.customer := X.Contact(c.contactId, inv.customerName, inv.customer)]
                  && |s'.contacts| == |s.contacts| + 1)
  {
    ContactReusedOrCreated(s, inv);
  }

  /** Every line of a new invoice carries the one account the routing rule picks for its contact. */
  lemma NewInvoiceAccount(cfg: Config, s: X.OrgState, inv: S.Invoice)
    requires inv.number !in s.invoices
    ensures var xi := MigrateStep(cfg, s, inv).invoices[inv.number];
            forall i :: 0 <= i < |xi.lineItems| ==> xi.lineItems[i].accountCode == AccountFor(cfg, xi.contact)
  {
    var xi := MigrateStep(cfg, s, inv).invoices[inv.number];
    MappedLines(inv.lines, AccountFor(cfg, xi.contact), TrackingFor(cfg));
  }

  /**
   * The contact references built for new invoices carry no contact number,
   * so as written every line is routed to the standard sales account.
   */
  lemma RoutingAlwaysStandard(cfg: Config, s: X.OrgState, inv: S.Invoice)
    requires inv.number !in s.invoices
    ensures var xi := MigrateStep(cfg, s, inv).invoices[inv.number];
            && xi.contact.contactNumber == None
            && forall i :: 0 <= i < |xi.lineItems| ==> xi.lineItems[i].accountCode == cfg.accountSales
  {
    NewInvoiceAccount(cfg, s, inv);
  }

  /**
   * The payment gate: at most one payment, and only for an invoice without
   * payments whose source was paid by card through the platform; it pays the
   * destination total and references the source charge. Other invoices'
   * payments are untouched.
   */
  lemma PaymentGate(cfg: Config, s: X.OrgState, inv: S.Invoice)
    requires X.Consistent(s)
    ensures var s' := MigrateStep(cfg, s, inv);
            var n := inv.number;
            && (forall m :: m != n ==> X.PaymentsOf(s', m) == X.PaymentsOf(s, m))
            && (if X.PaymentsOf(s, n) == [] && WantsPayment(inv) then
                  X.PaymentsOf(s', n)
                  == [X.Payment(n, X.XDate(inv.paidAt, 0), X.Total(s'.invoices[n]), cfg.accountBank, inv.charge)]
                else
                  X.PaymentsOf(s', n) == X.PaymentsOf(s, n))
  {
    var s' := MigrateStep(cfg, s, inv);
    var n := inv.number;
    if n !in s.invoices {
      assert n !in s.payments;
      var (s1, xi) := NewInvoice(cfg, s, inv);
      assert s1.invoices[n] == xi;
    }
  }

  /** A payment made for a new invoice equals the sum of the source line amounts. */
  lemma PaymentAmountIsLinesTotal(cfg: Config, s: X.OrgState, inv: S.Invoice)
    requires inv.number !in s.invoices
    ensures X.Total(MigrateStep(cfg, s, inv).invoices[inv.number]) == S.AmountTotal(inv.lines)
  {
    var (s1, contact) := ResolveContact(cfg, s, inv);
    MappedLinesKeepTotal(inv.lines, AccountFor(cfg, contact), TrackingFor(cfg));
  }

  lemma StepKeepsConsistent(cfg: Config, s: X.OrgState, inv: S.Invoice)
    requires X.Consistent(s)
    ensures X.Consistent(MigrateStep(cfg, s, inv))
  {
    if inv.number !in s.invoices {
      var (s1, contact) := ResolveContact(cfg, s, inv);
      assert X.Consistent(s1);
    }
  }

  // ------------------------------------------------------------------
  // Re-running

  /** Nothing is left for `migrate_invoice` to do about `inv`. */
  predicate Settled(s: X.OrgState, inv: S.Invoice) {
    inv.number in s.invoices && (X.PaymentsOf(s, inv.number) != [] || !WantsPayment(inv))
  }

  lemma StepSettles(cfg: Config, s: X.OrgState, inv: S.Invoice)
    requires X.Consistent(s)
    ensures Settled(MigrateStep(cfg, s, inv), inv)
  {
    PaymentGate(cfg, s, inv);
  }

  lemma StepKeepsSettled(cfg: Config, s: X.OrgState, inv: S.Invoice, other: S.Invoice)
    requires Settled(s, other)
    ensures Settled(MigrateStep(cfg, s, inv), other)
  {
  }

  lemma SettledIsFixpoint(cfg: Config, s: X.OrgState, inv: S.Invoice)
    requires Settled(s, inv)
    ensures MigrateStep(cfg, s, inv) == s
  {
  }

  /** Migrating the same invoice twice leaves what migrating it once leaves. */
  lemma StepIdempotent(cfg: Config, s: X.OrgState, inv: S.Invoice)
    requires X.Consistent(s)
    ensures MigrateStep(cfg, MigrateStep(cfg, s, inv), inv) == MigrateStep(cfg, s, inv)
  {
    StepSettles(cfg, s, inv);
    SettledIsFixpoint(cfg, MigrateStep(cfg, s, inv), inv);
  }

  // ------------------------------------------------------------------
  // The client

  /**
   * The inner loop of the line migration: appends the image of every line
   * of `page` to `acc`, in order. `last` is the loop variable after the
   * loop: the page's last line, or `cursor` when the page is empty.
   */
  method MapPage(page: seq<S.LineItem>, account: string, tc: seq<X.Tracking>, acc: seq<X.LineItem>, cursor: Option<S.LineItem>)
    returns (last: Option<S.LineItem>, xLines: seq<X.LineItem>)
    ensures xLines == acc + MapLines(page, account, tc)
    ensures last == if page == [] then cursor else Some(page[|page| - 1])
  {
    xLines := acc;
    last := cursor;
    for i := 0 to |page|
      invariant xLines == acc + MapLines(page[..i], account, tc)
      invariant last == if i == 0 then cursor else Some(page[i - 1])
    {
      last := Some(page[i]);
      assert page[..i + 1][..i] == page[..i];
      xLines := xLines + [MapLine(page[i], account, tc)];
    }
    assert page[..|page|] == page;
  }

  /**
   * The paging loop of the line migration: lists the lines of `inv` after
   * the last line seen until a page without more, mapping each with
   * `account` and tracking list `tc`.
   */
  method CollectLines(inv: S.Invoice, account: string, tc: seq<X.Tracking>) returns (xLines: seq<X.LineItem>)
    requires Paging.Distinct(inv.lines)
    ensures xLines == MapLines(inv.lines, account, tc)
  {
    xLines := [];
    ghost var n: nat := 0;
    var line: Option<S.LineItem> := None;
    while true
      invariant n <= |inv.lines|
      invariant line == Paging.CursorAfter(inv.lines, n)
      invariant xLines == MapLines(inv.lines[..n], account, tc)
      decreases |inv.lines| - n
    {
      var lines := S.ListLines(inv, line);
      Paging.NextPage(inv.lines, n, S.DEFAULT_PAGE_LIMIT);
      MapLinesAppend(inv.lines[..n], lines.data, account, tc);
      line, xLines := MapPage(lines.data, account, tc, xLines, line);
      n := n + |lines.data|;
      if !lines.hasMore {
        break;
      }
    }
    assert inv.lines[..n] == inv.lines;
  }

  /** The Xero client: its configuration and the organisation it writes to. */
  class XeroClient {
    const config: Config
    const org: X.XeroOrg

    constructor (config: Config, org: X.XeroOrg)
      ensures this.config == config && this.org == org
    {
      this.config := config;
      this.org := org;
    }

    /** The invoice whose number is exactly `number`, if any. */
    method GetInvoiceByNumber(number: string) returns (xi: Option<X.Invoice>)
      requires org.Valid()
      ensures xi.Some? <==> number in org.invoices
      ensures xi.Some? ==> xi.value == org.invoices[number] && xi.value.invoiceNumber == number
      ensures xi.None? ==> forall v :: v in org.invoices.Values ==> v.invoiceNumber != number
    {
      if number in org.invoices {
        xi := Some(org.invoices[number]);
      } else {
        xi := None;
      }
    }

    method GetOrCreateContact(inv: S.Invoice) returns (contact: X.ContactRef)
      modifies org
      ensures (org.State(), contact) == FindOrCreateContact(old(org.State()), inv)
    {
      if inv.customer in org.contacts {
        contact := X.ContactRef(org.contacts[inv.customer].contactId, None);
      } else {
        var created := org.CreateContact(inv.customerName, inv.customer);
        contact := X.ContactRef(created.contactId, None);
      }
    }

    /**
     * Builds the tracking list from the configuration, then maps every line
     * of `inv`, read page by page, in order.
     */
    method MigrateLineItems(inv: S.Invoice, account: string) returns (xLines: seq<X.LineItem>)
      requires Paging.Distinct(inv.lines)
      ensures xLines == MapLines(inv.lines, account, TrackingFor(config))
    {
      var tc: seq<X.Tracking> := [];
      if IsConfigured(config.trackingOne) {
        tc := tc + [TrackingEntry(config.trackingOne)];
      }
      if IsConfigured(config.trackingTwo) {
        tc := tc + [TrackingEntry(config.trackingTwo)];
      }
      assert tc == TrackingFor(config);
      xLines := CollectLines(inv, account, tc);
    }

    method MigrateInvoice(inv: S.Invoice)
      requires org.Valid()
      requires Paging.Distinct(inv.lines)
      modifies org
      ensures org.State() == MigrateStep(config, old(org.State()), inv)
      ensures org.Valid()
    {
      StepKeepsConsistent(config, org.State(), inv);
      var number := inv.number;
      var xi := GetInvoiceByNumber(number);
      var existing: seq<X.Payment>;
      if xi.None? {
        var contact: X.ContactRef;
        if inv.collectionMethod == S.ChargeAutomatically {
          contact := X.ContactRef(config.genericCustomerContactId, None);
        } else {
          contact := GetOrCreateContact(inv);
        }
        var account := AccountFor(config, contact);
        var xLineItems := MigrateLineItems(inv, account);
        var xInvoice := X.Invoice(number, contact, xLineItems, IssueDate(inv), DueDate(inv),
                                  INVOICE_TYPE, INVOICE_STATUS, true);
        org.CreateInvoice(xInvoice);
        xi := Some(xInvoice);
        existing := [];
      } else {
        existing := X.PaymentsOf(org.State(), number);
      }
      if |existing| == 0 && inv.collectionMethod == S.ChargeAutomatically {
        if inv.paid && !inv.paidOutOfBand {
          org.CreatePayment(PaymentFor(config, inv, xi.value));
        }
      }
    }
  }
}
