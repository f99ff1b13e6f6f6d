# Stripe-to-Xero invoice migration, modelled in Dafny

This project models the core of a batch job that copies finalized invoices
from the Stripe payments platform into a Xero accounting organisation.

- `migrate` (src/main.py) pages through the Stripe invoices created in a
  window widened by 31 days. It skips drafts and any invoice finalized
  outside the inclusive window `[START_DATE, END_DATE]`. Every other invoice
  goes to the Xero client.
- `XeroClient.migrate_invoice` (src/xero.py) looks the invoice up by
  number. If it is missing, the client:
  - resolves a contact: the generic customer for card-collected invoices,
    otherwise found or created by customer number;
  - routes the sales account;
  - maps the line items, read page by page;
  - creates the invoice.
- Then the client records one payment, but only for a card-collected
  invoice that has none yet and was paid through the platform.

Module layout:

| file | module | models |
|---|---|---|
| `wrappers.dfy` | `Wrappers` | `Option` |
| `decimal.dfy` | `Decimal` | the decimal text of a quantity, and reading it back |
| `paging.dfy` | `Paging` | cursor pagination (`starting_after`, `limit`, `has_more`) |
| `stripe_api.dfy` | `StripeApi` | source invoices and line items, and the two list endpoints |
| `xero_api.dfy` | `XeroApi` | the destination organisation: a value `OrgState` and a class `XeroOrg` with the create endpoints |
| `xero_sync.dfy` | `XeroSync` | src/xero.py (see below) |
| `migration.dfy` | `Migration` | src/main.py (see below) |

**`XeroSync`** holds the pure migration rules and `MigrateStep`, which is
what one `migrate_invoice` call does to the organisation. Its class
`XeroClient` has methods that carry out the same work step by step against
a `XeroOrg`, and each is proved to equal the pure rules.

**`Migration`** holds:

- the two filters;
- `RunAll`, which folds `MigrateStep` over a list of invoices;
- the paging loop `Migrate`, proved to have the effect of `RunAll` over the
  accepted fetched invoices, in listing order.

The idempotence the job relies on is proved about `RunAll`: a second run
over the same invoices changes nothing.

Money is integer minor units. The source divides by 100 only for display
and for the Xero SDK; that division is not modelled.

The Xero invoice total is modelled as the sum of the submitted line and tax
amounts. Dates are the source timestamps. "Seven days after the issue date"
is kept symbolic (`XDate.plusDays`).

## Model

| member | source | states |
|---|---|---|
| XeroSync.TrackingFor | src/xero.py:153-164 | at most two tracking entries: category one first, then category two, each present exactly when its category id is set and non-empty |
| XeroSync.DescriptionRoundTrip | src/xero.py:173 | the line description "`<description> (Quantity: <n>)`" can be parsed back into the source description and the quantity |
| XeroSync.DescriptionInjective | src/xero.py:173 | two lines get the same description only when both description and quantity agree |
| XeroSync.MapLinesAt | src/xero.py:170-179 | destination line `i` is the mapping of source line `i` |
| XeroSync.MappedLines | src/xero.py:171-178 | mapping keeps the number and order of lines; every line carries the given account and tracking list, the tax-exclusive amount as line amount, and tax = amount − amount excluding tax; the description parses back to the source's |
| XeroSync.MapLinesAppend | src/xero.py:167-182 | mapping page by page equals mapping the concatenated pages |
| XeroSync.MappedLinesKeepTotal | src/xero.py:175-176 | the mapped line and tax amounts add up to the sum of the source lines' tax-inclusive amounts |
| XeroSync.MapPage | src/xero.py:170-179 | the inner loop appends the mapped page to the lines so far, in order, and leaves the loop variable on the page's last line (unchanged after an empty page) |
| XeroSync.CollectLines | src/xero.py:166-184 | the paging loop, which always resumes after the last line seen, yields exactly the mapping of all the invoice's lines in order, and terminates |
| XeroSync.XeroClient.MigrateLineItems | src/xero.py:150-184 | the result is every line of the invoice, mapped with the given account and with the tracking list the configuration selects |
| XeroSync.ContactReusedOrCreated | src/xero.py:186-196 | a contact whose number is the customer id is reused unchanged; otherwise exactly one contact is created, under that number and with the customer name; invoices and payments are untouched |
| XeroSync.XeroClient.GetOrCreateContact | src/xero.py:186-196 | the new organisation state and the returned reference match the find-or-create rule |
| XeroSync.XeroClient.GetInvoiceByNumber | src/xero.py:78-86 | in a consistent organisation, an invoice is returned exactly when one with that number exists; it is that invoice and carries that number, and when none is returned no stored invoice carries the number |
| XeroSync.CardInvoiceUsesGenericContact | src/xero.py:105-108 | a new card-collected invoice gets the generic customer contact, and no contact is created |
| XeroSync.SendInvoiceContact | src/xero.py:110-111 | a new send-invoice invoice reuses the customer's contact or creates exactly that one |
| XeroSync.LongTermIff | src/xero.py:113-115 | the account is the long-term sales account exactly when the contact's number is on the long-term list, otherwise the standard one |
| XeroSync.NewInvoiceAccount | src/xero.py:113-117 | every line of a new invoice carries the account the routing rule picks for the invoice's contact |
| XeroSync.RoutingAlwaysStandard | src/xero.py:105-115 | the contacts built for new invoices carry no contact number, so every line is routed to the standard sales account |
| XeroSync.ExistingInvoiceKept | src/xero.py:99-102 | when an invoice with the number exists, no invoice or contact is created or changed |
| XeroSync.AbsentInvoiceCreated | src/xero.py:102-133 | a missing invoice is created as the only new invoice: the source number, the mapped lines, the finalization date, the due date or seven days after the issue date, ACCREC, AUTHORISED, sent to contact |
| XeroSync.PaymentGate | src/xero.py:137-147 | exactly one payment is added, and only when the invoice had none and its source was card-collected, paid, and not paid out of band; the payment is for the destination total, on the bank account, with the charge as reference; no other invoice's payments change |
| XeroSync.PaymentAmountIsLinesTotal | src/xero.py:143 | the payment amount for a new invoice equals the sum of the source lines' tax-inclusive amounts |
| XeroSync.StepKeepsConsistent | src/xero.py:88-147 | one migration keeps each record under its own key, and every payment against an existing invoice |
| XeroSync.StepSettles | src/xero.py:88-147 | after one migration the invoice exists, and is paid if it should be |
| XeroSync.StepKeepsSettled | src/xero.py:88-147 | migrating one invoice never undoes the settled state of another |
| XeroSync.SettledIsFixpoint | src/xero.py:99-147 | migrating a settled invoice changes nothing |
| XeroSync.StepIdempotent | src/xero.py:88-147 | migrating the same invoice twice leaves what migrating it once leaves |
| XeroSync.XeroClient.MigrateInvoice | src/xero.py:88-147 | the client's step-by-step migration has the effect of `MigrateStep` on the organisation and keeps it consistent (`XeroOrg.Valid`) |
| XeroApi.AddContact | src/xero.py:192-194 | creating a contact stores it under its contact number with the given name, advances the counter that numbers new contact ids, and changes nothing else |
| XeroApi.XeroOrg.CreateContact | src/xero.py:192-194 | the create-contact endpoint updates the organisation as `AddContact` does |
| XeroApi.XeroOrg.CreateInvoice | src/xero.py:130-133 | the create-invoice endpoint adds the invoice under its number |
| XeroApi.XeroOrg.CreatePayment | src/xero.py:140-147 | the create-payment endpoint appends the payment to its invoice's payments |
| Paging.SuffixAfterIsTail | src/xero.py:168 | `starting_after` a record in the list yields the tail after it; after a record not in the list it yields nothing |
| Paging.ResumesAfterCursor | src/main.py:41-43 | with distinct records, resuming after the last record consumed continues at the next position |
| Paging.NextPage | src/main.py:40-67 | each request hands the client the next records in order and leaves it holding the last one; a page with `has_more` is full, and one without it ends the listing |
| StripeApi.CreatedInMembers | src/main.py:41-42 | the `created` filter keeps exactly the records with `gte <= created < lt` |
| StripeApi.CreatedInDistinct | src/main.py:41-42 | filtering keeps records distinct |
| Decimal.NatToStringIsNumeral | src/xero.py:173 | the quantity's text is a non-empty run of digits with no leading zero |
| Decimal.DigitsRoundTrip | src/xero.py:173 | reading the quantity's text back gives the quantity |
| Decimal.TrailingDigitsAfter | src/xero.py:173 | the digits after a non-digit are exactly the trailing digit run |
| Migration.WindowBounds | src/main.py:60 | the finalization window is inclusive at both ends: one second outside either bound is rejected |
| Migration.MigratedIff | src/main.py:41-63 | an invoice reaches `migrate_invoice` exactly when it is in the store, was created in `[start − 2678400, end)`, is not a draft and was finalized in `[start, end]` |
| Migration.DraftsNeverMigrated | src/main.py:57-58 | drafts never reach `migrate_invoice`, whatever their timestamps |
| Migration.LookbackCatchesLateFinalized | src/main.py:42 | an invoice created up to 31 days before the window and finalized inside it is still migrated |
| Migration.AcceptedOfMembers | src/main.py:57-63 | the filter keeps exactly the accepted invoices, each accepted one as often as it occurs in the input and no other, and never more than it is given |
| Migration.RunAcceptedIsRunAll | src/main.py:43-63 | skipping while iterating equals migrating the filtered list |
| Migration.RunAcceptedAppend | src/main.py:40-67 | processing two pages in turn equals processing their concatenation |
| Migration.RunKeepsConsistent | src/main.py:63 | a run keeps the organisation consistent |
| Migration.RunSettles | src/main.py:63 | after a run, every invoice it was given exists in the organisation and is paid if it should be |
| Migration.SettledRunIsNoOp | src/main.py:63 | a run over settled invoices changes nothing |
| Migration.RerunIsNoOp | src/main.py:35-67 | running the job a second time over the same invoices changes nothing |
| Migration.RunStoresEveryInvoice | src/main.py:63 | every invoice given to a run has a destination invoice under its number afterwards |
| Migration.MigratePage | src/main.py:43-63 | the inner loop migrates the page's accepted invoices in order, skips the rest, keeps the organisation consistent, and leaves the loop variable on the page's last invoice |
| Migration.FetchPage | src/main.py:41-43 | each fetch yields the next fetched invoices in order and the cursor after them; `has_more` false means the listing is exhausted |
| Migration.Migrate | src/main.py:35-67 | the paging loop terminates; the organisation ends as if `migrate_invoice` had been called on each accepted fetched invoice in listing order, and stays consistent, so `RerunIsNoOp` applies to a second run |
| XeroSync.IsConfigured | src/xero.py:154-160 | definition, no contract of its own: a tracking category is attached when its id is set and non-empty |
| XeroSync.TrackingEntry | src/xero.py:155-158 | definition, no contract of its own: the tracking entry of one category, its id and its option id |
| XeroSync.Description | src/xero.py:173 | definition, no contract of its own: the description text; characterised by `DescriptionRoundTrip` and `DescriptionInjective` |
| XeroSync.MapLine | src/xero.py:171-178 | definition, no contract of its own: one destination line; characterised by `MappedLines` |
| XeroSync.MapLines | src/xero.py:170-179 | the mapping of all lines has one line per source line; characterised by `MapLinesAt`, `MappedLines` and `MappedLinesKeepTotal` |
| XeroSync.FindOrCreateContact | src/xero.py:186-196 | definition, no contract of its own: find-or-create by contact number; characterised by `ContactReusedOrCreated` |
| XeroSync.ResolveContact | src/xero.py:105-111 | definition, no contract of its own: the contact of a new invoice by collection method; characterised by `CardInvoiceUsesGenericContact` and `SendInvoiceContact` |
| XeroSync.AccountFor | src/xero.py:113-115 | definition, no contract of its own: the account routing; characterised by `LongTermIff` and `RoutingAlwaysStandard` |
| XeroSync.IssueDate | src/xero.py:93 | definition, no contract of its own: the issue date is the finalization time |
| XeroSync.DueDate | src/xero.py:124 | definition, no contract of its own: the source due date, or seven days after the issue date |
| XeroSync.NewInvoice | src/xero.py:102-133 | definition, no contract of its own: the invoice created for a missing number; characterised by `AbsentInvoiceCreated` |
| XeroSync.WantsPayment | src/xero.py:137-139 | definition, no contract of its own: card-collected, paid, and not paid out of band |
| XeroSync.PaymentDue | src/xero.py:137-139 | definition, no contract of its own: the payment gate, given the existing payments |
| XeroSync.PaymentFor | src/xero.py:140-146 | definition, no contract of its own: the payment for the destination total, on the bank account, with the charge as reference |
| XeroSync.SettlePayment | src/xero.py:137-147 | definition, no contract of its own: records the payment when the gate opens; characterised by `PaymentGate` |
| XeroSync.MigrateStep | src/xero.py:99-147 | definition, no contract of its own: one `migrate_invoice` call on the organisation; characterised by `ExistingInvoiceKept`, `AbsentInvoiceCreated`, `PaymentGate` and `StepIdempotent`, and carried out by `XeroClient.MigrateInvoice` |
| XeroApi.AddInvoice | src/xero.py:130-131 | definition, no contract of its own: the invoice is stored under its number |
| XeroApi.AddPayment | src/xero.py:147 | definition, no contract of its own: the payment is appended to its invoice's payments |
| XeroApi.PaymentsOf | src/xero.py:137 | definition, no contract of its own: the payments recorded against an invoice, none when there are none |
| XeroApi.Total | src/xero.py:143 | definition, no contract of its own: the invoice total as the sum of line and tax amounts |
| StripeApi.CreatedIn | src/main.py:42 | definition, no contract of its own: the `created` range filter; characterised by `CreatedInMembers` |
| StripeApi.ListInvoices | src/main.py:41-42 | definition, no contract of its own: the invoice list endpoint, paged over the filtered invoices |
| StripeApi.ListLines | src/xero.py:168 | definition, no contract of its own: the line list endpoint with its default page size |
| StripeApi.AmountTotal | src/xero.py:175-176 | definition, no contract of its own: the sum of the lines' tax-inclusive amounts |
| Paging.SuffixAfter | src/xero.py:168 | the records after the cursor record are never more than the list; characterised by `SuffixAfterIsTail` |
| Paging.List | src/main.py:41-42 | definition, no contract of its own: a page of at most `limit` records after the cursor, with `has_more` when more remain; characterised by `NextPage` |
| Paging.CursorAfter | src/main.py:43 | definition, no contract of its own: the loop variable after consuming `k` records |
| Migration.FetchFrom | src/main.py:42 | definition, no contract of its own: the fetch starts 2678400 seconds before the window |
| Migration.Fetched | src/main.py:41-42 | definition, no contract of its own: the invoices the listing yields, in order |
| Migration.Accepted | src/main.py:57-60 | definition, no contract of its own: not a draft, and finalized inside the inclusive window; characterised by `WindowBounds` |
| Migration.AcceptedOf | src/main.py:43-63 | definition, no contract of its own: the accepted invoices, in order; characterised by `AcceptedOfMembers` and `MigratedIff` |
| Migration.RunAll | src/main.py:63 | definition, no contract of its own: `migrate_invoice` applied to each invoice in turn |
| Migration.RunAccepted | src/main.py:43-63 | definition, no contract of its own: the loop's effect, skipping the invoices the filter rejects; characterised by `RunAcceptedIsRunAll` and `RunAcceptedAppend` |
| Decimal.NatToString | src/xero.py:173 | definition, no contract of its own: Python's `str` of the quantity inside the description; characterised by `NatToStringIsNumeral` and `DigitsRoundTrip` |
| XeroApi.PlusDays | src/xero.py:124 | definition, no contract of its own: `date + timedelta(days=7)`, kept symbolic; characterised by `AbsentInvoiceCreated` |
| XeroApi.NewContactId | src/xero.py:196 | definition, no contract of its own: the id the organisation gives a created contact; characterised by `ContactReusedOrCreated` |
| Paging.After | src/main.py:41 | definition, no contract of its own: what `starting_after` selects, the whole list without a cursor and the records after it otherwise; characterised by `SuffixAfterIsTail` and `ResumesAfterCursor` |
| XeroApi.LinesTotal | src/xero.py:143 | definition, no contract of its own: the sum of the submitted line and tax amounts that `Total` reads; characterised by `MappedLinesKeepTotal` |

## Left out

- OAuth tokens, the tenant lookup (`XeroClient.init`), the SDK and HTTP calls, environment variables and `check_config`: the configuration is a `Config` value, and the two platforms are in-memory models.
- `print` output, and `dump_tracking_categories`/`dump_chart_of_accounts`: they are diagnostics and change nothing.
- Floating-point division by 100: amounts are integer minor units throughout, so rounding on the SDK's side is not captured.
- Time zones and `strptime`: the window bounds are given as integer timestamps. The destination dates keep the source timestamp, and "+7 days" is symbolic, so DST behaviour is not captured.
- Collection methods other than the two named ones: the model's enumeration has exactly two values. For such an invoice that is absent from Xero, the source fails, because its contact variable is unbound (src/xero.py:102-115). For one that already exists, the source skips creation and the payment gate stays closed (src/xero.py:137), so nothing changes in the organisation.
- Nullable Stripe fields other than `due_date`: the model assumes they are set. These are `finalized_at`, `paid_at`, `charge` and `customer_name` on the invoice, and `description` and `quantity` on a line. The code reads `charge` (src/xero.py:145), `customer_name` (src/xero.py:193) and the line's `description` and `quantity` (src/xero.py:173) without a check. When one of them is null, the source sends the text "None" (a contact named "None", descriptions containing "None") or a payment without a reference, and the model does not capture that.
- An unknown `starting_after` cursor is an error at Stripe; here it selects nothing. The loops never send one, as `Paging.NextPage` shows.
- Distinct records are a precondition (`Paging.Distinct`): Stripe ids are unique, and the paging loops rely on it to make progress.
- XeroApi.Total: Xero computes the invoice total itself; it is modelled as the sum of line and tax amounts, without Xero's rounding.
- XeroApi.XeroOrg.CreateContact and XeroApi.XeroOrg.CreateInvoice require that the key is absent. The job calls them only after a lookup that returned nothing, and the model does not capture a concurrent writer between lookup and create.
- Errors raised by the endpoints (network failures, validation errors): they abort the job in the source and are not modelled.
- XeroSync.IsConfigured checks only that the tracking category id is set and non-empty, as the code does. The option id is passed through unchecked, even when it is unset.
- XeroSync.RoutingAlwaysStandard states the behaviour as written: the long-term account is unreachable, because new contact references carry no contact number. Which fix was intended (contact number or contact id) is not clear, so the effect is stated as a property rather than corrected.
