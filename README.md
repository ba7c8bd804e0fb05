# Invoicing app core in Dafny

The app handles invoices and quotes. It has a React front end and an Express/MySQL
back end. This project models the logic behind its screens and its REST controller,
and proves what that logic promises.

- **InvoicePage** (`invoice_page.dfy`): the full editor page. It covers the item
  table (add, remove, update, with `totalHT = quantity × unitPrice`) and
  `calculateTotals` (HT, VAT from each row's stored rate, fiscal stamp, TTC). It
  also covers `numberToWords` and the text layout of `generatePDF`, which is a list
  of `(text, x, y)` commands drawn with the moving `y` cursor.
  - The page state is the class `Editor`.
- **Billing** (`billing.dfy`): the billing dashboard.
  - the search and filters;
  - the four amount cards;
  - the status label and colour lookups;
  - creating, deleting and re-statusing invoices, where creation numbers the new
    invoice from the length of the list.

  The dashboard state is the class `BillingDashboard`.
- **QuickCreate** (`quick_create.dfy`): the quick-create modal. It holds a free list of
  articles with a running `quantity × price` total. On submit it draws a one-page PDF
  with a file name, and produces the payload it hands to the dashboard.
  - The form state is the class `Form`.
- **InvoiceApi** (`invoice_api.dfy`): the invoice controller.
  - `validateInvoiceData` is a rule checker that reports each failed rule once, in
    order and case-insensitively.
  - create, get, update and delete choose the HTTP outcome; the `invoices` table is a
    map from id to row.
  - The table is the class `InvoiceTable`.
- **Dashboard** (`dashboard.dfy`): the landing dashboard.
  - its four NaN-propagating sums of fetched rows;
  - the colour chosen from the lower-cased status;
  - the badge text `status.replace('_', ' ')`.
- Shared support modules:
  - **Strings**: `toLowerCase`, `includes`, `padStart`, decimal printing.
  - **Seqs**: `filter`, removal by index, subsequences.
  - **Js**: loosely typed JSON values, truthiness, `Number(v)`, `parseFloat`.
  - **Pdf**: text commands with symbolic `toFixed(2)` and millimes pieces.

Money is an exact `real`; quantities and VAT rates are `int`.

Three behaviours of the code the model keeps:
- The VAT of a row always uses the rate stored on the row, even when per-line VAT is
  switched off. `defaultVATRate` only seeds new rows (`TotalsIgnoreDefaultRate`,
  `StoredRateWinsExample`).
- The PDF item table is one table, drawn from y = 130 down, with no page break and no
  repeated header.
- Document numbers come from `invoices.length + 1`, so they can repeat after a
  deletion (`NumbersRepeatAfterDeletion`).

## Model

| member | source | states |
|---|---|---|
| Strings.Lower | src/components/BillingDashboard.tsx:121-122 | `toLowerCase` keeps the length and lowers each character on its own |
| Strings.LowerIdempotent | src/components/BillingDashboard.tsx:121-122 | lower-casing twice is lower-casing once |
| Strings.ContainsIff | src/components/BillingDashboard.tsx:121-122 | `includes` returns true iff the needle occurs at some position of the text |
| Strings.ContainsEmpty | src/components/BillingDashboard.tsx:121-122 | every text includes the empty search term |
| Strings.PadStart | src/components/BillingDashboard.tsx:136 | `padStart` gives length max(len, width), keeps the text as suffix and fills only the front |
| Strings.PadZerosValue | src/components/BillingDashboard.tsx:136 | zero-padding a digit string keeps it all digits and keeps its value |
| Strings.NatToStringRoundTrip | src/components/BillingDashboard.tsx:135-136 | `String(n)` of a natural reads back as n |
| Js.StringToNumber | invoice-api/controllers/invoiceController.js:18-22 | the coercion behind `isNaN(v)` and `v < 0`; stated by `NatStringParses` and `LeadingBlankIgnored` |
| Js.ParseFloat | invoice-api/controllers/invoiceController.js:42-44 | `parseFloat`; stated by `NatStringParses`, `LeadingBlankIgnored`, `DefaultedIsNumber` and `Dashboard.WholeNumberStringParses` |
| Js.LeadingBlankIgnored | invoice-api/controllers/invoiceController.js:18-22 | a leading whitespace character, Zs spaces such as U+3000 included, changes neither `Number(s)` nor `parseFloat(s)` |
| Js.NatStringParses | invoice-api/controllers/invoiceController.js:18-22 | `parseFloat` and `Number` of a printed natural give that natural back |
| Js.DefaultedIsNumber | invoice-api/controllers/invoiceController.js:42-44 | after `parseFloat(x) \|\| 0` a value is never NaN, and it is negative iff `parseFloat(x)` is a negative number |
| InvoicePage.AddedItems | src/components/CreateInvoicePage.tsx:99-107 | `addItem` appends one blank row (qty 1, price 0, total 0, default rate), keeps the prefix and keeps line totals current |
| InvoicePage.RemovedItems | src/components/CreateInvoicePage.tsx:109-113 | `removeItem` leaves a one-row list and an out-of-range index alone, otherwise drops exactly the row at the index, so the list is never emptied; line totals stay current |
| InvoicePage.UpdatedItems | src/components/CreateInvoicePage.tsx:115-124 | `updateItem` changes only that row; a quantity or price edit makes its `totalHT` equal quantity × price |
| InvoicePage.ReplayKeepsLineTotals | src/components/CreateInvoicePage.tsx:99-124 | any run of add, remove and update keeps at least one row and every `totalHT == quantity × unitPrice` |
| InvoicePage.FromInitialRow | src/components/CreateInvoicePage.tsx:77-85 | the same from the page's initial single blank row |
| InvoicePage.CalculateTotals | src/components/CreateInvoicePage.tsx:126-136 | `calculateTotals`; its contract is stated by `TotalHTIsSumOfProducts`, `TotalsIdentity`, `UniformRateVAT`, `TotalsIgnoreDefaultRate` and `TotalsNonNegative` below |
| InvoicePage.SumHTConcat | src/components/CreateInvoicePage.tsx:127-131 | the HT and VAT folds add over concatenation |
| InvoicePage.TotalHTIsSumOfProducts | src/components/CreateInvoicePage.tsx:119-127 | with current line totals, `totalHT` is the sum of quantity × unit price |
| InvoicePage.TotalsIdentity | src/components/CreateInvoicePage.tsx:126-136 | TTC = HT + VAT + stamp; VAT off gives 0 VAT; stamp off gives 0 stamp, on gives the stamp amount |
| InvoicePage.EmptyTotals | src/components/CreateInvoicePage.tsx:126-136 | with no rows the TTC total is the stamp alone |
| InvoicePage.UniformRateVAT | src/components/CreateInvoicePage.tsx:128-131 | when every row has the same rate, VAT is that rate of HT |
| InvoicePage.TotalsIgnoreDefaultRate | src/components/CreateInvoicePage.tsx:126-136 | neither the default rate nor the per-line switch enters the totals |
| InvoicePage.StoredRateWinsExample | src/components/CreateInvoicePage.tsx:128-131 | a row stored at 7% is taxed at 7% under the 19% default with per-line VAT off |
| InvoicePage.ConsultingExample | src/components/CreateInvoicePage.tsx:54-60 | 2 × 100 at 19% with a 1.00 stamp gives 200 + 38 + 1 = 239 |
| InvoicePage.TotalsNonNegative | src/components/CreateInvoicePage.tsx:126-136 | non-negative line totals, rates and stamp give non-negative totals with TTC ≥ HT |
| InvoicePage.AddKeepsTotals | src/components/CreateInvoicePage.tsx:99-107 | a new blank row changes no total |
| InvoicePage.RemoveSubtractsRow | src/components/CreateInvoicePage.tsx:109-113 | removing a row takes exactly its HT and its VAT off the sums |
| InvoicePage.TablesHaveNoDigits | src/components/CreateInvoicePage.tsx:139-141 | the `ones`, `teens` and `tens` words hold no digit |
| InvoicePage.NumberToWords | src/components/CreateInvoicePage.tsx:138-150 | below 100 the result is a non-empty word with no digit, and different numbers get different words (`NumberToWordsInjective`); from 100 on it is the decimal digits of n |
| InvoicePage.NumberToWordsExamples | src/components/CreateInvoicePage.tsx:144-149 | 0 "zéro", 7 "sept", 17 "dix-sept", 21 "vingt-un", 71 "soixante-dix-un", 80 "quatre-vingt", 99 "quatre-vingt-dix-neuf", 100 "100" |
| InvoicePage.NumberToWordsInjective | src/components/CreateInvoicePage.tsx:143-147 | below 100 two different numbers never get the same words, so the words line names one amount |
| InvoicePage.RowCmds | src/components/CreateInvoicePage.tsx:196-202 | an item row has 5 cells with the VAT column and 4 without |
| InvoicePage.RowsLength | src/components/CreateInvoicePage.tsx:195-204 | the table body has one block of row cells per item |
| InvoicePage.RowAt | src/components/CreateInvoicePage.tsx:194-204 | cell k of row i is that item's k-th cell, drawn at y = 130 + 10 i |
| InvoicePage.RowsPlacement | src/components/CreateInvoicePage.tsx:194-204 | row cells lie at y ≥ 130 in columns 20/100/120/150/170, column 150 only with the VAT column |
| InvoicePage.TotalsPlacement | src/components/CreateInvoicePage.tsx:206-224 | the totals block lies below the last row, at x = 140 except the words line at x = 20 |
| InvoicePage.HeaderPlacement | src/components/CreateInvoicePage.tsx:158-178 | issuer and document blocks at x = 20, client block at x = 100, all at y ≤ 98 |
| InvoicePage.DeliveryPlacement | src/components/CreateInvoicePage.tsx:179-181 | the delivery line is at (20, 106) |
| InvoicePage.TableHeadPlacement | src/components/CreateInvoicePage.tsx:185-191 | the table head is the line y = 120, with "TVA %" at x = 150 only when shown |
| InvoicePage.Layout | src/components/CreateInvoicePage.tsx:152-224 | the text commands `generatePDF` draws; stated by `LayoutParts`, the placement lemmas and the `...Iff` lemmas below, and drawn by `Editor.GeneratePdf` |
| InvoicePage.FileName | src/components/CreateInvoicePage.tsx:227 | the saved file name; stated by `FileNameShape` |
| InvoicePage.FileNameShape | src/components/CreateInvoicePage.tsx:227 | the name starts with the document type and `_`, then the document number, and ends in ".pdf" |
| InvoicePage.LayoutParts | src/components/CreateInvoicePage.tsx:152-224 | a command is on the page iff it belongs to the header, delivery, table head, rows or totals part |
| InvoicePage.TotalsLabels | src/components/CreateInvoicePage.tsx:207-216 | the "TVA: " and "Timbre Fiscal: " totals lines exist iff VAT, resp. the stamp, is on |
| InvoicePage.VatColumnIff | src/components/CreateInvoicePage.tsx:188-201 | something is drawn at x = 150 iff VAT is on and per line |
| InvoicePage.DeliveryLineIff | src/components/CreateInvoicePage.tsx:179-181 | something is drawn at (20, 106) iff a delivery date was entered |
| InvoicePage.VatTotalLineIff | src/components/CreateInvoicePage.tsx:209-212 | the page has a "TVA: " line at x = 140 iff VAT is on |
| InvoicePage.StampLineIff | src/components/CreateInvoicePage.tsx:213-216 | the page has a "Timbre Fiscal: " line at x = 140 iff the stamp is on |
| InvoicePage.Editor.constructor | src/components/CreateInvoicePage.tsx:47-85 | the initial page state: invoice, TND, "2024-001", today, default settings and company, one blank row |
| InvoicePage.Editor.AddItem | src/components/CreateInvoicePage.tsx:99-107 | the new rows are `AddedItems` of the old ones; the row invariant is kept |
| InvoicePage.Editor.RemoveItem | src/components/CreateInvoicePage.tsx:109-113 | the new rows are `RemovedItems` of the old ones; the row invariant is kept |
| Seqs.RemoveIndex | src/components/CreateInvoicePage.tsx:111 | `filter((_, i) => i !== index)` is the list without the element at `index`, and the list itself for an index out of range |
| InvoicePage.Editor.UpdateItem | src/components/CreateInvoicePage.tsx:115-124 | copy, write the field, recompute `totalHT`: the rows become `UpdatedItems`; the row invariant is kept |
| InvoicePage.Editor.TotalsBlock | src/components/CreateInvoicePage.tsx:206-224 | the cursor-driven totals lines are exactly `TotalsCmds` below the last row |
| InvoicePage.Editor.GeneratePdf | src/components/CreateInvoicePage.tsx:152-228 | the `forEach` loop with `y += 10` draws exactly `Layout` of the page, and the file is `type_number_date.pdf` |
| InvoicePage.Editor.DrawRows | src/components/CreateInvoicePage.tsx:193-204 | the `forEach` draws exactly `Rows` of the items, one line per item from y = 130 down, and leaves `y` at `RowY(n)` |
| Billing.StatusText | src/components/BillingDashboard.tsx:110-118 | the label is "Brouillon" iff the status is not one of paid, sent, overdue, cancelled |
| Billing.StatusColor | src/components/BillingDashboard.tsx:100-108 | the colour is yellow iff the status is not one of paid, sent, overdue, cancelled |
| Billing.StatusLookupsAgree | src/components/BillingDashboard.tsx:100-118 | two statuses share a label iff they share a colour; known statuses have distinct labels |
| Billing.Matches | src/components/BillingDashboard.tsx:120-125 | the filter predicate; stated by `MatchesIff` |
| Billing.FilteredInvoices | src/components/BillingDashboard.tsx:120-126 | `filteredInvoices`; stated by `FilteredIff`, `FilteredKeepsOrder` and `UnfilteredShowsAll` |
| Billing.MatchesIff | src/components/BillingDashboard.tsx:120-126 | a record passes iff the lowered term occurs in its lowered client or number and both selects accept it |
| Billing.FilteredIff | src/components/BillingDashboard.tsx:120-126 | a record is shown iff it is listed and passes the search and both selects |
| Billing.FilteredKeepsOrder | src/components/BillingDashboard.tsx:120-126 | the shown records are a subsequence of the list |
| Billing.UnfilteredShowsAll | src/components/BillingDashboard.tsx:77-79 | an empty search with both selects on 'all' shows every record |
| Billing.SumAmounts | src/components/BillingDashboard.tsx:128 | the `reduce` over amounts; stated by `SumAmountsConcat`, `SumAmountsCons` and `SumNonNegative` |
| Billing.AmountWithStatus | src/components/BillingDashboard.tsx:129-131 | the paid, pending and overdue cards; stated by `TotalSplitsByStatus`, `CardsWithinTotal` and `SampleCards` |
| Billing.SumAmountsConcat | src/components/BillingDashboard.tsx:128 | the amount sum adds over concatenation |
| Billing.SumAmountsCons | src/components/BillingDashboard.tsx:128 | the amount sum of a record before a list is its amount plus the rest |
| Billing.TotalSplitsByStatus | src/components/BillingDashboard.tsx:128-131 | the total is paid + pending + overdue + the amount of all other records |
| Billing.SumNonNegative | src/components/BillingDashboard.tsx:128 | non-negative amounts sum to a non-negative total |
| Billing.FilterNonNegative | src/components/BillingDashboard.tsx:129-131 | any filtered part of non-negative amounts sums to ≥ 0 |
| Billing.CardsWithinTotal | src/components/BillingDashboard.tsx:128-131 | with no negative amount each card is ≥ 0 and paid + pending + overdue ≤ total |
| Billing.SampleCards | src/components/BillingDashboard.tsx:34-75 | the initial records give total 8350, paid 2500, pending 1200, overdue 3800 |
| Billing.Pad3 | src/components/BillingDashboard.tsx:136 | `padStart(3, '0')` leaves long strings alone and pads short ones to three with leading zeros |
| Billing.DocumentNumber | src/components/BillingDashboard.tsx:136 | the new document number; stated by `DocumentNumberSuffix`, `DocumentNumberPrefix` and the two examples |
| Billing.DocumentNumberSuffix | src/components/BillingDashboard.tsx:136 | the number ends in "-" and at least three digits reading `length + 1` |
| Billing.DocumentNumberPrefix | src/components/BillingDashboard.tsx:136 | the number starts with "DEV-" iff the document is a quote |
| Billing.InvoiceNumberExample | src/components/BillingDashboard.tsx:136 | the fifth invoice of 2024 is "2024-005" |
| Billing.QuoteNumberExample | src/components/BillingDashboard.tsx:136 | the twelfth document of 2025, a quote, is "DEV-2025-012" |
| Billing.NewInvoice | src/components/BillingDashboard.tsx:134-143 | the new record is a draft with the payload's client, amount, due date and type, today's date, the clock as id and the length-based number |
| Billing.CreateRaisesOnlyTotal | src/components/BillingDashboard.tsx:128-144 | appending a draft raises the total by its amount and leaves every other status's sum alone |
| Billing.NumbersRepeatAfterDeletion | src/components/BillingDashboard.tsx:136 | after one deletion, the next document of the same type gets the number of the last created one, which is still listed |
| Billing.Deleted | src/components/BillingDashboard.tsx:153-155 | exactly the records with another id stay, each as often as before |
| Billing.DeletedKeepsOrder | src/components/BillingDashboard.tsx:153-155 | the kept records keep their order, and deleting twice is deleting once |
| Billing.DeleteMissingIsNoop | src/components/BillingDashboard.tsx:153-155 | deleting an id no record has changes nothing |
| Billing.StatusChanged | src/components/BillingDashboard.tsx:157-161 | same length; matching records get the new status with all else kept; other records are unchanged |
| Billing.StatusChangeKeepsTotal | src/components/BillingDashboard.tsx:157-161 | a status change keeps the total, and repeating it changes nothing more |
| Billing.BillingDashboard.constructor | src/components/BillingDashboard.tsx:34-79 | the initial four records, an empty search and both selects on 'all' |
| Billing.BillingDashboard.SetFilters | src/components/BillingDashboard.tsx:77-79 | the search box and the two selects hold the values entered |
| Billing.BillingDashboard.CreateInvoice | src/components/BillingDashboard.tsx:133-146 | the list becomes the old list plus exactly the `NewInvoice` record at the end |
| Billing.BillingDashboard.DeleteInvoice | src/components/BillingDashboard.tsx:153-155 | the list becomes `Deleted` of the old one |
| Billing.BillingDashboard.ChangeStatus | src/components/BillingDashboard.tsx:157-161 | the list becomes `StatusChanged` of the old one |
| QuickCreate.TotalAmount | src/components/CreateInvoiceModal.tsx:87 | the running total; stated by `TotalAmountConcat`, `TotalAmountNonNegative` and the add, remove and update lemmas |
| QuickCreate.TotalAmountConcat | src/components/CreateInvoiceModal.tsx:87 | the `quantity × price` total adds over concatenation |
| QuickCreate.TotalAmountNonNegative | src/components/CreateInvoiceModal.tsx:87 | no negative quantity or price gives a non-negative total |
| QuickCreate.AddedItems | src/components/CreateInvoiceModal.tsx:67-72 | one blank article (qty 1, price 0) at the end, prefix unchanged |
| QuickCreate.EditedItem | src/components/CreateInvoiceModal.tsx:76 | the edit sets exactly the named field |
| QuickCreate.UpdatedItems | src/components/CreateInvoiceModal.tsx:74-78 | same length, the edited article at the index and every other unchanged |
| QuickCreate.AddKeepsTotal | src/components/CreateInvoiceModal.tsx:67-72 | a blank article adds nothing to the total |
| QuickCreate.RemoveSubtractsLine | src/components/CreateInvoiceModal.tsx:80-85 | removing article i takes its line total off the total |
| QuickCreate.UpdateShiftsTotal | src/components/CreateInvoiceModal.tsx:74-78 | editing one article moves the total by the change of its line total |
| QuickCreate.ItemLinesLength | src/components/CreateInvoiceModal.tsx:45-52 | one line per article |
| QuickCreate.ItemLineNumbered | src/components/CreateInvoiceModal.tsx:47 | the line of article i starts with "i+1. " |
| QuickCreate.ItemLineAt | src/components/CreateInvoiceModal.tsx:42-52 | article i is drawn at (10, 60 + 10 i) |
| QuickCreate.SubmitLayout | src/components/CreateInvoiceModal.tsx:31-55 | the text commands of the submitted PDF; stated by `LayoutPlacement` and `ItemLineAt` |
| QuickCreate.LayoutPlacement | src/components/CreateInvoiceModal.tsx:31-55 | four header lines, one line per article in order, then the total line one blank line below the last |
| QuickCreate.PayloadOf | src/components/CreateInvoiceModal.tsx:55-64 | the object handed to the dashboard; stated by `PayloadMatchesPage` |
| QuickCreate.PayloadMatchesPage | src/components/CreateInvoiceModal.tsx:55-64 | the payload carries the form's fields and, as amount, the total printed on the page |
| QuickCreate.Form.constructor | src/components/CreateInvoiceModal.tsx:11-18 | the initial form: invoice, empty fields, one blank article |
| QuickCreate.Form.Fill | src/components/CreateInvoiceModal.tsx:11-18 | the type, client and due-date inputs change those fields only |
| QuickCreate.Form.AddItem | src/components/CreateInvoiceModal.tsx:67-72 | the articles become `AddedItems` of the old ones, with an unchanged total |
| QuickCreate.Form.UpdateItem | src/components/CreateInvoiceModal.tsx:74-78 | the articles become `UpdatedItems` of the old ones |
| QuickCreate.Form.RemoveItem | src/components/CreateInvoiceModal.tsx:80-85 | the article at the index goes, with no guard, and an out-of-range index changes nothing |
| QuickCreate.Form.DrawItems | src/components/CreateInvoiceModal.tsx:42-52 | the `forEach` with `y += 10` draws exactly the article lines and leaves `y = 60 + 10 n` |
| QuickCreate.Form.Submit | src/components/CreateInvoiceModal.tsx:20-65 | the page is `SubmitLayout`, the file is `type_client_today.pdf`, the payload is `PayloadOf` the form |
| InvoiceApi.ViolationsStep | invoice-api/controllers/invoiceController.js:9-22 | checking one more rule appends its message iff it fails |
| InvoiceApi.ViolationsOfAllRules | invoice-api/controllers/invoiceController.js:9-22 | the error list is the failed rules' messages, rule by rule in source order |
| InvoiceApi.Validate | invoice-api/controllers/invoiceController.js:5-25 | what `validateInvoiceData` returns or that it throws; stated by `ValidateReportsAll`, `CaseInsensitive` and `UpdateIgnoresOwnerFields` |
| InvoiceApi.ValidateInvoiceData | invoice-api/controllers/invoiceController.js:5-25 | the step-by-step pushes return exactly `Validate`: the ordered messages of the failed rules, or a throw |
| InvoiceApi.CheckRequired | invoice-api/controllers/invoiceController.js:9-11 | the owner fields (on create only) and `number` report their messages when falsy |
| InvoiceApi.CheckNames | invoice-api/controllers/invoiceController.js:12-17 | it throws iff a truthy type or status is not a string; otherwise it appends the type and status messages of their failed rules |
| InvoiceApi.CheckTotalAndDue | invoice-api/controllers/invoiceController.js:18-19 | it appends the messages of the failed `total_ttc` and `due_date` rules, in order |
| InvoiceApi.CheckOptionalAmounts | invoice-api/controllers/invoiceController.js:20-22 | it appends the messages of the failed `encaissé`, `en_attente` and `en_retard` rules, in order |
| InvoiceApi.CheckOptionalAmount | invoice-api/controllers/invoiceController.js:20-22 | one optional amount: its message is appended exactly when the amount is present and NaN or negative |
| InvoiceApi.MessageNamesRule | invoice-api/controllers/invoiceController.js:9-22 | each message's first characters identify its rule |
| InvoiceApi.MessagesDistinct | invoice-api/controllers/invoiceController.js:9-22 | two rules share a message iff they are the same rule |
| InvoiceApi.ViolationsMembers | invoice-api/controllers/invoiceController.js:9-22 | a message is reported iff its rule is checked and fails |
| InvoiceApi.ViolationsDistinct | invoice-api/controllers/invoiceController.js:9-22 | no message is reported twice |
| InvoiceApi.EveryRuleChecked | invoice-api/controllers/invoiceController.js:9-22 | every rule is among the checks |
| InvoiceApi.ValidateReportsAll | invoice-api/controllers/invoiceController.js:5-25 | without a throw: the list is empty iff no rule fails, holds a rule's message iff that rule fails, and has no repeats |
| InvoiceApi.NoViolationsNoMessages | invoice-api/controllers/invoiceController.js:24 | with no failed rule the list is empty |
| InvoiceApi.UpdateIgnoresOwnerFields | invoice-api/controllers/invoiceController.js:9-10 | on update, `user_id` and `contract_id` never matter |
| InvoiceApi.ViolationsAgree | invoice-api/controllers/invoiceController.js:9-22 | records failing the same rules get the same list |
| InvoiceApi.CaseInsensitive | invoice-api/controllers/invoiceController.js:12-17 | lower-casing `type` and `status` first changes no outcome |
| InvoiceApi.UpperCaseNamesAccepted | invoice-api/controllers/invoiceController.js:12-17 | "PAYÉE" and "Facture" pass |
| InvoiceApi.UnknownNamesRejected | invoice-api/controllers/invoiceController.js:12-17 | "draft", "invoice" and a missing status fail |
| InvoiceApi.Create | invoice-api/controllers/invoiceController.js:28-68 | `createInvoice`; stated by `CreateRejects`, `CreateStores` and `CreatedAmountsAreNumbers` |
| InvoiceApi.CreateRejects | invoice-api/controllers/invoiceController.js:47-50 | a body with errors gets 400 with every message, and nothing is stored |
| InvoiceApi.CreateStores | invoice-api/controllers/invoiceController.js:28-68 | 201 iff the body validates and the new id is fresh; the row is stored as built, and on any other outcome the table is unchanged |
| InvoiceApi.CreatedAmountsAreNumbers | invoice-api/controllers/invoiceController.js:42-44 | the three optional amounts of a built row are numbers, rejected only when they parse negative |
| InvoiceApi.GetById | invoice-api/controllers/invoiceController.js:90-108 | `getInvoiceById`; stated by `GetFinds` |
| InvoiceApi.GetFinds | invoice-api/controllers/invoiceController.js:90-108 | 404 iff the id is not a key, otherwise 200 with that row |
| InvoiceApi.Update | invoice-api/controllers/invoiceController.js:111-150 | `updateInvoice`; stated by `UpdateOutcomes`, `UpdateThrowIsServerError` and `UpdateRewritesOneRow` |
| InvoiceApi.UpdateOutcomes | invoice-api/controllers/invoiceController.js:111-150 | 400 iff the body has errors, 404 iff it has none and the id is unknown, 200 iff none and known; only 200 changes the table |
| InvoiceApi.UpdateThrowIsServerError | invoice-api/controllers/invoiceController.js:111-150 | update answers 500 exactly when a truthy non-string `type` or `status` makes `toLowerCase` throw, and then leaves the table unchanged |
| InvoiceApi.UpdateRewritesOneRow | invoice-api/controllers/invoiceController.js:135-145 | an update keeps the keys, rewrites that row's columns but not its owner fields, and touches no other row |
| InvoiceApi.Delete | invoice-api/controllers/invoiceController.js:153-165 | `deleteInvoice`; stated by `DeleteOutcomes` |
| InvoiceApi.DeleteOutcomes | invoice-api/controllers/invoiceController.js:153-165 | 204 iff the id exists, 404 iff not; exactly that key goes; a second delete is 404 |
| InvoiceApi.InvoiceTable.constructor | invoice-api/controllers/invoiceController.js:2 | the table starts with the given rows |
| InvoiceApi.InvoiceTable.CreateInvoice | invoice-api/controllers/invoiceController.js:28-68 | reply and new table are `Create` of the old table |
| InvoiceApi.InvoiceTable.GetInvoiceById | invoice-api/controllers/invoiceController.js:90-108 | the reply is `GetById`, 404 iff the id is missing |
| InvoiceApi.InvoiceTable.UpdateInvoice | invoice-api/controllers/invoiceController.js:111-150 | reply and new table are `Update` of the old table |
| InvoiceApi.InvoiceTable.DeleteInvoice | invoice-api/controllers/invoiceController.js:153-165 | reply and new table are `Delete` of the old table |
| Dashboard.MissingFieldIsZero | src/components/Dashboard.tsx:26 | an absent or falsy field reads as 0 |
| Dashboard.SumField | src/components/Dashboard.tsx:25-40 | one `reduce` with `parseFloat` of the field or 0; stated by `SumFieldSnoc`, `SumFieldConcat`, `SumFieldNonNegative` and `SumFieldNaN` |
| Dashboard.SumFieldSnoc | src/components/Dashboard.tsx:25-28 | one more row adds its field to the sum |
| Dashboard.MissingFieldChangesNothing | src/components/Dashboard.tsx:25-40 | a row without the field changes no sum |
| Dashboard.PlusAssociative | src/components/Dashboard.tsx:26 | NaN-absorbing addition is associative |
| Dashboard.SumFieldConcat | src/components/Dashboard.tsx:25-40 | the fold over two runs of rows combines their partial sums |
| Dashboard.SumFieldNonNegative | src/components/Dashboard.tsx:25-40 | non-negative numeric fields give a non-negative numeric sum |
| Dashboard.SumFieldNaN | src/components/Dashboard.tsx:25-40 | a sum is NaN iff some row's field fails to parse |
| Dashboard.Summarize | src/components/Dashboard.tsx:25-47 | the four sums of the summary; stated by `EmptySummary`, `SummaryNonNegative` and `SummaryConcat` |
| Dashboard.EmptySummary | src/components/Dashboard.tsx:11-16 | with no rows the four amounts are the initial zeros |
| Dashboard.SummaryNonNegative | src/components/Dashboard.tsx:25-47 | non-negative numeric fields make all four amounts non-negative numbers |
| Dashboard.SummaryConcat | src/components/Dashboard.tsx:25-47 | the summary of two runs adds field by field |
| Dashboard.WholeNumberStringParses | src/components/Dashboard.tsx:26 | a whole number sent as a string, "0" included, reads as its value |
| Dashboard.StatusColor | src/components/Dashboard.tsx:58-73 | green iff the lowered status is 'payée', yellow iff 'en_attente'/'en attente', red iff 'en_retard'/'en retard', gray otherwise |
| Dashboard.StatusColorCaseInsensitive | src/components/Dashboard.tsx:59 | the colour does not depend on letter case |
| Dashboard.FirstIndex | src/components/Dashboard.tsx:165 | the first index of a character, or the length when it is absent |
| Dashboard.ReplaceFirstAt | src/components/Dashboard.tsx:165 | `replace` changes the first occurrence only, and changes nothing without one |
| Dashboard.ReplaceFirstPointwise | src/components/Dashboard.tsx:165 | `replace` keeps the length and every character except the first occurrence, which becomes the replacement |
| Dashboard.StatusLabel | src/components/Dashboard.tsx:165 | the badge text; stated by `ReplaceFirstAt` and the label lemmas below |
| Dashboard.StatusLabelExamples | src/components/Dashboard.tsx:165 | "en_attente" shows "en attente", "en_retard" "en retard", "payée" itself, and "a_b_c" "a b_c" |
| Dashboard.LowerLabel | src/components/Dashboard.tsx:59-165 | lower-casing and the replacement commute |
| Dashboard.LabelWithoutSpace | src/components/Dashboard.tsx:165 | a text without a space is the label only of itself |
| Dashboard.LabelWithoutUnderscore | src/components/Dashboard.tsx:165 | a status without an underscore is its own label |
| Dashboard.LabelWithOneSpace | src/components/Dashboard.tsx:165 | `p + " " + q`, with no other space and no underscore, is the label exactly of itself and of `p + "_" + q` |
| Dashboard.LabelIsPaid | src/components/Dashboard.tsx:60-61 | only "payée" is labelled "payée" |
| Dashboard.LabelIsPending | src/components/Dashboard.tsx:62-64 | exactly the two pending spellings get a pending label |
| Dashboard.LabelIsLate | src/components/Dashboard.tsx:65-67 | exactly the two late spellings get a late label |
| Dashboard.LabelKeepsColor | src/components/Dashboard.tsx:58-73 | the badge text gets the same colour as the status it shows |

## Left out

- Rendering, React hooks and modals: the page state is a set of class fields. Every
  setter the modelled operations use is a method.
- Network, database, clock and identifiers:
  - The axios fetch, the loading and error flags, `console` logging and the MySQL
    driver are not modelled.
  - The connection pool always exists, so `if (!db)` never throws.
  - The SQL table is a map from id to row.
  - `UUID()`, `Date.now()`, the current year and today's date are parameters.
  - A clash of `UUID()` with a stored id is answered 500.
  - The `insertId` in the 201 body is not modelled.
- `getAllInvoices` and its `ORDER BY created_at DESC` are not modelled. MySQL's column
  coercions and collation are not modelled either; ids compare exactly.
- For `updateInvoice`, "rows affected" is taken as "the id exists". This matches the
  driver's found-rows default.
- The 500 replies carry no `details` message.
  - A truthy non-string `type` or `status` makes `toLowerCase` throw; the model answers
    500.
- Formatting and fonts are symbolic pieces in the text commands:
  - `toFixed(2)` and `Math.round((totalTTC % 1) * 1000)`;
  - `toLocaleString` in Dashboard.tsx;
  - jsPDF font sizes.

  Arithmetic is exact on `real`, not IEEE doubles.
- Strings.Lower: it lowers ASCII and Latin-1 capitals only, not the rest of Unicode.
- Js.StringToNumber and Js.ParseFloat read plain decimals only, such as `±digits[.digits]`.
  - They do not read exponents, hex, `Infinity`, or JSON arrays and objects as field
    values.
  - `parseFloat(true)` and similar give NaN, as in JavaScript.
  - The whitespace they skip is ECMAScript's whole set: `Js.IsWhitespace` holds for
    tab, vertical tab, form feed, U+FEFF, every Zs space separator and the four line
    terminators.
- InvoicePage.UpdatedItems, InvoicePage.Editor.UpdateItem, QuickCreate.UpdatedItems and
  QuickCreate.Form.UpdateItem require an index inside the list. The pages only call
  `updateItem` with the index of a rendered row.
- InvoicePage.Editor: the other inputs of the page (`setSettings`, company and client
  inputs, number and dates) are plain field assignments and are not methods here.
  `language` is unused by the modelled logic.
- InvoiceDetailsModal.tsx is not part of this model. Its status lookups repeat
  `Billing.StatusText`/`Billing.StatusColor`, and its buttons call `handleStatusChange`.
- `getStatusIcon` and the other markup of BillingDashboard.tsx are not modelled: they are
  icons only.
- InvoiceApi.ValidateInvoiceData: its checks are split across four helper methods
  (`CheckRequired`, `CheckNames`, `CheckTotalAndDue`, `CheckOptionalAmounts`), called in source order. It pushes
  `Message(rule)`, whose text is the source's message split into the field name and the
  rest.
