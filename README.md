# Imperial Book Binding invoicing, modelled in Dafny

Imperial Book Binding's invoicing application has two halves:

- a Spring backend that stores customers, invoices, invoice items and payments in SQLite through JPA repositories;
- a React front end of five pages.

This project models the part of both halves that computes things.

- **Invoice numbering.** `InvoiceNumberService` keeps one counter per year. Each call bumps the counter and formats `IB-<year>-<4-digit sequence>`.
- **Invoice creation.** `InvoiceService.createInvoice` looks the customer up and takes one number. It stores one item row per requested item, with amount quantity × rate, and saves the invoice with the sum of those amounts as its subtotal.
- **The customer ledger.** `CustomerService` and `PaymentService` record payments. A balance is derived, never stored: the sum of the customer's invoice subtotals minus the sum of the customer's payments, each sum 0 over no rows.
- **The pages' own logic.**
  - CreateInvoice: the item-row editor, the live total, validation, and what a submit sends and resets.
  - Customers: the name check in the add form, the receivable/payable/settled sign convention, and the receivable, payable and outstanding cards.
  - Payments: the payment form's checks and reset, the customer dropdown, and the selected-customer panel.
  - AllInvoices: the search and customer filter, and their total.
  - Home: the revenue and receivable cards, and the five most recent invoices.

## How the model is organised

| file | module | contents |
|---|---|---|
| `wrappers.dfy` | `Wrappers` | `Option` and `Result` (a failure carries the exception message) |
| `entities.dfy` | `Entities` | the JPA entities and DTOs as datatypes |
| `text.dfy` | `Text` | decimal digits, `%04d` padding, JavaScript `trim`, `toLowerCase` and `includes` |
| `filtering.dfy` | `Filtering` | `Array.prototype.filter` and order-preserving subsequences |
| `store.dfy` | `Store` | the database: a `Database` class with one sequence-valued field per table, and the repository saves as its methods |
| `ledger.dfy` | `Ledger` | the two `COALESCE(SUM(…), 0)` repository queries |
| `invoice_numbering.dfy` | `InvoiceNumbering` | `InvoiceNumberService` as a class over a year → counter map; parsing numbers back; successive calls |
| `customer_service.dfy` | `CustomerService` | `create`, `getAll`, `getById`, `getBalance`, `getCustomersWithBalance` |
| `invoice_service.dfy` | `InvoiceService` | `createInvoice`, its item loop, and the uniqueness of stored numbers |
| `payment_service.dfy` | `PaymentService` | `recordPayment` |
| `summaries.dfy` | `Summaries` | the figures several pages share: sign convention, receivable, payable, outstanding, sums of totals |
| `create_invoice_page.dfy`, `customers_page.dfy`, `payments_page.dfy`, `all_invoices_page.dfy`, `home_page.dfy` | one module per page | each page's state as a class, and its derived values as functions |

The shape of the model follows the code:

- The services and the pages' event handlers change state step by step. They are methods on classes whose contracts give the whole new state.
  - The repository tables are fields of `Store.Database`.
  - The year counters are a field of `InvoiceNumberService`.
  - Each page's React state is a field of the page's class.
- The `for` loop of `createInvoice` is a Dafny `for` loop with invariants. It is proved against the specification functions `StoredRows` and `Subtotal`.
- Everything the source computes with `filter`, `reduce`, streams or conditionals is a function. Its properties are lemmas.

Row ids are those SQLite generates for an `IDENTITY` column when no row is ever deleted: the row's position plus one. `Store.Database.Valid` states this together with referential integrity and the `unique` constraint on invoice numbers, and every method keeps it. Foreign keys are the referenced row's id, as in the `@ManyToOne(optional = false)` columns.

The clock and the server's answers are parameters:

- `LocalDate.now()` in the backend and `new Date()` in the pages become a `today` or `year` argument. `createInvoice` reads the clock twice: once for the issue date and once, inside the numbering service, for the year. `InvoiceService.CreateInvoice` therefore takes both, and they may disagree across the turn of a year.
- The outcome of a page's POST becomes an `accepted` flag or a `Reply` argument.

The server checks less than the pages do, and the model follows the server's code:

- The server stores items with zero or negative quantity or rate as given. Only the create-invoice page filters them out.
- The server does not check the sign of a payment amount. Only the payments page refuses an amount ≤ 0.
- The create-invoice page's live total sums every row, valid or not, while a submit sends only the valid rows. `CreateInvoicePage.TotalSplits`, `CreateInvoicePage.SentTotalIffDroppedTotalZero` and `CreateInvoicePage.TotalMatchesSentItems` state how the two totals relate.

## Model

| member | source | states |
|---|---|---|
| InvoiceNumbering.InvoiceNumberService.NextInvoiceNumber | Backend/src/main/java/com/imperialbookbinding/app/service/InvoiceNumberService.java:22-38 | The year's counter becomes its old value plus one (0 for a year with no row) and nothing else in the table changes. The result is the invoice number formatted from the year and the new counter. The first call of a year without a row yields sequence number 1. |
| InvoiceNumbering.FormatInvoiceNumber | Backend/src/main/java/com/imperialbookbinding/app/service/InvoiceNumberService.java:37 | `IB-`, the year in decimal, `-`, and the sequence number padded to four digits. `InvoiceNumbering.ParseFormatRoundTrip` and `InvoiceNumbering.FormatInjective` state its properties. |
| InvoiceNumbering.BumpChangesOnlyThatYear | Backend/src/main/java/com/imperialbookbinding/app/service/InvoiceNumberService.java:25-35 | After a call, the year has a row whose counter is one more than before. Every other year's row is present exactly when it was before, with the same counter. |
| InvoiceNumbering.ParseFormatRoundTrip | Backend/src/main/java/com/imperialbookbinding/app/service/InvoiceNumberService.java:37 | An `IB-%d-%04d` number reads back as the year (negative years included) and the sequence number it was formatted from. |
| InvoiceNumbering.FormatInjective | Backend/src/main/java/com/imperialbookbinding/app/service/InvoiceNumberService.java:37 | Two (year, sequence) pairs that format to the same number are the same pair. |
| InvoiceNumbering.Issued | Backend/src/main/java/com/imperialbookbinding/app/service/InvoiceNumberService.java:33-37 | Successive calls issue one (year, sequence) pair per call. Each pair carries that call's year and a sequence number of at least 1. |
| InvoiceNumbering.IssuedAboveStart | Backend/src/main/java/com/imperialbookbinding/app/service/InvoiceNumberService.java:33-34 | Every sequence number a run of calls issues for a year lies above that year's counter when the run started. |
| InvoiceNumbering.IssuedIncreasing | Backend/src/main/java/com/imperialbookbinding/app/service/InvoiceNumberService.java:33-35 | Within one year, later calls return strictly larger sequence numbers. |
| InvoiceNumbering.IssuedNumbersDistinct | Backend/src/main/java/com/imperialbookbinding/app/service/InvoiceNumberService.java:33-37 | Successive calls, in any mix of years, never return the same invoice number string twice. |
| Text.ZeroPad | Backend/src/main/java/com/imperialbookbinding/app/service/InvoiceNumberService.java:37 | `%04d` padding: at least four characters long, the digits kept at the end, only zeros added in front. |
| Text.ZeroPadKeepsValue | Backend/src/main/java/com/imperialbookbinding/app/service/InvoiceNumberService.java:37 | Padding with zeros keeps the string all digits and does not change the number it denotes. |
| Text.DigitsRoundTrip | Backend/src/main/java/com/imperialbookbinding/app/service/InvoiceNumberService.java:37 | The decimal digits of a natural number read back as that number. |
| Store.Database.InsertInvoice | Backend/src/main/java/com/imperialbookbinding/app/service/InvoiceService.java:52 | The first `invoiceRepo.save` appends the invoice with the next generated id, for an existing customer, exactly when no stored invoice has its number. Otherwise the `unique` constraint of Invoice.java:27 refuses it and nothing changes. Validity is kept and the other tables are unchanged. |
| Store.Database.UpdateInvoice | Backend/src/main/java/com/imperialbookbinding/app/service/InvoiceService.java:73 | Saving an invoice that already has an id replaces that row and nothing else, and validity is kept. The number must differ from every other row's. |
| Store.Database.InsertItem | Backend/src/main/java/com/imperialbookbinding/app/service/InvoiceService.java:67 | `itemRepo.save` appends the item with the next generated id on an existing invoice. Validity is kept and the other tables are unchanged. |
| Store.Database.InsertPayment | Backend/src/main/java/com/imperialbookbinding/app/service/PaymentService.java:47 | `paymentRepo.save` appends the payment with the next generated id. Validity is kept and the other tables are unchanged. |
| Store.AppendInvoiceKeepsValid | Backend/src/main/java/com/imperialbookbinding/app/service/InvoiceService.java:52 | An invoice row with the next id, for an existing customer and with a number no stored invoice has, keeps ids generated, foreign keys resolvable and numbers distinct. |
| Store.AppendItemKeepsValid | Backend/src/main/java/com/imperialbookbinding/app/service/InvoiceService.java:67 | An item row with the next id, on an existing invoice, keeps the tables valid. |
| Store.AppendPaymentKeepsValid | Backend/src/main/java/com/imperialbookbinding/app/service/PaymentService.java:47 | A payment row with the next id, for an existing customer and an existing invoice if it names one, keeps the tables valid. |
| Store.FindCustomer | Backend/src/main/java/com/imperialbookbinding/app/service/CustomerService.java:35 | `findById` finds a stored customer with that id, or reports that no stored customer has it. |
| Store.FindInvoice | Backend/src/main/java/com/imperialbookbinding/app/service/PaymentService.java:42-43 | `findById` finds a stored invoice with that id, or reports that no stored invoice has it. |
| CustomerService.Create | Backend/src/main/java/com/imperialbookbinding/app/service/CustomerService.java:26-28 | The customer is appended under the next generated id, and afterwards `getAll` contains the saved customer. The other tables are unchanged and validity is kept. |
| CustomerService.GetById | Backend/src/main/java/com/imperialbookbinding/app/service/CustomerService.java:34-37 | A success is a stored customer with the requested id. A failure carries "Customer not found" and happens only when no stored customer has that id. |
| CustomerService.GetByIdFindsStoredIds | Backend/src/main/java/com/imperialbookbinding/app/service/CustomerService.java:34-37 | Under generated ids, `getById` succeeds exactly for the ids 1 to the number of customers. |
| CustomerService.BalanceZeroWithoutRows | Backend/src/main/java/com/imperialbookbinding/app/service/CustomerService.java:38-42 | A customer with no invoice and no payment has balance 0. |
| CustomerService.BalanceAfterInvoice | Backend/src/main/java/com/imperialbookbinding/app/service/CustomerService.java:38-42 | A new invoice row raises its own customer's balance by its subtotal and leaves every other balance unchanged. |
| CustomerService.BalanceAfterPayment | Backend/src/main/java/com/imperialbookbinding/app/service/CustomerService.java:38-42 | A new payment row lowers its own customer's balance by its amount and leaves every other balance unchanged. |
| CustomerService.GetCustomersWithBalance | Backend/src/main/java/com/imperialbookbinding/app/service/CustomerService.java:44-54 | One record per stored customer, in table order. Id, name, email and phone are copied, and the balance is `getBalance` of that id. |
| Ledger.InvoicesOf | Backend/src/main/java/com/imperialbookbinding/app/repository/InvoiceRepository.java:13-18 | The `WHERE i.customer.id = :customerId` rows: exactly the invoices of that customer, no more rows than the table. |
| Ledger.PaymentsOf | Backend/src/main/java/com/imperialbookbinding/app/repository/PaymentRepository.java:10-15 | The `WHERE p.customer.id = :customerId` rows: exactly the payments of that customer. |
| Ledger.TotalInvoicedAppend | Backend/src/main/java/com/imperialbookbinding/app/repository/InvoiceRepository.java:13-18 | A new invoice adds its subtotal to its own customer's total invoiced and nothing to anyone else's. |
| Ledger.TotalPaidAppend | Backend/src/main/java/com/imperialbookbinding/app/repository/PaymentRepository.java:10-15 | A new payment adds its amount to its own customer's total paid and nothing to anyone else's. |
| Ledger.TotalInvoiced | Backend/src/main/java/com/imperialbookbinding/app/repository/InvoiceRepository.java:13-18 | `totalInvoicedForCustomer`: the sum of the subtotals of that customer's invoices, 0 over none. Its properties are `Ledger.TotalInvoicedAppend` and `Ledger.TotalsZeroWithoutRows`. |
| Ledger.TotalPaid | Backend/src/main/java/com/imperialbookbinding/app/repository/PaymentRepository.java:10-15 | `totalPaidByCustomer`: the sum of the amounts of that customer's payments, 0 over none. Its properties are `Ledger.TotalPaidAppend` and `Ledger.TotalsZeroWithoutRows`. |
| CustomerService.GetBalance | Backend/src/main/java/com/imperialbookbinding/app/service/CustomerService.java:38-42 | `getBalance`: total invoiced minus total paid for the customer. Its properties are the `CustomerService.Balance…` lemmas. |
| Ledger.TotalsZeroWithoutRows | Backend/src/main/java/com/imperialbookbinding/app/repository/InvoiceRepository.java:14 | With no matching rows both sums are 0, as the `COALESCE(…, 0)` makes them. |
| InvoiceService.CreateInvoice | Backend/src/main/java/com/imperialbookbinding/app/service/InvoiceService.java:36-74 | The call succeeds exactly when the customer exists and no stored invoice has the next number. An unknown customer fails with "Customer not found". A number already stored fails with the duplicate-number error, and the rollback also undoes the counter bump. A failure leaves the tables and the counter as they were. When every stored number was issued by the counter, the call succeeds exactly when the customer exists, and every stored number stays issued. On success, the call takes exactly one number from the numbering service, appends exactly one invoice (next id, that number formatted in the numbering year, dated by the first clock reading, the request's notes, status "ISSUED", subtotal the sum of quantity × rate), and appends one item row per requested item. Customers and payments are unchanged. |
| InvoiceService.IssueInvoice | Backend/src/main/java/com/imperialbookbinding/app/service/InvoiceService.java:41-73 | Once the customer is known: the save succeeds exactly when no stored invoice has the next number of the numbering year. A refused save leaves the tables unchanged and restores the counter, as the transaction's rollback does. On success, the numbering year's counter is bumped and the new invoice, with the number formatted from that year and counter and the issue date from the other clock reading, is the only invoice row added. Its item rows follow the old ones. |
| InvoiceService.SaveInvoice | Backend/src/main/java/com/imperialbookbinding/app/service/InvoiceService.java:49-73 | The first save is refused, changing nothing, exactly when a stored invoice already has the number. Otherwise the invoice is saved twice and ends as one new row with the given number, today, the notes, "ISSUED" and the subtotal of its items. The item table grows by exactly the stored rows of the request. |
| InvoiceService.SaveItems | Backend/src/main/java/com/imperialbookbinding/app/service/InvoiceService.java:54-68 | The loop appends exactly `StoredRows`: one row per request item, in request order, on the new invoice, nothing filtered. It returns their subtotal, 0 for no items. |
| InvoiceService.ItemAmount | Backend/src/main/java/com/imperialbookbinding/app/service/InvoiceService.java:63 | The amount of a requested item: its integer quantity times its rate, whatever their signs. |
| InvoiceService.StoredRows | Backend/src/main/java/com/imperialbookbinding/app/service/InvoiceService.java:56-68 | The rows the loop stores: exactly one per requested item, so as many rows as items. `InvoiceService.StoredRowsAt` gives each row's contents. |
| InvoiceService.Subtotal | Backend/src/main/java/com/imperialbookbinding/app/service/InvoiceService.java:54-70 | The subtotal of the requested items: the sum of their amounts, 0 for none. `InvoiceService.SubtotalIsSumOfStoredRows` ties it to the stored rows. |
| InvoiceService.StoredRowsAt | Backend/src/main/java/com/imperialbookbinding/app/service/InvoiceService.java:56-64 | Row k stored by the loop comes from request item k, with the next id, the invoice's id, the same description, quantity and rate, and amount quantity × rate. |
| InvoiceService.SubtotalIsSumOfStoredRows | Backend/src/main/java/com/imperialbookbinding/app/service/InvoiceService.java:63-70 | The invoice subtotal equals the sum of the amounts of the item rows stored for it. |
| InvoiceService.NumbersUniqueMeansPairwise | Backend/src/main/java/com/imperialbookbinding/app/entity/Invoice.java:27-28 | The recursive uniqueness invariant on stored invoice numbers holds exactly when no two stored invoices share a number (`Store.NumbersDistinct`, the table's constraint), in both directions. |
| InvoiceService.IssuedNumberIsNotNext | Backend/src/main/java/com/imperialbookbinding/app/service/InvoiceNumberService.java:33-37 | A number already issued stays issued after another call and differs from the number that call returns. |
| InvoiceService.NextNumberIsFresh | Backend/src/main/java/com/imperialbookbinding/app/service/InvoiceService.java:46-47 | When every stored number has been issued, the next number of any year is on no stored invoice, and all stored numbers stay issued after the call. |
| InvoiceService.NumberingKept | Backend/src/main/java/com/imperialbookbinding/app/service/InvoiceService.java:46-52 | An invoice that gets the next number keeps the invariant: every stored number issued and no two stored numbers equal. With `InvoiceService.NextNumberIsFresh`, the `unique` column therefore never refuses the save from such tables. |
| InvoiceService.IssuedTablesKept | Backend/src/main/java/com/imperialbookbinding/app/service/InvoiceService.java:46-52 | When every stored number was issued by the counter, the next number of the year is on no stored invoice, so the `unique` column accepts it, and an invoice that takes it keeps every stored number issued under the bumped counter. |
| InvoiceService.BalancesAfterInvoice | Backend/src/main/java/com/imperialbookbinding/app/service/InvoiceService.java:70-73 | After the new invoice, its customer's balance rises by its subtotal and every other customer's is unchanged. |
| PaymentService.RecordPayment | Backend/src/main/java/com/imperialbookbinding/app/service/PaymentService.java:31-48 | An unknown customer fails with "Customer not found" and an unknown invoice id fails with "Invoice not found", each with nothing saved. Otherwise exactly one payment is appended, with the next id, that customer, the amount unchecked, the given date or today when none is given, and the invoice linked only when an id was given. That customer's balance drops by the amount and every other balance is unchanged. |
| PaymentService.BalancesAfterPayment | Backend/src/main/java/com/imperialbookbinding/app/service/PaymentService.java:47 | After a new payment row, its customer's balance is lower by its amount and every other customer's is unchanged. |
| CreateInvoicePage.CreateInvoiceForm.constructor | Frontend/src/pages/CreateInvoice.tsx:19-25 | The form starts with no customer, a single blank row (empty description, quantity 1, rate 0), no errors and no message. |
| CreateInvoicePage.CreateInvoiceForm.AddItem | Frontend/src/pages/CreateInvoice.tsx:31-33 | One blank row is appended, the existing rows are unchanged and the list stays non-empty. |
| CreateInvoicePage.CreateInvoiceForm.RemoveItem | Frontend/src/pages/CreateInvoice.tsx:35-39 | With more than one row, exactly the row at that index is removed and the others keep their order. With one row, nothing changes, so the list is never empty. |
| CreateInvoicePage.RemoveAt | Frontend/src/pages/CreateInvoice.tsx:37 | Filtering out one index leaves the rows before and after it, in order. An index outside the list removes nothing. |
| CreateInvoicePage.CreateInvoiceForm.UpdateItem | Frontend/src/pages/CreateInvoice.tsx:41-45 | Only the row at the index changes, and in it only the named field. |
| CreateInvoicePage.WithField | Frontend/src/pages/CreateInvoice.tsx:43 | The named field takes the new value and the other two fields keep theirs. |
| CreateInvoicePage.CreateInvoiceForm.SelectCustomer | Frontend/src/pages/CreateInvoice.tsx:126-129 | Choosing a customer replaces the customer and clears only the customer error. |
| CreateInvoicePage.Total | Frontend/src/pages/CreateInvoice.tsx:47-50 | The live total: quantity × rate summed over every row, valid or not, 0 for no rows. |
| CreateInvoicePage.ValidItems | Frontend/src/pages/CreateInvoice.tsx:59 | The rows a submit sends: the rows with a description, quantity > 0 and rate > 0, as an order-preserving subsequence, each as many times as the form has it. |
| Filtering.FilterCounts | Frontend/src/pages/CreateInvoice.tsx:59 | `filter` keeps every element that satisfies the condition as many times as the list has it, and no other element. With the subsequence property this determines the result. |
| Filtering.Filter | Frontend/src/pages/CreateInvoice.tsx:59 | `filter`: an order-preserving subsequence, no longer than the list, holding exactly the elements that satisfy the condition. |
| CreateInvoicePage.Validate | Frontend/src/pages/CreateInvoice.tsx:52-66 | The error object `validateForm` builds: a customer error when no non-zero customer id is chosen, an items error when no row is valid. `CreateInvoicePage.ValidateAcceptsIff` states when it is empty. |
| CreateInvoicePage.TotalFilterSplit | Frontend/src/pages/CreateInvoice.tsx:47-50 | For any condition and its complement, the total of the rows kept plus the total of the rows dropped is the live total. |
| CreateInvoicePage.TotalSplits | Frontend/src/pages/CreateInvoice.tsx:47-50 | The live total over all rows equals the total of the valid rows plus the total of the invalid ones. |
| CreateInvoicePage.SentTotalIffDroppedTotalZero | Frontend/src/pages/CreateInvoice.tsx:47-77 | The live total equals the total of the items a submit sends exactly when the rows left out total zero. Their amounts may cancel, since a row with a negative quantity is left out. |
| CreateInvoicePage.TotalMatchesSentItems | Frontend/src/pages/CreateInvoice.tsx:47-77 | When the invalid rows contribute nothing, the live total equals the total of the items a submit sends. |
| CreateInvoicePage.ValidateAcceptsIff | Frontend/src/pages/CreateInvoice.tsx:52-66 | The form passes validation exactly when a non-zero customer id is chosen and at least one row has a description, quantity > 0 and rate > 0. |
| CreateInvoicePage.CreateInvoiceForm.ValidateForm | Frontend/src/pages/CreateInvoice.tsx:52-66 | The errors become the validation result, the answer is true exactly when there is no error, and nothing else changes. |
| CreateInvoicePage.CreateInvoiceForm.Submit | Frontend/src/pages/CreateInvoice.tsx:68-94 | An invalid form sends nothing and shows its errors. A valid one sends exactly the valid rows, in order. On success the rows reset to one blank row, the customer to none and the errors to none, and the success message shows. On failure the general error shows and the form is kept. |
| CustomersPage.NameMissing | Frontend/src/pages/Customers.tsx:35 | `!name.trim()` holds exactly when every character of the name is ECMAScript white space (the empty name included). |
| Text.TrimEmptyIffBlank | Frontend/src/pages/Customers.tsx:35 | `trim()` yields the empty string exactly when the string is all white space. |
| CustomersPage.CustomersPage.constructor | Frontend/src/pages/Customers.tsx:10-12 | The add form starts empty (name, email and phone all empty), hidden, and with no error. |
| CustomersPage.CustomersPage.AddCustomer | Frontend/src/pages/Customers.tsx:32-54 | A blank or white-space name sets "Customer name is required", sends nothing and keeps the form. Otherwise the form is sent as typed. On success the form is emptied and hidden. On failure "Failed to add customer" shows and the form is kept. |
| Summaries.StatusOf | Frontend/src/pages/Customers.tsx:213-219 | The badge: Receivable above 0, Payable below 0, Settled at 0. `Summaries.StatusAndDisplayDetermineBalance` states what it conveys. |
| Summaries.StatusAndDisplayDetermineBalance | Frontend/src/pages/Customers.tsx:208-219 | The badge (Receivable when > 0, Payable when < 0, Settled otherwise) and the amount shown together give back the balance. |
| Summaries.DisplayedBalance | Frontend/src/pages/Customers.tsx:209 | The amount shown in the balance column is never negative. |
| Summaries.ReceivableAmount | Frontend/src/pages/Customers.tsx:56 | The receivable card, the sum of the strictly positive balances, is never negative. The payments page's `totalReceivable` (Frontend/src/pages/Payments.tsx:78) is the same sum. |
| Summaries.ReceivableIsOwedToShop | Frontend/src/pages/Customers.tsx:56 | The receivable card equals, customer by customer, the sum of what each customer owes the shop. |
| Summaries.PayableAmount | Frontend/src/pages/Customers.tsx:57 | The payable card is never negative, and is the negation of the sum of the strictly negative balances. The payments page's `totalPayable` (Frontend/src/pages/Payments.tsx:79) is the same figure. |
| Summaries.PayableIsOwedByShop | Frontend/src/pages/Customers.tsx:57 | The payable card equals, customer by customer, the sum of what the shop owes each customer. |
| Summaries.OutstandingBalance | Frontend/src/pages/Customers.tsx:157 | The outstanding card is never negative. |
| Summaries.OutstandingIsAbsoluteNet | Frontend/src/pages/Customers.tsx:157 | Receivable minus payable is the sum of all balances, so the outstanding card is the absolute value of that sum. |
| Summaries.SignSplit | Frontend/src/pages/Customers.tsx:56-57 | The sums over the positive and over the negative balances add up to the sum of all balances. |
| PaymentsPage.PaymentsPage.constructor | Frontend/src/pages/Payments.tsx:21-23 | The form starts with no customer, amount 0, today's date and no error. |
| PaymentsPage.PaymentsPage.EnterDate | Frontend/src/pages/Payments.tsx:183 | The date input sets the date, which may be cleared, and nothing else. |
| PaymentsPage.PaymentsPage.EnterAmount | Frontend/src/pages/Payments.tsx:172 | `parseFloat(value) \|\| 0`: the parsed number, or 0 when the text does not parse. Nothing else changes. |
| PaymentsPage.PaymentsPage.RecordPayment | Frontend/src/pages/Payments.tsx:47-75 | With no customer, "Please select a customer" shows and nothing is sent; this check comes before the amount check. An amount ≤ 0 shows "Please enter a valid amount" and sends nothing. Otherwise the customer, amount and date (possibly cleared) are sent, and something is sent exactly in that case. On success the amount resets to 0, the customer to none and the date to today. On failure the server's message shows, or "Failed to record payment" when there is none, and the form is kept. |
| PaymentsPage.FailureText | Frontend/src/pages/Payments.tsx:72 | The server's message when present and non-empty, the fixed fallback otherwise; never empty. |
| PaymentsPage.SelectableCustomers | Frontend/src/pages/Payments.tsx:136 | The dropdown lists exactly the customers with a non-zero balance, as an order-preserving subsequence of the list, each as many times as the list has it. |
| PaymentsPage.LabelOf | Frontend/src/pages/Payments.tsx:138 | The amount an option label shows is never negative. |
| PaymentsPage.LabelDeterminesBalance | Frontend/src/pages/Payments.tsx:138 | The label is "Owes" exactly when the balance is positive, and label plus amount give back the balance, for the listed customers and for a zero balance alike. |
| PaymentsPage.FindById | Frontend/src/pages/Payments.tsx:77 | `find` returns the first customer with that id, or none when no customer has it. |
| PaymentsPage.SelectedCustomer | Frontend/src/pages/Payments.tsx:77 | No customer, or the falsy id 0, selects nothing. Otherwise the selection is a listed customer with that id, and it is missing only when no listed customer has the id. |
| AllInvoicesPage.FilteredInvoices | Frontend/src/pages/AllInvoices.tsx:47-55 | An order-preserving subsequence of the invoices holding exactly those whose lower-cased number or customer name contains the lower-cased term, and whose customer is the selected one when one is selected, each as many times as the list has it. |
| AllInvoicesPage.SelectionKeepsOnlyThatCustomer | Frontend/src/pages/AllInvoices.tsx:52 | With a customer selected, every invoice kept is that customer's. |
| AllInvoicesPage.EmptyFiltersKeepAll | Frontend/src/pages/AllInvoices.tsx:48-52 | An empty search with no customer selected keeps every invoice, in order. |
| AllInvoicesPage.TotalAmount | Frontend/src/pages/AllInvoices.tsx:57 | The total of the filtered invoices. `AllInvoicesPage.TotalAmountSplit` and `AllInvoicesPage.TotalAmountUnfiltered` state its properties. |
| AllInvoicesPage.TotalAmountSplit | Frontend/src/pages/AllInvoices.tsx:57 | The total shown plus the total of the hidden invoices is the total of all invoices. |
| AllInvoicesPage.TotalAmountUnfiltered | Frontend/src/pages/AllInvoices.tsx:57 | With both filters empty, the total shown is the total of all invoices. |
| Summaries.SumTotalsSplit | Frontend/src/pages/AllInvoices.tsx:57 | The totals kept by a filter and by its complement add up to the total of all invoices. |
| Text.Contains | Frontend/src/pages/AllInvoices.tsx:49-50 | `includes` is true exactly when the needle occurs at some offset. |
| Text.Lower | Frontend/src/pages/AllInvoices.tsx:49-50 | The model's `toLowerCase`, on ASCII letters only: the result has no ASCII capital and is the same string as the input up to case. |
| Text.LowerIgnoresCase | Frontend/src/pages/AllInvoices.tsx:49-50 | Two strings lower to the same string exactly when they are the same up to ASCII case, in both directions. This is why comparing lowered strings ignores case. |
| Text.LowerIdempotent | Frontend/src/pages/AllInvoices.tsx:49-50 | Lowering a lowered string changes nothing. |
| AllInvoicesPage.SearchIgnoresCase | Frontend/src/pages/AllInvoices.tsx:48-50 | Search terms that differ only in ASCII case match the same invoices, and the page keeps the same list for them. |
| Filtering.FilterSameCondition | Frontend/src/pages/AllInvoices.tsx:47 | Two conditions that agree on every element keep the same elements. |
| HomePage.TotalRevenue | Frontend/src/pages/Home.tsx:47 | The revenue card: the totals of all invoices summed. `HomePage.RevenueIsUnfilteredTotal` ties it to the invoice list. |
| HomePage.RevenueIsUnfilteredTotal | Frontend/src/pages/Home.tsx:47 | The revenue card equals the invoice list's total amount when nothing is searched for and no customer is selected. |
| HomePage.TotalReceivable | Frontend/src/pages/Home.tsx:48 | The dashboard's receivable figure is never negative. |
| HomePage.TotalReceivableIsOwedToShop | Frontend/src/pages/Home.tsx:48 | The dashboard's receivable figure equals the sum of what each customer owes the shop, the same figure as the customers and payments pages show. |
| HomePage.RecentInvoices | Frontend/src/pages/Home.tsx:50 | `slice(-5).reverse()`: min(5, n) invoices, element k being the k-th from the end, so the newest comes first. |
| HomePage.RecentStartsWithLast | Frontend/src/pages/Home.tsx:50 | The first recent invoice is the last in the list, and every recent invoice is one of the list's. |

## Left out

- Money is exact `real`. The Java `Double` and JavaScript `number` rounding and the `toFixed(2)` display rounding are not modelled.
- Not modelled:
  - date formatting on the pages (`formatDate`), which depends on the JavaScript `Date` parser and the `en-IN` locale;
  - PDF generation and `printInvoice`, which are file and browser I/O;
  - the REST controllers, whose `mapToResponse` only copies fields;
  - data loading (`loadData`, `loadCustomers`, `useEffect`, `Promise.all`);
  - routing, loading flags, the success-message timer and all markup.
- Not modelled: concurrent calls. Calls are sequential. The `@Transactional` rollback is modelled only as its effect: a failed call changes nothing.
- The clock is a parameter. `LocalDate.now()` and the pages' `new Date()` become `today` and `year` arguments. The two readings in `createInvoice` are separate arguments of `InvoiceService.CreateInvoice`.
- Not modelled: the `createdAt` timestamp columns of customers, invoices and payments.
- InvoiceNumbering.InvoiceNumberService.NextInvoiceNumber: the counter is an unbounded natural number. The Java `int` would overflow after 2^31 − 1 invoices in one year, which the model does not capture.
- InvoiceService.CreateInvoice: the refused save is an exception in the source, answered by the server's default error response. The model returns the failure with its own text (`Store.DuplicateNumber`), and the database's error message is not modelled.
- Store.Database.UpdateInvoice: it requires the new number to differ from every other row's. A second save that moves a number onto another row would be refused, which is not modelled. `createInvoice`'s second save keeps the row's own number.
- CustomerService.Create: the saved customer always gets a new id. JPA would update an existing row if the request body carried an existing id, which the model does not capture.
- CustomerService.GetAll: it is the customer table itself and has no contract of its own. `CustomerService.Create` states that the saved customer is in it.
- Null values are not modelled:
  - the `|| 0` and `|| ''` guards on balances, totals, invoice numbers and customer names;
  - the `(i.quantity || 0)` guard on rows.
  Every value the backend sends there is non-null (subtotal and invoice number are `nullable = false`, and balances come from `COALESCE`), and a number input gives a number. NaN is therefore not modelled either.
- Text.Lower: `toLowerCase` is modelled on the ASCII letters only. Unicode case mapping is left out.
- The pages' counts (`totalCustomers`, `totalInvoices`, the "Total Invoices" card) are lengths of the lists shown and have no member of their own. `Filtering.Filter` states that a filtered list is no longer than the original.
- The payments page sends the date input's value, which the user can clear. The page model sends no date then, and the backend's "today when no date is given" branch covers that case. The text of a cleared input, and how the backend's JSON reader turns an empty date into no date, are not modelled. The HTTP endpoint passes no invoice id, and `PaymentService.RecordPayment` still models both branches.
- Not modelled: JSON coercion of request bodies by Jackson, and the select inputs' `Number`/`parseInt` conversions. A chosen customer is an integer id.
