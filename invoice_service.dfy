/** `InvoiceService.createInvoice`: an invoice for an existing customer,
    numbered by the invoice number service, with one stored item per
    requested item and the sum of their amounts as subtotal. */
module InvoiceService {
  import opened Wrappers
  import opened Entities
  import opened Store
  import opened InvoiceNumbering
  import CustomerService

  /** `itemReq.quantity * itemReq.rate`: no item is rejected, whatever the sign. */
  function ItemAmount(request: ItemRequest): real {
    request.quantity as real * request.rate
  }

  /** The row stored for one requested item. */
  function StoredItem(request: ItemRequest, invoiceId: int, id: int): InvoiceItem {
    InvoiceItem(id, invoiceId, request.description, request.quantity, request.rate, ItemAmount(request))
  }

  /** The sum of the amounts of the given item rows. */
  function SumAmounts(items: seq<InvoiceItem>): real {
    if items == [] then 0.0 else SumAmounts(items[..|items| - 1]) + items[|items| - 1].amount
  }

  /** The rows `createInvoice` stores for `requests`: one per request, in
      request order, on invoice `invoiceId`, with ids counting up from
      `firstId`. */
  function StoredRows(requests: seq<ItemRequest>, invoiceId: int, firstId: int): (rows: seq<InvoiceItem>)
    ensures |rows| == |requests|
  {
    if requests == [] then []
    else
      var n := |requests| - 1;
      StoredRows(requests[..n], invoiceId, firstId) + [StoredItem(requests[n], invoiceId, firstId + n)]
  }

  /** Row `k` is stored for request `k`, with id `firstId + k`. */
  lemma {:induction false} StoredRowsAt(requests: seq<ItemRequest>, invoiceId: int, firstId: int, k: nat)
    requires k < |requests|
    ensures StoredRows(requests, invoiceId, firstId)[k] == StoredItem(requests[k], invoiceId, firstId + k)
  {
    var n := |requests| - 1;
    if k < n {
      StoredRowsAt(requests[..n], invoiceId, firstId, k);
    }
  }

  /** One more request, one more row: the loop body's step. */
  lemma StoredRowsStep(requests: seq<ItemRequest>, k: nat, invoiceId: int, firstId: int)
    requires k < |requests|
    ensures StoredRows(requests[..k + 1], invoiceId, firstId)
         == StoredRows(requests[..k], invoiceId, firstId) + [StoredItem(requests[k], invoiceId, firstId + k)]
  {
    assert requests[..k + 1][..k] == requests[..k];
  }

  /** The subtotal of an invoice: the sum of `quantity * rate` over the
      requested items. */
  function Subtotal(requests: seq<ItemRequest>): real {
    if requests == [] then 0.0 else Subtotal(requests[..|requests| - 1]) + ItemAmount(requests[|requests| - 1])
  }

  /** One more request adds its amount: the loop body's step. */
  lemma SubtotalStep(requests: seq<ItemRequest>, k: nat)
    requires k < |requests|
    ensures Subtotal(requests[..k + 1]) == Subtotal(requests[..k]) + ItemAmount(requests[k])
  {
    assert requests[..k + 1][..k] == requests[..k];
  }

  /** The subtotal is the sum of the amounts of the stored rows. */
  lemma {:induction false} SubtotalIsSumOfStoredRows(requests: seq<ItemRequest>, invoiceId: int, firstId: int)
    ensures SumAmounts(StoredRows(requests, invoiceId, firstId)) == Subtotal(requests)
  {
    if requests != [] {
      var n := |requests| - 1;
      SubtotalIsSumOfStoredRows(requests[..n], invoiceId, firstId);
      var rows := StoredRows(requests[..n], invoiceId, firstId);
      assert (rows + [StoredItem(requests[n], invoiceId, firstId + n)])[..n] == rows;
    }
  }

  /** `number` is the number formatted from a year and a sequence number
      that the counter of that year has already reached. */
  ghost predicate NumberIssued(number: string, sequences: Sequences) {
    exists year: int, next: nat :: 1 <= next <= LastNumber(sequences, year) && number == FormatInvoiceNumber(year, next)
  }

  /** Every stored invoice number has been issued. */
  ghost predicate NumbersIssued(invoices: seq<Invoice>, sequences: Sequences) {
    invoices == []
    || (&& NumbersIssued(invoices[..|invoices| - 1], sequences)
        && NumberIssued(invoices[|invoices| - 1].invoiceNumber, sequences))
  }

  /** The `unique` constraint on `invoiceNumber`: no invoice repeats the
      number of an earlier one. */
  ghost predicate NumbersUnique(invoices: seq<Invoice>) {
    invoices == []
    || (&& NumbersUnique(invoices[..|invoices| - 1])
        && forall i :: 0 <= i < |invoices| - 1 ==> invoices[i].invoiceNumber != invoices[|invoices| - 1].invoiceNumber)
  }

  /** `NumbersUnique` says that no two stored invoices share a number, as
      the table's constraint does. */
  lemma {:induction false} NumbersUniqueMeansPairwise(invoices: seq<Invoice>)
    ensures NumbersUnique(invoices) <==> NumbersDistinct(invoices)
  {
    if invoices != [] {
      var init := invoices[..|invoices| - 1];
      NumbersUniqueMeansPairwise(init);
      var n := |invoices| - 1;
      if NumbersUnique(invoices) {
        forall i, j | 0 <= i < j < |invoices|
          ensures invoices[i].invoiceNumber != invoices[j].invoiceNumber
        {
          if j < n {
            assert invoices[i] == init[i] && invoices[j] == init[j];
          }
        }
      }
      if NumbersDistinct(invoices) {
        forall i, j | 0 <= i < j < |init|
          ensures init[i].invoiceNumber != init[j].invoiceNumber
        {
          assert init[i] == invoices[i] && init[j] == invoices[j];
        }
      }
    }
  }

  /** An issued number stays issued after a call, and differs from the
      number that call returns. */
  lemma IssuedNumberIsNotNext(number: string, sequences: Sequences, year: int)
    requires NumberIssued(number, sequences)
    ensures NumberIssued(number, Bump(sequences, year))
    ensures number != FormatInvoiceNumber(year, LastNumber(sequences, year) + 1)
  {
    var y: int, n: nat :| 1 <= n <= LastNumber(sequences, y) && number == FormatInvoiceNumber(y, n);
    assert n <= LastNumber(Bump(sequences, year), y);
    if number == FormatInvoiceNumber(year, LastNumber(sequences, year) + 1) {
      FormatInjective(y, n, year, LastNumber(sequences, year) + 1);
    }
  }

  /** The next number of a year is on no stored invoice, and every stored
      number stays issued after the call. */
  lemma {:induction false} NextNumberIsFresh(invoices: seq<Invoice>, sequences: Sequences, year: int)
    requires NumbersIssued(invoices, sequences)
    ensures forall i :: 0 <= i < |invoices| ==>
      invoices[i].invoiceNumber != FormatInvoiceNumber(year, LastNumber(sequences, year) + 1)
    ensures NumbersIssued(invoices, Bump(sequences, year))
  {
    if invoices != [] {
      var init := invoices[..|invoices| - 1];
      NextNumberIsFresh(init, sequences, year);
      IssuedNumberIsNotNext(invoices[|invoices| - 1].invoiceNumber, sequences, year);
      forall i | 0 <= i < |invoices| - 1
        ensures invoices[i].invoiceNumber != FormatInvoiceNumber(year, LastNumber(sequences, year) + 1)
      {
        assert init[i] == invoices[i];
      }
    }
  }

  /** The invoice that receives the next number keeps the stored numbers
      issued and unique. */
  lemma NumberingKept(invoices: seq<Invoice>, sequences: Sequences, year: int, invoice: Invoice)
    requires NumbersIssued(invoices, sequences) && NumbersUnique(invoices)
    requires invoice.invoiceNumber == FormatInvoiceNumber(year, LastNumber(sequences, year) + 1)
    ensures NumbersIssued(invoices + [invoice], Bump(sequences, year))
    ensures NumbersUnique(invoices + [invoice])
  {
    NextNumberIsFresh(invoices, sequences, year);
    assert LastNumber(Bump(sequences, year), year) == LastNumber(sequences, year) + 1;
    assert NumberIssued(invoice.invoiceNumber, Bump(sequences, year));
    assert (invoices + [invoice])[..|invoices|] == invoices;
  }

  /** From tables whose numbers were all issued, the next number of `year`
      is on no stored invoice, and an invoice that takes it keeps every
      stored number issued. */
  lemma IssuedTablesKept(invoices: seq<Invoice>, sequences: Sequences, year: int)
    ensures NumbersIssued(invoices, sequences) ==>
      !NumberTaken(invoices, FormatInvoiceNumber(year, LastNumber(sequences, year) + 1))
    ensures NumbersIssued(invoices, sequences) ==>
      forall invoice: Invoice :: invoice.invoiceNumber == FormatInvoiceNumber(year, LastNumber(sequences, year) + 1) ==>
        NumbersIssued(invoices + [invoice], Bump(sequences, year))
  {
    if NumbersIssued(invoices, sequences) {
      NextNumberIsFresh(invoices, sequences, year);
      forall invoice: Invoice | invoice.invoiceNumber == FormatInvoiceNumber(year, LastNumber(sequences, year) + 1)
        ensures NumbersIssued(invoices + [invoice], Bump(sequences, year))
      {
        assert LastNumber(Bump(sequences, year), year) == LastNumber(sequences, year) + 1;
        assert NumberIssued(invoice.invoiceNumber, Bump(sequences, year));
        assert (invoices + [invoice])[..|invoices|] == invoices;
      }
    }
  }

  /** Every customer's balance after a new invoice row. */
  lemma BalancesAfterInvoice(invoices: seq<Invoice>, invoice: Invoice, payments: seq<Payment>)
    ensures forall c ::
      CustomerService.GetBalance(invoices + [invoice], payments, c)
        == CustomerService.GetBalance(invoices, payments, c) + (if c == invoice.customerId then invoice.subtotal else 0.0)
  {
    forall c
      ensures CustomerService.GetBalance(invoices + [invoice], payments, c)
        == CustomerService.GetBalance(invoices, payments, c) + (if c == invoice.customerId then invoice.subtotal else 0.0)
    {
      CustomerService.BalanceAfterInvoice(invoices, invoice, payments, c);
    }
  }

  /** The loop of `createInvoice`: stores the rows for `requests` on
      invoice `invoiceId` and returns their subtotal. */
  method SaveItems(db: Database, invoiceId: int, requests: seq<ItemRequest>) returns (subtotal: real)
    requires db.Valid() && 1 <= invoiceId <= |db.invoices|
    modifies db
    ensures db.Valid()
    ensures db.customers == old(db.customers) && db.invoices == old(db.invoices) && db.payments == old(db.payments)
    ensures db.items == old(db.items) + StoredRows(requests, invoiceId, |old(db.items)| + 1)
    ensures subtotal == Subtotal(requests)
  {
    ghost var firstId := |db.items| + 1;
    subtotal := 0.0;
    for k := 0 to |requests|
      invariant db.Valid()
      invariant db.customers == old(db.customers) && db.invoices == old(db.invoices) && db.payments == old(db.payments)
      invariant db.items == old(db.items) + StoredRows(requests[..k], invoiceId, firstId)
      invariant subtotal == Subtotal(requests[..k])
    {
      var itemRequest := requests[k];
      var amount := itemRequest.quantity as real * itemRequest.rate;
      var item := db.InsertItem(InvoiceItem(0, invoiceId, itemRequest.description,
                                            itemRequest.quantity, itemRequest.rate, amount));
      subtotal := subtotal + amount;
      assert item == StoredItem(requests[k], invoiceId, firstId + k);
      StoredRowsStep(requests, k, invoiceId, firstId);
      SubtotalStep(requests, k);
    }
    assert requests[..|requests|] == requests;
  }

  /** The saves of `createInvoice` once the customer is found and the number
      drawn: save the invoice, save its items, then save it again with
      their subtotal. The first save fails on a number already stored. */
  method SaveInvoice(db: Database, request: CreateInvoiceRequest, number: string, today: Date)
    returns (r: Result<Invoice>)
    requires db.Valid() && 1 <= request.customerId <= |db.customers|
    modifies db
    ensures db.Valid()
    ensures r.Success? <==> !NumberTaken(old(db.invoices), number)
    ensures r.Failure? ==> r.error == DuplicateNumber && unchanged(db)
    ensures r.Success? ==>
      && db.invoices == old(db.invoices) + [r.value]
      && db.customers == old(db.customers) && db.payments == old(db.payments)
      && db.items == old(db.items) + StoredRows(request.items, |old(db.invoices)| + 1, |old(db.items)| + 1)
      && r.value == Invoice(|old(db.invoices)| + 1, number, request.customerId, today,
                            Subtotal(request.items), request.notes, "ISSUED")
  {
    r := db.InsertInvoice(Invoice(0, number, request.customerId, today, 0.0, request.notes, "ISSUED"));
    if r.Failure? {
      return;
    }
    var invoice := r.value;
    var subtotal := SaveItems(db, invoice.id, request.items);
    invoice := invoice.(subtotal := subtotal);
    db.UpdateInvoice(invoice);
    assert db.invoices == old(db.invoices) + [invoice];
    r := Success(invoice);
  }

  /** `createInvoice` once the customer is found: draw the next number of
      `year`, then save the invoice, dated `today`, and its items. When the
      save is refused, the transaction rolls back the counter as well. */
  method IssueInvoice(db: Database, numbers: InvoiceNumberService, request: CreateInvoiceRequest, today: Date,
                      year: int)
    returns (r: Result<Invoice>)
    requires db.Valid() && 1 <= request.customerId <= |db.customers|
    modifies db, numbers
    ensures db.Valid()
    ensures r.Success? <==>
      !NumberTaken(old(db.invoices), FormatInvoiceNumber(year, LastNumber(old(numbers.sequences), year) + 1))
    ensures r.Failure? ==> r.error == DuplicateNumber && unchanged(db) && numbers.sequences == old(numbers.sequences)
    ensures r.Success? ==>
      && numbers.sequences == Bump(old(numbers.sequences), year)
      && db.invoices == old(db.invoices) + [r.value]
      && db.items == old(db.items) + StoredRows(request.items, r.value.id, |old(db.items)| + 1)
      && db.customers == old(db.customers) && db.payments == old(db.payments)
      && r.value == Invoice(|old(db.invoices)| + 1,
                            FormatInvoiceNumber(year, LastNumber(old(numbers.sequences), year) + 1),
                            request.customerId, today, Subtotal(request.items), request.notes, "ISSUED")
  {
    var before := numbers.sequences;
    var number := numbers.NextInvoiceNumber(year);
    r := SaveInvoice(db, request, number, today);
    if r.Failure? {
      numbers.sequences := before;
    }
  }

  /** `createInvoice`, with the two readings of the clock passed in: `today`
      dates the invoice, and `year` is the year the numbering service reads
      afterwards. They differ when the call spans the turn of a year, and
      the invoice is then numbered in the later year. A failure leaves the
      database and the counter as they were. From tables whose numbers were
      all issued by the counter, the number is never refused, and the
      tables stay so (see `IssuedTablesKept`). */
  method CreateInvoice(db: Database, numbers: InvoiceNumberService, request: CreateInvoiceRequest, today: Date,
                       year: int)
    returns (r: Result<Invoice>)
    requires db.Valid()
    modifies db, numbers
    ensures db.Valid()
    ensures r.Success? <==>
      && CustomerService.GetById(old(db.customers), request.customerId).Success?
      && !NumberTaken(old(db.invoices), FormatInvoiceNumber(year, LastNumber(old(numbers.sequences), year) + 1))
    ensures r.Failure? ==> unchanged(db) && numbers.sequences == old(numbers.sequences)
    ensures r.Failure? ==>
      r.error == if CustomerService.GetById(old(db.customers), request.customerId).Failure?
                 then "Customer not found" else DuplicateNumber
    ensures NumbersIssued(old(db.invoices), old(numbers.sequences)) ==>
      (r.Success? <==> CustomerService.GetById(old(db.customers), request.customerId).Success?)
    ensures NumbersIssued(old(db.invoices), old(numbers.sequences)) ==> NumbersIssued(db.invoices, numbers.sequences)
    ensures r.Success? ==> numbers.sequences == Bump(old(numbers.sequences), year)
    ensures r.Success? ==>
      && db.invoices == old(db.invoices) + [r.value]
      && db.items == old(db.items) + StoredRows(request.items, r.value.id, |old(db.items)| + 1)
      && db.customers == old(db.customers) && db.payments == old(db.payments)
    ensures r.Success? ==>
      r.value == Invoice(|old(db.invoices)| + 1,
                         FormatInvoiceNumber(year, LastNumber(old(numbers.sequences), year) + 1),
                         request.customerId, today,
                         Subtotal(request.items),
                         request.notes, "ISSUED")
  {
    var customer := CustomerService.GetById(db.customers, request.customerId);
    if customer.Failure? {
      return Failure(customer.error);
    }
    CustomerService.GetByIdFindsStoredIds(db, request.customerId);
    IssuedTablesKept(db.invoices, numbers.sequences, year);
    r := IssueInvoice(db, numbers, request, today, year);
  }
}
