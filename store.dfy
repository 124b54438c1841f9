/** The database behind the JPA repositories: one table per entity, each
    a sequence of rows in insertion order. Ids are generated as SQLite
    generates them for an IDENTITY column when no row is ever deleted: the
    position of the row plus one. */
module Store {
  import opened Wrappers
  import opened Entities

  /** Generated ids, every foreign key refers to an existing row
      (`@ManyToOne(optional = false)` on invoice, item and payment), and no
      two invoices share a number (the `unique` column). */
  ghost predicate TablesValid(customers: seq<Customer>, invoices: seq<Invoice>, items: seq<InvoiceItem>, payments: seq<Payment>) {
    && (forall i :: 0 <= i < |customers| ==> customers[i].id == i + 1)
    && (forall i :: 0 <= i < |invoices| ==>
          invoices[i].id == i + 1 && 1 <= invoices[i].customerId <= |customers|)
    && (forall i :: 0 <= i < |items| ==>
          items[i].id == i + 1 && 1 <= items[i].invoiceId <= |invoices|)
    && (forall i :: 0 <= i < |payments| ==>
          && payments[i].id == i + 1
          && 1 <= payments[i].customerId <= |customers|
          && (payments[i].invoiceId.Some? ==> 1 <= payments[i].invoiceId.value <= |invoices|))
    && NumbersDistinct(invoices)
  }

  /** The `unique = true` constraint on `invoiceNumber`: no two invoice
      rows have the same number. */
  ghost predicate NumbersDistinct(invoices: seq<Invoice>) {
    forall i, j :: 0 <= i < j < |invoices| ==> invoices[i].invoiceNumber != invoices[j].invoiceNumber
  }

  /** Some stored invoice already has `number`. */
  predicate NumberTaken(invoices: seq<Invoice>, number: string) {
    exists i :: 0 <= i < |invoices| && invoices[i].invoiceNumber == number
  }

  /** The error of an insert that the `unique` constraint refuses. */
  const DuplicateNumber := "Duplicate invoice number"

  /** An invoice row with the next id for an existing customer keeps the
      tables valid. */
  lemma AppendInvoiceKeepsValid(customers: seq<Customer>, invoices: seq<Invoice>, items: seq<InvoiceItem>,
                                payments: seq<Payment>, invoice: Invoice)
    requires TablesValid(customers, invoices, items, payments)
    requires invoice.id == |invoices| + 1 && 1 <= invoice.customerId <= |customers|
    requires !NumberTaken(invoices, invoice.invoiceNumber)
    ensures TablesValid(customers, invoices + [invoice], items, payments)
  {
    var all := invoices + [invoice];
    forall i | 0 <= i < |all|
      ensures all[i].id == i + 1 && 1 <= all[i].customerId <= |customers|
    {
      if i < |invoices| {
        assert all[i] == invoices[i];
      }
    }
    forall i, j | 0 <= i < j < |all|
      ensures all[i].invoiceNumber != all[j].invoiceNumber
    {
      assert all[i] == invoices[i];
      if j < |invoices| {
        assert all[j] == invoices[j];
      }
    }
  }

  /** Saving an invoice row again under its own id, for an existing
      customer and with a number no other row has, keeps the tables valid. */
  lemma SaveInvoiceAgainKeepsValid(customers: seq<Customer>, invoices: seq<Invoice>, items: seq<InvoiceItem>,
                                   payments: seq<Payment>, i: nat, invoice: Invoice)
    requires TablesValid(customers, invoices, items, payments)
    requires i < |invoices| && invoice.id == invoices[i].id && 1 <= invoice.customerId <= |customers|
    requires forall j :: 0 <= j < |invoices| && j != i ==> invoices[j].invoiceNumber != invoice.invoiceNumber
    ensures TablesValid(customers, invoices[i := invoice], items, payments)
  {
  }

  /** An item row with the next id on an existing invoice keeps the tables valid. */
  lemma AppendItemKeepsValid(customers: seq<Customer>, invoices: seq<Invoice>, items: seq<InvoiceItem>,
                             payments: seq<Payment>, item: InvoiceItem)
    requires TablesValid(customers, invoices, items, payments)
    requires item.id == |items| + 1 && 1 <= item.invoiceId <= |invoices|
    ensures TablesValid(customers, invoices, items + [item], payments)
  {
    var all := items + [item];
    forall i | 0 <= i < |all|
      ensures all[i].id == i + 1 && 1 <= all[i].invoiceId <= |invoices|
    {
      if i < |items| {
        assert all[i] == items[i];
      }
    }
  }

  /** A payment row with the next id, for an existing customer and at most
      an existing invoice, keeps the tables valid. */
  lemma AppendPaymentKeepsValid(customers: seq<Customer>, invoices: seq<Invoice>, items: seq<InvoiceItem>,
                                payments: seq<Payment>, payment: Payment)
    requires TablesValid(customers, invoices, items, payments)
    requires payment.id == |payments| + 1 && 1 <= payment.customerId <= |customers|
    requires payment.invoiceId.Some? ==> 1 <= payment.invoiceId.value <= |invoices|
    ensures TablesValid(customers, invoices, items, payments + [payment])
  {
    var all := payments + [payment];
    forall i | 0 <= i < |all|
      ensures && all[i].id == i + 1
              && 1 <= all[i].customerId <= |customers|
              && (all[i].invoiceId.Some? ==> 1 <= all[i].invoiceId.value <= |invoices|)
    {
      if i < |payments| {
        assert all[i] == payments[i];
      }
    }
  }

  class Database {
    var customers: seq<Customer>
    var invoices: seq<Invoice>
    var items: seq<InvoiceItem>
    var payments: seq<Payment>

    /** The tables satisfy `TablesValid`. */
    ghost predicate Valid()
      reads this
    {
      TablesValid(customers, invoices, items, payments)
    }

    constructor ()
      ensures Valid()
      ensures customers == [] && invoices == [] && items == [] && payments == []
    {
      customers, invoices, items, payments := [], [], [], [];
    }

    /** `invoiceRepo.save` of a new invoice: stored under the next id,
        unless a stored invoice already has its number, which the `unique`
        constraint refuses. */
    method InsertInvoice(invoice: Invoice) returns (r: Result<Invoice>)
      requires Valid() && 1 <= invoice.customerId <= |customers|
      modifies this
      ensures Valid()
      ensures r.Success? <==> !NumberTaken(old(invoices), invoice.invoiceNumber)
      ensures r.Failure? ==> r.error == DuplicateNumber && unchanged(this)
      ensures r.Success? ==> r.value == invoice.(id := |old(invoices)| + 1) && invoices == old(invoices) + [r.value]
      ensures customers == old(customers) && items == old(items) && payments == old(payments)
    {
      if NumberTaken(invoices, invoice.invoiceNumber) {
        return Failure(DuplicateNumber);
      }
      var saved := invoice.(id := |invoices| + 1);
      AppendInvoiceKeepsValid(customers, invoices, items, payments, saved);
      invoices := invoices + [saved];
      r := Success(saved);
    }

    /** `invoiceRepo.save` of an invoice that is already stored: its row is
        overwritten. The number must stay clear of every other row's. */
    method UpdateInvoice(invoice: Invoice)
      requires Valid() && 1 <= invoice.id <= |invoices| && 1 <= invoice.customerId <= |customers|
      requires forall j :: 0 <= j < |invoices| && j != invoice.id - 1 ==> invoices[j].invoiceNumber != invoice.invoiceNumber
      modifies this
      ensures Valid()
      ensures invoices == old(invoices)[invoice.id - 1 := invoice]
      ensures customers == old(customers) && items == old(items) && payments == old(payments)
    {
      SaveInvoiceAgainKeepsValid(customers, invoices, items, payments, invoice.id - 1, invoice);
      invoices := invoices[invoice.id - 1 := invoice];
    }

    /** `itemRepo.save` of a new item: stored under the next id. */
    method InsertItem(item: InvoiceItem) returns (saved: InvoiceItem)
      requires Valid() && 1 <= item.invoiceId <= |invoices|
      modifies this
      ensures Valid()
      ensures saved == item.(id := |old(items)| + 1)
      ensures items == old(items) + [saved]
      ensures customers == old(customers) && invoices == old(invoices) && payments == old(payments)
    {
      saved := item.(id := |items| + 1);
      AppendItemKeepsValid(customers, invoices, items, payments, saved);
      items := items + [saved];
    }

    /** `paymentRepo.save` of a new payment: stored under the next id. */
    method InsertPayment(payment: Payment) returns (saved: Payment)
      requires Valid() && 1 <= payment.customerId <= |customers|
      requires payment.invoiceId.Some? ==> 1 <= payment.invoiceId.value <= |invoices|
      modifies this
      ensures Valid()
      ensures saved == payment.(id := |old(payments)| + 1)
      ensures payments == old(payments) + [saved]
      ensures customers == old(customers) && invoices == old(invoices) && items == old(items)
    {
      saved := payment.(id := |payments| + 1);
      AppendPaymentKeepsValid(customers, invoices, items, payments, saved);
      payments := payments + [saved];
    }
  }

  /** `CustomerRepository.findById` */
  function FindCustomer(customers: seq<Customer>, id: int): (r: Option<Customer>)
    ensures r.Some? ==> r.value in customers && r.value.id == id
    ensures r.None? ==> forall c :: c in customers ==> c.id != id
  {
    if customers == [] then None
    else if customers[0].id == id then Some(customers[0])
    else FindCustomer(customers[1..], id)
  }

  /** `InvoiceRepository.findById` */
  function FindInvoice(invoices: seq<Invoice>, id: int): (r: Option<Invoice>)
    ensures r.Some? ==> r.value in invoices && r.value.id == id
    ensures r.None? ==> forall x :: x in invoices ==> x.id != id
  {
    if invoices == [] then None
    else if invoices[0].id == id then Some(invoices[0])
    else FindInvoice(invoices[1..], id)
  }
}
