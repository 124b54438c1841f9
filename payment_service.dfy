/** `PaymentService.recordPayment`: a payment by an existing customer,
    optionally linked to an existing invoice, dated today unless a date is
    given. */
module PaymentService {
  import opened Wrappers
  import opened Entities
  import opened Store
  import CustomerService

  /** `recordPayment`, with today's date passed in. The HTTP endpoint always
      passes `None` for `invoiceId`. */
  method RecordPayment(db: Database, customerId: int, invoiceId: Option<int>, amount: real,
                       paymentDate: Option<Date>, today: Date)
    returns (r: Result<Payment>)
    requires db.Valid()
    modifies db
    ensures db.Valid()
    ensures CustomerService.GetById(old(db.customers), customerId).Failure? ==>
      r == Failure("Customer not found") && unchanged(db)
    ensures CustomerService.GetById(old(db.customers), customerId).Success?
            && invoiceId.Some? && FindInvoice(old(db.invoices), invoiceId.value).None? ==>
      r == Failure("Invoice not found") && unchanged(db)
    ensures r.Success? <==>
      && CustomerService.GetById(old(db.customers), customerId).Success?
      && (invoiceId.Some? ==> FindInvoice(old(db.invoices), invoiceId.value).Some?)
    ensures r.Success? ==>
      && r.value == Payment(|old(db.payments)| + 1, customerId, invoiceId, amount,
                            if paymentDate.Some? then paymentDate.value else today)
      && db.payments == old(db.payments) + [r.value]
      && db.customers == old(db.customers) && db.invoices == old(db.invoices) && db.items == old(db.items)
    ensures r.Success? ==> forall c ::
      CustomerService.GetBalance(db.invoices, db.payments, c)
        == CustomerService.GetBalance(old(db.invoices), old(db.payments), c)
           - (if c == customerId then amount else 0.0)
  {
    var customer := CustomerService.GetById(db.customers, customerId);
    if customer.Failure? {
      return Failure(customer.error);
    }
    CustomerService.GetByIdFindsStoredIds(db, customerId);
    var date := if paymentDate.Some? then paymentDate.value else today;
    var payment := Payment(0, customer.value.id, None, amount, date);
    if invoiceId.Some? {
      var invoice := FindInvoice(db.invoices, invoiceId.value);
      if invoice.None? {
        return Failure("Invoice not found");
      }
      assert 1 <= invoice.value.id <= |db.invoices| by {
        var k :| 0 <= k < |db.invoices| && db.invoices[k] == invoice.value;
      }
      payment := payment.(invoiceId := Some(invoice.value.id));
    }
    var saved := db.InsertPayment(payment);
    BalancesAfterPayment(db.invoices, old(db.payments), saved);
    r := Success(saved);
  }

  /** Every customer's balance after a new payment row. */
  lemma BalancesAfterPayment(invoices: seq<Invoice>, payments: seq<Payment>, payment: Payment)
    ensures forall c ::
      CustomerService.GetBalance(invoices, payments + [payment], c)
        == CustomerService.GetBalance(invoices, payments, c) - (if c == payment.customerId then payment.amountPaid else 0.0)
  {
    forall c
      ensures CustomerService.GetBalance(invoices, payments + [payment], c)
        == CustomerService.GetBalance(invoices, payments, c) - (if c == payment.customerId then payment.amountPaid else 0.0)
    {
      CustomerService.BalanceAfterPayment(invoices, payments, payment, c);
    }
  }
}
