/** The two aggregate queries of the repositories:
    `SELECT COALESCE(SUM(i.subtotal), 0) FROM Invoice i WHERE i.customer.id = :customerId`
    and the same over `Payment.amountPaid`. Each is a filter on the customer
    id followed by a sum that is 0 over no rows. */
module Ledger {
  import opened Entities
  import opened Filtering

  /** The invoices of one customer, in table order (the WHERE clause). */
  function InvoicesOf(invoices: seq<Invoice>, customerId: int): (r: seq<Invoice>)
    ensures |r| <= |invoices|
    ensures forall x :: x in r <==> x in invoices && x.customerId == customerId
    ensures IsSubsequence(r, invoices)
  {
    Filter(invoices, (x: Invoice) => x.customerId == customerId)
  }

  /** `COALESCE(SUM(subtotal), 0)` over the given rows. */
  function SumSubtotals(invoices: seq<Invoice>): real {
    if invoices == [] then 0.0
    else SumSubtotals(invoices[..|invoices| - 1]) + invoices[|invoices| - 1].subtotal
  }

  /** `totalInvoicedForCustomer` */
  function TotalInvoiced(invoices: seq<Invoice>, customerId: int): real {
    SumSubtotals(InvoicesOf(invoices, customerId))
  }

  /** The payments of one customer, in table order (the WHERE clause). */
  function PaymentsOf(payments: seq<Payment>, customerId: int): (r: seq<Payment>)
    ensures |r| <= |payments|
    ensures forall x :: x in r <==> x in payments && x.customerId == customerId
    ensures IsSubsequence(r, payments)
  {
    Filter(payments, (x: Payment) => x.customerId == customerId)
  }

  /** `COALESCE(SUM(amountPaid), 0)` over the given rows. */
  function SumAmountsPaid(payments: seq<Payment>): real {
    if payments == [] then 0.0
    else SumAmountsPaid(payments[..|payments| - 1]) + payments[|payments| - 1].amountPaid
  }

  /** `totalPaidByCustomer` */
  function TotalPaid(payments: seq<Payment>, customerId: int): real {
    SumAmountsPaid(PaymentsOf(payments, customerId))
  }

  /** A new invoice row adds its subtotal to its own customer's total and
      to no other customer's. */
  lemma TotalInvoicedAppend(invoices: seq<Invoice>, invoice: Invoice, customerId: int)
    ensures TotalInvoiced(invoices + [invoice], customerId)
         == TotalInvoiced(invoices, customerId) + (if invoice.customerId == customerId then invoice.subtotal else 0.0)
  {
    var all := invoices + [invoice];
    assert all[..|all| - 1] == invoices;
    var init := InvoicesOf(invoices, customerId);
    if invoice.customerId == customerId {
      assert (init + [invoice])[..|init|] == init;
    }
  }

  /** A new payment row adds its amount to its own customer's total and to
      no other customer's. */
  lemma TotalPaidAppend(payments: seq<Payment>, payment: Payment, customerId: int)
    ensures TotalPaid(payments + [payment], customerId)
         == TotalPaid(payments, customerId) + (if payment.customerId == customerId then payment.amountPaid else 0.0)
  {
    var all := payments + [payment];
    assert all[..|all| - 1] == payments;
    var init := PaymentsOf(payments, customerId);
    if payment.customerId == customerId {
      assert (init + [payment])[..|init|] == init;
    }
  }

  /** With no matching rows both sums are 0 (the COALESCE). */
  lemma TotalsZeroWithoutRows(invoices: seq<Invoice>, payments: seq<Payment>, customerId: int)
    requires forall x :: x in invoices ==> x.customerId != customerId
    requires forall x :: x in payments ==> x.customerId != customerId
    ensures TotalInvoiced(invoices, customerId) == 0.0
    ensures TotalPaid(payments, customerId) == 0.0
  {
    var mine := InvoicesOf(invoices, customerId);
    assert forall k :: 0 <= k < |mine| ==> mine[k] in mine;
    var paid := PaymentsOf(payments, customerId);
    assert forall k :: 0 <= k < |paid| ==> paid[k] in paid;
  }
}
