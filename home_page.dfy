/** The dashboard: the revenue and receivable cards and the list of the
    most recent invoices. */
module HomePage {
  import opened Wrappers
  import opened Entities
  import opened Summaries
  import AllInvoicesPage

  /** `totalRevenue`: the totals of all invoices. */
  function TotalRevenue(invoices: seq<InvoiceResponse>): real {
    SumTotals(invoices)
  }

  /** The revenue card agrees with the invoice list's total when nothing
      is searched for and no customer is selected. */
  lemma RevenueIsUnfilteredTotal(invoices: seq<InvoiceResponse>)
    ensures TotalRevenue(invoices) == AllInvoicesPage.TotalAmount(invoices, "", None)
  {
    AllInvoicesPage.TotalAmountUnfiltered(invoices);
  }

  /** `totalReceivable`: the same figure as the customers page shows. */
  function TotalReceivable(customers: seq<CustomerWithBalance>): (r: real)
    ensures r >= 0.0
  {
    ReceivableAmount(customers)
  }

  /** The receivable card is what each customer owes the shop, summed. */
  lemma TotalReceivableIsOwedToShop(customers: seq<CustomerWithBalance>)
    ensures TotalReceivable(customers) == OwedToShop(customers)
  {
    ReceivableIsOwedToShop(customers);
  }

  /** `reverse()` */
  function Reverse<T>(s: seq<T>): (r: seq<T>)
    ensures |r| == |s|
    ensures forall k :: 0 <= k < |s| ==> r[k] == s[|s| - 1 - k]
  {
    if s == [] then [] else [s[|s| - 1]] + Reverse(s[..|s| - 1])
  }

  /** `invoices.slice(-5).reverse()`: the last five invoices, or all of them
      when there are fewer, newest first. */
  function RecentInvoices(invoices: seq<InvoiceResponse>): (r: seq<InvoiceResponse>)
    ensures |r| == if |invoices| < 5 then |invoices| else 5
    ensures forall k :: 0 <= k < |r| ==> r[k] == invoices[|invoices| - 1 - k]
  {
    var start := if |invoices| < 5 then 0 else |invoices| - 5;
    Reverse(invoices[start..])
  }

  /** The first recent invoice is the last one in the list, and every
      recent invoice is one of the list's. */
  lemma RecentStartsWithLast(invoices: seq<InvoiceResponse>)
    ensures invoices != [] ==> RecentInvoices(invoices)[0] == invoices[|invoices| - 1]
    ensures forall x :: x in RecentInvoices(invoices) ==> x in invoices
  {
    var r := RecentInvoices(invoices);
    forall x | x in r
      ensures x in invoices
    {
      var k :| 0 <= k < |r| && r[k] == x;
      assert x == invoices[|invoices| - 1 - k];
    }
  }
}
