/** The figures the pages derive from the lists the backend returns: the
    sign convention for a customer's balance, the receivable and payable
    aggregates, and the sum of invoice totals. */
module Summaries {
  import opened Entities
  import opened Filtering

  /** `Math.abs` */
  function Abs(x: real): (r: real)
    ensures r >= 0.0 && (r == x || r == -x)
  {
    if x < 0.0 then -x else x
  }

  /** The badge of a customer row. A positive balance is owed to the shop. */
  datatype Status = Receivable | Payable | Settled

  function StatusOf(balance: real): Status {
    if balance > 0.0 then Receivable else if balance < 0.0 then Payable else Settled
  }

  /** The amount shown in the balance column: never negative. */
  function DisplayedBalance(balance: real): (r: real)
    ensures r >= 0.0
  {
    Abs(balance)
  }

  /** The badge and the amount shown together determine the balance. */
  lemma StatusAndDisplayDetermineBalance(balance: real)
    ensures balance == match StatusOf(balance)
      case Receivable => DisplayedBalance(balance)
      case Payable => -DisplayedBalance(balance)
      case Settled => 0.0
  {
  }

  /** `reduce((sum, c) => sum + c.balance, 0)` */
  function SumBalances(customers: seq<CustomerWithBalance>): real {
    if customers == [] then 0.0
    else SumBalances(customers[..|customers| - 1]) + customers[|customers| - 1].balance
  }

  predicate Owing(c: CustomerWithBalance) { c.balance > 0.0 }
  predicate Owed(c: CustomerWithBalance) { c.balance < 0.0 }

  lemma {:induction false} SumOfOwingIsNonNegative(customers: seq<CustomerWithBalance>)
    requires forall c :: c in customers ==> Owing(c)
    ensures SumBalances(customers) >= 0.0
  {
    if customers != [] {
      SumOfOwingIsNonNegative(customers[..|customers| - 1]);
      assert customers[|customers| - 1] in customers;
    }
  }

  lemma {:induction false} SumOfOwedIsNonPositive(customers: seq<CustomerWithBalance>)
    requires forall c :: c in customers ==> Owed(c)
    ensures SumBalances(customers) <= 0.0
  {
    if customers != [] {
      SumOfOwedIsNonPositive(customers[..|customers| - 1]);
      assert customers[|customers| - 1] in customers;
    }
  }

  /** `receivableAmount`: the sum of the strictly positive balances. */
  function ReceivableAmount(customers: seq<CustomerWithBalance>): (r: real)
    ensures r >= 0.0
  {
    SumOfOwingIsNonNegative(Filter(customers, Owing));
    SumBalances(Filter(customers, Owing))
  }

  /** `payableAmount`: the absolute value of the sum of the strictly
      negative balances. */
  function PayableAmount(customers: seq<CustomerWithBalance>): (r: real)
    ensures r >= 0.0
    ensures r == -SumBalances(Filter(customers, Owed))
  {
    SumOfOwedIsNonPositive(Filter(customers, Owed));
    Abs(SumBalances(Filter(customers, Owed)))
  }

  /** The "Outstanding Balance" card. */
  function OutstandingBalance(customers: seq<CustomerWithBalance>): (r: real)
    ensures r >= 0.0
  {
    Abs(ReceivableAmount(customers) - PayableAmount(customers))
  }

  /** Every balance is positive, negative or zero, and zero adds nothing:
      the two filtered sums add up to the sum of all balances. */
  lemma {:induction false} SignSplit(customers: seq<CustomerWithBalance>)
    ensures SumBalances(Filter(customers, Owing)) + SumBalances(Filter(customers, Owed)) == SumBalances(customers)
  {
    if customers != [] {
      var init := customers[..|customers| - 1];
      var last := customers[|customers| - 1];
      SignSplit(init);
      assert customers == init + [last];
      var owing := Filter(init, Owing);
      var owed := Filter(init, Owed);
      if Owing(last) {
        assert (owing + [last])[..|owing|] == owing;
      } else if Owed(last) {
        assert (owed + [last])[..|owed|] == owed;
      }
    }
  }

  /** Receivable minus payable is the net of all balances, so the
      outstanding figure is the absolute value of that net. */
  lemma OutstandingIsAbsoluteNet(customers: seq<CustomerWithBalance>)
    ensures ReceivableAmount(customers) - PayableAmount(customers) == SumBalances(customers)
    ensures OutstandingBalance(customers) == Abs(SumBalances(customers))
  {
    SignSplit(customers);
  }

  /** Customer by customer, what the customer owes the shop: the balance
      when it is positive, nothing otherwise. */
  function OwedToShop(customers: seq<CustomerWithBalance>): real {
    if customers == [] then 0.0
    else
      var b := customers[|customers| - 1].balance;
      OwedToShop(customers[..|customers| - 1]) + (if b > 0.0 then b else 0.0)
  }

  /** Customer by customer, what the shop owes the customer: the magnitude
      of the balance when it is negative, nothing otherwise. */
  function OwedByShop(customers: seq<CustomerWithBalance>): real {
    if customers == [] then 0.0
    else
      var b := customers[|customers| - 1].balance;
      OwedByShop(customers[..|customers| - 1]) + (if b < 0.0 then -b else 0.0)
  }

  /** The receivable card is the sum of what each customer owes the shop. */
  lemma {:induction false} ReceivableIsOwedToShop(customers: seq<CustomerWithBalance>)
    ensures ReceivableAmount(customers) == OwedToShop(customers)
  {
    if customers != [] {
      var init := customers[..|customers| - 1];
      var last := customers[|customers| - 1];
      ReceivableIsOwedToShop(init);
      assert customers == init + [last];
      var owing := Filter(init, Owing);
      if Owing(last) {
        assert (owing + [last])[..|owing|] == owing;
      }
    }
  }

  /** The payable card is the sum of what the shop owes each customer. */
  lemma {:induction false} PayableIsOwedByShop(customers: seq<CustomerWithBalance>)
    ensures PayableAmount(customers) == OwedByShop(customers)
  {
    if customers != [] {
      var init := customers[..|customers| - 1];
      var last := customers[|customers| - 1];
      PayableIsOwedByShop(init);
      assert customers == init + [last];
      var owed := Filter(init, Owed);
      if Owed(last) {
        assert (owed + [last])[..|owed|] == owed;
      }
    }
  }

  /** `reduce((sum, inv) => sum + (inv.total || 0), 0)` */
  function SumTotals(invoices: seq<InvoiceResponse>): real {
    if invoices == [] then 0.0
    else SumTotals(invoices[..|invoices| - 1]) + invoices[|invoices| - 1].total
  }

  /** The totals of the rows a filter keeps and of the rows it drops (those
      meeting the complementary condition `q`) add up to the total of all
      rows. */
  lemma {:induction false} SumTotalsSplit(invoices: seq<InvoiceResponse>, p: InvoiceResponse -> bool,
                                          q: InvoiceResponse -> bool)
    requires forall x :: q(x) == !p(x)
    ensures SumTotals(Filter(invoices, p)) + SumTotals(Filter(invoices, q)) == SumTotals(invoices)
  {
    if invoices != [] {
      var init := invoices[..|invoices| - 1];
      var last := invoices[|invoices| - 1];
      SumTotalsSplit(init, p, q);
      assert invoices == init + [last];
      var kept := Filter(init, p);
      var dropped := Filter(init, q);
      if p(last) {
        assert (kept + [last])[..|kept|] == kept;
      } else {
        assert (dropped + [last])[..|dropped|] == dropped;
      }
    }
  }
}
