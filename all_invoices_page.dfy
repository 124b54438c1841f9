/** The invoice list page: the search box and customer filter, and the
    count and total of what they keep. */
module AllInvoicesPage {
  import opened Wrappers
  import opened Entities
  import opened Text
  import opened Filtering
  import opened Summaries

  /** `matchesSearch`: the lower-cased term occurs in the lower-cased
      invoice number or customer name. */
  predicate MatchesSearch(invoice: InvoiceResponse, searchTerm: string) {
    || Contains(Lower(invoice.invoiceNumber), Lower(searchTerm))
    || Contains(Lower(invoice.customerName), Lower(searchTerm))
  }

  /** `matchesCustomer` */
  predicate MatchesCustomer(invoice: InvoiceResponse, selectedCustomerId: Option<int>) {
    selectedCustomerId.None? || invoice.customerId == selectedCustomerId.value
  }

  predicate Matches(invoice: InvoiceResponse, searchTerm: string, selectedCustomerId: Option<int>) {
    MatchesSearch(invoice, searchTerm) && MatchesCustomer(invoice, selectedCustomerId)
  }

  /** `filteredInvoices`: an order-preserving subsequence holding exactly
      the invoices that match both filters. */
  function FilteredInvoices(invoices: seq<InvoiceResponse>, searchTerm: string, selectedCustomerId: Option<int>)
    : (r: seq<InvoiceResponse>)
    ensures IsSubsequence(r, invoices)
    ensures forall x :: x in r <==> x in invoices && Matches(x, searchTerm, selectedCustomerId)
    ensures forall x :: multiset(r)[x] == if Matches(x, searchTerm, selectedCustomerId) then multiset(invoices)[x] else 0
  {
    FilterCounts(invoices, x => Matches(x, searchTerm, selectedCustomerId));
    Filter(invoices, x => Matches(x, searchTerm, selectedCustomerId))
  }

  /** The search ignores case: two terms that differ only in the case of
      ASCII letters match the same invoices, and the page keeps the same
      list for them. */
  lemma SearchIgnoresCase(invoices: seq<InvoiceResponse>, term1: string, term2: string,
                          selectedCustomerId: Option<int>)
    requires SameIgnoringCase(term1, term2)
    ensures forall x :: MatchesSearch(x, term1) == MatchesSearch(x, term2)
    ensures FilteredInvoices(invoices, term1, selectedCustomerId) == FilteredInvoices(invoices, term2, selectedCustomerId)
  {
    LowerIgnoresCase(term1, term2);
    FilterSameCondition(invoices, x => Matches(x, term1, selectedCustomerId),
                        x => Matches(x, term2, selectedCustomerId));
  }

  /** With a customer selected, every kept invoice is that customer's. */
  lemma SelectionKeepsOnlyThatCustomer(invoices: seq<InvoiceResponse>, searchTerm: string, customerId: int)
    ensures forall x :: x in FilteredInvoices(invoices, searchTerm, Some(customerId)) ==> x.customerId == customerId
  {
  }

  /** An empty search term with no customer selected keeps every invoice. */
  lemma EmptyFiltersKeepAll(invoices: seq<InvoiceResponse>)
    ensures FilteredInvoices(invoices, "", None) == invoices
  {
    forall x | x in invoices
      ensures Matches(x, "", None)
    {
      ContainsEmpty(Lower(x.invoiceNumber));
    }
    FilterKeepsAll(invoices, x => Matches(x, "", None));
  }

  /** `totalAmount` */
  function TotalAmount(invoices: seq<InvoiceResponse>, searchTerm: string, selectedCustomerId: Option<int>): real {
    SumTotals(FilteredInvoices(invoices, searchTerm, selectedCustomerId))
  }

  /** The total shown plus the total of the hidden invoices is the total of
      all invoices. */
  lemma TotalAmountSplit(invoices: seq<InvoiceResponse>, searchTerm: string, selectedCustomerId: Option<int>)
    ensures TotalAmount(invoices, searchTerm, selectedCustomerId)
          + SumTotals(Filter(invoices, x => !Matches(x, searchTerm, selectedCustomerId)))
         == SumTotals(invoices)
  {
    SumTotalsSplit(invoices, x => Matches(x, searchTerm, selectedCustomerId),
                   x => !Matches(x, searchTerm, selectedCustomerId));
  }

  /** With both filters empty the total shown is the total of all invoices,
      the dashboard's revenue figure. */
  lemma TotalAmountUnfiltered(invoices: seq<InvoiceResponse>)
    ensures TotalAmount(invoices, "", None) == SumTotals(invoices)
  {
    EmptyFiltersKeepAll(invoices);
  }
}
