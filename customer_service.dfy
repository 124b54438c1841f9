/** `CustomerService`: saving and looking up customers, and the balance of
    a customer, which is never stored but derived from the invoice and
    payment tables. */
module CustomerService {
  import opened Wrappers
  import opened Entities
  import opened Ledger
  import opened Store

  /** `getAll`: every stored customer, in table order. */
  function GetAll(db: Database): seq<Customer>
    reads db
  {
    db.customers
  }

  /** `create`: the repository saves the customer under a newly generated id. */
  method Create(db: Database, customer: Customer) returns (saved: Customer)
    requires db.Valid()
    modifies db
    ensures db.Valid()
    ensures saved == customer.(id := |old(db.customers)| + 1)
    ensures db.customers == old(db.customers) + [saved]
    ensures saved in GetAll(db)
    ensures db.invoices == old(db.invoices) && db.items == old(db.items) && db.payments == old(db.payments)
  {
    saved := customer.(id := |db.customers| + 1);
    db.customers := db.customers + [saved];
  }

  /** `getById`: the customer with that id, or "Customer not found". */
  function GetById(customers: seq<Customer>, id: int): (r: Result<Customer>)
    ensures r.Success? ==> r.value in customers && r.value.id == id
    ensures r.Failure? ==> r.error == "Customer not found" && forall c :: c in customers ==> c.id != id
  {
    match FindCustomer(customers, id)
    case Some(c) => Success(c)
    case None => Failure("Customer not found")
  }

  /** Under the generated ids, exactly the ids 1..|customers| are found. */
  lemma GetByIdFindsStoredIds(db: Database, id: int)
    requires db.Valid()
    ensures GetById(db.customers, id).Success? <==> 1 <= id <= |db.customers|
  {
    if 1 <= id <= |db.customers| {
      assert db.customers[id - 1] in db.customers;
    }
  }

  /** `getBalance`: total invoiced minus total paid. */
  function GetBalance(invoices: seq<Invoice>, payments: seq<Payment>, customerId: int): real {
    TotalInvoiced(invoices, customerId) - TotalPaid(payments, customerId)
  }

  /** A customer with no invoice and no payment is settled. */
  lemma BalanceZeroWithoutRows(invoices: seq<Invoice>, payments: seq<Payment>, customerId: int)
    requires forall x :: x in invoices ==> x.customerId != customerId
    requires forall x :: x in payments ==> x.customerId != customerId
    ensures GetBalance(invoices, payments, customerId) == 0.0
  {
    TotalsZeroWithoutRows(invoices, payments, customerId);
  }

  /** A new invoice raises its customer's balance by its subtotal and
      leaves every other balance as it was. */
  lemma BalanceAfterInvoice(invoices: seq<Invoice>, invoice: Invoice, payments: seq<Payment>, customerId: int)
    ensures GetBalance(invoices + [invoice], payments, customerId)
         == GetBalance(invoices, payments, customerId) + (if invoice.customerId == customerId then invoice.subtotal else 0.0)
  {
    TotalInvoicedAppend(invoices, invoice, customerId);
  }

  /** A new payment lowers its customer's balance by its amount and leaves
      every other balance as it was. */
  lemma BalanceAfterPayment(invoices: seq<Invoice>, payments: seq<Payment>, payment: Payment, customerId: int)
    ensures GetBalance(invoices, payments + [payment], customerId)
         == GetBalance(invoices, payments, customerId) - (if payment.customerId == customerId then payment.amountPaid else 0.0)
  {
    TotalPaidAppend(payments, payment, customerId);
  }

  /** `getCustomersWithBalance`: one row per stored customer, in table order. */
  function GetCustomersWithBalance(customers: seq<Customer>, invoices: seq<Invoice>, payments: seq<Payment>)
    : (r: seq<CustomerWithBalance>)
    ensures |r| == |customers|
    ensures forall i :: 0 <= i < |r| ==>
      r[i] == CustomerWithBalance(customers[i].id, customers[i].name, customers[i].email, customers[i].phone,
                                  GetBalance(invoices, payments, customers[i].id))
  {
    if customers == [] then []
    else
      var c := customers[|customers| - 1];
      GetCustomersWithBalance(customers[..|customers| - 1], invoices, payments)
        + [CustomerWithBalance(c.id, c.name, c.email, c.phone, GetBalance(invoices, payments, c.id))]
  }
}
