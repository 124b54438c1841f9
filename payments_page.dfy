/** The payments page: the payment form's validation and reset, the
    customer dropdown, and the selected customer's panel. */
module PaymentsPage {
  import opened Wrappers
  import opened Entities
  import opened Filtering
  import opened Summaries

  /** The body of `POST /api/payments`. A cleared date input sends an
      empty date, `None` here, which the backend reads as no date. */
  datatype PaymentDraft = PaymentDraft(customerId: int, amount: real, paymentDate: Option<Date>)

  /** What the server answered: success, or an error carrying
      `response.data.message` when it has one. */
  datatype Reply = Accepted | Rejected(message: Option<string>)

  const SelectCustomerMessage := "Please select a customer"
  const AmountMessage := "Please enter a valid amount"
  const DefaultFailure := "Failed to record payment"

  /** `err.response?.data?.message || "Failed to record payment"` */
  function FailureText(message: Option<string>): (r: string)
    ensures r != ""
    ensures message.Some? && message.value != "" ==> r == message.value
    ensures message.None? || message.value == "" ==> r == DefaultFailure
  {
    if message.Some? && message.value != "" then message.value else DefaultFailure
  }

  /** The page's form state. */
  class PaymentsPage {
    var customerId: Option<int>
    var amount: real
    var paymentDate: Option<Date>
    var formError: string

    constructor (today: Date)
      ensures customerId == None && amount == 0.0 && paymentDate == Some(today) && formError == ""
    {
      customerId := None;
      amount := 0.0;
      paymentDate := Some(today);
      formError := "";
    }

    /** The amount input's `onChange`: `parseFloat(value) || 0`, where
        `parsed` is `None` when the text is not a number. */
    method EnterAmount(parsed: Option<real>)
      modifies this
      ensures amount == (if parsed.Some? then parsed.value else 0.0)
      ensures customerId == old(customerId) && paymentDate == old(paymentDate) && formError == old(formError)
    {
      if parsed.Some? {
        amount := parsed.value;
      } else {
        amount := 0.0;
      }
    }

    /** The date input's `onChange`: a picked date, or `None` when the
        input is cleared. */
    method EnterDate(date: Option<Date>)
      modifies this
      ensures paymentDate == date
      ensures customerId == old(customerId) && amount == old(amount) && formError == old(formError)
    {
      paymentDate := date;
    }

    /** `recordPayment`, with the server's reply and today's date passed in.
        Returns the request sent, if any. The customer check comes first. */
    method RecordPayment(reply: Reply, today: Date) returns (sent: Option<PaymentDraft>)
      modifies this
      ensures old(customerId).None? ==>
        && sent == None && formError == SelectCustomerMessage
        && customerId == old(customerId) && amount == old(amount) && paymentDate == old(paymentDate)
      ensures old(customerId).Some? && old(amount) <= 0.0 ==>
        && sent == None && formError == AmountMessage
        && customerId == old(customerId) && amount == old(amount) && paymentDate == old(paymentDate)
      ensures sent.Some? <==> old(customerId).Some? && old(amount) > 0.0
      ensures sent.Some? ==> sent.value == PaymentDraft(old(customerId).value, old(amount), old(paymentDate))
      ensures sent.Some? && reply.Accepted? ==>
        amount == 0.0 && customerId == None && paymentDate == Some(today) && formError == ""
      ensures sent.Some? && reply.Rejected? ==>
        && formError == FailureText(reply.message)
        && customerId == old(customerId) && amount == old(amount) && paymentDate == old(paymentDate)
    {
      formError := "";
      if customerId.None? {
        formError := SelectCustomerMessage;
        return None;
      }
      if amount == 0.0 || amount <= 0.0 {
        formError := AmountMessage;
        return None;
      }
      sent := Some(PaymentDraft(customerId.value, amount, paymentDate));
      match reply
      case Accepted =>
        amount := 0.0;
        customerId := None;
        paymentDate := Some(today);
      case Rejected(message) =>
        formError := FailureText(message);
    }
  }

  /** `c.balance !== 0` */
  predicate HasBalance(c: CustomerWithBalance) {
    c.balance != 0.0
  }

  /** The dropdown's options: the customers with a non-zero balance, in
      the order the list has them. */
  function SelectableCustomers(customers: seq<CustomerWithBalance>): (r: seq<CustomerWithBalance>)
    ensures IsSubsequence(r, customers)
    ensures forall c :: c in r <==> c in customers && c.balance != 0.0
    ensures forall c :: multiset(r)[c] == if c.balance != 0.0 then multiset(customers)[c] else 0
  {
    FilterCounts(customers, HasBalance);
    Filter(customers, HasBalance)
  }

  /** The two kinds of option label, with the amount they show. */
  datatype OptionLabel = Owes(amount: real) | YouOwe(amount: real)

  /** `c.balance > 0 ? (Owes …) : (You owe |…|)` */
  function LabelOf(c: CustomerWithBalance): (r: OptionLabel)
    ensures r.amount >= 0.0
  {
    if c.balance > 0.0 then Owes(c.balance) else YouOwe(Abs(c.balance))
  }

  /** The label reads back as the balance. Only customers with a non-zero
      balance are listed, but the reading holds for a zero balance too. */
  lemma LabelDeterminesBalance(c: CustomerWithBalance)
    ensures c.balance == match LabelOf(c) case Owes(a) => a case YouOwe(a) => -a
    ensures LabelOf(c).Owes? <==> c.balance > 0.0
  {
  }

  /** `customers.find(c => c.id === id)` */
  function FindById(customers: seq<CustomerWithBalance>, id: int): (r: Option<CustomerWithBalance>)
    ensures r.Some? ==> exists i :: 0 <= i < |customers| && customers[i] == r.value
                                    && forall j :: 0 <= j < i ==> customers[j].id != id
    ensures r.Some? ==> r.value.id == id
    ensures r.None? ==> forall c :: c in customers ==> c.id != id
  {
    if customers == [] then None
    else if customers[0].id == id then Some(customers[0])
    else
      var rest := FindById(customers[1..], id);
      if rest.Some? then
        var i :| 0 <= i < |customers[1..]| && customers[1..][i] == rest.value
                 && forall j :: 0 <= j < i ==> customers[1..][j].id != id;
        assert customers[i + 1] == rest.value;
        assert forall j :: 0 <= j < i + 1 ==> customers[j].id != id by {
          forall j | 0 <= j < i + 1 ensures customers[j].id != id {
            if j > 0 { assert customers[j] == customers[1..][j - 1]; }
          }
        }
        rest
      else
        assert forall c :: c in customers ==> c == customers[0] || c in customers[1..];
        rest
  }

  /** `selectedCustomer`: the first customer with the chosen id, or nothing
      when no customer (or the falsy id 0) is chosen. */
  function SelectedCustomer(customers: seq<CustomerWithBalance>, customerId: Option<int>): (r: Option<CustomerWithBalance>)
    ensures customerId.None? || customerId.value == 0 ==> r.None?
    ensures r.Some? ==> r.value in customers && r.value.id == customerId.value
    ensures customerId.Some? && customerId.value != 0 && r.None? ==> forall c :: c in customers ==> c.id != customerId.value
  {
    if customerId.Some? && customerId.value != 0 then FindById(customers, customerId.value) else None
  }
}
