/** The create-invoice page: an editable list of item rows, a live total,
    the client-side validation, and what a submit sends and resets. */
module CreateInvoicePage {
  import opened Wrappers
  import opened Filtering

  /** One item row as typed into the form (`InvoiceItemInput`). */
  datatype FormItem = FormItem(description: string, quantity: real, rate: real)

  /** The row the form starts with and every "+ Add Item" appends. */
  const BlankItem := FormItem("", 1.0, 0.0)

  /** `FormErrors`: one optional message per part of the form. */
  datatype FormErrors = FormErrors(customer: Option<string>, items: Option<string>, general: Option<string>)

  const NoErrors := FormErrors(None, None, None)

  const CustomerMessage := "Please select a customer"
  const ItemsMessage := "Please add at least one item with description, quantity, and rate"
  const FailureMessage := "Failed to create invoice. Please try again."
  const SuccessMessage := "\U{2713} Invoice created successfully!"

  /** The field an input of a row edits, with its new value. */
  datatype FieldUpdate = Description(text: string) | Quantity(quantity: real) | Rate(rate: real)

  /** The body of `POST /api/invoices`. */
  datatype InvoiceDraft = InvoiceDraft(customerId: int, items: seq<FormItem>)

  /** `i.description && i.quantity > 0 && i.rate > 0` */
  predicate IsValidItem(item: FormItem) {
    item.description != "" && item.quantity > 0.0 && item.rate > 0.0
  }

  /** The items a submit sends: the valid rows, in order, a row repeated
      in the form as often as it is there. */
  function ValidItems(items: seq<FormItem>): (r: seq<FormItem>)
    ensures IsSubsequence(r, items)
    ensures forall x :: multiset(r)[x] == if IsValidItem(x) then multiset(items)[x] else 0
  {
    FilterCounts(items, IsValidItem);
    Filter(items, IsValidItem)
  }

  /** `(i.quantity || 0) * (i.rate || 0)` */
  function Amount(item: FormItem): real {
    item.quantity * item.rate
  }

  /** `total`: the amounts of all rows, valid or not. */
  function Total(items: seq<FormItem>): real {
    if items == [] then 0.0 else Total(items[..|items| - 1]) + Amount(items[|items| - 1])
  }

  /** One more row adds its amount to the total. */
  lemma TotalAppend(items: seq<FormItem>, item: FormItem)
    ensures Total(items + [item]) == Total(items) + Amount(item)
  {
    assert (items + [item])[..|items|] == items;
  }

  /** The totals of the rows a filter keeps and of the rows it drops (those
      meeting the complementary condition `q`) add up to the total of all
      rows. */
  lemma {:induction false} TotalFilterSplit(items: seq<FormItem>, p: FormItem -> bool, q: FormItem -> bool)
    requires forall x :: q(x) == !p(x)
    ensures Total(Filter(items, p)) + Total(Filter(items, q)) == Total(items)
  {
    if items != [] {
      var init := items[..|items| - 1];
      var last := items[|items| - 1];
      TotalFilterSplit(init, p, q);
      assert items == init + [last];
      TotalAppend(init, last);
      var kept := Filter(init, p);
      var dropped := Filter(init, q);
      if p(last) {
        assert Filter(items, p) == kept + [last] && Filter(items, q) == dropped;
        TotalAppend(kept, last);
      } else {
        assert Filter(items, p) == kept && Filter(items, q) == dropped + [last];
        TotalAppend(dropped, last);
      }
    }
  }

  /** The totals of the valid and of the other rows add up to the live total. */
  lemma TotalSplits(items: seq<FormItem>)
    ensures Total(ValidItems(items)) + Total(Filter(items, x => !IsValidItem(x))) == Total(items)
  {
    TotalFilterSplit(items, IsValidItem, x => !IsValidItem(x));
  }

  /** Rows whose amounts are all zero total zero. */
  lemma {:induction false} TotalOfZeroAmounts(items: seq<FormItem>)
    requires forall x :: x in items ==> Amount(x) == 0.0
    ensures Total(items) == 0.0
  {
    if items != [] {
      TotalOfZeroAmounts(items[..|items| - 1]);
      assert items[|items| - 1] in items;
    }
  }

  /** The live total is the total of what a submit sends exactly when the
      rows it leaves out total zero. Their amounts may cancel: a row with a
      negative quantity is left out. */
  lemma SentTotalIffDroppedTotalZero(items: seq<FormItem>)
    ensures Total(ValidItems(items)) == Total(items) <==> Total(Filter(items, x => !IsValidItem(x))) == 0.0
  {
    TotalSplits(items);
  }

  /** The live total is the total of what a submit sends when every row it
      leaves out has amount zero. */
  lemma TotalMatchesSentItems(items: seq<FormItem>)
    requires forall x :: x in items && !IsValidItem(x) ==> Amount(x) == 0.0
    ensures Total(ValidItems(items)) == Total(items)
  {
    TotalSplits(items);
    TotalOfZeroAmounts(Filter(items, x => !IsValidItem(x)));
  }

  /** `!customerId` is false only for a selected, non-zero id. */
  predicate CustomerChosen(customerId: Option<int>) {
    customerId.Some? && customerId.value != 0
  }

  /** `validateForm`'s new error object. */
  function Validate(customerId: Option<int>, items: seq<FormItem>): FormErrors {
    FormErrors(if CustomerChosen(customerId) then None else Some(CustomerMessage),
               if ValidItems(items) == [] then Some(ItemsMessage) else None,
               None)
  }

  /** The form passes validation iff a customer is chosen and at least one
      row is valid. */
  lemma ValidateAcceptsIff(customerId: Option<int>, items: seq<FormItem>)
    ensures Validate(customerId, items) == NoErrors
        <==> CustomerChosen(customerId) && exists i :: 0 <= i < |items| && IsValidItem(items[i])
  {
    var valid := ValidItems(items);
    if valid != [] {
      assert valid[0] in valid;
    }
    if exists i :: 0 <= i < |items| && IsValidItem(items[i]) {
      var i :| 0 <= i < |items| && IsValidItem(items[i]);
      assert items[i] in valid;
    }
  }

  /** `items.filter((_, i) => i !== index)` */
  function RemoveAt(items: seq<FormItem>, index: int): (r: seq<FormItem>)
    ensures 0 <= index < |items| ==> r == items[..index] + items[index + 1..]
    ensures !(0 <= index < |items|) ==> r == items
  {
    if items == [] then []
    else
      var init := RemoveAt(items[..|items| - 1], index);
      var last := items[|items| - 1];
      if index == |items| - 1 then
        assert init == items[..|items| - 1];
        init
      else
        assert items[..|items| - 1] + [last] == items;
        init + [last]
  }

  /** `{ ...item, [field]: value }` */
  function WithField(item: FormItem, update: FieldUpdate): (r: FormItem)
    ensures r.description == (if update.Description? then update.text else item.description)
    ensures r.quantity == (if update.Quantity? then update.quantity else item.quantity)
    ensures r.rate == (if update.Rate? then update.rate else item.rate)
  {
    match update
    case Description(text) => item.(description := text)
    case Quantity(q) => item.(quantity := q)
    case Rate(rate) => item.(rate := rate)
  }

  /** The page's state. */
  class CreateInvoiceForm {
    var customerId: Option<int>
    var items: seq<FormItem>
    var errors: FormErrors
    var successMessage: string

    /** The list of rows is never empty. */
    ghost predicate Valid()
      reads this
    {
      |items| >= 1
    }

    constructor ()
      ensures Valid()
      ensures customerId == None && items == [BlankItem] && errors == NoErrors && successMessage == ""
    {
      customerId := None;
      items := [BlankItem];
      errors := NoErrors;
      successMessage := "";
    }

    /** The customer select's `onChange`: the choice replaces the customer
        and clears only the customer error. */
    method SelectCustomer(choice: Option<int>)
      modifies this
      ensures customerId == choice
      ensures errors == old(errors).(customer := None)
      ensures items == old(items) && successMessage == old(successMessage)
    {
      customerId := choice;
      errors := errors.(customer := None);
    }

    /** `addItem` */
    method AddItem()
      requires Valid()
      modifies this
      ensures Valid()
      ensures items == old(items) + [BlankItem]
      ensures customerId == old(customerId) && errors == old(errors) && successMessage == old(successMessage)
    {
      items := items + [BlankItem];
    }

    /** `removeItem`: only while more than one row is left. */
    method RemoveItem(index: int)
      requires Valid()
      modifies this
      ensures Valid()
      ensures |old(items)| > 1 ==> items == RemoveAt(old(items), index)
      ensures |old(items)| == 1 ==> items == old(items)
      ensures customerId == old(customerId) && errors == old(errors) && successMessage == old(successMessage)
    {
      if |items| > 1 {
        items := RemoveAt(items, index);
      }
    }

    /** `updateItem`, called with the index of a rendered row. */
    method UpdateItem(index: nat, update: FieldUpdate)
      requires Valid() && index < |items|
      modifies this
      ensures Valid()
      ensures items == old(items)[index := WithField(old(items)[index], update)]
      ensures customerId == old(customerId) && errors == old(errors) && successMessage == old(successMessage)
    {
      var updated := items;
      updated := updated[index := WithField(updated[index], update)];
      items := updated;
    }

    /** `validateForm` */
    method ValidateForm() returns (ok: bool)
      modifies this
      ensures errors == Validate(customerId, items)
      ensures ok <==> errors == NoErrors
      ensures customerId == old(customerId) && items == old(items) && successMessage == old(successMessage)
    {
      errors := Validate(customerId, items);
      ok := errors == NoErrors;
    }

    /** `submit`, with the server's answer (`accepted`) passed in. Returns
        the request sent, if any. */
    method Submit(accepted: bool) returns (sent: Option<InvoiceDraft>)
      requires Valid()
      modifies this
      ensures Valid()
      ensures Validate(old(customerId), old(items)) != NoErrors ==>
        && sent == None
        && errors == Validate(old(customerId), old(items))
        && customerId == old(customerId) && items == old(items) && successMessage == ""
      ensures Validate(old(customerId), old(items)) == NoErrors ==>
        sent == Some(InvoiceDraft(old(customerId).value, ValidItems(old(items))))
      ensures Validate(old(customerId), old(items)) == NoErrors && accepted ==>
        && items == [BlankItem] && customerId == None && errors == NoErrors
        && successMessage == SuccessMessage
      ensures Validate(old(customerId), old(items)) == NoErrors && !accepted ==>
        && errors == FormErrors(None, None, Some(FailureMessage))
        && customerId == old(customerId) && items == old(items) && successMessage == ""
    {
      successMessage := "";
      var ok := ValidateForm();
      if !ok {
        return None;
      }
      sent := Some(InvoiceDraft(customerId.value, ValidItems(items)));
      if accepted {
        successMessage := SuccessMessage;
        items := [BlankItem];
        customerId := None;
        errors := NoErrors;
      } else {
        errors := FormErrors(None, None, Some(FailureMessage));
      }
    }
  }
}
