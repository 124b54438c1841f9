/** The customers page: the "add customer" form and the balance figures
    and badges of the customer table. */
module CustomersPage {
  import opened Wrappers
  import opened Text

  /** The body of `POST /api/customers`, as typed into the form. */
  datatype NewCustomer = NewCustomer(name: string, email: string, phone: string)

  const EmptyForm := NewCustomer("", "", "")

  const NameRequired := "Customer name is required"
  const AddFailed := "Failed to add customer"

  /** `!newCustomer.name.trim()`: the name is empty or white space only. */
  function NameMissing(name: string): (missing: bool)
    ensures missing <==> AllSpace(name)
  {
    TrimEmptyIffBlank(name);
    Trim(name) == []
  }

  /** The page's form state. */
  class CustomersPage {
    var newCustomer: NewCustomer
    var showForm: bool
    var formError: string

    constructor ()
      ensures newCustomer == EmptyForm && !showForm && formError == ""
    {
      newCustomer := EmptyForm;
      showForm := false;
      formError := "";
    }

    /** `addCustomer`, with the server's answer (`accepted`) passed in.
        Returns the request sent, if any. A missing name is refused before
        anything is sent. */
    method AddCustomer(accepted: bool) returns (sent: Option<NewCustomer>)
      modifies this
      ensures NameMissing(old(newCustomer).name) ==>
        && sent == None && formError == NameRequired
        && newCustomer == old(newCustomer) && showForm == old(showForm)
      ensures !NameMissing(old(newCustomer).name) ==> sent == Some(old(newCustomer))
      ensures !NameMissing(old(newCustomer).name) && accepted ==>
        newCustomer == EmptyForm && !showForm && formError == ""
      ensures !NameMissing(old(newCustomer).name) && !accepted ==>
        && formError == AddFailed
        && newCustomer == old(newCustomer) && showForm == old(showForm)
    {
      formError := "";
      if NameMissing(newCustomer.name) {
        formError := NameRequired;
        return None;
      }
      sent := Some(newCustomer);
      if accepted {
        newCustomer := EmptyForm;
        showForm := false;
      } else {
        formError := AddFailed;
      }
    }
  }
}
