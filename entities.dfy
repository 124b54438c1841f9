/** The persisted records of the backend and the records the REST API
    exchanges with the pages. Database ids (Java `Long`) are `int`; money
    (Java `Double`, JavaScript `number`) is an exact `real`. */
module Entities {
  import opened Wrappers

  /** A calendar date (`LocalDate`). */
  datatype Date = Date(year: int, month: int, day: int)

  datatype Customer = Customer(
    id: int,
    name: string,
    email: Option<string>,
    phone: Option<string>,
    address: Option<string>)

  datatype Invoice = Invoice(
    id: int,
    invoiceNumber: string,
    customerId: int,
    issueDate: Date,
    subtotal: real,
    notes: Option<string>,
    status: string)

  datatype InvoiceItem = InvoiceItem(
    id: int,
    invoiceId: int,
    description: string,
    quantity: int,
    rate: real,
    amount: real)

  datatype Payment = Payment(
    id: int,
    customerId: int,
    invoiceId: Option<int>,
    amountPaid: real,
    paymentDate: Date)

  /** One line of the body of `POST /api/invoices`. */
  datatype ItemRequest = ItemRequest(description: string, quantity: int, rate: real)

  datatype CreateInvoiceRequest = CreateInvoiceRequest(
    customerId: int,
    notes: Option<string>,
    items: seq<ItemRequest>)

  /** A row of `GET /api/customers/with-balance`. */
  datatype CustomerWithBalance = CustomerWithBalance(
    id: int,
    name: string,
    email: Option<string>,
    phone: Option<string>,
    balance: real)

  /** A row of `GET /api/invoices`. */
  datatype InvoiceResponse = InvoiceResponse(
    id: int,
    invoiceNumber: string,
    customerId: int,
    customerName: string,
    total: real,
    createdDate: Date)
}
