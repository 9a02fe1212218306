/** Records of the billing backend (the Go structs under backend/models) and the shapes every
    handler shares: the decoded request body, the handler's outcome and the
    store failure a handler may meet. */
module Models {

  /** Wall-clock instants are taken as parameters; Go's zero `time.Time` is 0. */
  type Time = nat
  const ZeroTime: Time := 0

  datatype PizzaType = PizzaType(
    pizzaTypeId: string,
    name: string,
    size: string,
    basePrice: real,
    description: string,
    createdAt: Time,
    updatedAt: Time)

  datatype Topping = Topping(
    toppingId: string,
    name: string,
    price: real,
    createdAt: Time,
    updatedAt: Time)

  datatype Beverage = Beverage(
    beverageId: string,
    name: string,
    price: real,
    createdAt: Time,
    updatedAt: Time)

  /** One row of the pizza_toppings join table. */
  datatype PizzaTopping = PizzaTopping(pizzaTypeId: string, toppingId: string)

  /** Body of the link request: only the topping id is read from it. */
  datatype LinkRequest = LinkRequest(toppingId: string)

  /** The invoice date is the creation instant (formatted as a date string by the server). */
  datatype Invoice = Invoice(
    invoiceId: int,
    invoiceDate: Time,
    subtotal: real,
    tax: real,
    total: real,
    customerName: string,
    updatedAt: Time)

  datatype InvoiceItem = InvoiceItem(
    invoiceItemId: int,
    invoiceId: int,
    itemId: string,
    quantity: int,
    unitPrice: real)

  /** Response of the printable-invoice endpoint. */
  datatype PrintableInvoice = PrintableInvoice(invoice: Invoice, invoiceItems: seq<InvoiceItem>)

  /** A request body: either the decoded record or the decoder's error text. */
  datatype Body<T> = Decoded(value: T) | Malformed(error: string)

  /** What a handler answers: 200 with a value, 201 with a value, 400 with a
      message, or 500 (the storage error text is not modelled). */
  datatype Outcome<T> = Ok(value: T) | Created(value: T) | BadRequest(msg: string) | InternalError

  /** The storage layer either accepts every statement of a handler, or
      rejects the statement with the given index (counted from 0, in the order
      the handler issues them, queries included). */
  datatype Fault = NoFault | FailAt(stmt: nat)

  const PizzaTypeNotFound := "Pizza type not found"
  const ToppingNotFound := "Topping not found"
  const PizzaTypeDeleted := "Pizza type deleted successfully"
  const ToppingDeleted := "Topping deleted successfully"
  const BeverageDeleted := "Beverage deleted successfully"
  const InvoiceDeleted := "Invoice deleted successfully"
  const InvoiceItemDeleted := "Invoice item deleted successfully"
}
