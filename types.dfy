/** Value shapes shared by the invoice form and the invoice store. */
module Types {

  /** "Found or not": the `Invoice | undefined` that a lookup returns. */
  datatype Option<+T> = None | Some(value: T)

  /**
   * One billable treatment line. The declared interface carries only
   * `id`, `name` and `price`; the form also writes `quantity` and `total`
   * into every line it builds, so this is the superset. Amounts are exact
   * reals; `quantity` is real because an edit stores a parsed decimal in it.
   */
  datatype Treatment = Treatment(
    id: string,
    name: string,
    price: real,
    quantity: real,
    total: real)

  /** A stored invoice: caller-supplied data plus `id` and `invoiceNumber`. */
  datatype Invoice = Invoice(
    id: string,
    invoiceNumber: string,
    patientName: string,
    age: int,
    phoneNumber: string,
    opNumber: string,
    treatments: seq<Treatment>,
    total: real,
    date: string)

  /** `Omit<Invoice, 'id' | 'invoiceNumber'>`: what a caller hands the store. */
  datatype InvoiceData = InvoiceData(
    patientName: string,
    age: int,
    phoneNumber: string,
    opNumber: string,
    treatments: seq<Treatment>,
    total: real,
    date: string)

  /** The caller-supplied part of an invoice, with the identity dropped. */
  function DataOf(inv: Invoice): InvoiceData {
    InvoiceData(inv.patientName, inv.age, inv.phoneNumber, inv.opNumber,
                inv.treatments, inv.total, inv.date)
  }
}
