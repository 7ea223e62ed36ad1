# Clinic invoice form and invoice store — a verified Dafny model

This project models the two pieces of logic under the clinic's invoicing UI.

- **The invoice store** (`src/store/useInvoiceStore.ts`) holds the session's invoices as an append-only sequence. `addInvoice` copies the caller's data, attaches a fresh `id` and an `INV-<timestamp>` invoice number, appends the invoice and returns it. `getInvoice` finds the first invoice with a given id, or reports it as not found. Module `Store` models this with class `InvoiceStore`, whose `invoices` field is a `seq<Invoice>`, a method `AddInvoice` and a function `GetInvoice`.
- **The treatment-line editor** (the handlers in `src/components/InvoiceForm.tsx`) keeps an ordered list of treatment lines and a draft line. It can add a line from the draft, remove lines by id, edit a line's price or quantity, and submit the invoice. Module `Form` models these handlers as methods of class `InvoiceForm`. Module `TreatmentLines` holds the pure computations inside them: building a line, the `filter`, the `map`, and the `reduce` grand total.

Module `Types` holds the value shapes from `src/types/index.ts`. `Treatment` there has only `id`, `name` and `price`. The form also writes `quantity` and `total` into every line, so the model uses the superset `{id, name, price, quantity, total}`.

Money is an exact `real`. `quantity` is a `real` as well, because an edit stores `parseFloat(value)` in it. An add stores an integer there, namely the result of `parseInt`.

Inputs replace the primitives the source calls:
- `uuidv4()` becomes `freshId`, which must not already be an invoice id.
- `crypto.randomUUID()` becomes `lineId`, which must not already be a line id.
- `Date.now()` becomes `now`, a natural number of milliseconds.
- `new Date().toISOString().split('T')[0]`, the form's default date, becomes the constructor's `today` parameter.
- `parseFloat`/`parseInt` results become `price`, `quantity`, `value` and `age`, already parsed.

The main invariant is `InvoiceForm.Valid()`: every line has `total == price * quantity`, and line ids are distinct. Add, remove and edit all preserve it. The store's invariant is `InvoiceStore.Valid()`: invoice ids are pairwise distinct.

Three things the code does that a reader might not expect:
- The store does not compute `total`. It copies the caller's `total`, and the form computes it as the grand total of its lines.
- Quantity is not forced to be a positive integer. An add takes `parseInt` of the text with no sign check, and an edit stores any parsed decimal.
- No `listInvoices` operation exists. The listing is the store's `invoices` field, which views read directly.

## Model

| member | source | states |
|---|---|---|
| `Store.InvoiceStore.constructor` | src/store/useInvoiceStore.ts:11-12 | The store starts with an empty invoice sequence. |
| `Store.InvoiceStore.AddInvoice` | src/store/useInvoiceStore.ts:13-21 | The sequence grows by exactly the returned invoice, appended last, with earlier invoices unchanged and in order. The invoice carries the caller's data unchanged, the fresh id and `InvoiceNumber(now)`. Ids stay pairwise distinct. Afterwards `GetInvoice(inv.id) == Some(inv)`, and every lookup of another id gives what it gave before. |
| `Store.InvoiceStore.GetInvoice` | src/store/useInvoiceStore.ts:22-24 | Reads the store without changing it. Returns not-found exactly when no stored invoice has the id, and otherwise the invoice at the first matching position. |
| `Store.FindById` | src/store/useInvoiceStore.ts:23 | `find` by id returns not-found exactly when no element has the id. A found value has that id and is an element of the sequence. |
| `Store.FindFirst` | src/store/useInvoiceStore.ts:23 | If position k is the first with the id, the lookup returns the element at k. |
| `Store.FindDistinct` | src/store/useInvoiceStore.ts:16-23 | In a sequence with distinct ids, every element is found by its own id. |
| `Store.FindAppend` | src/store/useInvoiceStore.ts:19-23 | Appending changes no lookup that already succeeded. The appended invoice is found only by an id that no earlier invoice carries. |
| `Store.Decimal` | src/store/useInvoiceStore.ts:17 | The template literal's text for the timestamp is a non-empty run of decimal digits; `DecimalRoundTrip` shows it reads back as the timestamp. |
| `Store.InvoiceNumber` | src/store/useInvoiceStore.ts:17 | The invoice number is `INV-` followed by exactly the decimal text of the timestamp, a non-empty run of digits. |
| `Store.DecimalRoundTrip` | src/store/useInvoiceStore.ts:17 | Reading back the decimal text of the timestamp gives the timestamp. |
| `Store.InvoiceNumberInjective` | src/store/useInvoiceStore.ts:17 | Two invoice numbers are equal exactly when their timestamps are equal. Different ticks never collide, and two invoices made in the same tick always share a number. |
| `Form.InvoiceForm.constructor` | src/components/InvoiceForm.tsx:10-20 | The form starts with empty header fields, today's date, no lines and the draft `("", "", "1")`. |
| `Form.InvoiceForm.AddTreatment` | src/components/InvoiceForm.tsx:22-40 | If any draft input is empty, nothing changes. Otherwise exactly one line is appended: the fresh id, the draft name, the parsed price and quantity, and `total == price * quantity`. The draft then resets to `("", "", "1")`. The grand total grows by `price * quantity` in that case only, and the line invariant is kept. |
| `Form.InvoiceForm.RemoveTreatment` | src/components/InvoiceForm.tsx:42-44 | The new lines are the `filter` of the old ones. If line k had the id, the result is the old list without line k, and the grand total drops by that line's total. The line invariant is kept. |
| `Form.InvoiceForm.ChangeTreatment` | src/components/InvoiceForm.tsx:46-55 | The new lines are the `map` that edits the lines with the id. If line k had the id, only line k changes: it becomes the edited line and every other line stays in place. The grand total changes by the edited line's new total minus its old total. The line invariant is kept. |
| `Form.InvoiceForm.Submit` | src/components/InvoiceForm.tsx:57-69 | The store receives the header fields, the parsed age, the current lines, and a `total` equal to their grand total, which equals the sum of price times quantity. The store gains exactly that invoice, and it can be found by its id. |
| `Form.CanAdd` | src/components/InvoiceForm.tsx:23 | The add guard: the draft name, price text and quantity text are all non-empty. Its effect is stated by `AddTreatment` and `ResetDraftNeedsNameAndPrice`. |
| `Form.ResetDraftNeedsNameAndPrice` | src/components/InvoiceForm.tsx:16-23 | `EmptyDraft`, the draft `("", "", "1")` set at start and after each add, fails the guard `CanAdd`. Once a name and a price are typed it passes, because the default quantity "1" is non-empty. |
| `TreatmentLines.NewLine` | src/components/InvoiceForm.tsx:24-36 | A new line carries the given id, name, price and quantity, and it is consistent. |
| `TreatmentLines.EditLine` | src/components/InvoiceForm.tsx:49-50 | The edited field takes the value, and every other field except the total is kept. The total is recomputed, so the line is consistent whatever it was before. |
| `TreatmentLines.RemoveById` | src/components/InvoiceForm.tsx:43 | The result keeps exactly the elements whose id differs. It is never longer, and it equals the input when no line has the id. |
| `TreatmentLines.RemoveAppend` | src/components/InvoiceForm.tsx:43 | Removal distributes over concatenation, so the surviving lines keep their order. |
| `TreatmentLines.RemoveExisting` | src/components/InvoiceForm.tsx:43 | With distinct ids, removing line k's id yields `s[..k] + s[k+1..]`. |
| `TreatmentLines.RemovePreserves` | src/components/InvoiceForm.tsx:43 | Removal keeps all lines consistent and keeps ids distinct. |
| `TreatmentLines.EditById` | src/components/InvoiceForm.tsx:47-54 | Same length. Each position holds the edited line if its id matches and the original line otherwise. |
| `TreatmentLines.EditExisting` | src/components/InvoiceForm.tsx:47-54 | With distinct ids, editing by line k's id replaces line k with its edited form and leaves every other line, and the length, unchanged. |
| `TreatmentLines.EditPreserves` | src/components/InvoiceForm.tsx:47-54 | An edit keeps every line's id, keeps consistency, and keeps ids distinct. |
| `TreatmentLines.FoldTotals` | src/components/InvoiceForm.tsx:74 | The `reduce` left fold from any start value equals that value plus `SumTotals`, the separately defined right-to-left sum of the line totals. |
| `TreatmentLines.GrandTotal` | src/components/InvoiceForm.tsx:59 | The `reduce` started at 0 equals the sum of the line totals, and it is 0 for no lines. |
| `TreatmentLines.GrandTotalAppend` | src/components/InvoiceForm.tsx:74 | The grand total is additive over concatenation. |
| `TreatmentLines.GrandTotalOfConsistent` | src/components/InvoiceForm.tsx:59 | For consistent lines, the grand total is the sum of price times quantity. |
| `TreatmentLines.GrandTotalAfterAdd` | src/components/InvoiceForm.tsx:28-37 | Appending a line adds its total to the grand total. |
| `TreatmentLines.GrandTotalAfterRemove` | src/components/InvoiceForm.tsx:43 | With distinct ids, removing line k lowers the grand total by its total. |
| `TreatmentLines.GrandTotalAfterEdit` | src/components/InvoiceForm.tsx:47-54 | With distinct ids, editing line k changes the grand total by the line's new total minus its old one. |
| `TreatmentLines.TwoLineExample` | src/components/InvoiceForm.tsx:24-26 | A cleaning at 500 × 1 and an X-ray at 300 × 2 give line totals of 500 and 600 and a grand total of 1100. |

## Left out

- Markup and presentation: the JSX of the form, the invoice view, the list and the navbar; routing; the navigation after submit; menu toggling. None of it changes invoice or line state.
- The `onChange` setters of the header inputs and the draft inputs. These are plain assignments bound in the markup, and the model takes the resulting field values as given.
- PDF export: an asynchronous call into a third-party rasteriser, whose failure the caller only logs.
- The identity and clock primitives (`uuidv4`, `crypto.randomUUID`, `Date.now`, and the `new Date()` that gives the form's default date). They are inputs, and the uuid ones carry freshness preconditions. Nothing models the chance that a random id repeats.
- String-to-number parsing. NaN results, floating-point rounding, `toFixed(2)` and the rupee formatting are all left out, and totals are exact reals.
- Form.InvoiceForm.ChangeTreatment: covers only the price and quantity inputs. The name input also calls the handler, and the handler writes `parseFloat(value)` into whichever field is named. A name edit would replace the name with a number, usually NaN. That is a defect, not intended behaviour, so the model does not reproduce it.
- Zustand's `create`/`set`/`get` mechanics and React re-rendering. Each handler is one atomic update of the state.
