/**
 * The invoice form's state and its handlers: add, remove and edit a
 * treatment line, and submit the invoice to the store. Each handler is one
 * atomic update of the form's state. Parsing is done before a handler
 * runs: `price`, `quantity` and `value` are the numbers `parseFloat` and
 * `parseInt` produced, and `lineId` stands for `crypto.randomUUID()`.
 */
module Form {
  import opened Types
  import opened TreatmentLines
  import Store

  /** The not-yet-added line: the raw text of its three inputs. */
  datatype Draft = Draft(name: string, price: string, quantity: string)

  /** The draft the form starts with and returns to after each add. */
  const EmptyDraft: Draft := Draft("", "", "1")

  /** The add guard: all three draft inputs are non-empty text. */
  predicate CanAdd(d: Draft) {
    d.name != "" && d.price != "" && d.quantity != ""
  }

  /**
   * The reset draft blocks the next add until both a name and a price are
   * typed; its default quantity "1" already passes the guard.
   */
  lemma ResetDraftNeedsNameAndPrice(name: string, price: string)
    ensures !CanAdd(EmptyDraft)
    ensures CanAdd(EmptyDraft.(name := name, price := price)) <==> name != "" && price != ""
  {
  }

  class InvoiceForm {
    var patientName: string
    var age: string
    var phoneNumber: string
    var opNumber: string
    var date: string
    var treatments: seq<Treatment>
    var draft: Draft

    /** Every line's total is its price times its quantity, and line ids are distinct. */
    ghost predicate Valid()
      reads this
    {
      AllConsistent(treatments) && DistinctIds(treatments)
    }

    /** Empty header fields, `date` set to today, no lines, the empty draft. */
    constructor (today: string)
      ensures Valid()
      ensures patientName == "" && age == "" && phoneNumber == "" && opNumber == ""
      ensures date == today && treatments == [] && draft == EmptyDraft
    {
      patientName, age, phoneNumber, opNumber := "", "", "", "";
      date := today;
      treatments := [];
      draft := EmptyDraft;
    }

    /**
     * `handleAddTreatment`: when the draft passes the guard, appends one line
     * built from the draft name and the parsed price and quantity, and resets
     * the draft; otherwise changes nothing.
     */
    method AddTreatment(lineId: string, price: real, quantity: int)
      requires Valid()
      requires !HasId(treatments, lineId)
      modifies this`treatments, this`draft
      ensures Valid()
      ensures CanAdd(old(draft)) ==>
                treatments == old(treatments) + [NewLine(lineId, old(draft).name, price, quantity)]
                && draft == EmptyDraft
      ensures !CanAdd(old(draft)) ==> treatments == old(treatments) && draft == old(draft)
      ensures GrandTotal(treatments) == GrandTotal(old(treatments))
                + if CanAdd(old(draft)) then price * quantity as real else 0.0
    {
      if CanAdd(draft) {
        var line := NewLine(lineId, draft.name, price, quantity);
        GrandTotalAfterAdd(treatments, line);
        treatments := treatments + [line];
        draft := EmptyDraft;
      }
    }

    /** `handleRemoveTreatment`: drops every line with this id, keeping the rest in order. */
    method RemoveTreatment(id: string)
      requires Valid()
      modifies this`treatments
      ensures Valid()
      ensures treatments == RemoveById(old(treatments), id)
      ensures forall k :: 0 <= k < |old(treatments)| && old(treatments)[k].id == id ==>
                treatments == old(treatments)[..k] + old(treatments)[k + 1..]
                && GrandTotal(treatments) == GrandTotal(old(treatments)) - old(treatments)[k].total
    {
      ghost var before := treatments;
      RemovePreserves(treatments, id);
      treatments := RemoveById(treatments, id);
      forall k | 0 <= k < |before| && before[k].id == id
        ensures treatments == before[..k] + before[k + 1..]
        ensures GrandTotal(treatments) == GrandTotal(before) - before[k].total
      {
        RemoveExisting(before, k);
        GrandTotalAfterRemove(before, k);
      }
    }

    /**
     * `handleTreatmentChange` for the price or quantity input: the matching
     * line takes the parsed value and its total is recomputed.
     */
    method ChangeTreatment(id: string, field: Field, value: real)
      requires Valid()
      modifies this`treatments
      ensures Valid()
      ensures treatments == EditById(old(treatments), id, field, value)
      ensures forall k :: 0 <= k < |old(treatments)| && old(treatments)[k].id == id ==>
                treatments == old(treatments)[..k] + [EditLine(old(treatments)[k], field, value)]
                              + old(treatments)[k + 1..]
                && GrandTotal(treatments)
                   == GrandTotal(old(treatments)) - old(treatments)[k].total
                      + EditLine(old(treatments)[k], field, value).total
    {
      ghost var before := treatments;
      EditPreserves(treatments, id, field, value);
      treatments := EditById(treatments, id, field, value);
      forall k | 0 <= k < |before| && before[k].id == id
        ensures treatments == before[..k] + [EditLine(before[k], field, value)] + before[k + 1..]
        ensures GrandTotal(treatments)
                == GrandTotal(before) - before[k].total + EditLine(before[k], field, value).total
      {
        EditExisting(before, k, field, value);
        GrandTotalAfterEdit(before, k, field, value);
      }
    }

    /**
     * `handleSubmit`: hands the header fields, the current lines and their
     * grand total to the store, which appends the new invoice. `parsedAge` is
     * `parseInt` of the age field, `invoiceId` and `now` the store's id and clock inputs.
     */
    method Submit(store: Store.InvoiceStore, parsedAge: int, invoiceId: string, now: nat)
      returns (inv: Invoice)
      requires Valid() && store.Valid()
      requires !Store.HasInvoiceId(store.invoices, invoiceId)
      modifies store
      ensures store.Valid()
      ensures store.invoices == old(store.invoices) + [inv]
      ensures DataOf(inv) == InvoiceData(patientName, parsedAge, phoneNumber, opNumber,
                                         treatments, GrandTotal(treatments), date)
      ensures inv.id == invoiceId && inv.invoiceNumber == Store.InvoiceNumber(now)
      ensures inv.total == SumPriced(inv.treatments)
      ensures store.GetInvoice(inv.id) == Some(inv)
    {
      var grandTotal := GrandTotal(treatments);
      GrandTotalOfConsistent(treatments);
      inv := store.AddInvoice(
        InvoiceData(patientName, parsedAge, phoneNumber, opNumber, treatments, grandTotal, date),
        invoiceId, now);
    }
  }
}
