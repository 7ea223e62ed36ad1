/**
 * The session-wide invoice store: an append-only sequence of invoices,
 * creation with identity assignment, and lookup by id. The uuid generator
 * and the clock are inputs: `freshId` stands for `uuidv4()` and `now` for
 * `Date.now()` (milliseconds since the epoch).
 */
module Store {
  import opened Types

  predicate IsDigits(s: string) {
    forall i :: 0 <= i < |s| ==> '0' <= s[i] <= '9'
  }

  function DigitChar(d: nat): (c: char)
    requires d < 10
    ensures '0' <= c <= '9'
  {
    (48 + d) as char
  }

  /** The decimal text of a natural number, as a template literal prints it. */
  function Decimal(n: nat): (s: string)
    ensures |s| >= 1 && IsDigits(s)
  {
    if n < 10 then [DigitChar(n)] else Decimal(n / 10) + [DigitChar(n % 10)]
  }

  /** Reads decimal text as a number: it reads back what `Decimal` writes. */
  function DecimalValue(s: string): int {
    if s == [] then 0 else DecimalValue(s[..|s| - 1]) * 10 + (s[|s| - 1] as int - 48)
  }

  lemma {:induction false} DecimalRoundTrip(n: nat)
    ensures DecimalValue(Decimal(n)) == n
  {
    if n >= 10 {
      DecimalRoundTrip(n / 10);
      var s := Decimal(n);
      assert s[..|s| - 1] == Decimal(n / 10);
    }
  }

  const InvoicePrefix: string := "INV-"

  /** `INV-${Date.now()}`. */
  function InvoiceNumber(now: nat): (s: string)
    ensures |s| > |InvoicePrefix| && s[..|InvoicePrefix|] == InvoicePrefix
    ensures s[|InvoicePrefix|..] == Decimal(now)
    ensures IsDigits(s[|InvoicePrefix|..])
  {
    var s := InvoicePrefix + Decimal(now);
    assert s[|InvoicePrefix|..] == Decimal(now);
    s
  }

  /**
   * Two invoice numbers coincide exactly when they were made at the same
   * clock tick: distinct ticks never collide, and equal ticks always do.
   */
  lemma InvoiceNumberInjective(a: nat, b: nat)
    ensures InvoiceNumber(a) == InvoiceNumber(b) <==> a == b
  {
    if InvoiceNumber(a) == InvoiceNumber(b) {
      assert InvoiceNumber(a)[|InvoicePrefix|..] == Decimal(a);
      assert InvoiceNumber(b)[|InvoicePrefix|..] == Decimal(b);
      DecimalRoundTrip(a);
      DecimalRoundTrip(b);
    }
  }

  predicate HasInvoiceId(s: seq<Invoice>, id: string) {
    exists i :: 0 <= i < |s| && s[i].id == id
  }

  predicate IdsDistinct(s: seq<Invoice>) {
    forall i, j :: 0 <= i < j < |s| ==> s[i].id != s[j].id
  }

  /** Position k holds the first invoice of `s` whose id is `id`. */
  predicate FirstMatch(s: seq<Invoice>, id: string, k: nat) {
    k < |s| && s[k].id == id && forall j :: 0 <= j < k ==> s[j].id != id
  }

  /** `invoices.find(invoice => invoice.id === id)`. */
  function FindById(s: seq<Invoice>, id: string): (r: Option<Invoice>)
    ensures r.None? <==> !HasInvoiceId(s, id)
    ensures r.Some? ==> r.value.id == id && r.value in s
  {
    if s == [] then None
    else if s[0].id == id then Some(s[0])
    else FindById(s[1..], id)
  }

  /** The lookup returns the FIRST invoice with the id. */
  lemma {:induction false} FindFirst(s: seq<Invoice>, id: string, k: nat)
    requires FirstMatch(s, id, k)
    ensures FindById(s, id) == Some(s[k])
  {
    if k > 0 {
      assert s[0].id != id;
      assert FirstMatch(s[1..], id, k - 1) by {
        forall j | 0 <= j < k - 1 ensures s[1..][j].id != id {
          assert s[1..][j] == s[j + 1];
        }
      }
      FindFirst(s[1..], id, k - 1);
    }
  }

  /** In a store whose ids are distinct, every stored invoice is found by its id. */
  lemma FindDistinct(s: seq<Invoice>, k: nat)
    requires IdsDistinct(s) && k < |s|
    ensures FindById(s, s[k].id) == Some(s[k])
  {
    FindFirst(s, s[k].id, k);
  }

  /**
   * Appending an invoice changes no earlier lookup; the new invoice is found
   * only by an id that nothing earlier carries.
   */
  lemma {:induction false} FindAppend(s: seq<Invoice>, x: Invoice, id: string)
    ensures FindById(s + [x], id)
            == if FindById(s, id).Some? then FindById(s, id)
               else if x.id == id then Some(x) else None
  {
    if s == [] {
      assert s + [x] == [x];
      assert [x][1..] == [];
    } else {
      assert (s + [x])[0] == s[0] && (s + [x])[1..] == s[1..] + [x];
      FindAppend(s[1..], x, id);
    }
  }

  class InvoiceStore {
    /** Every invoice created this session, in creation order. */
    var invoices: seq<Invoice>

    ghost predicate Valid()
      reads this
    {
      IdsDistinct(invoices)
    }

    /** The store starts empty. */
    constructor ()
      ensures Valid() && invoices == []
    {
      invoices := [];
    }

    /**
     * Copies the caller's data, attaches `freshId` and the invoice number for
     * `now`, appends the invoice at the end, and returns it.
     */
    method AddInvoice(data: InvoiceData, freshId: string, now: nat) returns (inv: Invoice)
      requires Valid()
      requires !HasInvoiceId(invoices, freshId)
      modifies this
      ensures Valid()
      ensures invoices == old(invoices) + [inv]
      ensures DataOf(inv) == data
      ensures inv.id == freshId && inv.invoiceNumber == InvoiceNumber(now)
      ensures GetInvoice(inv.id) == Some(inv)
      ensures forall id :: id != freshId ==> GetInvoice(id) == old(GetInvoice(id))
    {
      inv := Invoice(freshId, InvoiceNumber(now), data.patientName, data.age,
                     data.phoneNumber, data.opNumber, data.treatments, data.total, data.date);
      ghost var before := invoices;
      invoices := invoices + [inv];
      forall id | id != freshId ensures FindById(invoices, id) == FindById(before, id) {
        FindAppend(before, inv, id);
      }
      FindAppend(before, inv, freshId);
    }

    /** `getInvoice`: the first stored invoice with this id, or not found. */
    function GetInvoice(id: string): (r: Option<Invoice>)
      reads this
      ensures r.None? <==> !HasInvoiceId(invoices, id)
      ensures forall k: nat :: FirstMatch(invoices, id, k) ==> r == Some(invoices[k])
    {
      FindFirstAll(invoices, id);
      FindById(invoices, id)
    }
  }

  lemma FindFirstAll(s: seq<Invoice>, id: string)
    ensures forall k: nat :: FirstMatch(s, id, k) ==> FindById(s, id) == Some(s[k])
  {
    forall k: nat | FirstMatch(s, id, k) ensures FindById(s, id) == Some(s[k]) {
      FindFirst(s, id, k);
    }
  }
}
