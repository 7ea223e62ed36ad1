/**
 * The pure computations inside the treatment-line handlers of the invoice
 * form: building a line, the `filter` that removes lines, the `map` that
 * edits one, and the `reduce` that gives the grand total.
 */
module TreatmentLines {
  import opened Types

  /** A line whose total is its unit price times its quantity. */
  predicate Consistent(t: Treatment) {
    t.total == t.price * t.quantity
  }

  predicate AllConsistent(s: seq<Treatment>) {
    forall i :: 0 <= i < |s| ==> Consistent(s[i])
  }

  predicate HasId(s: seq<Treatment>, id: string) {
    exists i :: 0 <= i < |s| && s[i].id == id
  }

  predicate DistinctIds(s: seq<Treatment>) {
    forall i, j :: 0 <= i < j < |s| ==> s[i].id != s[j].id
  }

  /** The line the add handler builds from the parsed price and quantity. */
  function NewLine(id: string, name: string, price: real, quantity: int): (t: Treatment)
    ensures Consistent(t)
    ensures t.id == id && t.name == name
    ensures t.price == price && t.quantity == quantity as real
  {
    var q := quantity as real;
    Treatment(id, name, price, q, price * q)
  }

  /** The two numeric fields an edit may target. */
  datatype Field = Price | Quantity

  /** One edited line: the field takes the parsed value, the total is recomputed. */
  function EditLine(t: Treatment, f: Field, v: real): (r: Treatment)
    ensures Consistent(r)
    ensures r.id == t.id && r.name == t.name
    ensures f == Price ==> r.price == v && r.quantity == t.quantity
    ensures f == Quantity ==> r.quantity == v && r.price == t.price
  {
    match f
    case Price => t.(price := v, total := v * t.quantity)
    case Quantity => t.(quantity := v, total := t.price * v)
  }

  /** `filter(t => t.id !== id)`. */
  function RemoveById(s: seq<Treatment>, id: string): (r: seq<Treatment>)
    ensures |r| <= |s|
    ensures forall t :: t in r <==> t in s && t.id != id
    ensures !HasId(s, id) ==> r == s
  {
    if s == [] then []
    else
      var rest := RemoveById(s[1..], id);
      if s[0].id == id then rest else [s[0]] + rest
  }

  /** `map(t => t.id === id ? edited t : t)`. */
  function EditById(s: seq<Treatment>, id: string, f: Field, v: real): (r: seq<Treatment>)
    ensures |r| == |s|
    ensures forall i :: 0 <= i < |s| ==>
              r[i] == if s[i].id == id then EditLine(s[i], f, v) else s[i]
  {
    if s == [] then []
    else [if s[0].id == id then EditLine(s[0], f, v) else s[0]] + EditById(s[1..], id, f, v)
  }

  /** `reduce((sum, t) => sum + t.total, acc)`: a left fold over the line totals. */
  function FoldTotals(acc: real, s: seq<Treatment>): (r: real)
    ensures r == acc + SumTotals(s)
    decreases s
  {
    if s == [] then acc else FoldTotals(acc + s[0].total, s[1..])
  }

  /** The grand total the form shows and submits: the fold started at 0. */
  function GrandTotal(s: seq<Treatment>): (r: real)
    ensures r == SumTotals(s)
    ensures s == [] ==> r == 0.0
  {
    FoldTotals(0.0, s)
  }

  /** Reference definition: the sum of the line totals, right to left. */
  function SumTotals(s: seq<Treatment>): real {
    if s == [] then 0.0 else s[0].total + SumTotals(s[1..])
  }

  /** Reference definition: the sum of price times quantity over the lines. */
  function SumPriced(s: seq<Treatment>): real {
    if s == [] then 0.0 else s[0].price * s[0].quantity + SumPriced(s[1..])
  }

  lemma {:induction false} SumAppend(a: seq<Treatment>, b: seq<Treatment>)
    ensures SumTotals(a + b) == SumTotals(a) + SumTotals(b)
  {
    if a != [] {
      assert (a + b)[0] == a[0] && (a + b)[1..] == a[1..] + b;
      SumAppend(a[1..], b);
    } else {
      assert a + b == b;
    }
  }

  /** The grand total is additive over concatenation. */
  lemma GrandTotalAppend(a: seq<Treatment>, b: seq<Treatment>)
    ensures GrandTotal(a + b) == GrandTotal(a) + GrandTotal(b)
  {
    SumAppend(a, b);
  }

  lemma {:induction false} SumOfConsistent(s: seq<Treatment>)
    requires AllConsistent(s)
    ensures SumTotals(s) == SumPriced(s)
  {
    if s != [] {
      assert Consistent(s[0]);
      SumOfConsistent(s[1..]);
    }
  }

  /** When every line is consistent, the grand total is the sum of price times quantity. */
  lemma GrandTotalOfConsistent(s: seq<Treatment>)
    requires AllConsistent(s)
    ensures GrandTotal(s) == SumPriced(s)
  {
    SumOfConsistent(s);
  }

  /** Appending a line adds its total to the grand total. */
  lemma GrandTotalAfterAdd(s: seq<Treatment>, t: Treatment)
    ensures GrandTotal(s + [t]) == GrandTotal(s) + t.total
  {
    GrandTotalAppend(s, [t]);
  }

  /** Removal keeps the surviving lines in order: it distributes over concatenation. */
  lemma {:induction false} RemoveAppend(a: seq<Treatment>, b: seq<Treatment>, id: string)
    ensures RemoveById(a + b, id) == RemoveById(a, id) + RemoveById(b, id)
  {
    if a != [] {
      assert (a + b)[0] == a[0] && (a + b)[1..] == a[1..] + b;
      RemoveAppend(a[1..], b, id);
    } else {
      assert a + b == b;
    }
  }

  /** With distinct ids, the id of line k occurs nowhere before or after it. */
  lemma IdOnlyAt(s: seq<Treatment>, k: nat)
    requires DistinctIds(s) && k < |s|
    ensures !HasId(s[..k], s[k].id) && !HasId(s[k + 1..], s[k].id)
  {
    forall i | 0 <= i < k ensures s[..k][i].id != s[k].id {
      assert s[..k][i] == s[i];
    }
    var post := s[k + 1..];
    forall i | 0 <= i < |post| ensures post[i].id != s[k].id {
      assert post[i] == s[k + 1 + i];
    }
  }

  /** With distinct ids, removing the id of line k takes out exactly that line. */
  lemma RemoveExisting(s: seq<Treatment>, k: nat)
    requires DistinctIds(s) && k < |s|
    ensures RemoveById(s, s[k].id) == s[..k] + s[k + 1..]
  {
    IdOnlyAt(s, k);
    RemoveOnlyAt(s, k);
  }

  /** If the id of line k occurs nowhere else, removing it takes out exactly line k. */
  lemma RemoveOnlyAt(s: seq<Treatment>, k: nat)
    requires k < |s| && !HasId(s[..k], s[k].id) && !HasId(s[k + 1..], s[k].id)
    ensures RemoveById(s, s[k].id) == s[..k] + s[k + 1..]
  {
    var id, pre, post := s[k].id, s[..k], s[k + 1..];
    assert RemoveById([s[k]], id) == [] by {
      assert [s[k]][1..] == [];
    }
    RemoveAppend([s[k]], post, id);
    RemoveAppend(pre, [s[k]] + post, id);
    assert s == pre + ([s[k]] + post);
  }

  lemma GrandTotalSplit(pre: seq<Treatment>, t: Treatment, post: seq<Treatment>)
    ensures GrandTotal(pre + [t] + post) == GrandTotal(pre + post) + t.total
  {
    GrandTotalAppend(pre + [t], post);
    GrandTotalAfterAdd(pre, t);
    GrandTotalAppend(pre, post);
  }

  /** Removing line k lowers the grand total by that line's total. */
  lemma GrandTotalAfterRemove(s: seq<Treatment>, k: nat)
    requires DistinctIds(s) && k < |s|
    ensures GrandTotal(RemoveById(s, s[k].id)) == GrandTotal(s) - s[k].total
  {
    RemoveExisting(s, k);
    GrandTotalSplit(s[..k], s[k], s[k + 1..]);
    assert s == s[..k] + [s[k]] + s[k + 1..];
  }

  /** Removal keeps every line consistent and keeps ids distinct. */
  lemma {:induction false} RemovePreserves(s: seq<Treatment>, id: string)
    ensures AllConsistent(s) ==> AllConsistent(RemoveById(s, id))
    ensures DistinctIds(s) ==> DistinctIds(RemoveById(s, id))
  {
    if s != [] {
      RemovePreserves(s[1..], id);
      var rest := RemoveById(s[1..], id);
      if DistinctIds(s) && s[0].id != id {
        forall t | t in rest ensures t.id != s[0].id {
          var j :| 0 <= j < |s[1..]| && s[1..][j] == t;
          assert s[1 + j] == t;
        }
        assert DistinctIds(s[1..]) by {
          forall i, j | 0 <= i < j < |s[1..]| ensures s[1..][i].id != s[1..][j].id {
            assert s[1..][i] == s[1 + i] && s[1..][j] == s[1 + j];
          }
        }
      }
    }
  }

  /** An edit keeps every line's id, keeps consistency, and keeps ids distinct. */
  lemma EditPreserves(s: seq<Treatment>, id: string, f: Field, v: real)
    ensures forall i :: 0 <= i < |s| ==> EditById(s, id, f, v)[i].id == s[i].id
    ensures AllConsistent(s) ==> AllConsistent(EditById(s, id, f, v))
    ensures DistinctIds(s) ==> DistinctIds(EditById(s, id, f, v))
  {
    var r := EditById(s, id, f, v);
    assert forall i :: 0 <= i < |s| ==> r[i].id == s[i].id;
  }

  /** If the id of line k occurs nowhere else, the edit changes line k and nothing else. */
  lemma EditOnlyAt(s: seq<Treatment>, k: nat, f: Field, v: real)
    requires k < |s| && !HasId(s[..k], s[k].id) && !HasId(s[k + 1..], s[k].id)
    ensures EditById(s, s[k].id, f, v) == s[..k] + [EditLine(s[k], f, v)] + s[k + 1..]
  {
    var r := EditById(s, s[k].id, f, v);
    var t := s[..k] + [EditLine(s[k], f, v)] + s[k + 1..];
    forall i | 0 <= i < |s| ensures r[i] == t[i] {
      if i < k {
        assert s[..k][i] == s[i];
      } else if i > k {
        assert s[k + 1..][i - k - 1] == s[i];
      }
    }
  }

  /** With distinct ids, editing by line k's id replaces line k and keeps every other line. */
  lemma EditExisting(s: seq<Treatment>, k: nat, f: Field, v: real)
    requires DistinctIds(s) && k < |s|
    ensures EditById(s, s[k].id, f, v) == s[..k] + [EditLine(s[k], f, v)] + s[k + 1..]
  {
    IdOnlyAt(s, k);
    EditOnlyAt(s, k, f, v);
  }

  /** With distinct ids, editing line k changes the grand total by that line's change. */
  lemma GrandTotalAfterEdit(s: seq<Treatment>, k: nat, f: Field, v: real)
    requires DistinctIds(s) && k < |s|
    ensures GrandTotal(EditById(s, s[k].id, f, v))
            == GrandTotal(s) - s[k].total + EditLine(s[k], f, v).total
  {
    EditExisting(s, k, f, v);
    GrandTotalSplit(s[..k], EditLine(s[k], f, v), s[k + 1..]);
    GrandTotalSplit(s[..k], s[k], s[k + 1..]);
    assert s == s[..k] + [s[k]] + s[k + 1..];
  }

  /** A cleaning at 500 and two X-rays at 300 make lines of 500 and 600 and a total of 1100. */
  lemma TwoLineExample()
    ensures var s := [NewLine("a", "Cleaning", 500.0, 1), NewLine("b", "X-Ray", 300.0, 2)];
            s[0].total == 500.0 && s[1].total == 600.0 && GrandTotal(s) == 1100.0
  {
    var s := [NewLine("a", "Cleaning", 500.0, 1), NewLine("b", "X-Ray", 300.0, 2)];
    assert s[1..][1..] == [];
  }
}
