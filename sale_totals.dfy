/**
  The derived amounts of a sale (src/screens/sales/CreateSaleScreen.js, the totals memo):
  the gross amount is the sum of quantity times rate over the lines, the net amount is the
  gross less the discount floored at zero, and the pending amount is the net less what was
  paid, floored at zero. Empty or non-numeric cells and fields count as zero.
 */
module SaleTotals {

  import opened JsValues
  import opened SaleLedger

  /** What one line contributes: `(parseFloat(q) || 0) * (parseFloat(r) || 0)`. */
  function LineAmount(item: LineItem): real
  {
    RealSlotValue(item.quantity) * RealSlotValue(item.rate)
  }

  /** The gross amount, summed from the first line to the last as `reduce` does. */
  function Gross(items: seq<LineItem>): real
  {
    if items == [] then 0.0 else Gross(items[..|items| - 1]) + LineAmount(items[|items| - 1])
  }

  function Max0(x: real): real
  {
    if x > 0.0 then x else 0.0
  }

  datatype Totals = Totals(gross: real, net: real, pending: real)

  /**
    The three amounts shown under the lines. Net and pending are never negative, net is
    exactly gross less discount unless that is negative, pending is net less paid unless that
    is negative, and pending never exceeds net when the paid amount is not negative.
   */
  function Compute(items: seq<LineItem>, discount: NumText, paid: NumText): (t: Totals)
    ensures t.gross == Gross(items)
    ensures t.net >= 0.0 && t.net >= t.gross - CoerceFloat(discount)
    ensures t.net == 0.0 || t.net == t.gross - CoerceFloat(discount)
    ensures t.pending >= 0.0 && t.pending >= t.net - CoerceFloat(paid)
    ensures t.pending == 0.0 || t.pending == t.net - CoerceFloat(paid)
    ensures t.pending == 0.0 <==> CoerceFloat(paid) >= t.net
    ensures CoerceFloat(paid) >= 0.0 ==> t.pending <= t.net
    ensures CoerceFloat(discount) >= 0.0 && t.gross >= 0.0 ==> t.net <= t.gross
  {
    var gross := Gross(items);
    var net := Max0(gross - CoerceFloat(discount));
    Totals(gross, net, Max0(net - CoerceFloat(paid)))
  }

  /** The gross amount of a concatenation is the sum of the gross amounts of its parts. */
  lemma {:induction false} GrossAppend(a: seq<LineItem>, b: seq<LineItem>)
    ensures Gross(a + b) == Gross(a) + Gross(b)
    decreases |b|
  {
    if b == [] {
      assert a + b == a;
    } else {
      var b' := b[..|b| - 1];
      assert (a + b)[..|a + b| - 1] == a + b';
      GrossAppend(a, b');
    }
  }

  /** With no negative quantity and no negative rate, the gross amount is not negative. */
  lemma {:induction false} GrossNonNegative(items: seq<LineItem>)
    requires forall i | 0 <= i < |items| :: RealSlotValue(items[i].quantity) >= 0.0 && RealSlotValue(items[i].rate) >= 0.0
    ensures Gross(items) >= 0.0
  {
    if items != [] {
      GrossNonNegative(items[..|items| - 1]);
      var last := items[|items| - 1];
      assert LineAmount(last) >= 0.0;
    }
  }

  /** A one-line list contributes exactly that line. */
  lemma GrossSingle(x: LineItem)
    ensures Gross([x]) == LineAmount(x)
  {
    assert [x][..0] == [];
  }

  /** The gross amount splits around any line: before it, the line itself, after it. */
  lemma GrossSplit(items: seq<LineItem>, i: nat)
    requires i < |items|
    ensures Gross(items) == Gross(items[..i]) + LineAmount(items[i]) + Gross(items[i + 1..])
  {
    var pre, post := items[..i], items[i + 1..];
    assert items == (pre + [items[i]]) + post;
    GrossAppend(pre + [items[i]], post);
    GrossAppend(pre, [items[i]]);
    GrossSingle(items[i]);
  }

  /** Replacing one line changes the gross amount by exactly the difference of the two lines. */
  lemma GrossAfterReplace(items: seq<LineItem>, i: nat, x: LineItem)
    requires i < |items|
    ensures Gross(items[i := x]) == Gross(items) - LineAmount(items[i]) + LineAmount(x)
  {
    var r := items[i := x];
    GrossSplit(items, i);
    GrossSplit(r, i);
    assert r[..i] == items[..i] && r[i + 1..] == items[i + 1..];
  }

  /** Removing a line takes exactly that line's amount off the gross. */
  lemma GrossAfterRemove(items: seq<LineItem>, i: nat)
    requires i < |items|
    ensures Gross(RemoveAt(items, i)) == Gross(items) - LineAmount(items[i])
  {
    var pre, post := items[..i], items[i + 1..];
    var r := RemoveAt(items, i);
    assert r == pre + post;
    GrossSplit(items, i);
    GrossAppend(pre, post);
  }

  /** A successful add raises the gross by the product's selling price (quantity 1). */
  lemma GrossAfterAdd(items: seq<LineItem>, p: Product)
    ensures AddItem(items, p).outcome == Added ==> Gross(AddItem(items, p).items) == Gross(items) + p.sellingPrice
    ensures AddItem(items, p).outcome != Added ==> Gross(AddItem(items, p).items) == Gross(items)
  {
    var r := AddItem(items, p);
    if r.outcome == Added {
      assert r.items == items + [NewLine(p)];
      GrossAppend(items, [NewLine(p)]);
      GrossSingle(NewLine(p));
    }
  }

  /** Example: lines 2 x 50 and 1 x 30, discount 10, paid 50 give 130, 120 and 70. */
  lemma WorkedExample()
    ensures Compute([LineItem(Id("a"), "A", Filled(2.0), Filled(50.0), 5.0), LineItem(Id("b"), "B", Filled(1.0), Filled(30.0), 5.0)],
                    Decimal(10.0), Decimal(50.0)) == Totals(130.0, 120.0, 70.0)
  {
    var a := LineItem(Id("a"), "A", Filled(2.0), Filled(50.0), 5.0);
    var b := LineItem(Id("b"), "B", Filled(1.0), Filled(30.0), 5.0);
    assert LineAmount(a) == 100.0 && LineAmount(b) == 30.0;
    assert Gross([a]) == 100.0 by { assert [a][..0] == []; }
    assert Gross([a, b]) == 130.0 by { assert [a, b][..1] == [a]; }
  }

  /** Example: a discount larger than the gross gives net 0, and then pending 0. */
  lemma LargeDiscountExample(items: seq<LineItem>)
    requires Gross(items) == 100.0
    ensures Compute(items, Decimal(500.0), Decimal(0.0)) == Totals(100.0, 0.0, 0.0)
  {
  }
}
