/**
  The line-item ledger of the create-sale screen (src/screens/sales/CreateSaleScreen.js):
  the rules for adding a product, editing a quantity or a rate, removing a line, and
  seeding the lines of a saved sale in edit mode. Each rule is a function from the old
  list of lines to the new one; the screen object in CreateSaleScreen applies them.
 */
module SaleLedger {

  import opened JsValues

  /** A product as the product search delivers it. */
  datatype Product = Product(dbId: JsId, id: JsId, name: string, sellingPrice: real, currentStock: real)

  /**
    One line of the sale: which product, its name at the time it was added, the quantity
    and the unit rate (each possibly the empty sentinel while being typed), and the stock
    known when the line was added, which caps the quantity. Stock is a number, not
    necessarily whole (products are sold by the kilogram too), and a capped quantity takes
    the stock's value, so the quantity cell holds a real as well.
   */
  datatype LineItem = LineItem(productId: JsId, productName: string, quantity: Slot<real>, rate: Slot<real>, maxStock: real)

  /** A line of a sale that was already saved, as the edit flow receives it. */
  datatype SavedItem = SavedItem(productId: JsId, productName: string, quantity: real, rate: real)

  /** The stock ceiling given to every seeded line in edit mode, whose real stock is not known. */
  const EditModeMaxStock: real := 9999.0

  /** The key a product is filed under: `product._id || product.id`. */
  function ProductKey(p: Product): JsId
  {
    IdOr(p.dbId, p.id)
  }

  /** Some line already refers to the product with this key. */
  predicate HasProduct(items: seq<LineItem>, key: JsId)
  {
    exists i | 0 <= i < |items| :: items[i].productId == key
  }

  /** No two lines refer to the same product. */
  predicate DistinctIds(items: seq<LineItem>)
  {
    forall i, j | 0 <= i < j < |items| :: items[i].productId != items[j].productId
  }

  /** Every quantity that is filled in is within its line's stock ceiling. */
  predicate QuantitiesCapped(items: seq<LineItem>)
  {
    forall i | 0 <= i < |items| :: items[i].quantity.Filled? ==> items[i].quantity.v <= items[i].maxStock
  }

  /** The fresh line for a product: quantity 1, its selling price, its stock as the ceiling. */
  function NewLine(p: Product): LineItem
  {
    LineItem(ProductKey(p), p.name, Filled(1.0), Filled(p.sellingPrice), p.currentStock)
  }

  datatype AddOutcome = Added | AlreadyAdded | OutOfStock

  datatype AddResult = AddResult(items: seq<LineItem>, outcome: AddOutcome)

  /**
    `addItem`: a product already in the list is refused first, then one with no stock;
    otherwise exactly one new line is appended after the existing ones. The new line starts
    at quantity 1 whatever the stock, so it is within its ceiling exactly when the stock is at
    least 1: a product with a fractional stock below 1 is added over its ceiling.
   */
  function AddItem(items: seq<LineItem>, p: Product): (r: AddResult)
    ensures r.outcome == AlreadyAdded <==> HasProduct(items, ProductKey(p))
    ensures r.outcome == OutOfStock <==> !HasProduct(items, ProductKey(p)) && p.currentStock <= 0.0
    ensures r.outcome != Added ==> r.items == items
    ensures r.outcome == Added ==>
      && |r.items| == |items| + 1
      && r.items[..|items|] == items
      && r.items[|items|] == LineItem(ProductKey(p), p.name, Filled(1.0), Filled(p.sellingPrice), p.currentStock)
    ensures DistinctIds(items) ==> DistinctIds(r.items)
    ensures r.outcome == Added && QuantitiesCapped(items) ==> (QuantitiesCapped(r.items) <==> p.currentStock >= 1.0)
    ensures r.outcome != Added ==> (QuantitiesCapped(r.items) <==> QuantitiesCapped(items))
  {
    if HasProduct(items, ProductKey(p)) then
      AddResult(items, AlreadyAdded)
    else if p.currentStock <= 0.0 then
      AddResult(items, OutOfStock)
    else
      var r := items + [NewLine(p)];
      assert r[..|items|] == items;
      assert r[|items|] == NewLine(p);
      AddResult(r, Added)
  }

  datatype QuantityEdit = QuantityEdit(item: LineItem, warned: bool)

  /**
    `updateItemQuantity` on one line: the empty text is stored as the empty sentinel; any
    other text is read with `parseInt(text) || 0`, and a value above the line's stock is
    replaced by the stock itself together with a warning. There is no lower bound.
   */
  function EditQuantity(item: LineItem, text: NumText): (r: QuantityEdit)
    ensures r.item == item.(quantity := r.item.quantity)
    ensures text.EmptyText? ==> r.item.quantity == Blank && !r.warned
    ensures !text.EmptyText? ==>
      && r.item.quantity.Filled?
      && r.item.quantity.v <= item.maxStock
      && (r.warned <==> CoerceInt(text) as real > item.maxStock)
      && r.item.quantity.v == (if r.warned then item.maxStock else CoerceInt(text) as real)
  {
    if text.EmptyText? then
      QuantityEdit(item.(quantity := Blank), false)
    else
      var q := CoerceInt(text) as real;
      if q > item.maxStock then
        QuantityEdit(item.(quantity := Filled(item.maxStock)), true)
      else
        QuantityEdit(item.(quantity := Filled(q)), false)
  }

  /**
    `updateItemRate` on one line: the empty text is stored as the empty sentinel, any other
    text as `parseFloat(text) || 0`, with no ceiling.
   */
  function EditRate(item: LineItem, text: NumText): (r: LineItem)
    ensures r == item.(rate := r.rate)
    ensures text.EmptyText? ==> r.rate == Blank
    ensures !text.EmptyText? ==> r.rate == Filled(CoerceFloat(text))
  {
    if text.EmptyText? then item.(rate := Blank) else item.(rate := Filled(CoerceFloat(text)))
  }

  /** The elements of `s[from..]` whose position is not `index`, in order: one step of `filter`. */
  function KeepOthers<T>(s: seq<T>, index: int, from: nat): seq<T>
    requires from <= |s|
    decreases |s| - from
  {
    if from == |s| then []
    else (if from == index then [] else [s[from]]) + KeepOthers(s, index, from + 1)
  }

  lemma {:induction false} KeepOthersSlices<T>(s: seq<T>, index: int, from: nat)
    requires from <= |s|
    ensures from <= index < |s| ==> KeepOthers(s, index, from) == s[from..index] + s[index + 1..]
    ensures !(from <= index < |s|) ==> KeepOthers(s, index, from) == s[from..]
    decreases |s| - from
  {
    if from < |s| {
      KeepOthersSlices(s, index, from + 1);
      if from == index {
        assert s[from..index] == [];
      } else if from < index < |s| {
        assert s[from..index] == [s[from]] + s[from + 1..index];
      } else {
        assert s[from..] == [s[from]] + s[from + 1..];
      }
    }
  }

  /**
    `removeItem`: `items.filter((_, i) => i !== index)`. A position inside the list is
    removed and the others keep their order; any other index leaves the list as it was.
   */
  function RemoveAt(items: seq<LineItem>, index: int): (r: seq<LineItem>)
    ensures 0 <= index < |items| ==> r == items[..index] + items[index + 1..] && |r| == |items| - 1
    ensures !(0 <= index < |items|) ==> r == items
    ensures DistinctIds(items) ==> DistinctIds(r)
    ensures QuantitiesCapped(items) ==> QuantitiesCapped(r)
  {
    KeepOthersSlices(items, index, 0);
    var r := KeepOthers(items, index, 0);
    assert 0 <= index < |items| ==> forall k | 0 <= k < |r| :: r[k] == items[if k < index then k else k + 1];
    r
  }

  /** The line seeded from a saved one in edit mode. */
  function SeedLine(s: SavedItem): LineItem
  {
    LineItem(s.productId, s.productName, Filled(s.quantity), Filled(s.rate), EditModeMaxStock)
  }

  /**
    Edit-mode seeding: one line per saved line, same product, name, quantity and rate,
    and the fixed ceiling 9999 as its stock.
   */
  function SeedItems(saved: seq<SavedItem>): (r: seq<LineItem>)
    ensures |r| == |saved|
    ensures forall i | 0 <= i < |r| ::
      && r[i].productId == saved[i].productId
      && r[i].productName == saved[i].productName
      && r[i].quantity == Filled(saved[i].quantity)
      && r[i].rate == Filled(saved[i].rate)
      && r[i].maxStock == 9999.0
  {
    seq(|saved|, i requires 0 <= i < |saved| => SeedLine(saved[i]))
  }

  /** Adding a product and then removing the line it produced gives back the original list. */
  lemma AddThenRemoveLast(items: seq<LineItem>, p: Product)
    requires AddItem(items, p).outcome == Added
    ensures RemoveAt(AddItem(items, p).items, |items|) == items
  {
    var r := AddItem(items, p).items;
    assert r[..|items|] == items;
  }

  /**
    Editing a quantity keeps every product id in place, so distinct ids stay distinct, and
    it keeps every filled quantity within its ceiling.
   */
  lemma EditQuantityKeepsInvariants(items: seq<LineItem>, i: nat, text: NumText)
    requires i < |items|
    ensures DistinctIds(items) ==> DistinctIds(items[i := EditQuantity(items[i], text).item])
    ensures QuantitiesCapped(items) ==> QuantitiesCapped(items[i := EditQuantity(items[i], text).item])
  {
  }

  /** Editing a rate changes neither ids nor quantities, so both invariants are kept. */
  lemma EditRateKeepsInvariants(items: seq<LineItem>, i: nat, text: NumText)
    requires i < |items|
    ensures DistinctIds(items) ==> DistinctIds(items[i := EditRate(items[i], text)])
    ensures QuantitiesCapped(items) ==> QuantitiesCapped(items[i := EditRate(items[i], text)])
  {
  }

  /** There is no lower cap: a negative numeral is stored as its truncated value. */
  lemma NegativeQuantityStored(item: LineItem)
    requires item.maxStock >= 0.0
    ensures EditQuantity(item, Decimal(-3.5)).item.quantity == Filled(-3.0)
    ensures !EditQuantity(item, Decimal(-3.5)).warned
  {
  }

  /** A request above the ceiling is clamped to it, with a warning (999 requested, 10 in stock). */
  lemma OverStockQuantityClamped(item: LineItem)
    requires item.maxStock == 10.0
    ensures EditQuantity(item, Decimal(999.0)) == QuantityEdit(item.(quantity := Filled(10.0)), true)
  {
  }

  /** A fractional ceiling is stored as it is: asking for 3 with 2.5 in stock stores 2.5 and warns. */
  lemma FractionalCeilingStored(item: LineItem)
    requires item.maxStock == 2.5
    ensures EditQuantity(item, Decimal(3.0)) == QuantityEdit(item.(quantity := Filled(2.5)), true)
  {
  }

  /**
    A product with stock between 0 and 1 passes the stock check, and its line starts at
    quantity 1, above its ceiling: the list is no longer capped.
   */
  lemma FractionalStockAddedOverCeiling(items: seq<LineItem>, p: Product)
    requires !HasProduct(items, ProductKey(p)) && 0.0 < p.currentStock < 1.0
    ensures AddItem(items, p).outcome == Added
    ensures !QuantitiesCapped(AddItem(items, p).items)
  {
  }
}
