/**
  The state of the create-sale screen (src/screens/sales/CreateSaleScreen.js): the chosen
  customer, the lines, the discount and paid-amount fields, the payment mode and which line
  is expanded for editing. The event handlers update these fields; the amounts and the
  submit decision are read from them.
 */
module CreateSaleScreen {

  import opened Wrappers
  import opened JsValues
  import opened SaleLedger
  import opened SaleTotals
  import opened SaleSubmit

  /** A saved sale handed to the screen for editing. */
  datatype SavedSale = SavedSale(customer: Party, items: seq<SavedItem>, discount: real, paidAmount: real, paymentMode: SaleMode)

  class SaleComposer {
    var customer: Option<Party>
    var items: seq<LineItem>
    var discount: NumText
    var paid: NumText
    var mode: SaleMode
    var expanded: Option<int>

    /** A fresh session: no customer, no lines, discount and paid `'0'`, cash. */
    constructor ()
      ensures customer == None && items == [] && expanded == None
      ensures discount == Decimal(0.0) && paid == Decimal(0.0) && mode == Cash
      ensures DistinctIds(items) && QuantitiesCapped(items)
    {
      customer := None;
      items := [];
      discount := Decimal(0.0);
      paid := Decimal(0.0);
      mode := Cash;
      expanded := None;
    }

    /**
      The edit-mode effect: with edit mode on and a saved sale given, the customer, the lines
      (each with ceiling 9999), the discount and paid texts and the mode are taken from it;
      otherwise nothing changes.
     */
    method SeedForEdit(editMode: bool, initial: Option<SavedSale>)
      modifies this
      ensures editMode && initial.Some? ==>
        && customer == Some(initial.value.customer)
        && items == SeedItems(initial.value.items)
        && discount == ToText(initial.value.discount)
        && paid == ToText(initial.value.paidAmount)
        && mode == initial.value.paymentMode
      ensures !(editMode && initial.Some?) ==>
        customer == old(customer) && items == old(items) && discount == old(discount) && paid == old(paid) && mode == old(mode)
      ensures expanded == old(expanded)
    {
      if editMode && initial.Some? {
        var s := initial.value;
        customer := Some(s.customer);
        items := SeedItems(s.items);
        discount := ToText(s.discount);
        paid := ToText(s.paidAmount);
        mode := s.paymentMode;
      }
    }

    /** `addItem`: the list becomes the ledger rule's result; nothing else changes. */
    method AddItem(p: Product) returns (outcome: AddOutcome)
      modifies this
      ensures outcome == SaleLedger.AddItem(old(items), p).outcome
      ensures items == SaleLedger.AddItem(old(items), p).items
      ensures outcome == AlreadyAdded <==> HasProduct(old(items), ProductKey(p))
      ensures outcome != Added ==> items == old(items)
      ensures outcome == Added ==> items == old(items) + [NewLine(p)]
      ensures outcome == OutOfStock <==> !HasProduct(old(items), ProductKey(p)) && p.currentStock <= 0.0
      ensures DistinctIds(old(items)) ==> DistinctIds(items)
      ensures QuantitiesCapped(old(items)) && (outcome != Added || p.currentStock >= 1.0) ==> QuantitiesCapped(items)
      ensures QuantitiesCapped(old(items)) && outcome == Added && p.currentStock < 1.0 ==> !QuantitiesCapped(items)
      ensures Totals().gross == old(Totals().gross) + (if outcome == Added then p.sellingPrice else 0.0)
      ensures customer == old(customer) && discount == old(discount) && paid == old(paid)
      ensures mode == old(mode) && expanded == old(expanded)
    {
      var r := SaleLedger.AddItem(items, p);
      GrossAfterAdd(items, p);
      if r.outcome == Added {
        assert r.items == items + [NewLine(p)];
      }
      items := r.items;
      outcome := r.outcome;
    }

    /**
      `updateItemQuantity`: line `index` gets the edited quantity (capped at its stock, with a
      warning when that happened); every other line and every other field stays as it was.
     */
    method UpdateItemQuantity(index: nat, text: NumText) returns (warned: bool)
      requires index < |items|
      modifies this
      ensures |items| == |old(items)|
      ensures items[index] == EditQuantity(old(items)[index], text).item
      ensures warned == EditQuantity(old(items)[index], text).warned
      ensures forall j | 0 <= j < |items| && j != index :: items[j] == old(items)[j]
      ensures !text.EmptyText? ==> items[index].quantity.Filled? && items[index].quantity.v <= items[index].maxStock
      ensures DistinctIds(old(items)) ==> DistinctIds(items)
      ensures QuantitiesCapped(old(items)) ==> QuantitiesCapped(items)
      ensures Totals().gross == old(Totals().gross) - LineAmount(old(items)[index]) + LineAmount(items[index])
      ensures customer == old(customer) && discount == old(discount) && paid == old(paid)
      ensures mode == old(mode) && expanded == old(expanded)
    {
      var e := EditQuantity(items[index], text);
      GrossAfterReplace(items, index, e.item);
      EditQuantityKeepsInvariants(items, index, text);
      items := items[index := e.item];
      warned := e.warned;
    }

    /** `updateItemRate`: line `index` gets the edited rate; nothing else changes. */
    method UpdateItemRate(index: nat, text: NumText)
      requires index < |items|
      modifies this
      ensures items == old(items)[index := EditRate(old(items)[index], text)]
      ensures DistinctIds(old(items)) ==> DistinctIds(items)
      ensures QuantitiesCapped(old(items)) ==> QuantitiesCapped(items)
      ensures Totals().gross == old(Totals().gross) - LineAmount(old(items)[index]) + LineAmount(items[index])
      ensures customer == old(customer) && discount == old(discount) && paid == old(paid)
      ensures mode == old(mode) && expanded == old(expanded)
    {
      var x := EditRate(items[index], text);
      GrossAfterReplace(items, index, x);
      EditRateKeepsInvariants(items, index, text);
      items := items[index := x];
    }

    /**
      `removeItem`: the line at `index` is dropped (others keep their order), and the expanded
      marker is cleared only when it pointed at exactly that index.
     */
    method RemoveItem(index: int)
      modifies this
      ensures items == RemoveAt(old(items), index)
      ensures 0 <= index < |old(items)| ==> |items| == |old(items)| - 1
      ensures expanded == if old(expanded) == Some(index) then None else old(expanded)
      ensures DistinctIds(old(items)) ==> DistinctIds(items)
      ensures QuantitiesCapped(old(items)) ==> QuantitiesCapped(items)
      ensures 0 <= index < |old(items)| ==> Totals().gross == old(Totals().gross) - LineAmount(old(items)[index])
      ensures customer == old(customer) && discount == old(discount) && paid == old(paid) && mode == old(mode)
    {
      if 0 <= index < |items| {
        GrossAfterRemove(items, index);
      }
      items := RemoveAt(items, index);
      if expanded == Some(index) {
        expanded := None;
      }
    }

    /** The gross, net and pending amounts shown for the current fields. */
    function Totals(): (t: SaleTotals.Totals)
      reads this
      ensures t == Compute(items, discount, paid)
    {
      Compute(items, discount, paid)
    }

    /** `handleSubmit` up to the network call; it changes nothing on the screen. */
    method Submit() returns (r: Result<SalePayload, SaleError>)
      ensures r == CheckSale(customer, items, discount, paid, mode)
      ensures r.Success? ==> r.value.netAmount == Totals().net && r.value.grossAmount == Totals().gross
    {
      r := CheckSale(customer, items, discount, paid, mode);
    }
  }
}
