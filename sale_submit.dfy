/**
  The submit guard of the create-sale screen (src/screens/sales/CreateSaleScreen.js,
  `handleSubmit`): four checks in a fixed order, the first failing one wins, and on success
  the payload that is sent to the sales service.
 */
module SaleSubmit {

  import opened Wrappers
  import opened JsValues
  import opened SaleLedger
  import opened SaleTotals

  /** The payment modes offered when a sale is created. */
  datatype SaleMode = Cash | Upi | Card

  /** A selected customer; only its identifiers matter here. */
  datatype Party = Party(dbId: JsId, id: JsId)

  datatype SaleError = MissingCustomer | EmptyCart | InvalidPaidAmount | OverPayment

  /** One line as it is sent: the product and the quantity and rate cells as stored. */
  datatype ItemPayload = ItemPayload(productId: JsId, quantity: Slot<real>, rate: Slot<real>)

  datatype SalePayload = SalePayload(
    customerId: JsId,
    items: seq<ItemPayload>,
    grossAmount: real,
    discount: real,
    netAmount: real,
    paidAmount: real,
    paymentMode: SaleMode)

  /** The lines projected to `{productId, quantity, rate}`, in the same order. */
  function Project(items: seq<LineItem>): (r: seq<ItemPayload>)
    ensures |r| == |items|
    ensures forall i | 0 <= i < |r| ::
      r[i].productId == items[i].productId && r[i].quantity == items[i].quantity && r[i].rate == items[i].rate
  {
    seq(|items|, i requires 0 <= i < |items| => ItemPayload(items[i].productId, items[i].quantity, items[i].rate))
  }

  /**
    `handleSubmit` up to the network call. The checks, in order: a customer is selected;
    there is at least one line; the paid amount (`parseFloat || 0`) is not negative; it does
    not exceed the net amount. The `isNaN(paid)` half of the third check can never fire
    because the coercion already turned NaN into 0. There is no check on the quantities.
   */
  function CheckSale(customer: Option<Party>, items: seq<LineItem>, discount: NumText, paid: NumText, mode: SaleMode)
    : (r: Result<SalePayload, SaleError>)
    ensures r == Failure(MissingCustomer) <==> customer.None?
    ensures r == Failure(EmptyCart) <==> customer.Some? && items == []
    ensures r == Failure(InvalidPaidAmount) <==> customer.Some? && items != [] && CoerceFloat(paid) < 0.0
    ensures r == Failure(OverPayment) <==>
      customer.Some? && items != [] && 0.0 <= CoerceFloat(paid) && CoerceFloat(paid) > Compute(items, discount, paid).net
    ensures r.Success? ==>
      && customer.Some?
      && r.value.customerId == IdOr(customer.value.dbId, customer.value.id)
      && |r.value.items| == |items| > 0
      && (forall i | 0 <= i < |items| ::
            r.value.items[i] == ItemPayload(items[i].productId, items[i].quantity, items[i].rate))
      && r.value.grossAmount == Gross(items)
      && r.value.discount == CoerceFloat(discount)
      && r.value.netAmount == Compute(items, discount, paid).net
      && r.value.paidAmount == CoerceFloat(paid)
      && 0.0 <= r.value.paidAmount <= r.value.netAmount
      && r.value.paymentMode == mode
  {
    if customer.None? then Failure(MissingCustomer)
    else if |items| == 0 then Failure(EmptyCart)
    else
      var p := CoerceFloat(paid);
      var totals := Compute(items, discount, paid);
      if p < 0.0 then Failure(InvalidPaidAmount)
      else if p > totals.net then Failure(OverPayment)
      else
        Success(SalePayload(
          IdOr(customer.value.dbId, customer.value.id),
          Project(items),
          totals.gross,
          CoerceFloat(discount),
          totals.net,
          p,
          mode))
  }

  /**
    On an accepted sale the pending balance the screen shows is exactly the part of the net
    amount that was not paid, with no flooring involved, and net = paid + pending.
   */
  lemma AcceptedSaleBalances(customer: Option<Party>, items: seq<LineItem>, discount: NumText, paid: NumText, mode: SaleMode)
    requires CheckSale(customer, items, discount, paid, mode).Success?
    ensures var s := CheckSale(customer, items, discount, paid, mode).value;
      Compute(items, discount, paid).pending == s.netAmount - s.paidAmount
  {
  }

  /** A sale with no lines is refused as an empty cart once a customer is chosen, whatever the amounts. */
  lemma EmptyCartWhateverAmounts(c: Party, discount: NumText, paid: NumText, mode: SaleMode)
    ensures CheckSale(Some(c), [], discount, paid, mode) == Failure(EmptyCart)
  {
  }
}
