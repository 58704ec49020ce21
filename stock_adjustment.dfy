/**
  The stock adjustment form (src/screens/products/StockAdjustmentScreen.js): the kind of
  adjustment, the quantity guard and the request sent for the product.
 */
module StockAdjustment {

  import opened Wrappers
  import opened JsValues

  /** The three kinds of adjustment the form offers: add, remove, or set an exact level. */
  datatype AdjustmentType = Add | Remove | Adjust

  /** The kind selected when the form opens. */
  const DefaultType: AdjustmentType := Add

  datatype StockData = StockData(quantity: real, kind: AdjustmentType, remarks: string)

  /** `{ id: productId, data: { quantity: Number(quantity), type, remarks } }`. */
  datatype StockRequest = StockRequest(id: JsId, data: StockData)

  datatype StockError = InvalidQuantity

  /**
    `handleSubmit`: `!quantity || isNaN(quantity) || Number(quantity) <= 0` refuses. So the
    request goes out exactly when the whole text is a numeral greater than zero, and it carries
    that number.
   */
  function CheckAdjustment(productId: JsId, quantity: NumText, kind: AdjustmentType, remarks: string)
    : (r: Result<StockRequest, StockError>)
    ensures r.Success? <==> quantity.Decimal? && quantity.v > 0.0
    ensures r.Failure? ==> r.error == InvalidQuantity
    ensures r.Success? ==> r.value == StockRequest(productId, StockData(quantity.v, kind, remarks))
  {
    if quantity.EmptyText? || IsNaN(quantity) || AtMost(NumberOf(quantity), 0.0) then
      Failure(InvalidQuantity)
    else
      Success(StockRequest(productId, StockData(NumberOf(quantity).v, kind, remarks)))
  }

  /** Each way the guard refuses: empty, not a number as a whole, zero or below. */
  lemma RefusedQuantities(productId: JsId, kind: AdjustmentType, remarks: string, v: real, w: real)
    requires w <= 0.0
    ensures CheckAdjustment(productId, EmptyText, kind, remarks) == Failure(InvalidQuantity)
    ensures CheckAdjustment(productId, NonNumeric, kind, remarks) == Failure(InvalidQuantity)
    ensures CheckAdjustment(productId, DecimalPrefix(v), kind, remarks) == Failure(InvalidQuantity)
    ensures CheckAdjustment(productId, Decimal(w), kind, remarks) == Failure(InvalidQuantity)
  {
  }
}
