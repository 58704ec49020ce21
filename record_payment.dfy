/**
  Recording a payment against a customer's pending bills
  (src/screens/payments/RecordPaymentScreen.js): choosing a bill pre-fills the amount with
  what is still due on it, the bill named by the route is chosen automatically, and the
  submit handler checks five things in order before the payment is sent.
 */
module RecordPayment {

  import opened Wrappers
  import opened JsValues

  /** The payment modes offered when a payment is recorded. */
  datatype PaymentMode = Cash | Upi | BankTransfer | Cheque

  /** A pending bill of the customer. */
  datatype Bill = Bill(dbId: JsId, invoiceNumber: string, netAmount: real, pendingAmount: real)

  /** The loaded customer; only the aggregate amount still due matters here. */
  datatype CustomerDue = CustomerDue(pendingDue: real)

  datatype PaymentError = MissingFields | BillRequired | NonPositiveAmount | ExceedsBillDue | ExceedsCustomerDue

  /** `{customerId, saleId: selectedBill?._id, amount, paymentMode, remarks}`. */
  datatype PaymentPayload = PaymentPayload(customerId: JsId, saleId: JsId, amount: JsNumber, paymentMode: PaymentMode, remarks: string)

  /** `selectedBill?._id`. */
  function SaleIdOf(selected: Option<Bill>): JsId
  {
    if selected.Some? then selected.value.dbId else NoId
  }

  /** `pendingBills.find(b => b._id === saleId)`. */
  function FindBill(bills: seq<Bill>, saleId: JsId): (r: Option<Bill>)
    ensures r.Some? ==> r.value in bills && r.value.dbId == saleId
    ensures r.None? ==> forall b | b in bills :: b.dbId != saleId
    ensures r.Some? ==> exists i | 0 <= i < |bills| :: bills[i] == r.value && forall j | 0 <= j < i :: bills[j].dbId != saleId
  {
    match FindIndex(bills, (b: Bill) => b.dbId == saleId)
    case None => None
    case Some(i) => Some(bills[i])
  }

  /** The first guard: a truthy customer id and a non-empty amount (the mode is always one of four). */
  predicate FieldsFilled(customerId: JsId, amount: NumText)
  {
    Truthy(customerId) && !amount.EmptyText?
  }

  /** The second guard: when there are pending bills, one of them is chosen. */
  predicate BillChosen(bills: seq<Bill>, selected: Option<Bill>)
  {
    |bills| == 0 || selected.Some?
  }

  /**
    `handleSubmit` exactly as written. The amount is `parseFloat(amount)`, which is NaN for a
    text with no leading numeral, and every comparison with NaN is false: such an amount
    passes the "<= 0" guard and both ceilings and is sent as NaN.
   */
  function CheckPaymentAsWritten(customerId: JsId, amount: NumText, mode: PaymentMode, customer: Option<CustomerDue>,
                                 bills: seq<Bill>, selected: Option<Bill>, remarks: string)
    : (r: Result<PaymentPayload, PaymentError>)
    ensures r == Failure(MissingFields) <==> !FieldsFilled(customerId, amount)
    ensures r.Success? ==> BillChosen(bills, selected) && r.value.amount == ParseFloat(amount)
  {
    if !FieldsFilled(customerId, amount) then Failure(MissingFields)
    else if !BillChosen(bills, selected) then Failure(BillRequired)
    else
      var a := ParseFloat(amount);
      if AtMost(a, 0.0) then Failure(NonPositiveAmount)
      else if selected.Some? && Greater(a, selected.value.pendingAmount) then Failure(ExceedsBillDue)
      else if customer.Some? && Greater(a, customer.value.pendingDue) then Failure(ExceedsCustomerDue)
      else Success(PaymentPayload(customerId, SaleIdOf(selected), a, mode, remarks))
  }

  /** The amount reads as a number greater than zero. */
  predicate PositiveAmount(amount: NumText)
  {
    Greater(ParseFloat(amount), 0.0)
  }

  /**
    `handleSubmit` as intended: the third guard refuses every amount that is not greater than
    zero, NaN included. The checks run in order and the first failing one is reported; an
    accepted payment has a positive amount within the chosen bill's due and within the
    customer's total due, and names the chosen bill.
   */
  function CheckPayment(customerId: JsId, amount: NumText, mode: PaymentMode, customer: Option<CustomerDue>,
                        bills: seq<Bill>, selected: Option<Bill>, remarks: string)
    : (r: Result<PaymentPayload, PaymentError>)
    ensures r == Failure(MissingFields) <==> !FieldsFilled(customerId, amount)
    ensures r == Failure(BillRequired) <==> FieldsFilled(customerId, amount) && !BillChosen(bills, selected)
    ensures r == Failure(NonPositiveAmount) <==>
      FieldsFilled(customerId, amount) && BillChosen(bills, selected) && !PositiveAmount(amount)
    ensures r == Failure(ExceedsBillDue) <==>
      && FieldsFilled(customerId, amount) && BillChosen(bills, selected) && PositiveAmount(amount)
      && selected.Some? && ParseFloat(amount).v > selected.value.pendingAmount
    ensures r == Failure(ExceedsCustomerDue) <==>
      && FieldsFilled(customerId, amount) && BillChosen(bills, selected) && PositiveAmount(amount)
      && (selected.Some? ==> ParseFloat(amount).v <= selected.value.pendingAmount)
      && customer.Some? && ParseFloat(amount).v > customer.value.pendingDue
    ensures r.Success? ==>
      && Truthy(customerId) && BillChosen(bills, selected)
      && r.value.amount.Finite? && r.value.amount == ParseFloat(amount) && r.value.amount.v > 0.0
      && (selected.Some? ==> r.value.amount.v <= selected.value.pendingAmount)
      && (customer.Some? ==> r.value.amount.v <= customer.value.pendingDue)
      && r.value == PaymentPayload(customerId, SaleIdOf(selected), ParseFloat(amount), mode, remarks)
  {
    if !FieldsFilled(customerId, amount) then Failure(MissingFields)
    else if !BillChosen(bills, selected) then Failure(BillRequired)
    else
      var a := ParseFloat(amount);
      if !Greater(a, 0.0) then Failure(NonPositiveAmount)
      else if selected.Some? && Greater(a, selected.value.pendingAmount) then Failure(ExceedsBillDue)
      else if customer.Some? && Greater(a, customer.value.pendingDue) then Failure(ExceedsCustomerDue)
      else Success(PaymentPayload(customerId, SaleIdOf(selected), a, mode, remarks))
  }

  /**
    The code as written sends a payment of NaN whenever the amount field holds a text with no
    leading numeral (`"."`, `"-"`, `"abc"`) and the first two guards pass: none of the amount
    checks can refuse it, whatever the bill's and the customer's dues are.
   */
  lemma NonNumericAmountAcceptedAsWritten(customerId: JsId, amount: NumText, mode: PaymentMode, customer: Option<CustomerDue>,
                                          bills: seq<Bill>, selected: Option<Bill>, remarks: string)
    requires FieldsFilled(customerId, amount) && BillChosen(bills, selected) && ParseFloat(amount).NaN?
    ensures CheckPaymentAsWritten(customerId, amount, mode, customer, bills, selected, remarks)
         == Success(PaymentPayload(customerId, SaleIdOf(selected), NaN, mode, remarks))
  {
  }

  /** One such input: amount `"."` for customer `c1` with no pending bills and 100 due. */
  lemma NonNumericAmountExample()
    ensures CheckPaymentAsWritten(Id("c1"), NonNumeric, Cash, Some(CustomerDue(100.0)), [], None, "")
         == Success(PaymentPayload(Id("c1"), NoId, NaN, Cash, ""))
  {
    NonNumericAmountAcceptedAsWritten(Id("c1"), NonNumeric, Cash, Some(CustomerDue(100.0)), [], None, "");
  }

  /** The corrected guard refuses every amount that does not read as a number. */
  lemma {:induction false} CorrectedRefusesNaN(customerId: JsId, amount: NumText, mode: PaymentMode, customer: Option<CustomerDue>,
                                               bills: seq<Bill>, selected: Option<Bill>, remarks: string)
    requires ParseFloat(amount).NaN?
    ensures CheckPayment(customerId, amount, mode, customer, bills, selected, remarks).Failure?
  {
  }

  /** Whenever the amount does read as a number, the corrected guard decides as the written one does. */
  lemma CorrectedAgreesOnNumbers(customerId: JsId, amount: NumText, mode: PaymentMode, customer: Option<CustomerDue>,
                                 bills: seq<Bill>, selected: Option<Bill>, remarks: string)
    requires ParseFloat(amount).Finite?
    ensures CheckPayment(customerId, amount, mode, customer, bills, selected, remarks)
         == CheckPaymentAsWritten(customerId, amount, mode, customer, bills, selected, remarks)
  {
  }

  /**
    Choosing a bill with something due pre-fills an amount that the guard accepts, provided
    the customer's total due (when loaded) covers that bill.
   */
  lemma PrefilledAmountAccepted(customerId: JsId, b: Bill, mode: PaymentMode, customer: Option<CustomerDue>,
                                bills: seq<Bill>, remarks: string)
    requires Truthy(customerId) && b.pendingAmount > 0.0
    requires customer.Some? ==> b.pendingAmount <= customer.value.pendingDue
    ensures CheckPayment(customerId, ToText(b.pendingAmount), mode, customer, bills, Some(b), remarks)
         == Success(PaymentPayload(customerId, b.dbId, Finite(b.pendingAmount), mode, remarks))
  {
  }

  /** Example: with a bill due 200 chosen, a payment of 250 is refused as exceeding the bill. */
  lemma ExceedsBillExample(customerId: JsId, b: Bill, mode: PaymentMode, customer: Option<CustomerDue>, bills: seq<Bill>)
    requires Truthy(customerId) && b.pendingAmount == 200.0
    ensures CheckPayment(customerId, Decimal(250.0), mode, customer, bills, Some(b), "") == Failure(ExceedsBillDue)
  {
  }

  /** The screen's fields: route parameters, loaded data and the form. */
  class PaymentForm {
    const customerId: JsId
    const saleId: JsId
    var customer: Option<CustomerDue>
    var pendingBills: seq<Bill>
    var selectedBill: Option<Bill>
    var amount: NumText
    var mode: PaymentMode
    var remarks: string

    /** Opening the screen: nothing loaded, no bill, empty amount and remarks, cash. */
    constructor (customerId: JsId, saleId: JsId)
      ensures this.customerId == customerId && this.saleId == saleId
      ensures customer == None && pendingBills == [] && selectedBill == None
      ensures amount == EmptyText && mode == Cash && remarks == ""
    {
      this.customerId := customerId;
      this.saleId := saleId;
      customer := None;
      pendingBills := [];
      selectedBill := None;
      amount := EmptyText;
      mode := Cash;
      remarks := "";
    }

    /** The pending bills arrive: `response.data.sales || []`. */
    method BillsLoaded(sales: Option<seq<Bill>>)
      modifies this
      ensures pendingBills == if sales.Some? then sales.value else []
      ensures customer == old(customer) && selectedBill == old(selectedBill)
      ensures amount == old(amount) && mode == old(mode) && remarks == old(remarks)
    {
      pendingBills := if sales.Some? then sales.value else [];
    }

    /** The customer's details arrive. */
    method CustomerLoaded(c: CustomerDue)
      modifies this
      ensures customer == Some(c)
      ensures pendingBills == old(pendingBills) && selectedBill == old(selectedBill)
      ensures amount == old(amount) && mode == old(mode) && remarks == old(remarks)
    {
      customer := Some(c);
    }

    /** `selectBill`: the bill becomes the chosen one and the amount its pending amount as text. */
    method SelectBill(b: Bill)
      modifies this
      ensures selectedBill == Some(b) && amount == ToText(b.pendingAmount)
      ensures ParseFloat(amount) == Finite(b.pendingAmount)
      ensures customer == old(customer) && pendingBills == old(pendingBills)
      ensures mode == old(mode) && remarks == old(remarks)
    {
      selectedBill := Some(b);
      amount := ToText(b.pendingAmount);
    }

    /**
      The auto-select effect: with a truthy route sale id and some pending bills, the first
      bill with that id, if any, is selected as `selectBill` would; otherwise nothing changes.
     */
    method AutoSelect()
      modifies this
      ensures var found := FindBill(old(pendingBills), saleId);
        if Truthy(saleId) && |old(pendingBills)| > 0 && found.Some? then
          selectedBill == found && selectedBill.value.dbId == saleId && amount == ToText(found.value.pendingAmount)
        else
          selectedBill == old(selectedBill) && amount == old(amount)
      ensures customer == old(customer) && pendingBills == old(pendingBills)
      ensures mode == old(mode) && remarks == old(remarks)
    {
      if Truthy(saleId) && |pendingBills| > 0 {
        var found := FindBill(pendingBills, saleId);
        if found.Some? {
          SelectBill(found.value);
        }
      }
    }

    /**
      `handleSubmit` up to the network call, with the corrected amount guard: it decides as the
      written code does for every amount that reads as a number, and refuses the rest, which the
      written code would send as NaN.
     */
    method Submit() returns (r: Result<PaymentPayload, PaymentError>)
      ensures r == CheckPayment(customerId, amount, mode, customer, pendingBills, selectedBill, remarks)
      ensures ParseFloat(amount).Finite? ==>
        r == CheckPaymentAsWritten(customerId, amount, mode, customer, pendingBills, selectedBill, remarks)
      ensures ParseFloat(amount).NaN? ==> r.Failure?
      ensures r.Success? ==> r.value.amount.Finite? && r.value.amount.v > 0.0
    {
      r := CheckPayment(customerId, amount, mode, customer, pendingBills, selectedBill, remarks);
      if ParseFloat(amount).Finite? {
        CorrectedAgreesOnNumbers(customerId, amount, mode, customer, pendingBills, selectedBill, remarks);
      } else {
        CorrectedRefusesNaN(customerId, amount, mode, customer, pendingBills, selectedBill, remarks);
      }
    }
  }
}
