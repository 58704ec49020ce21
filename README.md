# Shop management client: sale composition, payment checks and store reducers

This Dafny project models the client-side logic of a mobile shop-management app. It has
five parts:

- **Create-sale screen.** The line-item ledger (add a product, edit a quantity or a rate,
  remove a line, seed the lines of a saved sale in edit mode). The derived gross, net and
  pending amounts. The ordered submit guard and the payload it sends.
- **Record-payment screen.** Choosing a bill pre-fills the amount. The bill named by the
  route is chosen automatically. The ordered five-step submit guard checks the amount
  against the chosen bill and against the customer's total due.
- **Store slices** for products, customers and the session. Each is a class whose methods
  are the reducer cases. Each method says which fields change and which stay the same.
- **Autocomplete input.** The case-insensitive filter, the five-item dropdown, the text a
  choice emits, and when the dropdown is visible.
- **Two product forms.** The stock-adjustment quantity guard, and the add-product
  required-field guard with its numeric defaults, field routing, product pick and
  suggestion merge.

Text typed into a numeric field is modelled by `JsValues.NumText`:

- `EmptyText`: the empty string.
- `Decimal(v)`: the whole text is a plain decimal numeral.
- `DecimalPrefix(v)`: a numeral followed by other characters.
- `NonNumeric`: anything with no leading numeral.

`parseFloat` yields `JsValues.JsNumber` (`NaN` or `Finite(v)`). The idiom `parseFloat(x) || 0`
is `CoerceFloat`. The idiom `parseInt(x) || 0` is `CoerceInt`, which truncates toward zero.
JavaScript comparisons with `NaN` are false (`Greater`, `AtMost`). Money, quantities and
stock levels are `real`. Stock comes from `parseFloat` and may be fractional, since products
are sold by the kilogram or the ton. A typed quantity goes through `parseInt`, so it is whole.
A clamped quantity takes the stock's value, which may not be whole. An identifier field is `JsId` (`NoId` stands for both
`null` and `undefined`), and `a || b` on identifiers is `IdOr`. The `_id` field is called `dbId`.

State that the source updates in place is a class with `modifies` clauses:

- `CreateSaleScreen.SaleComposer`
- `RecordPayment.PaymentForm`
- `ProductSlice.ProductStore`, `CustomerSlice.CustomerStore`, `AuthSlice.AuthStore`
- `Autocomplete.AutocompleteInput`
- `AddProduct.ProductForm`

The rules those methods apply are functions, and the lemmas are about those functions. The
totals are functions of the lines, the discount text and the paid text. So recomputing them
on unchanged inputs gives identical results by construction.

Some behaviours of the code are easy to miss:

- The sale submit guard has no per-line quantity check.
- A quantity has no lower cap, so a negative numeral is stored.
- A rate is stored as parsed, negative or not.
- The payment guard checks the fields first, then "bill required", then the amount.

## Model

| member | source | states |
|---|---|---|
| SaleLedger.AddItem | src/screens/sales/CreateSaleScreen.js:98-115 | refused as already added iff some line carries the product's `_id \|\| id`; otherwise refused as out of stock iff stock <= 0; a refusal leaves the lines unchanged; success appends exactly one line (quantity 1, rate = selling price, ceiling = stock) after the unchanged old lines; keeps ids distinct; on a capped list an added line keeps it capped iff the stock is at least 1 |
| SaleLedger.EditQuantity | src/screens/sales/CreateSaleScreen.js:121-141 | empty text stores the empty sentinel without a warning; other text stores `parseInt \|\| 0`, replaced by the ceiling with a warning exactly when it exceeds it, so the stored value never exceeds the ceiling; only the quantity of the line changes |
| SaleLedger.EditRate | src/screens/sales/CreateSaleScreen.js:149-160 | empty text stores the empty sentinel, other text `parseFloat \|\| 0` with no ceiling; only the rate changes |
| SaleLedger.KeepOthersSlices | src/screens/sales/CreateSaleScreen.js:144 | the index filter keeps exactly the elements before and after the removed position, in order |
| SaleLedger.RemoveAt | src/screens/sales/CreateSaleScreen.js:143-145 | an index inside the list removes that line, with the others in order and the length one less; any other index leaves the list unchanged; keeps ids distinct and quantities capped |
| SaleLedger.SeedItems | src/screens/sales/CreateSaleScreen.js:45-51 | one line per saved line with the same product, name, quantity and rate, and ceiling 9999 |
| SaleLedger.AddThenRemoveLast | src/screens/sales/CreateSaleScreen.js:109-115 | removing the line a successful add appended restores the original lines |
| SaleLedger.EditQuantityKeepsInvariants | src/screens/sales/CreateSaleScreen.js:121-141 | a quantity edit keeps product ids distinct and every filled quantity within its ceiling |
| SaleLedger.EditRateKeepsInvariants | src/screens/sales/CreateSaleScreen.js:149-160 | a rate edit keeps product ids distinct and quantities capped |
| SaleLedger.NegativeQuantityStored | src/screens/sales/CreateSaleScreen.js:132-138 | there is no lower cap: "-3.5" is stored as -3 with no warning |
| SaleLedger.OverStockQuantityClamped | src/screens/sales/CreateSaleScreen.js:134-136 | asking for 999 with 10 in stock stores 10 and warns |
| SaleLedger.FractionalCeilingStored | src/screens/sales/CreateSaleScreen.js:134-136 | asking for 3 with 2.5 in stock stores 2.5, the ceiling itself, and warns |
| SaleLedger.FractionalStockAddedOverCeiling | src/screens/sales/CreateSaleScreen.js:104-115 | a new product with stock strictly between 0 and 1 is added, at quantity 1, over its ceiling |
| SaleTotals.Compute | src/screens/sales/CreateSaleScreen.js:166-177 | gross is the sum of the lines; net >= 0 and equals gross - discount unless that is negative; pending >= 0 and equals net - paid unless that is negative; pending is 0 iff paid >= net; pending <= net when paid >= 0; net <= gross when discount and gross are not negative |
| SaleTotals.GrossAppend | src/screens/sales/CreateSaleScreen.js:167-171 | the gross of a concatenation is the sum of the parts' gross amounts |
| SaleTotals.GrossNonNegative | src/screens/sales/CreateSaleScreen.js:167-171 | with no negative quantity or rate the gross is not negative |
| SaleTotals.GrossSingle | src/screens/sales/CreateSaleScreen.js:167-171 | a one-line list contributes quantity x rate, empty cells counting as 0 |
| SaleTotals.GrossSplit | src/screens/sales/CreateSaleScreen.js:167-171 | the gross splits into the lines before a position, that line, and the lines after it |
| SaleTotals.GrossAfterReplace | src/screens/sales/CreateSaleScreen.js:121-160 | editing one line changes the gross by exactly the new line's amount minus the old one's |
| SaleTotals.GrossAfterRemove | src/screens/sales/CreateSaleScreen.js:143-147 | removing a line lowers the gross by exactly that line's amount |
| SaleTotals.GrossAfterAdd | src/screens/sales/CreateSaleScreen.js:98-115 | a successful add raises the gross by the selling price; a refused one leaves it unchanged |
| SaleTotals.WorkedExample | src/screens/sales/CreateSaleScreen.js:166-177 | lines 2 x 50 and 1 x 30, discount 10, paid 50 give gross 130, net 120, pending 70 |
| SaleTotals.LargeDiscountExample | src/screens/sales/CreateSaleScreen.js:172-175 | a discount of 500 on a gross of 100 gives net 0 and, with 0 paid, pending 0 |
| SaleSubmit.Project | src/screens/sales/CreateSaleScreen.js:203-207 | the payload lines are the lines projected to product id, quantity and rate, in the same order |
| SaleSubmit.CheckSale | src/screens/sales/CreateSaleScreen.js:179-213 | refuses by the first failing check, in order: no customer, no lines, paid (`parseFloat \|\| 0`) < 0, paid > net (each iff its condition and all earlier ones passing); on success the payload carries the customer's `_id \|\| id`, the projected lines, the computed gross and net, the coerced discount and paid (0 <= paid <= net) and the mode |
| SaleSubmit.AcceptedSaleBalances | src/screens/sales/CreateSaleScreen.js:173-213 | on an accepted sale the pending amount is exactly net - paid |
| SaleSubmit.EmptyCartWhateverAmounts | src/screens/sales/CreateSaleScreen.js:184-187 | with a customer chosen and no lines the refusal is always the empty cart |
| CreateSaleScreen.SaleComposer.constructor | src/screens/sales/CreateSaleScreen.js:24-30 | no customer, no lines, discount and paid "0", cash, nothing expanded |
| CreateSaleScreen.SaleComposer.SeedForEdit | src/screens/sales/CreateSaleScreen.js:42-58 | in edit mode with a saved sale, sets the customer, the seeded lines, the discount and paid texts and the mode; otherwise nothing changes |
| CreateSaleScreen.SaleComposer.AddItem | src/screens/sales/CreateSaleScreen.js:98-119 | the lines become the ledger rule's result: refused iff already added or, failing that, stock <= 0; success appends the new line; ids stay distinct; a capped list stays capped unless a product with stock below 1 is added, and then it is not; the gross rises by the selling price on success; no other field changes |
| CreateSaleScreen.SaleComposer.UpdateItemQuantity | src/screens/sales/CreateSaleScreen.js:121-141 | only line `index` changes, to the edited quantity, which never exceeds its ceiling for non-empty text; the warning is returned; the gross moves by the line's change |
| CreateSaleScreen.SaleComposer.UpdateItemRate | src/screens/sales/CreateSaleScreen.js:149-160 | only line `index` changes, to the edited rate; the gross moves by the line's change |
| CreateSaleScreen.SaleComposer.RemoveItem | src/screens/sales/CreateSaleScreen.js:143-147 | the lines lose position `index`; the expanded marker is cleared only when it was that index |
| CreateSaleScreen.SaleComposer.Submit | src/screens/sales/CreateSaleScreen.js:179-213 | the submit decision is the guard chain on the current fields, and its payload carries the shown gross and net |
| RecordPayment.FindBill | src/screens/payments/RecordPaymentScreen.js:34 | finds the first pending bill whose `_id` equals the sale id, or reports that none has it |
| RecordPayment.CheckPaymentAsWritten | src/screens/payments/RecordPaymentScreen.js:69-104 | the guard exactly as written: refuses missing customer id or empty amount first; an accepted payment had a bill chosen whenever bills were pending and carries `parseFloat(amount)`, which may be NaN |
| RecordPayment.CheckPayment | src/screens/payments/RecordPaymentScreen.js:69-104 | the five guards in order, each failing iff its condition holds and the earlier ones pass: missing fields, bill required, amount not > 0, amount > chosen bill's pending, amount > customer's pending due; an accepted payment has a finite amount > 0 within every applicable bound and the payload `{customerId, saleId: selectedBill?._id, amount, paymentMode, remarks}` |
| RecordPayment.NonNumericAmountAcceptedAsWritten | src/screens/payments/RecordPaymentScreen.js:80-104 | as written, whenever the fields are filled, a bill is chosen where one is needed and the amount has no leading numeral, every amount guard passes and the payment is sent with amount NaN, whatever the dues |
| RecordPayment.NonNumericAmountExample | src/screens/payments/RecordPaymentScreen.js:80-104 | amount "." for customer `c1`, no pending bills and 100 due is sent as NaN |
| RecordPayment.CorrectedRefusesNaN | src/screens/payments/RecordPaymentScreen.js:80-84 | the corrected guard refuses every amount that parses to NaN |
| RecordPayment.CorrectedAgreesOnNumbers | src/screens/payments/RecordPaymentScreen.js:69-104 | for every amount that parses to a number, the corrected guard decides exactly as the written one |
| RecordPayment.PrefilledAmountAccepted | src/screens/payments/RecordPaymentScreen.js:63-104 | the amount pre-filled by choosing a bill with something due is accepted when the customer's due covers it, and the payment names that bill |
| RecordPayment.ExceedsBillExample | src/screens/payments/RecordPaymentScreen.js:86-89 | with a bill due 200 chosen, a payment of 250 is refused as exceeding the bill |
| RecordPayment.PaymentForm.constructor | src/screens/payments/RecordPaymentScreen.js:11-20 | route ids kept; nothing loaded, no bill, empty amount and remarks, cash |
| RecordPayment.PaymentForm.BillsLoaded | src/screens/payments/RecordPaymentScreen.js:48-61 | pending bills become `sales \|\| []`; nothing else changes |
| RecordPayment.PaymentForm.CustomerLoaded | src/screens/payments/RecordPaymentScreen.js:39-46 | the customer becomes the loaded one; nothing else changes |
| RecordPayment.PaymentForm.SelectBill | src/screens/payments/RecordPaymentScreen.js:63-67 | the bill is chosen and the amount becomes the text of its pending amount, which parses back to it |
| RecordPayment.PaymentForm.AutoSelect | src/screens/payments/RecordPaymentScreen.js:32-37 | with a truthy sale id and pending bills, the first bill with that id is chosen as `selectBill` does; otherwise nothing changes |
| RecordPayment.PaymentForm.Submit | src/screens/payments/RecordPaymentScreen.js:69-104 | the submit decision is the corrected guard on the current fields: the same decision as the written code for every amount that reads as a number, a refusal for every other amount; an accepted amount is finite and > 0 |
| ProductSlice.ProductIndex | src/store/slices/productSlice.js:88 | the first index whose `_id` or `id` equals the payload's, or none |
| ProductSlice.AbsentIdsMatch | src/store/slices/productSlice.js:88 | an update without `_id` lands on the first product that has none either |
| ProductSlice.ProductStore.constructor | src/store/slices/productSlice.js:61-65 | an empty list, not loading, no error |
| ProductSlice.ProductStore.FetchPending | src/store/slices/productSlice.js:69-72 | loading and no error, list unchanged |
| ProductSlice.ProductStore.FetchFulfilled | src/store/slices/productSlice.js:73-77 | not loading; list = `products \|\| []`; error unchanged |
| ProductSlice.ProductStore.FetchRejected | src/store/slices/productSlice.js:78-81 | not loading; error = `payload \|\| error.message`; list unchanged |
| ProductSlice.ProductStore.CreateFulfilled | src/store/slices/productSlice.js:82-86 | list = [created] + old list, one longer; flags unchanged |
| ProductSlice.ProductStore.ReplaceMatching | src/store/slices/productSlice.js:88-91 | the first match is overwritten, nothing if none; length and flags unchanged |
| ProductSlice.ProductStore.UpdateFulfilled | src/store/slices/productSlice.js:87-92 | only the first match is replaced; nothing changes when none matches; length and flags unchanged |
| ProductSlice.ProductStore.UpdateStockFulfilled | src/store/slices/productSlice.js:93-98 | the same replace-first-match rule |
| CustomerSlice.CustomerIndex | src/store/slices/customerSlice.js:72 | the first index whose `_id \|\| id` equals the payload's, or none |
| CustomerSlice.SharedIdIsNotEnough | src/store/slices/customerSlice.js:72 | unlike the product rule, a shared `id` does not match when both `_id`s are present and differ |
| CustomerSlice.CustomerStore.constructor | src/store/slices/customerSlice.js:42-51 | empty list, pagination {1, 1, 0}, not loading, no error |
| CustomerSlice.CustomerStore.FetchPending | src/store/slices/customerSlice.js:55-58 | loading and no error; list and pagination unchanged |
| CustomerSlice.CustomerStore.FetchFulfilled | src/store/slices/customerSlice.js:59-63 | not loading; list = `customers \|\| []`; pagination from the payload or kept |
| CustomerSlice.CustomerStore.FetchRejected | src/store/slices/customerSlice.js:64-67 | not loading; error = `payload \|\| error.message` |
| CustomerSlice.CustomerStore.CreateFulfilled | src/store/slices/customerSlice.js:68-70 | exactly one element prepended |
| CustomerSlice.CustomerStore.UpdateFulfilled | src/store/slices/customerSlice.js:71-76 | the first element with the same key is replaced; nothing changes when none has it; length unchanged |
| AuthSlice.AuthStore.constructor | src/store/slices/authSlice.js:58-65 | user, token and error null; every flag false |
| AuthSlice.AuthStore.Logout | src/store/slices/authSlice.js:67-72 | user and token null, not authenticated; loading, error and initialisation unchanged |
| AuthSlice.AuthStore.ClearError | src/store/slices/authSlice.js:73-75 | only the error changes, to null |
| AuthSlice.AuthStore.RequestPending | src/store/slices/authSlice.js:80-83 | loading and no error; nothing else changes (login, register and profile pending) |
| AuthSlice.AuthStore.LoginFulfilled | src/store/slices/authSlice.js:84-89 | user and token from the reply, authenticated |
| AuthSlice.AuthStore.LoginRejected | src/store/slices/authSlice.js:90-94 | error stored, not authenticated |
| AuthSlice.AuthStore.RegisterFulfilled | src/store/slices/authSlice.js:100-105 | user = `payload.user \|\| payload`, token from the reply, authenticated |
| AuthSlice.AuthStore.RequestRejected | src/store/slices/authSlice.js:106-109 | error stored; authentication unchanged (register and profile rejected) |
| AuthSlice.AuthStore.CheckPending | src/store/slices/authSlice.js:111-113 | only loading is set |
| AuthSlice.AuthStore.CheckFulfilled | src/store/slices/authSlice.js:114-119 | user from the reply, authenticated, initialised; token unchanged |
| AuthSlice.AuthStore.CheckRejected | src/store/slices/authSlice.js:120-124 | not authenticated, initialised |
| AuthSlice.AuthStore.ProfileFulfilled | src/store/slices/authSlice.js:130-133 | only the user is replaced; token and authentication unchanged |
| AuthSlice.AuthStore.Dispatch | src/store/slices/authSlice.js:56-139 | no action resets `isInitialized`: once true it stays true; both session-check outcomes set it; register rejected, profile and clear-error keep authentication |
| Autocomplete.Lower | src/components/AutocompleteInput.js:26 | lower-casing keeps the length and lower-cases each letter |
| Autocomplete.Filter | src/components/AutocompleteInput.js:23-32 | keeps exactly the items of `data` that the rule keeps, never more items than `data` has |
| Autocomplete.Suggestions | src/components/AutocompleteInput.js:21-37 | an empty value gives no suggestions; otherwise the filter |
| Autocomplete.FilterIsSubsequence | src/components/AutocompleteInput.js:23 | the suggestions are a subsequence of `data`, in the original order |
| Autocomplete.FilterAppend | src/components/AutocompleteInput.js:23 | filtering a concatenation is the concatenation of the filtered parts |
| Autocomplete.SelectedText | src/components/AutocompleteInput.js:45 | a string emits itself, an object its `name` |
| Autocomplete.ChosenSuggestionExtendsValue | src/components/AutocompleteInput.js:24-45 | every offered suggestion emits a text that contains the typed value, ignoring case, and differs from it |
| Autocomplete.StringOfferedIff | src/components/AutocompleteInput.js:25-27 | a string is offered iff it is non-empty, contains the value ignoring case and is not equal to it ignoring case |
| Autocomplete.AutocompleteInput.constructor | src/components/AutocompleteInput.js:16-17 | closed, nothing filtered |
| Autocomplete.AutocompleteInput.Refilter | src/components/AutocompleteInput.js:21-37 | the filtered list becomes the suggestions; visibility unchanged |
| Autocomplete.AutocompleteInput.ChangeText | src/components/AutocompleteInput.js:58-64 | the text is passed on and the dropdown is open iff it is non-empty |
| Autocomplete.AutocompleteInput.Focus | src/components/AutocompleteInput.js:39-42 | opens when there is something filtered |
| Autocomplete.AutocompleteInput.Select | src/components/AutocompleteInput.js:44-51 | emits the chosen text and closes |
| Autocomplete.AutocompleteInput.Dropdown | src/components/AutocompleteInput.js:72-75 | at most five items, the first ones filtered, and non-empty iff open with something filtered |
| StockAdjustment.CheckAdjustment | src/screens/products/StockAdjustmentScreen.js:31-47 | the request goes out iff the whole text is a numeral > 0; it carries that number, the kind and the remarks for the product |
| StockAdjustment.RefusedQuantities | src/screens/products/StockAdjustmentScreen.js:32 | empty, non-numeric, numeral-with-junk and non-positive quantities are refused |
| AddProduct.CheckNewProduct | src/screens/products/AddProductScreen.js:77-95 | refused iff name, category, unit or selling price is empty; otherwise the texts as typed, `parseFloat \|\| 0` (so 0 for empty or non-numeric) for purchase price, stock and minimum level, and plain `parseFloat` for the selling price |
| AddProduct.NonNumericSellingPriceSent | src/screens/products/AddProductScreen.js:78-91 | a non-numeric selling price is not refused and is sent as NaN |
| AddProduct.MergeAttributes | src/screens/products/AddProductScreen.js:44-47 | key "category" replaces the categories, any other key the products, the other list kept |
| AddProduct.ProductNamed | src/screens/products/AddProductScreen.js:68 | finds a product object with exactly that name, or reports that none has it |
| AddProduct.SelectedProduct | src/screens/products/AddProductScreen.js:67-69 | a string is looked up by name, an object used as is, a falsy value gives nothing |
| AddProduct.ProductForm.constructor | src/screens/products/AddProductScreen.js:23-31 | every field empty, no suggestions |
| AddProduct.ProductForm.HandleNameChange | src/screens/products/AddProductScreen.js:60-64 | key "product" sets only the name, key "category" only the category |
| AddProduct.ProductForm.HandleProductSelect | src/screens/products/AddProductScreen.js:66-75 | unit and category copied only when present and non-empty; the name never changes |
| AddProduct.ProductForm.AttributesLoaded | src/screens/products/AddProductScreen.js:40-52 | the attributes are merged only for a successful reply with data |
| AddProduct.ProductForm.Submit | src/screens/products/AddProductScreen.js:77-95 | the submit decision is the guard on the current fields |

## Findings

| source | as written | input that shows it | evidently intended | confidence | as-written member | corrected member |
|---|---|---|---|---|---|---|
| src/screens/payments/RecordPaymentScreen.js:80-104 | `parseFloat(amount) <= 0` and the two `>` ceilings are all false for NaN, so an amount with no leading numeral passes every guard and `amount: NaN` is sent | amount `"."` (or `"abc"`) with customer id `c1`, no pending bills, customer due 100: accepted with amount NaN | refuse every amount that is not a number greater than 0 ("Amount must be greater than 0") | not executed | RecordPayment.CheckPaymentAsWritten | RecordPayment.CheckPayment |

`RecordPayment.PaymentForm.Submit` uses the corrected guard.
`RecordPayment.CorrectedAgreesOnNumbers` shows that the correction changes nothing for numeric amounts.

## Left out

- Network and storage: the service calls, the async thunk bodies, token storage, and the
  `authService.logout()` call inside the logout reducer. Every reply enters the model as a
  method argument. The request outcomes (loading spinners, success alerts, navigation) are
  not modelled.
- Timers: the debounce of the attribute search and the delayed close of the dropdown on blur.
  The blur handler is not modelled.
- Rendering, styles, navigation, and the invoice and chart code.
- The create-sale screen's customer pre-selection from a route id (lines 75-80). It sets the
  customer field, as `setSelectedCustomer` does, and the submit guard and the payload read
  that field. The model has no method for this setter.
- The create-sale screen's customer search filter (63-69), product search (82-96) and
  `toggleExpand` (162-164). None of these touch the lines, the totals or the submit inputs.
- The plain field setters of the forms (`setDiscount`, `setPaidAmount`, `setPaymentMode`,
  `setSelectedCustomer`, `setAmount`, `setRemarks`, `setType`, the add-product price and
  stock setters). Each assigns one text field. The model reads those fields but has no
  method per setter.
- IEEE floating point: amounts are exact reals. Blank-padded numerals such as " 12" and "12 "
  behave as `Decimal(12)`. `NumText` has no faithful case for exponent forms ("1e3"), hex
  ("0x10": `Number` and `parseInt` give 16, `parseFloat` gives 0) or "Infinity", nor for a text of blanks only, which `parseFloat` reads as NaN but `Number`
  reads as 0.
- Case folding is ASCII only (`Autocomplete.LowerChar`). JavaScript's `toLowerCase` also folds
  other scripts.
- RecordPayment.CheckPayment: the `!paymentMode` part of the first guard is not modelled. The
  mode is always one of the four buttons' values, so that part can never fire.
- CreateSaleScreen.SaleComposer.SeedForEdit: the saved payment mode is taken to be one of the
  create-sale modes (cash, UPI, card). No caller in the repository passes edit mode.
- SaleLedger.AddItem: the stock is taken to be a number. In JavaScript a missing stock
  (`undefined <= 0` is false) would be let through.
- SaleLedger.AddItem: keeping quantities within stock is promised only for a stock of at
  least 1. A product with a fractional stock between 0 and 1 passes the `<= 0` check and is
  added at quantity 1, over its ceiling, as the code does
  (`SaleLedger.FractionalStockAddedOverCeiling`).
- RecordPayment.PaymentForm.Submit: it applies the corrected amount guard, not the guard as
  written. A non-numeric amount such as "." is refused, while the code sends it as NaN (see
  Findings).
- AddProduct.ProductNamed: a falsy element of the product suggestions is skipped. In
  JavaScript, reading `name` from such an element before the match would throw.
- Autocomplete.SelectedText: it is defined only for truthy items. Only kept items are shown,
  and every kept item is truthy.
- StockAdjustment: the adjustment kind is a datatype of three values with `Add` as the
  default, so it can only ever be one of them. The kind buttons are not modelled separately.
