# Point-of-sale front end: a verified model of its core logic

This project models the computational core of a React point-of-sale app for a
café. It sells catalog products, keeps a cart, records cash and card sales in a
transaction log, prints receipts, takes online payments through an invoice
service, and shows sales reports. The model covers these parts:

- **Price parsing** (`Price`, src/utils/price.js). A price is a JavaScript
  number or a display string such as `"Rp 25.000"`. A string is read by
  keeping its decimal digits and parsing them as one integer.
- **The cart** (`Cart`, src/context/CartContext.jsx). This is a reducer over
  `{items, customer, paymentMethod}`. The class `Cart.CartStore` holds the
  reducer's current state and offers the dispatch wrappers. The module also
  derives the item count and the price total.
- **The data lists** (`Data`, src/context/DataContext.jsx). The class
  `Data.DataStore` holds the catalog, the customers and the transaction log as
  three sequences. Each operation replaces one of them with a mapped, filtered
  or extended copy. The clock that supplies ids and timestamps is a parameter.
- **The POS page** (`Pos`, src/pages/POS.jsx). It covers the product filter,
  the checkout button, the payment dialog, the recording of a sale and the
  line buttons. The class `Pos.PosPage` holds the page's own state and refers
  to the two stores.
- **The receipt** (`Receipt`, src/components/Receipt.jsx). The receipt has its
  own price parser, which deletes `R`, `p`, white space and `.` and then calls
  `parseFloat`. Because that parser can yield NaN, amounts are `Num = Finite(real) | NaN`.
  The module also covers the line amounts, subtotal, tax, total and the paid
  and change rows.
- **The online payment dialog** (`Xendit`, src/components/XenditPayment.jsx).
  It covers the charged amounts, the invoice request, and the pending record
  saved while the invoice is unpaid. It also covers the loading, error and
  link state that `handlePayment` steps through, and the `handleSuccess`
  report. The class is `Xendit.XenditPayment`.
- **Reports** (`Reports`, src/pages/Reports.jsx). Total revenue, average
  order, revenue per category, the ten latest sales, and the largest
  category value.

The other modules are shared building blocks:

- `Model` holds the shared records.
- `Seqs` holds `filter` and order-preserving subsequences.
- `Tax` holds the tax rule `settings?.taxPercentage || 11`, which
  Receipt.jsx:33-35 and XenditPayment.jsx:21-23 both spell out. The saved
  percentage is a number, or the text of the settings form's number input
  (Settings.jsx:27-33 stores `e.target.value` as it is). JavaScript's `||`
  falls back to 11 for a missing value, for the number 0 and for the empty
  text. A saved text `"0"` is not empty, so it gives a rate of 0.

Money is modelled exactly:

- Integer prices are `int`.
- Tax and totals are `real`, so they are exact rationals rather than IEEE
  doubles.
- The tax is not rounded: Receipt.jsx:34 and XenditPayment.jsx:22 compute
  `(subtotal * taxRate) / 100` as it is. `Tax.TaxIsNotRounded` shows a
  subtotal whose tax has a fractional part.

The three pieces differ on what a sale costs:

- **The checkout page** records `totalPrice`, without tax (POS.jsx:31).
  `Pos.PosPage.ConfirmPayment` models this.
- **The receipt** prints that total plus tax.
  `Receipt.ReceiptTotalAddsTaxToRecordedTotal` proves this.
- **The online dialog** charges the amount plus tax.
  `Xendit.ChargeMatchesReceipt` and `Xendit.ChargeExceedsCheckoutTotal` prove this.

The local `parsePrice` of XenditPayment.jsx:144-147 has the same text as
`parsePrice` in src/utils/price.js, so both are `Price.ParsePrice`.

## Model

| member | source | states |
|---|---|---|
| Seqs.Filter | src/context/CartContext.jsx:25 | `filter` keeps exactly the elements that pass the test, and is never longer than its input |
| Seqs.FilterIsSubsequence | src/pages/POS.jsx:16-20 | `filter` returns an order-preserving subsequence of its input |
| Price.Digits | src/utils/price.js:3 | `replace(/[^\d]/g, '')` leaves only digits and never lengthens the string |
| Price.DecimalValue | src/utils/price.js:3 | `parseInt` of a digit string is non-negative, and the empty string counts as 0 (`\|\| 0`) |
| Price.ParsePrice | src/utils/price.js:1-4 | a number is returned unchanged (XenditPayment.jsx:144-147 holds a textually identical local copy, modelled by the same function); a string gives a value ≥ 0; a string without digits gives 0 |
| Price.DigitsAppend | src/utils/price.js:3 | digit extraction distributes over concatenation |
| Price.DigitsOfAllDigits | src/utils/price.js:3 | a string made only of digits is kept whole |
| Price.DecimalValueOfDecimalString | src/utils/price.js:3 | `parseInt` reads the decimal rendering of any n ≥ 0 back as n |
| Price.ParsePriceOfDecimalString | src/utils/price.js:3 | round trip: parsing the decimal rendering of n gives n |
| Price.DigitsOfNoDigits | src/utils/price.js:3 | a string without digits loses every character |
| Price.ParsePriceIgnoresNonDigits | src/utils/price.js:3 | inserting a run of non-digits anywhere does not change the result |
| Price.ParsePriceWithoutDigits | src/utils/price.js:3 | a string with no digit parses to 0 |
| Price.ParsePriceOfGroupedRupiah | src/utils/price.js:3 | `"Rp " + x + "." + y` parses to the value of the digits of x followed by those of y |
| Price.ParsePriceOfRupiahText | src/context/DataContext.jsx:6 | the first catalog price `"Rp 25.000"` parses to 25000 |
| Cart.FindIndex | src/context/CartContext.jsx:16 | `findIndex` gives the first line with the id, or -1 exactly when no line has it |
| Cart.AddLine | src/context/CartContext.jsx:15-23 | ADD_ITEM keeps the line count for a known id and adds one line for a new id |
| Cart.AddNewAppends | src/context/CartContext.jsx:22 | a new id appends one line with the product and quantity 1 |
| Cart.AddExistingIncrements | src/context/CartContext.jsx:16-20 | a known id raises exactly that line's quantity by 1; the other lines, their order and the count do not change |
| Cart.RemoveLines | src/context/CartContext.jsx:24-25 | REMOVE_ITEM leaves no line with the id, and keeps exactly the lines whose id differs |
| Cart.RemoveLinesSpec | src/context/CartContext.jsx:24-25 | the kept lines stay in their order: the result is a subsequence of the items |
| Cart.RemoveAbsentIsNoop | src/context/CartContext.jsx:24-25 | removing an absent id leaves the items unchanged |
| Cart.SetQuantity | src/context/CartContext.jsx:29-32 | the `map` step gives every line with the id the new quantity and leaves every other line unchanged |
| Cart.UpdateLines | src/context/CartContext.jsx:26-34 | after UPDATE_QUANTITY every line has a positive quantity, and no line is added |
| Cart.UpdateLinesKeepsOrder | src/context/CartContext.jsx:29-33 | the lines that survive the quantity filter keep their order, as a subsequence of the mapped lines |
| Cart.UpdatePositiveSetsQuantity | src/context/CartContext.jsx:26-34 | on a cart with positive quantities, a positive update only changes the matching lines |
| Cart.UpdateNonPositiveRemoves | src/context/CartContext.jsx:26-34 | on a cart with positive quantities, an update to a value ≤ 0 is REMOVE_ITEM |
| Cart.FilterKeepsDistinct | src/context/CartContext.jsx:25 | filtering a cart with distinct ids keeps the ids distinct |
| Cart.Reduce | src/context/CartContext.jsx:13-46 | each action changes only its own part of the state: SET_CUSTOMER and SET_PAYMENT_METHOD one field, CLEAR_CART the initial values, LOAD_CART the loaded state, an unknown action nothing |
| Cart.ReducePreservesValid | src/context/CartContext.jsx:13-46 | every action keeps the ids distinct and the quantities ≥ 1 (for LOAD_CART, when the loaded cart has both properties) |
| Cart.ClearAndUnknown | src/context/CartContext.jsx:39-44 | CLEAR_CART yields the initial state, and an unknown action returns the state unchanged |
| Cart.TotalsAppend | src/context/CartContext.jsx:69-70 | `totalItems` and `totalPrice` are sums: both are 0 on no lines and add up over concatenation |
| Cart.TotalsSplice | src/context/CartContext.jsx:69-70 | the totals of a cart with one line singled out |
| Cart.AddLineTotals | src/context/CartContext.jsx:69-70 | ADD_ITEM raises `totalItems` by 1, and raises `totalPrice` by the parsed price of the raised or appended line |
| Cart.TotalItems | src/context/CartContext.jsx:69 | with positive quantities, `totalItems` is at least the number of lines |
| Cart.TotalPrice | src/context/CartContext.jsx:70 | `totalPrice` is never negative when no line has a negative parsed price or quantity |
| Cart.CartStore.constructor | src/context/CartContext.jsx:49 | the store starts in the initial state: no items, no customer, cash |
| Cart.CartStore.Dispatch | src/context/CartContext.jsx:49 | the new state is the reducer applied to the old state and the action |
| Cart.CartStore.AddItem | src/context/CartContext.jsx:62 | dispatches ADD_ITEM |
| Cart.CartStore.RemoveItem | src/context/CartContext.jsx:63 | dispatches REMOVE_ITEM |
| Cart.CartStore.UpdateQuantity | src/context/CartContext.jsx:64 | dispatches UPDATE_QUANTITY |
| Cart.CartStore.SetCustomer | src/context/CartContext.jsx:65 | dispatches SET_CUSTOMER |
| Cart.CartStore.SetPaymentMethod | src/context/CartContext.jsx:66 | dispatches SET_PAYMENT_METHOD |
| Cart.CartStore.ClearCart | src/context/CartContext.jsx:67 | the state becomes the initial state |
| Cart.CartStore.Restore | src/context/CartContext.jsx:51-56 | a saved cart replaces the state wholesale; when nothing is saved, the state is unchanged |
| Tax.TaxRate | src/components/Receipt.jsx:33 | the saved percentage when it is present and truthy (a non-zero number, or a non-empty text); otherwise 11 |
| Tax.ZeroRateOnlyFromSavedText | src/pages/Settings.jsx:27-33 | the rate is 0 exactly when the saved percentage is a non-empty text that denotes 0 |
| Tax.TaxAmount | src/components/Receipt.jsx:34 | the tax is 0 exactly when the subtotal or the rate is 0, and never negative for non-negative ones |
| Tax.Total | src/components/Receipt.jsx:35 | the total is never below a non-negative subtotal at a non-negative rate |
| Tax.TotalScalesSubtotal | src/components/Receipt.jsx:34-35 | total = subtotal × (1 + rate/100) |
| Tax.TotalIsSubtotalIff | src/components/Receipt.jsx:34-35 | the total equals the subtotal exactly when the subtotal or the rate is 0 |
| Tax.DefaultRateScenario | src/components/Receipt.jsx:33-35 | a subtotal of 68000 at the default rate gives tax 7480 and total 75480 |
| Tax.TaxIsNotRounded | src/components/Receipt.jsx:34 | tax on 18001 at 11% is 1980.11: no rounding |
| Receipt.Strip | src/components/Receipt.jsx:27 | `replace(/[Rp\s.]/g, '')` leaves no `R`, `p`, `.` or white space and never lengthens the string |
| Receipt.LeadingDigits | src/components/Receipt.jsx:27 | the longest prefix of digits: all digits, a prefix, and followed by a non-digit or nothing |
| Receipt.ParseFloat | src/components/Receipt.jsx:27 | empty input, or input starting with a character that is not a digit or sign, is NaN; a leading digit gives the value of the leading digit run, whatever follows; a sign followed by digits gives the signed value of that run, and a sign without digits is NaN |
| Receipt.UnitPrice | src/components/Receipt.jsx:27 | a number is used as it is; a string that strips to nothing is NaN |
| Receipt.LineAmount | src/components/Receipt.jsx:75-76 | the line amount is NaN exactly when the unit price is, and otherwise unit price × quantity |
| Receipt.Subtotal | src/components/Receipt.jsx:25-30 | no items give 0; when every line amount is finite and ≥ 0, so is the subtotal |
| Receipt.Render | src/components/Receipt.jsx:25-111 | there is one line amount per item (price × quantity); the subtotal is the reduce over the items; the rate follows the tax rule; the tax is subtotal × rate / 100, NaN when the subtotal is; total = subtotal plus tax, finite exactly when the subtotal is; "Bayar" equals the total and "Kembali" is 0 |
| Receipt.LinesSumToSubtotal | src/components/Receipt.jsx:74-76 | the printed line amounts add up to the printed subtotal |
| Receipt.SubtotalIsSumOfLines | src/components/Receipt.jsx:25-30 | the subtotal is the sum of the line amounts |
| Receipt.SubtotalNaNIff | src/components/Receipt.jsx:25-30 | the subtotal is NaN exactly when some line amount is NaN |
| Receipt.StripIsDigits | src/components/Receipt.jsx:27 | on strings of digits and stripped characters, the receipt's deletion gives the same result as `parsePrice`'s digit extraction |
| Receipt.UnitPriceAgrees | src/components/Receipt.jsx:27 | on such strings with a digit, the receipt reads a price exactly as `parsePrice` does |
| Receipt.CommaStopsReceipt | src/components/Receipt.jsx:27 | for any digit groups x (non-empty) and y, the receipt reads `"Rp " + x + "," + y` as the value of x alone, while `parsePrice` reads the digits of x and y together |
| Receipt.CurrencyCodeIsNaN | src/components/Receipt.jsx:27 | for any digit groups x and y, the receipt reads `"IDR " + x + "." + y` as NaN, while `parsePrice` reads the digits of x and y together |
| Receipt.SubtotalIsTotalPrice | src/components/Receipt.jsx:25-30 | when every price is read alike, the receipt subtotal is the cart's `totalPrice` |
| Receipt.ReceiptTotalAddsTaxToRecordedTotal | src/components/Receipt.jsx:32-35 | for a sale recorded at `totalPrice`, the receipt's subtotal is that amount and its total is that amount plus tax; for a non-zero amount the two differ exactly when the rate is not 0 |
| Data.MergeProduct | src/context/DataContext.jsx:76 | `{ ...p, ...updated }`: supplied fields override, the others are kept |
| Data.MergeCustomer | src/context/DataContext.jsx:90 | supplied fields override, the others are kept |
| Data.UpdatedProducts | src/context/DataContext.jsx:75-77 | the length is unchanged; only entries with the id are merged |
| Data.UpdatedCustomers | src/context/DataContext.jsx:89-91 | the length is unchanged; only entries with the id are merged |
| Data.UpdateProductsNoop | src/context/DataContext.jsx:75-77 | an absent id or an empty patch changes nothing |
| Data.DeletedProducts | src/context/DataContext.jsx:80 | no product with the id remains, and exactly the products with another id are kept |
| Data.DeletedCustomers | src/context/DataContext.jsx:94 | no customer with the id remains, and exactly the customers with another id are kept |
| Data.DeletedProductsSpec | src/context/DataContext.jsx:79-81 | the kept products stay in their order; an absent id changes nothing |
| Data.DeletedCustomersSpec | src/context/DataContext.jsx:93-95 | the kept customers stay in their order; an absent id changes nothing |
| Data.NewCustomer | src/context/DataContext.jsx:83-87 | the new customer gets a fresh id, 0 orders and "Rp 0" spent, whatever was supplied; the contact fields are kept |
| Data.Stamped | src/context/DataContext.jsx:97-101 | the new id and date override the supplied ones; everything else is kept |
| Data.ReducedStock | src/context/DataContext.jsx:106 | `max(0, (stock \|\| 0) - quantity)`: never negative, and the difference unless clamped |
| Data.Restocked | src/context/DataContext.jsx:103-110 | matching products get the reduced stock, and the other products are untouched |
| Data.RestockedNeverNegative | src/context/DataContext.jsx:103-110 | after the update, every matching product has a stock ≥ 0 |
| Data.DataStore.constructor | src/context/DataContext.jsx:5-23 | starts with the initial catalog and customers, and an empty log |
| Data.DataStore.AddProduct | src/context/DataContext.jsx:69-73 | appends exactly one product with the new id; existing products keep their order |
| Data.DataStore.UpdateProduct | src/context/DataContext.jsx:75-77 | the catalog becomes the merged map of the old one |
| Data.DataStore.DeleteProduct | src/context/DataContext.jsx:79-81 | the catalog becomes the filtered old one |
| Data.DataStore.AddCustomer | src/context/DataContext.jsx:83-87 | appends exactly one customer with zeroed statistics |
| Data.DataStore.UpdateCustomer | src/context/DataContext.jsx:89-91 | the customer list becomes the merged map of the old one |
| Data.DataStore.DeleteCustomer | src/context/DataContext.jsx:93-95 | the customer list becomes the filtered old one |
| Data.DataStore.AddTransaction | src/context/DataContext.jsx:97-101 | the stamped transaction goes first, and older ones follow in order |
| Data.DataStore.UpdateProductStock | src/context/DataContext.jsx:103-110 | the catalog becomes the clamped-stock map of the old one |
| Pos.LowerChar | src/pages/POS.jsx:18 | `toLowerCase` on one character maps A–Z to a–z and leaves other characters unchanged, so no upper-case letter remains |
| Pos.Lower | src/pages/POS.jsx:18 | lower-cases every character and keeps the length |
| Pos.LowerIdempotent | src/pages/POS.jsx:18 | lower-casing twice gives the same string as lower-casing once |
| Pos.Includes | src/pages/POS.jsx:18 | the empty term is found in every name, and a term longer than the name never is |
| Pos.IncludesIff | src/pages/POS.jsx:18 | `includes` holds exactly when the term occurs at some position of the name |
| Pos.FilteredProducts | src/pages/POS.jsx:16-20 | a product is shown iff its category matches ("All" matches every category) and its lower-cased name contains the lower-cased term; the result is an order-preserving subsequence of the catalog |
| Pos.ShowAll | src/pages/POS.jsx:16-20 | with "All" and an empty search term, every product is shown in order |
| Pos.SearchIgnoresCase | src/pages/POS.jsx:18 | a term and its lower-cased form match the same products |
| Pos.SaleDraft | src/pages/POS.jsx:29-35 | the recorded sale has the cart's items and customer, the chosen method, and `totalPrice` with no tax |
| Pos.MinusAtOneRemovesLine | src/pages/POS.jsx:107 | the minus button on a line at quantity 1 removes that line |
| Pos.PlusIsAdd | src/pages/POS.jsx:114 | in a valid cart, the plus button does what clicking the product card does |
| Pos.AddIgnoresStock | src/pages/POS.jsx:73 | clicking a card always puts the product in the cart, whatever its stock |
| Pos.PosPage.constructor | src/pages/POS.jsx:12-14 | starts on "All", with an empty search and the dialog closed |
| Pos.PosPage.SelectCategory | src/pages/POS.jsx:61 | sets only the active category |
| Pos.PosPage.TypeSearch | src/pages/POS.jsx:51 | sets only the search term |
| Pos.PosPage.ClickCheckout | src/pages/POS.jsx:135-139 | opens the dialog only when the cart has a line, because the button is disabled on an empty cart |
| Pos.PosPage.ClosePayment | src/pages/POS.jsx:150 | closes the dialog |
| Pos.PosPage.ConfirmPayment | src/pages/POS.jsx:28-40 | the sale goes at the head of the log with the cart's items, the pre-tax total, the method and the customer; the cart becomes the initial cart; the catalog and customers (stock included) are unchanged; the dialog closes |
| Pos.PosPage.ClickProduct | src/pages/POS.jsx:73 | dispatches ADD_ITEM for the card's product |
| Pos.PosPage.ClickMinus | src/pages/POS.jsx:107 | dispatches UPDATE_QUANTITY with quantity − 1 |
| Pos.PosPage.ClickPlus | src/pages/POS.jsx:114 | dispatches UPDATE_QUANTITY with quantity + 1 |
| Pos.PosPage.ClickRemove | src/pages/POS.jsx:121 | dispatches REMOVE_ITEM |
| Pos.PosPage.ClickClearAll | src/pages/POS.jsx:86-87 | the button, shown only for a non-empty cart, resets the cart |
| Xendit.Derive | src/components/XenditPayment.jsx:16-23 | the subtotal is `totalPrice`; the rate follows the tax rule; tax = subtotal × rate / 100; total = subtotal + tax = subtotal × (1 + rate/100); an empty cart gives 0 for all three amounts |
| Xendit.CustomerId | src/components/XenditPayment.jsx:51 | the customer's id, or null when there is no customer or the id is 0 |
| Xendit.Request | src/components/XenditPayment.jsx:30-37 | the request carries the cart's items and customer, the derived amounts and method "xendit" |
| Xendit.Pending | src/components/XenditPayment.jsx:43-52 | the saved record has method "xendit", status "pending", the invoice id as payment id, the customer id rule, and the same items and amounts as the request |
| Xendit.ChargeMatchesReceipt | src/components/XenditPayment.jsx:16-23 | when every price is read alike, the charged subtotal and total are those the receipt prints for the same items |
| Xendit.ChargeExceedsCheckoutTotal | src/components/XenditPayment.jsx:21-23 | for a cart whose `totalPrice` is not 0, the charged total differs from the checkout page's recorded total exactly when the rate is not 0 |
| Xendit.XenditPayment.constructor | src/components/XenditPayment.jsx:11-14 | starts idle, with no error, link or invoice id, so the pay button is enabled and the form is shown rather than the pay link |
| Xendit.XenditPayment.HandlePayment | src/components/XenditPayment.jsx:25-61 | always ends with loading off. A failed invoice leaves its message as the error and keeps the link and id. A created invoice sets the link and id and saves the pending record. The error ends as the database's message or as none. Afterwards the pay button is enabled (`disabled={isLoading}`, XenditPayment.jsx:124); after a created invoice the pay link replaces the form (`if (paymentUrl)`, XenditPayment.jsx:69) exactly when its URL is not empty, and after a failure the view is what it was |
| Xendit.XenditPayment.HandleSuccess | src/components/XenditPayment.jsx:63-67 | reports the invoice id and method "xendit", and only when a callback is supplied |
| Reports.TotalRevenue | src/pages/Reports.jsx:7 | without refunds (no negative total), revenue is never negative |
| Reports.FilteredRevenueAtMost | src/pages/Reports.jsx:12-14 | without refunds, the revenue of any selection of sales lies between 0 and the total revenue |
| Reports.CategoryRevenue | src/pages/Reports.jsx:12-14 | without refunds, a category's revenue lies between 0 and the total revenue |
| Reports.SalesByCategory | src/pages/Reports.jsx:10-17 | the keys of `salesByCategory` are exactly the catalog's categories |
| Reports.AverageOrder | src/pages/Reports.jsx:8 | average × count = revenue when there is a sale, otherwise 0 |
| Reports.SalesByCategorySpec | src/pages/Reports.jsx:10-17 | each value of `salesByCategory` is (products in the category) × (revenue of the sales containing the category) |
| Reports.SalesByCategoryIntended | src/pages/Reports.jsx:10-17 | the keys are exactly the catalog's categories; each value is the category's revenue |
| Reports.SalesByCategoryOvercounts | src/pages/Reports.jsx:10-17 | the written map is the intended map scaled by the number of products per category |
| Reports.TwoCoffees | src/context/DataContext.jsx:6-11 | the initial catalog has two coffee products |
| Reports.CategoryRevenueOfOneSale | src/pages/Reports.jsx:12-14 | a single sale containing the category is that category's whole revenue |
| Reports.CoffeeCountedTwice | src/pages/Reports.jsx:10-17 | with the initial catalog, one coffee sale of 25000 is reported as 50000 (intended: 25000) |
| Reports.RecentTransactions | src/pages/Reports.jsx:19 | a prefix of the log, of length min(10, n) |
| Reports.RecentAfterAdd | src/pages/Reports.jsx:19 | a newly recorded sale heads the recent list, followed by the nine latest before it |
| Reports.MaxOver | src/pages/Reports.jsx:38 | `Math.max(...values, 1)`: ≥ 1, ≥ every value, and equal to one of them or to 1 |
| Reports.MaxCategorySales | src/pages/Reports.jsx:38 | for a map over the catalog's categories: ≥ 1, ≥ every category value, and equal to one of them or to 1 |
| Reports.Report | src/pages/Reports.jsx:7-38 | the page's figures as written: revenue, average, the category map the page builds, the ten latest sales, and the largest bar value `Math.max(...values, 1)` (≥ 1, ≥ every category value, and equal to 1 or to one of them); beside them, the intended category map over the same keys, of which the written value is the product count multiple |
| Reports.RevenueAppend | src/pages/Reports.jsx:7 | revenue adds up over a split log |
| Reports.RevenueSplitsByMethod | src/pages/Reports.jsx:7 | revenue counts every sale whatever its payment method: it is the sum of one method's revenue and the others' |
| Reports.RevenueAfterAdd | src/pages/Reports.jsx:7 | recording a sale raises revenue by exactly its total |

## Left out

- Locale formatting is not modelled: `formatPrice`, `formatNumber`, `toLocaleString` and the date formatting of the receipt and the reports. They are wrappers over `Intl`, so a parse-after-format round trip has nothing to check against; `Price.ParsePriceOfDecimalString` gives the round trip for plain decimal renderings.
- Browser storage is not modelled: src/utils/storage.js, the save effects, the loading of saved lists at start-up in src/context/DataContext.jsx:33-51, and the settings page.
- The settings state and the raw setters `setProducts`, `setCustomers` and `setSettings` are not modelled. Settings are a parameter wherever they are read, and the raw setters only replace a whole list. Loading a saved cart is `Cart.CartStore.Restore` with the loaded value as a parameter.
- The network is not modelled: the invoice service and the database insert in src/lib/xendit.js. Their outcomes are parameters of `Xendit.XenditPayment.HandlePayment`, and so is the error message they throw. This includes the fallback text "Failed to create invoice".
- The invoice body that src/lib/xendit.js builds from the request is not modelled. src/lib/xendit.js is not part of this model.
- Clock and ids: `Date.now()` and `new Date().toISOString()` are parameters. One instant is passed to each call, and id collisions are not modelled.
- The Products, Customers and Settings pages, the chart, the side bar, the header, the cards and `usePriceFormatter` are presentation. Their search filter has the shape of `Pos.FilteredProducts`, and their edits go through the `Data.DataStore` methods.
- The `alert` after a sale, the receipt's Escape key listener and `window.print` are browser I/O.
- `JSON.stringify(cart.items)` in the pending record is not modelled. The record keeps the items as a sequence.
- Concurrency is not modelled. React batches state updates and the awaits in `handlePayment` interleave; the model runs each handler to completion on the state it starts from.
- Cart.AddLine: the source raises the quantity on the same line object that the previous state holds, because the copy of the array is shallow. The model updates a value. It therefore does not capture that aliasing, nor the double increment a repeated reducer call would cause.
- Model.TaxSetting: a saved text percentage carries the number it denotes as a field. JavaScript's conversion of the text to a number, and a text that denotes no number (NaN), are not modelled.
- Model.PriceValue: numeric prices are integers. JavaScript numbers with fractions, and precision beyond 2^53, are not modelled.
- Receipt.ParseFloat: reads an optional sign and the leading run of digits. The decimal point, exponent and `Infinity` forms of `parseFloat` are not modelled. The receipt's own deletion of '.' and white space means only a comma or other separator can stop the digits.
- Pos.LowerChar: lower-cases only the letters A to Z. JavaScript's `toLowerCase` also maps other Unicode letters.
- Reports.SalesByCategory: a category that is a property name JavaScript objects already have, such as `"constructor"`, is not modelled. When the accumulator object is read at such a key, `acc[category] || 0` yields that property instead of 0.

## Findings

| source | as written | input that shows it | evidently intended | confidence | as-written member | corrected member |
|---|---|---|---|---|---|---|
| src/pages/Reports.jsx:10-17 | the reduce runs once per product and adds the category's revenue each time, so a category with n products shows n × its revenue | initial catalog (two Coffee products, Cappuccino and Americano) and one sale of 25000 containing a coffee: Coffee is shown as 50000 | each category shows its revenue once: 25000 | high, not executed | Reports.CoffeeCountedTwice | Reports.SalesByCategoryIntended |
