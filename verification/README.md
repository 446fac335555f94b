# PlantShop order validator and pricer, modelled in Dafny

PlantShop is a small storefront. A customer fills in one order form with contact
and shipping details and how many small, medium and big pots to buy. The POST
route in `index.js` runs nine field checks. If any check fails, the route
re-renders the form with the error list. Otherwise it prices the order: shipping
charge by delivery tier, a subtotal, the provincial tax rate, tax paid and total.
It then stores the receipt and renders it.

This project models that validator and pricer as pure functions over strings
(`seq<char>`) and natural numbers, and proves properties about them.

- `wrappers.dfy`: `Option`, used for a passing check, an unknown province and a non-numeric string.
- `text.dfy` (module `Text`): JavaScript's whitespace set, `trim()`, and the decimal value and canonical spelling of digit strings.
- `patterns.dfy` (module `Patterns`): the five regular expressions, each as a positional test, which is what the validator runs. The phone and postal-code patterns are also written as the language the regex denotes, built from the pattern's concatenation structure, and a lemma proves each pair agrees. The positive-integer pattern is proved to accept exactly the canonical decimal spellings of 1, 2, 3 and so on. The whole-number and province-code patterns are written once.
- `validator.dfy` (module `Validator`): the submission record, the nine checks with their exact messages, `stringToZero`, and the whole error list.
- `pricer.dfy` (module `Pricer`): the tax and shipping tables, JavaScript's string-to-number conversion for the strings that reach pricing, the bill, the delivery address and the priced order.
- `order_route.dfy` (module `OrderRoute`): the route's branch between the error page and the receipt, plus worked examples.

Money is kept exact. The tax rate is stored in thousandths of a percent, so Quebec's
14.975 is `14975`. Tax paid and total are stored in units of 1/100000 of a dollar.
If a province passes the two-capital-letter check but is not in the tax table
(for example `ZZ`), the source leaves `tax` undefined, so tax paid and total become
`NaN`. The model returns `None` for all three.

## Notes on the code

- Any positive delivery time passes the check. Only 1 to 4 have a shipping charge; every other value keeps the initial charge of 0.
- The middle character of a postal code may be any single whitespace character (`\s`), not only a space.
- The province check accepts any two capital letters, whether or not the tax table has a rate for them.
- The validator does not rewrite blank pot fields. The pricing block zeroes them itself. It trims `potSmall` first, but compares `potMedium` and `potBig` with `""` untrimmed. `Pricer.PricedQuantityIsValidated` proves that both ways give the numbers the validator counted.

## Model

| member | source | states |
|---|---|---|
| Text.Trim | index.js:120-121 | the trimmed string is empty exactly when the input is all whitespace |
| Text.TrimSlice | index.js:120-121 | the trimmed string is the slice left after removing whitespace from both ends, and it neither starts nor ends with whitespace |
| Text.LeadingZeros | index.js:102-104 | leading zeros do not change the value `parseInt` reads from a digit string |
| Text.PaddedDecimal | index.js:53 | every non-empty digit string is some number of zeros followed by the canonical spelling of a number |
| Text.DecimalValue | index.js:102-105 | `parseInt` of a digit string is zero exactly when every digit is '0', which is how the zero-sum test sees "no pots" |
| Patterns.PhoneMatchesRegex | index.js:49 | the phone test accepts exactly the strings of `([0-9]{3}-?){2}[0-9]{4}`: ten digits with an optional dash after the third and after the sixth |
| Patterns.PostcodeMatchesRegex | index.js:51 | the postal-code test accepts exactly the strings of `[A-Z][0-9][A-Z][\s]?[0-9][A-Z][0-9]` |
| Patterns.PostcodeShape | index.js:51 | an accepted postal code is 6 or 7 characters long and has no lower-case letter |
| Patterns.PositiveIntegerIsCanonical | index.js:55 | `[1-9][0-9]*` accepts exactly the canonical decimal spellings of the numbers from 1 up |
| Validator.Required | index.js:136-140 | `notEmpty` passes exactly on a string of length > 0, and otherwise reports the field's "... is required" message |
| Validator.PhoneCheck | index.js:69-74 | passes exactly on the phone regex language; otherwise reports "Phone must be formatted as xxx-xxx-xxxx" |
| Validator.PostcodeCheck | index.js:76-81 | passes exactly on the postal-code regex language; otherwise reports "Postal Code must be formatted as A2A 2A2" |
| Validator.ProvinceCheck | index.js:83-88 | passes exactly on two capital letters; otherwise reports "Province is required" |
| Validator.DeliveryTimeCheck | index.js:112-117 | passes exactly on the canonical spelling of a number n >= 1; otherwise reports "Delivery Time must be a number" |
| Validator.StringToZero | index.js:120-126 | the result is non-empty and already trimmed; it is "0" for an all-whitespace input and the trimmed input otherwise |
| Validator.Quantity | index.js:102-105 | the parsed pot count of an entry is zero exactly when the trimmed entry is blank or all zeros |
| Validator.PotsCheck | index.js:94-110 | reports the format error exactly when some trimmed entry holds a non-digit, even if no pot is ordered; otherwise reports "At least one pot must be purchased" exactly when every entry is blank or zeros; otherwise passes |
| Validator.EveryFieldChecked | index.js:135-145 | the registered check list covers every field, and each field's rank is its position in the list, so the list is in rank order |
| Validator.Check | index.js:136-144 | the check registered for a field passes exactly when that field's rule holds, stated through the regex languages, and a failing check reports one of that field's own messages |
| Validator.Collect | index.js:135-145 | every gathered error belongs to a listed field whose check failed with exactly that message, and there are no more errors than checks in the list |
| Validator.CollectComplete | index.js:135-145 | no failing check is skipped: each failing field's error is in the list whatever the other checks did |
| Validator.CollectCoversAll | index.js:135-145 | when the check list names every field, each failing check of a submission has its error, with its message, in the gathered list |
| Validator.CollectInOrder | index.js:135-145 | errors appear in strictly increasing check order, so no check reports twice |
| Validator.Validate | index.js:135-153 | the error list has one entry per failing check, carrying that check's message, in check-list order, and nothing else; it is empty exactly when every check passes |
| Validator.AcceptedExactly | index.js:135-153 | every check passes, so the error list is empty, exactly when all rules hold: name, email, address and city non-empty, phone, postal code, province and delivery time in their regex languages, every pot entry blank or digits, and at least one entry not all zeros |
| Pricer.TaxRate | index.js:175-192 | the if/else chain gives a rate exactly for the 13 codes of the tax table, with the table's rate (5, 12, 15, 13, 14.975, 11 percent) |
| Pricer.TaxTableCodesAreProvinceCodes | index.js:175-192 | every province code in the tax table passes the province check |
| Pricer.ProvinceCheckAdmitsUntaxedCode | index.js:175-192 | "ZZ" passes the province check yet has no tax rate |
| Pricer.ToNumber | index.js:195-208 | a string converts to a number exactly when its trimmed text is blank or digits; it converts to 0 exactly when that text is blank or zeros; a text that trims to the canonical spelling of n converts to n |
| Pricer.ToNumberOfPadded | index.js:195-208 | a text that trims to zeros followed by the canonical spelling of n converts to n; with `Text.PaddedDecimal` this fixes the value of every digit string |
| Pricer.PricedQuantity | index.js:170-172 | zeroing a blank pot field, trimmed first or not, gives the same number as converting the raw field directly |
| Pricer.ShippingCharge | index.js:194-206 | the charge is the shipping table's entry for the delivery time's numeric value, 0 when there is none, so always one of 0, 15, 20, 25, 30 |
| Pricer.ShippingByTier | index.js:195-206 | on an accepted delivery time, the charge is 30, 25, 20 or 15 exactly for "1", "2", "3" or "4", and 0 for every other value |
| Pricer.PricedQuantityIsValidated | index.js:170-172 | zeroing a blank entry, whether the entry is trimmed first (potSmall) or not (potMedium, potBig), yields the count the validator parsed |
| Pricer.DeliveryAddress | index.js:216 | the delivery address is the street address, city, province and postal code in that order, each pair separated by a comma and a space, and nothing else |
| Pricer.DeliveryAddressReadBack | index.js:216 | the delivery address starts with the street address, and the province and postal code can be read back unchanged from its end |
| Pricer.TaxPaid | index.js:209 | in dollars, tax paid is index.js's `subTotal * (tax / 100)` with `tax` the percentage rate, exactly, and it is undefined exactly when the rate is |
| Pricer.Total | index.js:210 | in dollars, the total is index.js's `subTotal + taxPayed`, exactly, and it is undefined exactly when the tax paid is |
| Pricer.ComputeBill | index.js:194-210 | shipping is the charge for the delivery time, one of the five charges; subtotal is 10, 20, 30 per small, medium, big pot plus shipping and is at least 10 plus shipping when a pot is ordered; tax paid is subtotal times rate and total is subtotal plus tax paid, exactly, or both undefined when the rate is |
| Pricer.Price | index.js:154-225 | on a submission that passes every check, the receipt's pot counts are the numbers the raw fields denote, at least one pot is ordered, subtotal is at least 10 plus shipping, the tax fields are defined exactly for provinces of the table, the shipping charge is the charge for the submitted delivery time, the delivery address is the four address fields joined in order, and the province and postal code read back from its end |
| Pricer.PricedPotsAreValidated | index.js:170-172 | the pot counts on the receipt are the counts the validator checked |
| OrderRoute.HandleOrder | index.js:145-153 | the route renders the receipt exactly when every check passes; otherwise it renders a non-empty error list holding one error per failing check, with that check's message, in check-list order, and nothing else |
| OrderRoute.ReceiptIsPricedOrder | index.js:153-234 | when every check passes, the rendered receipt is the priced order |
| OrderRoute.OntarioScenario | index.js:175-210 | Ontario, tier 2, one small pot gives shipping 25, subtotal 35, tax paid 4.55 and total 39.55 |
| OrderRoute.QuebecScenario | index.js:187-210 | Quebec, tier 1, two medium pots and one big pot gives subtotal 100 and tax paid exactly 14.975 |
| OrderRoute.NoPotsScenario | index.js:94-110 | a blank small-pot entry with the other two "0" fails the pot check with "At least one pot must be purchased", whatever the other fields hold, and the route renders the error form |
| OrderRoute.PostcodeScenario | index.js:51 | "A1A 1A1" and "A1A1A1" pass the postal-code check and "a1a 1a1" fails it |
| OrderRoute.PhoneScenario | index.js:49 | "111-111-1111" and "1111111111" pass the phone check and "11-1111-1111" fails it |
| OrderRoute.DeliveryTimeScenario | index.js:55 | "0", "01" and "" fail the delivery-time check and "12" passes it |

## Left out

- The Express application, its routes, EJS rendering and `listen` (index.js:36-44, 131-133, 234, 239-254). These are HTTP and page plumbing. Only the POST handler's branch is modelled.
- The Mongoose connection, schema, `save` and `find` (index.js:13-33, 228-232). These are database input and output. The save is fire-and-forget and does not change the response.
- The `toFixed(2)` rounding of `taxPayed` and `total` (index.js:209-210). It is floating-point arithmetic followed by string formatting. The model states tax paid and total exactly, in 1/100000 dollar.
- Floating-point range and precision of JavaScript numbers. Counts, subtotals and tax are unbounded naturals, so entries above 2^53 are not rounded as the source would round them.
- express-validator internals. `check` also looks for a field in the query, cookies and headers, and a missing field becomes the string "undefined" in `stringToZero`. Every field is modelled as a string taken from the form body.
- Pricer.ToNumber: covers only blank and digit strings and returns None for any other text (where JavaScript would accept "1.0", "0x1" or "1e2"). Only blank and digit strings reach pricing.
- The receipt echoes the raw pot strings to the page, for example " 3 ", or " " for `potMedium` and `potBig`. A whitespace-only `potSmall` has already been replaced by 0 (index.js:170). `PricedOrder` holds the numbers the entries denote, as the database schema's `Number` fields do.
- `public/js/main.js`. Its `OnSubmit` returns `true` on its first line and its regex helper is commented out, so none of it runs.
