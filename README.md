# Invoice handler model

A Dafny model of the computational core of the `create-invoice` serverless
handler, which turns an order (invoice number `arve_nr`, recipient fields
`saaja_*`, a `products` list and an `email`) into a one-page PDF invoice with
Estonian VAT at 24 %. The model covers:

- the request checks (products must be a non-empty array, then the e-mail
  must be truthy), with the rejected request carrying only its error;
- VAT pricing: gross unit prices divided by 1.24 into net, line net and line
  gross amounts, the running totals over the products in order, and the VAT
  amount as gross total minus net total, over exact rationals (`real`);
- the vertical layout cursor: the recipient column at a fixed pitch from
  y = 140, the merge of the seller and recipient columns with a gap of 30,
  the table header and the item rows whose height follows the measured
  height of the wrapped item name;
- the derived strings: the file name `invoice-<nr|no-number>.pdf`, the `-`
  placeholder for falsy recipient fields, the e-mail subject and the
  zero-padded `dd-mm-yyyy` date.

Modules, one per concern: `JsValues` (`js_values.dfy`: JavaScript truthiness
and template-literal text of request fields, decimal numerals), `Pricing`
(`pricing.dfy`), `Layout` (`layout.dfy`), `Labels` (`labels.dfy`) and
`CreateInvoice` (`create_invoice.dfy`: the request, the checks, the recipient
column, the document cursor class `Doc` with the item loop, and the handler).

The rendering library's measurements are parameters of `Handle`: the cursor
position after the seller column (`sellerEndY`) and the height of an item
name wrapped at the name column (`heightOfString`). Today's date comes in as
`day`, `month` and `year`.

Rows advance by the measured name height plus 4, with no minimum row height.
Quantities and prices are not validated: negative or non-numeric values are
not rejected, so the non-negativity results are stated for non-negative
prices, quantities and measured heights.

## Model

| member | source | states |
|---|---|---|
| `CreateInvoice.CheckRequest` | functions/create-invoice.js:18-21 | the request is accepted exactly when products is a non-empty array and email is truthy; "No products provided" exactly when products is not an array or is empty (checked first), "No email provided" exactly when products pass and email is falsy; on success the items are the request's products |
| `CreateInvoice.Message` | functions/create-invoice.js:19-21 | a missing product list is reported as "No products provided" and a missing e-mail as "No email provided", both starting with "No " |
| `CreateInvoice.Handle` | functions/create-invoice.js:18-112 | a rejected request yields its guard error and nothing else; an accepted one yields the file name, date, subject, recipient column, table top = max(seller end, recipient end) + 30, rows from table top + 20 advanced by name height + 4, final cursor, and totals equal to the in-order sums of line net and line gross with VAT = their difference |
| `CreateInvoice.ClientColumn` | functions/create-invoice.js:65-74 | all six recipient lines are emitted, line k shows its label with the field's text or "-", at y = 140, 164, 178, 192, 206, 220, and the column cursor ends at 234 |
| `CreateInvoice.Doc.PlaceItems` | functions/create-invoice.js:90-109 | after the product loop the totals equal the sums of the line amounts over all products in order from 0, row k sits where the first k rows left the cursor and shows item k's amounts, and the cursor is where all rows leave it |
| `CreateInvoice.RowsStackDownwards` | functions/create-invoice.js:93-108 | with non-negative measured heights, the first row is at the first row position and every later row starts below each earlier row's name plus 4, as does the final cursor |
| `Pricing.NetEach` | functions/create-invoice.js:96 | the net unit price times 1.24 gives back the gross unit price, and it is non-negative for a non-negative price |
| `Pricing.LineGross` | functions/create-invoice.js:98 | a line's gross amount is non-negative when its price and quantity are |
| `Pricing.LineNet` | functions/create-invoice.js:96-98 | line net times 1.24 equals line gross, and both are non-negative for non-negative price and quantity |
| `Pricing.TotalsRoundTrip` | functions/create-invoice.js:90-101 | net total times 1.24 equals gross total |
| `Pricing.TotalNet` | functions/create-invoice.js:90-101 | the net total over the products in order is non-negative when every price and quantity is |
| `Pricing.TotalGross` | functions/create-invoice.js:90-101 | the gross total over the products in order is non-negative when every price and quantity is |
| `Pricing.VatAmount` | functions/create-invoice.js:112 | VAT = gross total - net total equals gross total * 0.24 / 1.24 and net total * 0.24, and is non-negative for non-negative inputs |
| `Pricing.SingleLineExample` | functions/create-invoice.js:96-112 | two items at 12.40 gross give 10.00 net each, 20.00 net, 24.80 gross and 4.80 VAT |
| `Layout.ClientLineY` | functions/create-invoice.js:65-74 | every recipient line lies at or below y = 140 and ends within the column end 234 |
| `Layout.Max` | functions/create-invoice.js:76 | `Math.max` gives a value at least both arguments and equal to one of them |
| `Layout.TableTop` | functions/create-invoice.js:76 | the table starts at least 30 below both columns and exactly 30 below the taller one |
| `Layout.RowsEndStep` | functions/create-invoice.js:93-108 | the cursor after one more row is the cursor before it plus that row's name height plus 4 |
| `Layout.RowsEndClosedForm` | functions/create-invoice.js:108 | after N rows the cursor is the start plus the sum of the name heights plus 4N |
| `Layout.RowsDoNotOverlap` | functions/create-invoice.js:93-108 | with non-negative heights a later row starts at or below an earlier row's start plus its name height plus 4, and at least 4 per row further down |
| `Layout.RowsEndAtLeastStart` | functions/create-invoice.js:108 | with non-negative heights the cursor never moves up: after N rows it is at least the start plus 4N |
| `Labels.FileName` | functions/create-invoice.js:40 | the file name starts with "invoice-" and ends with ".pdf" |
| `Labels.FileNameRoundTrip` | functions/create-invoice.js:40 | the middle of the file name is the invoice number's text when it is truthy and "no-number" otherwise |
| `Labels.DistinctNumbersDistinctFiles` | functions/create-invoice.js:40 | two different non-zero numeric invoice numbers never produce the same file name |
| `Labels.Placeholder` | functions/create-invoice.js:70-74 | a falsy recipient field shows "-", a truthy one its own text, and the shown text is never empty |
| `Labels.Subject` | functions/create-invoice.js:166 | the e-mail subject is "Arve " followed by the invoice number or "-" |
| `Labels.PadStart` | functions/create-invoice.js:34 | the padded string is as long as the width (or the string, if longer), ends with the string and is filled in front with the pad character |
| `Labels.TwoDigits` | functions/create-invoice.js:34 | a day or month is shown with at least two characters: a single digit gets a leading "0", a two-digit number is its own numeral |
| `Labels.TwoDigitsOf` | functions/create-invoice.js:33-34 | a day or month below 100 is shown as exactly two digits that read back as the number |
| `Labels.DateString` | functions/create-invoice.js:33-34 | for a day and month below 100 the date has dashes at positions 2 and 5 and ends with the year's numeral |
| `Labels.DateStringRoundTrip` | functions/create-invoice.js:33-34 | the date string is two digits, a dash, two digits, a dash and the year's numeral, and these read back as day, month and year |
| `JsValues.NatToString` | functions/create-invoice.js:34 | the decimal numeral is non-empty, all digits, one digit exactly below 10, and has no leading zero |
| `JsValues.ParseNatToString` | functions/create-invoice.js:34 | reading a natural number's numeral gives back the number |
| `JsValues.IntToString` | functions/create-invoice.js:34 | an integer's text is a well-formed numeral that starts with a minus sign exactly when the integer is negative |
| `JsValues.IntToStringRoundTrip` | functions/create-invoice.js:34 | an integer's numeral is well formed and reads back as the integer |
| `JsValues.IntToStringInjective` | functions/create-invoice.js:40 | different integers have different numerals |
| `JsValues.TruthyByText` | functions/create-invoice.js:18-21 | `undefined` and `null` are falsy; a boolean is truthy exactly when its text is "true", a number exactly when its text is not "0", a string exactly when it is not empty |
| `JsValues.ToText` | functions/create-invoice.js:67 | a truthy value's template-literal text is never empty |
| `JsValues.OrElse` | functions/create-invoice.js:67 | in a template, a truthy value gives its own text and a falsy one the fallback; the result is non-empty when the fallback is |

## Left out

- PDF drawing (logo, fonts, text, rules, `doc.end()`): only the cursor positions, the recipient lines and each row's position and amounts are modelled.
- The seller column text and the measuring of text: the rendering library's results are parameters (`sellerEndY`, `heightOfString`), so nothing is claimed about their values beyond the non-negativity premise of the layout lemmas.
- The totals and footer block after the rows (lines 114-131): its positions depend on the font's line height and its text is fixed apart from the formatted amounts and the date.
- `toFixed(2)` and IEEE-754 doubles: amounts are exact rationals, so cent rounding and floating-point error are not modelled.
- The clock (`new Date()`), the temporary file, the stream's finish wait, the Google Drive upload with its metadata, the JWT credentials and the e-mail sending: I/O and network; the e-mail subject is modelled as a string only.
- The JSON parsing of the body and the HTTP status wrapping: a rejected request is `Err` with an error whose text `Message` gives; an accepted one is `Ok` with the invoice's computed parts.
- JsValues.JsValue: numbers in request fields are integers; fractional numbers, NaN, objects and arrays as field values are not modelled, nor is the loss of precision of integers beyond 2^53 in JSON parsing.
- JsValues.IntToString: writes every digit of any integer, whereas `String(n)` switches to exponent form at magnitude 10^21 (an `arve_nr` of `1e21` gives the file name `invoice-1e+21.pdf`); the model's text agrees with JavaScript only below 10^21.
- CreateInvoice.Request: each product is a record with a string name and numeric quantity and price; JavaScript coercion of missing or non-numeric product fields is not modelled.
- functions/list-archives.js is not part of this model: it only lists files through the Drive API.
