# Invoice and air-waybill builders, modelled in Dafny

This project models the two document builders of a small shop front-end:

- `generateInvoiceHTML` turns an order record into an invoice. It derives the short order id, the paid flag, the subtotal, the shipping fee, the coupon discount and the grand total. It formats money with `formatCurrency`. It then lays out a header, a meta block, a bill-to block, an optional tracking block, one table row per item, a totals block and a footer. `downloadInvoiceHTML` derives the download file name.
- `generateAwbBill` fills an air-waybill (AWB) form on a PDF page. It picks the page format. It moves a vertical cursor down by fixed steps and sets the font size, weight and colour between text calls. Each field is drawn with a label and a literal default. A footer is pinned near the bottom of the page. `downloadAwbBill` derives the file name.

Files:

- `wrappers.dfy`: the `Option` type. `GetOr` models JavaScript's `??`.
- `text.dfy`: upper-casing, single-character replacement, taking a prefix, and JavaScript's truthiness test and `||` default on optional string fields.
- `money.dfy`: `formatCurrency`. Amounts are exact reals, rounded once to hundredths. The integer digits use `en-IN` grouping (`12,34,567`). The fraction always has exactly two digits. `ParseCurrency` reads a formatted string back, so a round-trip lemma shows that formatting loses nothing except the rounding.
- `invoice.dfy`: the order record, with every field optional, and the configuration record with its literal defaults (`DefaultConfig`). It also holds:
  - the derived values: `OrderIdShort`, `Paid`, `Subtotal`, `ShippingFee`, `Discount`, `Total` and `StatusLabel`;
  - the invoice as a document tree (`InvoiceDoc`), built by `GenerateInvoice`;
  - `InvoiceFilename`;
  - the lemmas about all of these.
- `awb.dfy`: a `PdfDoc` class that stands in for the PDF document. It holds the page format and size, the current font name, weight, size and text colour, and the list of text commands drawn so far. Each command records the font state in force when it was drawn.
  - `GenerateAwbBill` is an imperative method with the source's cursor `y`. It is proved to produce exactly the display list `AwbLayout`, which is written with absolute coordinates.
  - Lemmas about `AwbLayout` state the cursor positions, the placement, the weights, the sizes and colours, and the defaults.

The derived values without their own `ensures` appear in the table through the lemmas that state them:

- `Invoice.PaymentMethodText`, `Invoice.Paid`, `Invoice.Subtotal` (a left fold, as `reduce`) and its reference sum `Invoice.SumLineTotals`;
- `Invoice.ShippingFee`, `Invoice.Discount`, `Invoice.Total`, `Invoice.GenerateInvoice` and `Invoice.InvoiceFilename`;
- the invoice's section builders `Invoice.RowOf`, `Invoice.LineTotal`, `Invoice.BillToOf`, `Invoice.TrackingOf` and `Invoice.TotalsOf`;
- the pieces of `formatCurrency`: `Money.GroupIndian`, `Money.AmountText` and `Money.Cents` (stated by `Money.FormatCurrencyLayout`, `Money.GroupIndianStrip` and `Money.GroupIndianLayout`);
- `Awb.AwbLayout` and `Awb.AwbFilename`.

In three places the model follows the code where a reader might expect otherwise:

- The AWB date line falls back to the current date (the `today` parameter), not to `N/A` or the empty string.
- The invoice shows the tracking block only when `trackingId` is truthy, so an empty tracking id counts as absent.
- The invoice's courier and link lines also appear only when their own field is truthy.

## Model

| member | source | states |
|---|---|---|
| Text.Upper | lib/generateInvoiceHTML.js:13 | upper-casing keeps the length and maps each character by itself, with ASCII a–z to A–Z |
| Text.UpperIsUpper | lib/generateInvoiceHTML.js:13 | after upper-casing no lower-case letter remains, and upper-casing again changes nothing |
| Text.ReplaceAll | lib/generateInvoiceHTML.js:211 | replacing one character keeps the length; each occurrence becomes the replacement and every other character is kept |
| Text.Take | lib/generateInvoiceHTML.js:13 | `slice(0, n)` yields a prefix of the string, of length min(n, length) |
| Text.OrDefault | lib/generateInvoiceHTML.js:221-225 | the or-default on a string field gives the value when it is present and non-empty, and the default otherwise |
| Money.FormatCurrency | lib/generateInvoiceHTML.js:10 | the result starts with the currency symbol and ends in '.' and two digits; a zero amount gives the symbol followed by "0.00" |
| Money.FormatCurrencyRoundTrip | lib/generateInvoiceHTML.js:10 | reading the formatted text back gives the amount rounded to hundredths, halves away from zero, with its sign: only the rounding is lost |
| Money.RoundedHundredths | lib/generateInvoiceHTML.js:10 | a non-negative amount is rounded to the nearest whole number of hundredths, a half going up |
| Money.MinorUnits | lib/generateInvoiceHTML.js:10 | the shown number of hundredths is within half a hundredth of the amount and has the amount's sign |
| Money.FormatCurrencyLayout | lib/generateInvoiceHTML.js:10 | the text is the symbol, a minus sign exactly for a negative amount, the whole part of the rounded amount as digits without leading zeros that read back to it, grouped the en-IN way, then '.' and the two hundredths digits |
| Money.WholePartLayout | lib/generateInvoiceHTML.js:10 | the whole part's digits have no leading zero and read back to the number; grouping them gives the en-IN layout and only adds commas |
| Money.GroupIndianStrip | lib/generateInvoiceHTML.js:10 | en-IN grouping only inserts commas: deleting them gives back the digits |
| Money.GroupIndianLayout | lib/generateInvoiceHTML.js:10 | en-IN grouping puts the last three digits in one group, pairs before them and a first group of one or two digits |
| Money.FormatCurrencyZero | lib/generateInvoiceHTML.js:10 | zero rupees are shown as ₹0.00 |
| Money.FormatCurrencyThousand | lib/generateInvoiceHTML.js:10 | 1234.5 is shown as ₹1,234.50 |
| Money.IntToString | lib/generateInvoiceHTML.js:256 | a quantity's decimal text reads back to the quantity, has no leading zeros, and starts with a minus sign exactly for a negative one |
| Invoice.OrderIdShort | lib/generateInvoiceHTML.js:13 | the short id is the first min(8, length) characters of the id, each upper-cased; an absent or empty id gives "" |
| Invoice.OrderIdShortExample | lib/generateInvoiceHTML.js:13 | the id "abcdefghij" gives the short id "ABCDEFGH" |
| Invoice.AbsentIdExample | lib/generateInvoiceHTML.js:307 | an order without an id gives the short id "" and the file name "Invoice_.pdf" |
| Invoice.InvoiceFilenameSpec | lib/generateInvoiceHTML.js:307 | the download name is "Invoice_", then the upper-cased first eight characters of the id, then ".pdf" |
| Invoice.InvoiceNumberMatchesFilename | lib/generateInvoiceHTML.js:186-189 | the header's invoice number is "#" plus the short id, the page title repeats it, and the file name uses the same short id |
| Invoice.PaidSpec | lib/generateInvoiceHTML.js:14 | an explicit isPaid, including false, is never overridden; without one, the order is paid iff the upper-cased payment method is "STRIPE" |
| Invoice.PaidExamples | lib/generateInvoiceHTML.js:14 | "stripe" without isPaid is paid, "cod" is not, and "stripe" with isPaid false is not |
| Invoice.SubtotalFromIsSum | lib/generateInvoiceHTML.js:16 | the left fold of the line totals from an accumulator equals the accumulator plus the sum of the line totals |
| Invoice.SubtotalMatchesRows | lib/generateInvoiceHTML.js:252-260 | the subtotal is the sum of price × quantity, with missing values as 0, and 0 for no items; row i shows the formatted line total of item i |
| Invoice.ItemRows | lib/generateInvoiceHTML.js:252-260 | there is one row per item, in input order, and row i is the row of item i with number start + i + 1 |
| Invoice.ItemTableSpec | lib/generateInvoiceHTML.js:252-260 | the table has one row per item, numbered from 1; the name defaults to "Product", a missing quantity shows "0" and the price is formatted |
| Invoice.SubtotalExample | lib/generateInvoiceHTML.js:16-24 | items 100 × 2 and 50 × 1 give the subtotal 250; with shipping 20 and no coupon the total is 270 |
| Invoice.DiscountSpec | lib/generateInvoiceHTML.js:18-23 | the discount is 0 without an applied coupon, discount/100 × the subtotal for a percentage coupon, and the flat value (0 if missing) otherwise |
| Invoice.DiscountExamples | lib/generateInvoiceHTML.js:18-23 | with a subtotal of 250: 10 % gives 25, a flat 30 gives 30 with or without a type, and an unused coupon gives 0 |
| Invoice.ShippingAndTotalSpec | lib/generateInvoiceHTML.js:17-24 | the shipping fee is shippingFee when present (even 0), else shipping, else 0; an explicit total (even 0) wins over subtotal + shipping − discount |
| Invoice.StatusLabel | lib/generateInvoiceHTML.js:211 | the label keeps the status's length and has no '_'; each '_' becomes a space and every other character is upper-cased; an absent status gives "" |
| Invoice.ConditionalSectionsSpec | lib/generateInvoiceHTML.js:228-280 | the discount row appears iff the discount is positive and shows "-" plus the formatted discount; the tracking block appears iff trackingId is truthy; inside it the courier and link lines appear iff their own field is truthy |
| Invoice.HeaderAndMetaSpec | lib/generateInvoiceHTML.js:180-226 | the header and footer show the configured strings; the meta block shows the date, the upper-cased payment method, PAID or UNPAID and the status label |
| Invoice.BillToDefaults | lib/generateInvoiceHTML.js:221-225 | without an address the bill-to block shows "Customer", empty street and city lines, "India" and "Phone: N/A" |
| Awb.PageFormatOf | lib/generateAwbBill.js:4 | the format is A5 exactly when pdfSize is "a5", and A4 otherwise, including when it is absent |
| Awb.PdfDoc.constructor | lib/generateAwbBill.js:5 | a new document has the chosen format and page size, the default 16 pt helvetica in normal weight and black, and nothing drawn |
| Awb.PdfDoc.SetFontSize | lib/generateAwbBill.js:11 | sets the font size and leaves everything else unchanged |
| Awb.PdfDoc.SetFont | lib/generateAwbBill.js:12 | sets the font name and weight and leaves everything else unchanged |
| Awb.PdfDoc.SetTextColor | lib/generateAwbBill.js:57 | sets the text colour and leaves everything else unchanged |
| Awb.PdfDoc.Text | lib/generateAwbBill.js:13 | appends one command with the text, position, alignment and current font state; the font state is unchanged |
| Awb.GenerateAwbBill | lib/generateAwbBill.js:3-61 | returns a new document with the chosen format whose commands are exactly the display list `AwbLayout`; it ends in 9 pt grey 120 and the cursor ends at 115 |
| Awb.DrawHeader | lib/generateAwbBill.js:10-23 | draws the title and the two header rows, with their defaults, at the cursor and 12 and 20 mm below it; leaves the font at 11 pt normal and moves the cursor 28 mm down |
| Awb.DrawBlock | lib/generateAwbBill.js:25-33 | appends a bold heading at the cursor and three normal lines 6, 12 and 18 mm below; restores normal weight and moves the cursor 24 mm down |
| Awb.StepsDownNonDecreasing | lib/generateAwbBill.js:8-53 | if each line is at or below the previous one, then every line is at or below every earlier line |
| Awb.AwbCursorSpec | lib/generateAwbBill.js:8-58 | 18 commands: the title at y = 15, header rows at 27 and 35, block headings at 43, 67 and 91 with lines 6 mm apart; y never decreases before the footer, and the footer sits at pageHeight − 10 |
| Awb.AwbPlacementSpec | lib/generateAwbBill.js:13-58 | the title and footer are centred at pageWidth/2, the order-id and date lines are right-aligned at pageWidth − 15, and every other line is left-aligned at x = 15 |
| Awb.AwbBoldSpec | lib/generateAwbBill.js:11-53 | everything is in helvetica; exactly the title and the three block headings are bold |
| Awb.AwbSizeAndColourSpec | lib/generateAwbBill.js:11-58 | the title is 18 pt and the body 11 pt, all in black; the footer text is 9 pt in grey 120 |
| Awb.AwbDefaultsSpec | lib/generateAwbBill.js:18-52 | an empty record shows N/A for the AWB number, order id and courier, today's date, blank values elsewhere and "Weight:  kg" |
| Awb.AwbHeaderFieldsSpec | lib/generateAwbBill.js:18-22 | for any record: the AWB number, order id and courier lines show their field after the label when it is present and non-empty, and "N/A" when it is absent or empty; the date line falls back to today's date |
| Awb.AwbPartyFieldsSpec | lib/generateAwbBill.js:30-42 | for any record: the sender's and receiver's name, address and phone lines show their field after the label when it is present and non-empty, and nothing after it otherwise |
| Awb.AwbShipmentFieldsSpec | lib/generateAwbBill.js:50-52 | for any record: the weight line shows the weight, or nothing, between "Weight: " and " kg" and always ends in " kg"; the dimensions and contents lines show their field or nothing after the label |
| Awb.AwbFilenameSpec | lib/generateAwbBill.js:65 | the file name is "AWB_" + the first non-empty of the AWB number, the order id and "bill", + ".pdf" |

## Left out

- The html2pdf download and print actions are left out. They create DOM elements, call a foreign library and open a window. Only the download file name is modelled (`InvoiceFilename`).
- The jsPDF library is not part of this model. It is replaced by the `PdfDoc` class. The page width and height are parameters; for the ISO 216 sizes they are 210 × 297 mm for A4 and 148 × 210 mm for A5. The millimetre unit and portrait orientation are fixed and not represented.
- The stylesheet and the literal HTML text are left out. The invoice is a tree of its sections and rows, with the values interpolated raw, without escaping.
- Reading the six configuration constants from environment variables is left out. `Config` is a parameter, and `DefaultConfig` holds the literal defaults.
- Date formatting (`toLocaleDateString`) depends on the clock and the locale. The invoice date and the AWB fallback date are string parameters.
- Money.FormatCurrency: rounds the exact amount, not the binary double that JavaScript holds. `Number(...)` coercion to NaN and float rounding in `toLocaleString` are not modelled. The `n || 0` default only matters for a missing, NaN or negative-zero argument. Exact reals have no negative zero; `||` turns −0 into 0, and the model shows 0 as "0.00", which is what the source gives for −0.
- Text.Upper: maps only the ASCII letters. Unicode special casing is not modelled: 'ß' becomes "SS", which changes the length, and 'ſ' becomes 'S'.
- Text.Take: counts characters (Unicode scalar values), while JavaScript's `slice` counts UTF-16 code units. An id with a character outside the Basic Multilingual Plane, such as an emoji, is cut differently. The same holds for the length stated by Invoice.StatusLabel and Invoice.OrderIdShort.
- Awb.AwbShipmentFieldsSpec: the AWB fields are strings. A numeric field such as a weight of 0, which JavaScript treats as falsy, is not modelled.
- Invoice.ItemRows: quantities are integers. A fractional quantity's JavaScript number text is not modelled.
- The item's `product.name` path is one optional `productName`. A missing product and a missing name behave the same.
- A null order is modelled as `NoOrder`, and a null item in the list as an item with every field absent. Non-boolean `isPaid` or `isCouponUsed` values are not modelled (both are `Option<bool>`).
- A null or undefined AWB record is not modelled. The source reads `pdfSize` and `awbNumber` without optional chaining, so it throws a TypeError; `AwbDetails` is always a record, and an empty one is `NoDetails`.
- The order's `createdAt` field is not represented. It only feeds the date text.
- Awb.GenerateAwbBill: draws the header and each details block through the helper methods `DrawHeader` and `DrawBlock`. They make the same library calls in the same order as the inline source.
