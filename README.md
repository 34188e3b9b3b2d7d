# Studio 535 invoice generator, modelled in Dafny

This project models the server-side invoice generator of Studio 535
(`server/invoice-generator.ts`). The generator has four parts:

- `generateInvoicePDF` draws an A4 invoice: a branded header, a striped items table, a totals block, a payment block and a fixed footer.
- `formatCurrency` writes cents as dollars with two decimals.
- `formatDate` writes a date as `MM/DD/YYYY`.
- `generateInvoiceNumber` builds `INV-<year><MM>-<NNNN>` from the clock and a random draw.

The model has six modules:

- `Wrappers` holds `Option`.
- `Digits` holds decimal numerals, `String(n)` and `padStart`, with their digit and value lemmas.
- `Formatting` holds the three text helpers. Each one has a parser that reads its text back, and a round-trip lemma joins the two.
- `InvoiceLayout` specifies the page as a list of draw commands: texts, filled rectangles and rules, each with its coordinates. `LayoutWith(d, now, fmt)` builds the page block by block.
  - `fmt` is a `Formatter`: the way the page writes an amount of cents, a quantity and a date.
  - `Layout(d, now)` is the page the generator draws. It uses the `Standard` formatter: `FormatCurrency`, `String(n)` and `FormatDate`.
  - The geometry of the page does not depend on the formatter, so the layout lemmas hold for every formatter.
- `InvoiceRenderer` holds `DocumentBuilder`, a class that stands for the PDFKit document. It appends commands and carries the y-cursor (`yPosition`). `GenerateInvoicePdf` drives it in the source's order, with one method per block and a `while` loop over the items. It is proved to draw exactly `Layout(data, now)`.
- `LayoutProperties` proves what the page promises:
  - where every row, stripe, total and payment line sits;
  - when the optional lines appear;
  - that the footer is fixed;
  - that the clock reading changes only the last command.

Money is whole cents (`int`). The clock reading (`new Date()`) and the draw of `Math.random()` are parameters: `now: Date` and `random: real` in [0, 1). A `Date` carries the three fields the source reads: `getFullYear()`, `getMonth()` (0-based) and `getDate()`.

The Transaction ID line needs a present, non-empty id: `if (data.transactionId)` treats `""` as absent (`ShowsTransaction`). The Tax line needs a present tax greater than zero, as `data.tax && data.tax > 0` tests (`ShowsTax`).

## Model

| member | source | states |
|---|---|---|
| InvoiceRenderer.GenerateInvoicePdf | server/invoice-generator.ts:26-197 | The commands drawn are exactly the page `Layout(data, now)`: header, table header, item rows, totals, payment and footer, in the source's order. |
| InvoiceRenderer.DocumentBuilder.constructor | server/invoice-generator.ts:29 | A new document has no commands and the cursor at 0. |
| InvoiceRenderer.DocumentBuilder.DrawText | server/invoice-generator.ts:42 | Appends exactly one text at (x, y). Earlier commands and the cursor are unchanged. |
| InvoiceRenderer.DocumentBuilder.FillRect | server/invoice-generator.ts:93-94 | Appends exactly one filled rectangle. Earlier commands and the cursor are unchanged. |
| InvoiceRenderer.DocumentBuilder.StrokeRule | server/invoice-generator.ts:66-71 | Appends exactly one rule from one point to another. Earlier commands and the cursor are unchanged. |
| InvoiceRenderer.DocumentBuilder.MoveTo | server/invoice-generator.ts:104 | Sets the cursor and draws nothing. |
| InvoiceRenderer.DocumentBuilder.MoveDown | server/invoice-generator.ts:128 | Moves the cursor down by `dy` and draws nothing. |
| InvoiceRenderer.DrawHeader | server/invoice-generator.ts:37-85 | Appends the nine header commands (brand, tagline, title, number, order date, divider, bill-to) and leaves the cursor alone. |
| InvoiceRenderer.DrawTableHeader | server/invoice-generator.ts:87-101 | Appends the header band at y = 220 and the four column titles at y = 228. |
| InvoiceRenderer.DrawBackground | server/invoice-generator.ts:108-111 | Appends the stripe (50, y − 5, 495, 30) when the index is even, and nothing when it is odd. |
| InvoiceRenderer.DrawRowTexts | server/invoice-generator.ts:113-126 | Appends name and description 12 apart at x = 60, then quantity, unit price and the supplied total on the name's line. |
| InvoiceRenderer.DrawRow | server/invoice-generator.ts:108-126 | Appends one item row, stripe first, at the cursor line. |
| InvoiceRenderer.DrawItems | server/invoice-generator.ts:103-129 | The loop appends the rows of all items in input order, starting 35 below the table top. The cursor ends 40·n further down. |
| InvoiceRenderer.DrawAmountLine | server/invoice-generator.ts:139-140 | Appends a caption at x = 380 and a dollar amount at x = 470 on the cursor line. |
| InvoiceRenderer.DrawTax | server/invoice-generator.ts:142-147 | Moves 20 down and draws the Tax line only when the tax is present and positive. Otherwise it draws nothing and leaves the cursor. |
| InvoiceRenderer.DrawTotals | server/invoice-generator.ts:131-155 | Subtotal 20 below the last row position, the optional Tax line, then Total 20 further down. The cursor ends on the Total line. |
| InvoiceRenderer.DrawPayment | server/invoice-generator.ts:157-174 | Heading 40 below Total, the method 20 below it, and the Transaction ID 15 further down only for a present, non-empty id. The cursor ends on the last line drawn. |
| InvoiceRenderer.DrawFooter | server/invoice-generator.ts:176-189 | Appends the three footer lines at 750, 765 and 780; the last one shows the clock reading. The cursor is unchanged. |
| InvoiceLayout.Layout | server/invoice-generator.ts:26-197 | The page the generator draws: `LayoutWith` with `FormatCurrency`, `String(n)` and `FormatDate`. `GenerateInvoicePdf` is proved to draw it; `PageItemRow` states its rows. |
| InvoiceLayout.LayoutWith | server/invoice-generator.ts:37-189 | The blocks of the page in drawing order. Its contract is carried by the `LayoutProperties` lemmas: `ItemRowPlacement`, `LayoutRects`, `TotalsPlacement`, `TaxLineIff`, `PaymentPlacement`, `FooterFixed`, `OnlyTimestampVaries`. |
| InvoiceLayout.Header | server/invoice-generator.ts:37-85 | Brand, tagline, title, invoice number, order date, divider and bill-to lines. `DrawHeader` is proved to draw exactly these nine commands; `LayoutHead` places them first on the page. |
| InvoiceLayout.TableHeader | server/invoice-generator.ts:87-101 | The header band and the four column titles. `LayoutHead` places them right after the header on every page, `EmptyInvoice` spells them out, and `LayoutRects` shows the band is the page's first rectangle. |
| InvoiceLayout.RowTexts | server/invoice-generator.ts:113-126 | The five texts of a row. Its content is stated by `ItemRowPlacement` and `PageItemRow`. |
| InvoiceLayout.Totals | server/invoice-generator.ts:131-155 | Subtotal, the optional Tax line and Total. `TotalsContent` and `TotalsPlacement` state its lines and heights; `TaxLineIff` states when Tax appears. |
| InvoiceLayout.Payment | server/invoice-generator.ts:157-174 | The payment heading, the method and the optional Transaction ID. `PaymentPlacement` states its lines and heights. |
| InvoiceLayout.Footer | server/invoice-generator.ts:176-189 | The three footer lines. `FooterFixed` and `OnlyTimestampVaries` state them. |
| InvoiceLayout.Row | server/invoice-generator.ts:107-126 | An item row has six commands for an even index (stripe and five texts) and five for an odd one. |
| InvoiceLayout.Rows | server/invoice-generator.ts:107-129 | The rows of the first k items take exactly `RowsOffset(k)` commands. |
| LayoutProperties.RowsOffsetClosedForm | server/invoice-generator.ts:107-111 | Row i starts 5·i + ⌊(i+1)/2⌋ commands into the table: five texts per row, plus a stripe for every even row before it. |
| LayoutProperties.RowsSlice | server/invoice-generator.ts:107-129 | Row i occupies its own stretch of the rows of any longer prefix, unchanged by the rows drawn after it. |
| LayoutProperties.ItemRowPlacement | server/invoice-generator.ts:104-129 | For any formatter, item i is drawn at y = 255 + 40·i: a stripe at y − 5 exactly when i is even, then name, description (y + 12), quantity, unit price and the supplied total. |
| LayoutProperties.PageItemRow | server/invoice-generator.ts:113-126 | On the drawn page, row i shows `String(quantity)` and `$` + `formatCurrency` of the unit price and of the supplied total, which is not recomputed. |
| LayoutProperties.RowsInInputOrder | server/invoice-generator.ts:107-129 | For items i < j, the page holds item i's row and item j's row at their own stretches, and item i's stretch ends at or before the start of item j's. |
| LayoutProperties.RectsOfRows | server/invoice-generator.ts:107-111 | The rectangles among the rows are exactly the stripes of the even rows, in order. |
| LayoutProperties.LayoutRects | server/invoice-generator.ts:89-111 | The rectangles on the page are the table's header band followed by the row stripes. Nothing else on the page is a rectangle. |
| LayoutProperties.ZebraStriping | server/invoice-generator.ts:107-111 | A rectangle (50, 250 + 40·i, 495, 30) is on the page if and only if row i exists and i is even. |
| LayoutProperties.StripesIgnoreContent | server/invoice-generator.ts:107-111 | Two pages with as many items carry the same rectangles, whatever the items say. |
| LayoutProperties.TotalsPlacement | server/invoice-generator.ts:131-155 | Subtotal at 275 + 40·n. The Tax line, when shown, is 20 lower. Total is 20 below the last of these, so a shown tax pushes it down by exactly 20. Amounts sit at x = 470 and captions at x = 380. |
| LayoutProperties.TaxLineIff | server/invoice-generator.ts:142-147 | A "Tax:" caption is on the page if and only if the tax is present and greater than zero. |
| LayoutProperties.PaymentPlacement | server/invoice-generator.ts:157-174 | Payment heading 40 below Total and the method 20 below it. Before the footer there is exactly one Transaction ID line, 15 lower, when the id is present and non-empty, and none otherwise. |
| LayoutProperties.FooterFixed | server/invoice-generator.ts:176-189 | The last three commands are the footer at 750, 765 and 780, whatever the items, tax or id. Only the last one depends on the clock. |
| LayoutProperties.OnlyTimestampVaries | server/invoice-generator.ts:186 | Rendering one invoice at two times gives pages of equal length that agree on every command but the last. |
| LayoutProperties.EmptyInvoice | server/invoice-generator.ts:87-140 | With no items the table header band and its four titles are still drawn, no row or stripe is, and Subtotal sits at y = 275. |
| Formatting.FormatCurrency | server/invoice-generator.ts:215-217 | `(cents / 100).toFixed(2)` for whole cents. Its contract is carried by `CurrencyShape`, `CurrencyRoundTrip` and the examples. |
| Formatting.CurrencyShape | server/invoice-generator.ts:215-217 | The text has a point three characters from the end and a minus sign exactly for negative amounts. The last two characters are the digits of the cents. |
| Formatting.CurrencyRoundTrip | server/invoice-generator.ts:215-217 | Every amount of cents, of either sign, is read back exactly from its text. |
| Formatting.FixedTwoShape | server/invoice-generator.ts:216 | A non-negative amount is written as the whole dollars, a point, then the two-digit cents. |
| Formatting.FixedTwoRoundTrip | server/invoice-generator.ts:216 | A non-negative amount is read back exactly from its two-decimal text. |
| Formatting.CurrencySmallExamples | server/invoice-generator.ts:215-217 | 0, 5 and 500 cents read "0.00", "0.05" and "5.00". |
| Formatting.CurrencyLargeExample | server/invoice-generator.ts:215-217 | 12345 cents read "123.45". |
| Formatting.TwoDigitsNumeral | server/invoice-generator.ts:223-224 | `String(n).padStart(2, "0")` of n < 100 is two digits whose value is n. |
| Formatting.FourDigitsNumeral | server/invoice-generator.ts:206-208 | `String(n).padStart(4, "0")` of n < 10000 is four digits whose value is n. |
| Formatting.FormatDate | server/invoice-generator.ts:222-227 | `MM/DD/YYYY` from the month index, the day and the year. Its contract is carried by `DateShape`, `DateRoundTrip`, `DateLength` and `DateExample`. |
| Formatting.DateShape | server/invoice-generator.ts:222-227 | `MM/DD/<year>`: two digits of 1-based month, a slash, two digits of day, a slash, the year. |
| Formatting.DateRoundTrip | server/invoice-generator.ts:222-227 | For a non-negative year, the date is read back exactly from its text. |
| Formatting.DateLength | server/invoice-generator.ts:222-227 | With a four-digit year the text is exactly ten characters. |
| Formatting.DateExample | server/invoice-generator.ts:222-227 | 7 March 2025 (month index 2) is written "03/07/2025". |
| Formatting.RandomSuffix | server/invoice-generator.ts:206 | `Math.floor(random * 10000)` of a draw in [0, 1) lies in 0..9999 and is the floor of random·10000. |
| Formatting.GenerateInvoiceNumber | server/invoice-generator.ts:202-210 | `INV-<year><MM>-<NNNN>` from the clock reading and the random draw. Its contract is carried by `InvoiceNumberShape`, `InvoiceNumberRoundTrip` and `InvoiceNumberLength`. |
| Formatting.InvoiceNumberShape | server/invoice-generator.ts:202-210 | `INV-`, then the year, two digits of 1-based month, a dash, and four digits whose value is the random suffix. |
| Formatting.InvoiceNumberRoundTrip | server/invoice-generator.ts:202-210 | For a non-negative year, the year, the month and the suffix are read back exactly from the number. |
| Formatting.InvoiceNumberLength | server/invoice-generator.ts:202-210 | With a four-digit year the number is exactly 15 characters: `INV-YYYYMM-NNNN`. |
| Digits.NatToStringDigits | server/invoice-generator.ts:205 | `String(n)` of a natural number is a non-empty run of digits whose value is n. |
| Digits.NoLeadingZero | server/invoice-generator.ts:205 | `String(n)` has no leading zero: it is the single digit '0' or starts with a non-zero digit. |
| Digits.NatToStringLength | server/invoice-generator.ts:205 | `String(n)` has at most k digits if and only if n < 10^k. |
| Digits.IntToStringDigits | server/invoice-generator.ts:204 | `String(i)` of an integer starts with '-' exactly for negatives; the rest is the digits of the magnitude. |
| Digits.PadStartKeepsText | server/invoice-generator.ts:205 | `padStart` yields at least the width: the text is kept as a suffix and everything in front of it is the fill character. |
| Digits.PaddedNumeral | server/invoice-generator.ts:223-224 | Zero-padding the numeral of n < 10^w to width w gives w digits whose value is n. |

## Left out

- Styling is not modelled: fonts, font sizes, colours, line widths, text-box widths and alignment. The model keeps each command's kind, text and coordinates only.
- The PDF byte stream, the `Buffer` chunks, the `Promise` and its `reject` path are not modelled. Only PDFKit can raise that error; it is outside this model.
- The page size and margin options of `new PDFDocument` are not modelled.
- Automatic page breaks are not modelled. The model keeps every command on one page at the source's coordinates; PDFKit would start a new page where a line passes the bottom margin.
- Money is whole cents in unbounded integers. Double-precision rounding of `cents / 100` is not modelled. `toFixed` switching to exponent notation at 10^21 is not modelled either.
- Quantities are integers. `item.quantity.toString()` of a fractional quantity is not modelled.
- An invalid `Date` (NaN fields) is not modelled. `ValidDate` asks for what a valid `Date` guarantees: a month index below 12 and a day of 1 to 31.
- The clock (`new Date()`) and `Math.random()` are parameters: `now` and `random`.
- The time zone in which `getMonth`, `getDate` and `getFullYear` are read is outside the model.
- Formatting.DateRoundTrip, Formatting.InvoiceNumberRoundTrip: stated for non-negative years only. A negative year's minus sign is not read back by the parsers.
- Formatting.DateLength, Formatting.InvoiceNumberLength: stated for four-digit years. The source writes whatever width `getFullYear()` has.
- The consistency of `subtotal`, `tax` and `total` with the items is not checked, as in the source. Every amount is shown as supplied.
- The webhook endpoint and the client pages are not part of this model.
