/** The page the invoice generator draws, as an ordered list of abstract
    draw commands. `Layout` is the specification the renderer is proved
    against; its pieces follow the blocks of the page from top to bottom. */
module InvoiceLayout {
  import opened Wrappers
  import opened Formatting

  /** One drawing call: a text at a position, a filled rectangle, or a
      straight rule between two points. Fonts, colours and text boxes are
      not represented. */
  datatype Command =
    | Text(content: string, x: int, y: int)
    | Rect(x: int, y: int, width: int, height: int)
    | Rule(fromX: int, fromY: int, toX: int, toY: int)

  /** A billable row; `total` is whatever the caller supplied. */
  datatype LineItem = LineItem(name: string, description: string, quantity: int, unitPrice: int, total: int)

  /** The invoice record; money in whole cents. */
  datatype InvoiceData = InvoiceData(
    invoiceNumber: string,
    orderDate: Date,
    customerName: string,
    customerEmail: string,
    items: seq<LineItem>,
    subtotal: int,
    tax: Option<int>,
    total: int,
    paymentMethod: string,
    transactionId: Option<string>)

  /** How the page writes an amount of cents, a quantity and a date. The
      generator's own choice is `Standard`; the geometry of the page does
      not depend on it. */
  datatype Formatter = Formatter(money: int -> string, count: int -> string, date: Date -> string)

  const Standard: Formatter := Formatter(FormatCurrency, Digits.IntToString, FormatDate)

  const Margin := 50
  const ContentWidth := 495
  const TableTop := 220
  const FirstRowY := TableTop + 35
  const RowHeight := 40
  const ItemX := 60
  const QtyX := 320
  /** The Unit Price column; the totals captions are drawn in it too. */
  const PriceX := 380
  const AmountX := 470
  const FooterY := 750

  /** Brand, title, invoice number, order date, divider and bill-to block. */
  function Header(d: InvoiceData, fmt: Formatter): seq<Command> {
    [ Text("Studio 535", Margin, 50),
      Text("Bespoke Design & Precision Fabrication", Margin, 85),
      Text("INVOICE", 400, 50),
      Text("Invoice #" + d.invoiceNumber, 400, 75),
      Text("Date: " + fmt.date(d.orderDate), 400, 90),
      Rule(Margin, 120, 545, 120),
      Text("Bill To:", Margin, 140),
      Text(d.customerName, Margin, 160),
      Text(d.customerEmail, Margin, 175) ]
  }

  /** The filled header band of the items table and its four column titles. */
  function TableHeader(): seq<Command> {
    [ Rect(Margin, TableTop, ContentWidth, 25),
      Text("Item", ItemX, TableTop + 8),
      Text("Qty", QtyX, TableTop + 8),
      Text("Unit Price", PriceX, TableTop + 8),
      Text("Total", AmountX, TableTop + 8) ]
  }

  /** The baseline of item row `i`. */
  function RowY(i: nat): int {
    FirstRowY + RowHeight * i
  }

  /** The light background drawn behind an even-numbered row. */
  function Stripe(i: nat): Command {
    Rect(Margin, RowY(i) - 5, ContentWidth, 30)
  }

  /** The commands of row `i`: its stripe when `i` is even, then name,
      description, quantity, unit price and the supplied total. */
  function Row(item: LineItem, i: nat, fmt: Formatter): (r: seq<Command>)
    ensures |r| == if i % 2 == 0 then 6 else 5
  {
    Background(i) + RowTexts(item, RowY(i), fmt)
  }

  /** The stripe of row `i` if it has one. */
  function Background(i: nat): seq<Command> {
    if i % 2 == 0 then [Stripe(i)] else []
  }

  /** Name and description on two lines, then the quantity, the unit price and
      the supplied total on the name's line. */
  function RowTexts(item: LineItem, y: int, fmt: Formatter): seq<Command> {
    [ Text(item.name, ItemX, y),
      Text(item.description, ItemX, y + 12),
      Text(fmt.count(item.quantity), QtyX, y),
      Text("$" + fmt.money(item.unitPrice), PriceX, y),
      Text("$" + fmt.money(item.total), AmountX, y) ]
  }

  /** Where row `i` starts among the rows: each earlier row contributes its
      five texts, and its stripe when it is even. */
  function RowsOffset(i: nat): nat {
    if i == 0 then 0 else RowsOffset(i - 1) + if (i - 1) % 2 == 0 then 6 else 5
  }

  /** The rows of the first `k` items, in input order. */
  function Rows(items: seq<LineItem>, k: nat, fmt: Formatter): (r: seq<Command>)
    requires k <= |items|
    ensures |r| == RowsOffset(k)
  {
    if k == 0 then [] else Rows(items, k - 1, fmt) + Row(items[k - 1], k - 1, fmt)
  }

  /** The Tax line is drawn only for a present, positive tax. */
  predicate ShowsTax(d: InvoiceData) {
    d.tax.Some? && d.tax.value > 0
  }

  /** The Transaction ID line is drawn only for a present, non-empty id. */
  predicate ShowsTransaction(d: InvoiceData) {
    d.transactionId.Some? && d.transactionId.value != ""
  }

  /** The Subtotal line sits 20 below where a next row would start. */
  function SubtotalY(d: InvoiceData): int {
    RowY(|d.items|) + 20
  }

  function TotalY(d: InvoiceData): int {
    SubtotalY(d) + (if ShowsTax(d) then 20 else 0) + 20
  }

  function PaymentY(d: InvoiceData): int {
    TotalY(d) + 40
  }

  /** Subtotal, the optional Tax line, and Total last. */
  function Totals(d: InvoiceData, fmt: Formatter): seq<Command> {
    SubtotalLine(d, fmt) + TaxLine(d, fmt) + TotalLine(d, fmt)
  }

  /** A right-hand totals line: its caption in the Unit Price column and the
      amount, with a dollar sign, in the Total column. */
  function AmountLine(caption: string, cents: int, y: int, fmt: Formatter): seq<Command> {
    [ Text(caption, PriceX, y), Text("$" + fmt.money(cents), AmountX, y) ]
  }

  function SubtotalLine(d: InvoiceData, fmt: Formatter): seq<Command> {
    AmountLine("Subtotal:", d.subtotal, SubtotalY(d), fmt)
  }

  function TaxLine(d: InvoiceData, fmt: Formatter): seq<Command> {
    if ShowsTax(d) then AmountLine("Tax:", d.tax.value, SubtotalY(d) + 20, fmt) else []
  }

  function TotalLine(d: InvoiceData, fmt: Formatter): seq<Command> {
    AmountLine("Total:", d.total, TotalY(d), fmt)
  }

  /** The payment heading, the method, and the optional transaction id. */
  function Payment(d: InvoiceData): seq<Command> {
    [ Text("Payment Information", Margin, PaymentY(d)),
      Text("Payment Method: " + d.paymentMethod, Margin, PaymentY(d) + 20) ]
    + (if ShowsTransaction(d)
       then [ Text("Transaction ID: " + d.transactionId.value, Margin, PaymentY(d) + 35) ]
       else [])
  }

  /** The three footer lines; `now` is the clock reading at render time. */
  function Footer(now: Date, fmt: Formatter): seq<Command> {
    [ Text("Thank you for your business!", Margin, FooterY),
      Text("Studio 535 - Bespoke Design & Precision Fabrication", Margin, FooterY + 15),
      Text("Invoice generated on " + fmt.date(now), Margin, FooterY + 30) ]
  }

  /** The whole page, in drawing order, for any way of writing amounts,
      quantities and dates. */
  function LayoutWith(d: InvoiceData, now: Date, fmt: Formatter): seq<Command> {
    Header(d, fmt) + TableHeader() + Rows(d.items, |d.items|, fmt) + Totals(d, fmt) + Payment(d) + Footer(now, fmt)
  }

  /** The page the generator draws: amounts as `FormatCurrency`, quantities
      as `String(n)`, dates as `FormatDate`. */
  function Layout(d: InvoiceData, now: Date): seq<Command> {
    LayoutWith(d, now, Standard)
  }
}
