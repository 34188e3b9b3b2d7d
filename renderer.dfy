/** The renderer: a document builder that records draw commands in order
    and carries the vertical cursor, driven through the invoice page. */
module InvoiceRenderer {
  import opened Wrappers
  import opened Formatting
  import opened InvoiceLayout

  /** The document being drawn: an append-only list of commands and the
      y-cursor the layout advances. */
  class DocumentBuilder {
    var commands: seq<Command>
    var cursor: int

    constructor ()
      ensures commands == [] && cursor == 0
    {
      commands := [];
      cursor := 0;
    }

    method DrawText(s: string, x: int, y: int)
      modifies this
      ensures commands == old(commands) + [Text(s, x, y)] && cursor == old(cursor)
    {
      commands := commands + [Text(s, x, y)];
    }

    method FillRect(x: int, y: int, width: int, height: int)
      modifies this
      ensures commands == old(commands) + [Rect(x, y, width, height)] && cursor == old(cursor)
    {
      commands := commands + [Rect(x, y, width, height)];
    }

    method StrokeRule(fromX: int, fromY: int, toX: int, toY: int)
      modifies this
      ensures commands == old(commands) + [Rule(fromX, fromY, toX, toY)] && cursor == old(cursor)
    {
      commands := commands + [Rule(fromX, fromY, toX, toY)];
    }

    method MoveTo(y: int)
      modifies this
      ensures cursor == y && commands == old(commands)
    {
      cursor := y;
    }

    method MoveDown(dy: int)
      modifies this
      ensures cursor == old(cursor) + dy && commands == old(commands)
    {
      cursor := cursor + dy;
    }
  }

  lemma AppendTwo<X>(s: seq<X>, a: X, b: X)
    ensures s + [a] + [b] == s + [a, b]
  {
  }

  lemma AppendThree<X>(s: seq<X>, a: X, b: X, c: X)
    ensures s + [a] + [b] + [c] == s + [a, b, c]
  {
  }

  lemma AppendFive<X>(s: seq<X>, a: X, b: X, c: X, d: X, e: X)
    ensures s + [a] + [b] + [c] + [d] + [e] == s + [a, b, c, d, e]
  {
  }

  lemma AppendNine<X>(s: seq<X>, a: X, b: X, c: X, d: X, e: X, f: X, g: X, h: X, i: X)
    ensures s + [a] + [b] + [c] + [d] + [e] + [f] + [g] + [h] + [i] == s + [a, b, c, d, e, f, g, h, i]
  {
  }

  lemma Regroup<X>(p: seq<X>, a: seq<X>, b: seq<X>, c: seq<X>)
    ensures p + a + b + c == p + (a + b + c)
  {
  }

  lemma Assoc<X>(p: seq<X>, a: seq<X>, b: seq<X>)
    ensures p + a + b == p + (a + b)
  {
  }

  lemma AppendNothing<X>(p: seq<X>)
    ensures p + [] == p && [] + p == p
  {
  }

  /** Brand, title, invoice number, order date, divider and bill-to block. */
  method DrawHeader(doc: DocumentBuilder, data: InvoiceData, fmt: Formatter)
    modifies doc
    ensures doc.commands == old(doc.commands) + Header(data, fmt) && doc.cursor == old(doc.cursor)
  {
    doc.DrawText("Studio 535", Margin, 50);
    doc.DrawText("Bespoke Design & Precision Fabrication", Margin, 85);
    doc.DrawText("INVOICE", 400, 50);
    doc.DrawText("Invoice #" + data.invoiceNumber, 400, 75);
    doc.DrawText("Date: " + fmt.date(data.orderDate), 400, 90);
    doc.StrokeRule(Margin, 120, 545, 120);
    doc.DrawText("Bill To:", Margin, 140);
    doc.DrawText(data.customerName, Margin, 160);
    doc.DrawText(data.customerEmail, Margin, 175);
    AppendNine(old(doc.commands),
               Text("Studio 535", Margin, 50), Text("Bespoke Design & Precision Fabrication", Margin, 85),
               Text("INVOICE", 400, 50), Text("Invoice #" + data.invoiceNumber, 400, 75),
               Text("Date: " + fmt.date(data.orderDate), 400, 90), Rule(Margin, 120, 545, 120),
               Text("Bill To:", Margin, 140), Text(data.customerName, Margin, 160), Text(data.customerEmail, Margin, 175));
  }

  /** The filled band at the table top and the four column titles. */
  method DrawTableHeader(doc: DocumentBuilder)
    modifies doc
    ensures doc.commands == old(doc.commands) + TableHeader() && doc.cursor == old(doc.cursor)
  {
    doc.FillRect(Margin, TableTop, ContentWidth, 25);
    doc.DrawText("Item", ItemX, TableTop + 8);
    doc.DrawText("Qty", QtyX, TableTop + 8);
    doc.DrawText("Unit Price", PriceX, TableTop + 8);
    doc.DrawText("Total", AmountX, TableTop + 8);
    AppendFive(old(doc.commands), Rect(Margin, TableTop, ContentWidth, 25), Text("Item", ItemX, TableTop + 8),
               Text("Qty", QtyX, TableTop + 8), Text("Unit Price", PriceX, TableTop + 8),
               Text("Total", AmountX, TableTop + 8));
  }

  /** The light background behind row `index` when the index is even. */
  method DrawBackground(doc: DocumentBuilder, index: nat)
    requires doc.cursor == RowY(index)
    modifies doc
    ensures doc.commands == old(doc.commands) + Background(index) && doc.cursor == old(doc.cursor)
  {
    if index % 2 == 0 {
      doc.FillRect(Margin, doc.cursor - 5, ContentWidth, 30);
    } else {
      AppendNothing(doc.commands);
    }
  }

  /** The five texts of an item row on the line `y`. */
  method DrawRowTexts(doc: DocumentBuilder, item: LineItem, y: int, fmt: Formatter)
    modifies doc
    ensures doc.commands == old(doc.commands) + RowTexts(item, y, fmt) && doc.cursor == old(doc.cursor)
  {
    doc.DrawText(item.name, ItemX, y);
    doc.DrawText(item.description, ItemX, y + 12);
    doc.DrawText(fmt.count(item.quantity), QtyX, y);
    doc.DrawText("$" + fmt.money(item.unitPrice), PriceX, y);
    doc.DrawText("$" + fmt.money(item.total), AmountX, y);
    AppendFive(old(doc.commands), Text(item.name, ItemX, y), Text(item.description, ItemX, y + 12),
               Text(fmt.count(item.quantity), QtyX, y),
               Text("$" + fmt.money(item.unitPrice), PriceX, y),
               Text("$" + fmt.money(item.total), AmountX, y));
  }

  /** One item row at the cursor: the stripe for an even index, then the texts. */
  method DrawRow(doc: DocumentBuilder, item: LineItem, index: nat, fmt: Formatter)
    requires doc.cursor == RowY(index)
    modifies doc
    ensures doc.commands == old(doc.commands) + Row(item, index, fmt) && doc.cursor == old(doc.cursor)
  {
    DrawBackground(doc, index);
    DrawRowTexts(doc, item, doc.cursor, fmt);
    Assoc(old(doc.commands), Background(index), RowTexts(item, RowY(index), fmt));
  }

  /** A caption and a dollar amount side by side on the cursor line. */
  method DrawAmountLine(doc: DocumentBuilder, caption: string, cents: int, fmt: Formatter)
    modifies doc
    ensures doc.commands == old(doc.commands) + AmountLine(caption, cents, doc.cursor, fmt)
    ensures doc.cursor == old(doc.cursor)
  {
    doc.DrawText(caption, PriceX, doc.cursor);
    doc.DrawText("$" + fmt.money(cents), AmountX, doc.cursor);
    AppendTwo(old(doc.commands), Text(caption, PriceX, doc.cursor), Text("$" + fmt.money(cents), AmountX, doc.cursor));
  }

  /** The Tax line 20 below the Subtotal, drawn only for a present, positive tax. */
  method DrawTax(doc: DocumentBuilder, data: InvoiceData, fmt: Formatter)
    requires doc.cursor == SubtotalY(data)
    modifies doc
    ensures doc.commands == old(doc.commands) + TaxLine(data, fmt)
    ensures doc.cursor == TotalY(data) - 20
  {
    if data.tax.Some? && data.tax.value > 0 {
      doc.MoveDown(20);
      DrawAmountLine(doc, "Tax:", data.tax.value, fmt);
    } else {
      AppendNothing(doc.commands);
    }
  }

  /** Subtotal, the Tax line when tax is present and positive, then Total;
      the cursor ends on the Total line. */
  method DrawTotals(doc: DocumentBuilder, data: InvoiceData, fmt: Formatter)
    requires doc.cursor == RowY(|data.items|)
    modifies doc
    ensures doc.commands == old(doc.commands) + Totals(data, fmt) && doc.cursor == TotalY(data)
  {
    doc.MoveDown(20);
    DrawAmountLine(doc, "Subtotal:", data.subtotal, fmt);
    DrawTax(doc, data, fmt);
    doc.MoveDown(20);
    DrawAmountLine(doc, "Total:", data.total, fmt);
    Regroup(old(doc.commands), SubtotalLine(data, fmt), TaxLine(data, fmt), TotalLine(data, fmt));
  }

  /** The payment heading 40 below Total, the method 20 below it, and the
      transaction id 15 further down when one is present and non-empty. */
  method DrawPayment(doc: DocumentBuilder, data: InvoiceData)
    requires doc.cursor == TotalY(data)
    modifies doc
    ensures doc.commands == old(doc.commands) + Payment(data)
    ensures doc.cursor == PaymentY(data) + (if ShowsTransaction(data) then 35 else 20)
  {
    doc.MoveDown(40);
    doc.DrawText("Payment Information", Margin, doc.cursor);
    doc.MoveDown(20);
    doc.DrawText("Payment Method: " + data.paymentMethod, Margin, doc.cursor);
    ghost var methodPart := [Text("Payment Information", Margin, PaymentY(data)),
                             Text("Payment Method: " + data.paymentMethod, Margin, PaymentY(data) + 20)];
    AppendTwo(old(doc.commands), methodPart[0], methodPart[1]);
    if data.transactionId.Some? && data.transactionId.value != "" {
      doc.MoveDown(15);
      doc.DrawText("Transaction ID: " + data.transactionId.value, Margin, doc.cursor);
    } else {
      AppendNothing(doc.commands);
    }
  }

  /** The three footer lines at their fixed height. */
  method DrawFooter(doc: DocumentBuilder, now: Date, fmt: Formatter)
    modifies doc
    ensures doc.commands == old(doc.commands) + Footer(now, fmt)
    ensures doc.cursor == old(doc.cursor)
  {
    doc.DrawText("Thank you for your business!", Margin, FooterY);
    doc.DrawText("Studio 535 - Bespoke Design & Precision Fabrication", Margin, FooterY + 15);
    doc.DrawText("Invoice generated on " + fmt.date(now), Margin, FooterY + 30);
    AppendThree(old(doc.commands), Text("Thank you for your business!", Margin, FooterY),
                Text("Studio 535 - Bespoke Design & Precision Fabrication", Margin, FooterY + 15),
                Text("Invoice generated on " + fmt.date(now), Margin, FooterY + 30));
  }

  /** The item rows in input order, one row height apart, starting 35 below
      the table top; the cursor ends where a next row would start. */
  method DrawItems(doc: DocumentBuilder, items: seq<LineItem>, fmt: Formatter)
    modifies doc
    ensures doc.commands == old(doc.commands) + Rows(items, |items|, fmt)
    ensures doc.cursor == RowY(|items|)
  {
    doc.MoveTo(TableTop + 35);
    AppendNothing(doc.commands);
    var index := 0;
    while index < |items|
      invariant 0 <= index <= |items|
      invariant doc.commands == old(doc.commands) + Rows(items, index, fmt)
      invariant doc.cursor == RowY(index)
    {
      DrawRow(doc, items[index], index, fmt);
      Assoc(old(doc.commands), Rows(items, index, fmt), Row(items[index], index, fmt));
      doc.MoveDown(RowHeight);
      index := index + 1;
    }
  }

  /** Draws the invoice for `data`; `now` stands for the clock reading the
      footer shows. The commands drawn are exactly the page `Layout`. */
  method GenerateInvoicePdf(data: InvoiceData, now: Date) returns (page: seq<Command>)
    ensures page == Layout(data, now)
  {
    var fmt := Standard;
    var doc := new DocumentBuilder();
    DrawHeader(doc, data, fmt);
    AppendNothing(Header(data, fmt));
    DrawTableHeader(doc);
    DrawItems(doc, data.items, fmt);
    DrawTotals(doc, data, fmt);
    DrawPayment(doc, data);
    DrawFooter(doc, now, fmt);
    page := doc.commands;
  }
}
