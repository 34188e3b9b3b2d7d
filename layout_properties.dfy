/** What the invoice page promises. Every lemma is proved for the page
    `LayoutWith(d, now, fmt)` under any formatter `fmt`, so in particular for
    the page `Layout(d, now)` the renderer is proved to draw: where things
    sit does not depend on how amounts, quantities and dates are written. */
module LayoutProperties {
  import opened Wrappers
  import opened Formatting
  import opened InvoiceLayout

  // ------------------------------------------------------ sequence helpers

  lemma FirstBlock<X>(a: seq<X>, b: seq<X>, c: seq<X>, d: seq<X>, e: seq<X>)
    ensures |a + b + c + d + e| >= |a| && (a + b + c + d + e)[..|a|] == a
  {
    assert (a + b + c + d + e)[..|a|] == a;
  }

  lemma SecondBlock<X>(a: seq<X>, b: seq<X>, c: seq<X>, d: seq<X>, e: seq<X>)
    ensures |a + b + c + d + e| >= |a| + |b| && (a + b + c + d + e)[|a|..|a| + |b|] == b
  {
    assert (a + b + c + d + e)[|a|..|a| + |b|] == b;
  }

  lemma ThirdBlock<X>(a: seq<X>, b: seq<X>, c: seq<X>, d: seq<X>, e: seq<X>)
    ensures |a + b + c + d + e| >= |a| + |b| + |c|
    ensures (a + b + c + d + e)[|a| + |b|..|a| + |b| + |c|] == c
  {
    assert (a + b + c + d + e)[|a| + |b|..|a| + |b| + |c|] == c;
  }

  lemma FourthBlock<X>(a: seq<X>, b: seq<X>, c: seq<X>, d: seq<X>, e: seq<X>)
    ensures |a + b + c + d + e| == |a| + |b| + |c| + |d| + |e|
    ensures (a + b + c + d + e)[|a| + |b| + |c|..|a| + |b| + |c| + |d|] == d
  {
    assert (a + b + c + d + e)[|a| + |b| + |c|..|a| + |b| + |c| + |d|] == d;
  }

  lemma LastBlock<X>(a: seq<X>, b: seq<X>, c: seq<X>, d: seq<X>, e: seq<X>)
    ensures |a + b + c + d + e| == |a + b + c + d| + |e|
    ensures (a + b + c + d + e)[|a + b + c + d|..] == e
    ensures (a + b + c + d + e)[..|a + b + c + d|] == a + b + c + d
  {
  }

  lemma SliceOfLeft<X>(p: seq<X>, q: seq<X>, lo: nat, hi: nat)
    requires lo <= hi <= |p|
    ensures (p + q)[lo..hi] == p[lo..hi]
  {
  }

  lemma SliceOfRight<X>(p: seq<X>, q: seq<X>)
    ensures (p + q)[|p|..|p| + |q|] == q
  {
  }

  // ------------------------------------------------------- the page blocks

  /** The header and the table header open the page: fourteen commands. */
  lemma LayoutHead(d: InvoiceData, now: Date, fmt: Formatter)
    ensures |LayoutWith(d, now, fmt)| >= 14
    ensures LayoutWith(d, now, fmt)[..14] == Header(d, fmt) + TableHeader()
  {
    var a := Header(d, fmt) + TableHeader();
    assert |a| == 14;
    FirstBlock(a, Rows(d.items, |d.items|, fmt), Totals(d, fmt), Payment(d), Footer(now, fmt));
  }

  /** The item rows follow the table header. */
  lemma LayoutRows(d: InvoiceData, now: Date, fmt: Formatter)
    ensures 14 + RowsOffset(|d.items|) <= |LayoutWith(d, now, fmt)|
    ensures LayoutWith(d, now, fmt)[14..14 + RowsOffset(|d.items|)] == Rows(d.items, |d.items|, fmt)
  {
    var a, b := Header(d, fmt) + TableHeader(), Rows(d.items, |d.items|, fmt);
    assert |a| == 14;
    SecondBlock(a, b, Totals(d, fmt), Payment(d), Footer(now, fmt));
  }

  /** The totals follow the rows. */
  lemma LayoutTotals(d: InvoiceData, now: Date, fmt: Formatter)
    ensures var r := 14 + RowsOffset(|d.items|);
      r + |Totals(d, fmt)| <= |LayoutWith(d, now, fmt)|
      && LayoutWith(d, now, fmt)[r..r + |Totals(d, fmt)|] == Totals(d, fmt)
  {
    var a, b := Header(d, fmt) + TableHeader(), Rows(d.items, |d.items|, fmt);
    assert |a| == 14;
    ThirdBlock(a, b, Totals(d, fmt), Payment(d), Footer(now, fmt));
  }

  /** The payment block sits between the totals and the footer. */
  lemma LayoutPayment(d: InvoiceData, now: Date, fmt: Formatter)
    ensures var p := 14 + RowsOffset(|d.items|) + |Totals(d, fmt)|; var L := LayoutWith(d, now, fmt);
      p + |Payment(d)| + 3 == |L| && L[p..p + |Payment(d)|] == Payment(d)
  {
    var a, b := Header(d, fmt) + TableHeader(), Rows(d.items, |d.items|, fmt);
    assert |a| == 14;
    FourthBlock(a, b, Totals(d, fmt), Payment(d), Footer(now, fmt));
  }

  /** The footer closes the page, and everything before it is drawn without
      looking at the clock. */
  lemma LayoutFooter(d: InvoiceData, now: Date, fmt: Formatter)
    ensures var L := LayoutWith(d, now, fmt);
      |L| >= 3 && L[|L| - 3..] == Footer(now, fmt)
      && L[..|L| - 3] == Header(d, fmt) + TableHeader() + Rows(d.items, |d.items|, fmt) + Totals(d, fmt) + Payment(d)
  {
    LastBlock(Header(d, fmt) + TableHeader(), Rows(d.items, |d.items|, fmt), Totals(d, fmt), Payment(d), Footer(now, fmt));
  }

  // ------------------------------------------------------------- item rows

  /** Rows further down start further into the page. */
  lemma {:induction false} OffsetGrows(i: nat, j: nat)
    requires i <= j
    ensures RowsOffset(i) <= RowsOffset(j)
    decreases j
  {
    if i < j {
      OffsetGrows(i, j - 1);
    }
  }

  /** Closed form: five texts per row plus one stripe per even row. */
  lemma {:induction false} RowsOffsetClosedForm(i: nat)
    ensures RowsOffset(i) == 5 * i + (i + 1) / 2
  {
    if i > 0 {
      RowsOffsetClosedForm(i - 1);
    }
  }

  /** The rows of the first `k` items are those of the first `k - 1`, then row `k - 1`. */
  lemma RowsSplit(items: seq<LineItem>, k: nat, fmt: Formatter)
    requires 0 < k <= |items|
    ensures Rows(items, k, fmt) == Rows(items, k - 1, fmt) + Row(items[k - 1], k - 1, fmt)
    ensures |Rows(items, k - 1, fmt)| == RowsOffset(k - 1)
    ensures RowsOffset(k) == RowsOffset(k - 1) + |Row(items[k - 1], k - 1, fmt)|
  {
  }

  /** The last row drawn sits at the end of the rows. */
  lemma RowsSliceLast(items: seq<LineItem>, k: nat, fmt: Formatter)
    requires 0 < k <= |items|
    ensures Rows(items, k, fmt)[RowsOffset(k - 1)..RowsOffset(k)] == Row(items[k - 1], k - 1, fmt)
  {
    RowsSplit(items, k, fmt);
    SliceOfRight(Rows(items, k - 1, fmt), Row(items[k - 1], k - 1, fmt));
  }

  /** Drawing a further row leaves the earlier rows where they were. */
  lemma RowsSliceKept(items: seq<LineItem>, k: nat, lo: nat, hi: nat, fmt: Formatter)
    requires 0 < k <= |items| && lo <= hi <= RowsOffset(k - 1)
    ensures Rows(items, k, fmt)[lo..hi] == Rows(items, k - 1, fmt)[lo..hi]
  {
    RowsSplit(items, k, fmt);
    SliceOfLeft(Rows(items, k - 1, fmt), Row(items[k - 1], k - 1, fmt), lo, hi);
  }

  /** Row `i` occupies its own stretch of the rows, whatever follows it. */
  lemma {:induction false} RowsSlice(items: seq<LineItem>, k: nat, i: nat, fmt: Formatter)
    requires i < k <= |items|
    ensures RowsOffset(i + 1) <= RowsOffset(k)
    ensures Rows(items, k, fmt)[RowsOffset(i)..RowsOffset(i + 1)] == Row(items[i], i, fmt)
  {
    OffsetGrows(i + 1, k);
    if i == k - 1 {
      RowsSliceLast(items, k, fmt);
    } else {
      RowsSlice(items, k - 1, i, fmt);
      RowsSliceKept(items, k, RowsOffset(i), RowsOffset(i + 1), fmt);
    }
  }

  /** A stretch of a block is found at the block's offset on the page. */
  lemma SliceWithin<X>(L: seq<X>, b: nat, blk: seq<X>, lo: nat, hi: nat)
    requires b + |blk| <= |L| && L[b..b + |blk|] == blk && lo <= hi <= |blk|
    ensures L[b + lo..b + hi] == blk[lo..hi]
  {
    forall k | 0 <= k < hi - lo
      ensures L[b + lo..b + hi][k] == blk[lo..hi][k]
    {
      assert blk[lo + k] == L[b..b + |blk|][lo + k];
    }
  }

  /** Row `i` on its own, with its coordinates worked out. */
  lemma RowContent(item: LineItem, i: nat, fmt: Formatter)
    ensures var y := 255 + 40 * i;
      Row(item, i, fmt)
      == (if i % 2 == 0 then [Rect(50, y - 5, 495, 30)] else [])
         + [ Text(item.name, 60, y),
             Text(item.description, 60, y + 12),
             Text(fmt.count(item.quantity), 320, y),
             Text("$" + fmt.money(item.unitPrice), 380, y),
             Text("$" + fmt.money(item.total), 470, y) ]
  {
  }

  /** Item `i` is drawn on the line y = 255 + 40·i: a stripe at y − 5 when
      `i` is even, the name and the description 12 below it at x = 60, then
      the quantity, the unit price and the supplied total — never a
      recomputed one — on the name's line. */
  lemma ItemRowPlacement(d: InvoiceData, now: Date, fmt: Formatter, i: nat)
    requires i < |d.items|
    ensures var L := LayoutWith(d, now, fmt); var item := d.items[i]; var y := 255 + 40 * i;
      14 + RowsOffset(i + 1) <= |L|
      && L[14 + RowsOffset(i)..14 + RowsOffset(i + 1)]
         == (if i % 2 == 0 then [Rect(50, y - 5, 495, 30)] else [])
            + [ Text(item.name, 60, y),
                Text(item.description, 60, y + 12),
                Text(fmt.count(item.quantity), 320, y),
                Text("$" + fmt.money(item.unitPrice), 380, y),
                Text("$" + fmt.money(item.total), 470, y) ]
  {
    var n := |d.items|;
    LayoutRows(d, now, fmt);
    RowsSlice(d.items, n, i, fmt);
    SliceWithin(LayoutWith(d, now, fmt), 14, Rows(d.items, n, fmt), RowsOffset(i), RowsOffset(i + 1));
    RowContent(d.items[i], i, fmt);
  }

  /** On the page the generator draws, row `i` shows the quantity as
      `String(quantity)` and both amounts through `FormatCurrency`. */
  lemma PageItemRow(d: InvoiceData, now: Date, i: nat)
    requires i < |d.items|
    ensures var L := Layout(d, now); var item := d.items[i]; var y := 255 + 40 * i;
      var b := 14 + RowsOffset(i) + (if i % 2 == 0 then 1 else 0);
      b + 5 <= |L|
      && L[b..b + 5]
         == [ Text(item.name, 60, y),
              Text(item.description, 60, y + 12),
              Text(Digits.IntToString(item.quantity), 320, y),
              Text("$" + FormatCurrency(item.unitPrice), 380, y),
              Text("$" + FormatCurrency(item.total), 470, y) ]
  {
    var L := LayoutWith(d, now, Standard);
    ItemRowPlacement(d, now, Standard, i);
    var lo, hi := 14 + RowsOffset(i), 14 + RowsOffset(i + 1);
    var s := if i % 2 == 0 then 1 else 0;
    assert L[lo + s..hi] == L[lo..hi][s..];
  }

  /** Rows follow input order: for items i < j, item i's row and item j's
      row each sit on the page as drawn, and the whole of item i's row comes
      before the start of item j's. */
  lemma RowsInInputOrder(d: InvoiceData, now: Date, fmt: Formatter, i: nat, j: nat)
    requires i < j < |d.items|
    ensures var L := LayoutWith(d, now, fmt);
      var si, ei, sj, ej := 14 + RowsOffset(i), 14 + RowsOffset(i + 1), 14 + RowsOffset(j), 14 + RowsOffset(j + 1);
      si < ei <= sj < ej <= |L|
      && L[si..ei] == Row(d.items[i], i, fmt)
      && L[sj..ej] == Row(d.items[j], j, fmt)
  {
    var L := LayoutWith(d, now, fmt);
    var n := |d.items|;
    var rows := Rows(d.items, n, fmt);
    LayoutRows(d, now, fmt);
    OffsetGrows(i + 1, j);
    RowsSlice(d.items, n, i, fmt);
    RowsSlice(d.items, n, j, fmt);
    SliceWithin(L, 14, rows, RowsOffset(i), RowsOffset(i + 1));
    SliceWithin(L, 14, rows, RowsOffset(j), RowsOffset(j + 1));
  }

  // ------------------------------------------------------------ zebra rows

  /** The rectangles among some commands, in order. */
  function RectsOf(cmds: seq<Command>): seq<Command> {
    if cmds == [] then []
    else RectsOf(cmds[..|cmds| - 1]) + (if cmds[|cmds| - 1].Rect? then [cmds[|cmds| - 1]] else [])
  }

  /** The stripes of the first `k` rows. */
  function Stripes(k: nat): seq<Command> {
    if k == 0 then [] else Stripes(k - 1) + Background(k - 1)
  }

  lemma {:induction false} RectsOfAppend(a: seq<Command>, b: seq<Command>)
    ensures RectsOf(a + b) == RectsOf(a) + RectsOf(b)
    decreases |b|
  {
    if b == [] {
      assert a + b == a;
    } else {
      var b' := b[..|b| - 1];
      assert (a + b)[..|a + b| - 1] == a + b';
      RectsOfAppend(a, b');
    }
  }

  /** A block without rectangles contributes none. */
  lemma {:induction false} NoRects(cmds: seq<Command>)
    requires forall k :: 0 <= k < |cmds| ==> !cmds[k].Rect?
    ensures RectsOf(cmds) == []
  {
    if cmds != [] {
      NoRects(cmds[..|cmds| - 1]);
    }
  }

  lemma RectsOfSingle(c: Command)
    ensures RectsOf([c]) == if c.Rect? then [c] else []
  {
    assert [c][..0] == [];
  }

  lemma RectsOfRow(item: LineItem, i: nat, fmt: Formatter)
    ensures RectsOf(Row(item, i, fmt)) == Background(i)
  {
    var texts := RowTexts(item, RowY(i), fmt);
    RectsOfAppend(Background(i), texts);
    NoRects(texts);
    if i % 2 == 0 {
      RectsOfSingle(Stripe(i));
    }
  }

  /** One more row adds its stripe, if any, to the stripes so far. */
  lemma StripesStep(prev: seq<Command>, row: seq<Command>, k: nat)
    requires k > 0 && RectsOf(prev) == Stripes(k - 1) && RectsOf(row) == Background(k - 1)
    ensures RectsOf(prev + row) == Stripes(k)
  {
    RectsOfAppend(prev, row);
  }

  lemma {:induction false} RectsOfRows(items: seq<LineItem>, k: nat, fmt: Formatter)
    requires k <= |items|
    ensures RectsOf(Rows(items, k, fmt)) == Stripes(k)
  {
    if k > 0 {
      var prev, row := Rows(items, k - 1, fmt), Row(items[k - 1], k - 1, fmt);
      RowsSplit(items, k, fmt);
      RectsOfRows(items, k - 1, fmt);
      assert RectsOf(prev) == Stripes(k - 1);
      RectsOfRow(items[k - 1], k - 1, fmt);
      assert RectsOf(row) == Background(k - 1);
      StripesStep(prev, row, k);
    }
  }

  lemma RectsOfTableHeader()
    ensures RectsOf(TableHeader()) == [Rect(50, 220, 495, 25)]
  {
    var t := TableHeader();
    assert t == [t[0]] + t[1..];
    RectsOfAppend([t[0]], t[1..]);
    RectsOfSingle(t[0]);
    NoRects(t[1..]);
  }

  lemma RectsOfSix(h: seq<Command>, t: seq<Command>, r: seq<Command>,
                   to: seq<Command>, p: seq<Command>, f: seq<Command>)
    ensures RectsOf(h + t + r + to + p + f)
            == RectsOf(h) + RectsOf(t) + RectsOf(r) + RectsOf(to) + RectsOf(p) + RectsOf(f)
  {
    RectsOfAppend(h + t + r + to + p, f);
    RectsOfAppend(h + t + r + to, p);
    RectsOfAppend(h + t + r, to);
    RectsOfAppend(h + t, r);
    RectsOfAppend(h, t);
  }

  /** Header, totals, payment and footer draw texts and a rule, no rectangle. */
  lemma TextBlocksHaveNoRects(d: InvoiceData, now: Date, fmt: Formatter)
    ensures RectsOf(Header(d, fmt)) == [] && RectsOf(Totals(d, fmt)) == []
    ensures RectsOf(Payment(d)) == [] && RectsOf(Footer(now, fmt)) == []
  {
    NoRects(Header(d, fmt));
    NoRects(Totals(d, fmt));
    NoRects(Payment(d));
    NoRects(Footer(now, fmt));
  }

  /** The only rectangles on the page are the table's header band followed
      by one stripe per even-numbered row. */
  lemma LayoutRects(d: InvoiceData, now: Date, fmt: Formatter)
    ensures RectsOf(LayoutWith(d, now, fmt)) == [Rect(50, 220, 495, 25)] + Stripes(|d.items|)
  {
    var h, t, r := Header(d, fmt), TableHeader(), Rows(d.items, |d.items|, fmt);
    var to, p, f := Totals(d, fmt), Payment(d), Footer(now, fmt);
    var band := [Rect(50, 220, 495, 25)];
    calc {
      RectsOf(LayoutWith(d, now, fmt));
      RectsOf(h + t + r + to + p + f);
      { RectsOfSix(h, t, r, to, p, f); }
      RectsOf(h) + RectsOf(t) + RectsOf(r) + RectsOf(to) + RectsOf(p) + RectsOf(f);
      { TextBlocksHaveNoRects(d, now, fmt); RectsOfTableHeader(); RectsOfRows(d.items, |d.items|, fmt); }
      [] + band + Stripes(|d.items|) + [] + [] + [];
      { EmptyAround(band + Stripes(|d.items|)); }
      band + Stripes(|d.items|);
    }
  }

  lemma EmptyAround<X>(s: seq<X>)
    ensures [] + s + [] + [] + [] == s
  {
  }

  /** Stripes differ by row, so a row's stripe is found only for that row. */
  lemma {:induction false} StripeIn(k: nat, i: nat)
    ensures Stripe(i) in Stripes(k) <==> i < k && i % 2 == 0
  {
    if k > 0 {
      StripeIn(k - 1, i);
      assert Stripes(k) == Stripes(k - 1) + Background(k - 1);
      assert Stripe(i) in Background(k - 1) <==> i == k - 1 && i % 2 == 0;
    }
  }

  lemma {:induction false} RectIn(cmds: seq<Command>, c: Command)
    requires c.Rect?
    ensures c in cmds <==> c in RectsOf(cmds)
  {
    if cmds != [] {
      var init := cmds[..|cmds| - 1];
      RectIn(init, c);
      assert cmds == init + [cmds[|cmds| - 1]];
    }
  }

  /** Zebra striping: a background rectangle (50, 250 + 40·i, 495, 30) is on
      the page exactly when row `i` exists and `i` is even. */
  lemma ZebraStriping(d: InvoiceData, now: Date, fmt: Formatter, i: nat)
    ensures Rect(50, 250 + 40 * i, 495, 30) in LayoutWith(d, now, fmt) <==> i < |d.items| && i % 2 == 0
  {
    assert Stripe(i) == Rect(50, 250 + 40 * i, 495, 30);
    RectIn(LayoutWith(d, now, fmt), Stripe(i));
    LayoutRects(d, now, fmt);
    StripeIn(|d.items|, i);
  }

  /** Item content never affects the striping: pages with as many items
      carry the same rectangles in the same order. */
  lemma StripesIgnoreContent(d1: InvoiceData, d2: InvoiceData, now1: Date, now2: Date, fmt: Formatter)
    requires |d1.items| == |d2.items|
    ensures RectsOf(LayoutWith(d1, now1, fmt)) == RectsOf(LayoutWith(d2, now2, fmt))
  {
    LayoutRects(d1, now1, fmt);
    LayoutRects(d2, now2, fmt);
  }

  // ---------------------------------------------------------------- totals

  /** An element of a block is found at the block's offset on the page. */
  lemma BlockAt<X>(L: seq<X>, b: nat, blk: seq<X>, k: nat)
    requires b + |blk| <= |L| && L[b..b + |blk|] == blk && k < |blk|
    ensures L[b + k] == blk[k]
  {
  }

  /** The totals block on its own: Subtotal, the Tax line when shown, Total. */
  lemma TotalsContent(d: InvoiceData, fmt: Formatter)
    ensures var to := Totals(d, fmt); var y := SubtotalY(d);
      |to| == (if ShowsTax(d) then 6 else 4)
      && to[0] == Text("Subtotal:", 380, y)
      && to[1] == Text("$" + fmt.money(d.subtotal), 470, y)
      && (ShowsTax(d) ==> to[2] == Text("Tax:", 380, y + 20)
                          && to[3] == Text("$" + fmt.money(d.tax.value), 470, y + 20))
      && to[|to| - 2] == Text("Total:", 380, TotalY(d))
      && to[|to| - 1] == Text("$" + fmt.money(d.total), 470, TotalY(d))
  {
  }

  /** The totals block: Subtotal 20 below where a next row would start, the
      Tax line 20 below it when the tax is present and positive, and Total
      last, pushed down by exactly 20 when the Tax line is there. */
  lemma TotalsPlacement(d: InvoiceData, now: Date, fmt: Formatter)
    ensures var L := LayoutWith(d, now, fmt); var n := |d.items|;
      var b := 14 + RowsOffset(n); var y := 275 + 40 * n;
      var t := if ShowsTax(d) then b + 4 else b + 2;
      t + 2 <= |L|
      && L[b] == Text("Subtotal:", 380, y)
      && L[b + 1] == Text("$" + fmt.money(d.subtotal), 470, y)
      && (ShowsTax(d) ==> L[b + 2] == Text("Tax:", 380, y + 20)
                          && L[b + 3] == Text("$" + fmt.money(d.tax.value), 470, y + 20))
      && L[t] == Text("Total:", 380, if ShowsTax(d) then y + 40 else y + 20)
      && L[t + 1] == Text("$" + fmt.money(d.total), 470, if ShowsTax(d) then y + 40 else y + 20)
  {
    var L := LayoutWith(d, now, fmt);
    var b := 14 + RowsOffset(|d.items|);
    var to := Totals(d, fmt);
    LayoutTotals(d, now, fmt);
    TotalsContent(d, fmt);
    assert SubtotalY(d) == 275 + 40 * |d.items|;
    BlockAt(L, b, to, 0);
    BlockAt(L, b, to, 1);
    if ShowsTax(d) {
      BlockAt(L, b, to, 2);
      BlockAt(L, b, to, 3);
    }
    BlockAt(L, b, to, |to| - 2);
    BlockAt(L, b, to, |to| - 1);
  }

  /** A text with this caption in this column somewhere among the commands. */
  predicate HasText(cmds: seq<Command>, caption: string, x: int) {
    exists k :: 0 <= k < |cmds| && cmds[k].Text? && cmds[k].content == caption && cmds[k].x == x
  }

  lemma NoTextAppend(a: seq<Command>, b: seq<Command>, caption: string, x: int)
    requires !HasText(a, caption, x) && !HasText(b, caption, x)
    ensures !HasText(a + b, caption, x)
  {
    forall k | 0 <= k < |a + b|
      ensures !((a + b)[k].Text? && (a + b)[k].content == caption && (a + b)[k].x == x)
    {
      if k >= |a| {
        assert (a + b)[k] == b[k - |a|];
      } else {
        assert (a + b)[k] == a[k];
      }
    }
  }

  /** In the totals column the rows only ever show dollar amounts. */
  lemma {:induction false} RowsShowNoTaxCaption(items: seq<LineItem>, k: nat, fmt: Formatter)
    requires k <= |items|
    ensures !HasText(Rows(items, k, fmt), "Tax:", 380)
  {
    if k > 0 {
      RowsSplit(items, k, fmt);
      RowsShowNoTaxCaption(items, k - 1, fmt);
      var item, i := items[k - 1], k - 1;
      var texts := RowTexts(item, RowY(i), fmt);
      assert ("$" + fmt.money(item.unitPrice))[0] == '$';
      assert !HasText(texts, "Tax:", 380);
      assert !HasText(Background(i), "Tax:", 380);
      NoTextAppend(Background(i), texts, "Tax:", 380);
      NoTextAppend(Rows(items, k - 1, fmt), Row(item, i, fmt), "Tax:", 380);
    }
  }

  /** The Tax line appears on the page if and only if the tax is present and
      greater than zero; a zero or absent tax leaves no Tax line at all. */
  lemma TaxLineIff(d: InvoiceData, now: Date, fmt: Formatter)
    ensures HasText(LayoutWith(d, now, fmt), "Tax:", 380) <==> ShowsTax(d)
  {
    var L := LayoutWith(d, now, fmt);
    TotalsPlacement(d, now, fmt);
    if ShowsTax(d) {
      var b := 14 + RowsOffset(|d.items|);
      assert L[b + 2].Text? && L[b + 2].content == "Tax:" && L[b + 2].x == 380;
    } else {
      var h, t, r := Header(d, fmt), TableHeader(), Rows(d.items, |d.items|, fmt);
      var to, p, f := Totals(d, fmt), Payment(d), Footer(now, fmt);
      assert !HasText(h, "Tax:", 380);
      assert !HasText(t, "Tax:", 380);
      RowsShowNoTaxCaption(d.items, |d.items|, fmt);
      assert !HasText(to, "Tax:", 380);
      assert !HasText(p, "Tax:", 380);
      assert !HasText(f, "Tax:", 380);
      NoTextAppend(h, t, "Tax:", 380);
      NoTextAppend(h + t, r, "Tax:", 380);
      NoTextAppend(h + t + r, to, "Tax:", 380);
      NoTextAppend(h + t + r + to, p, "Tax:", 380);
      NoTextAppend(h + t + r + to + p, f, "Tax:", 380);
    }
  }

  // --------------------------------------------------------------- payment

  /** The payment block: its heading 40 below the Total line, the payment
      method 20 below the heading, and between it and the footer exactly one
      Transaction ID line, 15 further down, when the id is present and
      non-empty, and nothing otherwise. */
  lemma PaymentPlacement(d: InvoiceData, now: Date, fmt: Formatter)
    ensures var L := LayoutWith(d, now, fmt); var n := |d.items|;
      var p := 14 + RowsOffset(n) + (if ShowsTax(d) then 6 else 4);
      var y := 275 + 40 * n + (if ShowsTax(d) then 40 else 20) + 40;
      p + 2 <= |L| - 3
      && L[p] == Text("Payment Information", 50, y)
      && L[p + 1] == Text("Payment Method: " + d.paymentMethod, 50, y + 20)
      && L[p + 2..|L| - 3]
         == (if ShowsTransaction(d)
             then [Text("Transaction ID: " + d.transactionId.value, 50, y + 35)]
             else [])
  {
    var L := LayoutWith(d, now, fmt);
    LayoutPayment(d, now, fmt);
    var p := 14 + RowsOffset(|d.items|) + |Totals(d, fmt)|;
    var pay := Payment(d);
    assert L[p..|L| - 3] == pay;
    assert L[p] == pay[0] && L[p + 1] == pay[1];
    assert L[p + 2..|L| - 3] == pay[2..];
  }

  // ---------------------------------------------------------------- footer

  /** The footer closes the page at the fixed heights 750, 765 and 780
      whatever the items, tax or transaction id; only its last line depends
      on the clock reading. */
  lemma FooterFixed(d: InvoiceData, now: Date, fmt: Formatter)
    ensures var L := LayoutWith(d, now, fmt);
      |L| >= 3
      && L[|L| - 3] == Text("Thank you for your business!", 50, 750)
      && L[|L| - 2] == Text("Studio 535 - Bespoke Design & Precision Fabrication", 50, 765)
      && L[|L| - 1] == Text("Invoice generated on " + fmt.date(now), 50, 780)
  {
    var L := LayoutWith(d, now, fmt);
    LayoutFooter(d, now, fmt);
    var f := Footer(now, fmt);
    assert L[|L| - 3..] == f;
    assert L[|L| - 3] == f[0] && L[|L| - 2] == f[1] && L[|L| - 1] == f[2];
  }

  /** Rendering the same invoice at two different times gives the same page
      except for the generation date in the very last command. */
  lemma OnlyTimestampVaries(d: InvoiceData, now1: Date, now2: Date, fmt: Formatter)
    ensures |LayoutWith(d, now1, fmt)| == |LayoutWith(d, now2, fmt)|
    ensures LayoutWith(d, now1, fmt)[..|LayoutWith(d, now1, fmt)| - 1]
            == LayoutWith(d, now2, fmt)[..|LayoutWith(d, now2, fmt)| - 1]
  {
    var L1, L2 := LayoutWith(d, now1, fmt), LayoutWith(d, now2, fmt);
    LayoutFooter(d, now1, fmt);
    LayoutFooter(d, now2, fmt);
    var body := Header(d, fmt) + TableHeader() + Rows(d.items, |d.items|, fmt) + Totals(d, fmt) + Payment(d);
    var f1, f2 := Footer(now1, fmt), Footer(now2, fmt);
    assert L1 == body + f1 && L2 == body + f2;
    assert f1[..2] == f2[..2];
    assert L1[..|L1| - 1] == body + f1[..2];
    assert L2[..|L2| - 1] == body + f2[..2];
  }

  // ------------------------------------------------------------ empty table

  /** An invoice without items still gets the table's header band and its
      four column titles, no row and no stripe, and its Subtotal line sits at
      y = 275, 20 below where the first row would have started. */
  lemma EmptyInvoice(d: InvoiceData, now: Date, fmt: Formatter)
    requires d.items == []
    ensures var L := LayoutWith(d, now, fmt);
      |L| > 15
      && L[9..14] == [ Rect(50, 220, 495, 25), Text("Item", 60, 228), Text("Qty", 320, 228),
                       Text("Unit Price", 380, 228), Text("Total", 470, 228) ]
      && L[14] == Text("Subtotal:", 380, 275)
      && RectsOf(L) == [Rect(50, 220, 495, 25)]
  {
    var L := LayoutWith(d, now, fmt);
    LayoutHead(d, now, fmt);
    TotalsPlacement(d, now, fmt);
    LayoutRects(d, now, fmt);
    assert L[9..14] == L[..14][9..14];
  }
}
