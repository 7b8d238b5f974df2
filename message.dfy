/** The order confirmation text handed to the share link: header, customer and order
    details, one numbered line per order line, bill summary and the fixed footer. */
module Message {
  import opened Text
  import opened Catalog
  import opened Pricing
  import opened Orders
  import opened Results

  const Rupee := "\U{20B9}"

  /** `s.replace('-', ' ').upper()`, the way order types and payment methods are shown. */
  function Label(s: string): string {
    Upper(ReplaceChar(s, '-', " "))
  }

  lemma LabelAt(s: string, i: nat)
    requires i < |s|
    ensures |Label(s)| == |s|
    ensures Label(s)[i] == UpperChar(if s[i] == '-' then ' ' else s[i])
    ensures Label(s)[i] != '-' && !('a' <= Label(s)[i] <= 'z')
  {
    ReplaceCharAt(s, '-', " ", i);
  }

  lemma LabelExamples(a: string, b: string, c: string)
    requires a == "dine-in" && b == "takeaway" && c == "upi-gpay"
    ensures Label(a) == "DINE IN" && Label(b) == "TAKEAWAY" && Label(c) == "UPI GPAY"
  {
    forall i | 0 <= i < |a| ensures Label(a)[i] == "DINE IN"[i] {
      LabelAt(a, i);
    }
    forall i | 0 <= i < |b| ensures Label(b)[i] == "TAKEAWAY"[i] {
      LabelAt(b, i);
    }
    forall i | 0 <= i < |c| ensures Label(c)[i] == "UPI GPAY"[i] {
      LabelAt(c, i);
    }
    LabelAt(a, 0);
    LabelAt(b, 0);
    LabelAt(c, 0);
  }

  /** The name the message shows for a menu item id: the name of the first item of `menu`
      with that id, or "Item". */
  function ItemName(menu: seq<MenuItem>, id: string): string {
    match FindItem(menu, id)
    case Some(item) => item.name
    case None => "Item"
  }

  lemma ItemNameResolves(i: nat)
    requires i < |MenuItems|
    ensures ItemName(MenuItems, MenuItems[i].id) == MenuItems[i].name
  {
    CatalogLookup(i);
  }

  lemma ItemNameFallback(menu: seq<MenuItem>, id: string)
    requires forall i :: 0 <= i < |menu| ==> menu[i].id != id
    ensures ItemName(menu, id) == "Item"
  {
  }

  /** "{index}. {quantity}x {name} - ₹{totalPrice:.2f}\n" */
  function ItemLine(menu: seq<MenuItem>, index: int, line: OrderLine): string {
    IntToString(index) + ". " + IntToString(line.quantity) + "x " + ItemName(menu, line.menuItemId)
      + " - " + Rupee + Fixed2(line.totalPrice as real) + "\n"
  }

  /** `enumerate(lines, start)` rendered line by line with `render`, concatenated. */
  function Enumerated(render: (int, OrderLine) -> string, lines: seq<OrderLine>, start: int): string {
    if lines == [] then "" else render(start, lines[0]) + Enumerated(render, lines[1..], start + 1)
  }

  lemma AppendAssoc(a: string, b: string, c: string)
    ensures (a + b) + c == a + (b + c)
  {
  }

  /** One more line appends exactly its rendering, numbered after the others. */
  lemma {:induction false} EnumeratedSnoc(render: (int, OrderLine) -> string, lines: seq<OrderLine>, x: OrderLine, start: int)
    ensures Enumerated(render, lines + [x], start) == Enumerated(render, lines, start) + render(start + |lines|, x)
    decreases |lines|
  {
    if lines == [] {
      assert lines + [x] == [x];
      assert [x][1..] == [];
    } else {
      assert (lines + [x])[0] == lines[0];
      assert (lines + [x])[1..] == lines[1..] + [x];
      EnumeratedSnoc(render, lines[1..], x, start + 1);
      AppendAssoc(render(start, lines[0]), Enumerated(render, lines[1..], start + 1), render(start + |lines|, x));
    }
  }

  /** Split at position `k`: the second part is numbered on from `start + k`. */
  lemma {:induction false} EnumeratedSplit(render: (int, OrderLine) -> string, lines: seq<OrderLine>, k: nat, start: int)
    requires k <= |lines|
    ensures Enumerated(render, lines, start) == Enumerated(render, lines[..k], start) + Enumerated(render, lines[k..], start + k)
    decreases k
  {
    if k == 0 {
      assert lines[..0] == [];
      assert lines[0..] == lines;
    } else {
      var rest, front := lines[1..], lines[..k];
      var head := render(start, lines[0]);
      EnumeratedSplit(render, rest, k - 1, start + 1);
      assert rest[..k - 1] == front[1..];
      assert rest[k - 1..] == lines[k..];
      assert front[0] == lines[0];
      AppendAssoc(head, Enumerated(render, front[1..], start + 1), Enumerated(render, lines[k..], start + k));
    }
  }

  /** The item line renderer for `menu`. */
  function ItemLineOf(menu: seq<MenuItem>): (int, OrderLine) -> string {
    (index: int, line: OrderLine) => ItemLine(menu, index, line)
  }

  /** The enumerated item lines, numbered from `start`. */
  function ItemLines(menu: seq<MenuItem>, lines: seq<OrderLine>, start: int): string {
    Enumerated(ItemLineOf(menu), lines, start)
  }

  lemma ItemLinesSnoc(menu: seq<MenuItem>, lines: seq<OrderLine>, x: OrderLine, start: int)
    ensures ItemLines(menu, lines + [x], start) == ItemLines(menu, lines, start) + ItemLine(menu, start + |lines|, x)
  {
    var render := ItemLineOf(menu);
    EnumeratedSnoc(render, lines, x, start);
    assert render(start + |lines|, x) == ItemLine(menu, start + |lines|, x);
  }

  /** The item lines split at position `k`: the second part is numbered on from `start + k`. */
  lemma ItemLinesSplit(menu: seq<MenuItem>, lines: seq<OrderLine>, k: nat, start: int)
    requires k <= |lines|
    ensures ItemLines(menu, lines, start) == ItemLines(menu, lines[..k], start) + ItemLines(menu, lines[k..], start + k)
  {
    EnumeratedSplit(ItemLineOf(menu), lines, k, start);
  }

  /** The lines before position `k`, then line `k` numbered `start + k`, then the rest. */
  lemma ItemLinesAt(menu: seq<MenuItem>, lines: seq<OrderLine>, k: nat, start: int)
    requires k < |lines|
    ensures ItemLines(menu, lines, start)
         == ItemLines(menu, lines[..k], start) + ItemLine(menu, start + k, lines[k]) + ItemLines(menu, lines[k + 1..], start + k + 1)
  {
    var render := ItemLineOf(menu);
    EnumeratedSplit(render, lines, k, start);
    var tail := lines[k..];
    assert tail[0] == lines[k];
    assert tail[1..] == lines[k + 1..];
    assert Enumerated(render, tail, start + k) == render(start + k, lines[k]) + Enumerated(render, lines[k + 1..], start + k + 1);
    AppendAssoc(Enumerated(render, lines[..k], start), render(start + k, lines[k]), Enumerated(render, lines[k + 1..], start + k + 1));
  }

  function OrderHeader(order: Order): string {
    "*Retro Restaurant*\n"
    + "*Order Confirmation*\n\n"
    + "*Customer:* " + order.customer.name + "\n"
    + "*Phone:* " + order.customer.phone + "\n"
    + "*Order ID:* " + order.id + "\n"
    + "*Type:* " + Label(order.orderType) + "\n"
    + "*Payment:* " + Label(order.paymentMethod) + "\n\n"
    + "*Order Items:*\n"
  }

  function BillSummary(order: Order): string {
    "\n*Bill Summary:*\n"
    + "Subtotal: " + Rupee + Fixed2(order.subtotal as real) + "\n"
    + "GST (" + Fixed1(ShownGstRate(order)) + "%): " + Rupee + Fixed2(order.gstAmount) + "\n"
    + "*Total: " + Rupee + Fixed2(order.total) + "*\n\n"
  }

  const Footer :=
    "*Restaurant Address:*\n"
    + "123 Kanyakumari Main Road, Radhapuram, Tamil Nadu 627111\n\n"
    + "Thank you for ordering with us!"

  /** The whole confirmation text of `order`, item names looked up in `menu`. */
  function OrderMessage(menu: seq<MenuItem>, order: Order): string {
    OrderHeader(order) + ItemLines(menu, order.items, 1) + BillSummary(order) + Footer
  }

  lemma AppendItemStep(menu: seq<MenuItem>, items: seq<OrderLine>, i: nat, text: string, r: string)
    requires i < |items|
    requires r == text + ItemLines(menu, items[..i], 1)
    ensures r + ItemLine(menu, i + 1, items[i]) == text + ItemLines(menu, items[..i + 1], 1)
  {
    assert items[..i + 1] == items[..i] + [items[i]];
    ItemLinesSnoc(menu, items[..i], items[i], 1);
    AppendAssoc(text, ItemLines(menu, items[..i], 1), ItemLine(menu, i + 1, items[i]));
  }

  /** The item loop of the message builder: appends to `text` one line per order line,
      numbered from 1. */
  method AppendItemLines(menu: seq<MenuItem>, items: seq<OrderLine>, text: string) returns (r: string)
    ensures r == text + ItemLines(menu, items, 1)
  {
    r := text;
    var i := 0;
    while i < |items|
      invariant 0 <= i <= |items|
      invariant r == text + ItemLines(menu, items[..i], 1)
    {
      AppendItemStep(menu, items, i, text, r);
      r := r + ItemLine(menu, i + 1, items[i]);
      i := i + 1;
    }
    assert items[..i] == items;
  }

  /** The confirmation text, accumulated piece by piece: header, item lines, bill summary
      and footer; the session passes the catalog as `menu`. */
  method CreateMessage(menu: seq<MenuItem>, order: Order) returns (message: string)
    ensures message == OrderMessage(menu, order)
  {
    message := OrderHeader(order);
    message := AppendItemLines(menu, order.items, message);
    message := message + BillSummary(order);
    message := message + Footer;
  }

  /** An order taxed at the configured rate shows "GST (18.0%)". */
  lemma ShownRateText(order: Order)
    requires order.gstAmount == GstOf(order.subtotal)
    ensures Fixed1(ShownGstRate(order)) == "18.0"
  {
    ShownRateIsConfigured(order);
    assert ScaledUnits(18.0, 10) == 180;
    assert NatToString(18) == "18" by {
      assert NatToString(1) == "1";
    }
    assert NatToString(0) == "0";
  }
}
