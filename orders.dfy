/** The order record created at checkout and its lines, snapshotted from the cart. */
module Orders {
  import opened Catalog
  import opened Pricing

  datatype Customer = Customer(name: string, phone: string, email: string, address: string)

  /** One cart line frozen into the order: the price is copied, not referenced. */
  datatype OrderLine = OrderLine(menuItemId: string, quantity: int, unitPrice: int, totalPrice: int)

  datatype Order = Order(
    id: string,
    customer: Customer,
    orderType: string,
    paymentMethod: string,
    subtotal: int,
    gstAmount: real,
    total: real,
    items: seq<OrderLine>,
    createdAt: string)

  /** The order line the checkout writes for the cart entry `key` -> `line`. */
  function LineFor(key: string, line: CartLine): (o: OrderLine)
    ensures o.totalPrice == o.unitPrice * o.quantity
  {
    OrderLine(key, line.quantity, line.menuItem.price, line.menuItem.price * line.quantity)
  }

  /** `lines` holds one order line per key of `keys`, in the same order. */
  ghost predicate LinesMatch(lines: seq<OrderLine>, keys: seq<string>, cart: map<string, CartLine>) {
    Covers(keys, cart) &&
    |lines| == |keys| &&
    forall i :: 0 <= i < |keys| ==> lines[i] == LineFor(keys[i], cart[keys[i]])
  }

  /** Σ totalPrice over the order lines. */
  function LinesTotal(lines: seq<OrderLine>): int {
    if lines == [] then 0 else lines[0].totalPrice + LinesTotal(lines[1..])
  }

  /** Lines built from a cart add up to the cart's subtotal. */
  lemma {:induction false} LinesTotalMatches(lines: seq<OrderLine>, keys: seq<string>, cart: map<string, CartLine>)
    requires LinesMatch(lines, keys, cart)
    ensures LinesTotal(lines) == SumBy(keys, cart, LineTotal)
    decreases |keys|
  {
    if keys != [] {
      assert keys[0] in keys;
      assert LinesMatch(lines[1..], keys[1..], cart) by {
        forall k | k in keys[1..] ensures k in cart {
          assert k in keys;
        }
        forall i | 0 <= i < |keys[1..]|
          ensures lines[1..][i] == LineFor(keys[1..][i], cart[keys[1..][i]])
        {
          assert lines[1..][i] == lines[i + 1] && keys[1..][i] == keys[i + 1];
        }
      }
      LinesTotalMatches(lines[1..], keys[1..], cart);
    }
  }

  /** The order lines of the cart entries named by `keys`, in that order. */
  function OrderLines(keys: seq<string>, cart: map<string, CartLine>): seq<OrderLine>
    requires Covers(keys, cart)
  {
    if keys == [] then [] else [LineFor(keys[0], cart[keys[0]])] + OrderLines(keys[1..], cart)
  }

  /** `OrderLines` holds one line per key, built from that key's cart entry, and the lines
      add up to the cart sum over the keys. */
  lemma {:induction false} OrderLinesSpec(keys: seq<string>, cart: map<string, CartLine>)
    requires Covers(keys, cart)
    ensures LinesMatch(OrderLines(keys, cart), keys, cart)
    ensures LinesTotal(OrderLines(keys, cart)) == SumBy(keys, cart, LineTotal)
    decreases |keys|
  {
    if keys != [] {
      var lines := OrderLines(keys, cart);
      assert keys[0] in keys;
      OrderLinesSpec(keys[1..], cart);
      forall i | 0 <= i < |keys| ensures lines[i] == LineFor(keys[i], cart[keys[i]]) {
        if i > 0 {
          assert lines[i] == OrderLines(keys[1..], cart)[i - 1];
          assert keys[i] == keys[1..][i - 1];
        }
      }
      LinesTotalMatches(lines, keys, cart);
    }
  }

  /** Lines that match a cart's entries are exactly `OrderLines` of it. */
  lemma LinesMatchUnique(lines: seq<OrderLine>, keys: seq<string>, cart: map<string, CartLine>)
    requires LinesMatch(lines, keys, cart)
    ensures lines == OrderLines(keys, cart)
  {
    OrderLinesSpec(keys, cart);
    var o := OrderLines(keys, cart);
    assert |lines| == |o|;
    forall i | 0 <= i < |lines| ensures lines[i] == o[i] {
    }
  }

  /** The checkout loop: one order line per cart entry, in the cart's key order (whose
      properties `OrderLinesSpec` states). */
  method BuildOrderLines(keys: seq<string>, cart: map<string, CartLine>) returns (lines: seq<OrderLine>)
    requires Covers(keys, cart)
    ensures lines == OrderLines(keys, cart)
  {
    lines := [];
    var i := 0;
    while i < |keys|
      invariant 0 <= i <= |keys|
      invariant |lines| == i
      invariant forall j :: 0 <= j < i ==> lines[j] == LineFor(keys[j], cart[keys[j]])
    {
      var key := keys[i];
      var line := cart[key];
      lines := lines + [LineFor(key, line)];
      i := i + 1;
    }
    LinesMatchUnique(lines, keys, cart);
  }

  /** The GST rate the message shows, recomputed from the stored amounts, or 18 when the
      subtotal is not positive. */
  function ShownGstRate(order: Order): real {
    if order.subtotal > 0 then order.gstAmount / order.subtotal as real * 100.0 else 18.0
  }

  /** For an order whose tax was computed at the configured rate, the shown rate is 18. */
  lemma ShownRateIsConfigured(order: Order)
    requires order.gstAmount == GstOf(order.subtotal)
    ensures ShownGstRate(order) == 18.0
  {
    if order.subtotal > 0 {
      var s := order.subtotal as real;
      assert order.gstAmount / s == GstRate;
    }
  }

  /** Two Chicken Biryanis at 240 make a subtotal of 480, GST 86.40 and total 566.40. */
  lemma ChickenBiryaniExample()
    ensures MenuItems[1].name == "Chicken Biryani" && MenuItems[1].price == 240
    ensures SumBy(["2"], map["2" := CartLine(MenuItems[1], 2)], LineTotal) == 480
    ensures GstOf(480) == 86.4 && TotalOf(480) == 566.4
  {
    assert ["2"][1..] == [];
  }
}
