/** The per-visitor session: the cart, the stored orders and reviews, and the last
    customer details, with the operations the pages perform on them. */
module Session {
  import opened Results
  import opened Text
  import opened Catalog
  import opened Pricing
  import opened Carts
  import opened Orders
  import opened Phone
  import opened ShareLink
  import opened Message
  import opened Reviews

  /** Why placing an order was refused. */
  datatype CheckoutError =
    | EmptyCart       // the cart page shows no checkout form for an empty cart
    | MissingDetails  // "Please fill in your name and phone number."
    | InvalidPhone    // the phone number does not normalize: "Error: Invalid phone number format"

  datatype CheckoutOutcome =
    | Placed(order: Order, message: string, url: string)
    | Rejected(reason: CheckoutError)

  /** The checks made before an order is created, in the order the cart page makes them. */
  function CheckoutProblem(cartEmpty: bool, name: string, phone: string): (e: Option<CheckoutError>)
    ensures e == None <==> !cartEmpty && name != "" && phone != "" && Normalize(phone).Ok?
    ensures e == Some(EmptyCart) <==> cartEmpty
    ensures e == Some(MissingDetails) <==> !cartEmpty && (name == "" || phone == "")
  {
    if cartEmpty then Some(EmptyCart)
    else if name == "" || phone == "" then Some(MissingDetails)
    else if Normalize(phone).Err? then Some(InvalidPhone)
    else None
  }

  /** A phone that normalizes is never empty, so an order is possible exactly when the
      cart has lines, a name is given and the phone normalizes. */
  lemma CheckoutPossible(cartEmpty: bool, name: string, phone: string)
    ensures CheckoutProblem(cartEmpty, name, phone) == None <==> !cartEmpty && name != "" && Normalize(phone).Ok?
  {
    if Normalize(phone).Ok? {
      DigitsAreDigits(phone);
    }
  }

  /** The order the checkout records for cart `c`: the cart's lines in key order, the
      cart's subtotal, GST at the configured rate and the total. */
  function NewOrder(c: Cart, buyer: Customer, orderType: string, paymentMethod: string,
                    orderId: string, createdAt: string): Order
    requires WellFormed(c)
  {
    var subtotal := Subtotal(c);
    Order(orderId, buyer, orderType, paymentMethod, subtotal, GstOf(subtotal), TotalOf(subtotal),
          OrderLines(c.keys, c.lines), createdAt)
  }

  /** The recorded order lists one line per cart line, in the cart's order, with the price
      copied and line total = price × quantity; its subtotal is the sum of its line totals,
      which is the cart's subtotal; its tax is 18% and the message shows "GST (18.0%)". */
  lemma NewOrderSpec(c: Cart, buyer: Customer, orderType: string, paymentMethod: string,
                     orderId: string, createdAt: string)
    requires WellFormed(c)
    ensures var o := NewOrder(c, buyer, orderType, paymentMethod, orderId, createdAt);
      LinesMatch(o.items, c.keys, c.lines) &&
      |o.items| == |c.keys| &&
      LinesTotal(o.items) == o.subtotal == Subtotal(c) &&
      o.gstAmount * 100.0 == o.subtotal as real * 18.0 &&
      o.total == o.subtotal as real + o.gstAmount &&
      Fixed1(ShownGstRate(o)) == "18.0"
  {
    var o := NewOrder(c, buyer, orderType, paymentMethod, orderId, createdAt);
    OrderLinesSpec(c.keys, c.lines);
    TotalIsSubtotalWithTax(o.subtotal);
    ShownRateText(o);
  }

  /** The bill message of a placed order and the share link that carries it to `phone`. */
  method ShareOrder(menu: seq<MenuItem>, phone: string, order: Order) returns (message: string, url: string)
    requires Normalize(phone).Ok?
    ensures message == OrderMessage(menu, order)
    ensures ShareUrl(phone, message) == Ok(url)
  {
    message := CreateMessage(menu, order);
    var link := ShareUrl(phone, message);
    url := link.value;
  }

  class AppSession {
    /** The menu the messages name items from: the catalog. */
    const menu: seq<MenuItem>
    var cart: Cart
    var orders: seq<Order>
    var reviews: seq<Review>
    var customer: Customer

    ghost predicate Valid()
      reads this
    {
      WellFormed(cart)
    }

    /** `init_session_state`: an empty cart and customer, the stores as loaded. */
    constructor (loadedOrders: seq<Order>, loadedReviews: seq<Review>)
      ensures Valid()
      ensures menu == MenuItems
      ensures cart == Empty && orders == loadedOrders && reviews == loadedReviews
      ensures customer == Customer("", "", "", "")
    {
      menu := MenuItems;
      cart := Empty;
      orders := loadedOrders;
      reviews := loadedReviews;
      customer := Customer("", "", "", "");
    }

    /** `get_cart_count`: the units in the cart, summed over its lines. */
    function CartCount(): (n: int)
      reads this
      requires Valid()
      ensures n == SumBy(cart.keys, cart.lines, Quantity)
      ensures n >= |cart.keys|
      ensures n == 0 <==> cart.lines == map[]
    {
      CountBounds(cart);
      Count(cart)
    }

    /** `get_cart_total`: the subtotal Σ price × quantity over the cart's lines, GST at 18%
        and the total. */
    function CartTotals(): (t: (int, real, real))
      reads this
      requires Valid()
      ensures t.0 == SumBy(cart.keys, cart.lines, LineTotal)
      ensures t.1 * 100.0 == t.0 as real * 18.0
      ensures t.2 == t.0 as real + t.1
    {
      TotalIsSubtotalWithTax(Subtotal(cart));
      (Subtotal(cart), GstOf(Subtotal(cart)), TotalOf(Subtotal(cart)))
    }

    /** `add_to_cart` */
    method AddToCart(item: MenuItem)
      requires Valid()
      modifies this`cart
      ensures Valid()
      ensures cart == Add(old(cart), item)
      ensures Count(cart) == Count(old(cart)) + 1
    {
      AddSpec(cart, item);
      cart := Add(cart, item);
    }

    /** `update_cart_quantity`; `ok` is false for the source's `KeyError` (a positive
        quantity for an id that is not in the cart), which leaves the cart as it was. */
    method UpdateCartQuantity(id: string, quantity: int) returns (ok: bool)
      requires Valid()
      modifies this`cart
      ensures Valid()
      ensures ok <==> SetQuantity(old(cart), id, quantity).Some?
      ensures ok ==> cart == SetQuantity(old(cart), id, quantity).value
      ensures !ok ==> cart == old(cart)
    {
      var next := SetQuantity(cart, id, quantity);
      if next.Some? {
        SetQuantitySpec(cart, id, quantity);
        cart := next.value;
        ok := true;
      } else {
        ok := false;
      }
    }

    /** `remove_from_cart` */
    method RemoveFromCart(id: string)
      requires Valid()
      modifies this`cart
      ensures Valid()
      ensures cart == Remove(old(cart), id)
    {
      RemoveSpec(cart, id);
      cart := Remove(cart, id);
    }

    /** `clear_cart` */
    method ClearCart()
      modifies this`cart
      ensures Valid()
      ensures cart == Empty && Count(cart) == 0 && Subtotal(cart) == 0
    {
      cart := Empty;
    }

    /** The "Place Order" action of the cart page. The order id and the creation time are
        passed in; saving the orders is a step that cannot fail and is not modelled. */
    method Checkout(name: string, phone: string, email: string, address: string,
                    orderType: string, paymentMethod: string, orderId: string, createdAt: string)
      returns (outcome: CheckoutOutcome)
      requires Valid()
      modifies this`cart, this`orders, this`customer
      ensures Valid()
      ensures outcome.Rejected? <==> CheckoutProblem(old(cart).lines == map[], name, phone).Some?
      ensures outcome.Rejected? ==>
        outcome.reason == CheckoutProblem(old(cart).lines == map[], name, phone).value &&
        cart == old(cart) && orders == old(orders) && customer == old(customer)
      ensures outcome.Placed? ==>
        customer == Customer(name, phone, email, address) &&
        outcome.order == NewOrder(old(cart), customer, orderType, paymentMethod, orderId, createdAt) &&
        orders == old(orders) + [outcome.order] &&
        cart == Empty &&
        outcome.message == OrderMessage(menu, outcome.order) &&
        ShareUrl(phone, outcome.message) == Ok(outcome.url)
    {
      var problem := CheckoutProblem(cart.lines == map[], name, phone);
      if problem.Some? {
        outcome := Rejected(problem.value);
        return;
      }
      var order := PlaceOrder(name, phone, email, address, orderType, paymentMethod, orderId, createdAt);
      var message, url := ShareOrder(menu, phone, order);
      outcome := Placed(order, message, url);
    }

    /** The accepted path of the checkout: records the customer's details, builds the order
        from the cart, appends it to the order history and empties the cart. */
    method PlaceOrder(name: string, phone: string, email: string, address: string,
                      orderType: string, paymentMethod: string, orderId: string, createdAt: string)
      returns (order: Order)
      requires Valid()
      modifies this`cart, this`orders, this`customer
      ensures Valid()
      ensures customer == Customer(name, phone, email, address)
      ensures order == NewOrder(old(cart), customer, orderType, paymentMethod, orderId, createdAt)
      ensures orders == old(orders) + [order]
      ensures cart == Empty
    {
      customer := Customer(name, phone, email, address);
      var items := BuildOrderLines(cart.keys, cart.lines);
      var subtotal := Subtotal(cart);
      order := Order(orderId, customer, orderType, paymentMethod,
                     subtotal, GstOf(subtotal), TotalOf(subtotal), items, createdAt);
      orders := orders + [order];
      ClearCart();
    }

    /** The review form's submit action. The review id and the creation time are passed
        in; saving the reviews is a step that cannot fail and is not modelled. */
    method SubmitReview(name: string, rating: int, comment: string, id: string, createdAt: string)
      returns (verdict: ReviewVerdict)
      modifies this`reviews
      ensures verdict == CheckReview(name, comment)
      ensures reviews == Submit(old(reviews), Review(id, name, rating, comment, createdAt))
    {
      verdict := CheckReview(name, comment);
      if verdict == Accepted {
        reviews := [Review(id, name, rating, comment, createdAt)] + reviews;
      }
    }
  }
}
