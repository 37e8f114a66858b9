/** The order routes of the API (apps/api/src/routes/orders/orders.route.ts): the
    checkout that turns a user's cart into a pending order with reserved stock,
    and the owner-only order lookup. The store they work on (products with their
    stock, carts, orders) is the class Shop; the payment-event reconciler in
    module Stripe works on the same store. */
module Orders {
  import opened Wrappers
  import opened Text
  import opened Schemas
  import opened ApiUtils

  type ProductId = string
  type UserId = string
  type SessionId = string

  /** A cart quantity; the cart routes admit only quantities of at least 1. */
  type Quantity = q: int | q >= 1 witness 1

  /** A product row. Its price passed the product schema's price pattern; its
      stock column may be null. */
  datatype Product = Product(id: ProductId, name: string, price: Price, stockQuantity: Option<int>)

  /** `product.stockQuantity || 0`: a null (or zero) stock counts as 0. */
  function AvailableStock(p: Product): (s: int)
    ensures p.stockQuantity.None? ==> s == 0
    ensures p.stockQuantity.Some? ==> s == p.stockQuantity.value
  {
    match p.stockQuantity
    case None => 0
    case Some(n) => n
  }

  /** A stored cart line, and the same line joined with its product as the
      cart query returns it (no product when the product row is gone). */
  datatype CartLine = CartLine(productId: ProductId, quantity: Quantity)
  datatype CartItem = CartItem(productId: ProductId, quantity: Quantity, product: Option<Product>)

  datatype CartError = CartError(code: string, details: string)

  /** The error for a cart line whose product row is gone. */
  function MissingProduct(pid: ProductId): CartError
  {
    CartError("INVALID_CART_STATE", "Product with ID \"" + pid + "\" no longer exists")
  }

  /** The error for a cart line that asks for more than the stock. */
  function OutOfStock(name: string, requested: int, available: int): CartError
  {
    CartError("INSUFFICIENT_STOCK", "Not enough stock for \"" + name + "\". Requested: "
              + IntToString(requested) + ", Available: " + IntToString(available))
  }

  /** The verdict of the checkout loop on one cart item. */
  function ItemError(item: CartItem): (e: Option<CartError>)
    ensures item.product.None? ==> e.Some? && e.value.code == "INVALID_CART_STATE"
    ensures item.product.Some? ==>
      (e.Some? <==> item.quantity > AvailableStock(item.product.value))
    ensures e.Some? && item.product.Some? ==> e.value.code == "INSUFFICIENT_STOCK"
    ensures item.product.None? ==>
      e.value.details == "Product with ID \"" + item.productId + "\" no longer exists"
    ensures e.Some? && item.product.Some? ==>
      e.value.details == "Not enough stock for \"" + item.product.value.name + "\". Requested: "
        + IntToString(item.quantity) + ", Available: " + IntToString(AvailableStock(item.product.value))
  {
    match item.product
    case None => Some(MissingProduct(item.productId))
    case Some(p) =>
      if item.quantity > AvailableStock(p) then Some(OutOfStock(p.name, item.quantity, AvailableStock(p)))
      else None
  }

  /** The errors the checkout loop records, in cart order. */
  function CartErrors(items: seq<CartItem>): seq<CartError>
  {
    if items == [] then []
    else CartErrors(items[..|items| - 1])
         + (if ItemError(items[|items| - 1]).Some? then [ItemError(items[|items| - 1]).value] else [])
  }

  /** Price times quantity, in cents. */
  function Amount(price: Price, quantity: Quantity): nat
  {
    PriceCents(price) * quantity
  }

  /** The amount of one line in cents, counted only when the line passes. */
  function LineAmount(item: CartItem): nat
  {
    if ItemError(item).None? then Amount(item.product.value.price, item.quantity) else 0
  }

  /** The running total of the checkout loop: price times quantity over the
      lines that pass. */
  function ValidTotal(items: seq<CartItem>): nat
  {
    if items == [] then 0 else ValidTotal(items[..|items| - 1]) + LineAmount(items[|items| - 1])
  }

  /** The checkout's validation loop: one error per bad item, and the total of
      the good ones. */
  method ValidateCart(items: seq<CartItem>) returns (errors: seq<CartError>, total: nat)
    ensures errors == CartErrors(items)
    ensures total == ValidTotal(items)
  {
    errors, total := [], 0;
    for i := 0 to |items|
      invariant errors == CartErrors(items[..i])
      invariant total == ValidTotal(items[..i])
    {
      assert items[..i + 1][..i] == items[..i];
      var item := items[i];
      if item.product.None? {
        errors := errors + [MissingProduct(item.productId)];
        continue;
      }
      var product := item.product.value;
      var available := if product.stockQuantity.Some? then product.stockQuantity.value else 0;
      if item.quantity > available {
        errors := errors + [OutOfStock(product.name, item.quantity, available)];
        continue;
      }
      total := total + Amount(product.price, item.quantity);
    }
    assert items[..|items|] == items;
  }

  /** The earliest item of the cart that fails, if any. */
  function FirstFailing(items: seq<CartItem>): (k: Option<nat>)
    ensures k.Some? ==> k.value < |items| && ItemError(items[k.value]).Some?
    ensures k.Some? ==> forall j :: 0 <= j < k.value ==> ItemError(items[j]).None?
    ensures k.None? ==> forall j :: 0 <= j < |items| ==> ItemError(items[j]).None?
  {
    if items == [] then None
    else if ItemError(items[0]).Some? then Some(0)
    else match FirstFailing(items[1..])
      case None => None
      case Some(k) => Some(k + 1)
  }

  /** The loop records no error exactly when every item passes, and its first
      recorded error is the earliest failing item's. */
  lemma {:induction false} FirstErrorIsEarliest(items: seq<CartItem>)
    ensures CartErrors(items) == [] <==> FirstFailing(items).None?
    ensures CartErrors(items) != [] ==> CartErrors(items)[0] == ItemError(items[FirstFailing(items).value]).value
  {
    if items != [] {
      var init := items[..|items| - 1];
      FirstErrorIsEarliest(init);
      assert forall j :: 0 <= j < |init| ==> init[j] == items[j];
      var k := FirstFailing(items);
      if FirstFailing(init).Some? {
        assert k.Some? && k.value == FirstFailing(init).value;
      } else if ItemError(items[|items| - 1]).Some? {
        assert k.Some? && k.value == |items| - 1;
      }
    }
  }

  /** When every item passes, the loop's total is price times quantity summed
      over the whole cart. */
  function CartTotal(items: seq<CartItem>): nat
    requires forall i :: 0 <= i < |items| ==> items[i].product.Some?
  {
    if items == [] then 0
    else CartTotal(items[..|items| - 1])
         + Amount(items[|items| - 1].product.value.price, items[|items| - 1].quantity)
  }

  lemma {:induction false} ValidTotalIsCartTotal(items: seq<CartItem>)
    requires CartErrors(items) == []
    ensures forall i :: 0 <= i < |items| ==> items[i].product.Some?
    ensures ValidTotal(items) == CartTotal(items)
  {
    FirstErrorIsEarliest(items);
    if items != [] {
      var init := items[..|items| - 1];
      FirstErrorIsEarliest(init);
      assert forall j :: 0 <= j < |init| ==> init[j] == items[j];
      ValidTotalIsCartTotal(init);
    }
  }

  datatype OrderStatus = Pending | Completed | Cancelled
  datatype PaymentStatus = PaymentPending | Paid | Failed

  /** An order line with the unit price frozen at checkout. */
  datatype OrderItem = OrderItem(productId: ProductId, quantity: Quantity, unitPrice: Price)

  /** An order. `totalAmount` is the rendered two-decimal total; the id is the
      order's position in the store. */
  datatype Order = Order(
    id: nat, userId: Option<UserId>, customerEmail: string, totalAmount: string,
    status: OrderStatus, paymentStatus: PaymentStatus,
    checkoutSessionId: Option<SessionId>, paymentMethod: Option<string>,
    items: seq<OrderItem>)

  /** Price times quantity summed over an order's lines, in cents. */
  function OrderTotal(lines: seq<OrderItem>): nat
  {
    if lines == [] then 0
    else OrderTotal(lines[..|lines| - 1]) + Amount(lines[|lines| - 1].unitPrice, lines[|lines| - 1].quantity)
  }

  /** The order lines made from a validated cart. */
  function OrderItems(items: seq<CartItem>): (lines: seq<OrderItem>)
    requires forall i :: 0 <= i < |items| ==> items[i].product.Some?
    ensures |lines| == |items|
    ensures forall i :: 0 <= i < |items| ==>
      lines[i].productId == items[i].productId && lines[i].quantity == items[i].quantity
      && lines[i].unitPrice == items[i].product.value.price
  {
    seq(|items|, i requires 0 <= i < |items| => OrderItem(items[i].productId, items[i].quantity, items[i].product.value.price))
  }

  /** The frozen order lines add up to the cart's total. */
  lemma {:induction false} OrderTotalOfCart(items: seq<CartItem>)
    requires forall i :: 0 <= i < |items| ==> items[i].product.Some?
    ensures OrderTotal(OrderItems(items)) == CartTotal(items)
  {
    if items != [] {
      var init := items[..|items| - 1];
      assert OrderItems(items)[..|items| - 1] == OrderItems(init);
      OrderTotalOfCart(init);
    }
  }

  /** For a cart that passes, the loop's total renders as a price that reads
      back as the sum of the order lines frozen from the cart. */
  lemma CheckoutTotal(items: seq<CartItem>)
    requires CartErrors(items) == []
    ensures forall i :: 0 <= i < |items| ==> items[i].product.Some?
    ensures ValidTotal(items) == CartTotal(items)
    ensures ParsePrice(FormatCents(ValidTotal(items))) == Some(OrderTotal(OrderItems(items)))
  {
    ValidTotalIsCartTotal(items);
    OrderTotalOfCart(items);
    FormatCentsRoundTrip(ValidTotal(items));
  }

  /** A stock movement: a product and a quantity. */
  datatype Reservation = Reservation(productId: ProductId, quantity: int)

  /** The reservation list made from a cart. */
  function ReservationList(items: seq<CartItem>): (res: seq<Reservation>)
    ensures |res| == |items|
    ensures forall i :: 0 <= i < |items| ==> res[i] == Reservation(items[i].productId, items[i].quantity)
  {
    seq(|items|, i requires 0 <= i < |items| => Reservation(items[i].productId, items[i].quantity))
  }

  /** The movements that put an order's lines back into stock. */
  function Restock(lines: seq<OrderItem>): (res: seq<Reservation>)
    ensures |res| == |lines|
    ensures forall i :: 0 <= i < |lines| ==> res[i] == Reservation(lines[i].productId, lines[i].quantity)
  {
    seq(|lines|, i requires 0 <= i < |lines| => Reservation(lines[i].productId, lines[i].quantity))
  }

  /** What an order gives back on cancellation is exactly what its checkout reserved. */
  lemma RestockIsReservation(items: seq<CartItem>)
    requires forall i :: 0 <= i < |items| ==> items[i].product.Some?
    ensures Restock(OrderItems(items)) == ReservationList(items)
  {
  }

  // The stock ledger. The bodies of `reserveStock` and `restoreStock` are not
  // part of this model: each movement subtracts (adds) its quantity to the
  // product's stock, a null stock stays null, and a missing product is skipped.

  type Catalogue = map<ProductId, Product>

  function Shift(s: Option<int>, delta: int): Option<int>
  {
    if s.Some? then Some(s.value + delta) else None
  }

  function Move(products: Catalogue, r: Reservation, sign: int): (moved: Catalogue)
    ensures moved.Keys == products.Keys
  {
    if r.productId in products then
      products[r.productId := products[r.productId].(stockQuantity := Shift(products[r.productId].stockQuantity, sign * r.quantity))]
    else products
  }

  /** The catalogue after applying the movements in order, each with the sign. */
  function ApplyAll(products: Catalogue, res: seq<Reservation>, sign: int): (moved: Catalogue)
    ensures moved.Keys == products.Keys
  {
    if res == [] then products else Move(ApplyAll(products, res[..|res| - 1], sign), res[|res| - 1], sign)
  }

  function ReserveAll(products: Catalogue, res: seq<Reservation>): Catalogue { ApplyAll(products, res, -1) }

  function RestoreAll(products: Catalogue, res: seq<Reservation>): Catalogue { ApplyAll(products, res, 1) }

  /** The total quantity the movements name for one product. */
  function QuantityFor(res: seq<Reservation>, pid: ProductId): int
  {
    if res == [] then 0
    else QuantityFor(res[..|res| - 1], pid) + (if res[|res| - 1].productId == pid then res[|res| - 1].quantity else 0)
  }

  /** Applying movements changes only stock, and each product's stock by the
      signed sum of its quantities. */
  lemma {:induction false} ApplyAllStock(products: Catalogue, res: seq<Reservation>, sign: int)
    ensures ApplyAll(products, res, sign).Keys == products.Keys
    ensures forall pid :: pid in products ==>
      ApplyAll(products, res, sign)[pid] ==
        products[pid].(stockQuantity := Shift(products[pid].stockQuantity, sign * QuantityFor(res, pid)))
  {
    if res != [] {
      var init, last := res[..|res| - 1], res[|res| - 1];
      ApplyAllStock(products, init, sign);
      var mid := ApplyAll(products, init, sign);
      assert ApplyAll(products, res, sign) == Move(mid, last, sign);
      forall pid | pid in products
        ensures ApplyAll(products, res, sign)[pid] ==
          products[pid].(stockQuantity := Shift(products[pid].stockQuantity, sign * QuantityFor(res, pid)))
      {
        var q := if last.productId == pid then last.quantity else 0;
        MoveAt(mid, last, sign, pid);
        ShiftTwice(products[pid].stockQuantity, sign * QuantityFor(init, pid), sign * q);
        SignedSum(sign, QuantityFor(init, pid), q);
      }
    }
  }

  /** Stock movements never change which id a product is stored under. */
  lemma ApplyAllKeepsIds(products: Catalogue, res: seq<Reservation>, sign: int)
    requires forall pid :: pid in products ==> products[pid].id == pid
    ensures forall pid :: pid in ApplyAll(products, res, sign) ==> ApplyAll(products, res, sign)[pid].id == pid
  {
    ApplyAllStock(products, res, sign);
  }

  lemma MoveAt(products: Catalogue, r: Reservation, sign: int, pid: ProductId)
    requires pid in products
    ensures Move(products, r, sign)[pid] == products[pid].(stockQuantity :=
      Shift(products[pid].stockQuantity, sign * (if r.productId == pid then r.quantity else 0)))
  {
  }

  lemma ShiftTwice(s: Option<int>, a: int, b: int)
    ensures Shift(Shift(s, a), b) == Shift(s, a + b)
  {
  }

  lemma SignedSum(sign: int, a: int, b: int)
    ensures sign * a + sign * b == sign * (a + b)
  {
  }

  /** Reserving and then restoring the same movements gives every stock back. */
  lemma ReserveThenRestore(products: Catalogue, res: seq<Reservation>)
    ensures RestoreAll(ReserveAll(products, res), res) == products
  {
    ApplyAllStock(products, res, -1);
    ApplyAllStock(ReserveAll(products, res), res, 1);
  }

  /** Restoring the same movements twice adds every quantity twice. */
  lemma RestoreTwice(products: Catalogue, res: seq<Reservation>, pid: ProductId)
    requires pid in products
    ensures RestoreAll(RestoreAll(products, res), res)[pid].stockQuantity
         == Shift(products[pid].stockQuantity, 2 * QuantityFor(res, pid))
  {
    var once := RestoreAll(products, res);
    var q := QuantityFor(res, pid);
    ApplyAllStock(products, res, 1);
    ApplyAllStock(once, res, 1);
    assert once[pid].stockQuantity == Shift(products[pid].stockQuantity, q);
    ShiftTwice(products[pid].stockQuantity, q, q);
  }

  /** With one line per product, a cart that passes validation never takes a
      product's stock below zero. */
  lemma {:induction false} NoOversellWithDistinctLines(products: Catalogue, items: seq<CartItem>)
    requires forall i :: 0 <= i < |items| ==> items[i].product == Lookup(products, items[i].productId)
    requires forall i, j :: 0 <= i < j < |items| ==> items[i].productId != items[j].productId
    requires CartErrors(items) == []
    ensures forall pid :: pid in products && QuantityFor(ReservationList(items), pid) > 0 ==>
      ReserveAll(products, ReservationList(items))[pid].stockQuantity.Some?
      && ReserveAll(products, ReservationList(items))[pid].stockQuantity.value >= 0
  {
    FirstErrorIsEarliest(items);
    ApplyAllStock(products, ReservationList(items), -1);
    forall pid | pid in products && QuantityFor(ReservationList(items), pid) > 0
      ensures products[pid].stockQuantity.Some?
      ensures products[pid].stockQuantity.value - QuantityFor(ReservationList(items), pid) >= 0
    {
      var k := SingleLine(items, pid);
      assert ItemError(items[k]).None?;
    }
  }

  /** With distinct product ids, a product named in the cart gets its one
      line's quantity; returns that line. */
  lemma {:induction false} SingleLine(items: seq<CartItem>, pid: ProductId) returns (k: nat)
    requires forall i, j :: 0 <= i < j < |items| ==> items[i].productId != items[j].productId
    requires QuantityFor(ReservationList(items), pid) > 0
    ensures k < |items| && items[k].productId == pid
    ensures QuantityFor(ReservationList(items), pid) == items[k].quantity
  {
    var init := items[..|items| - 1];
    assert ReservationList(items)[..|items| - 1] == ReservationList(init);
    if items[|items| - 1].productId == pid {
      k := |items| - 1;
      assert QuantityFor(ReservationList(init), pid) == 0 by {
        NotNamed(init, pid);
      }
    } else {
      k := SingleLine(init, pid);
    }
  }

  lemma {:induction false} NotNamed(items: seq<CartItem>, pid: ProductId)
    requires forall i :: 0 <= i < |items| ==> items[i].productId != pid
    ensures QuantityFor(ReservationList(items), pid) == 0
  {
    if items != [] {
      var init := items[..|items| - 1];
      assert ReservationList(items)[..|items| - 1] == ReservationList(init);
      NotNamed(init, pid);
    }
  }

  /** The stock check is made per cart line: two lines for one product, each
      within the stock but together beyond it, both pass, and the reservation
      then takes the stock below zero. */
  lemma DuplicateLinesOversell(products: Catalogue, p: Product, stock: int, q1: Quantity, q2: Quantity)
    requires p.id in products && products[p.id] == p && p.stockQuantity == Some(stock)
    requires q1 <= stock && q2 <= stock && stock < q1 + q2
    ensures var items := [CartItem(p.id, q1, Some(p)), CartItem(p.id, q2, Some(p))];
      && CartErrors(items) == []
      && ReserveAll(products, ReservationList(items))[p.id].stockQuantity == Some(stock - q1 - q2)
      && stock - q1 - q2 < 0
  {
    var first, second := CartItem(p.id, q1, Some(p)), CartItem(p.id, q2, Some(p));
    var items := [first, second];
    assert ItemError(first).None? && ItemError(second).None?;
    assert items[..1] == [first] && [first][..0] == [];
    assert CartErrors([first]) == [];
    var res := ReservationList(items);
    assert res == [Reservation(p.id, q1), Reservation(p.id, q2)];
    assert res[..1] == [Reservation(p.id, q1)] && [Reservation(p.id, q1)][..0] == [];
    assert QuantityFor(res[..1], p.id) == q1 by {
      assert QuantityFor(res[..1][..0], p.id) == 0;
    }
    assert QuantityFor(res, p.id) == q1 + q2;
    ApplyAllStock(products, res, -1);
  }

  function Lookup(products: Catalogue, pid: ProductId): Option<Product>
  {
    if pid in products then Some(products[pid]) else None
  }

  /** Each order's id is its position, and its rendered total reads back as the
      exact sum of its frozen lines. */
  ghost predicate OrdersValid(orders: seq<Order>)
  {
    forall i :: 0 <= i < |orders| ==>
      orders[i].id == i && ParsePrice(orders[i].totalAmount) == Some(OrderTotal(orders[i].items))
  }

  /** A new order numbered after the others, whose total renders its lines' sum, keeps the invariant. */
  lemma AppendOrderValid(orders: seq<Order>, o: Order)
    requires OrdersValid(orders)
    requires o.id == |orders| && ParsePrice(o.totalAmount) == Some(OrderTotal(o.items))
    ensures OrdersValid(orders + [o])
  {
  }

  /** Replacing an order by one with the same id, total and lines keeps the invariant. */
  lemma ReplaceOrderValid(orders: seq<Order>, k: nat, o: Order)
    requires OrdersValid(orders) && k < |orders|
    requires o.id == orders[k].id && o.totalAmount == orders[k].totalAmount && o.items == orders[k].items
    ensures OrdersValid(orders[k := o])
  {
  }

  /** The body of a successful checkout reply. The checkout URL and the
      publishable key come from the payment processor and the environment and
      are not part of this model. */
  datatype CheckoutData = CheckoutData(order: Order, checkoutSessionId: SessionId)

  /** The order a checkout of the cart `items` creates. */
  function PlacedOrder(id: nat, user: UserId, email: string, items: seq<CartItem>, session: Option<SessionId>): Order
    requires forall i :: 0 <= i < |items| ==> items[i].product.Some?
  {
    Order(id, Some(user), email, FormatCents(CartTotal(items)), Pending, PaymentPending, session, None, OrderItems(items))
  }

  /** The reply to a checkout that created `order`: 200 with the order and the
      session id, or 500 when no session was opened. */
  function PlacedReply(order: Order, session: Option<SessionId>): Reply<CheckoutData>
  {
    if session.Some? then Reply(OK, SuccessResponse(CheckoutData(order, session.value), "Order created successfully"))
    else Reply(INTERNAL_SERVER_ERROR, ErrorResponse("INTERNAL_SERVER_ERROR", "Failed to create order", None))
  }

  /** The store: the product table, the cart lines of each user's cart, and the
      orders (an order's id is its position). */
  class Shop {
    var products: Catalogue
    var carts: map<UserId, seq<CartLine>>
    var orders: seq<Order>

    /** Each product is stored under its own id; each order's rendered total
        reads back as the exact sum of its frozen lines. */
    ghost predicate Valid()
      reads this
    {
      && (forall pid :: pid in products ==> products[pid].id == pid)
      && OrdersValid(orders)
    }

    constructor (products: Catalogue, carts: map<UserId, seq<CartLine>>)
      requires forall pid :: pid in products ==> products[pid].id == pid
      ensures Valid()
      ensures this.products == products && this.carts == carts && orders == []
    {
      this.products := products;
      this.carts := carts;
      this.orders := [];
    }

    /** The user's cart joined with the live product rows, as the cart query
        returns it; None when the user has no cart. */
    function Snapshot(user: UserId): (snap: Option<seq<CartItem>>)
      reads this
      ensures snap.Some? <==> user in carts
      ensures snap.Some? ==> |snap.value| == |carts[user]| && forall i :: 0 <= i < |snap.value| ==>
        snap.value[i] == CartItem(carts[user][i].productId, carts[user][i].quantity, Lookup(products, carts[user][i].productId))
    {
      if user !in carts then None
      else
        var lines, catalogue := carts[user], products;
        Some(seq(|lines|, i requires 0 <= i < |lines| =>
          CartItem(lines[i].productId, lines[i].quantity, Lookup(catalogue, lines[i].productId))))
    }

    /** `reserveStock`: take each quantity out of its product's stock. */
    method ReserveStock(res: seq<Reservation>)
      modifies this
      ensures products == ReserveAll(old(products), res)
      ensures carts == old(carts) && orders == old(orders)
    {
      for i := 0 to |res|
        invariant products == ReserveAll(old(products), res[..i])
        invariant carts == old(carts) && orders == old(orders)
      {
        assert res[..i + 1][..i] == res[..i];
        var r := res[i];
        if r.productId in products {
          var p := products[r.productId];
          products := products[r.productId := p.(stockQuantity := Shift(p.stockQuantity, -r.quantity))];
        }
      }
      assert res[..|res|] == res;
    }

    /** `restoreStock`: add each quantity back to its product's stock. */
    method RestoreStock(res: seq<Reservation>)
      modifies this
      ensures products == RestoreAll(old(products), res)
      ensures carts == old(carts) && orders == old(orders)
    {
      for i := 0 to |res|
        invariant products == RestoreAll(old(products), res[..i])
        invariant carts == old(carts) && orders == old(orders)
      {
        assert res[..i + 1][..i] == res[..i];
        var r := res[i];
        if r.productId in products {
          var p := products[r.productId];
          products := products[r.productId := p.(stockQuantity := Shift(p.stockQuantity, r.quantity))];
        }
      }
      assert res[..|res|] == res;
    }

    /** POST /create-checkout for `user`. `session` is the id of the checkout
        session the payment processor opens, or None when that call fails. */
    method CreateCheckout(user: UserId, email: string, session: Option<SessionId>) returns (reply: Reply<CheckoutData>)
      requires Valid()
      modifies this
      ensures Valid()
      ensures carts == old(carts)
      // an absent or empty cart: 400, nothing written
      ensures old(Snapshot(user)).None? || old(Snapshot(user)).value == [] ==>
        && reply == Reply(BAD_REQUEST, ErrorResponse("INVALID_DATA", "Cart is empty. Add items to cart before creating order.", None))
        && products == old(products) && orders == old(orders)
      // a failing item: 422 with the first recorded error, nothing written
      ensures old(Snapshot(user)).Some? && CartErrors(old(Snapshot(user)).value) != [] ==>
        var e := CartErrors(old(Snapshot(user)).value)[0];
        && reply == Reply(UNPROCESSABLE_ENTITY, ErrorResponse(e.code, e.details, None))
        && products == old(products) && orders == old(orders)
      // otherwise one new pending order with the frozen lines, and the stock reserved
      ensures old(Snapshot(user)).Some? && old(Snapshot(user)).value != [] && CartErrors(old(Snapshot(user)).value) == [] ==>
        var items := old(Snapshot(user)).value;
        && (forall i :: 0 <= i < |items| ==> items[i].product.Some?)
        && orders == old(orders) + [PlacedOrder(|old(orders)|, user, email, items, session)]
        && products == ReserveAll(old(products), ReservationList(items))
        && reply == PlacedReply(PlacedOrder(|old(orders)|, user, email, items, session), session)
    {
      var snapshot := Snapshot(user);
      if snapshot.None? || |snapshot.value| == 0 {
        reply := Reply(BAD_REQUEST, ErrorResponse("INVALID_DATA", "Cart is empty. Add items to cart before creating order.", None));
        return;
      }
      var items := snapshot.value;
      var errors, total := ValidateCart(items);
      if |errors| > 0 {
        reply := Reply(UNPROCESSABLE_ENTITY, ErrorResponse(errors[0].code, errors[0].details, None));
        return;
      }
      reply := PlaceOrder(user, email, items, total, session);
    }

    /** The writes of a checkout that passed validation: the pending order and
        its lines, the stock reservation, then the session id once the payment
        processor has opened a session. */
    method PlaceOrder(user: UserId, email: string, items: seq<CartItem>, total: nat, session: Option<SessionId>)
      returns (reply: Reply<CheckoutData>)
      requires Valid() && CartErrors(items) == [] && total == ValidTotal(items)
      modifies this
      ensures Valid()
      ensures carts == old(carts)
      ensures forall i :: 0 <= i < |items| ==> items[i].product.Some?
      ensures orders == old(orders) + [PlacedOrder(|old(orders)|, user, email, items, session)]
      ensures products == ReserveAll(old(products), ReservationList(items))
      ensures reply == PlacedReply(PlacedOrder(|old(orders)|, user, email, items, session), session)
    {
      CheckoutTotal(items);
      var id := |orders|;
      // createOrder and createOrderItems: a pending order with no session yet
      var order := Order(id, Some(user), email, FormatCents(total), Pending, PaymentPending, None, None, OrderItems(items));
      AppendOrderValid(orders, order);
      orders := orders + [order];
      ReserveStock(ReservationList(items));
      ApplyAllKeepsIds(old(products), ReservationList(items), -1);
      if session.None? {
        // the order and the reservation stay, without a session id
        reply := Reply(INTERNAL_SERVER_ERROR, ErrorResponse("INTERNAL_SERVER_ERROR", "Failed to create order", None));
        return;
      }
      var bound := order.(checkoutSessionId := session);
      ReplaceOrderValid(orders, id, bound);
      orders := orders[id := bound];
      assert orders == old(orders) + [bound];
      reply := Reply(OK, SuccessResponse(CheckoutData(bound, session.value), "Order created successfully"));
    }

    /** GET /:id: an order is shown only to its owner; someone else's order
        reads as missing. */
    function GetOrder(id: nat, requester: UserId): (reply: Reply<Order>)
      reads this
      ensures reply.status == OK <==> id < |orders| && orders[id].userId == Some(requester)
      ensures reply.status == OK ==> reply.body == SuccessResponse(orders[id], "Order details retrieved successfully")
      ensures reply.status != OK ==> reply == Reply(NOT_FOUND, ErrorResponse("NOT_FOUND", "Order not found", None))
    {
      if id >= |orders| || orders[id].userId != Some(requester) then
        Reply(NOT_FOUND, ErrorResponse("NOT_FOUND", "Order not found", None))
      else Reply(OK, SuccessResponse(orders[id], "Order details retrieved successfully"))
    }
  }
}
