/** The payment webhook (apps/api/src/routes/stripe/stripe.route.ts): it checks
    the signature header, lets the payment processor's library verify the
    event, and reconciles the order the event's checkout session belongs to. */
module Stripe {
  import opened Wrappers
  import opened Schemas
  import opened ApiUtils
  import opened Orders

  /** The part of a checkout session the handlers read. */
  datatype CheckoutSession = CheckoutSession(id: SessionId, paymentMethodTypes: Option<seq<string>>)

  /** A verified event: its type and its checkout session. */
  datatype Event = Event(kind: string, session: CheckoutSession)

  /** `{received: true}`, the body of an accepted webhook. */
  datatype Received = Received(received: bool)

  /** `session.payment_method_types?.[0] || "card"`. */
  function PaymentMethodLabel(types: Option<seq<string>>): (name: string)
    ensures name != ""
    ensures types.Some? && types.value != [] && types.value[0] != "" ==> name == types.value[0]
    ensures !(types.Some? && types.value != [] && types.value[0] != "") ==> name == "card"
  {
    if types.Some? && |types.value| > 0 && types.value[0] != "" then types.value[0] else "card"
  }

  /** The first order bound to the checkout session, if any. */
  function FindBySession(orders: seq<Order>, sid: SessionId): (k: Option<nat>)
    ensures k.Some? ==> k.value < |orders| && orders[k.value].checkoutSessionId == Some(sid)
    ensures k.Some? ==> forall j :: 0 <= j < k.value ==> orders[j].checkoutSessionId != Some(sid)
    ensures k.None? ==> forall j :: 0 <= j < |orders| ==> orders[j].checkoutSessionId != Some(sid)
  {
    if orders == [] then None
    else if orders[0].checkoutSessionId == Some(sid) then Some(0)
    else match FindBySession(orders[1..], sid)
      case None => None
      case Some(k) => Some(k + 1)
  }

  /** A paid order: completed, paid, with its payment method. */
  function Complete(o: Order, via: string): (r: Order)
    ensures r.status == Completed && r.paymentStatus == Paid && r.paymentMethod == Some(via)
    ensures r == o.(status := r.status, paymentStatus := r.paymentStatus, paymentMethod := r.paymentMethod)
  {
    o.(status := Completed, paymentStatus := Paid, paymentMethod := Some(via))
  }

  /** A failed order: cancelled, payment failed; the payment method is left as it was. */
  function Cancel(o: Order): (r: Order)
    ensures r.status == Cancelled && r.paymentStatus == Failed
    ensures r == o.(status := r.status, paymentStatus := r.paymentStatus)
  {
    o.(status := Cancelled, paymentStatus := Failed)
  }

  /** `if (order.userId) clearCartItemsByUserId(order.userId)`: the owner's cart
      is emptied, when the order has a (non-empty) owner who has a cart. */
  function ClearCart(carts: map<UserId, seq<CartLine>>, owner: Option<UserId>): (r: map<UserId, seq<CartLine>>)
    ensures r.Keys == carts.Keys
    ensures forall u :: u in carts ==>
      r[u] == if owner == Some(u) && u != "" then [] else carts[u]
  {
    if owner.Some? && owner.value != "" && owner.value in carts then carts[owner.value := []] else carts
  }

  /** The contents of the store. */
  datatype Store = Store(products: Catalogue, carts: map<UserId, seq<CartLine>>, orders: seq<Order>)

  function StateOf(shop: Shop): Store
    reads shop
  {
    Store(shop.products, shop.carts, shop.orders)
  }

  /** The store after a completed checkout session: the session's order is
      completed and paid with the session's payment method, every other order
      is as it was, the owner's cart is emptied, and stock is untouched. */
  function AfterSuccess(st: Store, session: CheckoutSession): (r: Store)
    ensures r.products == st.products
    ensures FindBySession(st.orders, session.id).None? ==> r == st
    ensures FindBySession(st.orders, session.id).Some? ==>
      var k := FindBySession(st.orders, session.id).value;
      && |r.orders| == |st.orders|
      && (forall j :: 0 <= j < |st.orders| && j != k ==> r.orders[j] == st.orders[j])
      && r.orders[k].status == Completed && r.orders[k].paymentStatus == Paid
      && r.orders[k].paymentMethod == Some(PaymentMethodLabel(session.paymentMethodTypes))
      && r.orders[k] == st.orders[k].(status := Completed, paymentStatus := Paid, paymentMethod := r.orders[k].paymentMethod)
      && r.carts.Keys == st.carts.Keys
      && (forall u :: u in st.carts ==>
            r.carts[u] == if st.orders[k].userId == Some(u) && u != "" then [] else st.carts[u])
  {
    match FindBySession(st.orders, session.id)
    case None => st
    case Some(k) =>
      st.(orders := st.orders[k := Complete(st.orders[k], PaymentMethodLabel(session.paymentMethodTypes))],
          carts := ClearCart(st.carts, st.orders[k].userId))
  }

  /** The store after an expired session or a failed asynchronous payment: the
      session's order is cancelled with a failed payment, every other order is
      as it was, each product gets back the quantity the order's lines name for
      it (a null stock stays null), and carts are untouched. */
  function AfterFailure(st: Store, session: CheckoutSession): (r: Store)
    ensures r.carts == st.carts
    ensures FindBySession(st.orders, session.id).None? ==> r == st
    ensures FindBySession(st.orders, session.id).Some? ==>
      var k := FindBySession(st.orders, session.id).value;
      && |r.orders| == |st.orders|
      && (forall j :: 0 <= j < |st.orders| && j != k ==> r.orders[j] == st.orders[j])
      && r.orders[k] == st.orders[k].(status := Cancelled, paymentStatus := Failed)
      && r.products.Keys == st.products.Keys
      && (forall pid :: pid in st.products ==>
            r.products[pid] == st.products[pid].(stockQuantity :=
              Shift(st.products[pid].stockQuantity, QuantityFor(Restock(st.orders[k].items), pid))))
  {
    match FindBySession(st.orders, session.id)
    case None => st
    case Some(k) =>
      ApplyAllStock(st.products, Restock(st.orders[k].items), 1);
      st.(orders := st.orders[k := Cancel(st.orders[k])],
          products := RestoreAll(st.products, Restock(st.orders[k].items)))
  }

  /** `handleCheckoutSuccess`: the session's order becomes completed and paid and
      its owner's cart is emptied; stock is untouched. An unknown session
      changes nothing. */
  method HandleCheckoutSuccess(shop: Shop, session: CheckoutSession)
    requires shop.Valid()
    modifies shop
    ensures shop.Valid()
    ensures StateOf(shop) == AfterSuccess(old(StateOf(shop)), session)
  {
    var found := FindBySession(shop.orders, session.id);
    if found.None? {
      return;
    }
    var k := found.value;
    var order := shop.orders[k];
    var paid := Complete(order, PaymentMethodLabel(session.paymentMethodTypes));
    ReplaceOrderValid(shop.orders, k, paid);
    shop.orders := shop.orders[k := paid];
    if order.userId.Some? && order.userId.value != "" && order.userId.value in shop.carts {
      shop.carts := shop.carts[order.userId.value := []];
    }
  }

  /** `handleCheckoutExpired` and `handleCheckoutCancelled` (the two have the
      same body): the session's order becomes cancelled with a failed payment,
      and every order line's quantity goes back into stock. There is no check
      of the order's current status. An unknown session changes nothing. */
  method HandleCheckoutFailed(shop: Shop, session: CheckoutSession)
    requires shop.Valid()
    modifies shop
    ensures shop.Valid()
    ensures StateOf(shop) == AfterFailure(old(StateOf(shop)), session)
  {
    var found := FindBySession(shop.orders, session.id);
    if found.None? {
      return;
    }
    var k := found.value;
    var order := shop.orders[k];
    ReplaceOrderValid(shop.orders, k, Cancel(order));
    shop.orders := shop.orders[k := Cancel(order)];
    ApplyAllStock(shop.products, Restock(order.items), 1);
    shop.RestoreStock(Restock(order.items));
  }

  const SessionCompleted := "checkout.session.completed"
  const SessionExpired := "checkout.session.expired"
  const SessionPaymentFailed := "checkout.session.async_payment_failed"

  /** Whether the event type has a handler. */
  predicate Handled(kind: string)
  {
    kind == SessionCompleted || kind == SessionExpired || kind == SessionPaymentFailed
  }

  /** POST /webhooks/stripe. `signature` is the signature header (None when
      absent); `verified` is the event the processor's library makes of the
      body and the signature, None when verification fails; `storeFault` says
      that the store raised an error inside the handler, which the handler
      rethrows (taken to happen before the handler writes anything). */
  method HandleWebhook(shop: Shop, signature: Option<string>, verified: Option<Event>, storeFault: bool)
    returns (r: Response<Received>)
    requires shop.Valid()
    modifies shop
    ensures shop.Valid()
    ensures signature.None? ==> r == RejectedByValidator && unchanged(shop)
    ensures signature == Some("") ==>
      r == Replied(Reply(BAD_REQUEST, ErrorResponse("BAD_REQUEST", "Missing Stripe signature in request headers", None)))
      && unchanged(shop)
    ensures signature.Some? && signature.value != "" && verified.None? ==>
      r == Replied(Reply(BAD_REQUEST, ErrorResponse("BAD_REQUEST", "Invalid webhook signature or payload", None)))
      && unchanged(shop)
    ensures signature.Some? && signature.value != "" && verified.Some? && storeFault && Handled(verified.value.kind) ==>
      r == Replied(Reply(BAD_REQUEST, ErrorResponse("BAD_REQUEST", "Invalid webhook signature or payload", None)))
      && unchanged(shop)
    ensures signature.Some? && signature.value != "" && verified.Some? && !(storeFault && Handled(verified.value.kind)) ==>
      r == Replied(Reply(OK, SuccessResponse(Received(true), "Webhook processed successfully")))
    ensures signature.Some? && signature.value != "" && verified.Some? && !(storeFault && Handled(verified.value.kind)) ==>
      var event := verified.value;
      StateOf(shop) == (if event.kind == SessionCompleted then AfterSuccess(old(StateOf(shop)), event.session)
                        else if event.kind == SessionExpired || event.kind == SessionPaymentFailed
                        then AfterFailure(old(StateOf(shop)), event.session)
                        else old(StateOf(shop)))
  {
    if signature.None? {
      return RejectedByValidator;
    }
    if signature.value == "" {
      return Replied(Reply(BAD_REQUEST, ErrorResponse("BAD_REQUEST", "Missing Stripe signature in request headers", None)));
    }
    if verified.None? {
      return Replied(Reply(BAD_REQUEST, ErrorResponse("BAD_REQUEST", "Invalid webhook signature or payload", None)));
    }
    var event := verified.value;
    if storeFault && Handled(event.kind) {
      return Replied(Reply(BAD_REQUEST, ErrorResponse("BAD_REQUEST", "Invalid webhook signature or payload", None)));
    }
    if event.kind == SessionCompleted {
      HandleCheckoutSuccess(shop, event.session);
    } else if event.kind == SessionExpired || event.kind == SessionPaymentFailed {
      HandleCheckoutFailed(shop, event.session);
    }
    r := Replied(Reply(OK, SuccessResponse(Received(true), "Webhook processed successfully")));
  }

  /** A checkout whose session then expires leaves every stock as it was
      before the checkout: the expiry gives back exactly what was reserved. */
  method CheckoutThenExpiry(shop: Shop, user: UserId, email: string, sid: SessionId)
    requires shop.Valid()
    requires shop.Snapshot(user).Some? && shop.Snapshot(user).value != []
    requires CartErrors(shop.Snapshot(user).value) == []
    requires forall i :: 0 <= i < |shop.orders| ==> shop.orders[i].checkoutSessionId != Some(sid)
    modifies shop
    ensures shop.Valid()
    ensures shop.products == old(shop.products)
    ensures |shop.orders| == |old(shop.orders)| + 1
    ensures shop.orders[|old(shop.orders)|].status == Cancelled
  {
    ghost var before := shop.products;
    ghost var items := shop.Snapshot(user).value;
    ghost var n := |shop.orders|;
    ValidTotalIsCartTotal(items);
    var reply := shop.CreateCheckout(user, email, Some(sid));
    ghost var placed := shop.orders;
    assert |placed| == n + 1 && placed[n].checkoutSessionId == Some(sid);
    assert placed[n].items == OrderItems(items);
    assert shop.products == ReserveAll(before, ReservationList(items));
    assert forall i :: 0 <= i < n ==> placed[i].checkoutSessionId != Some(sid) by {
      assert placed[..n] == old(shop.orders);
      assert forall i :: 0 <= i < n ==> placed[i] == placed[..n][i];
    }
    FindNew(placed, n, sid);
    HandleCheckoutFailed(shop, CheckoutSession(sid, None));
    RestockIsReservation(items);
    ReserveThenRestore(before, ReservationList(items));
  }

  /** The only order bound to a session is the one found. */
  lemma FindNew(orders: seq<Order>, n: nat, sid: SessionId)
    requires n < |orders| && orders[n].checkoutSessionId == Some(sid)
    requires forall i :: 0 <= i < n ==> orders[i].checkoutSessionId != Some(sid)
    ensures FindBySession(orders, sid) == Some(n)
  {
  }

  /** The same expiry event delivered twice restores the order's stock twice:
      nothing records that the order was already cancelled. */
  method RedeliveredExpiry(shop: Shop, signature: string, session: CheckoutSession)
    requires shop.Valid() && signature != ""
    requires FindBySession(shop.orders, session.id).Some?
    modifies shop
    ensures var k := FindBySession(old(shop.orders), session.id).value;
      forall pid :: pid in old(shop.products) ==>
        pid in shop.products &&
        shop.products[pid].stockQuantity
          == Shift(old(shop.products)[pid].stockQuantity, 2 * QuantityFor(Restock(old(shop.orders)[k].items), pid))
  {
    ghost var st0 := StateOf(shop);
    var k := FindBySession(shop.orders, session.id).value;
    ghost var res := Restock(shop.orders[k].items);
    var event := Event(SessionExpired, session);
    var first := HandleWebhook(shop, Some(signature), Some(event), false);
    assert StateOf(shop) == AfterFailure(st0, session);
    ghost var st1 := StateOf(shop);
    assert st1.orders == st0.orders[k := Cancel(st0.orders[k])];
    assert st1.products == RestoreAll(st0.products, res);
    FindNew(st1.orders, k, session.id);
    var second := HandleWebhook(shop, Some(signature), Some(event), false);
    assert StateOf(shop) == AfterFailure(st1, session);
    assert shop.products == RestoreAll(RestoreAll(st0.products, res), res);
    forall pid | pid in st0.products
      ensures pid in shop.products
      ensures shop.products[pid].stockQuantity == Shift(st0.products[pid].stockQuantity, 2 * QuantityFor(res, pid))
    {
      RestoreTwice(st0.products, res, pid);
      ApplyAllStock(st0.products, res, 1);
      ApplyAllStock(RestoreAll(st0.products, res), res, 1);
    }
  }
}
