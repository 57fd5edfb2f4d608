/**
 * The observable steps of checkout as a trace of abstract events: the
 * coupon notice, opening the payment gateway, and what the gateway's success
 * handler does (local snapshots, the order call, its response, the
 * confirmation, clearing the cart and saving the payment). The calls into
 * the gateway SDK, the services, the store and the browser storage appear
 * only as these events.
 */
module Trace {
  import opened Wrappers
  import opened Amounts
  import opened Orders

  /** What the payment service is asked to save. */
  datatype PaymentRecord = PaymentRecord(
    paymentType: string,
    transactionId: string,
    amount: real,
    orderId: int,
    status: string)

  /** The order service's answer to an order request. */
  datatype OrderResponse = OrderResponse(orderId: int)

  /**
   * One opened gateway checkout, with the two amounts its success handler
   * captured when the checkout was opened: the amount in rupees and in paise.
   */
  datatype GatewaySession = GatewaySession(userPayAmount: real, amountPaise: int)

  datatype Event =
    | CouponRejected                                // the "Invalid coupon code." alert
    | GatewayOpened(amountPaise: int)               // the gateway checkout is opened for this amount
    | PaymentSucceeded(paymentId: string)           // the gateway's success handler starts
    | OrderSnapshotSaved(products: seq<Product>)    // the product list is kept in local storage
    | AddressSnapshotSaved(address: Option<Address>) // the address is kept in local storage
    | OrderSubmitted(request: OrderRequest)         // the order service is called
    | OrderResponded(orderId: int)                  // the order service's response arrives
    | OrderConfirmed                                // the confirmation signal is set
    | CartCleared                                   // the cart store is told to clear the cart
    | PaymentSaved(record: PaymentRecord)           // the payment service is called

  /** The payment record saved for an order created after a gateway payment. */
  function PaymentRecordFor(paymentId: string, session: GatewaySession, orderId: int): PaymentRecord {
    PaymentRecord("razorpay", paymentId, session.userPayAmount, orderId, "Success")
  }

  /**
   * The events of one run of the gateway's success handler. The product list
   * is emptied before the order request is built, so the request is built
   * from an empty list. A request that cannot be built ends the run after the
   * snapshots; an order call that never answers ends it after the call.
   */
  function HandlerEvents(
    ps: seq<Product>, address: Option<Address>, paymentId: string, session: GatewaySession,
    cart: Option<Cart>, response: Option<OrderResponse>): (r: seq<Event>)
    ensures 3 <= |r| && r[0] == PaymentSucceeded(paymentId)
    ensures r[1] == OrderSnapshotSaved(ps) && r[2] == AddressSnapshotSaved(address)
    ensures 3 < |r| <==> UsableCart(cart) && address.Some?
    ensures 3 < |r| ==> r[3] == OrderSubmitted(OrderRequest(cart.value.cartId.value, address.value.addressId, []))
    ensures forall i :: 0 <= i < |r| && r[i].OrderSubmitted? ==> i == 3
    ensures forall i :: 0 <= i < |r| && r[i].PaymentSaved? ==>
              i == 7 && response.Some? && r[i].record == PaymentRecordFor(paymentId, session, response.value.orderId)
    ensures |r| == 8 <==> UsableCart(cart) && address.Some? && response.Some?
    ensures 3 < |r| && response.None? ==> |r| == 4
    ensures |r| == 8 ==> r[4..] == [OrderResponded(response.value.orderId), OrderConfirmed, CartCleared,
                                     PaymentSaved(PaymentRecordFor(paymentId, session, response.value.orderId))]
  {
    var start := [PaymentSucceeded(paymentId), OrderSnapshotSaved(ps), AddressSnapshotSaved(address)];
    match CreateOrderRequest(cart, address, [])
    case Err(_) => start
    case Ok(request) =>
      match response
      case None => start + [OrderSubmitted(request)]
      case Some(answer) =>
        start + [OrderSubmitted(request), OrderResponded(answer.orderId), OrderConfirmed, CartCleared,
                 PaymentSaved(PaymentRecordFor(paymentId, session, answer.orderId))]
  }

  /** The kinds of events whose order the checkout must respect. */
  datatype Step = Paid | Submitted | Responded | Confirmed | Cleared | Saved

  predicate IsStep(e: Event, s: Step) {
    match s
    case Paid => e.PaymentSucceeded?
    case Submitted => e.OrderSubmitted?
    case Responded => e.OrderResponded?
    case Confirmed => e.OrderConfirmed?
    case Cleared => e.CartCleared?
    case Saved => e.PaymentSaved?
  }

  /** How many events of one kind a trace holds. */
  function Count(t: seq<Event>, s: Step): nat {
    if t == [] then 0 else (if IsStep(t[0], s) then 1 else 0) + Count(t[1..], s)
  }

  /**
   * No more orders submitted than gateway payments succeeded, no more
   * responses than submissions, and no more confirmations, cart clears or
   * payment saves than responses.
   */
  predicate Balanced(t: seq<Event>) {
    Count(t, Submitted) <= Count(t, Paid) &&
    Count(t, Responded) <= Count(t, Submitted) &&
    Count(t, Confirmed) <= Count(t, Responded) &&
    Count(t, Cleared) <= Count(t, Responded) &&
    Count(t, Saved) <= Count(t, Responded)
  }

  /**
   * Every prefix of the trace is balanced: at every moment each order
   * submission is matched by an earlier gateway payment, and each
   * confirmation, cart clear and payment save by an earlier order response.
   */
  predicate Ordered(t: seq<Event>) {
    forall n :: 0 <= n <= |t| ==> Balanced(t[..n])
  }

  /** Every payment saved names the order id of an earlier order response. */
  predicate SavesFollowResponses(t: seq<Event>) {
    forall i :: 0 <= i < |t| && t[i].PaymentSaved? ==>
      exists j :: 0 <= j < i && t[j] == OrderResponded(t[i].record.orderId)
  }

  /** Every order request submitted has an empty list of items. */
  predicate SubmittedItemsEmpty(t: seq<Event>) {
    forall i :: 0 <= i < |t| && t[i].OrderSubmitted? ==> t[i].request.items == []
  }

  /** The ordering guarantees of a checkout trace. */
  predicate WellFormedTrace(t: seq<Event>) {
    Ordered(t) && SavesFollowResponses(t) && SubmittedItemsEmpty(t)
  }

  /** Counting distributes over concatenation. */
  lemma {:induction false} CountAppend(a: seq<Event>, b: seq<Event>, s: Step)
    ensures Count(a + b, s) == Count(a, s) + Count(b, s)
  {
    if a == [] {
      assert a + b == b;
    } else {
      assert (a + b)[1..] == a[1..] + b;
      CountAppend(a[1..], b, s);
    }
  }

  /** Two balanced traces one after the other are balanced. */
  lemma BalancedAppend(a: seq<Event>, b: seq<Event>)
    requires Balanced(a) && Balanced(b)
    ensures Balanced(a + b)
  {
    forall s: Step ensures Count(a + b, s) == Count(a, s) + Count(b, s) {
      CountAppend(a, b, s);
    }
  }

  /** Two ordered traces one after the other form an ordered trace. */
  lemma OrderedAppend(a: seq<Event>, b: seq<Event>)
    requires Ordered(a) && Ordered(b)
    ensures Ordered(a + b)
  {
    forall n | 0 <= n <= |a + b| ensures Balanced((a + b)[..n]) {
      if n <= |a| {
        assert (a + b)[..n] == a[..n];
      } else {
        assert (a + b)[..n] == a[..|a|] + b[..n - |a|];
        BalancedAppend(a[..|a|], b[..n - |a|]);
      }
    }
  }

  /** Appending a trace that keeps the guarantees to one that does keeps them. */
  lemma WellFormedAppend(a: seq<Event>, b: seq<Event>)
    requires WellFormedTrace(a) && WellFormedTrace(b)
    ensures WellFormedTrace(a + b)
  {
    OrderedAppend(a, b);
    var t := a + b;
    forall i | 0 <= i < |t| && t[i].PaymentSaved?
      ensures exists j :: 0 <= j < i && t[j] == OrderResponded(t[i].record.orderId)
    {
      if i < |a| {
        var j :| 0 <= j < i && a[j] == OrderResponded(a[i].record.orderId);
        assert t[j] == a[j];
      } else {
        assert b[i - |a|] == t[i];
        var j :| 0 <= j < i - |a| && b[j] == OrderResponded(b[i - |a|].record.orderId);
        assert t[j + |a|] == b[j];
      }
    }
    forall i | 0 <= i < |t| && t[i].OrderSubmitted? ensures t[i].request.items == [] {
      if i >= |a| {
        assert t[i] == b[i - |a|];
      }
    }
  }

  /** A trace of one event that is not one of the ordered steps keeps the guarantees. */
  lemma UnorderedEventWellFormed(e: Event)
    requires forall s: Step :: !IsStep(e, s)
    ensures WellFormedTrace([e])
  {
    assert !IsStep(e, Saved) && !IsStep(e, Submitted);
    assert forall i :: 0 <= i < |[e]| ==> [e][i] == e;
    forall s: Step ensures Count([e], s) == 0 {
      assert [e][1..] == [];
    }
    forall n | 0 <= n <= 1 ensures Balanced([e][..n]) {
      assert n == 0 ==> [e][..n] == [];
      assert n == 1 ==> [e][..n] == [e];
    }
  }

  /** Where each ordered step stands in a run of the success handler. */
  function Position(s: Step): nat {
    match s
    case Paid => 0
    case Submitted => 3
    case Responded => 4
    case Confirmed => 5
    case Cleared => 6
    case Saved => 7
  }

  /** The trace holds each ordered step at most once, and only at its position. */
  predicate HandlerShape(r: seq<Event>) {
    forall i, s :: 0 <= i < |r| ==> (IsStep(r[i], s) <==> i == Position(s))
  }

  /** In a trace of handler shape, a prefix of length n holds a step once if it reaches its position. */
  lemma {:induction false} HandlerShapeCounts(r: seq<Event>, n: nat, s: Step)
    requires HandlerShape(r) && n <= |r|
    ensures Count(r[..n], s) == if Position(s) < n then 1 else 0
  {
    if n == 0 {
      assert r[..n] == [];
    } else {
      assert r[..n] == r[..n - 1] + [r[n - 1]];
      CountAppend(r[..n - 1], [r[n - 1]], s);
      HandlerShapeCounts(r, n - 1, s);
      assert [r[n - 1]][1..] == [];
      assert IsStep(r[n - 1], s) <==> n - 1 == Position(s);
    }
  }

  /** A trace of handler shape is ordered, because the positions follow the required order. */
  lemma HandlerShapeOrdered(r: seq<Event>)
    requires HandlerShape(r)
    ensures Ordered(r)
  {
    forall n | 0 <= n <= |r| ensures Balanced(r[..n]) {
      forall s: Step ensures Count(r[..n], s) == if Position(s) < n then 1 else 0 {
        HandlerShapeCounts(r, n, s);
      }
    }
  }

  /** Each run of the success handler keeps the guarantees. */
  lemma HandlerEventsWellFormed(
    ps: seq<Product>, address: Option<Address>, paymentId: string, session: GatewaySession,
    cart: Option<Cart>, response: Option<OrderResponse>)
    ensures WellFormedTrace(HandlerEvents(ps, address, paymentId, session, cart, response))
  {
    var r := HandlerEvents(ps, address, paymentId, session, cart, response);
    assert HandlerShape(r);
    HandlerShapeOrdered(r);
    if 7 < |r| {
      assert r[4] == OrderResponded(response.value.orderId);
    }
  }
}
