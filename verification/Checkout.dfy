/**
 * The order summary component: the fields it updates in place and its three
 * actions: applying the coupon, placing the order (opening the payment
 * gateway) and the gateway's success handler.
 */
module Checkout {
  import opened Wrappers
  import opened Amounts
  import opened Coupon
  import opened Orders
  import opened Trace

  /** What the component keeps about a completed payment (the date is not modelled). */
  datatype OrderDetails = OrderDetails(paymentId: string, amount: real)

  class OrderSummary {
    var products: seq<Product>
    var selectedAddress: Option<Address>
    var couponCode: string
    var discount: real
    var couponApplied: bool
    var orderConfirmed: bool
    var orderDetails: Option<OrderDetails>
    var orderId: Option<int>
    /** The gateway checkouts opened so far, each with the amounts its handler captured. */
    var gateways: seq<GatewaySession>
    /** The external effects so far, in the order they happened. */
    var events: seq<Event>

    /** The two coupon fields as one value. */
    function CouponNow(): CouponState
      reads this
    {
      CouponState(discount, couponApplied)
    }

    /** The discount is 0 or 100 in step with the applied flag, and the trace keeps the checkout order. */
    ghost predicate Valid()
      reads this
    {
      Consistent(CouponNow()) && WellFormedTrace(events)
    }

    constructor (products: seq<Product>, selectedAddress: Option<Address>)
      ensures Valid()
      ensures this.products == products && this.selectedAddress == selectedAddress
      ensures couponCode == "" && CouponNow() == NoCoupon
      ensures !orderConfirmed && orderDetails == None && orderId == None
      ensures gateways == [] && events == []
    {
      this.products := products;
      this.selectedAddress := selectedAddress;
      couponCode := "";
      discount := 0.0;
      couponApplied := false;
      orderConfirmed := false;
      orderDetails := None;
      orderId := None;
      gateways := [];
      events := [];
    }

    /**
     * Applies the coupon code typed in: the discount of 100 is granted when
     * the code matches and no coupon is applied yet; otherwise the invalid
     * code notice is raised and nothing else changes.
     */
    method ApplyCoupon()
      requires Valid()
      modifies this`discount, this`couponApplied, this`events
      ensures Valid()
      ensures CouponNow() == CouponStep(old(CouponNow()), couponCode).0
      ensures events == old(events) + (if CouponStep(old(CouponNow()), couponCode).1 then [CouponRejected] else [])
    {
      CouponStepKeepsConsistent(CouponNow(), couponCode);
      if Accepts(couponCode) && !couponApplied {
        discount := CouponDiscount;
        couponApplied := true;
      } else {
        UnorderedEventWellFormed(CouponRejected);
        WellFormedAppend(events, [CouponRejected]);
        events := events + [CouponRejected];
      }
    }

    /**
     * Opens a gateway checkout for the current amount in paise; its success
     * handler keeps the amount in rupees and in paise as they are now.
     */
    method PlaceOrder()
      requires Valid()
      modifies this`gateways, this`events
      ensures Valid()
      ensures gateways == old(gateways) + [GatewaySession(Total(products, discount), Paise(products, discount))]
      ensures events == old(events) + [GatewayOpened(Paise(products, discount))]
    {
      var userPayAmount := Total(products, discount);
      var amount := Paise(products, discount);
      gateways := gateways + [GatewaySession(userPayAmount, amount)];
      UnorderedEventWellFormed(GatewayOpened(amount));
      WellFormedAppend(events, [GatewayOpened(amount)]);
      events := events + [GatewayOpened(amount)];
    }

    /**
     * The success handler of gateway checkout k, given the payment id the
     * gateway reports, the cart the cart service returns and the order
     * service's answer (None when it never answers). It saves the snapshots,
     * empties the product list, builds the order request (from the emptied
     * list), submits it and, on the answer, records the order id, confirms,
     * clears the cart and saves the payment.
     */
    method OnPaymentSuccess(k: nat, paymentId: string, cart: Option<Cart>, response: Option<OrderResponse>)
      requires Valid() && k < |gateways|
      modifies this`products, this`orderId, this`orderConfirmed, this`orderDetails, this`events
      ensures Valid()
      ensures products == []
      ensures events == old(events) + HandlerEvents(old(products), selectedAddress, paymentId, gateways[k], cart, response)
      ensures var answered := UsableCart(cart) && selectedAddress.Some? && response.Some?;
              && orderId == (if answered then Some(response.value.orderId) else old(orderId))
              && orderConfirmed == (answered || old(orderConfirmed))
              && orderDetails == (if answered then Some(OrderDetails(paymentId, gateways[k].amountPaise as real / 100.0))
                                  else old(orderDetails))
    {
      var session := gateways[k];
      ghost var expected := HandlerEvents(products, selectedAddress, paymentId, session, cart, response);
      HandlerEventsWellFormed(products, selectedAddress, paymentId, session, cart, response);
      WellFormedAppend(events, expected);

      events := events + [PaymentSucceeded(paymentId), OrderSnapshotSaved(products), AddressSnapshotSaved(selectedAddress)];
      products := [];
      var request := CreateOrderRequest(cart, selectedAddress, products);
      if request.Err? {
        // the awaited request rejects and the rest of the handler never runs
        assert events == old(events) + expected;
        return;
      }
      events := events + [OrderSubmitted(request.value)];
      if response.None? {
        assert events == old(events) + expected;
        return;
      }
      var answer := response.value;
      orderId := Some(answer.orderId);
      orderConfirmed := true;
      events := events + [OrderResponded(answer.orderId), OrderConfirmed, CartCleared];
      orderDetails := Some(OrderDetails(paymentId, session.amountPaise as real / 100.0));
      var record := PaymentRecord("razorpay", orderDetails.value.paymentId, session.userPayAmount, answer.orderId, "Success");
      events := events + [PaymentSaved(record)];
      assert events == old(events) + expected;
    }
  }

  /**
   * One product at 500 with quantity 2 and an accepted code (such as
   * "sale100") applied twice: the second attempt is rejected, the discount
   * stays 100 and the gateway is opened for 106200 paise.
   */
  method CouponScenario(code: string) returns (discount: real, rejections: nat, paise: int)
    requires Accepts(code)
    ensures discount == 100.0 && rejections == 1 && paise == 106200
  {
    var ps := [Product(1, 500.0, 2)];
    var summary := new OrderSummary(ps, Some(Address(3)));
    summary.couponCode := code;
    summary.ApplyCoupon();
    assert summary.CouponNow() == CouponState(100.0, true) && summary.events == [];
    summary.ApplyCoupon();
    assert summary.events == [CouponRejected];
    discount := summary.discount;
    rejections := |summary.events|;
    PaiseWithCoupon();
    summary.PlaceOrder();
    paise := summary.gateways[0].amountPaise;
  }

  /**
   * A paid checkout whose cart has id 7 and whose order comes back as order
   * 42: the payment saved names order 42; with a cart whose id is 0 no
   * payment is saved.
   */
  method HandlerScenario() returns (saved: PaymentRecord, savedWithBadCart: bool)
    ensures saved == PaymentRecord("razorpay", "pay_1", 1180.0, 42, "Success")
    ensures !savedWithBadCart
  {
    var ps := [Product(1, 500.0, 2)];
    PaiseWithoutCoupon();
    var summary := new OrderSummary(ps, Some(Address(3)));
    summary.PlaceOrder();
    summary.PlaceOrder();
    summary.OnPaymentSuccess(0, "pay_1", Some(Cart(Some(7))), Some(OrderResponse(42)));
    var e := summary.events;
    saved := e[|e| - 1].record;
    summary.OnPaymentSuccess(1, "pay_2", Some(Cart(Some(0))), Some(OrderResponse(43)));
    savedWithBadCart := summary.events[|summary.events| - 1].PaymentSaved?;
  }
}
