/**
 * The checkout amounts of the order summary: the subtotal of the product
 * list, the 18% GST on the discounted subtotal, the amount to pay and that
 * amount in paise for the payment gateway. Prices are exact reals, so the
 * rounding error of floating-point numbers is not part of this model.
 */
module Amounts {

  /** A product line in the cart: its id, unit price and quantity. */
  datatype Product = Product(id: int, price: real, quantity: int)

  /** The GST rate applied to the discounted subtotal. */
  const GstRate: real := 0.18

  /** What one product line contributes to the subtotal. */
  function LineAmount(p: Product): real {
    p.price * p.quantity as real
  }

  /**
   * The subtotal, accumulated from the left with an initial value of 0,
   * the way a `reduce` over the product list does it.
   */
  function Subtotal(ps: seq<Product>): real {
    if ps == [] then 0.0 else Subtotal(ps[..|ps| - 1]) + LineAmount(ps[|ps| - 1])
  }

  /** An independent definition of the same sum, taken from the front of the list. */
  function SumOfLines(ps: seq<Product>): real {
    if ps == [] then 0.0 else LineAmount(ps[0]) + SumOfLines(ps[1..])
  }

  /** Every price and every quantity in the list is non-negative. */
  predicate NonNegativeLines(ps: seq<Product>) {
    forall i :: 0 <= i < |ps| ==> ps[i].price >= 0.0 && ps[i].quantity >= 0
  }

  /** The subtotal of two lists one after the other is the sum of their subtotals. */
  lemma {:induction false} SubtotalAppend(a: seq<Product>, b: seq<Product>)
    ensures Subtotal(a + b) == Subtotal(a) + Subtotal(b)
  {
    if b == [] {
      assert a + b == a;
    } else {
      var c := b[..|b| - 1];
      assert (a + b)[..|a + b| - 1] == a + c;
      assert (a + b)[|a + b| - 1] == b[|b| - 1];
      SubtotalAppend(a, c);
    }
  }

  /** The subtotal is the sum of price times quantity over all lines, in any grouping. */
  lemma {:induction false} SubtotalIsSumOfLines(ps: seq<Product>)
    ensures Subtotal(ps) == SumOfLines(ps)
  {
    if ps != [] {
      assert ps == [ps[0]] + ps[1..];
      SubtotalAppend([ps[0]], ps[1..]);
      assert [ps[0]][..0] == [];
      SubtotalIsSumOfLines(ps[1..]);
    }
  }

  /** With non-negative prices and quantities the subtotal is non-negative. */
  lemma {:induction false} SubtotalNonNegative(ps: seq<Product>)
    requires NonNegativeLines(ps)
    ensures Subtotal(ps) >= 0.0
  {
    if ps != [] {
      var last := ps[|ps| - 1];
      assert NonNegativeLines(ps[..|ps| - 1]);
      SubtotalNonNegative(ps[..|ps| - 1]);
      assert last.price >= 0.0 && last.quantity as real >= 0.0;
      assert LineAmount(last) >= 0.0;
    }
  }

  /** The GST: 18% of the subtotal less the discount. */
  function Gst(ps: seq<Product>, discount: real): (r: real)
    ensures r >= 0.0 <==> discount <= Subtotal(ps)
    ensures discount <= Subtotal(ps) ==> r <= Subtotal(ps) - discount
  {
    (Subtotal(ps) - discount) * GstRate
  }

  /** The amount to pay: the subtotal less the discount, plus the GST. */
  function Total(ps: seq<Product>, discount: real): (r: real)
    ensures r == (Subtotal(ps) - discount) * 1.18
    ensures r >= 0.0 <==> discount <= Subtotal(ps)
    ensures discount <= Subtotal(ps) ==> Subtotal(ps) - discount <= r
  {
    Subtotal(ps) - discount + Gst(ps, discount)
  }

  /**
   * JavaScript's `Math.round`: the nearest integer, halves rounded up
   * (towards positive infinity).
   */
  function Round(x: real): (r: int)
    ensures r as real - 0.5 <= x < r as real + 0.5
  {
    (x + 0.5).Floor
  }

  /** Only one integer lies within the half-open half-unit interval around x. */
  lemma RoundIsUnique(x: real, n: int)
    requires n as real - 0.5 <= x < n as real + 0.5
    ensures Round(x) == n
  {
  }

  /** The amount to pay in paise, as handed to the payment gateway. */
  function Paise(ps: seq<Product>, discount: real): (r: int)
    ensures r as real - 0.5 <= Total(ps, discount) * 100.0 < r as real + 0.5
    ensures discount <= Subtotal(ps) ==> r >= 0
  {
    Round(Total(ps, discount) * 100.0)
  }

  /** One product at 500 with quantity 2 and no coupon: 118000 paise. */
  lemma PaiseWithoutCoupon()
    ensures Subtotal([Product(1, 500.0, 2)]) == 1000.0
    ensures Gst([Product(1, 500.0, 2)], 0.0) == 180.0
    ensures Total([Product(1, 500.0, 2)], 0.0) == 1180.0
    ensures Paise([Product(1, 500.0, 2)], 0.0) == 118000
  {
    var ps := [Product(1, 500.0, 2)];
    assert ps[..0] == [];
    RoundIsUnique(Total(ps, 0.0) * 100.0, 118000);
  }

  /** The same product with the discount of 100: 106200 paise. */
  lemma PaiseWithCoupon()
    ensures Gst([Product(1, 500.0, 2)], 100.0) == 162.0
    ensures Total([Product(1, 500.0, 2)], 100.0) == 1062.0
    ensures Paise([Product(1, 500.0, 2)], 100.0) == 106200
  {
    var ps := [Product(1, 500.0, 2)];
    assert ps[..0] == [];
    RoundIsUnique(Total(ps, 100.0) * 100.0, 106200);
  }

  /**
   * Nothing bounds the discount by the subtotal: a product at 50 with the
   * discount of 100 gives a negative amount of -5900 paise.
   */
  lemma PaiseCanBeNegative()
    ensures Total([Product(1, 50.0, 1)], 100.0) == -59.0
    ensures Paise([Product(1, 50.0, 1)], 100.0) == -5900
  {
    var ps := [Product(1, 50.0, 1)];
    assert ps[..0] == [];
    RoundIsUnique(Total(ps, 100.0) * 100.0, -5900);
  }
}
