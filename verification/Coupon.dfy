/**
 * The coupon check of the order summary: a code whose upper-case form is
 * `SALE100` grants a discount of 100, once per component instance.
 */
module Coupon {

  /** The one coupon code the component knows. */
  const CouponCode: string := "SALE100"

  /** The discount that coupon grants. */
  const CouponDiscount: real := 100.0

  /** Upper case of one character; only the ASCII letters a-z change. */
  function UpperChar(c: char): char {
    if 'a' <= c <= 'z' then (c as int - 'a' as int + 'A' as int) as char else c
  }

  /** Upper case of a string, character by character. */
  function Upper(s: string): (r: string)
    ensures |r| == |s|
    ensures forall i :: 0 <= i < |s| ==> r[i] == UpperChar(s[i])
  {
    if s == [] then [] else [UpperChar(s[0])] + Upper(s[1..])
  }

  /** Lower case of one ASCII upper-case letter; other characters stay. */
  function LowerChar(c: char): char {
    if 'A' <= c <= 'Z' then (c as int - 'A' as int + 'a' as int) as char else c
  }

  /** The code is accepted when its upper-case form is the coupon code. */
  predicate Accepts(code: string) {
    Upper(code) == CouponCode
  }

  /**
   * A reference definition of acceptance: seven characters, each the
   * coupon code's character in upper or in lower case.
   */
  predicate MatchesIgnoringCase(code: string) {
    |code| == |CouponCode| &&
    forall i :: 0 <= i < |code| ==> code[i] == CouponCode[i] || code[i] == LowerChar(CouponCode[i])
  }

  /** For each character of the coupon code, exactly its two cases map onto it. */
  lemma UpperCharMatches(c: char, k: char)
    requires k in CouponCode
    ensures UpperChar(c) == k <==> c == k || c == LowerChar(k)
  {
  }

  /** Acceptance is exactly a case-insensitive match with `SALE100`, in both directions. */
  lemma AcceptsIffMatchesIgnoringCase(code: string)
    ensures Accepts(code) <==> MatchesIgnoringCase(code)
  {
    var u := Upper(code);
    if Accepts(code) {
      forall i | 0 <= i < |code|
        ensures code[i] == CouponCode[i] || code[i] == LowerChar(CouponCode[i])
      {
        UpperCharMatches(code[i], CouponCode[i]);
      }
    }
    if MatchesIgnoringCase(code) {
      forall i | 0 <= i < |code|
        ensures u[i] == CouponCode[i]
      {
        UpperCharMatches(code[i], CouponCode[i]);
      }
      assert u == CouponCode;
    }
  }

  /** Upper, lower and mixed case spellings are accepted; other codes are not. */
  lemma AcceptedSpellings()
    ensures Accepts("SALE100") && Accepts("sale100") && Accepts("Sale100")
    ensures !Accepts("bogus") && !Accepts("SALE10") && !Accepts("SALE100 ")
  {
    AcceptsIffMatchesIgnoringCase("SALE100");
    AcceptsIffMatchesIgnoringCase("sale100");
    AcceptsIffMatchesIgnoringCase("Sale100");
    AcceptsIffMatchesIgnoringCase("bogus");
    AcceptsIffMatchesIgnoringCase("SALE10");
    AcceptsIffMatchesIgnoringCase("SALE100 ");
  }

  /** The two fields the coupon check updates. */
  datatype CouponState = CouponState(discount: real, applied: bool)

  /** The state before any coupon is applied. */
  const NoCoupon := CouponState(0.0, false)

  /** The states the coupon check can reach: no discount, or the coupon's discount once applied. */
  predicate Consistent(s: CouponState) {
    s == NoCoupon || s == CouponState(CouponDiscount, true)
  }

  /**
   * One coupon check: an accepted code while no coupon is applied grants
   * the discount; anything else is rejected and changes nothing.
   * `rejected` is true exactly when the "Invalid coupon code." notice is raised.
   */
  function CouponStep(s: CouponState, code: string): (r: (CouponState, bool))
    ensures r.1 <==> s.applied || !Accepts(code)
    ensures r.1 ==> r.0 == s
    ensures !r.1 ==> r.0.applied && r.0.discount == CouponDiscount
  {
    if Accepts(code) && !s.applied then (CouponState(CouponDiscount, true), false) else (s, true)
  }

  /** Every coupon check keeps the state consistent, so the discount stays 0 or 100. */
  lemma CouponStepKeepsConsistent(s: CouponState, code: string)
    requires Consistent(s)
    ensures Consistent(CouponStep(s, code).0)
    ensures CouponStep(s, code).0.discount == 0.0 || CouponStep(s, code).0.discount == 100.0
  {
  }

  /**
   * Checking a code twice has the same effect on the state as checking it once,
   * and the second check is always rejected.
   */
  lemma CouponStepIdempotent(s: CouponState, code: string)
    ensures CouponStep(CouponStep(s, code).0, code).0 == CouponStep(s, code).0
    ensures CouponStep(CouponStep(s, code).0, code).1
  {
  }

  /** The state after checking a series of codes in turn. */
  function CouponSteps(s: CouponState, codes: seq<string>): CouponState
    decreases codes
  {
    if codes == [] then s else CouponSteps(CouponStep(s, codes[0]).0, codes[1..])
  }

  /**
   * However many codes are checked, the state stays consistent, and once a
   * coupon is applied no later code changes it.
   */
  lemma {:induction false} CouponStepsKeepConsistent(s: CouponState, codes: seq<string>)
    requires Consistent(s)
    ensures Consistent(CouponSteps(s, codes))
    ensures s.applied ==> CouponSteps(s, codes) == s
    decreases codes
  {
    if codes != [] {
      CouponStepKeepsConsistent(s, codes[0]);
      CouponStepsKeepConsistent(CouponStep(s, codes[0]).0, codes[1..]);
    }
  }
}
