/** Exact-real arithmetic the cashflow model is built from: integer powers for
    compounding growth rates, sums of cashflow vectors, and the net present
    value whose root is the internal rate of return. */
module Compounding {

  /** `b` to the `n`-th power, for a natural exponent `n`. */
  function Pow(b: real, n: nat): (r: real)
    ensures b > 0.0 ==> r > 0.0
    ensures b >= 1.0 ==> r >= 1.0
  {
    if n == 0 then 1.0
    else
      var p := Pow(b, n - 1);
      assert b >= 1.0 ==> b * p >= p by {
        if b >= 1.0 { assert (b - 1.0) * p >= 0.0; }
      }
      b * p
  }

  /** A growth factor of one leaves every year unchanged. */
  lemma {:induction false} PowOfOne(n: nat)
    ensures Pow(1.0, n) == 1.0
  {
    if n > 0 {
      PowOfOne(n - 1);
    }
  }

  /** Total of a vector of amounts. */
  function Sum(s: seq<real>): real
  {
    if |s| == 0 then 0.0 else s[0] + Sum(s[1..])
  }

  lemma {:induction false} SumConcat(a: seq<real>, b: seq<real>)
    ensures Sum(a + b) == Sum(a) + Sum(b)
  {
    if |a| == 0 {
      assert a + b == b;
    } else {
      assert (a + b)[1..] == a[1..] + b;
      SumConcat(a[1..], b);
    }
  }

  /** Appending one amount adds exactly that amount to the total. */
  lemma SumSnoc(s: seq<real>, x: real)
    ensures Sum(s + [x]) == Sum(s) + x
  {
    SumConcat(s, [x]);
  }

  /** Replacing the last entry changes the total by exactly the difference. */
  lemma SumBumpLast(s: seq<real>, x: real)
    requires |s| > 0
    ensures Sum(s[|s| - 1 := s[|s| - 1] + x]) == Sum(s) + x
  {
    var n := |s| - 1;
    assert s == s[..n] + [s[n]];
    assert s[n := s[n] + x] == s[..n] + [s[n] + x];
    SumSnoc(s[..n], s[n]);
    SumSnoc(s[..n], s[n] + x);
  }

  /** A total of positive amounts exceeds its last amount whenever there is
      more than one. */
  lemma {:induction false} SumExceedsLast(s: seq<real>)
    requires |s| >= 2
    requires forall k :: 0 <= k < |s| ==> s[k] > 0.0
    ensures Sum(s) > s[|s| - 1]
  {
    if |s| == 2 {
      assert s[1..][1..] == [];
      assert Sum(s[1..]) == s[1] + Sum(s[1..][1..]);
    } else {
      SumExceedsLast(s[1..]);
    }
  }

  /** Present value at `rate` of the cashflows `cf`, the first of which falls
      at period `t`: the sum of `cf[k] / (1 + rate)^(t + k)`. */
  function PresentValue(cf: seq<real>, rate: real, t: nat): real
    requires rate > -1.0
  {
    if |cf| == 0 then 0.0
    else cf[0] / Pow(1.0 + rate, t) + PresentValue(cf[1..], rate, t + 1)
  }

  /** Net present value of a cashflow vector whose entry 0 falls today. */
  function Npv(cf: seq<real>, rate: real): real
    requires rate > -1.0
  {
    PresentValue(cf, rate, 0)
  }

  /** `rate` is an internal rate of return of `cf`: a rate above -100% at
      which the net present value vanishes. */
  predicate IsIrr(cf: seq<real>, rate: real)
  {
    rate > -1.0 && Npv(cf, rate) == 0.0
  }

  lemma {:induction false} PresentValueAtZero(cf: seq<real>, t: nat)
    ensures PresentValue(cf, 0.0, t) == Sum(cf)
  {
    if |cf| > 0 {
      PowOfOne(t);
      PresentValueAtZero(cf[1..], t + 1);
    }
  }

  /** Undiscounted, the net present value is the plain total, so a zero rate
      is an internal rate of return exactly when the cashflows break even. */
  lemma ZeroRateIrrIffBreakEven(cf: seq<real>)
    ensures Npv(cf, 0.0) == Sum(cf)
    ensures IsIrr(cf, 0.0) <==> Sum(cf) == 0.0
  {
    PresentValueAtZero(cf, 0);
  }
}
