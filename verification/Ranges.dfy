/** Sums over the items of a list whose position on an axis, a period or a day, falls within bounds. */
module Ranges {
  import opened VoucherLines

  /** Both bounds count; None leaves that end open. */
  predicate Within(x: int, from: Option<int>, to: Option<int>) {
    (from.Some? ==> from.value <= x) && (to.Some? ==> x <= to.value)
  }

  function RangeSum<T>(xs: seq<T>, at: T -> int, weight: T -> real, from: Option<int>, to: Option<int>): real {
    if xs == [] then 0.0
    else
      var x := xs[|xs| - 1];
      RangeSum(xs[..|xs| - 1], at, weight, from, to) + (if Within(at(x), from, to) then weight(x) else 0.0)
  }

  /** Adjoining ranges add up to the whole. */
  lemma {:induction false} RangesAdjoin<T>(xs: seq<T>, at: T -> int, weight: T -> real, from: Option<int>, mid: int,
                                           to: Option<int>)
    requires (from.Some? ==> from.value <= mid + 1) && (to.Some? ==> mid <= to.value)
    ensures RangeSum(xs, at, weight, from, to)
         == RangeSum(xs, at, weight, from, Some(mid)) + RangeSum(xs, at, weight, Some(mid + 1), to)
  {
    if xs != [] {
      RangesAdjoin(xs[..|xs| - 1], at, weight, from, mid, to);
    }
  }
}
