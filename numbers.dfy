/**
 * The float results the pandas/numpy code can produce. Dividing by zero
 * in numpy (and in pandas `pct_change`) does not raise: it yields an
 * infinity or NaN, and those values flow on into tables and the store.
 */
module Numbers {

  datatype Float = Finite(v: real) | Infinite(positive: bool) | NaN {
    /** `pd.isna(x)` */
    predicate IsNa() {
      this.NaN?
    }
  }

  /** numpy's `x / y` on float64 (finite operands). */
  function Divide(x: real, y: real): (r: Float)
    ensures y != 0.0 ==> r == Finite(x / y)
    ensures y == 0.0 ==> (r.NaN? <==> x == 0.0)
    ensures y == 0.0 && x != 0.0 ==> r == Infinite(x > 0.0)
  {
    if y != 0.0 then Finite(x / y)
    else if x == 0.0 then NaN
    else Infinite(x > 0.0)
  }

  /** `pct` is the percent change from `prev` to `curr`: `pct` percent of `prev` is the difference. */
  predicate IsPercentChange(pct: real, curr: real, prev: real) {
    prev != 0.0 && pct * prev == (curr - prev) * 100.0
  }

  /** `((curr - prev) / prev) * 100` for a non-zero base. */
  function GrowthPercent(curr: real, prev: real): real
    requires prev != 0.0
  {
    (curr - prev) / prev * 100.0
  }

  /**
   * The growth is the percent change. (Kept apart from `GrowthPercent` so
   * that the product it states is in scope only where a proof needs it.)
   */
  lemma GrowthPercentIsChange(curr: real, prev: real)
    requires prev != 0.0
    ensures IsPercentChange(GrowthPercent(curr, prev), curr, prev)
  {
  }

  /** `(curr / prev - 1) * 100` evaluated with numpy semantics. */
  function PercentChange(curr: real, prev: real): (r: Float)
    ensures r.Finite? <==> prev != 0.0
    ensures prev == 0.0 ==> (r.NaN? <==> curr == 0.0)
  {
    match Divide(curr, prev)
    case Finite(q) => Finite((q - 1.0) * 100.0)
    case Infinite(p) => Infinite(p)
    case NaN => NaN
  }

  /** A finite `PercentChange` is the percent change from `prev` to `curr`. */
  lemma PercentChangeIsChange(curr: real, prev: real)
    requires prev != 0.0
    ensures IsPercentChange(PercentChange(curr, prev).v, curr, prev)
  {
    var q := curr / prev;
    assert q * prev == curr;
    assert ((q - 1.0) * 100.0) * prev == (q * prev - prev) * 100.0;
  }

  /** The percent change of a positive-base comparison is positive exactly when the value rose. */
  lemma PercentChangeSign(curr: real, prev: real)
    requires prev > 0.0
    ensures PercentChange(curr, prev).Finite?
    ensures PercentChange(curr, prev).v > 0.0 <==> curr > prev
  {
    var r := PercentChange(curr, prev);
    PercentChangeIsChange(curr, prev);
    assert r.v * prev == (curr - prev) * 100.0;
    if r.v > 0.0 {
      assert r.v * prev > 0.0;
    } else {
      assert r.v * prev <= 0.0;
    }
  }
}
