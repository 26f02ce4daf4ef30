/** The investment-growth projection of `FinanceApp.show_growth_graph`: the
    stored invested amounts are paid in month by month while they last, and
    the running total is compounded every month of the period. */
module Growth {
  import opened Common

  /** The amount paid in during month `i` (counted from 0): the stored
      amount while the index is inside the series, nothing after it. */
  function Contribution(invested: seq<real>, i: nat): real
  {
    if i < |invested| then invested[i] else 0.0
  }

  /** The compounded value after `k` months when each month's contribution
      is added and the total is then multiplied by `factor`. At a factor of
      one nothing is earned: the value is what was paid in. */
  function ValueAfter(invested: seq<real>, factor: real, k: nat): (v: real)
    ensures factor == 1.0 ==> v == InvestedAfter(invested, k)
  {
    if k == 0 then 0.0
    else (ValueAfter(invested, factor, k - 1) + Contribution(invested, k - 1)) * factor
  }

  /** The amount paid in during the first `k` months. */
  function InvestedAfter(invested: seq<real>, k: nat): real
  {
    if k == 0 then 0.0
    else InvestedAfter(invested, k - 1) + Contribution(invested, k - 1)
  }

  /** The two series the growth graph plots, one element per month. */
  datatype Projection = Projection(cumulative: seq<real>, growth: seq<real>)

  datatype GrowthError =
    | UnreadableInput       // the rate or the period is not a number
    | NoDataOrInvalidPeriod // nothing invested yet, or a period that is not positive

  /** The monthly compounding factor for an annual rate `cagr` (a fraction):
      above one exactly for a positive rate, one for a zero rate. */
  function MonthlyFactor(cagr: real): (f: real)
    ensures f > 1.0 <==> cagr > 0.0
    ensures f == 1.0 <==> cagr == 0.0
  {
    1.0 + cagr / 12.0
  }

  /** Runs the projection loop over `period` months. */
  method Project(invested: seq<real>, cagr: real, period: int) returns (r: Result<Projection, GrowthError>)
    ensures r.Err? <==> (|invested| == 0 || period <= 0)
    ensures r.Err? ==> r.error == NoDataOrInvalidPeriod
    ensures r.Ok? ==> |r.value.cumulative| == period && |r.value.growth| == period
    ensures r.Ok? ==> forall i :: 0 <= i < period ==>
              r.value.growth[i] == ValueAfter(invested, MonthlyFactor(cagr), i + 1)
              && r.value.cumulative[i] == InvestedAfter(invested, i + 1)
  {
    if |invested| == 0 || period <= 0 {
      return Err(NoDataOrInvalidPeriod);
    }
    var factor := MonthlyFactor(cagr);
    var growth: seq<real> := [];
    var cumulative: seq<real> := [];
    var total := 0.0;
    var investedTotal := 0.0;
    for month := 0 to period
      invariant |growth| == month && |cumulative| == month
      invariant total == ValueAfter(invested, factor, month)
      invariant investedTotal == InvestedAfter(invested, month)
      invariant forall i :: 0 <= i < month ==>
                  growth[i] == ValueAfter(invested, factor, i + 1)
                  && cumulative[i] == InvestedAfter(invested, i + 1)
    {
      if month < |invested| {
        total := total + invested[month];
        investedTotal := investedTotal + invested[month];
      }
      total := total * factor;
      growth := growth + [total];
      cumulative := cumulative + [investedTotal];
    }
    return Ok(Projection(cumulative, growth));
  }

  function Min(a: nat, b: nat): nat
  {
    if a < b then a else b
  }

  /** The cumulative-invested element of month `k` is the sum of the first
      min(k, length) stored amounts. */
  lemma {:induction false} InvestedIsPrefixSum(invested: seq<real>, k: nat)
    ensures InvestedAfter(invested, k) == Sum(invested[..Min(k, |invested|)])
  {
    if k > 0 {
      InvestedIsPrefixSum(invested, k - 1);
      if k - 1 < |invested| {
        assert invested[..k] == invested[..k - 1] + [invested[k - 1]];
        SumAppend(invested[..k - 1], invested[k - 1]);
      }
    }
  }

  /** Past the end of the stored series nothing is paid in any more, yet the
      total keeps being multiplied by the monthly factor. */
  lemma CompoundsPastEnd(invested: seq<real>, factor: real, k: nat, j: nat)
    requires k >= |invested|
    ensures ValueAfter(invested, factor, k + j) == ValueAfter(invested, factor, k) * Pow(factor, j)
    ensures InvestedAfter(invested, k + j) == InvestedAfter(invested, k)
  {
    ValuePastEnd(invested, factor, k, j);
    InvestedPastEnd(invested, k, j);
  }

  lemma ValuePastEnd(invested: seq<real>, factor: real, k: nat, j: nat)
    requires k >= |invested|
    ensures ValueAfter(invested, factor, k + j) == ValueAfter(invested, factor, k) * Pow(factor, j)
  {
    var v := (m: nat) => ValueAfter(invested, factor, m);
    forall m: nat | k <= m
      ensures v(m + 1) == v(m) * factor
    {
      assert Contribution(invested, m) == 0.0;
    }
    GeometricChain(v, factor, k, j);
  }

  /** A quantity multiplied by `factor` every step from `k` on has grown
      by `factor` to the power `j` after `j` steps. */
  lemma {:induction false} GeometricChain(v: nat -> real, factor: real, k: nat, j: nat)
    requires forall m: nat :: k <= m ==> v(m + 1) == v(m) * factor
    ensures v(k + j) == v(k) * Pow(factor, j)
  {
    if j > 0 {
      GeometricChain(v, factor, k, j - 1);
      var n := k + (j - 1);
      var p := Pow(factor, j - 1);
      var q := Pow(factor, j);
      assert q == factor * p;
      CompoundOnce(v(n), v(n + 1), v(k), p, q, factor);
    }
  }

  lemma {:induction false} InvestedPastEnd(invested: seq<real>, k: nat, j: nat)
    requires k >= |invested|
    ensures InvestedAfter(invested, k + j) == InvestedAfter(invested, k)
  {
    if j > 0 {
      InvestedPastEnd(invested, k, j - 1);
      assert Contribution(invested, k + j - 1) == 0.0;
    }
  }

  /** One more month of compounding multiplies the power by the factor,
      over plain reals: `prev == start * p` becomes `next == start * q`. */
  lemma CompoundOnce(prev: real, next: real, start: real, p: real, q: real, factor: real)
    requires prev == start * p && next == prev * factor && q == factor * p
    ensures next == start * q
  {
    assert (start * p) * factor == start * (factor * p);
  }

  predicate NonNegative(invested: seq<real>)
  {
    forall i :: 0 <= i < |invested| ==> invested[i] >= 0.0
  }

  /** With non-negative contributions and a non-negative rate, the
      compounded value never falls below what was paid in. */
  lemma {:induction false} ValueCoversInvested(invested: seq<real>, factor: real, k: nat)
    requires NonNegative(invested) && factor >= 1.0
    ensures 0.0 <= InvestedAfter(invested, k) <= ValueAfter(invested, factor, k)
  {
    if k > 0 {
      ValueCoversInvested(invested, factor, k - 1);
      var base := ValueAfter(invested, factor, k - 1) + Contribution(invested, k - 1);
      assert base >= 0.0;
      assert base * factor >= base * 1.0;
    }
  }

  /** With a positive rate and a positive first contribution, the value
      grows strictly every month and stays strictly above what was paid in. */
  lemma {:induction false} StrictGrowth(invested: seq<real>, factor: real, k: nat)
    requires NonNegative(invested) && |invested| > 0 && invested[0] > 0.0 && factor > 1.0
    requires k >= 1
    ensures ValueAfter(invested, factor, k) > InvestedAfter(invested, k)
    ensures ValueAfter(invested, factor, k + 1) > ValueAfter(invested, factor, k)
  {
    var v := ValueAfter(invested, factor, k);
    var paid := InvestedAfter(invested, k);
    var base := ValueAfter(invested, factor, k - 1) + Contribution(invested, k - 1);
    assert paid == InvestedAfter(invested, k - 1) + Contribution(invested, k - 1);
    if k == 1 {
      assert ValueAfter(invested, factor, 0) == 0.0 && InvestedAfter(invested, 0) == 0.0;
      assert base == invested[0] && base == paid;
    } else {
      StrictGrowth(invested, factor, k - 1);
      ValueCoversInvested(invested, factor, k - 1);
      assert base > paid;
    }
    CompoundingGrows(base, factor, v);
    ValueCoversInvested(invested, factor, k);
    var next := v + Contribution(invested, k);
    assert next >= v;
    CompoundingGrows(next, factor, ValueAfter(invested, factor, k + 1));
  }

  /** Compounding a positive amount by a factor above one increases it. */
  lemma CompoundingGrows(x: real, factor: real, y: real)
    requires x > 0.0 && factor > 1.0 && y == x * factor
    ensures y > x
  {
    assert y - x == x * (factor - 1.0);
  }

  /** Two months of 100 at 12 % a year, projected over three months. */
  lemma WorkedExample()
    ensures MonthlyFactor(0.12) == 1.01
    ensures InvestedAfter([100.0, 100.0], 1) == 100.0
    ensures InvestedAfter([100.0, 100.0], 2) == 200.0
    ensures InvestedAfter([100.0, 100.0], 3) == 200.0
    ensures ValueAfter([100.0, 100.0], 1.01, 1) == 101.0
    ensures ValueAfter([100.0, 100.0], 1.01, 2) == 203.01
    ensures ValueAfter([100.0, 100.0], 1.01, 3) == 205.0401
  {
    assert ValueAfter([100.0, 100.0], 1.01, 2) == 203.01;
  }
}
