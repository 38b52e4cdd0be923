/**
 * The overhead calculator (calculate_overhead, api/index.py:410-415) and the
 * table of monthly overhead rates it reads (DEFAULT_OVERHEAD_COSTS, which the
 * admin endpoint updates in place).
 */
module Overhead {

  /**
   * The sum of the values of a rate table, Python's `sum(rates.values())`.
   * A map has no iteration order, so the definition picks an arbitrary key;
   * RateSumPick shows that the choice does not matter.
   */
  ghost function RateSum(rates: map<string, real>): real
    decreases |rates|
  {
    if rates == map[] then 0.0
    else
      var k :| k in rates;
      rates[k] + RateSum(rates - {k})
  }

  /** Summing may start from any key: the sum is independent of iteration order. */
  lemma {:induction false} RateSumPick(rates: map<string, real>, k: string)
    requires k in rates
    ensures RateSum(rates) == rates[k] + RateSum(rates - {k})
    decreases |rates|
  {
    var j :| j in rates && RateSum(rates) == rates[j] + RateSum(rates - {j});
    if j != k {
      assert rates - {j} - {k} == rates - {k} - {j};
      RateSumPick(rates - {j}, k);
      RateSumPick(rates - {k}, j);
    }
  }

  /** A table of non-negative rates has a non-negative sum. */
  lemma {:induction false} RateSumNonNegative(rates: map<string, real>)
    requires forall k :: k in rates ==> rates[k] >= 0.0
    ensures RateSum(rates) >= 0.0
    decreases |rates|
  {
    if rates != map[] {
      var k :| k in rates;
      RateSumPick(rates, k);
      RateSumNonNegative(rates - {k});
    }
  }

  /** The monthly overhead: the loop behind `sum(overhead_costs.values())`. */
  method SumRates(rates: map<string, real>) returns (total: real)
    ensures total == RateSum(rates)
  {
    total := 0.0;
    var rest := rates;
    while rest != map[]
      invariant total + RateSum(rest) == RateSum(rates)
      decreases |rest|
    {
      var k :| k in rest;
      RateSumPick(rest, k);
      total := total + rest[k];
      rest := rest - {k};
    }
  }

  /** The business rule: 15% of the direct costs plus the monthly overheads for every month. */
  ghost function OverheadOf(baseCosts: real, rates: map<string, real>, durationMonths: int): real
  {
    baseCosts * 0.15 + RateSum(rates) * durationMonths as real
  }

  /** calculate_overhead(base_costs, overhead_costs, duration_months). */
  method CalculateOverhead(baseCosts: real, rates: map<string, real>, durationMonths: int)
    returns (overhead: real)
    ensures overhead == baseCosts * 0.15 + RateSum(rates) * durationMonths as real
    ensures overhead == OverheadOf(baseCosts, rates, durationMonths)
  {
    var monthlyOverhead := SumRates(rates);
    var totalOverhead := monthlyOverhead * durationMonths as real;
    overhead := baseCosts * 0.15 + totalOverhead;
  }

  /** Non-negative costs, rates and duration give a non-negative overhead. */
  lemma OverheadNonNegative(baseCosts: real, rates: map<string, real>, durationMonths: int)
    requires baseCosts >= 0.0 && durationMonths >= 0
    requires forall k :: k in rates ==> rates[k] >= 0.0
    ensures OverheadOf(baseCosts, rates, durationMonths) >= 0.0
  {
    RateSumNonNegative(rates);
  }

  /** With non-negative rates, a longer engagement never carries less overhead. */
  lemma OverheadMonotoneInDuration(baseCosts: real, rates: map<string, real>, d1: int, d2: int)
    requires d1 <= d2
    requires forall k :: k in rates ==> rates[k] >= 0.0
    ensures OverheadOf(baseCosts, rates, d1) <= OverheadOf(baseCosts, rates, d2)
  {
    RateSumNonNegative(rates);
    var m := RateSum(rates);
    assert m * d2 as real - m * d1 as real == m * (d2 - d1) as real;
  }

  /** The six monthly overhead categories (the OverheadCosts request body). */
  datatype OverheadCosts = OverheadCosts(
    salaries: real,
    utilities: real,
    transportation: real,
    visas: real,
    officeRent: real,
    insurance: real)

  /** The initial table, which is also every field's default in an update request. */
  const DefaultCosts := OverheadCosts(50000.0, 15000.0, 10000.0, 8000.0, 20000.0, 5000.0)

  const RateNames: set<string> :=
    {"salaries", "utilities", "transportation", "visas", "office_rent", "insurance"}

  /** The dictionary form of an OverheadCosts record, keyed by the source's field names. */
  function AsRates(o: OverheadCosts): (rates: map<string, real>)
    ensures rates.Keys == RateNames
  {
    map["salaries" := o.salaries, "utilities" := o.utilities,
        "transportation" := o.transportation, "visas" := o.visas,
        "office_rent" := o.officeRent, "insurance" := o.insurance]
  }

  /** The monthly overhead of a six-category table is the sum of its six fields. */
  lemma RatesTotal(o: OverheadCosts)
    ensures RateSum(AsRates(o)) ==
      o.salaries + o.utilities + o.transportation + o.visas + o.officeRent + o.insurance
  {
    var m0 := AsRates(o);
    RateSumPick(m0, "salaries");
    var m1 := m0 - {"salaries"};
    RateSumPick(m1, "utilities");
    var m2 := m1 - {"utilities"};
    RateSumPick(m2, "transportation");
    var m3 := m2 - {"transportation"};
    RateSumPick(m3, "visas");
    var m4 := m3 - {"visas"};
    RateSumPick(m4, "office_rent");
    var m5 := m4 - {"office_rent"};
    RateSumPick(m5, "insurance");
    assert m5 - {"insurance"} == map[];
  }

  /** The default table costs 108000 per month. */
  lemma DefaultMonthlyOverhead()
    ensures RateSum(AsRates(DefaultCosts)) == 108000.0
  {
    RatesTotal(DefaultCosts);
  }

  /** DEFAULT_OVERHEAD_COSTS: a dictionary of monthly rates that an admin request overwrites. */
  class OverheadTable {
    var rates: map<string, real>

    ghost predicate Valid()
      reads this
    {
      rates.Keys == RateNames
    }

    constructor ()
      ensures Valid() && rates == AsRates(DefaultCosts)
    {
      rates := AsRates(DefaultCosts);
    }

    /** update_overhead_costs: `DEFAULT_OVERHEAD_COSTS.update(overhead.dict())`. */
    method Update(o: OverheadCosts)
      requires Valid()
      modifies this
      ensures Valid()
      ensures rates == old(rates) + AsRates(o)
      ensures rates == AsRates(o)
      ensures RateSum(rates) ==
        o.salaries + o.utilities + o.transportation + o.visas + o.officeRent + o.insurance
    {
      rates := rates + AsRates(o);
      assert rates == AsRates(o);
      RatesTotal(o);
    }
  }
}
