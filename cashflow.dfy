/**
 * The deliverable cash-flow engine: the body of calculate_deliverable_cashflow
 * (api/index.py:673-757). Each deliverable is priced, its overhead and cash-out
 * computed, and a running cumulative net flow carried in input order; the
 * summary totals follow the loop.
 */
module CashFlow {
  import opened Wrappers
  import opened Overhead
  import opened Catalog

  /** One deliverable of the request. The amount is optional and overrides the catalog price. */
  datatype Deliverable = Deliverable(
    name: string,
    dueDate: string,
    serviceId: Option<string>,
    amount: Option<real>,
    salaries: real,
    tools: real,
    others: real)

  /** The catalog fields echoed back when a deliverable names a service. */
  datatype ServiceInfo = ServiceInfo(name: string, catalogPrice: real, duration: int, unit: string)

  datatype DeliverableResult = DeliverableResult(
    deliverableName: string,
    dueDate: string,
    serviceId: Option<string>,
    cashIn: real,
    salaries: real,
    tools: real,
    others: real,
    overhead: real,
    cashOut: real,
    netFlow: real,
    cumulativeNetFlow: real,
    isProfitable: bool,
    serviceInfo: Option<ServiceInfo>)

  datatype CashFlowSummary = CashFlowSummary(
    totalRevenue: real,
    totalCosts: real,
    totalProfit: real,
    profitMargin: real,
    isProfitable: bool)

  datatype CashFlowReport = CashFlowReport(deliverables: seq<DeliverableResult>, summary: CashFlowSummary)

  datatype CashFlowError = UnknownService(serviceId: string) | MissingAmount

  /** A deliverable is priced from the catalog when its service id is truthy: None and "" are not. */
  predicate UsesCatalog(d: Deliverable)
  {
    d.serviceId.Some? && d.serviceId.value != ""
  }

  /** What a deliverable is charged, and the catalog entry it was priced against, if any. */
  datatype Charge = Charge(amount: real, service: Option<Service>)

  /** Charge resolution: an explicit amount wins over the catalog price; an unknown id or a missing amount fails. */
  function ResolveCharge(d: Deliverable, catalog: map<string, Service>): (r: Result<Charge, CashFlowError>)
    ensures r.Failure? <==>
      (UsesCatalog(d) && d.serviceId.value !in catalog) || (!UsesCatalog(d) && d.amount.None?)
    ensures r.Failure? && UsesCatalog(d) ==> r.error == UnknownService(d.serviceId.value)
    ensures r.Failure? && !UsesCatalog(d) ==> r.error == MissingAmount
    ensures r.Success? && d.amount.Some? ==> r.value.amount == d.amount.value
    ensures r.Success? && d.amount.None? ==> UsesCatalog(d) && r.value.amount == catalog[d.serviceId.value].price
    ensures r.Success? ==> (r.value.service.Some? <==> UsesCatalog(d))
    ensures r.Success? && UsesCatalog(d) ==> r.value.service == Some(catalog[d.serviceId.value])
  {
    if UsesCatalog(d) then
      if d.serviceId.value !in catalog then Failure(UnknownService(d.serviceId.value))
      else
        var service := catalog[d.serviceId.value];
        Success(Charge(if d.amount.None? then service.price else d.amount.value, Some(service)))
    else if d.amount.None? then Failure(MissingAmount)
    else Success(Charge(d.amount.value, None))
  }

  /** The duration the overhead is charged for: the catalog duration, or one month. */
  function DurationOf(c: Charge): int
  {
    if c.service.Some? then c.service.value.duration else 1
  }

  function InfoOf(s: Service): ServiceInfo
  {
    ServiceInfo(s.name, s.price, s.duration, s.unit)
  }

  /** The relations every emitted row satisfies with respect to its deliverable (all but the running total). */
  ghost predicate RowFor(d: Deliverable, row: DeliverableResult, catalog: map<string, Service>, rates: map<string, real>)
  {
    && ResolveCharge(d, catalog).Success?
    && var c := ResolveCharge(d, catalog).value;
    && var baseCosts := d.salaries + d.tools + d.others;
    && row.deliverableName == d.name
    && row.dueDate == d.dueDate
    && row.serviceId == d.serviceId
    && row.salaries == d.salaries && row.tools == d.tools && row.others == d.others
    && row.cashIn == c.amount
    && row.overhead == OverheadOf(baseCosts, rates, DurationOf(c))
    && row.cashOut == d.salaries + d.tools + d.others + row.overhead
    && row.netFlow == row.cashIn - row.cashOut
    && (row.isProfitable <==> row.netFlow > 0.0)
    && row.serviceInfo == (if c.service.Some? then Some(InfoOf(c.service.value)) else None)
  }

  /** Sum of the net flows, added left to right. */
  function NetSum(rows: seq<DeliverableResult>): real
  {
    if rows == [] then 0.0 else NetSum(rows[..|rows| - 1]) + rows[|rows| - 1].netFlow
  }

  /** Sum of cash-in, `sum(d['cash_in'] for d in deliverables)`. */
  function CashInSum(rows: seq<DeliverableResult>): real
  {
    if rows == [] then 0.0 else CashInSum(rows[..|rows| - 1]) + rows[|rows| - 1].cashIn
  }

  /** Sum of cash-out, `sum(d['cash_out'] for d in deliverables)`. */
  function CashOutSum(rows: seq<DeliverableResult>): real
  {
    if rows == [] then 0.0 else CashOutSum(rows[..|rows| - 1]) + rows[|rows| - 1].cashOut
  }

  /** The summary after the loop; the margin is guarded against a zero (or negative) revenue. */
  function Summarize(rows: seq<DeliverableResult>): (s: CashFlowSummary)
    ensures s.totalRevenue == CashInSum(rows) && s.totalCosts == CashOutSum(rows)
    ensures s.totalProfit == s.totalRevenue - s.totalCosts
    ensures s.totalRevenue <= 0.0 ==> s.profitMargin == 0.0
    ensures s.totalRevenue > 0.0 ==> s.profitMargin * s.totalRevenue == s.totalProfit * 100.0
    ensures s.isProfitable <==> s.totalProfit > 0.0
  {
    var totalRevenue := CashInSum(rows);
    var totalCosts := CashOutSum(rows);
    var totalProfit := totalRevenue - totalCosts;
    var profitMargin := if totalRevenue > 0.0 then totalProfit / totalRevenue * 100.0 else 0.0;
    CashFlowSummary(totalRevenue, totalCosts, totalProfit, profitMargin, totalProfit > 0.0)
  }

  /** The running total starts from 0 and adds each deliverable's net flow in input order. */
  ghost predicate RunningTotals(rows: seq<DeliverableResult>)
  {
    && (|rows| > 0 ==> rows[0].cumulativeNetFlow == rows[0].netFlow)
    && forall i :: 0 < i < |rows| ==>
         rows[i].cumulativeNetFlow == rows[i - 1].cumulativeNetFlow + rows[i].netFlow
  }

  /** Everything a successful report promises about the deliverables it was computed from. */
  ghost predicate ReportFor(ds: seq<Deliverable>, catalog: map<string, Service>, rates: map<string, real>, report: CashFlowReport)
  {
    && |report.deliverables| == |ds|
    && (forall i :: 0 <= i < |ds| ==> RowFor(ds[i], report.deliverables[i], catalog, rates))
    && RunningTotals(report.deliverables)
    && report.summary == Summarize(report.deliverables)
  }

  /** The request fails exactly when some deliverable cannot be priced. */
  ghost predicate SomeUnpriced(ds: seq<Deliverable>, catalog: map<string, Service>)
  {
    exists i :: 0 <= i < |ds| && ResolveCharge(ds[i], catalog).Failure?
  }

  /** The error reported is that of the first deliverable that cannot be priced. */
  ghost predicate FirstFailure(ds: seq<Deliverable>, catalog: map<string, Service>, e: CashFlowError)
  {
    exists i :: 0 <= i < |ds| && ResolveCharge(ds[i], catalog) == Failure(e) &&
      forall j :: 0 <= j < i ==> ResolveCharge(ds[j], catalog).Success?
  }

  /** calculate_deliverable_cashflow: all deliverables are priced, or the whole request fails. */
  method CalculateDeliverableCashFlow(ds: seq<Deliverable>, catalog: map<string, Service>, rates: map<string, real>)
    returns (r: Result<CashFlowReport, CashFlowError>)
    ensures r.Failure? <==> SomeUnpriced(ds, catalog)
    ensures r.Failure? ==> FirstFailure(ds, catalog, r.error)
    ensures r.Success? ==> ReportFor(ds, catalog, rates, r.value)
  {
    var deliverables: seq<DeliverableResult> := [];
    var cumulativeNetFlow := 0.0;
    var i := 0;
    while i < |ds|
      invariant 0 <= i <= |ds|
      invariant |deliverables| == i
      invariant forall j :: 0 <= j < i ==> ResolveCharge(ds[j], catalog).Success?
      invariant forall j :: 0 <= j < i ==> RowFor(ds[j], deliverables[j], catalog, rates)
      invariant RunningTotals(deliverables)
      invariant cumulativeNetFlow == if i == 0 then 0.0 else deliverables[i - 1].cumulativeNetFlow
    {
      var d := ds[i];
      var serviceInfo: Option<Service> := None;
      var amount: real;
      if UsesCatalog(d) {
        if d.serviceId.value !in catalog {
          assert ResolveCharge(ds[i], catalog).Failure?;
          return Failure(UnknownService(d.serviceId.value));
        }
        serviceInfo := Some(catalog[d.serviceId.value]);
        if d.amount.None? {
          amount := serviceInfo.value.price;
        } else {
          amount := d.amount.value;
        }
      } else {
        if d.amount.None? {
          assert ResolveCharge(ds[i], catalog).Failure?;
          return Failure(MissingAmount);
        }
        amount := d.amount.value;
      }

      var baseCosts := d.salaries + d.tools + d.others;
      var duration := if serviceInfo.Some? then serviceInfo.value.duration else 1;
      var overhead := CalculateOverhead(baseCosts, rates, duration);

      var cashOut := baseCosts + overhead;
      var netFlow := amount - cashOut;
      cumulativeNetFlow := cumulativeNetFlow + netFlow;

      var row := DeliverableResult(
        d.name, d.dueDate, d.serviceId, amount, d.salaries, d.tools, d.others,
        overhead, cashOut, netFlow, cumulativeNetFlow, netFlow > 0.0,
        if serviceInfo.Some? then Some(InfoOf(serviceInfo.value)) else None);
      assert ResolveCharge(d, catalog) == Success(Charge(amount, serviceInfo));
      assert RowFor(d, row, catalog, rates);
      var extended := deliverables + [row];
      assert extended[i] == row;
      assert forall j :: 0 <= j < i ==> extended[j] == deliverables[j];
      deliverables := extended;
      i := i + 1;
    }
    r := Success(CashFlowReport(deliverables, Summarize(deliverables)));
  }

  /** The i-th running total is the sum of the net flows of deliverables 0..i. */
  lemma {:induction false} RunningTotalIsPrefixSum(rows: seq<DeliverableResult>, i: int)
    requires RunningTotals(rows)
    requires 0 <= i < |rows|
    ensures rows[i].cumulativeNetFlow == NetSum(rows[..i + 1])
  {
    assert rows[..i + 1][..i] == rows[..i];
    assert NetSum(rows[..i + 1]) == NetSum(rows[..i]) + rows[i].netFlow;
    if i == 0 {
      assert rows[..0] == [];
      assert NetSum(rows[..0]) == 0.0;
    } else {
      RunningTotalIsPrefixSum(rows, i - 1);
    }
  }

  /** Totals add up: revenue minus costs is the sum of the net flows, when every row's net flow is its cash-in minus cash-out. */
  lemma {:induction false} ProfitIsNetSum(rows: seq<DeliverableResult>)
    requires forall i :: 0 <= i < |rows| ==> rows[i].netFlow == rows[i].cashIn - rows[i].cashOut
    ensures CashInSum(rows) - CashOutSum(rows) == NetSum(rows)
  {
    if rows != [] {
      ProfitIsNetSum(rows[..|rows| - 1]);
    }
  }

  /** The summary's total profit is the last deliverable's cumulative net flow (and 0 for no deliverables). */
  lemma TotalProfitIsFinalCumulative(ds: seq<Deliverable>, catalog: map<string, Service>, rates: map<string, real>, report: CashFlowReport)
    requires ReportFor(ds, catalog, rates, report)
    ensures |ds| == 0 ==> report.summary.totalProfit == 0.0
    ensures |ds| > 0 ==> report.summary.totalProfit == report.deliverables[|ds| - 1].cumulativeNetFlow
  {
    var rows := report.deliverables;
    forall i | 0 <= i < |rows|
      ensures rows[i].netFlow == rows[i].cashIn - rows[i].cashOut
    {
      assert RowFor(ds[i], rows[i], catalog, rates);
    }
    ProfitIsNetSum(rows);
    if |ds| > 0 {
      RunningTotalIsPrefixSum(rows, |ds| - 1);
      assert rows[..|ds|] == rows;
    }
  }

  /** A sum of non-negative cash-outs is non-negative. */
  lemma {:induction false} CashOutSumNonNegative(rows: seq<DeliverableResult>)
    requires forall i :: 0 <= i < |rows| ==> rows[i].cashOut >= 0.0
    ensures CashOutSum(rows) >= 0.0
  {
    if rows != [] {
      CashOutSumNonNegative(rows[..|rows| - 1]);
    }
  }

  /** A deliverable with non-negative costs, under non-negative rates and durations, costs a non-negative amount. */
  lemma RowCashOutNonNegative(d: Deliverable, row: DeliverableResult, catalog: map<string, Service>, rates: map<string, real>)
    requires RowFor(d, row, catalog, rates)
    requires d.salaries >= 0.0 && d.tools >= 0.0 && d.others >= 0.0
    requires forall k :: k in rates ==> rates[k] >= 0.0
    requires forall id :: id in catalog ==> catalog[id].duration >= 0
    ensures row.overhead >= 0.0 && row.cashOut >= 0.0
  {
    var c := ResolveCharge(d, catalog).value;
    OverheadNonNegative(d.salaries + d.tools + d.others, rates, DurationOf(c));
  }

  /** With non-negative costs, rates and catalog durations, the total costs are non-negative. */
  lemma TotalCostsNonNegative(ds: seq<Deliverable>, catalog: map<string, Service>, rates: map<string, real>, report: CashFlowReport)
    requires ReportFor(ds, catalog, rates, report)
    requires forall i :: 0 <= i < |ds| ==> ds[i].salaries >= 0.0 && ds[i].tools >= 0.0 && ds[i].others >= 0.0
    requires forall k :: k in rates ==> rates[k] >= 0.0
    requires forall id :: id in catalog ==> catalog[id].duration >= 0
    ensures report.summary.totalCosts >= 0.0
  {
    var rows := report.deliverables;
    forall i | 0 <= i < |rows|
      ensures rows[i].cashOut >= 0.0
    {
      RowCashOutNonNegative(ds[i], rows[i], catalog, rates);
    }
    CashOutSumNonNegative(rows);
  }

  /** With non-negative costs, rates and catalog durations, the profit margin never exceeds 100%. */
  lemma MarginAtMostHundred(ds: seq<Deliverable>, catalog: map<string, Service>, rates: map<string, real>, report: CashFlowReport)
    requires ReportFor(ds, catalog, rates, report)
    requires forall i :: 0 <= i < |ds| ==> ds[i].salaries >= 0.0 && ds[i].tools >= 0.0 && ds[i].others >= 0.0
    requires forall k :: k in rates ==> rates[k] >= 0.0
    requires forall id :: id in catalog ==> catalog[id].duration >= 0
    ensures report.summary.profitMargin <= 100.0
  {
    TotalCostsNonNegative(ds, catalog, rates, report);
    var s := report.summary;
    if s.totalRevenue > 0.0 {
      MarginBound(s.profitMargin, s.totalRevenue, s.totalProfit);
    }
  }

  /** A margin m with m * revenue == profit * 100 is at most 100 when profit <= revenue. */
  lemma MarginBound(margin: real, revenue: real, profit: real)
    requires revenue > 0.0 && profit <= revenue
    requires margin * revenue == profit * 100.0
    ensures margin <= 100.0
  {
  }

  /**
   * The worked example: deliverable D1 priced from catalog entry "1.2" (30000 over
   * 2 months) with costs 1000 + 200 + 50 under the default overhead table
   * (108000 per month) loses 187437.5.
   */
  lemma RiskAssessmentExample(row: DeliverableResult)
    requires RowFor(
      Deliverable("D1", "2025-01-31", Some("1.2"), None, 1000.0, 200.0, 50.0),
      row, map["1.2" := RiskAssessment], AsRates(DefaultCosts))
    ensures row.cashIn == 30000.0
    ensures row.overhead == 216187.5
    ensures row.cashOut == 217437.5
    ensures row.netFlow == -187437.5
    ensures !row.isProfitable
    ensures row.serviceInfo == Some(ServiceInfo(RiskAssessment.name, 30000.0, 2, "Service"))
  {
    DefaultMonthlyOverhead();
  }
}
