/**
 * The proposal assembler: the body of create_financial_proposal
 * (api/index.py:776-806). Payment terms must add up to 100% within 0.01; the
 * line items' totals are summed and split across the terms in order.
 */
module Proposal {
  import opened Wrappers

  datatype ProposalItem = ProposalItem(description: string, quantity: int, unitPrice: real, totalPrice: real)

  datatype PaymentTerm = PaymentTerm(description: string, percentage: real)

  /** A payment term annotated with the share of the total it asks for. */
  datatype PricedTerm = PricedTerm(description: string, percentage: real, amount: real)

  datatype ProposalRecord = ProposalRecord(
    date: string,
    offerNumber: string,
    items: seq<ProposalItem>,
    totalAmount: real,
    paymentTerms: seq<PricedTerm>,
    currency: string,
    createdAt: string)

  /** The terms were rejected; carries the sum that was found. */
  datatype ProposalError = PaymentTermsMismatch(currentSum: real)

  const Currency := "SAR"

  /** How far from 100 the percentages may add up. */
  const Tolerance := 0.01

  function Abs(x: real): real
  {
    if x < 0.0 then -x else x
  }

  /** `sum(term.percentage for term in payment_terms)`, added left to right. */
  function PercentageSum(terms: seq<PaymentTerm>): real
  {
    if terms == [] then 0.0 else PercentageSum(terms[..|terms| - 1]) + terms[|terms| - 1].percentage
  }

  /** `sum(item.total_price for item in proposal_items)`. */
  function ItemsTotal(items: seq<ProposalItem>): real
  {
    if items == [] then 0.0 else ItemsTotal(items[..|items| - 1]) + items[|items| - 1].totalPrice
  }

  /** The sum of the payment amounts. */
  function AmountSum(priced: seq<PricedTerm>): real
  {
    if priced == [] then 0.0 else AmountSum(priced[..|priced| - 1]) + priced[|priced| - 1].amount
  }

  /** The terms are accepted: the percentages add up to 100 within the tolerance. */
  predicate TermsBalanced(terms: seq<PaymentTerm>)
  {
    Abs(PercentageSum(terms) - 100.0) <= Tolerance
  }

  /** `priced` is `terms`, in the same order, each with amount total * percentage / 100. */
  ghost predicate PricedFrom(total: real, terms: seq<PaymentTerm>, priced: seq<PricedTerm>)
  {
    && |priced| == |terms|
    && forall i :: 0 <= i < |terms| ==>
         priced[i] == PricedTerm(terms[i].description, terms[i].percentage, total * (terms[i].percentage / 100.0))
  }

  /** A proposal built from these items and terms: the total is the items' sum, split over the terms in order. */
  ghost predicate AssembledFrom(p: ProposalRecord, items: seq<ProposalItem>, terms: seq<PaymentTerm>, date: string, code: string, createdAt: string)
  {
    && p.totalAmount == ItemsTotal(items)
    && PricedFrom(p.totalAmount, terms, p.paymentTerms)
    && p.items == items
    && p.offerNumber == code
    && p.date == date && p.createdAt == createdAt
    && p.currency == "SAR"
  }

  /**
   * create_financial_proposal without the store write: validates the terms, then
   * builds the proposal. The date, the quotation code and the timestamp are supplied.
   */
  method AssembleProposal(items: seq<ProposalItem>, terms: seq<PaymentTerm>, date: string, code: string, createdAt: string)
    returns (r: Result<ProposalRecord, ProposalError>)
    ensures r.Failure? <==> Abs(PercentageSum(terms) - 100.0) > 0.01
    ensures r.Failure? ==> r.error == PaymentTermsMismatch(PercentageSum(terms))
    ensures r.Success? ==> AssembledFrom(r.value, items, terms, date, code, createdAt)
  {
    var totalPercentage := PercentageSum(terms);
    if Abs(totalPercentage - 100.0) > Tolerance {
      return Failure(PaymentTermsMismatch(totalPercentage));
    }

    var totalAmount := ItemsTotal(items);

    var paymentTerms: seq<PricedTerm> := [];
    var i := 0;
    while i < |terms|
      invariant 0 <= i <= |terms|
      invariant PricedFrom(totalAmount, terms[..i], paymentTerms)
    {
      var term := terms[i];
      paymentTerms := paymentTerms + [PricedTerm(term.description, term.percentage, totalAmount * (term.percentage / 100.0))];
      i := i + 1;
    }
    assert terms[..i] == terms;

    r := Success(ProposalRecord(date, code, items, totalAmount, paymentTerms, Currency, createdAt));
  }

  /** The first n priced terms are priced from the first n terms. */
  lemma PricedPrefix(total: real, terms: seq<PaymentTerm>, priced: seq<PricedTerm>, n: int)
    requires PricedFrom(total, terms, priced)
    requires 0 <= n <= |terms|
    ensures PricedFrom(total, terms[..n], priced[..n])
  {
    forall i | 0 <= i < n
      ensures priced[..n][i] == PricedTerm(terms[..n][i].description, terms[..n][i].percentage,
                                           total * (terms[..n][i].percentage / 100.0))
    {
      assert priced[..n][i] == priced[i] && terms[..n][i] == terms[i];
    }
  }

  /** One more term adds its share: total * a / 100 + total * (b / 100) == total * (a + b) / 100. */
  lemma ShareStep(total: real, before: real, p: real)
    ensures total * before / 100.0 + total * (p / 100.0) == total * (before + p) / 100.0
  {
    assert total * (before + p) == total * before + total * p;
  }

  /** The payment amounts add up to the total times the percentage sum over 100. */
  lemma {:induction false} AmountsShareTotal(total: real, terms: seq<PaymentTerm>, priced: seq<PricedTerm>)
    requires PricedFrom(total, terms, priced)
    ensures AmountSum(priced) == total * PercentageSum(terms) / 100.0
  {
    if terms != [] {
      var n := |terms| - 1;
      PricedPrefix(total, terms, priced, n);
      AmountsShareTotal(total, terms[..n], priced[..n]);
      assert AmountSum(priced) == AmountSum(priced[..n]) + priced[n].amount;
      assert PercentageSum(terms) == PercentageSum(terms[..n]) + terms[n].percentage;
      ShareStep(total, PercentageSum(terms[..n]), terms[n].percentage);
    }
  }

  /** For accepted terms and a non-negative total, the payments cover the total to within 0.01% of it. */
  lemma PaymentsCoverTotal(total: real, terms: seq<PaymentTerm>, priced: seq<PricedTerm>)
    requires PricedFrom(total, terms, priced)
    requires TermsBalanced(terms)
    requires total >= 0.0
    ensures Abs(AmountSum(priced) - total) <= total * 0.0001
  {
    AmountsShareTotal(total, terms, priced);
    ShareWithinTolerance(total, PercentageSum(terms));
  }

  /** total * p / 100 is within total * 0.0001 of total when p is within 0.01 of 100. */
  lemma ShareWithinTolerance(total: real, p: real)
    requires total >= 0.0 && Abs(p - 100.0) <= 0.01
    ensures Abs(total * p / 100.0 - total) <= total * 0.0001
  {
    var gap := p - 100.0;
    var x := total * gap / 100.0;
    assert total * p / 100.0 - total == x;
    if gap >= 0.0 {
      assert total * gap <= total * 0.01;
    } else {
      var under := -gap;
      assert total * under >= 0.0;
      assert total * under <= total * 0.01;
      assert x == -(total * under) / 100.0;
      assert Abs(x) == total * under / 100.0;
    }
  }

  /** Percentages that add up to exactly 100 always leave nothing out. */
  lemma PaymentsExactWhenHundred(total: real, terms: seq<PaymentTerm>, priced: seq<PricedTerm>)
    requires PricedFrom(total, terms, priced)
    requires PercentageSum(terms) == 100.0
    ensures AmountSum(priced) == total
  {
    AmountsShareTotal(total, terms, priced);
  }

  /** 30/30/40 is accepted; 30/30/39 is rejected. */
  lemma TermsExamples()
    ensures TermsBalanced([PaymentTerm("a", 30.0), PaymentTerm("b", 30.0), PaymentTerm("c", 40.0)])
    ensures !TermsBalanced([PaymentTerm("a", 30.0), PaymentTerm("b", 30.0), PaymentTerm("c", 39.0)])
  {
    var a, b := PaymentTerm("a", 30.0), PaymentTerm("b", 30.0);
    var ok := [a, b, PaymentTerm("c", 40.0)];
    var bad := [a, b, PaymentTerm("c", 39.0)];
    assert ok[..2] == bad[..2] == [a, b];
    assert [a, b][..1] == [a] && [a][..0] == [];
    assert PercentageSum([a]) == 30.0;
    assert PercentageSum([a, b]) == 60.0;
    assert PercentageSum(ok) == 100.0;
    assert PercentageSum(bad) == 99.0;
  }

  /** Two items totalling 500000 split 40/60 into 200000 and 300000. */
  lemma KickoffCompletionExample(priced: seq<PricedTerm>)
    requires PricedFrom(
      ItemsTotal([ProposalItem("Design", 1, 200000.0, 200000.0), ProposalItem("Build", 1, 300000.0, 300000.0)]),
      [PaymentTerm("Kickoff", 40.0), PaymentTerm("Completion", 60.0)], priced)
    ensures priced == [PricedTerm("Kickoff", 40.0, 200000.0), PricedTerm("Completion", 60.0, 300000.0)]
    ensures AmountSum(priced) == 500000.0
  {
    var items := [ProposalItem("Design", 1, 200000.0, 200000.0), ProposalItem("Build", 1, 300000.0, 300000.0)];
    assert items[..1] == [items[0]] && [items[0]][..0] == [];
    assert ItemsTotal(items) == 500000.0;
    assert priced[..1] == [priced[0]] && [priced[0]][..0] == [];
    assert AmountSum(priced[..1]) == 200000.0;
  }
}
