# Mutawazi financial proposal engine, modelled in Dafny

This project models the pricing core of the Mutawazi financial proposal backend (`api/index.py`):

- the overhead rule: 15% of the direct costs, plus the monthly overhead rates times the duration in months;
- the deliverable cash-flow engine. It prices each deliverable from an explicit amount or from the service catalog. It computes overhead, cash-out and net flow, and carries a running cumulative net flow. It then totals revenue, costs, profit and a profit margin guarded against a zero revenue;
- the proposal assembler. It rejects payment terms whose percentages are not 100 within 0.01. It then splits the sum of the line items' totals across the terms in order;
- the readiness classifier: exactly seven answers, scored by the number of yes answers;
- the quotation code `MUT-<YYYYMMDD>-<8 upper-case hex digits>`;
- the in-memory proposal store and the overhead-rate table, both updated in place;
- the price-justification fallbacks around the external text generator.

Money is Dafny `real`, which is exact. The Python floats are not. The catalog is a `map<string, Service>` parameter. The clock, the random UUID, the API key and the text generator's reply are also parameters.

Modules, one per component: `Wrappers` (Option, Result), `Overhead` (calculator and rate table), `Catalog` (service record), `CashFlow` (engine and summary), `Proposal` (assembler), `Quotation` (code format), `Readiness`, `Justification`, `Store` (proposal store and the endpoints that write it).

The cash-flow engine, the payment-term split and the rate sum are `method`s with loops, because the source builds them step by step. Each is proved against specification functions (`RowFor`, `RunningTotals`, `Summarize`, `PricedFrom`, `RateSum`), and the lemmas state what the source promises about those functions. The store and the overhead table are classes whose methods change a `map` field in place.

The model follows these details of the code:
- A service id is used only when it is truthy, so an empty string counts as "no service id" (`if deliv_data.service_id:`).
- The margin guard is `total_revenue > 0`, not `== 0`.
- The quotation code's random part is the first eight hex digits of a UUID, upper-cased. It is not an arbitrary alphanumeric string.
- The summary endpoint never finds metadata and a proposal in the same record (see Findings).

## Model

| member | source | states |
|---|---|---|
| Overhead.RateSumPick | api/index.py:412 | the sum of the rate values may start from any key, so it does not depend on iteration order |
| Overhead.RateSumNonNegative | api/index.py:412 | a table of non-negative rates has a non-negative monthly total |
| Overhead.SumRates | api/index.py:412 | the loop over the table returns exactly the sum of all its values |
| Overhead.CalculateOverhead | api/index.py:410-415 | overhead = base costs × 0.15 + (sum of monthly rates) × duration in months |
| Overhead.OverheadNonNegative | api/index.py:410-415 | with base costs, rates and duration ≥ 0 the overhead is ≥ 0 |
| Overhead.OverheadMonotoneInDuration | api/index.py:410-415 | with non-negative rates, a longer duration never gives less overhead |
| Overhead.AsRates | api/index.py:384-391 | an overhead record becomes a table with exactly the six category keys |
| Overhead.RatesTotal | api/index.py:92-98 | the monthly total of a six-category table is the sum of its six fields |
| Overhead.DefaultMonthlyOverhead | api/index.py:384-391 | the default table costs 108000 per month |
| Overhead.OverheadTable.constructor | api/index.py:384-391 | the table starts as the six default rates |
| Overhead.OverheadTable.Update | api/index.py:893-901 | update is `old + new` on the dictionary; the keys stay the six categories, and the new monthly total is the sum of the request's six fields |
| CashFlow.ResolveCharge | api/index.py:679-699 | fails exactly for an unknown service id or a missing amount, with that error. An explicit amount wins over the catalog price. Catalog info is used exactly when a truthy service id was given |
| CashFlow.CalculateDeliverableCashFlow | api/index.py:673-757 | fails exactly when some deliverable cannot be priced, with the first failing one's error and no rows. Otherwise it gives one row per deliverable, in input order. Each row satisfies cash_out = costs + overhead, net = cash_in − cash_out, is_profitable ⇔ net > 0, overhead over the catalog duration or 1 month, and service_info present ⇔ service id given. The running total adds each net flow. The summary is `Summarize` of the rows |
| CashFlow.Summarize | api/index.py:739-753 | revenue = Σ cash_in, costs = Σ cash_out, profit = revenue − costs. The margin is 0 when revenue ≤ 0, otherwise margin × revenue = profit × 100. is_profitable ⇔ profit > 0 |
| CashFlow.RunningTotalIsPrefixSum | api/index.py:711-724 | the i-th cumulative net flow is the sum of the net flows of deliverables 0..i |
| CashFlow.ProfitIsNetSum | api/index.py:740-742 | Σ cash_in − Σ cash_out equals Σ net flow when each net flow is cash_in − cash_out |
| CashFlow.TotalProfitIsFinalCumulative | api/index.py:740-742 | the summary's total profit equals the last deliverable's cumulative net flow, and is 0 for no deliverables |
| CashFlow.CashOutSumNonNegative | api/index.py:741 | a sum of non-negative cash-outs is non-negative |
| CashFlow.RowCashOutNonNegative | api/index.py:702-709 | non-negative costs, rates and durations give a non-negative overhead and cash-out |
| CashFlow.TotalCostsNonNegative | api/index.py:741 | under the same conditions the total costs are non-negative |
| CashFlow.MarginAtMostHundred | api/index.py:743 | under the same conditions the profit margin is at most 100% |
| CashFlow.MarginBound | api/index.py:743 | a margin with margin × revenue = profit × 100 and profit ≤ revenue is at most 100 |
| CashFlow.RiskAssessmentExample | api/index.py:151-157 | D1 on catalog entry "1.2" with costs 1250 under the default table: overhead 216187.5, cash-out 217437.5, net −187437.5, not profitable |
| Proposal.AssembleProposal | api/index.py:776-806 | fails exactly when the percentage sum is more than 0.01 away from 100, reporting that sum. Otherwise total = Σ item totals, and there is one payment per term, in order, of total × p/100. The currency is SAR |
| Proposal.PricedPrefix | api/index.py:788-794 | the first n payments are priced from the first n terms |
| Proposal.ShareStep | api/index.py:793 | adding one term's share to the running share gives the share of the summed percentages |
| Proposal.AmountsShareTotal | api/index.py:788-794 | the payment amounts add up to total × Σ percentages / 100 |
| Proposal.PaymentsCoverTotal | api/index.py:777-794 | for accepted terms and a total ≥ 0, the payments are within total × 0.0001 of the total |
| Proposal.ShareWithinTolerance | api/index.py:778 | a share of p% with abs(p − 100) ≤ 0.01 is within total × 0.0001 of the total |
| Proposal.PaymentsExactWhenHundred | api/index.py:788-794 | percentages summing to exactly 100 give payments summing to exactly the total |
| Proposal.TermsExamples | api/index.py:777-782 | 30/30/40 is accepted and 30/30/39 is rejected |
| Proposal.KickoffCompletionExample | api/index.py:785-794 | items of 200000 and 300000 split 40/60 give payments 200000 and 300000, summing to 500000 |
| Quotation.UpperChar | api/index.py:396 | upper-casing maps a lower-case hex digit to an upper-case hex digit and keeps digits |
| Quotation.Upper | api/index.py:396 | upper-casing keeps the length and upper-cases each character |
| Quotation.QuotationCode | api/index.py:394-396 | the code is 21 characters: "MUT-", the 8-digit date, "-", and the upper-cased first 8 UUID characters, all hex |
| Quotation.ParseQuotationCode | api/index.py:396 | the inverse of the code format: a code parses exactly when it has the generated shape, into an 8-digit date stamp and an 8-character upper-case hex token, and the code is prefix + date + "-" + token |
| Quotation.ParseQuotationRoundTrip | api/index.py:396 | parsing a generated code returns its date and token |
| Quotation.QuotationCodeInjective | api/index.py:396 | equal codes come from equal dates and equal upper-cased tokens |
| Readiness.CountTrueIsOccurrences | api/index.py:577 | `sum(answers)` is the number of occurrences of true, and at most the number of answers |
| Readiness.AssessReadiness | api/index.py:571-605 | rejects exactly the lists whose length is not 7. The score is the number of true answers. can_proceed ⇔ score ≥ 6. Ready ⇔ 7, Partial ⇔ 6, Not Ready ⇔ < 6, and the status text is "✅ Ready" ⇔ 7, "⚠️ Partial" ⇔ 6, "❌ Not Ready" ⇔ < 6 |
| Readiness.StatusLabelInjective | api/index.py:579-587 | the three status texts are pairwise different, so the text in the response determines the status |
| Justification.TrimStart | api/index.py:520 | drops exactly the leading whitespace |
| Justification.TrimEnd | api/index.py:520 | drops exactly the trailing whitespace |
| Justification.Strip | api/index.py:520 | the result is an infix cut only at whitespace, and neither starts nor ends with whitespace |
| Justification.PriceJustification | api/index.py:480-526 | the unknown-service text for an id not in the catalog, then the missing-key text. Otherwise the provider's stripped text, or a fixed fallback for an empty reply or a failure. The result is empty only when the provider's text was all whitespace |
| Store.SummaryOf | api/index.py:847-877 | a record is rendered exactly when it holds both metadata and a proposal; otherwise it is "Incomplete proposal data" |
| Store.Remove | api/index.py:885 | removing a key keeps every other key, drops that one, and keeps the keys distinct |
| Store.RemoveKeepsOrder | api/index.py:885 | taking out a key that occurs only at position i gives exactly the keys before it followed by the keys after it, in order |
| Store.RemoveDistinctKeepsOrder | api/index.py:885 | in the store's repeat-free key order, `del` of the key at position i leaves the other keys in their insertion order |
| Store.ProposalStore.constructor | api/index.py:121 | the store starts empty |
| Store.ProposalStore.Put | api/index.py:809-812 | put overwrites: the key maps to the new record (last write wins); a new key is appended to the key order |
| Store.ProposalStore.Get | api/index.py:826-829 | get returns the stored record, or not found for an absent key |
| Store.ProposalStore.Delete | api/index.py:882-886 | delete of an absent key is not found and changes nothing; otherwise only that key is removed and every other key keeps its record |
| Store.ProposalStore.List | api/index.py:834-837 | list returns every key exactly once, in insertion order, and the count of stored records |
| Store.ProposalStore.Summary | api/index.py:842-877 | not found for an absent key, else the record's summary. While no record holds both parts, the summary is always the incomplete marker |
| Store.ProposalStore.CreateProjectMetadata | api/index.py:619-638 | stores the processed metadata alone under the generated quotation code, version "v1.0". A new code is appended to the key order; a reused code keeps its place. No record gains both parts |
| Store.ProposalStore.CreateFinancialProposal | api/index.py:776-812 | on accepted terms, stores the assembled proposal alone under the generated quotation code; the proposal's timestamp and the stored record's timestamp are separate clock readings. A new code is appended to the key order; a reused code keeps its place. On rejected terms the store is unchanged. No record gains both parts |
| Store.ProposalStore.AttachProposal | api/index.py:809-812 | corrected behaviour: the proposal is attached to an existing code's record, whose summary then renders from that metadata and proposal |
| Store.SummaryAfterBothCreations | api/index.py:847-877 | as written, creating metadata and then a proposal leaves the summary of both codes "Incomplete proposal data" |
| Store.SummaryAfterAttachedProposal | api/index.py:847-877 | with the proposal attached to the metadata's code, the summary renders that metadata and that proposal |

## Findings

| source | as written | input that shows it | evidently intended | confidence | as-written member | corrected member |
|---|---|---|---|---|---|---|
| api/index.py:809-812 | proposal creation stores `{'proposal', 'created_at'}` under a freshly generated code, replacing any record there. Metadata creation likewise stores `{'metadata', 'created_at'}` alone (api/index.py:635-638). The summary renders only a record holding both (api/index.py:847) | create metadata (code A), then a proposal with terms [40, 60] (code B): the summary of A and the summary of B are both "Incomplete proposal data" | the proposal is stored in the record of the metadata's quotation code, so its summary renders | high (not executed) | Store.SummaryAfterBothCreations | Store.ProposalStore.AttachProposal |

`CreateFinancialProposal` still models the code as written. `AttachProposal` is the corrected operation. `SummaryAfterAttachedProposal` proves that the summary it leads to is rendered.

## Left out

- FastAPI routing, CORS, the Pydantic request models' range checks, HTTP status codes and the exception handlers are transport plumbing. Only the error/no-error outcome and the error kind are modelled. In the source, every error raised inside the cash-flow and proposal endpoints is turned into a 500 by their own `except Exception`.
- Proposal.AssembleProposal: the 0.01 tolerance is compared exactly, so a percentage sum of exactly 99.99 or 100.01 (a single term of 99.99, say) is accepted. In the source's floats, 99.99 − 100 is −0.010000000000005116, so that request is rejected. Only sums strictly inside the tolerance or strictly outside it behave as in the source.
- Floating point: money is exact `real`. `round(profit_margin, 2)` is not modelled; the margin is unrounded. The summary's `:,.2f` number formatting is not modelled: a complete record's summary is the pair it is rendered from.
- `calculate_duration_months` and the date parsing and ordering in metadata creation rely on `strptime` and on division by 30.44 with `round`. The duration in months is a parameter.
- Store.ProposalStore.CreateProjectMetadata: does not reject an end date on or before the start date, or a malformed date, because date parsing is not modelled.
- `datetime.now()` and `uuid.uuid4()` are nondeterministic. The date stamp, the timestamps and the UUID text are parameters.
- The Gemini call, its prompt and `genai.configure` are a network call through a library that is not part of this model. The provider's reply (text or failure) and the API key are parameters. The proposed price only feeds the prompt, so it does not appear.
- The write to `current_session` in `assess_readiness` is never read, so it is left out.
- Overhead.CalculateOverhead: the monthly sum is taken by a loop over the table's keys in an arbitrary order, not in dictionary order. With exact reals the order does not change the result, as `RateSumPick` proves.
- The services catalog's 35 entries (api/index.py:136-382) are data. The catalog is a parameter, and only entry "1.2" is transcribed, for the worked example.
- The read-only endpoints (welcome text, readiness questions, catalog listing and lookup, overhead read, health) return constants or the unchanged tables, so they are left out.
