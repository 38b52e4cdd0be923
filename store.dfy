/**
 * The in-memory proposal store (proposals_storage) and the endpoints that
 * write, read, list and delete it: metadata creation (api/index.py:626-638),
 * proposal creation (api/index.py:796-812), get (826-829), list (834-837),
 * summary (842-877) and delete (882-886). Python dictionaries remember
 * insertion order, so the store keeps the order of its keys beside the map.
 */
module Store {
  import opened Wrappers
  import opened Proposal
  import opened Quotation

  /** The ProjectMetadata request body. */
  datatype ProjectMetadata = ProjectMetadata(
    projectNameEn: string,
    projectNameAr: string,
    clientNameEn: string,
    clientNameAr: string,
    projectType: string,
    boqType: string,
    numDeliverables: int,
    startDate: string,
    endDate: string,
    rfpCode: string)

  /** The metadata as stored: the request plus the generated fields. */
  datatype ProcessedMetadata = ProcessedMetadata(
    project: ProjectMetadata,
    durationMonths: int,
    quotationCode: string,
    versionName: string,
    createdOn: string)

  /** One stored value: a dictionary that may hold 'metadata' and/or 'proposal', and 'created_at'. */
  datatype StoredRecord = StoredRecord(
    metadata: Option<ProcessedMetadata>,
    proposal: Option<ProposalRecord>,
    createdAt: string)

  datatype StoreError = NotFound

  /** What the summary endpoint renders: the fixed marker, or the text built from both parts. */
  datatype SummaryView = IncompleteData | Complete(metadata: ProcessedMetadata, proposal: ProposalRecord)

  const IncompleteText := "Incomplete proposal data"

  const VersionName := "v1.0"

  /** The summary of a stored record is only rendered when it holds both metadata and a proposal. */
  function SummaryOf(rec: StoredRecord): (v: SummaryView)
    ensures v.IncompleteData? <==> rec.metadata.None? || rec.proposal.None?
    ensures v.Complete? ==> v.metadata == rec.metadata.value && v.proposal == rec.proposal.value
  {
    match (rec.metadata, rec.proposal)
    case (Some(m), Some(p)) => Complete(m, p)
    case _ => IncompleteData
  }

  predicate Distinct(s: seq<string>)
  {
    forall i, j :: 0 <= i < j < |s| ==> s[i] != s[j]
  }

  /** The key order after `del`: the key is taken out, everything else keeps its place. */
  function Remove(s: seq<string>, x: string): (r: seq<string>)
    ensures forall y :: y in r <==> y in s && y != x
    ensures Distinct(s) ==> Distinct(r)
    ensures x !in s ==> r == s
    ensures |r| <= |s|
  {
    if s == [] then []
    else
      var rest := Remove(s[1..], x);
      if s[0] == x then rest
      else
        assert Distinct(s) ==> Distinct(s[1..]) && s[0] !in s[1..];
        [s[0]] + rest
  }

  /** Taking out a key that occurs only at position i leaves the keys before and after it, in order. */
  lemma {:induction false} RemoveKeepsOrder(s: seq<string>, x: string, i: nat)
    requires i < |s| && s[i] == x && x !in s[..i] && x !in s[i + 1..]
    ensures Remove(s, x) == s[..i] + s[i + 1..]
  {
    if i == 0 {
      assert s[1..] == s[i + 1..];
      assert s[..0] + s[1..] == s[1..];
    } else {
      assert s[0] != x by { assert s[0] == s[..i][0]; }
      assert s[1..][..i - 1] == s[1..i];
      assert s[1..][i..] == s[i + 1..];
      assert x !in s[1..][..i - 1] by { assert s[1..i] == s[..i][1..]; }
      RemoveKeepsOrder(s[1..], x, i - 1);
      assert s[..i] == [s[0]] + s[1..i];
    }
  }

  /** In a key order without repeats, removing the key at position i keeps all other keys in order. */
  lemma RemoveDistinctKeepsOrder(s: seq<string>, x: string, i: nat)
    requires Distinct(s) && i < |s| && s[i] == x
    ensures Remove(s, x) == s[..i] + s[i + 1..]
  {
    assert x !in s[..i] && x !in s[i + 1..];
    RemoveKeepsOrder(s, x, i);
  }

  class ProposalStore {
    var records: map<string, StoredRecord>
    /** The keys in insertion order, as `list(proposals_storage.keys())` returns them. */
    var order: seq<string>

    ghost predicate Valid()
      reads this
    {
      && Distinct(order)
      && forall k :: k in records <==> k in order
    }

    /** No stored record holds both metadata and a proposal. */
    ghost predicate NoMergedRecord()
      reads this
    {
      forall k :: k in records ==> records[k].metadata.None? || records[k].proposal.None?
    }

    constructor ()
      ensures Valid() && NoMergedRecord()
      ensures records == map[] && order == []
    {
      records := map[];
      order := [];
    }

    /** `proposals_storage[code] = rec`: the last write wins; a new key goes to the end of the order. */
    method Put(code: string, rec: StoredRecord)
      requires Valid()
      modifies this
      ensures Valid()
      ensures records == old(records)[code := rec]
      ensures order == if code in old(records) then old(order) else old(order) + [code]
    {
      if code !in records {
        order := order + [code];
      }
      records := records[code := rec];
    }

    /** get_proposal: the stored record, or not found. */
    method Get(code: string) returns (r: Result<StoredRecord, StoreError>)
      ensures r.Success? <==> code in records
      ensures r.Success? ==> r.value == records[code]
    {
      if code !in records {
        return Failure(NotFound);
      }
      r := Success(records[code]);
    }

    /** delete_proposal: removes only the given key, or reports not found and changes nothing. */
    method Delete(code: string) returns (r: Result<(), StoreError>)
      requires Valid()
      modifies this
      ensures Valid()
      ensures r.Failure? <==> code !in old(records)
      ensures records == old(records) - {code}
      ensures code !in records
      ensures forall k :: k != code ==> (k in records <==> k in old(records))
      ensures forall k :: k != code && k in records ==> records[k] == old(records)[k]
      ensures order == Remove(old(order), code)
    {
      if code !in records {
        return Failure(NotFound);
      }
      records := records - {code};
      order := Remove(order, code);
      r := Success(());
    }

    /** list_all_proposals: every key once, in insertion order, and how many there are. */
    method List() returns (codes: seq<string>, totalCount: nat)
      requires Valid()
      ensures forall k :: k in codes <==> k in records
      ensures Distinct(codes)
      ensures codes == order
      ensures totalCount == |records|
    {
      codes := order;
      totalCount := |records|;
    }

    /** get_proposal_summary, with the rendering of a complete record left abstract. */
    method Summary(code: string) returns (r: Result<SummaryView, StoreError>)
      ensures r.Failure? <==> code !in records
      ensures r.Success? ==> r.value == SummaryOf(records[code])
      ensures r.Success? && NoMergedRecord() ==> r.value == IncompleteData
    {
      if code !in records {
        return Failure(NotFound);
      }
      r := Success(SummaryOf(records[code]));
    }

    /**
     * create_project_metadata after its date checks: the metadata is stored
     * under a fresh quotation code. The duration in months, the clock and the
     * UUID are supplied.
     */
    method CreateProjectMetadata(
      project: ProjectMetadata, durationMonths: int,
      date: string, uuid: string, createdOn: string, createdAt: string)
      returns (code: string, processed: ProcessedMetadata)
      requires Valid()
      requires IsDateStamp(date) && IsUuidText(uuid)
      modifies this
      ensures Valid()
      ensures code == QuotationCode(date, uuid)
      ensures processed == ProcessedMetadata(project, durationMonths, code, VersionName, createdOn)
      ensures records == old(records)[code := StoredRecord(Some(processed), None, createdAt)]
      ensures order == if code in old(records) then old(order) else old(order) + [code]
      ensures old(NoMergedRecord()) ==> NoMergedRecord()
    {
      code := QuotationCode(date, uuid);
      processed := ProcessedMetadata(project, durationMonths, code, VersionName, createdOn);
      Put(code, StoredRecord(Some(processed), None, createdAt));
    }

    /**
     * create_financial_proposal: the proposal is assembled and, when the terms
     * are accepted, stored on its own under a fresh quotation code.
     */
    method CreateFinancialProposal(
      items: seq<ProposalItem>, terms: seq<PaymentTerm>,
      today: string, date: string, uuid: string, createdAt: string, storedAt: string)
      returns (r: Result<ProposalRecord, ProposalError>)
      requires Valid()
      requires IsDateStamp(date) && IsUuidText(uuid)
      modifies this
      ensures Valid()
      ensures r.Failure? <==> !TermsBalanced(terms)
      ensures r.Failure? ==> records == old(records) && order == old(order)
      ensures r.Success? ==> AssembledFrom(r.value, items, terms, today, QuotationCode(date, uuid), createdAt)
      ensures r.Success? ==> records == old(records)[QuotationCode(date, uuid) := StoredRecord(None, Some(r.value), storedAt)]
      ensures r.Success? ==> (order ==
        if QuotationCode(date, uuid) in old(records) then old(order) else old(order) + [QuotationCode(date, uuid)])
      ensures old(NoMergedRecord()) ==> NoMergedRecord()
    {
      var code := QuotationCode(date, uuid);
      r := AssembleProposal(items, terms, today, code, createdAt);
      if r.Success? {
        Put(code, StoredRecord(None, Some(r.value), storedAt));
      }
    }

    /**
     * The evidently intended way to complete a record: the proposal is attached
     * to the record of an existing quotation code (its metadata), with that code
     * as the offer number, instead of being stored under a fresh code.
     */
    method AttachProposal(
      code: string, items: seq<ProposalItem>, terms: seq<PaymentTerm>,
      today: string, createdAt: string)
      returns (r: Result<ProposalRecord, AttachError>)
      requires Valid()
      modifies this
      ensures Valid() && order == old(order)
      ensures r.Failure? <==> code !in old(records) || !TermsBalanced(terms)
      ensures r.Failure? ==> records == old(records)
      ensures r.Success? ==> AssembledFrom(r.value, items, terms, today, code, createdAt)
      ensures r.Success? ==> records == old(records)[code := old(records)[code].(proposal := Some(r.value))]
      ensures r.Success? && old(records)[code].metadata.Some? ==>
        SummaryOf(records[code]) == Complete(old(records)[code].metadata.value, r.value)
    {
      if code !in records {
        return Failure(UnknownCode);
      }
      var assembled := AssembleProposal(items, terms, today, code, createdAt);
      if assembled.Failure? {
        return Failure(Rejected(assembled.error));
      }
      var proposal := assembled.value;
      Put(code, records[code].(proposal := Some(proposal)));
      r := Success(proposal);
    }
  }

  datatype AttachError = UnknownCode | Rejected(reason: ProposalError)

  /**
   * As written, creating metadata and then a proposal leaves two records, each
   * incomplete, so the summary of either is the "Incomplete proposal data" marker.
   */
  method SummaryAfterBothCreations(
    project: ProjectMetadata, durationMonths: int,
    items: seq<ProposalItem>, terms: seq<PaymentTerm>,
    today: string, date: string, metadataUuid: string, proposalUuid: string, createdAt: string)
    returns (metadataSummary: Result<SummaryView, StoreError>, proposalSummary: Result<SummaryView, StoreError>)
    requires IsDateStamp(date) && IsUuidText(metadataUuid) && IsUuidText(proposalUuid)
    requires TermsBalanced(terms)
    ensures metadataSummary == Success(IncompleteData)
    ensures proposalSummary == Success(IncompleteData)
  {
    var store := new ProposalStore();
    var code, _ := store.CreateProjectMetadata(project, durationMonths, date, metadataUuid, today, createdAt);
    var created := store.CreateFinancialProposal(items, terms, today, date, proposalUuid, createdAt, createdAt);
    metadataSummary := store.Summary(code);
    proposalSummary := store.Summary(created.value.offerNumber);
  }

  /** With the proposal attached to the metadata's record, the summary is rendered from both. */
  method SummaryAfterAttachedProposal(
    project: ProjectMetadata, durationMonths: int,
    items: seq<ProposalItem>, terms: seq<PaymentTerm>,
    today: string, date: string, uuid: string, createdAt: string)
    returns (summary: Result<SummaryView, StoreError>)
    requires IsDateStamp(date) && IsUuidText(uuid)
    requires TermsBalanced(terms)
    ensures summary.Success? && summary.value.Complete?
    ensures summary.value.metadata.project == project
    ensures summary.value.proposal.offerNumber == QuotationCode(date, uuid)
    ensures summary.value.proposal.totalAmount == ItemsTotal(items)
  {
    var store := new ProposalStore();
    var code, _ := store.CreateProjectMetadata(project, durationMonths, date, uuid, today, createdAt);
    var attached := store.AttachProposal(code, items, terms, today, createdAt);
    summary := store.Summary(code);
  }
}
