/**
 * The quotation code of generate_quotation_code (api/index.py:394-396):
 * "MUT-", the current date as YYYYMMDD, "-", and the first eight characters
 * of a random UUID in upper case. The date and the UUID text are supplied.
 */
module Quotation {
  import opened Wrappers

  const Prefix := "MUT-"

  predicate IsDigit(c: char)
  {
    '0' <= c <= '9'
  }

  predicate IsLowerHex(c: char)
  {
    IsDigit(c) || 'a' <= c <= 'f'
  }

  predicate IsUpperHex(c: char)
  {
    IsDigit(c) || 'A' <= c <= 'F'
  }

  /** `strftime('%Y%m%d')` for a four-digit year: eight digits. */
  predicate IsDateStamp(date: string)
  {
    |date| == 8 && forall i :: 0 <= i < 8 ==> IsDigit(date[i])
  }

  /** The text of a UUID, `str(uuid.uuid4())`, starts with eight lower-case hex digits. */
  predicate IsUuidText(uuid: string)
  {
    |uuid| >= 8 && forall i :: 0 <= i < 8 ==> IsLowerHex(uuid[i])
  }

  /**
   * Upper-casing of ASCII letters only; every other character is kept. This is
   * exact on the hex digits of a UUID, the only text it is applied to.
   */
  function UpperChar(c: char): (u: char)
    ensures IsLowerHex(c) ==> IsUpperHex(u)
    ensures IsDigit(c) ==> u == c
  {
    if 'a' <= c <= 'z' then (c as int - 32) as char else c
  }

  function Upper(s: string): (u: string)
    ensures |u| == |s|
    ensures forall i :: 0 <= i < |s| ==> u[i] == UpperChar(s[i])
  {
    if s == [] then [] else [UpperChar(s[0])] + Upper(s[1..])
  }

  /** The shape of every generated code. */
  predicate IsQuotationCode(code: string)
  {
    && |code| == 21
    && code[..4] == Prefix
    && IsDateStamp(code[4..12])
    && code[12] == '-'
    && forall i :: 13 <= i < 21 ==> IsUpperHex(code[i])
  }

  /** generate_quotation_code with the clock's date stamp and the UUID text as inputs. */
  function QuotationCode(date: string, uuid: string): (code: string)
    requires IsDateStamp(date) && IsUuidText(uuid)
    ensures IsQuotationCode(code)
    ensures code[4..12] == date && code[13..] == Upper(uuid[..8])
  {
    var code := Prefix + date + "-" + Upper(uuid[..8]);
    assert code[..4] == Prefix && code[4..12] == date && code[13..] == Upper(uuid[..8]);
    code
  }

  /**
   * Splits a code back into its date stamp and its token: the inverse of
   * QuotationCode. A parsed code is its prefix, its date, a dash and an
   * upper-case hex token of eight characters.
   */
  function ParseQuotationCode(code: string): (r: Option<(string, string)>)
    ensures r.Some? <==> IsQuotationCode(code)
    ensures r.Some? ==> IsDateStamp(r.value.0) && |r.value.1| == 8
    ensures r.Some? ==> forall i :: 0 <= i < 8 ==> IsUpperHex(r.value.1[i])
    ensures r.Some? ==> code == Prefix + r.value.0 + "-" + r.value.1
  {
    if IsQuotationCode(code) then
      assert code == code[..4] + code[4..12] + [code[12]] + code[13..];
      Some((code[4..12], code[13..]))
    else None
  }

  /** Parsing a generated code gives back its date and its upper-cased token. */
  lemma ParseQuotationRoundTrip(date: string, uuid: string)
    requires IsDateStamp(date) && IsUuidText(uuid)
    ensures ParseQuotationCode(QuotationCode(date, uuid)) == Some((date, Upper(uuid[..8])))
  {
  }

  /** Two codes are equal only when their dates and their tokens are. */
  lemma QuotationCodeInjective(date1: string, uuid1: string, date2: string, uuid2: string)
    requires IsDateStamp(date1) && IsUuidText(uuid1)
    requires IsDateStamp(date2) && IsUuidText(uuid2)
    requires QuotationCode(date1, uuid1) == QuotationCode(date2, uuid2)
    ensures date1 == date2 && Upper(uuid1[..8]) == Upper(uuid2[..8])
  {
    ParseQuotationRoundTrip(date1, uuid1);
    ParseQuotationRoundTrip(date2, uuid2);
  }
}
