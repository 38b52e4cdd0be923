/**
 * generate_price_justification (api/index.py:480-526) with the text generator
 * as a parameter: whatever it answers, or if it fails, the caller gets a string.
 */
module Justification {
  import opened Wrappers
  import opened Catalog

  /** What the text-generation provider produced: a response text, or an exception. */
  datatype ProviderReply = Reply(text: string) | ProviderFailed

  const NotInCatalogText := "Service not found in catalog"
  const MissingKeyText := "Please configure GEMINI_API_KEY in your environment variables. Contact your system administrator to set up AI price analysis."
  const EmptyReplyText := "AI analysis indicates this pricing is competitive for the Saudi market and reflects our premium service quality and expertise."
  const FailureText := "Our pricing analysis shows this service is competitively priced for the Saudi AI consulting market. The price reflects Mutawazi's expertise, proven methodologies, and comprehensive service delivery approach that ensures successful project outcomes."

  /** The characters Python's str.isspace() accepts, which strip() removes. */
  predicate IsSpace(c: char)
  {
    || c == ' ' || ('\t' <= c <= '\r') || ('\U{1C}' <= c <= '\U{1F}')
    || c == '\U{85}' || c == '\U{A0}' || c == '\U{1680}'
    || ('\U{2000}' <= c <= '\U{200A}') || c == '\U{2028}' || c == '\U{2029}'
    || c == '\U{202F}' || c == '\U{205F}' || c == '\U{3000}'
  }

  /** Drops leading whitespace. */
  function TrimStart(s: string): (t: string)
    ensures |t| <= |s| && t == s[|s| - |t|..]
    ensures t == [] || !IsSpace(t[0])
    ensures forall i :: 0 <= i < |s| - |t| ==> IsSpace(s[i])
  {
    if s != [] && IsSpace(s[0]) then TrimStart(s[1..]) else s
  }

  /** Drops trailing whitespace. */
  function TrimEnd(s: string): (t: string)
    ensures |t| <= |s| && t == s[..|t|]
    ensures t == [] || !IsSpace(t[|t| - 1])
    ensures forall i :: |t| <= i < |s| ==> IsSpace(s[i])
  {
    if s != [] && IsSpace(s[|s| - 1]) then TrimEnd(s[..|s| - 1]) else s
  }

  /** t is s with lo whitespace characters cut from the front and whitespace only cut from the back. */
  predicate CutAtSpaces(s: string, t: string, lo: int)
  {
    && 0 <= lo <= lo + |t| <= |s|
    && t == s[lo..lo + |t|]
    && (forall i :: 0 <= i < lo ==> IsSpace(s[i]))
    && (forall i :: lo + |t| <= i < |s| ==> IsSpace(s[i]))
  }

  /** str.strip(): the longest infix that neither starts nor ends with whitespace, cut only at whitespace. */
  function Strip(s: string): (t: string)
    ensures exists lo :: CutAtSpaces(s, t, lo)
    ensures t == [] || (!IsSpace(t[0]) && !IsSpace(t[|t| - 1]))
  {
    var front := TrimStart(s);
    var t := TrimEnd(front);
    var lo := |s| - |front|;
    assert CutAtSpaces(s, t, lo);
    t
  }

  /**
   * The justification text: the catalog lookup and the API key come first; then
   * the provider's stripped text, or a fixed fallback when it answers with no
   * text or fails. It never fails itself.
   */
  function PriceJustification(catalog: map<string, Service>, serviceId: string, apiKey: Option<string>, reply: ProviderReply): (s: string)
    ensures serviceId !in catalog ==> s == NotInCatalogText
    ensures serviceId in catalog && (apiKey.None? || apiKey.value == "") ==> s == MissingKeyText
    ensures serviceId in catalog && apiKey.Some? && apiKey.value != "" ==>
      s == (if reply.ProviderFailed? then FailureText
            else if reply.text == "" then EmptyReplyText
            else Strip(reply.text))
    ensures s == "" ==> reply.Reply? && forall i :: 0 <= i < |reply.text| ==> IsSpace(reply.text[i])
  {
    if serviceId !in catalog then NotInCatalogText
    else if apiKey.None? || apiKey.value == "" then MissingKeyText
    else match reply
      case ProviderFailed => FailureText
      case Reply(text) => if text != "" then Strip(text) else EmptyReplyText
  }
}
