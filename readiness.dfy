/**
 * The readiness classifier of assess_readiness (api/index.py:571-605): exactly
 * seven yes/no answers, scored by the number of yes answers.
 */
module Readiness {
  import opened Wrappers

  const Questions: seq<string> := [
    "I have read and understood the scope",
    "This project is within our mandate",
    "I have aligned internally that I will do pricing",
    "The contract type is understood (Fixed, Deliverables-Based, or Framework)",
    "I have checked if there is an existing rate card or similar past proposal",
    "I understand whether this is a monthly resource BoQ or milestone BoQ",
    "I know the expected duration of the project or agreement"
  ]

  const QuestionCount := 7
  const RequiredScore := 6

  datatype Status = Ready | Partial | NotReady

  /** The status text the response carries. */
  function StatusLabel(s: Status): string
  {
    match s
    case Ready => "\U{2705} Ready"
    case Partial => "\U{26A0}\U{FE0F} Partial"
    case NotReady => "\U{274C} Not Ready"
  }

  /** Different statuses carry different texts, so the text determines the status. */
  lemma StatusLabelInjective(a: Status, b: Status)
    requires StatusLabel(a) == StatusLabel(b)
    ensures a == b
  {
  }

  datatype ReadinessResponse = ReadinessResponse(score: nat, status: Status, canProceed: bool, questions: seq<string>)

  /** `sum(answers)`: each True counts one. */
  function CountTrue(answers: seq<bool>): nat
  {
    if answers == [] then 0 else CountTrue(answers[..|answers| - 1]) + (if answers[|answers| - 1] then 1 else 0)
  }

  /** The count is the number of occurrences of true, and never more than the number of answers. */
  lemma {:induction false} CountTrueIsOccurrences(answers: seq<bool>)
    ensures CountTrue(answers) == multiset(answers)[true]
    ensures CountTrue(answers) <= |answers|
  {
    if answers != [] {
      var n := |answers| - 1;
      CountTrueIsOccurrences(answers[..n]);
      assert answers == answers[..n] + [answers[n]];
      assert multiset(answers) == multiset(answers[..n]) + multiset{answers[n]};
    }
  }

  /** assess_readiness without the session write. */
  function AssessReadiness(answers: seq<bool>): (r: Result<ReadinessResponse, string>)
    ensures r.Failure? <==> |answers| != QuestionCount
    ensures r.Failure? ==> r.error == "Must provide exactly 7 answers"
    ensures r.Success? ==> r.value.score == multiset(answers)[true] && r.value.score <= 7
    ensures r.Success? ==> (r.value.canProceed <==> r.value.score >= RequiredScore)
    ensures r.Success? ==> (r.value.status == Ready <==> r.value.score == 7)
    ensures r.Success? ==> (r.value.status == Partial <==> r.value.score == 6)
    ensures r.Success? ==> (r.value.status == NotReady <==> r.value.score < 6)
    ensures r.Success? ==> r.value.questions == Questions
    ensures r.Success? ==> (StatusLabel(r.value.status) == "\U{2705} Ready" <==> r.value.score == 7)
    ensures r.Success? ==> (StatusLabel(r.value.status) == "\U{26A0}\U{FE0F} Partial" <==> r.value.score == 6)
    ensures r.Success? ==> (StatusLabel(r.value.status) == "\U{274C} Not Ready" <==> r.value.score < 6)
  {
    if |answers| != QuestionCount then
      Failure("Must provide exactly 7 answers")
    else
      CountTrueIsOccurrences(answers);
      var score := CountTrue(answers);
      if score >= 7 then Success(ReadinessResponse(score, Ready, true, Questions))
      else if score >= 6 then Success(ReadinessResponse(score, Partial, true, Questions))
      else Success(ReadinessResponse(score, NotReady, false, Questions))
  }
}
