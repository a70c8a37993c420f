/** The keyword guardrail that decides whether a question is refused as high-risk. */
module Safety {
  import opened Text

  /** The thirteen risk keywords, all in lower case. */
  const RiskyKeywords: seq<string> := [
    "medical", "diagnose", "law", "illegal", "violence", "self-harm", "weapon",
    "suicide", "harm yourself", "attack", "revenge", "hack", "exploit"
  ]

  /** Whether some keyword of `kws` occurs in `s` (Python's `any(k in s for k in kws)`). */
  function AnyIn(s: string, kws: seq<string>): (r: bool)
    ensures r <==> exists j :: 0 <= j < |kws| && Contains(s, kws[j])
  {
    if kws == [] then false
    else Contains(s, kws[0]) || AnyIn(s, kws[1..])
  }

  /** A question is risky when some keyword is a substring of its lower-cased text. */
  function IsRisky(q: string): (r: bool)
    ensures r <==> exists j :: 0 <= j < |RiskyKeywords| && Contains(Lower(q), RiskyKeywords[j])
  {
    AnyIn(Lower(q), RiskyKeywords)
  }

  /** Two questions that differ only in the case of their letters get the same verdict. */
  lemma IgnoresCase(q1: string, q2: string)
    requires |q1| == |q2|
    requires forall i :: 0 <= i < |q1| ==> LowerChar(q1[i]) == LowerChar(q2[i])
    ensures IsRisky(q1) == IsRisky(q2)
  {
    assert Lower(q1) == Lower(q2);
  }

  /** Adding text before or after a risky question never makes it safe. */
  lemma RiskyInContext(p: string, q: string, t: string)
    requires IsRisky(q)
    ensures IsRisky(p + q + t)
  {
    var j :| 0 <= j < |RiskyKeywords| && Contains(Lower(q), RiskyKeywords[j]);
    ContainsInContext(Lower(p), Lower(q), Lower(t), RiskyKeywords[j]);
    LowerAppend(p, q);
    LowerAppend(p + q, t);
  }

  /** Every keyword starts with a lower-case letter. */
  lemma KeywordsStartWithLetter(j: int)
    requires 0 <= j < |RiskyKeywords|
    ensures RiskyKeywords[j] != [] && 'a' <= RiskyKeywords[j][0] <= 'z'
  {
  }

  /** A question made only of whitespace is never risky: every keyword starts with a letter. */
  lemma AllSpaceNotRisky(q: string)
    requires AllSpace(q)
    ensures !IsRisky(q)
  {
    var s := Lower(q);
    forall j | 0 <= j < |RiskyKeywords| ensures !Contains(s, RiskyKeywords[j]) {
      var kw := RiskyKeywords[j];
      KeywordsStartWithLetter(j);
    }
  }

  /** A question that mentions a lawyer and illegality is refused. */
  lemma LawyerQuestionIsRisky(q: string)
    requires q == "Should I report this to a lawyer, it might be illegal"
    ensures IsRisky(q)
  {
    var before, after := "Should I report this to a ", "yer, it might be illegal";
    assert q == before + "law" + after;
    assert Lower("law") == "law";
    assert OccursAt(RiskyKeywords[2], Lower("law"), 0);
    RiskyInContext(before, "law", after);
  }

  /** Upper case does not get past the guardrail. */
  lemma ShoutedKeywordIsRisky(q: string)
    requires q == "REVENGE?"
    ensures IsRisky(q)
  {
    assert Lower(q)[0..7] == "revenge";
    assert OccursAt(RiskyKeywords[10], Lower(q), 0);
  }
}
