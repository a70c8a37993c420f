/**
 * What happens when the user presses "Think": a blank question is sent
 * back with a warning, a risky one is refused, and any other question is
 * answered from the three best-scoring passages.
 */
module App {
  import opened Text
  import opened Safety
  import opened Loader
  import opened Retrieval
  import opened Composer

  const BlankWarning: string := "Type a question first."

  const RiskRefusal: string :=
    "This appears high-risk (medical/legal/self-harm/violence). I cannot advise specific actions. "
    + "Please consult qualified help or escalate to a responsible human."

  /** How many passages an answer is built from. */
  const PassageCount: int := 3

  /** What the page shows for one question. */
  datatype Outcome = Warning(message: string) | Refusal(message: string) | Answered(answer: Answer)

  /**
   * The reply to question `q`, given the corpus, the similarity `sims` of
   * `q` to each of its passages, and the ranking `order` that
   * `argsort()[::-1]` gave those scores.
   */
  function Dispatch(q: string, corpus: Corpus, sims: seq<real>, order: seq<nat>): (o: Outcome)
    requires Aligned(corpus, sims) && IsRanking(sims, order)
    ensures o.Warning? <==> AllSpace(q)
    ensures o.Refusal? <==> !AllSpace(q) && IsRisky(q)
    ensures o.Warning? ==> o.message == BlankWarning
    ensures o.Refusal? ==> o.message == RiskRefusal
    ensures o.Answered? ==> o.answer == Compose(q, Retrieved(corpus, sims, order, PassageCount))
  {
    StripEmptyIffAllSpace(q);
    if Strip(q) == [] then Warning(BlankWarning)
    else if IsRisky(q) then Refusal(RiskRefusal)
    else Answered(Compose(q, Retrieved(corpus, sims, order, PassageCount)))
  }

  /**
   * A blank or risky question gets the same reply whatever the corpus, the
   * scores and their ranking: retrieval and reasoning play no part in it.
   */
  lemma StopsBeforeRetrieval(q: string, c1: Corpus, s1: seq<real>, o1: seq<nat>, c2: Corpus, s2: seq<real>, o2: seq<nat>)
    requires Aligned(c1, s1) && IsRanking(s1, o1) && Aligned(c2, s2) && IsRanking(s2, o2)
    requires AllSpace(q) || IsRisky(q)
    ensures Dispatch(q, c1, s1, o1) == Dispatch(q, c2, s2, o2)
    ensures !Dispatch(q, c1, s1, o1).Answered?
  {
  }

  /** A blank question is never risky, so the warning shadows no refusal. */
  lemma BlankNeverRefused(q: string, corpus: Corpus, sims: seq<real>, order: seq<nat>)
    requires Aligned(corpus, sims) && IsRanking(sims, order)
    ensures Dispatch(q, corpus, sims, order).Warning? ==> !IsRisky(q)
  {
    if AllSpace(q) {
      AllSpaceNotRisky(q);
    }
  }

  /**
   * A question that is neither blank nor risky is answered, with a
   * non-blank context, one principle and one citation for each of the
   * min(3, n) best passages, and a confidence in [0, 1] when the scores are.
   */
  lemma AnswerShape(q: string, corpus: Corpus, sims: seq<real>, order: seq<nat>)
    requires Aligned(corpus, sims) && IsRanking(sims, order)
    requires !AllSpace(q) && !IsRisky(q)
    ensures Dispatch(q, corpus, sims, order).Answered?
    ensures var a := Dispatch(q, corpus, sims, order).answer;
      a.context != [] && |a.principles| == Min(3, |sims|) && |a.citations| == Min(3, |sims|)
    ensures (forall i :: 0 <= i < |sims| ==> 0.0 <= sims[i] <= 1.0) ==>
      0.0 <= Dispatch(q, corpus, sims, order).answer.confidence <= 1.0
  {
    StripEmptyIffAllSpace(q);
    var hits := Retrieved(corpus, sims, order, PassageCount);
    if forall i :: 0 <= i < |sims| ==> 0.0 <= sims[i] <= 1.0 {
      assert forall j :: 0 <= j < |hits| ==> 0.0 <= hits[j].score <= 1.0 by {
        forall j | 0 <= j < |hits| ensures 0.0 <= hits[j].score <= 1.0 {
          assert hits[j].score == sims[order[j]];
        }
      }
      ConfidenceInUnitRange(q, hits);
    }
  }

  /**
   * NumPy may order equal scores either way, which can change the passages
   * an answer cites but not whether the question is answered, nor the
   * answer's confidence or recommendation.
   */
  lemma VerdictIgnoresTieOrder(q: string, corpus: Corpus, sims: seq<real>, order1: seq<nat>, order2: seq<nat>)
    requires Aligned(corpus, sims) && IsRanking(sims, order1) && IsRanking(sims, order2)
    ensures Dispatch(q, corpus, sims, order1).Answered? == Dispatch(q, corpus, sims, order2).Answered?
    ensures !Dispatch(q, corpus, sims, order1).Answered? ==> Dispatch(q, corpus, sims, order1) == Dispatch(q, corpus, sims, order2)
    ensures Dispatch(q, corpus, sims, order1).Answered? ==>
      Dispatch(q, corpus, sims, order1).answer.confidence == Dispatch(q, corpus, sims, order2).answer.confidence
      && Dispatch(q, corpus, sims, order1).answer.recommendation == Dispatch(q, corpus, sims, order2).answer.recommendation
  {
    var idx1 := TopK(sims, order1, PassageCount);
    var idx2 := TopK(sims, order2, PassageCount);
    TopKScoresAgree(sims, PassageCount, idx1, idx2);
    assert Scores(HitsAt(corpus, sims, idx1)) == ScoresAlong(sims, idx1);
    assert Scores(HitsAt(corpus, sims, idx2)) == ScoresAlong(sims, idx2);
  }
}
