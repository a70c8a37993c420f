/**
 * The rule-based answer template: one principle line and one citation per
 * retrieved passage, fixed options and trade-offs, a confidence that is
 * the mean retrieval score, and a recommendation picked by one threshold.
 */
module Composer {
  import opened Text
  import opened Retrieval

  /** The answer shown to the user. */
  datatype Answer = Answer(
    context: string,
    principles: seq<string>,
    options: seq<string>,
    tradeoffs: seq<string>,
    recommendation: string,
    confidence: real,
    citations: seq<string>)

  const Options: seq<string> := [
    "Act cautiously with minimal reversible steps.",
    "Seek more information or a second perspective.",
    "Defer to a qualified human if stakes are high."
  ]

  const Tradeoffs: seq<string> := [
    "- Caution reduces harm but may delay benefits.",
    "- Gathering info takes time but improves accuracy.",
    "- Deferring improves safety but reduces autonomy."
  ]

  const Uncertain: string := "Uncertain. Acquire more context, then reconsider."

  const Cautious: string :=
    "Prioritize non-harm and truthfulness; take a reversible step and review impact. "
    + "If people\U{2019}s safety/rights are involved, escalate to a human."

  /** Below this mean score the answer admits it is uncertain. */
  const Threshold: real := 0.05

  /** The separator " — " (space, em dash, space) used in principle lines and citations. */
  const DashSep: string := " \U{2014} "

  // ---------------------------------------------------------------------
  // Principles and citations
  // ---------------------------------------------------------------------

  /** The passage's themes joined by ", ", or "principle" when it has none. */
  function Label(themes: seq<string>): string
  {
    if themes != [] then Join(themes, ", ") else "principle"
  }

  /** The markdown line `- From {source}: _{label}_ — "{passage}"`. */
  function PrincipleLine(p: Hit): string
  {
    "- From " + p.source + ": _" + Label(p.themes) + "_" + DashSep + "\U{201C}" + p.passage + "\U{201D}"
  }

  function Principles(ps: seq<Hit>): (r: seq<string>)
    ensures |r| == |ps| && forall j :: 0 <= j < |ps| ==> r[j] == PrincipleLine(ps[j])
  {
    seq(|ps|, j requires 0 <= j < |ps| => PrincipleLine(ps[j]))
  }

  /** The citation `{id} — {source}`. */
  function Citation(p: Hit): string
  {
    p.id + DashSep + p.source
  }

  function Citations(ps: seq<Hit>): (r: seq<string>)
    ensures |r| == |ps| && forall j :: 0 <= j < |ps| ==> r[j] == Citation(ps[j])
  {
    seq(|ps|, j requires 0 <= j < |ps| => Citation(ps[j]))
  }

  /** A principle line quotes its passage verbatim. */
  lemma PrincipleQuotesPassage(p: Hit)
    ensures Contains(PrincipleLine(p), p.passage)
  {
    var before := "- From " + p.source + ": _" + Label(p.themes) + "_" + DashSep + "\U{201C}";
    assert PrincipleLine(p) == before + p.passage + "\U{201D}";
    assert OccursAt(p.passage, p.passage, 0);
    ContainsInContext(before, p.passage, "\U{201D}", p.passage);
  }

  /** A principle line names its passage's source. */
  lemma PrincipleNamesSource(p: Hit)
    ensures Contains(PrincipleLine(p), p.source)
  {
    var after := ": _" + Label(p.themes) + "_" + DashSep + "\U{201C}" + p.passage + "\U{201D}";
    assert PrincipleLine(p) == "- From " + p.source + after;
    assert OccursAt(p.source, p.source, 0);
    ContainsInContext("- From ", p.source, after, p.source);
  }

  /** A principle line names every theme of its passage, or says "principle" when there is none. */
  lemma PrincipleNamesThemes(p: Hit)
    ensures forall j :: 0 <= j < |p.themes| ==> Contains(PrincipleLine(p), p.themes[j])
    ensures p.themes == [] ==> Contains(PrincipleLine(p), "principle")
  {
    var tag := Label(p.themes);
    var pre := "- From " + p.source + ": _";
    var post := "_" + DashSep + "\U{201C}" + p.passage + "\U{201D}";
    assert PrincipleLine(p) == pre + tag + post;
    forall j | 0 <= j < |p.themes| ensures Contains(PrincipleLine(p), p.themes[j]) {
      JoinContainsEach(p.themes, ", ", j);
      ContainsInContext(pre, tag, post, p.themes[j]);
    }
    if p.themes == [] {
      assert OccursAt("principle", tag, 0);
      ContainsInContext(pre, tag, post, "principle");
    }
  }

  /** A citation is the passage's id, an em dash, and its source. */
  lemma CitationParts(p: Hit)
    ensures |Citation(p)| == |p.id| + 3 + |p.source|
    ensures Citation(p)[..|p.id|] == p.id
    ensures Citation(p)[|p.id| + 3..] == p.source
    ensures Citation(p)[|p.id|..|p.id| + 3] == DashSep
  {
  }

  // ---------------------------------------------------------------------
  // Confidence and recommendation
  // ---------------------------------------------------------------------

  function Sum(xs: seq<real>): real
  {
    if xs == [] then 0.0 else xs[0] + Sum(xs[1..])
  }

  /** The arithmetic mean, and 0 for no values. */
  function Mean(xs: seq<real>): (m: real)
    ensures xs == [] ==> m == 0.0
    ensures xs != [] ==> m * (|xs| as real) == Sum(xs)
  {
    if xs == [] then 0.0 else Sum(xs) / (|xs| as real)
  }

  lemma {:induction false} SumBounds(xs: seq<real>, lo: real, hi: real)
    requires forall i :: 0 <= i < |xs| ==> lo <= xs[i] <= hi
    ensures (|xs| as real) * lo <= Sum(xs) <= (|xs| as real) * hi
  {
    if xs != [] {
      SumBounds(xs[1..], lo, hi);
    }
  }

  /** A mean lies between the smallest and the largest value. */
  lemma MeanBounds(xs: seq<real>, lo: real, hi: real)
    requires xs != []
    requires forall i :: 0 <= i < |xs| ==> lo <= xs[i] <= hi
    ensures lo <= Mean(xs) <= hi
  {
    SumBounds(xs, lo, hi);
  }

  function Scores(ps: seq<Hit>): (r: seq<real>)
    ensures |r| == |ps| && forall j :: 0 <= j < |ps| ==> r[j] == ps[j].score
  {
    seq(|ps|, j requires 0 <= j < |ps| => ps[j].score)
  }

  /** The recommendation for a mean score. */
  function Recommend(conf: real): (rec: string)
    ensures rec == Uncertain <==> conf < Threshold
    ensures rec == Uncertain || rec == Cautious
  {
    if conf < Threshold then Uncertain else Cautious
  }

  // ---------------------------------------------------------------------
  // The answer
  // ---------------------------------------------------------------------

  /** What `reason(query, passages)` returns. */
  function Compose(query: string, passages: seq<Hit>): (a: Answer)
    ensures |a.principles| == |passages| && |a.citations| == |passages|
    ensures forall j :: 0 <= j < |passages| ==>
      a.principles[j] == PrincipleLine(passages[j]) && a.citations[j] == Citation(passages[j])
    ensures a.options == Options && a.tradeoffs == Tradeoffs
    ensures a.context == Strip(query)
    ensures a.confidence == Mean(Scores(passages))
    ensures a.recommendation == Uncertain <==> a.confidence < Threshold
    ensures a.recommendation == Uncertain || a.recommendation == Cautious
  {
    var conf := Mean(Scores(passages));
    Answer(Strip(query), Principles(passages), Options, Tradeoffs, Recommend(conf), conf, Citations(passages))
  }

  /**
   * `reason`: the loop that builds one principle line per passage, then
   * the fixed lists, the mean score, the recommendation and the citations.
   */
  method Reason(query: string, passages: seq<Hit>) returns (a: Answer)
    ensures a == Compose(query, passages)
  {
    var principles := [];
    for j := 0 to |passages|
      invariant |principles| == j
      invariant forall t :: 0 <= t < j ==> principles[t] == PrincipleLine(passages[t])
    {
      var p := passages[j];
      var tag := if p.themes != [] then Join(p.themes, ", ") else "principle";
      principles := principles + ["- From " + p.source + ": _" + tag + "_" + DashSep + "\U{201C}" + p.passage + "\U{201D}"];
    }
    var conf := if passages != [] then Mean(Scores(passages)) else 0.0;
    var rec := if conf < Threshold then Uncertain else Cautious;
    var citations := seq(|passages|, j requires 0 <= j < |passages| => passages[j].id + DashSep + passages[j].source);
    assert principles == Principles(passages);
    assert citations == Citations(passages);
    a := Answer(Strip(query), principles, Options, Tradeoffs, rec, conf, citations);
  }

  /** No passages: no principles, no citations, confidence 0 and the uncertain message. */
  lemma EmptyPassages(query: string)
    ensures Compose(query, []).principles == [] && Compose(query, []).citations == []
    ensures Compose(query, []).confidence == 0.0
    ensures Compose(query, []).recommendation == Uncertain
  {
  }

  /** Scores in [0, 1], as cosine similarities are, give a confidence in [0, 1]. */
  lemma ConfidenceInUnitRange(query: string, passages: seq<Hit>)
    requires forall j :: 0 <= j < |passages| ==> 0.0 <= passages[j].score <= 1.0
    ensures 0.0 <= Compose(query, passages).confidence <= 1.0
  {
    if passages != [] {
      MeanBounds(Scores(passages), 0.0, 1.0);
    }
  }

  /** Three passages scoring 0.9, 0.6 and 0.3 give confidence 0.6. */
  lemma ConfidenceExample(ps: seq<Hit>)
    requires |ps| == 3 && ps[0].score == 0.9 && ps[1].score == 0.6 && ps[2].score == 0.3
    ensures Compose("", ps).confidence == 0.6
  {
    var xs := Scores(ps);
    assert xs[1..][1..][1..] == [];
    assert Sum(xs[1..][1..]) == 0.3;
    assert Sum(xs[1..]) == 0.9;
    assert Sum(xs) == 1.8;
  }

  /** The threshold belongs to the confident side: 0.05 is not uncertain, 0.049999 is. */
  lemma ThresholdBoundary()
    ensures Recommend(0.05) == Cautious
    ensures Recommend(0.049999) == Uncertain
  {
  }
}
