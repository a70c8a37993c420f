/**
 * Top-k retrieval. The similarity of the question to each passage (TF-IDF
 * vectors compared by cosine) is an input here: `sims[i]` is the score of
 * passage `i`. Retrieval ranks the passages by descending score, keeps the
 * first `k`, and turns each kept index into a result record.
 */
module Retrieval {
  import opened Loader

  /** One retrieved passage: its score and the corpus entry it came from. */
  datatype Hit = Hit(score: real, id: string, source: string, themes: seq<string>, passage: string)

  function Min(a: int, b: int): int { if a < b then a else b }
  function Max(a: int, b: int): int { if a < b then b else a }

  // ---------------------------------------------------------------------
  // Rankings
  // ---------------------------------------------------------------------

  predicate InRange(order: seq<nat>, n: nat)
  {
    forall p :: 0 <= p < |order| ==> order[p] < n
  }

  predicate Distinct(order: seq<nat>)
  {
    forall p, q :: 0 <= p < q < |order| ==> order[p] != order[q]
  }

  /** The indices in `order` have non-increasing scores. */
  predicate Descending(sims: seq<real>, order: seq<nat>)
    requires InRange(order, |sims|)
  {
    forall p, q :: 0 <= p < q < |order| ==> sims[order[p]] >= sims[order[q]]
  }

  /**
   * `order` lists every passage index exactly once, best score first: what
   * `sims.argsort()[::-1]` returns, whatever order it gives to equal scores.
   */
  predicate IsRanking(sims: seq<real>, order: seq<nat>)
  {
    |order| == |sims| && InRange(order, |sims|) && Distinct(order)
    && Descending(sims, order) && forall i: nat :: i < |sims| ==> i in order
  }

  /** Inserts index `i` after every index whose score is at least `sims[i]`. */
  function Insert(sims: seq<real>, i: nat, order: seq<nat>): (r: seq<nat>)
    requires i < |sims| && InRange(order, |sims|)
    ensures |r| == |order| + 1 && InRange(r, |sims|)
    ensures forall x :: x in r <==> x == i || x in order
  {
    if order == [] then [i]
    else if sims[order[0]] >= sims[i] then [order[0]] + Insert(sims, i, order[1..])
    else [i] + order
  }

  /** Insertion keeps a descending order descending. */
  lemma {:induction false} InsertDescending(sims: seq<real>, i: nat, order: seq<nat>)
    requires i < |sims| && InRange(order, |sims|) && Descending(sims, order)
    ensures Descending(sims, Insert(sims, i, order))
  {
    if order != [] && sims[order[0]] >= sims[i] {
      var rest := Insert(sims, i, order[1..]);
      InsertDescending(sims, i, order[1..]);
      forall q | 0 <= q < |rest| ensures sims[order[0]] >= sims[rest[q]] {
        assert rest[q] in rest;
        if rest[q] != i {
          assert rest[q] in order[1..];
          var p :| 0 <= p < |order[1..]| && order[1..][p] == rest[q];
          assert order[p + 1] == rest[q];
        }
      }
    }
  }

  /** Inserting a new index keeps the indices distinct. */
  lemma {:induction false} InsertDistinct(sims: seq<real>, i: nat, order: seq<nat>)
    requires i < |sims| && InRange(order, |sims|) && Distinct(order) && i !in order
    ensures Distinct(Insert(sims, i, order))
  {
    if order != [] && sims[order[0]] >= sims[i] {
      var rest := Insert(sims, i, order[1..]);
      assert i !in order[1..];
      InsertDistinct(sims, i, order[1..]);
      assert order[0] !in rest;
    }
  }

  /** A ranking of the indices below `n`. */
  function RankPrefix(sims: seq<real>, n: nat): (r: seq<nat>)
    requires n <= |sims|
    ensures |r| == n && InRange(r, |sims|) && Distinct(r) && Descending(sims, r)
    ensures forall x: nat :: x in r <==> x < n
  {
    if n == 0 then []
    else
      var prev := RankPrefix(sims, n - 1);
      InsertDescending(sims, n - 1, prev);
      InsertDistinct(sims, n - 1, prev);
      Insert(sims, n - 1, prev)
  }

  /**
   * Every score list has a ranking: this one puts equal scores in corpus
   * order. NumPy promises no tie order, so retrieval below takes the
   * ranking as an input rather than using this one.
   */
  function Rank(sims: seq<real>): (order: seq<nat>)
    ensures IsRanking(sims, order)
  {
    RankPrefix(sims, |sims|)
  }

  // ---------------------------------------------------------------------
  // Top-k selection
  // ---------------------------------------------------------------------

  /** Python's slice `s[:k]`, where a negative `k` drops `-k` elements from the end. */
  function PyTake<T>(s: seq<T>, k: int): (r: seq<T>)
    ensures |r| == if k >= 0 then Min(k, |s|) else Max(0, |s| + k)
    ensures r == s[..|r|]
  {
    if k >= 0 then s[..Min(k, |s|)] else s[..Max(0, |s| + k)]
  }

  /**
   * `idx` is a top-k selection: `min(k, n)` distinct indices of the
   * corpus in non-increasing score order, and no index left out scores
   * higher than one chosen.
   */
  predicate IsTopK(sims: seq<real>, k: int, idx: seq<nat>)
  {
    |idx| == (if k >= 0 then Min(k, |sims|) else Max(0, |sims| + k))
    && InRange(idx, |sims|) && Distinct(idx) && Descending(sims, idx)
    && forall i: nat, j :: i < |sims| && i !in idx && 0 <= j < |idx| ==> sims[i] <= sims[idx[j]]
  }

  /** Every prefix of every ranking is a top-k selection, whatever its tie order. */
  lemma PrefixOfRankingIsTopK(sims: seq<real>, order: seq<nat>, k: int)
    requires IsRanking(sims, order)
    ensures IsTopK(sims, k, PyTake(order, k))
  {
    var idx := PyTake(order, k);
    forall i: nat, j | i < |sims| && i !in idx && 0 <= j < |idx| ensures sims[i] <= sims[idx[j]] {
      assert i in order;
      var p :| 0 <= p < |order| && order[p] == i;
      assert idx[j] == order[j];
    }
  }

  /**
   * The indices retrieve keeps, `order[:k]`, where `order` is the ranking
   * `argsort()[::-1]` returned.
   */
  function TopK(sims: seq<real>, order: seq<nat>, k: int): (idx: seq<nat>)
    requires IsRanking(sims, order)
    ensures IsTopK(sims, k, idx)
    ensures idx == order[..|idx|]
  {
    PrefixOfRankingIsTopK(sims, order, k);
    PyTake(order, k)
  }

  /**
   * Equal scores may come in any order: with four equal scores the
   * reversed corpus order is a ranking, and its top three are 3, 2, 1.
   */
  lemma ReversedTiesRank(sims: seq<real>)
    requires sims == [0.0, 0.0, 0.0, 0.0]
    ensures IsRanking(sims, [3, 2, 1, 0])
    ensures TopK(sims, [3, 2, 1, 0], 3) == [3, 2, 1]
  {
    var order: seq<nat> := [3, 2, 1, 0];
    forall i: nat | i < |sims| ensures i in order {
      assert order[3 - i] == i;
    }
  }

  // ---------------------------------------------------------------------
  // Scores do not depend on the tie order
  // ---------------------------------------------------------------------

  /** The scores met walking along `order`. */
  function ScoresAlong(sims: seq<real>, order: seq<nat>): (r: seq<real>)
    requires InRange(order, |sims|)
    ensures |r| == |order| && forall p :: 0 <= p < |order| ==> r[p] == sims[order[p]]
  {
    seq(|order|, p requires 0 <= p < |order| => sims[order[p]])
  }

  function Elements(s: seq<nat>): set<nat>
  {
    set x | x in s
  }

  lemma {:induction false} ElementsBound(s: seq<nat>)
    ensures |Elements(s)| <= |s|
  {
    if s != [] {
      var init := s[..|s| - 1];
      ElementsBound(init);
      assert Elements(s) == Elements(init) + {s[|s| - 1]};
    }
  }

  lemma {:induction false} ElementsOfDistinct(s: seq<nat>)
    requires Distinct(s)
    ensures |Elements(s)| == |s|
  {
    if s != [] {
      var init := s[..|s| - 1];
      ElementsOfDistinct(init);
      assert Elements(s) == Elements(init) + {s[|s| - 1]};
      assert s[|s| - 1] !in Elements(init);
    }
  }

  /** Distinct indices that all occur in `b` are no more than `b` is long. */
  lemma Pigeonhole(a: seq<nat>, b: seq<nat>)
    requires Distinct(a) && forall x :: x in a ==> x in b
    ensures |a| <= |b|
  {
    ElementsOfDistinct(a);
    ElementsBound(b);
    assert Elements(a) <= Elements(b);
    assert Elements(b) == Elements(a) + (Elements(b) - Elements(a));
  }

  /**
   * The score at position `p` of one top-k selection is at most the score
   * at the same position of another: otherwise the `p + 1` indices the
   * first puts up to `p` would all have to fit in the `p` positions the
   * second puts before `p`.
   */
  lemma TopKScoreNotAbove(sims: seq<real>, k: int, a: seq<nat>, b: seq<nat>, p: nat)
    requires IsTopK(sims, k, a) && IsTopK(sims, k, b) && p < |a|
    ensures sims[a[p]] <= sims[b[p]]
  {
    if sims[a[p]] > sims[b[p]] {
      var top := a[..p + 1];
      var before := b[..p];
      assert Distinct(top);
      forall x | x in top ensures x in before {
        var q :| 0 <= q < |top| && top[q] == x;
        assert sims[x] >= sims[a[p]];
        assert x in b;
        var r :| 0 <= r < |b| && b[r] == x;
        assert before[r] == x;
      }
      Pigeonhole(top, before);
    }
  }

  /**
   * Any two top-k selections meet the same scores in the same order, so
   * the scores `retrieve` returns do not depend on how ties are broken.
   */
  lemma TopKScoresAgree(sims: seq<real>, k: int, a: seq<nat>, b: seq<nat>)
    requires IsTopK(sims, k, a) && IsTopK(sims, k, b)
    ensures ScoresAlong(sims, a) == ScoresAlong(sims, b)
  {
    forall p | 0 <= p < |a| ensures sims[a[p]] == sims[b[p]] {
      TopKScoreNotAbove(sims, k, a, b, p);
      TopKScoreNotAbove(sims, k, b, a, p);
    }
  }

  // ---------------------------------------------------------------------
  // Result records
  // ---------------------------------------------------------------------

  /** The scores are those of the corpus entries, one per entry. */
  predicate Aligned(corpus: Corpus, sims: seq<real>)
  {
    |corpus.texts| == |sims| && |corpus.meta| == |sims|
  }

  /** The result record for corpus entry `i`. */
  function HitAt(corpus: Corpus, sims: seq<real>, i: nat): Hit
    requires Aligned(corpus, sims) && i < |sims|
  {
    Hit(sims[i], corpus.meta[i].id, corpus.meta[i].source, corpus.meta[i].themes, corpus.texts[i])
  }

  /** The result records for the indices `idx`, in their order. */
  function HitsAt(corpus: Corpus, sims: seq<real>, idx: seq<nat>): (hits: seq<Hit>)
    requires Aligned(corpus, sims) && InRange(idx, |sims|)
    ensures |hits| == |idx| && forall j :: 0 <= j < |idx| ==> hits[j] == HitAt(corpus, sims, idx[j])
  {
    seq(|idx|, j requires 0 <= j < |idx| => HitAt(corpus, sims, idx[j]))
  }

  /**
   * What `retrieve(query, k)` returns when `argsort()[::-1]` gave `order`:
   * one record per index of `order[:k]`, in that order, with that entry's
   * score, metadata and text.
   */
  function Retrieved(corpus: Corpus, sims: seq<real>, order: seq<nat>, k: int): (hits: seq<Hit>)
    requires Aligned(corpus, sims) && IsRanking(sims, order)
    ensures k >= 0 ==> |hits| == Min(k, |sims|)
    ensures forall p, q :: 0 <= p < q < |hits| ==> hits[p].score >= hits[q].score
    ensures |hits| == |TopK(sims, order, k)|
    ensures forall j :: 0 <= j < |hits| ==>
      var i := order[j];
      hits[j].score == sims[i] && hits[j].id == corpus.meta[i].id && hits[j].source == corpus.meta[i].source
      && hits[j].themes == corpus.meta[i].themes && hits[j].passage == corpus.texts[i]
    ensures forall i: nat, j :: i < |sims| && i !in order[..|hits|] && 0 <= j < |hits| ==> sims[i] <= hits[j].score
    ensures (forall i :: 0 <= i < |sims| ==> 0.0 <= sims[i]) ==> forall j :: 0 <= j < |hits| ==> 0.0 <= hits[j].score
  {
    HitsAt(corpus, sims, TopK(sims, order, k))
  }

  /** The loop of `retrieve`: one record per index of `idx`, appended in order. */
  method CollectHits(corpus: Corpus, sims: seq<real>, idx: seq<nat>) returns (results: seq<Hit>)
    requires Aligned(corpus, sims) && InRange(idx, |sims|)
    ensures results == HitsAt(corpus, sims, idx)
  {
    results := [];
    for j := 0 to |idx|
      invariant |results| == j
      invariant forall t :: 0 <= t < j ==> results[t] == HitAt(corpus, sims, idx[t])
    {
      var i := idx[j];
      results := results + [Hit(sims[i], corpus.meta[i].id, corpus.meta[i].source, corpus.meta[i].themes, corpus.texts[i])];
    }
  }

  /** `retrieve(query, k)`: select the indices, then collect their records. */
  method Retrieve(corpus: Corpus, sims: seq<real>, order: seq<nat>, k: int) returns (results: seq<Hit>)
    requires Aligned(corpus, sims) && IsRanking(sims, order)
    ensures results == Retrieved(corpus, sims, order, k)
  {
    var idx := TopK(sims, order, k);
    results := CollectHits(corpus, sims, idx);
  }
}
