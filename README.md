# Vedic Ethics Robot: the retrieval-and-template pipeline in Dafny

The app answers an ethical question in four steps:

1. It turns away a blank question.
2. It refuses a question that contains one of thirteen risk keywords.
3. It retrieves up to three passages of a small curated corpus, those that score highest against the question. A corpus of fewer than three passages gives fewer.
4. It fills a fixed answer template from those passages. The template has principle lines, canned options and trade-offs, a confidence, a recommendation picked by a threshold on that confidence, and citations.

This project models that pipeline in Dafny and proves what each step promises.

Files and modules:

- `wrappers.dfy` (`Wrappers`): `Option` and `Result`.
- `text.dfy` (`Text`): the Python string operations the app uses. These are `lower`, `strip`, the substring test `k in s` and `sep.join`.
- `safety.dfy` (`Safety`): the keyword guardrail `is_risky`.
- `loader.dfy` (`Loader`): reading the corpus. Lines that do not parse are skipped. The surviving records are split into parallel `texts` and `meta` lists.
- `retrieval.dfy` (`Retrieval`): ranking by score, top-k selection, and the result records of `retrieve`.
- `composer.dfy` (`Composer`): the answer template `reason`.
- `app.dfy` (`App`): the blank / risky / answer dispatch behind the "Think" button.

How the model treats things it cannot compute:

- Similarity scores are inputs. `sims[i]` is the cosine similarity of the question to passage `i`.
- Each corpus line arrives already parsed. It is either a `Record` or `Malformed`.
- The ranking that `sims.argsort()[::-1]` returns is an input too. `Retrieved`, `Retrieve` and `Dispatch` take it as `order`, and require only `IsRanking(sims, order)`: every index once, in non-increasing score order. That predicate accepts every order of equal scores. `Rank` shows that every score list has a ranking. `ReversedTiesRank` shows that tied passages may come in reverse corpus order.
- Scores and confidence are exact `real`s.

Two behaviours of `app.py` that are easy to misread:

- A record that parses but has no `"passage"` key is not skipped. The projection at `app.py:29` raises `KeyError`. `Loader.Project` returns `Failure(MissingPassage(i))` for the first such record `i`.
- `app.py:53` fixes no order among equal scores. NumPy's default `argsort` is not stable, so it promises no order among ties. Even a stable sort would not give corpus order, because `[::-1]` reverses whatever tie order `argsort` gives. The model fixes no tie order: the retrieved records are stated in terms of whichever ranking is given. The tie order can change which passages an answer cites. `VerdictIgnoresTieOrder` proves that it cannot change whether the question is answered, nor the confidence or the recommendation.

## Model

| member | source | states |
|---|---|---|
| `Safety.IsRisky` | app.py:39-45 | a question is risky exactly when one of the thirteen keywords is a substring of the lower-cased question |
| `Text.LowerChar` | app.py:44 | the lowering `k in q.lower()` needs for ASCII keywords, on one character: ASCII `A`-`Z` to `a`-`z`, the Kelvin sign to `k`, and no change to any other character |
| `Text.Lower` | app.py:44 | the lowering `k in q.lower()` needs for ASCII keywords: the result has the same length, and each character is `LowerChar` of the character at that position |
| `Safety.AnyIn` | app.py:45 | `any(k in s for k in kws)` holds exactly when some keyword of the list occurs in `s` |
| `Text.Contains` | app.py:45 | `k in s` holds exactly when `k` occurs at some index of `s` |
| `Safety.IgnoresCase` | app.py:43-45 | two questions that differ only in letter case get the same verdict |
| `Safety.RiskyInContext` | app.py:43-45 | adding text before or after a risky question keeps it risky |
| `Safety.AllSpaceNotRisky` | app.py:39-45 | a question made only of whitespace is never risky, because every keyword starts with a letter |
| `Safety.LawyerQuestionIsRisky` | app.py:39-45 | "Should I report this to a lawyer, it might be illegal" is refused, through the keyword "law" |
| `Safety.ShoutedKeywordIsRisky` | app.py:43-45 | an upper-case keyword ("REVENGE?") is still caught |
| `Text.Strip` | app.py:100 | `strip()` yields the part of the string between leading and trailing whitespace; the result neither starts nor ends with whitespace |
| `Text.StrippedUnique` | app.py:100 | that description fixes the stripped string uniquely |
| `Text.StripEmptyIffAllSpace` | app.py:120 | `not q.strip()` holds exactly when the question is all whitespace |
| `Text.StripIdempotent` | app.py:100 | stripping a stripped string changes nothing |
| `Text.Join` | app.py:73 | `sep.join(xs)`: the elements in order with `sep` between neighbours, and `""` for no elements |
| `Text.JoinContainsEach` | app.py:73 | every theme occurs in the joined string |
| `Loader.Kept` | app.py:21-27 | the records of the lines that parse, in file order; a malformed line contributes nothing |
| `Loader.LoadDocs` | app.py:21-27 | the loading loop appends exactly the records of the lines that parse |
| `Loader.KeptExactlyParsed` | app.py:21-27 | the kept records are the parsed lines' records, in file order; no parsed line is dropped and none appears twice |
| `Loader.MetaOf` | app.py:30 | the metadata triple of a record: its id, source and theme list, with `""`, `""` and `[]` where a key is missing |
| `Loader.Project` | app.py:29-30 | `texts` and `meta` have the length of `docs`; entry `i` of each comes from `docs[i]`, with `""`, `""` and `[]` for a missing id, source and theme; a record without a passage fails at the first such index |
| `Loader.OneGoodOneMalformed` | app.py:21-30 | one good line plus one malformed line loads a corpus of one passage |
| `Retrieval.IsRanking` | app.py:53 | what `sims.argsort()[::-1]` returns: every passage index exactly once, in non-increasing score order, with equal scores in any order |
| `Retrieval.Insert` | app.py:53 | inserting an index into a ranking adds that index and nothing else |
| `Retrieval.InsertDescending` | app.py:53 | insertion keeps scores non-increasing |
| `Retrieval.InsertDistinct` | app.py:53 | inserting a new index keeps the indices distinct |
| `Retrieval.Rank` | app.py:53 | the reference ranking lists every passage index exactly once, in non-increasing score order |
| `Retrieval.ReversedTiesRank` | app.py:53 | with four equal scores, the reversed corpus order is a ranking and its top three are 3, 2, 1, so tied passages need not come in corpus order |
| `Retrieval.PyTake` | app.py:53 | Python's `s[:k]`: the first `min(k, n)` elements for `k >= 0`, and all but the last `-k` for negative `k` |
| `Retrieval.PrefixOfRankingIsTopK` | app.py:53 | the first `k` of any ranking are `min(k, n)` distinct indices in `[0, n)`, in non-increasing score order, and no index left out scores above a chosen one; negative `k` follows Python slicing |
| `Retrieval.TopK` | app.py:53 | the indices `retrieve` keeps are a prefix of the given ranking and form such a top-k selection |
| `Retrieval.Pigeonhole` | app.py:53 | distinct indices that all occur in a list are no more than that list is long |
| `Retrieval.TopKScoreNotAbove` | app.py:53 | position `p` of one top-`k` selection never scores above position `p` of another selection of the same scores |
| `Retrieval.TopKScoresAgree` | app.py:53 | any two top-`k` selections of the same scores meet the same scores in the same order, so the first `k` scores do not depend on how ties are ordered |
| `Retrieval.HitAt` | app.py:56-63 | the result record for index `i`: score `sims[i]`, id, source and themes from `meta[i]`, passage `texts[i]` |
| `Retrieval.HitsAt` | app.py:55-63 | one record per index, in order, each built from that index's score, metadata and text |
| `Retrieval.Retrieved` | app.py:50-64 | for the ranking `order` that `argsort()[::-1]` gave, `retrieve(q, k)` has `min(k, n)` records in non-increasing score order; record `j`'s score, id, source, themes and passage are `sims[i]`, `meta[i]` and `texts[i]` for `i = order[j]`; no passage left out scores above a retrieved one; scores are non-negative when the similarities are |
| `Retrieval.CollectHits` | app.py:54-63 | the loop appending one record per selected index returns exactly the records `HitsAt` describes, in the same order |
| `Retrieval.Retrieve` | app.py:50-64 | the method selects the top `k` and collects their records, returning exactly `Retrieved(corpus, sims, order, k)` |
| `Composer.Label` | app.py:73 | a passage's themes joined by ", ", or "principle" when it has none |
| `Composer.PrincipleLine` | app.py:74 | the markdown line `- From {source}: _{label}_ — “{passage}”` |
| `Composer.Principles` | app.py:71-74 | one principle line per passage, in input order |
| `Composer.PrincipleQuotesPassage` | app.py:74 | a principle line quotes its passage verbatim |
| `Composer.PrincipleNamesSource` | app.py:74 | a principle line names its passage's source |
| `Composer.PrincipleNamesThemes` | app.py:73-74 | a principle line names every theme of its passage, or "principle" when there are none |
| `Composer.Citations` | app.py:98 | one citation per passage, in input order |
| `Composer.Citation` | app.py:98 | the citation `{id} — {source}` |
| `Composer.CitationParts` | app.py:98 | a citation is the id, then " — ", then the source |
| `Composer.Sum` | app.py:89 | the sum of the scores, 0 for none |
| `Composer.Mean` | app.py:89 | confidence is 0 for no passages, and otherwise times the passage count equals the sum of the scores |
| `Composer.SumBounds` | app.py:89 | `n` values in `[lo, hi]` sum to between `n*lo` and `n*hi` |
| `Composer.MeanBounds` | app.py:89 | a mean lies between the smallest and largest score |
| `Composer.Scores` | app.py:89 | the score list has one entry per passage, each that passage's score |
| `Composer.Recommend` | app.py:93-96 | the recommendation is the "Uncertain" message exactly when the mean is below 0.05, and the non-harm message otherwise |
| `Composer.ThresholdBoundary` | app.py:93-96 | a mean of exactly 0.05 gets the non-harm message; 0.049999 gets "Uncertain" |
| `Composer.Compose` | app.py:69-107 | `reason` gives one principle line and one citation per passage in input order; the same three options and three trade-offs for every input; the stripped question as context; the mean score as confidence; "Uncertain" exactly when that mean is below 0.05 |
| `Composer.Reason` | app.py:69-107 | the loop building the principle lines, followed by the rest of `reason`, returns exactly that answer |
| `Composer.EmptyPassages` | app.py:89-98 | no passages give no principles, no citations, confidence 0 and the "Uncertain" message |
| `Composer.ConfidenceInUnitRange` | app.py:89 | scores in `[0, 1]` give a confidence in `[0, 1]` |
| `Composer.ConfidenceExample` | app.py:89 | scores 0.9, 0.6 and 0.3 give confidence 0.6 |
| `App.Dispatch` | app.py:119-126 | the warning comes exactly for all-whitespace questions; the refusal comes exactly for other risky questions; every other question gets `reason(q, retrieve(q, 3))`, with the top three taken from the given ranking |
| `App.StopsBeforeRetrieval` | app.py:119-123 | a blank or risky question gets the same reply whatever the corpus, scores and ranking, so retrieval plays no part in it |
| `App.BlankNeverRefused` | app.py:120-123 | a question that gets the warning could not have been refused anyway |
| `App.AnswerShape` | app.py:124-126 | a question neither blank nor risky is answered, and the answer has a non-blank context and `min(3, n)` principles and citations, with confidence in `[0, 1]` when the scores are in `[0, 1]` |
| `App.VerdictIgnoresTieOrder` | app.py:53 | under any two rankings of the same scores, the question gets the same kind of reply; a warning or refusal is identical, and an answer has the same confidence and recommendation |

## Left out

- Streamlit page setup, widgets, the button state and all rendering and disclaimers (app.py:9-11, 112-149). This is presentation. Only the dispatch decision is modelled.
- The corpus file check and file reading (app.py:16-23). This is I/O. The lines arrive as values.
- `json.loads` (app.py:25). Each line is given already parsed or malformed. A JSON value that is not an object, and keys holding `null` or values of the wrong type, are not represented.
- `TfidfVectorizer` and `cosine_similarity` (app.py:6-7, 33-34, 51-52). These are library numerics over floats. The scores are an input. So the `ValueError` the vectorizer raises for an empty corpus or an empty vocabulary is also not modelled.
- NumPy's tie order in `argsort` (app.py:53). It is unspecified, so the ranking is an input constrained only by `IsRanking`. Which tied passages are cited depends on that input.
- `Composer.Compose`: confidence is the exact mean as a `real`. `np.mean` float rounding and the two-decimal string `f"{conf:.2f}"` (app.py:89-90) are not modelled.
- `Composer.Reason`: same limitation as `Composer.Compose`. Confidence is a `real`, not the formatted string.
- `Text.LowerChar`: non-ASCII letters other than the Kelvin sign are not lowered. For example, `'É'` stays `'É'`, where Python gives `'é'`. This changes no verdict. Every keyword is ASCII. Among the non-ASCII characters, only U+212A (to "k") and U+0130 (to "i" plus U+0307) lower to anything ASCII.
- `Text.Lower`: U+0130 is not lowered to its two-character result "i" + U+0307, so the model keeps the length. This changes no verdict either. No keyword ends in "i", so the "i" from U+0130 can never complete a match, and U+0307 is not ASCII.
- `Safety.IgnoresCase`: covers only the case pairs `LowerChar` treats as equal. These are ASCII letters and the Kelvin sign, not the non-ASCII pairs Python also folds.
- `Safety.IsRisky`: it inherits the lowering of `Text.Lower`. By the two lines above, it still gives Python's verdict on every question.
- `Text.Strip`: whitespace is Python's `str.isspace` set, written out as a fixed list of characters.
