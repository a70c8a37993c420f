/**
 * Loading the passage corpus: the lines of the corpus file are parsed one
 * by one, the ones that do not parse are skipped, and the surviving
 * records are split into the passage texts and their metadata, two lists
 * indexed in parallel.
 */
module Loader {
  import opened Wrappers

  /** A parsed JSON object, reduced to the four keys the app reads; an absent key is None. */
  datatype Record = Record(
    id: Option<string>,
    source: Option<string>,
    theme: Option<seq<string>>,
    passage: Option<string>)

  /** What `json.loads` made of one line of the corpus file. */
  datatype Line = Parsed(rec: Record) | Malformed

  /** The metadata triple kept for each passage: id, source and themes. */
  datatype Meta = Meta(id: string, source: string, themes: seq<string>)

  /** The loaded corpus: `texts[i]` is the passage whose metadata is `meta[i]`. */
  datatype Corpus = Corpus(texts: seq<string>, meta: seq<Meta>)

  /** The `KeyError` raised when the record at `index` has no "passage" key. */
  datatype LoadError = MissingPassage(index: nat)

  /** The records of the lines that parsed, in file order. */
  function Kept(lines: seq<Line>): seq<Record>
  {
    if lines == [] then []
    else
      var last := lines[|lines| - 1];
      Kept(lines[..|lines| - 1]) + (if last.Parsed? then [last.rec] else [])
  }

  /** The positions of the lines that parsed, in file order. */
  function ParsedIndices(lines: seq<Line>): seq<nat>
  {
    if lines == [] then []
    else
      var n := |lines| - 1;
      ParsedIndices(lines[..n]) + (if lines[n].Parsed? then [n] else [])
  }

  /**
   * Loading keeps exactly the lines that parse, in their order: the j-th
   * kept record is the record of the j-th parsed line, and no parsed line
   * is dropped.
   */
  lemma {:induction false} KeptExactlyParsed(lines: seq<Line>)
    ensures |ParsedIndices(lines)| == |Kept(lines)|
    ensures forall j :: 0 <= j < |Kept(lines)| ==>
      ParsedIndices(lines)[j] < |lines| && lines[ParsedIndices(lines)[j]] == Parsed(Kept(lines)[j])
    ensures forall j, j' :: 0 <= j < j' < |ParsedIndices(lines)| ==> ParsedIndices(lines)[j] < ParsedIndices(lines)[j']
    ensures forall i :: 0 <= i < |lines| && lines[i].Parsed? ==> i in ParsedIndices(lines)
  {
    if lines != [] {
      var n := |lines| - 1;
      var init := lines[..n];
      KeptExactlyParsed(init);
      assert forall i :: 0 <= i < n ==> init[i] == lines[i];
    }
  }

  /** The loop over the file's lines, appending each record that parses. */
  method LoadDocs(lines: seq<Line>) returns (docs: seq<Record>)
    ensures docs == Kept(lines)
  {
    docs := [];
    for i := 0 to |lines|
      invariant docs == Kept(lines[..i])
    {
      assert lines[..i + 1][..i] == lines[..i];
      if lines[i].Parsed? {
        docs := docs + [lines[i].rec];
      }
    }
    assert lines[..|lines|] == lines;
  }

  /** The metadata of one record, with "" and [] for absent keys. */
  function MetaOf(d: Record): Meta
  {
    Meta(d.id.GetOr(""), d.source.GetOr(""), d.theme.GetOr([]))
  }

  /**
   * Splits the records into texts and metadata. The first record without a
   * passage aborts the split with its index, as the `KeyError` would.
   */
  function Project(docs: seq<Record>): (r: Result<Corpus, LoadError>)
    ensures r.Success? <==> forall i :: 0 <= i < |docs| ==> docs[i].passage.Some?
    ensures r.Success? ==>
      |r.value.texts| == |docs| && |r.value.meta| == |docs|
      && forall i :: 0 <= i < |docs| ==>
           r.value.texts[i] == docs[i].passage.value
           && r.value.meta[i].id == (if docs[i].id.Some? then docs[i].id.value else "")
           && r.value.meta[i].source == (if docs[i].source.Some? then docs[i].source.value else "")
           && r.value.meta[i].themes == (if docs[i].theme.Some? then docs[i].theme.value else [])
    ensures r.Failure? ==>
      r.error.index < |docs| && docs[r.error.index].passage.None?
      && forall i :: 0 <= i < r.error.index ==> docs[i].passage.Some?
  {
    if docs == [] then Success(Corpus([], []))
    else if docs[0].passage.None? then Failure(MissingPassage(0))
    else
      match Project(docs[1..])
      case Failure(MissingPassage(j)) => Failure(MissingPassage(j + 1))
      case Success(c) => Success(Corpus([docs[0].passage.value] + c.texts, [MetaOf(docs[0])] + c.meta))
  }

  /** A file with one good line and one line that does not parse loads one passage. */
  lemma OneGoodOneMalformed(r: Record)
    requires r.passage.Some?
    ensures Kept([Parsed(r), Malformed]) == [r]
    ensures Project(Kept([Parsed(r), Malformed])).Success?
    ensures |Project(Kept([Parsed(r), Malformed])).value.texts| == 1
  {
    var lines := [Parsed(r), Malformed];
    assert lines[..1] == [Parsed(r)] && [Parsed(r)][..0] == [];
    assert Kept([Parsed(r)]) == [r];
    assert Kept(lines) == Kept(lines[..1]);
  }
}
