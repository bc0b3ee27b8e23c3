/** Anchor-based sentence ranking: each complaint's text is split into
    sentences, every sentence is scored against every anchor, and one row per
    sentence records the three best anchors and the gaps between their
    scores. Sentence splitting and the similarity score (embedding plus
    cosine similarity) are supplied as functions; the cleaning step that
    precedes ranking is supplied as a function on the whole table. */
module SentenceRanking {
  import opened Wrappers
  import opened Seqs
  import opened Complaints
  import opened Anchors
  import opened TopK

  /** One ranked anchor: its category, its text and its score. */
  datatype AnchorMatch = AnchorMatch(category: string, text: string, score: real)

  /** One output row. Scores and margins are kept unrounded. */
  datatype Row = Row(
    complaintId: int,
    group: Option<string>,
    product: Option<string>,
    sentence: string,
    first: AnchorMatch,
    second: AnchorMatch,
    third: AnchorMatch,
    margin12: real,
    margin23: real)

  /** Complaints whose text is shorter than this are not ranked. */
  const MinTextLength := 5

  /** The text that is measured and split: a missing narrative reads as the
      string "nan", as Python's `str` renders a missing cell. */
  function ComplaintText(c: Complaint): (text: string)
    ensures c.narrative.Some? ==> text == c.narrative.value
    ensures c.narrative.None? ==> text == "nan" && |text| < MinTextLength
  {
    c.narrative.GetOr("nan")
  }

  /** The sentences of a complaint that receive rows: none when the whole
      text is too short, otherwise every sentence of the split. */
  function RankedSentences(c: Complaint, split: string -> seq<string>): (r: seq<string>)
    ensures |ComplaintText(c)| < MinTextLength ==> r == []
    ensures |ComplaintText(c)| >= MinTextLength ==> r == split(ComplaintText(c))
  {
    if |ComplaintText(c)| < MinTextLength then [] else split(ComplaintText(c))
  }

  /** Similarity of one sentence to each anchor, in anchor order. */
  function ScoreVector(sentence: string, table: AnchorTable, sim: (string, string) -> real): seq<real> {
    seq(|table.texts|, k requires 0 <= k < |table.texts| => sim(sentence, table.texts[k]))
  }

  /** `m` carries category, text and score of anchor `k`. */
  predicate MatchesAnchor(m: AnchorMatch, table: AnchorTable, scores: seq<real>, k: nat) {
    k < |table.texts| && k < |table.categories| && k < |scores| &&
    m == AnchorMatch(table.categories[k], table.texts[k], scores[k])
  }

  /** `r` is a correct row for `sentence` of complaint `c`: identifier,
      group and product copied from the complaint, the sentence verbatim,
      the three anchors of some valid top-3 selection of the sentence's
      scores, and the two consecutive score gaps. */
  ghost predicate RowDescribes(r: Row, c: Complaint, sentence: string, table: AnchorTable, sim: (string, string) -> real) {
    var scores := ScoreVector(sentence, table, sim);
    && r.complaintId == c.id && r.group == c.tags && r.product == c.product
    && r.sentence == sentence
    && (exists t :: IsTop3(scores, t) &&
          MatchesAnchor(r.first, table, scores, t.first) &&
          MatchesAnchor(r.second, table, scores, t.second) &&
          MatchesAnchor(r.third, table, scores, t.third))
    && r.margin12 == r.first.score - r.second.score
    && r.margin23 == r.second.score - r.third.score
  }

  /** The row for one sentence. */
  function SentenceRow(c: Complaint, sentence: string, table: AnchorTable, sim: (string, string) -> real): (r: Row)
    requires WellFormed(table)
    ensures RowDescribes(r, c, sentence, table, sim)
    ensures r.first.score >= r.second.score >= r.third.score
    ensures r.margin12 >= 0.0 && r.margin23 >= 0.0
  {
    var scores := ScoreVector(sentence, table, sim);
    var t := SelectTop3(scores).value;
    var m1 := AnchorMatch(table.categories[t.first], table.texts[t.first], scores[t.first]);
    var m2 := AnchorMatch(table.categories[t.second], table.texts[t.second], scores[t.second]);
    var m3 := AnchorMatch(table.categories[t.third], table.texts[t.third], scores[t.third]);
    assert MatchesAnchor(m1, table, scores, t.first);
    Row(c.id, c.tags, c.product, sentence, m1, m2, m3, m1.score - m2.score, m2.score - m3.score)
  }

  /** The rows of one complaint: nothing for a text shorter than five
      characters, otherwise one row per sentence of the split. */
  function ComplaintRows(c: Complaint, table: AnchorTable, split: string -> seq<string>, sim: (string, string) -> real): (r: seq<Row>)
    requires WellFormed(table)
    ensures |ComplaintText(c)| < MinTextLength ==> r == []
    ensures |ComplaintText(c)| >= MinTextLength ==> |r| == |split(ComplaintText(c))|
    ensures |r| == |RankedSentences(c, split)|
  {
    var sentences := RankedSentences(c, split);
    seq(|sentences|, i requires 0 <= i < |sentences| => SentenceRow(c, sentences[i], table, sim))
  }

  /** Row `i` of a complaint describes its sentence `i`, so the complaint's
      rows follow sentence order. */
  lemma ComplaintRowsDescribe(c: Complaint, table: AnchorTable, split: string -> seq<string>, sim: (string, string) -> real, i: nat)
    requires WellFormed(table) && i < |RankedSentences(c, split)|
    ensures RowDescribes(ComplaintRows(c, table, split, sim)[i], c, RankedSentences(c, split)[i], table, sim)
  {
  }

  /** A complaint without a narrative yields no rows. */
  lemma MissingNarrativeYieldsNothing(c: Complaint, table: AnchorTable, split: string -> seq<string>, sim: (string, string) -> real)
    requires WellFormed(table) && c.narrative.None?
    ensures ComplaintRows(c, table, split, sim) == []
  {
    assert |ComplaintText(c)| == 3;
  }

  function RowLists(cs: seq<Complaint>, table: AnchorTable, split: string -> seq<string>, sim: (string, string) -> real): seq<seq<Row>>
    requires WellFormed(table)
  {
    seq(|cs|, j requires 0 <= j < |cs| => ComplaintRows(cs[j], table, split, sim))
  }

  /** All rows: complaint by complaint, in table order; exactly one row per
      ranked sentence. */
  function ExtractRows(cs: seq<Complaint>, table: AnchorTable, split: string -> seq<string>, sim: (string, string) -> real): (rows: seq<Row>)
    requires WellFormed(table)
    ensures |rows| == SentenceCount(cs, split)
  {
    ConcatLength(RowLists(cs, table, split, sim));
    RowListsLength(cs, table, split, sim);
    Concat(RowLists(cs, table, split, sim))
  }

  /** Number of sentences that receive a row. */
  function SentenceCount(cs: seq<Complaint>, split: string -> seq<string>): nat
    decreases |cs|
  {
    if |cs| == 0 then 0 else |RankedSentences(cs[0], split)| + SentenceCount(cs[1..], split)
  }

  /** Where the rows of complaint `j` begin. */
  function RowStart(cs: seq<Complaint>, split: string -> seq<string>, j: nat): nat
    requires j <= |cs|
  {
    SentenceCount(cs[..j], split)
  }

  lemma {:induction false} RowListsLength(cs: seq<Complaint>, table: AnchorTable, split: string -> seq<string>, sim: (string, string) -> real)
    requires WellFormed(table)
    ensures TotalLength(RowLists(cs, table, split, sim)) == SentenceCount(cs, split)
    decreases |cs|
  {
    if |cs| != 0 {
      var lists := RowLists(cs, table, split, sim);
      assert lists[1..] == RowLists(cs[1..], table, split, sim);
      assert |lists[0]| == |RankedSentences(cs[0], split)|;
      RowListsLength(cs[1..], table, split, sim);
      assert TotalLength(lists) == |lists[0]| + TotalLength(lists[1..]);
    }
  }

  /** Row `RowStart(cs, j) + i` describes sentence `i` of complaint `j`:
      rows are ordered by complaint, then by sentence within it. */
  lemma ExtractRowsIndex(cs: seq<Complaint>, table: AnchorTable, split: string -> seq<string>, sim: (string, string) -> real, j: nat, i: nat)
    requires WellFormed(table)
    requires j < |cs| && i < |RankedSentences(cs[j], split)|
    ensures RowStart(cs, split, j) + i < |ExtractRows(cs, table, split, sim)|
    ensures RowDescribes(ExtractRows(cs, table, split, sim)[RowStart(cs, split, j) + i],
                         cs[j], RankedSentences(cs[j], split)[i], table, sim)
  {
    var lists := RowLists(cs, table, split, sim);
    var rows := ExtractRows(cs, table, split, sim);
    assert rows == Concat(lists);
    ConcatIndex(lists, j, i);
    assert lists[..j] == RowLists(cs[..j], table, split, sim);
    RowListsLength(cs[..j], table, split, sim);
    var k := Offset(lists, j) + i;
    assert k == RowStart(cs, split, j) + i;
    assert rows[k] == ComplaintRows(cs[j], table, split, sim)[i];
    ComplaintRowsDescribe(cs[j], table, split, sim, i);
  }

  /** Position `k` of `rows` holds a correct row for `sentence` of `c`. */
  ghost predicate RowAt(rows: seq<Row>, k: int, c: Complaint, sentence: string, table: AnchorTable, sim: (string, string) -> real) {
    0 <= k < |rows| && RowDescribes(rows[k], c, sentence, table, sim)
  }

  /** Every ranked sentence of every complaint has its correct row at
      `RowStart(cs, j) + i`. */
  lemma ExtractRowsDescribe(cs: seq<Complaint>, table: AnchorTable, split: string -> seq<string>, sim: (string, string) -> real)
    requires WellFormed(table)
    ensures forall j, i :: 0 <= j < |cs| && 0 <= i < |RankedSentences(cs[j], split)| ==>
      RowAt(ExtractRows(cs, table, split, sim), RowStart(cs, split, j) + i, cs[j], RankedSentences(cs[j], split)[i], table, sim)
  {
    forall j, i | 0 <= j < |cs| && 0 <= i < |RankedSentences(cs[j], split)|
      ensures RowAt(ExtractRows(cs, table, split, sim), RowStart(cs, split, j) + i, cs[j], RankedSentences(cs[j], split)[i], table, sim)
    {
      ExtractRowsIndex(cs, table, split, sim, j, i);
    }
  }

  /** Every row belongs to the block of some complaint. */
  lemma ExtractRowsCovers(cs: seq<Complaint>, table: AnchorTable, split: string -> seq<string>, sim: (string, string) -> real, k: nat)
    requires WellFormed(table) && k < |ExtractRows(cs, table, split, sim)|
    ensures exists j :: (0 <= j < |cs| &&
      RowStart(cs, split, j) <= k < RowStart(cs, split, j) + |RankedSentences(cs[j], split)|)
  {
    var lists := RowLists(cs, table, split, sim);
    ConcatCovers(lists, k);
    var j :| 0 <= j < |lists| && Offset(lists, j) <= k < Offset(lists, j) + |lists[j]|;
    assert lists[..j] == RowLists(cs[..j], table, split, sim);
    RowListsLength(cs[..j], table, split, sim);
    assert Offset(lists, j) == RowStart(cs, split, j);
    assert |lists[j]| == |RankedSentences(cs[j], split)|;
  }

  /** The rows of a concatenated table are the rows of each part in turn. */
  lemma ExtractRowsAppend(a: seq<Complaint>, b: seq<Complaint>, table: AnchorTable, split: string -> seq<string>, sim: (string, string) -> real)
    requires WellFormed(table)
    ensures ExtractRows(a + b, table, split, sim) == ExtractRows(a, table, split, sim) + ExtractRows(b, table, split, sim)
  {
    assert RowLists(a + b, table, split, sim) == RowLists(a, table, split, sim) + RowLists(b, table, split, sim);
    ConcatAppend(RowLists(a, table, split, sim), RowLists(b, table, split, sim));
  }

  lemma ExtractRowsSingle(c: Complaint, table: AnchorTable, split: string -> seq<string>, sim: (string, string) -> real)
    requires WellFormed(table)
    ensures ExtractRows([c], table, split, sim) == ComplaintRows(c, table, split, sim)
  {
    var lists := RowLists([c], table, split, sim);
    assert lists == [ComplaintRows(c, table, split, sim)];
    assert lists[..|lists| - 1] == [];
    assert Concat(lists) == Concat([]) + ComplaintRows(c, table, split, sim);
  }

  /** A complaint whose text is shorter than five characters changes nothing
      in the output, wherever it sits. */
  lemma ShortComplaintSkipped(a: seq<Complaint>, c: Complaint, b: seq<Complaint>, table: AnchorTable, split: string -> seq<string>, sim: (string, string) -> real)
    requires WellFormed(table) && |ComplaintText(c)| < MinTextLength
    ensures ExtractRows(a + [c] + b, table, split, sim) == ExtractRows(a + b, table, split, sim)
  {
    var ra, rb := ExtractRows(a, table, split, sim), ExtractRows(b, table, split, sim);
    ExtractRowsSingle(c, table, split, sim);
    ExtractRowsAppend(a, [c], table, split, sim);
    assert ExtractRows(a + [c], table, split, sim) == ra;
    ExtractRowsAppend(a + [c], b, table, split, sim);
    ExtractRowsAppend(a, b, table, split, sim);
  }

  /** Two correct rows for the same sentence carry the same scores and
      margins, whichever of several tied anchors each picked. */
  lemma RowScoresIndependentOfTies(r: Row, r': Row, c: Complaint, c': Complaint, sentence: string, table: AnchorTable, sim: (string, string) -> real)
    requires RowDescribes(r, c, sentence, table, sim) && RowDescribes(r', c', sentence, table, sim)
    ensures r.first.score == r'.first.score && r.second.score == r'.second.score && r.third.score == r'.third.score
    ensures r.margin12 == r'.margin12 && r.margin23 == r'.margin23
  {
    var scores := ScoreVector(sentence, table, sim);
    var t :| IsTop3(scores, t) &&
          MatchesAnchor(r.first, table, scores, t.first) &&
          MatchesAnchor(r.second, table, scores, t.second) &&
          MatchesAnchor(r.third, table, scores, t.third);
    var u :| IsTop3(scores, u) &&
          MatchesAnchor(r'.first, table, scores, u.first) &&
          MatchesAnchor(r'.second, table, scores, u.second) &&
          MatchesAnchor(r'.third, table, scores, u.third);
    Top3ValuesUnique(scores, t, u);
  }

  /** The whole extraction: clean the table, then rank every sentence of
      every complaint against the fixed anchor map. */
  function ExtractAiSentences(
    df: seq<Complaint>,
    clean: seq<Complaint> -> seq<Complaint>,
    split: string -> seq<string>,
    sim: (string, string) -> real): (rows: seq<Row>)
    ensures |rows| == SentenceCount(clean(df), split)
  {
    DefaultTableWellFormed();
    ExtractRows(clean(df), DefaultTable(), split, sim)
  }

  /** The row at `RowStart(clean(df), split, j) + i` of the extraction is
      the correct row for sentence `i` of cleaned complaint `j`, ranked
      against the fixed anchor map. */
  lemma ExtractAiSentencesDescribe(
    df: seq<Complaint>,
    clean: seq<Complaint> -> seq<Complaint>,
    split: string -> seq<string>,
    sim: (string, string) -> real)
    ensures forall j, i :: 0 <= j < |clean(df)| && 0 <= i < |RankedSentences(clean(df)[j], split)| ==>
      RowAt(ExtractAiSentences(df, clean, split, sim), RowStart(clean(df), split, j) + i,
            clean(df)[j], RankedSentences(clean(df)[j], split)[i], DefaultTable(), sim)
  {
    DefaultTableWellFormed();
    ExtractRowsDescribe(clean(df), DefaultTable(), split, sim);
  }
}
