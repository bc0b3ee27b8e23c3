# Consumer-complaint sentence ranking and topic bookkeeping, in Dafny

This project models the bookkeeping around the machine-learning calls in the
consumer-complaint analysis scripts.

- **Loading and cleaning the complaint table** (`nlp_research/consumer_complaint.py`).
  Records without a narrative are dropped. A missing Product becomes
  "Unknown Product" and a missing Tags value becomes "Standard". The narrative,
  product and tag columns are then read off as parallel lists.
- **Summarising a topic table.** For each topic-model run the script reports
  three things: the number of outlier documents (the row whose Topic is -1),
  the number of real topics, and the topics listed as the top ones.
- **Anchor-based sentence ranking** (`extract_ai_sentences_with_anchors` in
  `nlp_research/sentence_embed_complaints.py`).
  - The fixed category → anchor-sentence map is flattened into two parallel lists.
  - Every complaint whose whole text has at least 5 characters is split into sentences.
  - Each sentence is scored against every anchor.
  - One row per sentence records the three best anchors (category, text, score)
    and the two gaps between consecutive scores.

Modules, one per file:

| file | module | models |
|---|---|---|
| wrappers.dfy | `Wrappers` | `Option`, used for missing (NaN) cells |
| seqs.dfy | `Seqs` | concatenation of a sequence of sequences, with index and coverage lemmas |
| complaints.dfy | `Complaints` | the complaint record, the narrative filter, imputation, the parallel columns |
| topic_summary.dfy | `TopicSummary` | outlier count, real-topic count, listed top topics |
| anchors.dfy | `Anchors` | the fixed anchor map (7 categories, 38 sentences) and its flattening |
| topk.dfy | `TopK` | the top-3 selection contract of `torch.topk(scores, k=3)` |
| sentence_ranking.dfy | `SentenceRanking` | rows per sentence, per complaint and for the whole table |

External capabilities become parameters:

- Sentence splitting is `split: string -> seq<string>`.
- Embedding followed by cosine similarity is `sim: (string, string) -> real`. The score of
  sentence `s` against anchor `a` is `sim(s, a)`. Only comparisons and subtraction
  are applied to it.
- The cleaning step `cc.data_cleaning` is `clean: seq<Complaint> -> seq<Complaint>`.
  Its body is not part of this model.
- A topic table is an input `seq<TopicRow>`.

Points where the code behaves in a way a reader might not expect:

- `torch.topk` leaves the order among equal scores unspecified. So `TopK.IsTop3`
  states only that the indices are distinct, the scores descend, and no unselected
  score exceeds the third. The model's own `BestIndex` has to pick some index;
  no contract depends on which one. `TopK.Top3ValuesUnique` proves that every
  valid selection carries the same three scores. So scores and margins never
  depend on tie-breaking; only the category and text of tied anchors can differ.
- The length test at nlp_research/sentence_embed_complaints.py:92 is on the whole
  complaint text (`len(text) < 5`), not on each sentence. Every sentence of a
  complaint that passes gets a row, however short the sentence is.
- A missing narrative reaching the ranking loop is rendered by `str` as `"nan"`.
  That string has 3 characters, so such a complaint yields no rows
  (`SentenceRanking.MissingNarrativeYieldsNothing`).
- The summary heading says "Top 3 Topics", but the code takes the first four rows
  and skips the outlier among them. `TopicSummary.TopTopics` states the result:
  with distinct topic ids, the number listed is the number of head rows (four, or
  fewer for a short table) minus one when the outlier row is among them.

## Model

| member | source | states |
|---|---|---|
| Anchors.FlattenAnchors | nlp_research/sentence_embed_complaints.py:73-78 | the nested loops build the two lists so that both have one entry per anchor sentence, they stay aligned, and entry `AnchorStart(m, c) + j` is sentence `j` of category `c` paired with that category's name; the result equals the reference flattening |
| Anchors.FlattenShape | nlp_research/sentence_embed_complaints.py:73-78 | the flattened texts and categories have equal length, equal to the total number of anchor sentences, and index `AnchorStart(m, c) + j` pairs each sentence with the category it was listed under (category order, then sentence order) |
| Anchors.FlattenIndex | nlp_research/sentence_embed_complaints.py:75-78 | sentence `j` of category `c` lands at position `AnchorStart(m, c) + j` of both lists, under category `c`'s name |
| Anchors.FlattenCovers | nlp_research/sentence_embed_complaints.py:73-78 | every position of the flattened lists lies in the block of some category, so the lists contain nothing else |
| Anchors.DefaultTableWellFormed | nlp_research/sentence_embed_complaints.py:17-70 | the fixed map has 7 categories and 38 anchor sentences, so its flattened table is aligned and has at least 3 anchors for the top-3 selection |
| TopK.BestIndex | nlp_research/sentence_embed_complaints.py:109 | returns an index outside the excluded set with a score no smaller than any other non-excluded score, and returns nothing exactly when every index is excluded |
| TopK.SelectTop3 | nlp_research/sentence_embed_complaints.py:109-117 | a selection exists exactly when there are at least 3 scores (`topk` raises otherwise); its three indices are distinct and in range, their scores descend, and the third score is at least every unselected score |
| TopK.Top3Dominates | nlp_research/sentence_embed_complaints.py:109-117 | the rank-1 score is the maximum of the vector, and any unselected score is at most the rank-3 and rank-2 scores |
| TopK.Top3ValuesUnique | nlp_research/sentence_embed_complaints.py:109-120 | any two valid top-3 selections of one vector carry identical rank-1, rank-2 and rank-3 scores, so the values and margins are independent of tie-breaking |
| TopK.RankingExample | nlp_research/sentence_embed_complaints.py:109-120 | for scores 0.9, 0.6, 0.5, 0.5 every valid selection ranks anchor 0, then anchor 1, then one of the tied anchors 2 or 3, with margins 0.3 and 0.1 |
| SentenceRanking.ComplaintText | nlp_research/sentence_embed_complaints.py:89 | a present narrative is read verbatim; a missing one reads as "nan", which is shorter than 5 characters |
| SentenceRanking.RankedSentences | nlp_research/sentence_embed_complaints.py:89-95 | a complaint whose text is shorter than 5 characters contributes no sentences; otherwise its sentences are exactly the split of its text |
| SentenceRanking.SentenceRow | nlp_research/sentence_embed_complaints.py:106-143 | the row copies the complaint's ID, Tags and Product unchanged and the sentence verbatim; it carries category, text and score of each anchor of a valid top-3 selection; margin (1-2) and margin (2-3) are the consecutive score gaps, and both are non-negative |
| SentenceRanking.ComplaintRows | nlp_research/sentence_embed_complaints.py:88-106 | a complaint whose text is shorter than 5 characters yields no rows; otherwise it yields exactly one row per sentence of its split |
| SentenceRanking.ComplaintRowsDescribe | nlp_research/sentence_embed_complaints.py:106-143 | row `i` of a complaint describes sentence `i` of its split, so a complaint's rows follow sentence order |
| SentenceRanking.MissingNarrativeYieldsNothing | nlp_research/sentence_embed_complaints.py:89-92 | a complaint without a narrative reads as "nan" and yields no rows |
| SentenceRanking.ExtractRows | nlp_research/sentence_embed_complaints.py:85-143 | the output has exactly one row per sentence of every complaint that passes the length check, summed over the table |
| SentenceRanking.ExtractRowsIndex | nlp_research/sentence_embed_complaints.py:88-143 | the row at `RowStart(cs, j) + i` describes sentence `i` of complaint `j`, so rows are ordered by complaint, then by sentence |
| SentenceRanking.ExtractRowsDescribe | nlp_research/sentence_embed_complaints.py:88-143 | for every complaint `j` and every sentence `i` it contributes, the row at `RowStart(cs, j) + i` exists and describes that sentence of that complaint |
| SentenceRanking.ExtractRowsCovers | nlp_research/sentence_embed_complaints.py:85-143 | every row lies in the block of some complaint, so the output holds nothing but per-sentence rows |
| SentenceRanking.ExtractRowsAppend | nlp_research/sentence_embed_complaints.py:88 | the rows for a concatenated table are the rows of the first part followed by those of the second |
| SentenceRanking.ExtractRowsSingle | nlp_research/sentence_embed_complaints.py:88-143 | the output for a one-complaint table is exactly that complaint's rows |
| SentenceRanking.ShortComplaintSkipped | nlp_research/sentence_embed_complaints.py:89-92 | inserting a complaint whose text is shorter than 5 characters anywhere in the table leaves the output unchanged |
| SentenceRanking.RowScoresIndependentOfTies | nlp_research/sentence_embed_complaints.py:109-120 | any two correct rows for the same sentence have equal scores and equal margins |
| SentenceRanking.ExtractAiSentences | nlp_research/sentence_embed_complaints.py:11-148 | after the cleaning step, ranking against the fixed anchor map yields exactly one row per sentence of each cleaned complaint that passes the length check |
| SentenceRanking.ExtractAiSentencesDescribe | nlp_research/sentence_embed_complaints.py:11-148 | the row at `RowStart(clean(df), j) + i` of the result describes sentence `i` of cleaned complaint `j`, scored against the fixed anchor map |
| Complaints.DropMissingNarratives | nlp_research/consumer_complaint.py:9 | a record is kept exactly when it was in the input and has a narrative; nothing is added |
| Complaints.DropAppend | nlp_research/consumer_complaint.py:9 | dropping keeps relative order: filtering a concatenation gives the filtered first part followed by the filtered second part |
| Complaints.DropCount | nlp_research/consumer_complaint.py:9 | the kept records plus the records with a missing narrative account for the whole input |
| Complaints.DropIdempotent | nlp_research/consumer_complaint.py:9 | filtering an already filtered table removes nothing |
| Complaints.Impute | nlp_research/consumer_complaint.py:11-13 | a missing Product becomes "Unknown Product" and a missing Tags value becomes "Standard"; present values, the identifier and the narrative are unchanged; afterwards neither field is missing |
| Complaints.ImputeAll | nlp_research/consumer_complaint.py:11-13 | imputation applies record by record: the table keeps its length and record `i` of the result is record `i` of the input with its missing Product and Tags filled |
| Complaints.ImputeCommutesWithDrop | nlp_research/consumer_complaint.py:9-13 | imputing before or after the narrative filter gives the same records |
| Complaints.PrepareCorpus | nlp_research/consumer_complaint.py:9-14 | the records are the input records that have a narrative, in order, each with its missing Product and Tags filled; docs, products and tags are parallel to them, one entry per kept record, and equal each record's narrative, product and tags; docs are the input's present narratives in order |
| Complaints.DocsArePresentNarratives | nlp_research/consumer_complaint.py:9-10 | the narrative column of the kept records is the sequence of narratives present in the input, in order |
| Complaints.PrepareKeepsOrder | nlp_research/consumer_complaint.py:9-14 | the prepared records of a concatenated table are those of each part, in order |
| TopicSummary.OutlierCount | nlp_research/consumer_complaint.py:32-33 | without a Topic -1 row the outlier count is 0; with one, it is the Count of the first such row |
| TopicSummary.OutlierCountOfUniqueRow | nlp_research/consumer_complaint.py:32-33 | with distinct topic ids, the outlier count is the Count of the Topic -1 row wherever it sits |
| TopicSummary.RealTopicCount | nlp_research/consumer_complaint.py:36 | the count is the table length less one when a Topic -1 row exists, and the table length when none does |
| TopicSummary.RealTopics | nlp_research/consumer_complaint.py:43-44 | the rows kept when skipping the outlier are exactly the table's rows whose Topic is not -1, never more than the table |
| TopicSummary.RealTopicCountCountsRealTopics | nlp_research/consumer_complaint.py:35-36 | with distinct topic ids, the real-topic count equals the number of rows whose Topic is not -1 |
| TopicSummary.TopTopics | nlp_research/consumer_complaint.py:42-45 | at most four rows are listed, none of them the outlier, all from the table; they are a prefix of the table's real topics in table order; with distinct topic ids their number is the head length (four, or the table length if shorter) minus one when the outlier row is among the head rows |
| TopicSummary.HeadLength | nlp_research/consumer_complaint.py:42 | `head(4)` takes four rows, or the whole table when it has fewer |
| TopicSummary.Summarize | nlp_research/consumer_complaint.py:32-45 | the real-topic count plus one for a present outlier row equals the table length; the outlier count is 0 without an outlier row and the Count of the first Topic -1 row otherwise; the listed topics are at most four, a prefix of the real topics, and with distinct ids number the head length minus one when the outlier is in the head |

## Left out

- `cc.data_cleaning` (nlp_research/sentence_embed_complaints.py:13): it is not part of
  this model, so it is a function parameter. No punctuation, redaction or
  boilerplate step is modelled.
- The external models are left out: SentenceTransformer loading and `encode`, `util.cos_sim`,
  `nltk.download` and `sent_tokenize`, and BERTopic `fit_transform`,
  `get_topic_info`, `topics_per_class` and `visualize_topics_per_class`. Their
  outputs are inputs or function parameters.
- Floating point is left out. Scores are mathematical reals: there is no
  float32 rounding, and `round(..., 4)` on scores and margins is not applied.
  Rows keep unrounded values. The outlier percentage
  (nlp_research/consumer_complaint.py:39) is not computed.
- I/O is left out: CSV reading and concatenation, `to_csv`, HTML chart writing, all
  printing, and the module-level script code.
- The experiment loop over `min_topic_size` values (nlp_research/consumer_complaint.py:17-27)
  is left out. Each run is one call of `TopicSummary.Summarize` on that run's table.
- The unused `threshold = 0` (nlp_research/sentence_embed_complaints.py:104) is left out.
- `str(row[column])` for non-string narrative cells other than a missing one
  is left out: the narrative is `Option<string>`.
- The `column` parameter of `extract_ai_sentences_with_anchors`
  (nlp_research/sentence_embed_complaints.py:11) is left out: the model always reads
  the narrative field, which is the parameter's default.
- `df[col].fillna(..., inplace=True)` (nlp_research/consumer_complaint.py:11,13) is
  modelled as updating the table, as pandas does without copy-on-write; under
  copy-on-write the chained call would leave the table unchanged.
