/** The fixed category -> anchor-sentence map and its flattening into two
    parallel lists: anchor texts and the category each was listed under. */
module Anchors {
  import opened Seqs

  /** One key of the anchor map with its sentences, in listing order. */
  datatype Category = Category(name: string, sentences: seq<string>)

  /** The map's items in dictionary (insertion) order. */
  type AnchorMap = seq<Category>

  /** Two parallel lists: `texts[k]` was listed under `categories[k]`. */
  datatype AnchorTable = AnchorTable(texts: seq<string>, categories: seq<string>)

  /** A table that a top-3 selection can be run against. */
  predicate WellFormed(t: AnchorTable) {
    |t.texts| == |t.categories| && |t.texts| >= 3
  }

  /** Position `k` of the table holds anchor `text` under category `cat`. */
  predicate HoldsAt(t: AnchorTable, k: int, text: string, cat: string) {
    0 <= k < |t.texts| && k < |t.categories| && t.texts[k] == text && t.categories[k] == cat
  }

  function SentenceLists(m: AnchorMap): seq<seq<string>> {
    seq(|m|, c requires 0 <= c < |m| => m[c].sentences)
  }

  /** For each category, its name repeated once per sentence. */
  function CategoryLabels(m: AnchorMap): seq<seq<string>> {
    seq(|m|, c requires 0 <= c < |m| => seq(|m[c].sentences|, _ => m[c].name))
  }

  /** Total number of anchor sentences over all categories. */
  function AnchorCount(m: AnchorMap): nat {
    TotalLength(SentenceLists(m))
  }

  /** Number of anchor sentences listed before category `c`. */
  function AnchorStart(m: AnchorMap, c: nat): nat
    requires c <= |m|
  {
    Offset(SentenceLists(m), c)
  }

  /** Reference definition of the flattening: all sentences in category
      order then sentence order, with the matching labels. */
  function Flatten(m: AnchorMap): AnchorTable {
    AnchorTable(Concat(SentenceLists(m)), Concat(CategoryLabels(m)))
  }

  /** Entry `AnchorStart(m, c) + j` of the flattened lists is sentence `j`
      of category `c`, labelled with that category. */
  lemma FlattenIndex(m: AnchorMap, c: nat, j: nat)
    requires c < |m| && j < |m[c].sentences|
    ensures AnchorStart(m, c) + j < |Flatten(m).texts| == |Flatten(m).categories|
    ensures Flatten(m).texts[AnchorStart(m, c) + j] == m[c].sentences[j]
    ensures Flatten(m).categories[AnchorStart(m, c) + j] == m[c].name
  {
    var sl, cl := SentenceLists(m), CategoryLabels(m);
    ConcatLength(sl);
    ConcatLength(cl);
    TotalLengthSameShape(sl, cl);
    assert sl[c] == m[c].sentences;
    assert cl[c][j] == m[c].name;
    ConcatIndex(sl, c, j);
    ConcatIndex(cl, c, j);
    TotalLengthSameShape(sl[..c], cl[..c]);
  }

  /** The flattened lists are aligned, have one entry per anchor sentence,
      and pair every sentence with the category it was listed under. */
  lemma FlattenShape(m: AnchorMap)
    ensures |Flatten(m).texts| == |Flatten(m).categories| == AnchorCount(m)
    ensures forall c: nat, j: nat :: c < |m| && j < |m[c].sentences| ==>
      HoldsAt(Flatten(m), AnchorStart(m, c) + j, m[c].sentences[j], m[c].name)
  {
    var sl, cl := SentenceLists(m), CategoryLabels(m);
    ConcatLength(sl);
    ConcatLength(cl);
    TotalLengthSameShape(sl, cl);
    forall c: nat, j: nat | c < |m| && j < |m[c].sentences| {
      FlattenIndex(m, c, j);
    }
  }

  /** Every flattened position comes from some category's block, so the
      lists hold nothing but the map's sentences. */
  lemma FlattenCovers(m: AnchorMap, k: nat)
    requires k < |Flatten(m).texts|
    ensures exists c :: 0 <= c < |m| && AnchorStart(m, c) <= k < AnchorStart(m, c) + |m[c].sentences|
  {
    ConcatCovers(SentenceLists(m), k);
  }

  /** The two nested loops that build the parallel lists, one append to
      each list per anchor sentence. */
  method FlattenAnchors(m: AnchorMap) returns (t: AnchorTable)
    ensures t == Flatten(m)
    ensures |t.texts| == |t.categories| == AnchorCount(m)
    ensures forall c: nat, j: nat :: c < |m| && j < |m[c].sentences| ==>
      HoldsAt(t, AnchorStart(m, c) + j, m[c].sentences[j], m[c].name)
  {
    var texts: seq<string> := [];
    var cats: seq<string> := [];
    ghost var sl, cl := SentenceLists(m), CategoryLabels(m);
    var c := 0;
    while c < |m|
      invariant 0 <= c <= |m|
      invariant texts == Concat(sl[..c])
      invariant cats == Concat(cl[..c])
    {
      var j := 0;
      while j < |m[c].sentences|
        invariant 0 <= j <= |m[c].sentences|
        invariant texts == Concat(sl[..c]) + m[c].sentences[..j]
        invariant cats == Concat(cl[..c]) + cl[c][..j]
      {
        texts := texts + [m[c].sentences[j]];
        cats := cats + [m[c].name];
        j := j + 1;
      }
      assert sl[..c + 1][..c] == sl[..c];
      assert cl[..c + 1][..c] == cl[..c];
      assert m[c].sentences[..j] == m[c].sentences;
      assert cl[c][..j] == cl[c];
      c := c + 1;
    }
    assert sl[..|m|] == sl;
    assert cl[..|m|] == cl;
    t := AnchorTable(texts, cats);
    FlattenShape(m);
  }

  const DefaultAnchorMap: AnchorMap := [
    Category("Agency", [
        "I could not reach a human representative.",
        "There was no way to speak to a real person.",
        "I was unable to contact anyone directly.",
        "Everything was handled without human interaction.",
        "I was blocked from speaking with a person."
    ]),
    Category("Blame (Self-blame / Individual responsibility)", [
        "I may have made a mistake.",
        "This could be my fault.",
        "I did something wrong when submitting my information.",
        "I may be responsible for what happened.",
        "This issue may have resulted from something I did."
    ]),
    Category("Blame (External (AI / system responsibility))", [
        "AI made an error.",
        "The algorithmic process failed.",
        "AI incorrectly handled my information.",
        "The system made an error in how it used my data.",
        "The automated system did not work properly."
    ]),
    Category("Explanation / Transparency", [
        "I was not told why this decision was made.",
        "There was no explanation for the outcome.",
        "I don\U{2019}t understand the reason for this decision.",
        "The decision was made without any explanation.",
        "The reasoning behind this decision was unclear."
    ]),
    Category("AI / Digital Literacy", [
        "I am not familiar with how AI systems make decisions.",
        "I don\U{2019}t understand how algorithms are used to make decisions.",
        "I am not sure how machine-learning systems evaluate customer information.",
        "I am unfamiliar with how large amounts of data are used to make decisions.",
        "I do not understand the logic behind algorithmic decision-making.",
        "I don\U{2019}t know how my data is used in automated decisions."
    ]),
    Category("Morality (Fairness/legitimacy)", [
        "This decision was unjust.",
        "I was treated imporperly by the system.",
        "This outcome was not justified.",
        "I was wrongfully denied.",
        "The system handled my case in an innapropriate manner.",
        "This decision lacks legitimacy."
    ]),
    Category("Emotional Valence", [
        "This was very frustrating.",
        "I am upset about how this was handled.",
        "I feel helpless dealing with this system.",
        "This process has caused me significant stress.",
        "I am disappointed with how this was resolved.",
        "I feel overwhelmed by this situation."
    ])
  ]

  /** The anchor lists the classifier ranks against. */
  function DefaultTable(): AnchorTable {
    Flatten(DefaultAnchorMap)
  }

  /** The fixed map has 7 categories and 38 sentences, so its flattened
      table always supports a top-3 selection. */
  lemma DefaultTableWellFormed()
    ensures |DefaultAnchorMap| == 7
    ensures AnchorCount(DefaultAnchorMap) == 38
    ensures |DefaultTable().texts| == 38
    ensures WellFormed(DefaultTable())
  {
    FlattenShape(DefaultAnchorMap);
    var sl := SentenceLists(DefaultAnchorMap);
    assert TotalLength(sl[6..]) == 6;
    assert TotalLength(sl[5..]) == 12;
    assert TotalLength(sl[4..]) == 18;
    assert TotalLength(sl[3..]) == 23;
    assert TotalLength(sl[2..]) == 28;
    assert TotalLength(sl[1..]) == 33;
  }
}
