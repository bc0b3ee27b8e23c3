/** Complaint records and the cleaning done when the corpus is loaded:
    records without a narrative are dropped, then missing Product and Tags
    values are filled with fixed sentinels, and the three columns the topic
    runs use are read off as parallel lists. */
module Complaints {
  import opened Wrappers

  /** One row of the complaints table; None is a missing (NaN) cell. */
  datatype Complaint = Complaint(
    id: int,
    narrative: Option<string>,
    product: Option<string>,
    tags: Option<string>)

  const UnknownProduct := "Unknown Product"
  const StandardTag := "Standard"

  /** The records that have a narrative, in their original order. */
  function DropMissingNarratives(rs: seq<Complaint>): (r: seq<Complaint>)
    ensures |r| <= |rs|
    ensures forall x :: x in r <==> x in rs && x.narrative.Some?
    decreases |rs|
  {
    if |rs| == 0 then []
    else (if rs[0].narrative.Some? then [rs[0]] else []) + DropMissingNarratives(rs[1..])
  }

  /** Number of records whose narrative is missing. */
  function MissingNarrativeCount(rs: seq<Complaint>): nat
    decreases |rs|
  {
    if |rs| == 0 then 0
    else (if rs[0].narrative.None? then 1 else 0) + MissingNarrativeCount(rs[1..])
  }

  /** Dropping keeps relative order: the records of a concatenation are the
      kept records of each part, one part after the other. */
  lemma {:induction false} DropAppend(a: seq<Complaint>, b: seq<Complaint>)
    ensures DropMissingNarratives(a + b) == DropMissingNarratives(a) + DropMissingNarratives(b)
    decreases |a|
  {
    if |a| == 0 {
      assert a + b == b;
    } else {
      assert (a + b)[0] == a[0];
      assert (a + b)[1..] == a[1..] + b;
      DropAppend(a[1..], b);
    }
  }

  /** Exactly the records with a missing narrative are removed. */
  lemma {:induction false} DropCount(rs: seq<Complaint>)
    ensures |DropMissingNarratives(rs)| + MissingNarrativeCount(rs) == |rs|
    decreases |rs|
  {
    if |rs| != 0 {
      DropCount(rs[1..]);
    }
  }

  /** Dropping twice removes nothing more. */
  lemma {:induction false} DropIdempotent(rs: seq<Complaint>)
    ensures DropMissingNarratives(DropMissingNarratives(rs)) == DropMissingNarratives(rs)
    decreases |rs|
  {
    if |rs| != 0 {
      var head := if rs[0].narrative.Some? then [rs[0]] else [];
      DropAppend(head, DropMissingNarratives(rs[1..]));
      DropIdempotent(rs[1..]);
      if head != [] {
        assert head[1..] == [];
      }
    }
  }

  /** A record whose missing Product and Tags are filled with the sentinels;
      the identifier, the narrative and values already present are kept. */
  function Impute(c: Complaint): (r: Complaint)
    ensures r.id == c.id && r.narrative == c.narrative
    ensures r.product.Some? && r.tags.Some?
    ensures c.product.Some? ==> r.product == c.product
    ensures c.product.None? ==> r.product == Some(UnknownProduct)
    ensures c.tags.Some? ==> r.tags == c.tags
    ensures c.tags.None? ==> r.tags == Some(StandardTag)
  {
    c.(product := Some(c.product.GetOr(UnknownProduct)), tags := Some(c.tags.GetOr(StandardTag)))
  }

  function ImputeAll(rs: seq<Complaint>): (r: seq<Complaint>)
    ensures |r| == |rs|
    ensures forall i :: 0 <= i < |rs| ==> r[i] == Impute(rs[i])
    decreases |rs|
  {
    if |rs| == 0 then [] else [Impute(rs[0])] + ImputeAll(rs[1..])
  }

  lemma ImputeAllAppend(a: seq<Complaint>, b: seq<Complaint>)
    ensures ImputeAll(a + b) == ImputeAll(a) + ImputeAll(b)
  {
  }

  /** Imputation never touches the narrative, so filling before or after the
      narrative filter yields the same records. */
  lemma {:induction false} ImputeCommutesWithDrop(rs: seq<Complaint>)
    ensures DropMissingNarratives(ImputeAll(rs)) == ImputeAll(DropMissingNarratives(rs))
    decreases |rs|
  {
    if |rs| != 0 {
      var im := ImputeAll(rs);
      assert im[0] == Impute(rs[0]);
      assert im[1..] == ImputeAll(rs[1..]);
      ImputeCommutesWithDrop(rs[1..]);
      if rs[0].narrative.Some? {
        assert DropMissingNarratives(rs) == [rs[0]] + DropMissingNarratives(rs[1..]);
        assert ImputeAll([rs[0]] + DropMissingNarratives(rs[1..]))
            == [Impute(rs[0])] + ImputeAll(DropMissingNarratives(rs[1..]));
      }
    }
  }

  /** The cleaned table and the three columns read from it. */
  datatype Corpus = Corpus(
    records: seq<Complaint>,
    docs: seq<string>,
    products: seq<string>,
    tags: seq<string>)

  /** Narratives of the records that have one, in order. */
  function PresentNarratives(rs: seq<Complaint>): seq<string>
    decreases |rs|
  {
    if |rs| == 0 then []
    else
      match rs[0].narrative
      case Some(n) => [n] + PresentNarratives(rs[1..])
      case None => PresentNarratives(rs[1..])
  }

  /** Drop, then impute, then read the columns. */
  function PrepareCorpus(raw: seq<Complaint>): (c: Corpus)
    ensures |c.docs| == |c.products| == |c.tags| == |c.records| == |raw| - MissingNarrativeCount(raw)
    ensures forall i :: 0 <= i < |c.records| ==>
      c.records[i].narrative == Some(c.docs[i]) &&
      c.records[i].product == Some(c.products[i]) &&
      c.records[i].tags == Some(c.tags[i])
    ensures c.docs == PresentNarratives(raw)
    ensures |c.records| == |DropMissingNarratives(raw)|
    ensures forall i :: 0 <= i < |c.records| ==> c.records[i] == Impute(DropMissingNarratives(raw)[i])
  {
    var kept := ImputeAll(DropMissingNarratives(raw));
    DropCount(raw);
    DocsArePresentNarratives(raw);
    Corpus(kept,
           seq(|kept|, i requires 0 <= i < |kept| => kept[i].narrative.GetOr("")),
           seq(|kept|, i requires 0 <= i < |kept| => kept[i].product.GetOr(UnknownProduct)),
           seq(|kept|, i requires 0 <= i < |kept| => kept[i].tags.GetOr(StandardTag)))
  }

  /** Reading the narrative column of the kept records gives exactly the
      narratives that were present in the raw table. */
  lemma {:induction false} DocsArePresentNarratives(raw: seq<Complaint>)
    ensures var kept := DropMissingNarratives(raw);
      seq(|kept|, i requires 0 <= i < |kept| => kept[i].narrative.GetOr("")) == PresentNarratives(raw)
    decreases |raw|
  {
    if |raw| != 0 {
      DocsArePresentNarratives(raw[1..]);
    }
  }

  /** Every record with a narrative survives, in its original relative order:
      a record before another in the raw table is before it in the corpus. */
  lemma PrepareKeepsOrder(a: seq<Complaint>, b: seq<Complaint>)
    ensures PrepareCorpus(a + b).records == PrepareCorpus(a).records + PrepareCorpus(b).records
  {
    DropAppend(a, b);
    var da, db := DropMissingNarratives(a), DropMissingNarratives(b);
    ImputeAllAppend(da, db);
    assert PrepareCorpus(a + b).records == ImputeAll(da + db);
    assert PrepareCorpus(a).records == ImputeAll(da);
    assert PrepareCorpus(b).records == ImputeAll(db);
  }
}
