/** Selection of the three best-scoring anchors for one sentence, as
    `torch.topk(scores, k=3)` returns them: three distinct indices in
    descending score order, no unselected score above the third. The order
    among equal scores is unspecified, so contracts here state only those
    constraints. */
module TopK {
  import opened Wrappers

  /** Selected indices: rank 1, rank 2, rank 3. */
  datatype Top3 = Top3(first: nat, second: nat, third: nat)

  /** `t` is a valid top-3 selection of `s`. */
  predicate IsTop3(s: seq<real>, t: Top3) {
    && t.first < |s| && t.second < |s| && t.third < |s|
    && t.first != t.second && t.first != t.third && t.second != t.third
    && s[t.first] >= s[t.second] >= s[t.third]
    && forall k :: 0 <= k < |s| && k != t.first && k != t.second && k != t.third ==> s[k] <= s[t.third]
  }

  /** An index among the first `n` of `s`, outside `excluded`, with the
      largest score there; None when every such index is excluded. */
  function BestIndex(s: seq<real>, excluded: set<nat>, n: nat): (r: Option<nat>)
    requires n <= |s|
    ensures r.None? <==> forall k: nat :: k < n ==> k in excluded
    ensures r.Some? ==> r.value < n && r.value !in excluded
    ensures r.Some? ==> forall k: nat :: k < n && k !in excluded ==> s[k] <= s[r.value]
  {
    if n == 0 then None
    else
      var best := BestIndex(s, excluded, n - 1);
      if n - 1 in excluded then best
      else match best
        case None => Some(n - 1)
        case Some(b) => if s[n - 1] > s[b] then Some(n - 1) else best
  }

  /** When no best index exists, every index below `n` was excluded. */
  lemma NoBestMeansExcluded(s: seq<real>, excluded: set<nat>, n: nat, k: nat)
    requires n <= |s| && BestIndex(s, excluded, n).None? && k < n
    ensures k in excluded
  {
  }

  /** The top-3 selection; None exactly when there are fewer than three
      scores, where `torch.topk` raises instead of returning. */
  function SelectTop3(s: seq<real>): (r: Option<Top3>)
    ensures r.Some? <==> |s| >= 3
    ensures r.Some? ==> IsTop3(s, r.value)
  {
    match BestIndex(s, {}, |s|)
    case None =>
      assert |s| == 0 by {
        if |s| > 0 { NoBestMeansExcluded(s, {}, |s|, 0); }
      }
      None
    case Some(i1) =>
      match BestIndex(s, {i1}, |s|)
      case None =>
        assert |s| < 2 by {
          if |s| >= 2 {
            NoBestMeansExcluded(s, {i1}, |s|, if i1 == 0 then 1 else 0);
          }
        }
        None
      case Some(i2) =>
        match BestIndex(s, {i1, i2}, |s|)
        case None =>
          assert |s| < 3 by {
            if |s| >= 3 {
              var k := if 0 !in {i1, i2} then 0 else if 1 !in {i1, i2} then 1 else 2;
              NoBestMeansExcluded(s, {i1, i2}, |s|, k);
            }
          }
          None
        case Some(i3) =>
          assert |s| >= 3;
          Some(Top3(i1, i2, i3))
  }

  /** The rank-1 score is the maximum, and every score outside the
      selection is at most each selected score. */
  lemma Top3Dominates(s: seq<real>, t: Top3, k: nat)
    requires IsTop3(s, t) && k < |s|
    ensures s[k] <= s[t.first]
    ensures k != t.first && k != t.second && k != t.third ==> s[k] <= s[t.third] <= s[t.second]
  {
  }

  /** Any two valid selections carry the same three scores, so scores and
      margins do not depend on how ties are broken. */
  lemma Top3ValuesUnique(s: seq<real>, t: Top3, u: Top3)
    requires IsTop3(s, t) && IsTop3(s, u)
    ensures s[t.first] == s[u.first]
    ensures s[t.second] == s[u.second]
    ensures s[t.third] == s[u.third]
  {
  }

  /** Scores 0.9, 0.6, 0.5, 0.5 give ranks 0, 1 and one of the tied pair
      2, 3, with margins 0.3 and 0.1. */
  lemma RankingExample(t: Top3)
    requires IsTop3([0.9, 0.6, 0.5, 0.5], t)
    ensures t.first == 0 && t.second == 1 && (t.third == 2 || t.third == 3)
    ensures [0.9, 0.6, 0.5, 0.5][t.first] - [0.9, 0.6, 0.5, 0.5][t.second] == 0.3
    ensures [0.9, 0.6, 0.5, 0.5][t.second] - [0.9, 0.6, 0.5, 0.5][t.third] == 0.1
  {
    var s := [0.9, 0.6, 0.5, 0.5];
    Top3Dominates(s, t, 0);
    if t.second != 1 {
      Top3Dominates(s, t, 1);
    }
  }
}
