/** Concatenation of a sequence of sequences, in order: the shape shared by
    flattening the anchor map (one list per category) and by emitting result
    rows (one list per complaint). */
module Seqs {

  /** The elements of `xss[0]`, then those of `xss[1]`, and so on. */
  function Concat<T>(xss: seq<seq<T>>): seq<T>
    decreases |xss|
  {
    if |xss| == 0 then [] else Concat(xss[..|xss| - 1]) + xss[|xss| - 1]
  }

  /** Sum of the lengths of the inner sequences. */
  function TotalLength<T>(xss: seq<seq<T>>): nat
    decreases |xss|
  {
    if |xss| == 0 then 0 else |xss[0]| + TotalLength(xss[1..])
  }

  /** Position in `Concat(xss)` where the elements of `xss[j]` begin. */
  function Offset<T>(xss: seq<seq<T>>, j: nat): nat
    requires j <= |xss|
  {
    TotalLength(xss[..j])
  }

  lemma {:induction false} TotalLengthAppend<T>(a: seq<seq<T>>, b: seq<seq<T>>)
    ensures TotalLength(a + b) == TotalLength(a) + TotalLength(b)
    decreases |a|
  {
    if |a| == 0 {
      assert a + b == b;
    } else {
      assert (a + b)[1..] == a[1..] + b;
      TotalLengthAppend(a[1..], b);
    }
  }

  /** Concatenation distributes over appending outer sequences. */
  lemma {:induction false} ConcatAppend<T>(a: seq<seq<T>>, b: seq<seq<T>>)
    ensures Concat(a + b) == Concat(a) + Concat(b)
    decreases |b|
  {
    if |b| == 0 {
      assert a + b == a;
    } else {
      var b' := b[..|b| - 1];
      assert (a + b)[..|a + b| - 1] == a + b';
      assert (a + b)[|a + b| - 1] == b[|b| - 1];
      ConcatAppend(a, b');
    }
  }

  /** The concatenation is exactly as long as all inner sequences together. */
  lemma {:induction false} ConcatLength<T>(xss: seq<seq<T>>)
    ensures |Concat(xss)| == TotalLength(xss)
    decreases |xss|
  {
    if |xss| != 0 {
      var init := xss[..|xss| - 1];
      ConcatLength(init);
      assert xss == init + [xss[|xss| - 1]];
      TotalLengthAppend(init, [xss[|xss| - 1]]);
      assert TotalLength([xss[|xss| - 1]]) == |xss[|xss| - 1]| by {
        assert [xss[|xss| - 1]][1..] == [];
      }
    }
  }

  /** Element `i` of inner sequence `j` sits at `Offset(xss, j) + i`. */
  lemma ConcatIndex<T>(xss: seq<seq<T>>, j: nat, i: nat)
    requires j < |xss| && i < |xss[j]|
    ensures Offset(xss, j) + i < |Concat(xss)|
    ensures Concat(xss)[Offset(xss, j) + i] == xss[j][i]
  {
    var front, rest := xss[..j], xss[j + 1..];
    assert xss == front + [xss[j]] + rest;
    ConcatAppend(front + [xss[j]], rest);
    ConcatAppend(front, [xss[j]]);
    assert Concat([xss[j]]) == xss[j] by {
      assert [xss[j]][..0] == [];
    }
    ConcatLength(front);
  }

  /** Every position of the concatenation lies in the block of some inner
      sequence: nothing in `Concat(xss)` comes from anywhere else. */
  lemma {:induction false} ConcatCovers<T>(xss: seq<seq<T>>, k: nat)
    requires k < |Concat(xss)|
    ensures exists j :: 0 <= j < |xss| && Offset(xss, j) <= k < Offset(xss, j) + |xss[j]|
    decreases |xss|
  {
    var n := |xss| - 1;
    var init := xss[..n];
    assert init == xss[..n];
    ConcatLength(init);
    if k < |Concat(init)| {
      ConcatCovers(init, k);
      var j :| 0 <= j < |init| && Offset(init, j) <= k < Offset(init, j) + |init[j]|;
      assert init[..j] == xss[..j];
    } else {
      assert Offset(xss, n) <= k < Offset(xss, n) + |xss[n]|;
    }
  }

  /** Two sequences of sequences whose inner lengths agree pairwise have the
      same total length. */
  lemma {:induction false} TotalLengthSameShape<A, B>(xss: seq<seq<A>>, yss: seq<seq<B>>)
    requires |xss| == |yss|
    requires forall j :: 0 <= j < |xss| ==> |xss[j]| == |yss[j]|
    ensures TotalLength(xss) == TotalLength(yss)
    decreases |xss|
  {
    if |xss| != 0 {
      TotalLengthSameShape(xss[1..], yss[1..]);
    }
  }
}
