/** Flattening a sequence of sequences, with the facts the validator's error list relies on. */
module Seqs {

  /** The concatenation of `xss` in order. */
  function Concat<T>(xss: seq<seq<T>>): seq<T>
    decreases |xss|
  {
    if xss == [] then [] else xss[0] + Concat(xss[1..])
  }

  /** Every element of every part is in the concatenation. */
  lemma {:induction false} ConcatContains<T>(xss: seq<seq<T>>, i: nat, x: T)
    requires i < |xss| && x in xss[i]
    ensures x in Concat(xss)
    decreases |xss|
  {
    if i > 0 {
      assert xss[i] == xss[1..][i - 1];
      ConcatContains(xss[1..], i - 1, x);
    }
  }

  /** Every element of the concatenation comes from some part. */
  lemma {:induction false} ConcatElementFromPart<T>(xss: seq<seq<T>>, x: T) returns (i: nat)
    requires x in Concat(xss)
    ensures i < |xss| && x in xss[i]
    decreases |xss|
  {
    if x in xss[0] {
      i := 0;
    } else {
      var j := ConcatElementFromPart(xss[1..], x);
      i := j + 1;
    }
  }

  /** The concatenation is empty exactly when every part is. */
  lemma {:induction false} ConcatEmpty<T>(xss: seq<seq<T>>)
    ensures Concat(xss) == [] <==> forall i :: 0 <= i < |xss| ==> xss[i] == []
    decreases |xss|
  {
    if xss != [] {
      ConcatEmpty(xss[1..]);
      assert forall i :: 1 <= i < |xss| ==> xss[i] == xss[1..][i - 1];
    }
  }

  /** Parts of at most `k` elements concatenate to at most `k` per part. */
  lemma {:induction false} ConcatBound<T>(xss: seq<seq<T>>, k: nat)
    requires forall i :: 0 <= i < |xss| ==> |xss[i]| <= k
    ensures |Concat(xss)| <= k * |xss|
    decreases |xss|
  {
    if xss != [] {
      assert forall i :: 0 <= i < |xss[1..]| ==> xss[1..][i] == xss[i + 1];
      ConcatBound(xss[1..], k);
      assert |Concat(xss)| == |xss[0]| + |Concat(xss[1..])|;
      assert k * |xss| == k + k * |xss[1..]|;
    }
  }
}
