/** Sequence facts the trace proofs share. */
module Seqs {
  /**
   * Concatenation regroups. Calling this once where a trace is extended saves
   * the solver an element-wise comparison of the two groupings.
   */
  lemma AppendAssoc<T>(a: seq<T>, b: seq<T>, c: seq<T>)
    ensures a + b + c == a + (b + c)
  {
  }

  /** The number of elements of one kind. */
  function Count<T>(s: seq<T>, kind: T -> bool): (r: nat)
    ensures r <= |s|
    ensures r == 0 <==> forall k :: 0 <= k < |s| ==> !kind(s[k])
  {
    if s == [] then 0 else (if kind(s[0]) then 1 else 0) + Count(s[1..], kind)
  }

  /** Counting distributes over concatenation. */
  lemma {:induction false} CountAppend<T>(a: seq<T>, b: seq<T>, kind: T -> bool)
    ensures Count(a + b, kind) == Count(a, kind) + Count(b, kind)
  {
    if a == [] {
      assert a + b == b;
    } else {
      assert (a + b)[1..] == a[1..] + b;
      CountAppend(a[1..], b, kind);
    }
  }
}
