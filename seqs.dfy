/** Linear search over a sequence: the shape of JavaScript's `Array.prototype.find`. */
module Seqs {
  import opened Wrappers

  /** The index of the first element satisfying `p`, if any. */
  function FirstIndex<T>(s: seq<T>, p: T -> bool): (r: Option<nat>)
    ensures r.Some? ==> r.value < |s| && p(s[r.value]) && forall j :: 0 <= j < r.value ==> !p(s[j])
    ensures r.None? ==> forall j :: 0 <= j < |s| ==> !p(s[j])
  {
    if |s| == 0 then None
    else if p(s[0]) then Some(0)
    else match FirstIndex(s[1..], p)
      case None => None
      case Some(k) => Some(k + 1)
  }

  /** A satisfying index with no satisfying index before it is what the search returns. */
  lemma FirstIndexAt<T>(s: seq<T>, p: T -> bool, j: nat)
    requires j < |s| && p(s[j])
    requires forall i :: 0 <= i < j ==> !p(s[i])
    ensures FirstIndex(s, p) == Some(j)
  {
  }

  /** Cutting the sequence after a satisfying element does not change the search. */
  lemma FirstIndexPrefix<T>(s: seq<T>, p: T -> bool, n: nat, j: nat)
    requires j < n <= |s| && p(s[j])
    ensures FirstIndex(s[..n], p) == FirstIndex(s, p)
  {
    var f := FirstIndex(s, p).value;
    assert f <= j;
    FirstIndexAt(s[..n], p, f);
  }
}
