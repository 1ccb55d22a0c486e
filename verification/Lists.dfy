/** Linked lists as sequences of node numbers, shared by the models of the pointer structures. */
module Lists {

  /** A null pointer. */
  const NONE := -1

  ghost predicate NoDup<T>(s: seq<T>) {
    forall i, j | 0 <= i < j < |s| :: s[i] != s[j]
  }

  /** The node at position k, or a null pointer beyond either end. */
  function At(s: seq<nat>, k: int): int {
    if 0 <= k < |s| then s[k] else NONE
  }

  function Without(s: seq<nat>, p: nat): (r: seq<nat>)
    requires p < |s|
    ensures |r| == |s| - 1
  {
    s[..p] + s[p + 1..]
  }

  lemma AtWithout(s: seq<nat>, p: nat, k: int)
    requires p < |s| && k >= -1
    ensures At(Without(s, p), k) == At(s, if k < p then k else k + 1)
  {}

  /** Taking one position out of a list without duplicates takes out exactly that node. */
  lemma WithoutFacts(s: seq<nat>, p: nat)
    requires NoDup(s) && p < |s|
    ensures NoDup(Without(s, p)) && forall x :: x in Without(s, p) <==> x in s && x != s[p]
  {
    var r := Without(s, p);
    forall k | 0 <= k < |r|
      ensures r[k] == s[if k < p then k else k + 1]
    {}
    forall x
      ensures x in r <==> x in s && x != s[p]
    {
      if x in s && x != s[p] {
        var k :| 0 <= k < |s| && s[k] == x;
        assert r[if k < p then k else k - 1] == x;
      }
    }
  }
}
