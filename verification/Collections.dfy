/** Facts about collections that the loops over sets and maps need, and what the history of a
    run says about its end. */
module Collections {

  /** A set that is not empty has an element to go on with. */
  lemma SomeElement<T>(s: set<T>) returns (e: T)
    requires s != {}
    ensures e in s
  {
    assert (forall x :: x !in s) ==> s == {};
    e :| e in s;
  }

  // ----- histories

  /** Of the first `n` moments, `i` is one at which something comes in, and at no later one it
      goes out. */
  ghost predicate IsLastEntry(enters: seq<bool>, leaves: seq<bool>, n: nat, i: nat)
    requires n <= |enters| == |leaves|
  {
    i < n && enters[i] && forall j :: i < j < n ==> !leaves[j]
  }

  /** Something came in, and did not go out since. */
  ghost predicate HasLastEntry(enters: seq<bool>, leaves: seq<bool>, n: nat)
    requires n <= |enters| == |leaves|
  {
    exists i: nat :: IsLastEntry(enters, leaves, n, i)
  }

  lemma LastEntryExtends(enters: seq<bool>, leaves: seq<bool>, n: nat, n': nat)
    requires n' == n + 1 <= |enters| == |leaves|
    ensures HasLastEntry(enters, leaves, n') <==> enters[n] || (HasLastEntry(enters, leaves, n) && !leaves[n])
  {
    assert IsLastEntry(enters, leaves, n', n) <==> enters[n];
    forall i: nat | i < n
      ensures IsLastEntry(enters, leaves, n', i) <==> IsLastEntry(enters, leaves, n, i) && !leaves[n]
    {
    }
  }

  /** `inside[k]` says whether it is in before moment `k`: at first it is not, and each moment
      changes that as the two traces say. */
  ghost predicate Follows(inside: seq<bool>, enters: seq<bool>, leaves: seq<bool>) {
    && |enters| == |leaves| && |inside| == |enters| + 1 && !inside[0]
    && (forall k :: 0 <= k < |enters| ==> inside[k + 1] == (enters[k] || (inside[k] && !leaves[k])))
  }

  /** Then at every point it is in exactly if it came in and did not go out since. */
  lemma {:induction false} HistoryDecides(inside: seq<bool>, enters: seq<bool>, leaves: seq<bool>, n: nat)
    requires Follows(inside, enters, leaves) && n <= |enters|
    ensures inside[n] <==> HasLastEntry(enters, leaves, n)
  {
    if n > 0 {
      HistoryDecides(inside, enters, leaves, n - 1);
      LastEntryExtends(enters, leaves, n - 1, n);
      assert inside[(n - 1) + 1] == (enters[n - 1] || (inside[n - 1] && !leaves[n - 1]));
    }
  }
}
