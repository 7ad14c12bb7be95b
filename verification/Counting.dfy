/** Pigeonhole arguments shared by the proofs. */
module Counting {

  /** Distinct values drawn from a set are no more than the set holds. */
  lemma {:induction false} Pigeonhole<T>(xs: seq<T>, room: set<T>)
    requires forall j, k :: 0 <= j < k < |xs| ==> xs[j] != xs[k]
    requires forall k :: 0 <= k < |xs| ==> xs[k] in room
    ensures |xs| <= |room|
  {
    if xs != [] {
      var last := |xs| - 1;
      Pigeonhole(xs[..last], room - {xs[last]});
    }
  }

  /** The numbers from 1 to `n`. */
  function UpTo(n: nat): (s: set<nat>)
    ensures |s| == n
    ensures forall k :: k in s <==> 1 <= k <= n
  {
    if n == 0 then {} else UpTo(n - 1) + {n}
  }

  lemma Largest(used: set<nat>) returns (m: nat)
    requires used != {}
    ensures m in used && forall x :: x in used ==> x <= m
  {
    m :| m in used;
    if used != {m} {
      var n := Largest(used - {m});
      assert forall x :: x in used ==> x == m || x in used - {m};
      m := if m < n then n else m;
    }
  }

  /** There is always another number. */
  lemma Unused(used: set<nat>) returns (x: nat)
    ensures x !in used
  {
    x := 0;
    if used != {} {
      var m := Largest(used);
      x := m + 1;
    }
  }
}
