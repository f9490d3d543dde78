/** Sizes of finite sets of natural numbers. */
module FiniteSets {

  lemma {:induction false} LastOf(s: set<nat>) returns (last: nat)
    requires s != {}
    ensures last in s && forall i :: i in s ==> i <= last
  {
    var first :| first in s;
    last := first;
    if s != {first} {
      var rest := s - {first};
      assert forall i :: i in s <==> i == first || i in rest;
      var other := LastOf(rest);
      if other > first { last := other; }
    }
  }

  lemma {:induction false} NarrowSetIsSmall(s: set<nat>, lo: int, width: nat)
    requires forall k :: k in s ==> lo <= k < lo + width
    ensures |s| <= width
  {
    if width == 0 {
      assert s == {};
    } else {
      NarrowSetIsSmall(s - {lo + width - 1}, lo, width - 1);
    }
  }

  lemma {:induction false} SubsetIsSmaller(a: set<nat>, b: set<nat>)
    requires a <= b
    ensures |a| <= |b|
  {
    if a != {} {
      var x :| x in a;
      SubsetIsSmaller(a - {x}, b - {x});
    }
  }

  function Below(n: nat): (s: set<nat>)
    ensures |s| == n && forall i :: i in s <==> 0 <= i < n
  {
    if n == 0 then {} else Below(n - 1) + {n - 1}
  }
}
