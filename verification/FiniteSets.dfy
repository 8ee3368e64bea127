/** Facts about finite sets that the services share. */
module FiniteSets {

  // The element a std::set yields first.
  predicate IsLeast(p: nat, s: set<nat>) {
    p in s && forall q :: q in s ==> p <= q
  }

  lemma {:induction false} LeastExists(s: set<nat>)
    requires s != {}
    ensures exists p :: p in s && IsLeast(p, s)
    decreases |s|
  {
    var p :| p in s;
    if s - {p} == {} {
      assert s == {p};
      assert IsLeast(p, s);
    } else {
      LeastExists(s - {p});
      var q :| q in s - {p} && IsLeast(q, s - {p});
      assert forall r :: r in s ==> r == p || r in s - {p};
      assert IsLeast(if p < q then p else q, s);
    }
  }

  function Least(s: set<nat>): (p: nat)
    requires s != {}
    ensures IsLeast(p, s)
  {
    LeastExists(s);
    var p :| p in s && IsLeast(p, s);
    p
  }

  lemma SubsetSize<T>(a: set<T>, b: set<T>)
    requires a <= b
    ensures |a| <= |b| && (|a| == |b| <==> a == b)
  {
    assert b == a + (b - a);
  }
}
