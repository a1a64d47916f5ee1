// Reachability along the edges of a graph, by paths.
module Paths {
  import opened Graphs

  predicate Path(edge: (nat, nat) -> bool, p: seq<nat>) {
    p != [] && forall i | 0 <= i < |p| - 1 :: edge(p[i], p[i + 1])
  }

  ghost predicate Reachable(edge: (nat, nat) -> bool, roots: set<nat>, a: nat) {
    exists p: seq<nat> :: Path(edge, p) && p[0] in roots && p[|p| - 1] == a
  }

  ghost predicate ClosedUnder(edge: (nat, nat) -> bool, c: set<nat>) {
    forall a, b | a in c && edge(a, b) :: b in c
  }

  lemma {:induction false} PathStays(edge: (nat, nat) -> bool, p: seq<nat>, c: set<nat>)
    requires Path(edge, p) && p[0] in c && ClosedUnder(edge, c)
    ensures p[|p| - 1] in c
    decreases |p|
  {
    if |p| > 1 {
      var q := p[1..];
      assert edge(p[0], p[1]);
      forall i | 0 <= i < |q| - 1
        ensures edge(q[i], q[i + 1])
      {
        assert q[i] == p[i + 1] && q[i + 1] == p[i + 2];
      }
      PathStays(edge, q, c);
    }
  }

  lemma OneStepMore(edge: (nat, nat) -> bool, roots: set<nat>, a: nat, b: nat)
    requires Reachable(edge, roots, a) && edge(a, b)
    ensures Reachable(edge, roots, b)
  {
    var p: seq<nat> :| Path(edge, p) && p[0] in roots && p[|p| - 1] == a;
    var q := p + [b];
    assert forall i | 0 <= i < |q| - 1 :: edge(q[i], q[i + 1]);
    assert Path(edge, q) && q[0] in roots && q[|q| - 1] == b;
  }

  lemma RootsReachable(edge: (nat, nat) -> bool, roots: set<nat>, a: nat)
    requires a in roots
    ensures Reachable(edge, roots, a)
  {
    assert Path(edge, [a]);
  }

  // What a list of values points to.
  function Targets(roots: seq<Val>): set<nat> {
    set i | 0 <= i < |roots| && roots[i].Ptr? :: roots[i].a
  }

  lemma TargetsWithin(roots: seq<Val>, c: set<nat>)
    ensures Within(roots, c) <==> Targets(roots) <= c
  {
    if Targets(roots) <= c {
      forall i | 0 <= i < |roots| && roots[i].Ptr?
        ensures roots[i].a in c
      {
        assert roots[i].a in Targets(roots);
      }
    }
  }

  // A least closed set over the roots is what can be reached from them.
  lemma LeastIsReachable(edge: (nat, nat) -> bool, roots: set<nat>, c: set<nat>)
    requires roots <= c && ClosedUnder(edge, c)
    requires forall d: set<nat> | roots <= d <= c && ClosedUnder(edge, d) :: c <= d
    ensures forall a :: a in c <==> Reachable(edge, roots, a)
  {
    var d := set a | a in c && Reachable(edge, roots, a);
    forall a | a in roots
      ensures a in d
    {
      RootsReachable(edge, roots, a);
    }
    forall a, b | a in d && edge(a, b)
      ensures b in d
    {
      OneStepMore(edge, roots, a, b);
    }
    assert c <= d;
    forall a | Reachable(edge, roots, a)
      ensures a in c
    {
      var p: seq<nat> :| Path(edge, p) && p[0] in roots && p[|p| - 1] == a;
      PathStays(edge, p, c);
    }
  }
}
