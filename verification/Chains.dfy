// Singly linked chains, changed by splicing.  0 is the null pointer.
module Chains {
  import opened Sequences

  predicate LinkAt(next: map<nat, nat>, xs: seq<nat>, i: nat)
    requires i < |xs|
  {
    xs[i] != 0 && xs[i] in next && next[xs[i]] == At(xs, i + 1)
  }

  // The links from `head` on are `xs`.
  predicate IsChain(next: map<nat, nat>, head: nat, xs: seq<nat>) {
    && head == At(xs, 0) && Distinct(xs)
    && forall i {:trigger LinkAt(next, xs, i)} | 0 <= i < |xs| :: LinkAt(next, xs, i)
  }

  // A chain is not touched by changes to other links.
  lemma ChainKept(next: map<nat, nat>, head: nat, xs: seq<nat>, next2: map<nat, nat>)
    requires IsChain(next, head, xs)
    requires forall x | x in xs :: x in next ==> x in next2 && next2[x] == next[x]
    ensures IsChain(next2, head, xs)
  {
    forall i | 0 <= i < |xs|
      ensures LinkAt(next2, xs, i)
    {
      assert LinkAt(next, xs, i) && xs[i] in xs;
    }
  }

  lemma ChainEnds(next: map<nat, nat>, head: nat, xs: seq<nat>, i: nat)
    requires IsChain(next, head, xs) && i <= |xs|
    ensures At(xs, i) == 0 <==> i == |xs|
  {
    if i < |xs| {
      assert LinkAt(next, xs, i);
    }
  }

  lemma PrevIs(next: map<nat, nat>, head: nat, xs: seq<nat>, i: nat)
    requires IsChain(next, head, xs) && i < |xs|
    ensures At(xs, i - 1) == 0 <==> i == 0
    ensures xs[i] in next
  {
    assert LinkAt(next, xs, i);
    if i > 0 { assert LinkAt(next, xs, i - 1); }
  }

  lemma PushChain(next: map<nat, nat>, head: nat, xs: seq<nat>, v: nat)
    requires IsChain(next, head, xs) && v != 0 && v !in xs
    ensures IsChain(next[v := head], v, [v] + xs)
  {
    var ys, n := [v] + xs, next[v := head];
    forall i | 0 <= i < |ys|
      ensures LinkAt(n, ys, i)
    {
      if i > 0 { assert LinkAt(next, xs, i - 1) && ys[i] == xs[i - 1]; }
    }
  }

  function With(xs: seq<nat>, i: nat, v: nat): seq<nat>
    requires i < |xs|
  {
    xs[i := v]
  }

  function Replaced(next: map<nat, nat>, xs: seq<nat>, i: nat, v: nat): map<nat, nat>
    requires i < |xs| && xs[i] in next
  {
    var n := next[v := next[xs[i]]];
    if i == 0 then n else n[xs[i - 1] := v]
  }

  lemma ReplaceChain(next: map<nat, nat>, head: nat, xs: seq<nat>, i: nat, v: nat)
    requires IsChain(next, head, xs) && i < |xs| && v != 0 && v !in xs
    ensures xs[i] in next && IsChain(Replaced(next, xs, i, v), if i == 0 then v else head, With(xs, i, v))
  {
    assert LinkAt(next, xs, i);
    var ys, n := With(xs, i, v), Replaced(next, xs, i, v);
    forall j | 0 <= j < |ys|
      ensures LinkAt(n, ys, j)
    {
      assert LinkAt(next, xs, j);
    }
  }

  function Skipped(next: map<nat, nat>, xs: seq<nat>, i: nat): map<nat, nat>
    requires i < |xs| && xs[i] in next
  {
    if i == 0 then next else next[xs[i - 1] := next[xs[i]]]
  }

  lemma SkipChain(next: map<nat, nat>, head: nat, xs: seq<nat>, i: nat)
    requires IsChain(next, head, xs) && i < |xs|
    ensures xs[i] in next && xs[i] !in Without(xs, i)
    ensures IsChain(Skipped(next, xs, i), if i == 0 then next[xs[i]] else head, Without(xs, i))
  {
    assert LinkAt(next, xs, i);
    var ys, n := Without(xs, i), Skipped(next, xs, i);
    forall j | 0 <= j < |ys|
      ensures LinkAt(n, ys, j)
    {
      var k := if j < i then j else j + 1;
      assert LinkAt(next, xs, k) && ys[j] == xs[k];
    }
    WithoutDistinct(xs, i);
  }
}
