// Lists of numbers, as the links of a chain spell them out.
module Sequences {

  // The neighbour at a place, 0 beyond the ends.
  function At(xs: seq<nat>, i: int): nat {
    if 0 <= i < |xs| then xs[i] else 0
  }

  function Members(xs: seq<nat>): set<nat> {
    set x | x in xs
  }

  predicate Distinct(xs: seq<nat>) {
    forall i, j | 0 <= i < j < |xs| :: xs[i] != xs[j]
  }

  function Without(xs: seq<nat>, i: nat): seq<nat>
    requires i < |xs|
  {
    xs[..i] + xs[i + 1..]
  }

  lemma AtWithout(xs: seq<nat>, i: nat, m: int)
    requires i < |xs|
    ensures At(Without(xs, i), m) == if m < i then At(xs, m) else At(xs, m + 1)
  {
  }

  lemma WithoutDistinct(xs: seq<nat>, i: nat)
    requires i < |xs| && Distinct(xs)
    ensures Distinct(Without(xs, i))
  {
    var ys := Without(xs, i);
    forall j, k | 0 <= j < k < |ys|
      ensures ys[j] != ys[k]
    {
      assert ys[j] == xs[if j < i then j else j + 1] && ys[k] == xs[if k < i then k else k + 1];
    }
  }

  // The list without the first occurrence.
  function Dropped(xs: seq<nat>, t: nat): seq<nat> {
    if xs == [] then [] else if xs[0] == t then xs[1..] else [xs[0]] + Dropped(xs[1..], t)
  }

  lemma {:induction false} DroppedAt(xs: seq<nat>, t: nat, i: nat)
    requires i < |xs| && xs[i] == t && t !in xs[..i]
    ensures Dropped(xs, t) == Without(xs, i)
    decreases i
  {
    if i > 0 {
      assert xs[0] in xs[..i] && xs[1..][..i - 1] == xs[..i][1..];
      DroppedAt(xs[1..], t, i - 1);
      assert [xs[0]] + Without(xs[1..], i - 1) == Without(xs, i);
    } else {
      assert Without(xs, 0) == xs[1..];
    }
  }

  lemma {:induction false} NotDropped(xs: seq<nat>, t: nat)
    requires t !in xs
    ensures Dropped(xs, t) == xs
  {
    if xs != [] {
      NotDropped(xs[1..], t);
    }
  }
}
