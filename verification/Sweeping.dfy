// What the collector's sweep does to the object list, the finalization chain
// and the symbol table.
module Sweeping {
  import opened Bytes
  import opened Graphs
  import opened Marking
  import opened Sequences

  // Sizes on a sixty-four bit machine.
  const OBJECT_BYTES: nat := 88
  const VECTOR_BYTES: nat := 16
  const TYPED_BYTES: nat := 24
  const WORD_BYTES: nat := 8

  function SizeOf(x: Node): nat {
    match x
    case Plain(_, _, _) => OBJECT_BYTES
    case Raw(bytes) => VECTOR_BYTES + |bytes|
    case Typed(_, _, elems) => TYPED_BYTES + |elems| * WORD_BYTES
    case Elems(elems) => VECTOR_BYTES + |elems| * WORD_BYTES
  }

  function TotalSize(h: Graph, xs: seq<nat>): nat
    requires forall i | 0 <= i < |xs| :: xs[i] in h
  {
    if xs == [] then 0 else SizeOf(h[xs[0]]) + TotalSize(h, xs[1..])
  }

  predicate Finalizable(x: Node) {
    (x.Plain? || x.Typed?) && x.finalize
  }

  function Unflagged(x: Node): Node
    requires x.Plain? || x.Typed?
  {
    x.(finalize := false)
  }

  // Symbols are made with four slots and a number for their hash.
  predicate SymbolShaped(x: Node) {
    x.Typed? && x.kind == T_SYMBOL ==> IsSymbol(x) && x.elems[SY_HASH].Int?
  }

  predicate SymbolsShaped(h: Graph) {
    forall a | a in h :: SymbolShaped(h[a])
  }

  predicate IsTable(h: Graph, table: nat) {
    table in h && h[table].Elems? && h[table].elems != []
  }

  // The hash is read back as an unsigned word of sixty-two bits.
  function Slot(x: Node, size: nat): nat
    requires IsSymbol(x) && x.elems[SY_HASH].Int? && size > 0
  {
    (x.elems[SY_HASH].n % P62) % size
  }

  // A symbol becomes the first of its bucket.
  function Linked(h: Graph, table: nat, x: nat): (r: Graph)
    requires IsTable(h, table) && x in h && IsSymbol(h[x]) && h[x].elems[SY_HASH].Int?
    ensures r.Keys == h.Keys && IsTable(r, table)
  {
    var slot := Slot(h[x], |h[table].elems|);
    var h1 := h[x := h[x].(elems := h[x].elems[SY_NEXT := h[table].elems[slot]])];
    h1[table := Elems(h[table].elems[slot := Ptr(x)])]
  }

  datatype Mem = Mem(nodes: Graph, marked: set<nat>, listed: seq<nat>, chain: seq<nat>, size: nat)

  predicate Sweepable(m: Mem, table: nat) {
    IsTable(m.nodes, table) && SymbolsShaped(m.nodes)
  }

  // One object leaves the old list.
  function SweepOne(m: Mem, table: nat, x: nat): (r: Mem)
    requires Sweepable(m, table) && x in m.nodes && (x == table ==> x in m.marked)
    ensures Sweepable(r, table)
  {
    var node := m.nodes[x];
    if x !in m.marked then
      if Finalizable(node) then m.(nodes := m.nodes[x := Unflagged(node)], chain := [x] + m.chain)
      else m.(nodes := m.nodes - {x})
    else
      m.(nodes := if IsSymbol(node) then Linked(m.nodes, table, x) else m.nodes,
         marked := m.marked - {x}, listed := [x] + m.listed, size := m.size + SizeOf(node))
  }

  // The whole of it, from the old list.
  function Sweep(m: Mem, table: nat, xs: seq<nat>): (r: Mem)
    requires Sweepable(m, table) && Distinct(xs) && (forall x | x in xs :: x in m.nodes)
             && (table in xs ==> table in m.marked)
    ensures Sweepable(r, table)
    decreases |xs|
  {
    if xs == [] then m
    else
      var m1 := SweepOne(m, table, xs[0]);
      StillThere(m, table, xs);
      Sweep(m1, table, xs[1..])
  }

  lemma StillThere(m: Mem, table: nat, xs: seq<nat>)
    requires Sweepable(m, table) && xs != [] && Distinct(xs) && (forall x | x in xs :: x in m.nodes)
    requires table in xs ==> table in m.marked
    ensures var m1 := SweepOne(m, table, xs[0]);
            && Distinct(xs[1..]) && (forall x | x in xs[1..] :: x in m1.nodes)
            && (table in xs[1..] ==> table in m1.marked)
  {
    forall x | x in xs[1..]
      ensures x != xs[0]
    {
      var i :| 0 <= i < |xs[1..]| && xs[1..][i] == x;
      assert xs[i + 1] == x;
    }
  }

  // ---- Its effect ----

  // The members of `c` in `xs`, each pushed onto the front in turn.
  function Pushed(xs: seq<nat>, c: set<nat>): seq<nat> {
    if xs == [] then [] else Pushed(xs[1..], c) + if xs[0] in c then [xs[0]] else []
  }

  lemma {:induction false} PushedSame(xs: seq<nat>, c: set<nat>, d: set<nat>)
    requires forall x | x in xs :: x in c <==> x in d
    ensures Pushed(xs, c) == Pushed(xs, d)
  {
    if xs != [] {
      assert forall x | x in xs[1..] :: x in xs;
      PushedSame(xs[1..], c, d);
    }
  }

  lemma {:induction false} PushedMembers(xs: seq<nat>, c: set<nat>)
    ensures forall x :: x in Pushed(xs, c) <==> x in xs && x in c
  {
    if xs != [] {
      PushedMembers(xs[1..], c);
      assert xs == [xs[0]] + xs[1..];
    }
  }

  lemma {:induction false} PushedDistinct(xs: seq<nat>, c: set<nat>)
    requires Distinct(xs)
    ensures Distinct(Pushed(xs, c))
  {
    if xs != [] {
      assert forall i, j | 0 <= i < j < |xs[1..]| :: xs[1..][i] == xs[i + 1] && xs[1..][j] == xs[j + 1];
      PushedDistinct(xs[1..], c);
      PushedMembers(xs[1..], c);
      FirstIsNew(xs);
    }
  }

  lemma FirstIsNew(xs: seq<nat>)
    requires xs != [] && Distinct(xs)
    ensures xs[0] !in xs[1..]
  {
    forall i | 0 <= i < |xs[1..]|
      ensures xs[1..][i] != xs[0]
    {
      assert xs[1..][i] == xs[i + 1];
    }
  }

  // The objects of `xs` that the sweep keeps, sends to be finalized, frees.
  function Keeps(m: Mem, xs: seq<nat>): set<nat> {
    set x | x in xs && x in m.marked
  }

  function Sends(m: Mem, xs: seq<nat>): set<nat>
    requires forall x | x in xs :: x in m.nodes
  {
    set x | x in xs && x !in m.marked && Finalizable(m.nodes[x])
  }

  function Frees(m: Mem, xs: seq<nat>): set<nat>
    requires forall x | x in xs :: x in m.nodes
  {
    set x | x in xs && x !in m.marked && !Finalizable(m.nodes[x])
  }

  predicate Ready(m: Mem, table: nat, xs: seq<nat>) {
    Sweepable(m, table) && Distinct(xs) && (forall x | x in xs :: x in m.nodes) && (table in xs ==> table in m.marked)
  }

  // What the first step leaves to the others.
  lemma FirstStep(m: Mem, table: nat, xs: seq<nat>)
    requires Ready(m, table, xs) && xs != []
    ensures var m1 := SweepOne(m, table, xs[0]);
            && Ready(m1, table, xs[1..]) && xs[0] !in xs[1..]
            && (forall x | x in xs[1..] ::
                  (x in m1.marked <==> x in m.marked) && (Finalizable(m1.nodes[x]) <==> Finalizable(m.nodes[x])))
            && Sweep(m, table, xs) == Sweep(m1, table, xs[1..])
  {
    StillThere(m, table, xs);
    FirstIsNew(xs);
  }

  // Survivors and objects to be finalized, both in the reverse of the old
  // order; every bit of a listed object cleared.
  lemma {:induction false} SweepLists(m: Mem, table: nat, xs: seq<nat>)
    requires Ready(m, table, xs)
    ensures var r := Sweep(m, table, xs);
            && r.listed == Pushed(xs, Keeps(m, xs)) + m.listed
            && r.chain == Pushed(xs, Sends(m, xs)) + m.chain
            && r.marked == m.marked - (set x | x in xs)
            && r.nodes.Keys == m.nodes.Keys - Frees(m, xs)
    decreases |xs|
  {
    if xs == [] {
      assert [] + m.listed == m.listed && [] + m.chain == m.chain;
    } else {
      var m1, rest := SweepOne(m, table, xs[0]), xs[1..];
      FirstStep(m, table, xs);
      assert forall x :: x in xs <==> x == xs[0] || x in rest;
      SweepLists(m1, table, rest);
      PushedSame(rest, Keeps(m1, rest), Keeps(m, xs));
      PushedSame(rest, Sends(m1, rest), Sends(m, xs));
      PushedFirst(xs, Keeps(m, xs), m.listed);
      PushedFirst(xs, Sends(m, xs), m.chain);
    }
  }

  // Pushing the first and then the others.
  lemma PushedFirst(xs: seq<nat>, s: set<nat>, more: seq<nat>)
    requires xs != []
    ensures Pushed(xs, s) + more ==
            if xs[0] in s then Pushed(xs[1..], s) + ([xs[0]] + more) else Pushed(xs[1..], s) + more
  {
    var ys := Pushed(xs[1..], s);
    assert ys + [xs[0]] + more == ys + ([xs[0]] + more) && ys + [] == ys;
  }

  // ---- Contents ----

  // The same but for a symbol's link.
  predicate Relinked(x: Node, y: Node) {
    if IsSymbol(x) then IsSymbol(y) && y == x.(elems := x.elems[SY_NEXT := y.elems[SY_NEXT]]) else y == x
  }

  predicate Contents(m: Mem, table: nat, xs: seq<nat>, r: Mem)
    requires forall x | x in xs :: x in m.nodes
  {
    && (forall a | a in r.nodes && a !in xs && a != table :: a in m.nodes && r.nodes[a] == m.nodes[a])
    && (forall a | a in Keeps(m, xs) && a != table :: a in r.nodes && Relinked(m.nodes[a], r.nodes[a]))
    && (forall a | a in Sends(m, xs) :: a in r.nodes && r.nodes[a] == Unflagged(m.nodes[a]))
    && IsTable(m.nodes, table) && IsTable(r.nodes, table) && |r.nodes[table].elems| == |m.nodes[table].elems|
  }

  lemma {:induction false} SweepContents(m: Mem, table: nat, xs: seq<nat>)
    requires Ready(m, table, xs)
    ensures Contents(m, table, xs, Sweep(m, table, xs))
    decreases |xs|
  {
    if xs != [] {
      var m1, rest := SweepOne(m, table, xs[0]), xs[1..];
      FirstStep(m, table, xs);
      assert forall x :: x in xs <==> x == xs[0] || x in rest;
      SweepContents(m1, table, rest);
      SweepLists(m, table, xs);
      var r := Sweep(m, table, xs);
      SentContents(m, table, xs, r);
      forall a | a in Keeps(m, xs) && a != table
        ensures a in r.nodes && Relinked(m.nodes[a], r.nodes[a])
      {
        assert a != xs[0] ==> a in Keeps(m1, rest);
      }
    }
  }

  lemma SentContents(m: Mem, table: nat, xs: seq<nat>, r: Mem)
    requires Ready(m, table, xs) && xs != []
    requires Ready(SweepOne(m, table, xs[0]), table, xs[1..]) && Contents(SweepOne(m, table, xs[0]), table, xs[1..], r)
    requires r.nodes.Keys == m.nodes.Keys - Frees(m, xs)
    ensures forall a | a in Sends(m, xs) :: a in r.nodes && r.nodes[a] == Unflagged(m.nodes[a])
  {
    FirstStep(m, table, xs);
    var m1, rest := SweepOne(m, table, xs[0]), xs[1..];
    assert forall x :: x in xs <==> x == xs[0] || x in rest;
    forall a | a in Sends(m, xs)
      ensures a in r.nodes && r.nodes[a] == Unflagged(m.nodes[a])
    {
      assert a !in Frees(m, xs) && a != table;
      if a != xs[0] {
        assert a in Sends(m1, rest);
      }
    }
  }

  // ---- Sizes ----

  lemma {:induction false} TotalAppend(h: Graph, xs: seq<nat>, ys: seq<nat>)
    requires (forall i | 0 <= i < |xs| :: xs[i] in h) && (forall i | 0 <= i < |ys| :: ys[i] in h)
    ensures TotalSize(h, xs + ys) == TotalSize(h, xs) + TotalSize(h, ys)
  {
    if xs == [] {
      assert xs + ys == ys;
    } else {
      assert (xs + ys)[1..] == xs[1..] + ys;
      TotalAppend(h, xs[1..], ys);
    }
  }

  lemma {:induction false} TotalSame(h: Graph, k: Graph, xs: seq<nat>)
    requires forall i | 0 <= i < |xs| :: xs[i] in h && xs[i] in k && SizeOf(h[xs[i]]) == SizeOf(k[xs[i]])
    ensures TotalSize(h, xs) == TotalSize(k, xs)
  {
    if xs != [] {
      TotalSame(h, k, xs[1..]);
    }
  }

  // The recorded size grows by that of the survivors.
  lemma {:induction false} SweepSize(m: Mem, table: nat, xs: seq<nat>)
    requires Ready(m, table, xs)
    ensures (forall x | x in Pushed(xs, Keeps(m, xs)) :: x in m.nodes)
    ensures Sweep(m, table, xs).size == m.size + TotalSize(m.nodes, Pushed(xs, Keeps(m, xs)))
    decreases |xs|
  {
    PushedMembers(xs, Keeps(m, xs));
    if xs != [] {
      var m1, rest := SweepOne(m, table, xs[0]), xs[1..];
      FirstStep(m, table, xs);
      assert forall x :: x in xs <==> x == xs[0] || x in rest;
      SweepSize(m1, table, rest);
      PushedSame(rest, Keeps(m1, rest), Keeps(m, xs));
      var kept := Pushed(rest, Keeps(m, xs));
      PushedMembers(rest, Keeps(m, xs));
      SizesAfterStep(m, table, xs, kept);
      if xs[0] in m.marked {
        TotalAppend(m.nodes, kept, [xs[0]]);
      } else {
        assert kept + [] == kept;
      }
    }
  }

  lemma SizesAfterStep(m: Mem, table: nat, xs: seq<nat>, ys: seq<nat>)
    requires Ready(m, table, xs) && xs != [] && forall y | y in ys :: y in xs[1..] && y in m.marked
    ensures var m1 := SweepOne(m, table, xs[0]);
            && (forall i | 0 <= i < |ys| :: ys[i] in m.nodes && ys[i] in m1.nodes)
            && TotalSize(m1.nodes, ys) == TotalSize(m.nodes, ys)
  {
    FirstStep(m, table, xs);
    var m1 := SweepOne(m, table, xs[0]);
    forall i | 0 <= i < |ys|
      ensures ys[i] in m.nodes && ys[i] in m1.nodes && SizeOf(m1.nodes[ys[i]]) == SizeOf(m.nodes[ys[i]])
    {
      assert ys[i] in xs[1..];
    }
    TotalSame(m1.nodes, m.nodes, ys);
  }

  // ---- Buckets ----

  // Following the links from `v` gives the symbols `xs`.
  predicate Follows(h: Graph, v: Val, xs: seq<nat>)
    decreases |xs|
  {
    if xs == [] then v == Nothing
    else v == Ptr(xs[0]) && xs[0] in h && IsSymbol(h[xs[0]]) && Follows(h, h[xs[0]].elems[SY_NEXT], xs[1..])
  }

  lemma {:induction false} FollowsSame(h: Graph, k: Graph, v: Val, xs: seq<nat>)
    requires Follows(h, v, xs) && forall x | x in xs :: x in h && x in k && k[x] == h[x]
    ensures Follows(k, v, xs)
    decreases |xs|
  {
    if xs != [] {
      assert xs[0] in xs;
      FollowsSame(h, k, h[xs[0]].elems[SY_NEXT], xs[1..]);
    }
  }

  predicate Buckets(h: Graph, table: nat, bs: seq<seq<nat>>) {
    && IsTable(h, table) && |bs| == |h[table].elems|
    && forall i | 0 <= i < |bs| :: Follows(h, h[table].elems[i], bs[i]) && table !in bs[i]
  }

  // The surviving symbols of `xs` whose hash leads to bucket `i`.
  function InSlot(m: Mem, xs: seq<nat>, size: nat, i: nat): set<nat>
    requires size > 0 && SymbolsShaped(m.nodes) && forall x | x in xs :: x in m.nodes
  {
    set x | x in xs && x in m.marked && IsSymbol(m.nodes[x]) && Slot(m.nodes[x], size) == i
  }

  function Refilled(m: Mem, xs: seq<nat>, size: nat, bs: seq<seq<nat>>): (r: seq<seq<nat>>)
    requires size > 0 && SymbolsShaped(m.nodes) && forall x | x in xs :: x in m.nodes
    ensures |r| == |bs|
  {
    seq(|bs|, i requires 0 <= i < |bs| => Pushed(xs, InSlot(m, xs, size, i)) + bs[i])
  }

  predicate Apart(xs: seq<nat>, bs: seq<seq<nat>>) {
    forall i, x | 0 <= i < |bs| && x in bs[i] :: x !in xs
  }

  // Every bucket holds the surviving symbols that hash to it, the last one
  // met first.
  lemma {:induction false} SweepBuckets(m: Mem, table: nat, xs: seq<nat>, bs: seq<seq<nat>>)
    requires Ready(m, table, xs) && Buckets(m.nodes, table, bs) && Apart(xs, bs)
    ensures Buckets(Sweep(m, table, xs).nodes, table, Refilled(m, xs, |bs|, bs))
    decreases |xs|
  {
    if xs == [] {
      NoneRefilled(m, |bs|, bs);
    } else {
      var m1, rest := SweepOne(m, table, xs[0]), xs[1..];
      FirstStep(m, table, xs);
      var bs1 := StepBuckets(m, table, xs, bs);
      SweepBuckets(m1, table, rest, bs1);
      RefilledStep(m, table, xs, bs, bs1);
    }
  }

  lemma NoneRefilled(m: Mem, size: nat, bs: seq<seq<nat>>)
    requires size > 0 && SymbolsShaped(m.nodes)
    ensures Refilled(m, [], size, bs) == bs
  {
    assert forall i | 0 <= i < |bs| :: Refilled(m, [], size, bs)[i] == [] + bs[i] == bs[i];
  }

  // One step puts a surviving symbol in front of its bucket.
  lemma StepBuckets(m: Mem, table: nat, xs: seq<nat>, bs: seq<seq<nat>>) returns (bs1: seq<seq<nat>>)
    requires Ready(m, table, xs) && xs != [] && Buckets(m.nodes, table, bs) && Apart(xs, bs)
    ensures var x := xs[0];
            bs1 == if x in m.marked && IsSymbol(m.nodes[x])
                   then bs[Slot(m.nodes[x], |bs|) := [x] + bs[Slot(m.nodes[x], |bs|)]] else bs
    ensures Buckets(SweepOne(m, table, xs[0]).nodes, table, bs1) && Apart(xs[1..], bs1)
  {
    var x, m1 := xs[0], SweepOne(m, table, xs[0]);
    FirstStep(m, table, xs);
    bs1 := bs;
    forall i | 0 <= i < |bs|
      ensures Follows(m1.nodes, m.nodes[table].elems[i], bs[i]) && x !in bs[i]
    {
      assert xs[0] in xs;
      forall y | y in bs[i]
        ensures y in m.nodes && y in m1.nodes && m1.nodes[y] == m.nodes[y]
      {
        FollowedIn(m.nodes, m.nodes[table].elems[i], bs[i], y);
      }
      FollowsSame(m.nodes, m1.nodes, m.nodes[table].elems[i], bs[i]);
    }
    if x in m.marked && IsSymbol(m.nodes[x]) {
      var slot := Slot(m.nodes[x], |bs|);
      bs1 := bs[slot := [x] + bs[slot]];
      assert ([x] + bs[slot])[1..] == bs[slot];
    }
    assert forall y :: y in xs[1..] ==> y in xs;
    assert forall i, y | 0 <= i < |bs1| && y in bs1[i] :: y in bs[i] || y == x;
  }

  lemma {:induction false} FollowedIn(h: Graph, v: Val, xs: seq<nat>, y: nat)
    requires Follows(h, v, xs) && y in xs
    ensures y in h && IsSymbol(h[y])
    decreases |xs|
  {
    if y != xs[0] {
      assert xs == [xs[0]] + xs[1..];
      FollowedIn(h, h[xs[0]].elems[SY_NEXT], xs[1..], y);
    }
  }

  lemma RefilledStep(m: Mem, table: nat, xs: seq<nat>, bs: seq<seq<nat>>, bs1: seq<seq<nat>>)
    requires Ready(m, table, xs) && xs != [] && IsTable(m.nodes, table) && |bs| == |m.nodes[table].elems| == |bs1|
    requires var x := xs[0];
             bs1 == if x in m.marked && IsSymbol(m.nodes[x])
                    then bs[Slot(m.nodes[x], |bs|) := [x] + bs[Slot(m.nodes[x], |bs|)]] else bs
    ensures var m1 := SweepOne(m, table, xs[0]);
            Ready(m1, table, xs[1..]) && Refilled(m1, xs[1..], |bs|, bs1) == Refilled(m, xs, |bs|, bs)
  {
    FirstStep(m, table, xs);
    var x, m1, rest := xs[0], SweepOne(m, table, xs[0]), xs[1..];
    assert forall y :: y in xs <==> y == x || y in rest;
    forall i | 0 <= i < |bs|
      ensures Refilled(m1, rest, |bs|, bs1)[i] == Refilled(m, xs, |bs|, bs)[i]
    {
      RefilledAt(m, table, xs, |bs|, i);
      var here := Pushed(rest, InSlot(m, xs, |bs|, i));
      assert here + [x] + bs[i] == here + ([x] + bs[i]);
      assert here + [] + bs[i] == here + bs[i];
    }
  }

  lemma RefilledAt(m: Mem, table: nat, xs: seq<nat>, size: nat, i: nat)
    requires Ready(m, table, xs) && xs != [] && size > 0
    ensures var m1 := SweepOne(m, table, xs[0]);
            Ready(m1, table, xs[1..]) && Pushed(xs[1..], InSlot(m1, xs[1..], size, i)) ==
              Pushed(xs[1..], InSlot(m, xs, size, i))
  {
    FirstStep(m, table, xs);
    var m1, rest := SweepOne(m, table, xs[0]), xs[1..];
    forall y | y in rest
      ensures y in InSlot(m1, rest, size, i) <==> y in InSlot(m, xs, size, i)
    {
      assert y in xs;
    }
    PushedSame(rest, InSlot(m1, rest, size, i), InSlot(m, xs, size, i));
  }
}
