// What the collector's recursive marking reaches.
module Marking {
  import opened Graphs

  const T_SYMBOL: nat := 5
  const SY_NAME: nat := 0
  const SY_NEXT: nat := 1
  const SY_VALUE: nat := 2
  const SY_HASH: nat := 3
  const SYMBOL_SLOTS: nat := 4

  predicate IsSymbol(x: Node) {
    x.Typed? && x.kind == T_SYMBOL && |x.elems| == SYMBOL_SLOTS
  }

  // The fields marking follows: all but a symbol's link in its bucket.
  function Followed(x: Node): seq<Val> {
    match x
    case Plain(_, _, fields) => fields
    case Raw(_) => []
    case Typed(_, _, elems) =>
      if x.kind == T_SYMBOL && |elems| > SY_NEXT then elems[..SY_NEXT] + elems[SY_NEXT + 1..] else elems
    case Elems(elems) => elems
  }

  // No followed pointer dangles.
  predicate Intact(h: Graph) {
    forall a | a in h :: Within(Followed(h[a]), h.Keys)
  }

  // `m` are the objects already marked: they are not entered again.  The
  // recursion stands behind two more layers, so that proofs that only pass
  // results on do not unfold it; MarkDef and MarkAllDef open it.
  function Mark(h: Graph, v: Val, m: set<nat>): (r: set<nat>)
    requires Intact(h) && m <= h.Keys && Within([v], h.Keys)
    ensures m <= r <= h.Keys
    decreases h.Keys - m, 1, 2
  {
    MarkOne(h, v, m)
  }

  function MarkOne(h: Graph, v: Val, m: set<nat>): (r: set<nat>)
    requires Intact(h) && m <= h.Keys && Within([v], h.Keys)
    ensures m <= r <= h.Keys
    decreases h.Keys - m, 1, 1
  {
    MarkValue(h, v, m)
  }

  function MarkValue(h: Graph, v: Val, m: set<nat>): (r: set<nat>)
    requires Intact(h) && m <= h.Keys && Within([v], h.Keys)
    ensures m <= r <= h.Keys
    decreases h.Keys - m, 1, 0
  {
    assert v == [v][0];
    if !v.Ptr? || v.a in m then m
    else
      assert v.a in h.Keys - m && v.a !in h.Keys - (m + {v.a});
      MarkAll(h, Followed(h[v.a]), m + {v.a})
  }

  function MarkAll(h: Graph, vs: seq<Val>, m: set<nat>): (r: set<nat>)
    requires Intact(h) && m <= h.Keys && Within(vs, h.Keys)
    ensures m <= r <= h.Keys
    decreases h.Keys - m, 2, |vs|, 2
  {
    MarkEach(h, vs, m)
  }

  function MarkEach(h: Graph, vs: seq<Val>, m: set<nat>): (r: set<nat>)
    requires Intact(h) && m <= h.Keys && Within(vs, h.Keys)
    ensures m <= r <= h.Keys
    decreases h.Keys - m, 2, |vs|, 1
  {
    MarkList(h, vs, m)
  }

  function MarkList(h: Graph, vs: seq<Val>, m: set<nat>): (r: set<nat>)
    requires Intact(h) && m <= h.Keys && Within(vs, h.Keys)
    ensures m <= r <= h.Keys
    decreases h.Keys - m, 2, |vs|, 0
  {
    if vs == [] then m else MarkAll(h, vs[1..], Mark(h, vs[0], m))
  }

  lemma MarkDef(h: Graph, v: Val, m: set<nat>)
    requires Intact(h) && m <= h.Keys && Within([v], h.Keys)
    ensures Mark(h, v, m) == MarkValue(h, v, m)
  {
    assert MarkOne(h, v, m) == MarkValue(h, v, m);
  }

  lemma MarkAllDef(h: Graph, vs: seq<Val>, m: set<nat>)
    requires Intact(h) && m <= h.Keys && Within(vs, h.Keys)
    ensures MarkAll(h, vs, m) == MarkList(h, vs, m)
  {
    assert MarkEach(h, vs, m) == MarkList(h, vs, m);
  }

  // ---- Marking is exact ----

  // Everything in `r` beyond `m` has what it points to in `r`.
  predicate ClosedBeyond(h: Graph, m: set<nat>, r: set<nat>) {
    r <= h.Keys && forall a | a in r && a !in m :: Within(Followed(h[a]), r)
  }

  lemma {:induction false} MarkCloses(h: Graph, v: Val, m: set<nat>)
    requires Intact(h) && m <= h.Keys && Within([v], h.Keys)
    ensures ClosedBeyond(h, m, Mark(h, v, m)) && Within([v], Mark(h, v, m))
    decreases h.Keys - m, 1, 0
  {
    MarkDef(h, v, m);
    assert v == [v][0];
    if v.Ptr? && v.a !in m {
      assert v.a in h.Keys - m && v.a !in h.Keys - (m + {v.a});
      MarkAllCloses(h, Followed(h[v.a]), m + {v.a});
    }
  }

  lemma {:induction false} MarkAllCloses(h: Graph, vs: seq<Val>, m: set<nat>)
    requires Intact(h) && m <= h.Keys && Within(vs, h.Keys)
    ensures ClosedBeyond(h, m, MarkAll(h, vs, m)) && Within(vs, MarkAll(h, vs, m))
    decreases h.Keys - m, 2, |vs|
  {
    MarkAllDef(h, vs, m);
    if vs != [] {
      var m1 := Mark(h, vs[0], m);
      MarkCloses(h, vs[0], m);
      MarkAllCloses(h, vs[1..], m1);
      ClosedTwice(h, m, m1, MarkAll(h, vs[1..], m1));
      WithinBoth(vs, m1, MarkAll(h, vs[1..], m1));
    }
  }

  lemma ClosedTwice(h: Graph, m: set<nat>, m1: set<nat>, r: set<nat>)
    requires m <= m1 <= r && ClosedBeyond(h, m, m1) && ClosedBeyond(h, m1, r)
    ensures ClosedBeyond(h, m, r)
  {
    forall a | a in r && a !in m
      ensures Within(Followed(h[a]), r)
    {
      if a in m1 {
        assert Within(Followed(h[a]), m1);
      }
    }
  }

  lemma WithinBoth(vs: seq<Val>, c: set<nat>, d: set<nat>)
    requires vs != [] && c <= d && Within([vs[0]], c) && Within(vs[1..], d)
    ensures Within(vs, d)
  {
    forall i | 0 <= i < |vs| && vs[i].Ptr?
      ensures vs[i].a in d
    {
      assert if i == 0 then [vs[0]][0] == vs[i] else vs[1..][i - 1] == vs[i];
    }
  }

  // Nothing is marked that need not be.
  lemma {:induction false} MarkLeast(h: Graph, v: Val, m: set<nat>, d: set<nat>)
    requires Intact(h) && m <= h.Keys && Within([v], h.Keys)
    requires m <= d && Within([v], d) && ClosedBeyond(h, m, d)
    ensures Mark(h, v, m) <= d
    decreases h.Keys - m, 1, 0
  {
    MarkDef(h, v, m);
    assert v == [v][0];
    if v.Ptr? && v.a !in m {
      assert v.a in h.Keys - m && v.a !in h.Keys - (m + {v.a});
      MarkAllLeast(h, Followed(h[v.a]), m + {v.a}, d);
    }
  }

  lemma {:induction false} MarkAllLeast(h: Graph, vs: seq<Val>, m: set<nat>, d: set<nat>)
    requires Intact(h) && m <= h.Keys && Within(vs, h.Keys)
    requires m <= d && Within(vs, d) && ClosedBeyond(h, m, d)
    ensures MarkAll(h, vs, m) <= d
    decreases h.Keys - m, 2, |vs|
  {
    MarkAllDef(h, vs, m);
    if vs != [] {
      MarkLeast(h, vs[0], m, d);
      MarkAllLeast(h, vs[1..], Mark(h, vs[0], m), d);
    }
  }

  // The contents of marked objects do not matter.
  lemma {:induction false} MarkIgnores(h: Graph, k: Graph, v: Val, m: set<nat>)
    requires Intact(h) && Intact(k) && k.Keys == h.Keys && m <= h.Keys && Within([v], h.Keys)
    requires forall a | a in h && a !in m :: k[a] == h[a]
    ensures Mark(k, v, m) == Mark(h, v, m)
    decreases h.Keys - m, 1, 0
  {
    MarkDef(h, v, m);
    MarkDef(k, v, m);
    assert v == [v][0];
    if v.Ptr? && v.a !in m {
      assert v.a in h.Keys - m && v.a !in h.Keys - (m + {v.a});
      MarkAllIgnores(h, k, Followed(h[v.a]), m + {v.a});
    }
  }

  lemma {:induction false} MarkAllIgnores(h: Graph, k: Graph, vs: seq<Val>, m: set<nat>)
    requires Intact(h) && Intact(k) && k.Keys == h.Keys && m <= h.Keys && Within(vs, h.Keys)
    requires forall a | a in h && a !in m :: k[a] == h[a]
    ensures MarkAll(k, vs, m) == MarkAll(h, vs, m)
    decreases h.Keys - m, 2, |vs|
  {
    MarkAllDef(h, vs, m);
    MarkAllDef(k, vs, m);
    if vs != [] {
      MarkIgnores(h, k, vs[0], m);
      MarkAllIgnores(h, k, vs[1..], Mark(h, vs[0], m));
    }
  }

  // ---- The symbol table ----

  predicate LiveSymbol(h: Graph, s: nat)
    requires s in h && IsSymbol(h[s])
  {
    h[s].elems[SY_VALUE] != UNDEFINED_VAL
  }

  // Symbols with a value are marked, in the order of the buckets.
  function MarkSymbols(h: Graph, syms: seq<nat>, m: set<nat>): (r: set<nat>)
    requires Intact(h) && m <= h.Keys && forall i | 0 <= i < |syms| :: syms[i] in h && IsSymbol(h[syms[i]])
    ensures m <= r <= h.Keys
    decreases |syms|
  {
    if syms == [] then m
    else
      var s := syms[0];
      MarkSymbols(h, syms[1..], if s !in m && LiveSymbol(h, s) then Mark(h, Ptr(s), m) else m)
  }

  lemma {:induction false} SymbolsClose(h: Graph, syms: seq<nat>, m: set<nat>)
    requires Intact(h) && m <= h.Keys && forall i | 0 <= i < |syms| :: syms[i] in h && IsSymbol(h[syms[i]])
    ensures var r := MarkSymbols(h, syms, m);
            ClosedBeyond(h, m, r) && forall i | 0 <= i < |syms| :: LiveSymbol(h, syms[i]) ==> syms[i] in r
    decreases |syms|
  {
    if syms != [] {
      var s := syms[0];
      var m1 := if s !in m && LiveSymbol(h, s) then Mark(h, Ptr(s), m) else m;
      MarkCloses(h, Ptr(s), m);
      assert Within([Ptr(s)], Mark(h, Ptr(s), m)) && [Ptr(s)][0].a == s;
      SymbolsClose(h, syms[1..], m1);
      var r := MarkSymbols(h, syms, m);
      assert forall i | 0 < i < |syms| :: syms[i] == syms[1..][i - 1];
    }
  }

  lemma {:induction false} SymbolsLeast(h: Graph, syms: seq<nat>, m: set<nat>, d: set<nat>)
    requires Intact(h) && m <= h.Keys && forall i | 0 <= i < |syms| :: syms[i] in h && IsSymbol(h[syms[i]])
    requires m <= d && ClosedBeyond(h, m, d)
    requires forall i | 0 <= i < |syms| :: LiveSymbol(h, syms[i]) ==> syms[i] in d
    ensures MarkSymbols(h, syms, m) <= d
    decreases |syms|
  {
    if syms != [] {
      var s := syms[0];
      if s !in m && LiveSymbol(h, s) {
        MarkLeast(h, Ptr(s), m, d);
        SymbolsLeast(h, syms[1..], Mark(h, Ptr(s), m), d);
      } else {
        SymbolsLeast(h, syms[1..], m, d);
      }
    }
  }
}
