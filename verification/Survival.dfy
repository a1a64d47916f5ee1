// What a collection keeps, sends to be finalized and frees, by paths of
// pointers and object by object.
module Survival {
  import opened Graphs
  import opened Marking
  import opened Sweeping
  import opened Collecting
  import opened Sequences
  import Paths

  // A pointer that keeps what it points to: any but the one from a symbol to
  // the next in its bucket.
  ghost predicate Holds(x: Node, b: nat) {
    match x
    case Plain(_, _, fields) => Ptr(b) in fields
    case Raw(_) => false
    case Typed(kind, _, elems) => exists i :: 0 <= i < |elems| && elems[i] == Ptr(b) && !(kind == 5 && i == 1)
    case Elems(elems) => Ptr(b) in elems
  }

  // The symbol table holds its buckets only if something else holds it.
  ghost function Edge(h: Graph, table: nat, held: bool): (nat, nat) -> bool {
    (a: nat, b: nat) => a in h && Holds(h[a], b) && (a != table || held)
  }

  lemma HoldsFollowed(x: Node, b: nat)
    ensures Holds(x, b) <==> Ptr(b) in Followed(x)
  {
    if x.Typed? && x.kind == T_SYMBOL && |x.elems| > SY_NEXT {
      var fs := Followed(x);
      if Ptr(b) in fs {
        var j :| 0 <= j < |fs| && fs[j] == Ptr(b);
        assert x.elems[if j < SY_NEXT then j else j + 1] == Ptr(b);
      }
      if i :| 0 <= i < |x.elems| && x.elems[i] == Ptr(b) && i != 1 {
        assert fs[if i < SY_NEXT then i else i - 1] == Ptr(b);
      }
    }
  }

  lemma HoldsWithin(x: Node, c: set<nat>)
    ensures Within(Followed(x), c) <==> forall b | Holds(x, b) :: b in c
  {
    var fs := Followed(x);
    forall b
      ensures Holds(x, b) <==> Ptr(b) in fs
    {
      HoldsFollowed(x, b);
    }
    if forall b | Holds(x, b) :: b in c {
      forall i | 0 <= i < |fs| && fs[i].Ptr?
        ensures fs[i].a in c
      {
        assert Ptr(fs[i].a) in fs;
      }
    }
  }

  lemma ClosedByEdges(h: Graph, c: set<nat>, table: nat, held: bool)
    requires c <= h.Keys
    ensures (forall a | a in c && (a != table || held) :: Within(Followed(h[a]), c)) <==>
            Paths.ClosedUnder(Edge(h, table, held), c)
  {
    forall a | a in c
      ensures Within(Followed(h[a]), c) <==> forall b | Holds(h[a], b) :: b in c
    {
      HoldsWithin(h[a], c);
    }
    if Paths.ClosedUnder(Edge(h, table, held), c) {
      forall a | a in c && (a != table || held)
        ensures Within(Followed(h[a]), c)
      {
        forall b | Holds(h[a], b)
          ensures b in c
        {
          assert Edge(h, table, held)(a, b);
        }
      }
    }
  }

  lemma LeastOverRoots(h: Graph, roots: seq<Val>, a: nat)
    requires Intact(h) && Within(roots, h.Keys)
    ensures FromRoots(h, roots, a) <==> a in MarkAll(h, roots, {})
  {
    MarkAllCloses(h, roots, {});
    forall c: set<nat> | ClosedBeyond(h, {}, c) && Within(roots, c)
      ensures MarkAll(h, roots, {}) <= c
    {
      MarkAllLeast(h, roots, {}, c);
    }
  }

  // Whether a root leads there.
  lemma HeldByPath(h: Graph, roots: seq<Val>, a: nat)
    requires Intact(h) && Within(roots, h.Keys)
    ensures FromRoots(h, roots, a) <==> Paths.Reachable(Edge(h, a, true), Paths.Targets(roots), a)
  {
    var c, e, t := MarkAll(h, roots, {}), Edge(h, a, true), Paths.Targets(roots);
    LeastOverRoots(h, roots, a);
    MarkAllCloses(h, roots, {});
    Paths.TargetsWithin(roots, c);
    ClosedByEdges(h, c, a, true);
    forall d: set<nat> | t <= d <= c && Paths.ClosedUnder(e, d)
      ensures c <= d
    {
      Paths.TargetsWithin(roots, d);
      ClosedByEdges(h, d, a, true);
      MarkAllLeast(h, roots, {}, d);
    }
    Paths.LeastIsReachable(e, t, c);
  }

  // Symbols with a value.
  function Valued(h: Graph, syms: seq<nat>): set<nat>
    requires AreSymbols(h, syms)
  {
    set i | 0 <= i < |syms| && h[syms[i]].elems[2] != Singleton(2) :: syms[i]
  }

  // Where marking starts: the roots, the symbol table, symbols with a value,
  // and what is marked from the outset.
  function Starts(h: Graph, roots: seq<Val>, table: nat, syms: seq<nat>, m: set<nat>): set<nat>
    requires AreSymbols(h, syms)
  {
    Paths.Targets(roots) + {table} + Valued(h, syms) + m
  }

  lemma StartsWithin(h: Graph, roots: seq<Val>, table: nat, syms: seq<nat>, m: set<nat>, d: set<nat>)
    requires AreSymbols(h, syms) && table in h && d <= h.Keys
    ensures Starts(h, roots, table, syms, m) <= d <==>
            && m <= d && Within(roots, d) && table in d
            && forall i | 0 <= i < |syms| :: LiveSymbol(h, syms[i]) ==> syms[i] in d
  {
    Paths.TargetsWithin(roots, d);
    if Starts(h, roots, table, syms, m) <= d {
      forall i | 0 <= i < |syms| && LiveSymbol(h, syms[i])
        ensures syms[i] in d
      {
        assert syms[i] in Valued(h, syms);
      }
    }
  }

  // Survivors are what paths of holding pointers lead to.
  lemma KeptByPath(h: Graph, roots: seq<Val>, table: nat, syms: seq<nat>, m: set<nat>, x: nat)
    requires Intact(h) && table in h && Within(roots, h.Keys) && AreSymbols(h, syms) && Static(h, table, m)
    ensures var held := Paths.Reachable(Edge(h, table, true), Paths.Targets(roots), table);
            x in Survivors(h, roots, table, syms, m) <==>
            Paths.Reachable(Edge(h, table, held), Starts(h, roots, table, syms, m), x)
  {
    var held := Paths.Reachable(Edge(h, table, true), Paths.Targets(roots), table);
    var s, e, t := Survivors(h, roots, table, syms, m), Edge(h, table, held), Starts(h, roots, table, syms, m);
    HeldByPath(h, roots, table);
    CollectorExact(h, roots, table, syms, m);
    StartsWithin(h, roots, table, syms, m, s);
    ClosedByEdges(h, s, table, held);
    forall d: set<nat> | t <= d <= s && Paths.ClosedUnder(e, d)
      ensures s <= d
    {
      StartsWithin(h, roots, table, syms, m, d);
      ClosedByEdges(h, d, table, held);
      assert Closure(h, roots, table, syms, d);
    }
    Paths.LeastIsReachable(e, t, s);
  }

  // For a whole collection.
  lemma KeptExactly(m: Mem, table: nat, roots: seq<Val>, bs: seq<seq<nat>>, x: nat)
    requires ValidMem(m, table, bs) && Intact(Live(m)) && Within(roots, Live(m).Keys) && m.marked <= {ZERO}
    ensures AreSymbols(Live(m), Joined(bs))
    ensures var held := Paths.Reachable(Edge(Live(m), table, true), Paths.Targets(roots), table);
            x in Kept(m, table, roots, bs) <==>
            Paths.Reachable(Edge(Live(m), table, held), Starts(Live(m), roots, table, Joined(bs), m.marked), x)
  {
    LiveTable(m, table, bs);
    KeptByPath(Live(m), roots, table, Joined(bs), m.marked, x);
  }

  // What becomes of an object: kept with its contents, though a symbol's link
  // may change; on the list of those to be finalized, once and without its
  // flag; or gone.
  lemma FateOf(m: Mem, table: nat, bs: seq<seq<nat>>, s: set<nat>, r: Mem, bs2: seq<seq<nat>>, x: nat)
    requires ValidMem(m, table, bs) && ValidMem(r, table, bs2) && Collected(m, table, s, r, bs2)
    requires x in m.listed && x != table
    ensures x in s ==> x in r.listed && x in r.nodes &&
                       match m.nodes[x]
                       case Typed(kind, fin, elems) =>
                         r.nodes[x].Typed? && r.nodes[x].kind == kind && r.nodes[x].finalize == fin
                         && |r.nodes[x].elems| == |elems|
                         && forall i | 0 <= i < |elems| && !(kind == 5 && i == 1) :: r.nodes[x].elems[i] == elems[i]
                       case y => r.nodes[x] == y
    ensures x !in s ==> match m.nodes[x]
                        case Plain(flags, true, fields) => x in r.chain && x in r.nodes
                                                           && r.nodes[x] == Plain(flags, false, fields)
                        case Typed(kind, true, elems) => x in r.chain && x in r.nodes
                                                         && r.nodes[x] == Typed(kind, false, elems)
                        case _ => x !in r.nodes && x !in r.chain && x !in r.listed
  {
    Conserved(m, table, bs, s, r, bs2, x);
  }

  // A kept symbol with hash `n` is found in the bucket of that number.
  lemma SymbolFound(m: Mem, table: nat, s: set<nat>, r: Mem, bs: seq<seq<nat>>, x: nat, fin: bool, name: Val, next: Val,
                    value: Val, n: int)
    requires Listed(m, table) && Distinct(m.listed) && Collected(m, table, s, r, bs) && x in m.listed && x in s
    requires m.nodes[x] == Typed(5, fin, [name, next, value, Int(n)]) && bs != []
    ensures var i := (n % 0x4000_0000_0000_0000) % |bs|;
            0 <= i < |bs| && x in bs[i] && forall j | 0 <= j < |bs| && j != i :: x !in bs[j]
  {
    forall j | 0 <= j < |bs|
      ensures x in bs[j] <==> Slot(m.nodes[x], |bs|) == j
    {
      SymbolsRehashed(m, table, s, r, bs, j, x);
    }
  }
}
