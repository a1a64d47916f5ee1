// The mark-sweep collector: object list, finalization chain, weak symbol
// table and heap size, changed in place.
module Collecting {
  import opened Bytes
  import opened Values
  import opened Graphs
  import opened Marking
  import opened Sequences
  import opened Sweeping

  // The part of memory a collection may touch.
  function Region(h: Graph, c: set<nat>): (r: Graph)
    requires c <= h.Keys
    ensures r.Keys == c
  {
    map a | a in c :: h[a]
  }

  function Joined(bs: seq<seq<nat>>): seq<nat> {
    if bs == [] then [] else bs[0] + Joined(bs[1..])
  }

  function ValuesOf(roots: seq<nat>, vars: map<nat, Val>): (r: seq<Val>)
    requires forall v | v in roots :: v in vars
    ensures |r| == |roots|
  {
    seq(|roots|, i requires 0 <= i < |roots| => vars[roots[i]])
  }

  // Lists, contents and sizes agree.
  predicate ValidMem(m: Mem, table: nat, buckets: seq<seq<nat>>) {
    && Sweepable(m, table) && table in m.listed && table != ZERO
    && Distinct(m.listed) && Distinct(m.chain) && Members(m.listed) !! Members(m.chain)
    && ZERO !in m.listed && ZERO !in m.chain
    && m.nodes.Keys == Members(m.listed) + Members(m.chain) + {ZERO} && m.nodes[ZERO] == Elems([])
    && Buckets(m.nodes, table, buckets)
    && (forall i, x | 0 <= i < |buckets| && x in buckets[i] :: x in m.listed)
    && m.size == TotalSize(m.nodes, m.listed)
  }

  // The listed objects and the static empty vector.
  function Live(m: Mem): (r: Graph)
    requires Members(m.listed) + {ZERO} <= m.nodes.Keys
    ensures r.Keys == Members(m.listed) + {ZERO}
  {
    Region(m.nodes, Members(m.listed) + {ZERO})
  }

  function Allocated(m: Mem, p: nat, x: Node): Mem {
    m.(nodes := m.nodes[p := x], listed := [p] + m.listed, size := m.size + SizeOf(x))
  }

  function Taken(m: Mem): Mem
    requires m.chain == [] || m.chain[0] in m.nodes
  {
    if m.chain == [] then m
    else m.(listed := [m.chain[0]] + m.listed, chain := m.chain[1..], size := m.size + SizeOf(m.nodes[m.chain[0]]))
  }

  // Both thresholds double when a collection leaves more than the second.
  function Thresholds(size: nat, max: nat, double: nat): (nat, nat) {
    if size > double then (2 * max, 2 * double) else (max, double)
  }

  // A symbol in no bucket.
  function Unlinked(name: Val, hash: int): Node {
    Typed(T_SYMBOL, false, [name, Nothing, UNDEFINED_VAL, Int(hash)])
  }

  // The buckets when symbol `p` has become the first of its own.
  function InFront(bs: seq<seq<nat>>, h: Graph, p: nat): seq<seq<nat>>
    requires bs != [] && p in h && IsSymbol(h[p]) && h[p].elems[SY_HASH].Int?
  {
    var i := Slot(h[p], |bs|);
    bs[i := [p] + bs[i]]
  }

  // Two new objects are listed and counted, and the symbol leads its bucket.
  predicate SymbolAdded(m: Mem, bs: seq<seq<nat>>, p: nat, y: Node, q: nat, r: Node, table: nat, m2: Mem,
                        bs2: seq<seq<nat>>)
    requires IsSymbol(y) && y.elems[SY_HASH].Int? && bs != [] && IsTable(m.nodes, table)
  {
    var h := m.nodes[p := y][q := r];
    && m2.listed == [q, p] + m.listed && m2.chain == m.chain && m2.marked == m.marked
    && m2.size == m.size + SizeOf(y) + SizeOf(r)
    && IsTable(h, table) && p in h && IsSymbol(h[p]) && h[p].elems[SY_HASH].Int?
    && m2.nodes == Linked(h, table, p) && bs2 == InFront(bs, h, p)
  }

  // The allocators never ask for the vector of length zero, which is static.
  predicate Allocatable(x: Node) {
    x != Elems([]) && SymbolShaped(x)
  }

  lemma UnlinkedFacts(hash: int, name: seq<byte>, q: nat)
    ensures var x, y := Unlinked(Nothing, hash), Unlinked(Ptr(q), hash);
            && Allocatable(x) && SymbolShaped(y) && Writable(x, SY_NAME) && y == Stored(x, SY_NAME, Ptr(q))
            && IsSymbol(y) && y.elems[SY_HASH].Int? && SizeOf(x) == SizeOf(y)
            && Within(Followed(x), {}) && Within(Followed(Raw(name)), {}) && Allocatable(Raw(name))
  {
  }

  // The fields a program may write: of a symbol, not its link and its hash.
  predicate Writable(x: Node, i: nat) {
    match x
    case Plain(_, _, fields) => i < |fields|
    case Raw(_) => false
    case Typed(kind, _, elems) => i < |elems| && (kind == T_SYMBOL ==> i == SY_NAME || i == SY_VALUE)
    case Elems(elems) => i < |elems|
  }

  function Stored(x: Node, i: nat, v: Val): Node
    requires Writable(x, i)
  {
    match x
    case Plain(_, _, fields) => x.(fields := fields[i := v])
    case Typed(_, _, elems) => x.(elems := elems[i := v])
    case Elems(elems) => Elems(elems[i := v])
  }

  function EmptyTable(n: nat): (r: seq<Val>)
    ensures |r| == n
  {
    seq(n, i => Nothing)
  }

  class Collector {
    const symtab: nat
    var nodes: Graph
    var marked: set<nat>          // objects whose mark bit is set
    var listed: seq<nat>          // all_objects
    var chain: seq<nat>           // finalizable_chain
    var size: nat                 // curr_heapsize
    var maxSize: nat
    var doubleAt: nat
    var vars: map<nat, Val>       // contents of the variables that may be protected
    var roots: seq<nat>           // the protected ones
    ghost var buckets: seq<seq<nat>>

    ghost predicate Valid()
      reads `nodes, `marked, `listed, `chain, `size, `vars, `roots, `buckets
    {
      ValidMem(State(), symtab, buckets) && marked <= {ZERO} && forall r | r in roots :: r in vars
    }

    // No listed object and no root points to freed memory or to an object
    // that waits to be finalized.
    ghost predicate Solid()
      requires Valid()
      reads `nodes, `marked, `listed, `chain, `size, `vars, `roots, `buckets
    {
      Intact(Live(State())) && Within(ValuesOf(roots, vars), Live(State()).Keys)
    }

    function State(): Mem
      reads `nodes, `marked, `listed, `chain, `size
    {
      Mem(nodes, marked, listed, chain, size)
    }

    // init_gc and init_object: the symbol table is the first object.
    constructor (table: nat, buckets: nat, max: nat, double: nat)
      requires table != ZERO && buckets > 0
      ensures Valid() && Solid() && symtab == table && listed == [table] && chain == [] && roots == []
    {
      symtab := table;
      nodes := map[ZERO := Elems([]), table := Elems(EmptyTable(buckets))];
      marked, listed, chain, roots, vars := {}, [table], [], [], map[];
      size, maxSize, doubleAt := SizeOf(Elems(EmptyTable(buckets))), max, double;
      this.buckets := seq(buckets, i => []);
      new;
      assert TotalSize(nodes, listed) == SizeOf(nodes[table]) + TotalSize(nodes, listed[1..]);
    }

    // ---- Roots ----

    method Protect(v: nat)
      requires Valid() && v in vars
      modifies `roots
      ensures Valid() && roots == [v] + old(roots)
    {
      roots := [v] + roots;
    }

    // The latest protection of the variable is undone, if there is one.
    method Unprotect(v: nat)
      requires Valid()
      modifies `roots
      ensures Valid() && roots == Dropped(old(roots), v)
    {
      var i := 0;
      while i < |roots|
        invariant i <= |roots| && roots == old(roots) && v !in roots[..i]
      {
        if roots[i] == v {
          DroppedAt(roots, v, i);
          roots := roots[..i] + roots[i + 1..];
          return;
        }
        i := i + 1;
      }
      NotDropped(roots, v);
    }

    // ---- Allocation and finalization ----

    // A new object at an address not in use.
    method GetMem(p: nat, x: Node)
      requires Valid() && p !in nodes && Allocatable(x)
      modifies `nodes, `listed, `size
      ensures Valid() && State() == Allocated(old(State()), p, x)
      ensures old(Solid()) && Within(Followed(x), Live(old(State())).Keys + {p}) ==> Solid()
    {
      AllocatedValid(State(), symtab, buckets, p, x);
      AllocatedSolid(State(), symtab, buckets, p, x);
      Allocate(p, x);
    }

    method Allocate(p: nat, x: Node)
      requires Allocatable(x)
      modifies `nodes, `listed, `size
      ensures State() == Allocated(old(State()), p, x)
    {
      nodes := nodes[p := x];
      listed := [p] + listed;
      size := size + SizeOf(x);
    }

    // A symbol that was not in the table: it is allocated, then its name, and
    // it becomes the first of the bucket its hash leads to.
    method NewSymbol(p: nat, q: nat, name: seq<byte>, hash: int)
      requires Valid() && p !in nodes && q !in nodes && p != q
      modifies `nodes, `listed, `size, `buckets
      ensures Valid() && (old(Solid()) ==> Solid())
      ensures SymbolAdded(old(State()), old(buckets), p, Unlinked(Ptr(q), hash), q, Raw(name), symtab, State(), buckets)
    {
      UnlinkedFacts(hash, name, q);
      UnusedApart(State(), symtab, buckets, p);
      AddSymbol(p, Unlinked(Nothing, hash), q, Raw(name), Unlinked(Ptr(q), hash));
    }

    method AddSymbol(p: nat, x: Node, q: nat, r: Node, ghost y: Node)
      requires Valid() && p !in nodes && q !in nodes && p != q && Allocatable(x) && Allocatable(r)
      requires Within(Followed(x), {}) && Within(Followed(r), {})
      requires Writable(x, SY_NAME) && y == Stored(x, SY_NAME, Ptr(q)) && IsSymbol(y) && y.elems[SY_HASH].Int?
      requires SizeOf(x) == SizeOf(y) && p != symtab && q != symtab && Apart([p], buckets)
      modifies `nodes, `listed, `size, `buckets
      ensures Valid() && (old(Solid()) ==> Solid())
      ensures SymbolAdded(old(State()), old(buckets), p, y, q, r, symtab, State(), buckets)
    {
      ghost var m, bs := State(), buckets;
      MakeNamed(p, x, q, r, y);
      ghost var m1 := State();
      Link(p);
      Added(m, bs, p, x, q, r, y, symtab, m1, State(), buckets);
    }

    // A new symbol and its name, as yet in no bucket.
    method MakeNamed(p: nat, x: Node, q: nat, r: Node, ghost y: Node)
      requires Valid() && p !in nodes && q !in nodes && p != q && p != symtab && Allocatable(x) && Allocatable(r)
      requires Within(Followed(x), {}) && Within(Followed(r), {})
      requires Writable(x, SY_NAME) && y == Stored(x, SY_NAME, Ptr(q))
      modifies `nodes, `listed, `size
      ensures Valid() && (old(Solid()) ==> Solid())
      ensures State() == Allocated(Allocated(old(State()), p, x), q, r).(nodes := old(nodes)[p := y][q := r])
      ensures p in listed && p in nodes && nodes[p] == y
    {
      GetBoth(p, x, q, r);
      WrittenFirst(old(nodes), p, q, x, r, y);
      Store(p, SY_NAME, Ptr(q));
    }

    // Two new objects that point nowhere.
    method GetBoth(p: nat, x: Node, q: nat, r: Node)
      requires Valid() && p !in nodes && q !in nodes && p != q && Allocatable(x) && Allocatable(r)
      requires Within(Followed(x), {}) && Within(Followed(r), {})
      modifies `nodes, `listed, `size
      ensures Valid() && State() == Allocated(Allocated(old(State()), p, x), q, r)
      ensures Within([Ptr(q)], Live(State()).Keys) && (old(Solid()) ==> Solid())
    {
      WithinMore(Followed(x), {}, Live(State()).Keys + {p});
      GetMem(p, x);
      WithinMore(Followed(r), {}, Live(State()).Keys + {q});
      GetMem(q, r);
      ListedFirst(listed, q);
    }

    method Link(p: nat)
      requires Valid() && p in listed && p != symtab && IsSymbol(nodes[p]) && Apart([p], buckets)
      modifies `nodes, `buckets
      ensures Valid() && (old(Solid()) ==> Solid())
      ensures State() == old(State()).(nodes := Linked(old(nodes), symtab, p))
      ensures buckets == InFront(old(buckets), old(nodes), p)
    {
      LinkedValid(State(), symtab, buckets, p);
      LinkedSolid(State(), symtab, buckets, p);
      buckets := InFront(buckets, nodes, p);
      var i := Slot(nodes[p], |nodes[symtab].elems|);
      nodes := nodes[p := nodes[p].(elems := nodes[p].elems[SY_NEXT := nodes[symtab].elems[i]])];
      nodes := nodes[symtab := Elems(nodes[symtab].elems[i := Ptr(p)])];
    }

    // ---- What the program does to memory ----

    // A field of a listed object is written.  Memory stays sound exactly if
    // the value does not point to what is freed or waiting.
    method Store(a: nat, i: nat, v: Val)
      requires Valid() && a in listed && a in nodes && a != symtab && Writable(nodes[a], i)
      modifies `nodes
      ensures Valid() && State() == old(State()).(nodes := old(nodes)[a := Stored(old(nodes)[a], i, v)])
      ensures old(Solid()) ==> (Solid() <==> Within([v], Live(State()).Keys))
    {
      StoredValid(State(), symtab, buckets, a, i, v);
      StoredSolid(State(), symtab, buckets, a, i, v);
      nodes := nodes[a := Stored(nodes[a], i, v)];
    }

    // A variable is written.
    method Assign(r: nat, v: Val)
      requires Valid()
      modifies `vars
      ensures Valid() && vars == old(vars)[r := v]
      ensures old(Solid()) ==> (Solid() <==> (r in roots ==> Within([v], Live(State()).Keys)))
    {
      AssignedWithin(roots, vars, r, v, Live(State()).Keys);
      vars := vars[r := v];
    }

    // The next dead object goes back to the object list.
    method NextToFinalize() returns (r: Option<nat>)
      requires Valid()
      modifies `listed, `chain, `size
      ensures Valid() && r.Some? == (old(chain) != []) && (r.Some? ==> r.value == old(chain)[0])
      ensures State() == Taken(old(State()))
      ensures r.Some? && old(Solid()) ==> (Solid() <==> Within(Followed(nodes[r.value]), Live(State()).Keys))
    {
      if chain == [] {
        return None;
      }
      TakenValid(State(), symtab, buckets);
      TakenSolid(State(), symtab, buckets);
      r := Some(chain[0]);
      TakeBack();
    }

    method TakeBack()
      requires chain != [] && chain[0] in nodes
      modifies `listed, `chain, `size
      ensures State() == Taken(old(State()))
    {
      listed := [chain[0]] + listed;
      size := size + SizeOf(nodes[chain[0]]);
      chain := chain[1..];
    }

    // ---- Marking ----

    // `h` is memory as the collection found it; only marked objects may have
    // changed since.
    method MarkObject(ghost h: Graph, v: Val)
      requires Intact(h) && marked <= h.Keys && Within([v], h.Keys)
      requires forall a | a in h && a !in marked :: a in nodes && nodes[a] == h[a]
      modifies `marked
      ensures marked == Mark(h, v, old(marked))
      decreases h.Keys - marked, 1, 0
    {
      MarkDef(h, v, marked);
      assert v == [v][0];
      if v.Ptr? && v.a !in marked {
        assert v.a in h.Keys - marked && v.a !in h.Keys - (marked + {v.a});
        marked := marked + {v.a};
        MarkFields(h, Followed(nodes[v.a]));
      }
    }

    method MarkFields(ghost h: Graph, vs: seq<Val>)
      requires Intact(h) && marked <= h.Keys && Within(vs, h.Keys)
      requires forall a | a in h && a !in marked :: a in nodes && nodes[a] == h[a]
      modifies `marked
      ensures marked == MarkAll(h, vs, old(marked))
      decreases h.Keys - marked, 2, 0
    {
      ghost var m := marked;
      for i := 0 to |vs|
        invariant m <= marked <= h.Keys
        invariant MarkAll(h, vs[i..], marked) == MarkAll(h, vs, m)
      {
        MarkAllDef(h, vs[i..], marked);
        assert vs[i..][1..] == vs[i + 1..];
        assert [vs[i]][0] == vs[i] && h.Keys - marked <= h.Keys - m;
        MarkObject(h, vs[i]);
      }
      MarkAllDef(h, [], marked);
      assert vs[|vs|..] == [];
    }

    method MarkRoots(ghost h: Graph)
      requires Intact(h) && marked <= h.Keys && (forall r | r in roots :: r in vars)
      requires Within(ValuesOf(roots, vars), h.Keys)
      requires forall a | a in h && a !in marked :: a in nodes && nodes[a] == h[a]
      modifies `marked
      ensures marked == MarkAll(h, ValuesOf(roots, vars), old(marked))
    {
      ghost var m, vs := marked, ValuesOf(roots, vars);
      for i := 0 to |roots|
        invariant m <= marked <= h.Keys
        invariant MarkAll(h, vs[i..], marked) == MarkAll(h, vs, m)
      {
        MarkAllDef(h, vs[i..], marked);
        assert vs[i..][1..] == vs[i + 1..];
        assert [vs[i]][0] == vs[i];
        MarkObject(h, vars[roots[i]]);
      }
      MarkAllDef(h, [], marked);
      assert vs[|vs|..] == [];
    }

    // ---- The symbol table ----

    // Symbols with a value are marked; the buckets are emptied.
    method MarkTable(ghost h: Graph)
      requires Intact(h) && marked <= h.Keys && symtab in marked && IsTable(h, symtab)
      requires forall a | a in h :: a in nodes && nodes[a] == h[a]
      requires Buckets(h, symtab, buckets) && forall i, x | 0 <= i < |buckets| && x in buckets[i] :: x in h
      modifies `marked, `nodes
      ensures AreSymbols(h, Joined(buckets)) && marked == MarkSymbols(h, Joined(buckets), old(marked))
      ensures nodes == old(nodes)[symtab := Elems(EmptyTable(|h[symtab].elems|))]
    {
      ghost var m, before, es := marked, nodes, h[symtab].elems;
      JoinedSymbols(h, es, buckets);
      HalfEmptyEnds(es);
      for i := 0 to |nodes[symtab].elems|
        invariant m <= marked <= h.Keys && symtab in marked
        invariant i <= |es| && nodes == before[symtab := Elems(HalfEmpty(es, i))]
        invariant AreSymbols(h, Joined(buckets[i..]))
        invariant MarkSymbols(h, Joined(buckets[i..]), marked) == MarkSymbols(h, Joined(buckets), m)
      {
        assert buckets[i..][0] == buckets[i] && buckets[i..][1..] == buckets[i + 1..];
        HalfEmptyNext(es, i);
        TakeBucket(h, i, buckets[i], Joined(buckets[i + 1..]));
      }
      assert buckets[|es|..] == [];
    }

    method TakeBucket(ghost h: Graph, i: nat, ghost xs: seq<nat>, ghost rest: seq<nat>)
      requires Intact(h) && marked <= h.Keys && AreSymbols(h, xs + rest) && symtab in marked && symtab !in xs
      requires IsTable(nodes, symtab) && i < |nodes[symtab].elems| && Follows(h, nodes[symtab].elems[i], xs)
      requires forall a | a in h && a != symtab :: a in nodes && nodes[a] == h[a]
      modifies `marked, `nodes
      ensures old(marked) <= marked <= h.Keys && AreSymbols(h, rest)
      ensures MarkSymbols(h, rest, marked) == MarkSymbols(h, xs + rest, old(marked))
      ensures nodes == old(nodes)[symtab := Elems(old(nodes)[symtab].elems[i := Nothing])]
    {
      MarkBucket(h, nodes[symtab].elems[i], xs, rest);
      EmptyBucket(i);
    }

    method EmptyBucket(i: nat)
      requires IsTable(nodes, symtab) && i < |nodes[symtab].elems|
      modifies `nodes
      ensures nodes == old(nodes)[symtab := Elems(old(nodes)[symtab].elems[i := Nothing])]
    {
      nodes := nodes[symtab := Elems(nodes[symtab].elems[i := Nothing])];
    }

    // One bucket, along the links.
    method MarkBucket(ghost h: Graph, head: Val, ghost xs: seq<nat>, ghost rest: seq<nat>)
      requires Intact(h) && marked <= h.Keys && AreSymbols(h, xs + rest) && Follows(h, head, xs)
      requires symtab in marked && symtab !in xs
      requires forall a | a in h && a != symtab :: a in nodes && nodes[a] == h[a]
      modifies `marked
      ensures old(marked) <= marked <= h.Keys && AreSymbols(h, rest)
      ensures MarkSymbols(h, rest, marked) == MarkSymbols(h, xs + rest, old(marked))
    {
      ghost var m, ys := marked, xs;
      var curr := head;
      assert forall i | 0 <= i < |rest| :: rest[i] == (xs + rest)[|xs| + i];
      while curr != Nothing
        invariant m <= marked <= h.Keys && Follows(h, curr, ys) && symtab !in ys
        invariant AreSymbols(h, ys + rest) && MarkSymbols(h, ys + rest, marked) == MarkSymbols(h, xs + rest, m)
        decreases |ys|
      {
        curr := MarkLink(h, curr, ys, rest);
        ys := ys[1..];
      }
      assert [] + rest == rest;
    }

    method MarkLink(ghost h: Graph, curr: Val, ghost ys: seq<nat>, ghost rest: seq<nat>) returns (next: Val)
      requires Intact(h) && marked <= h.Keys && curr != Nothing && Follows(h, curr, ys) && AreSymbols(h, ys + rest)
      requires symtab in marked && symtab !in ys
      requires forall a | a in h && a != symtab :: a in nodes && nodes[a] == h[a]
      modifies `marked
      ensures old(marked) <= marked <= h.Keys && Follows(h, next, ys[1..]) && AreSymbols(h, ys[1..] + rest)
      ensures MarkSymbols(h, ys[1..] + rest, marked) == MarkSymbols(h, ys + rest, old(marked))
    {
      assert ys[0] in ys;
      FirstMarked(h, ys, rest, marked);
      if curr.a !in marked && nodes[curr.a].elems[SY_VALUE] != UNDEFINED_VAL {
        MarkObject(h, curr);
      }
      next := nodes[curr.a].elems[SY_NEXT];
    }

    // ---- Sweeping ----

    method SweepObject(x: nat)
      requires Sweepable(State(), symtab) && x in nodes && (x == symtab ==> x in marked)
      modifies `nodes, `marked, `listed, `chain, `size
      ensures State() == SweepOne(old(State()), symtab, x)
    {
      var node := nodes[x];
      if x !in marked {
        if Finalizable(node) {
          nodes := nodes[x := Unflagged(node)];
          chain := [x] + chain;
        } else {
          nodes := nodes - {x};
        }
      } else {
        if node.Typed? && node.kind == T_SYMBOL {
          var slot := Slot(node, |nodes[symtab].elems|);
          nodes := nodes[x := node.(elems := node.elems[SY_NEXT := nodes[symtab].elems[slot]])];
          nodes := nodes[symtab := Elems(nodes[symtab].elems[slot := Ptr(x)])];
        }
        marked := marked - {x};
        listed := [x] + listed;
        size := size + SizeOf(node);
      }
    }

    method SweepAll(xs: seq<nat>)
      requires Ready(State(), symtab, xs)
      modifies `nodes, `marked, `listed, `chain, `size
      ensures State() == Sweep(old(State()), symtab, xs)
    {
      ghost var m := State();
      for i := 0 to |xs|
        invariant Ready(State(), symtab, xs[i..])
        invariant Sweep(State(), symtab, xs[i..]) == Sweep(m, symtab, xs)
      {
        assert xs[i..][0] == xs[i] && xs[i..][1..] == xs[i + 1..];
        FirstStep(State(), symtab, xs[i..]);
        SweepObject(xs[i]);
      }
      assert xs[|xs|..] == [];
    }


    // ---- A collection ----

    method Gc() returns (ghost kept: set<nat>)
      requires Valid() && Solid()
      modifies `nodes, `marked, `listed, `chain, `size, `maxSize, `doubleAt, `buckets
      ensures kept == Kept(old(State()), symtab, ValuesOf(roots, vars), old(buckets))
      ensures Collected(old(State()), symtab, kept, State(), buckets)
      ensures Valid() && Solid()
      ensures (maxSize, doubleAt) == Thresholds(size, old(maxSize), old(doubleAt))
    {
      ghost var m0 := State();
      kept := MarkPhase();
      ghost var bs := SweepPhase(m0, ValuesOf(roots, vars), buckets, kept);
      Refile(bs);
    }

    method AdjustThresholds()
      modifies `maxSize, `doubleAt
      ensures (maxSize, doubleAt) == Thresholds(size, old(maxSize), old(doubleAt))
    {
      if size > doubleAt {
        maxSize, doubleAt := 2 * maxSize, 2 * doubleAt;
      }
    }

    ghost method Refile(bs: seq<seq<nat>>)
      requires ValidMem(State(), symtab, bs) && marked <= {ZERO} && (forall r | r in roots :: r in vars)
      requires Intact(Live(State())) && Within(ValuesOf(roots, vars), Live(State()).Keys)
      modifies `buckets
      ensures buckets == bs && Valid() && Solid()
    {
      buckets := bs;
    }

    method SweepPhase(ghost m0: Mem, ghost values: seq<Val>, ghost bs: seq<seq<nat>>, ghost s: set<nat>)
      returns (ghost bs2: seq<seq<nat>>)
      requires ValidMem(m0, symtab, bs) && Intact(Live(m0)) && Within(values, Live(m0).Keys) && m0.marked <= {ZERO}
      requires s == Kept(m0, symtab, values, bs)
      requires marked == s && symtab in marked && listed == m0.listed && chain == m0.chain
      requires nodes == m0.nodes[symtab := Elems(EmptyTable(|m0.nodes[symtab].elems|))]
      modifies `nodes, `marked, `listed, `chain, `size, `maxSize, `doubleAt
      ensures Collected(m0, symtab, s, State(), bs2)
      ensures ValidMem(State(), symtab, bs2) && marked <= {ZERO}
      ensures Intact(Live(State())) && Within(values, Live(State()).Keys)
      ensures (maxSize, doubleAt) == Thresholds(size, old(maxSize), old(doubleAt))
    {
      var xs := listed;
      listed, size := [], 0;
      ghost var m1 := State();
      Emptied(m0, symtab, m1);
      SweepAll(xs);
      ghost var r := State();
      AdjustThresholds();
      assert State() == r;
      bs2 := NewBuckets(m0, symtab, m1);
      AfterSweep(m0, symtab, values, bs, m1, r);
    }

    method MarkPhase() returns (ghost kept: set<nat>)
      requires Valid() && Solid()
      modifies `marked, `nodes
      ensures kept == Kept(old(State()), symtab, ValuesOf(roots, vars), buckets)
      ensures marked == kept && symtab in marked
      ensures nodes == old(nodes)[symtab := Elems(EmptyTable(|old(nodes)[symtab].elems|))]
    {
      ghost var h := Live(State());
      LiveTable(State(), symtab, buckets);
      MarkRoots(h);
      marked := marked + {symtab};
      MarkTable(h);
      kept := marked;
    }
  }

  predicate AreSymbols(h: Graph, xs: seq<nat>) {
    forall i | 0 <= i < |xs| :: xs[i] in h && IsSymbol(h[xs[i]])
  }

  // The first `i` buckets have been emptied.
  function HalfEmpty(es: seq<Val>, i: nat): (r: seq<Val>)
    requires i <= |es|
    ensures |r| == |es|
  {
    EmptyTable(i) + es[i..]
  }

  lemma HalfEmptyEnds(es: seq<Val>)
    ensures HalfEmpty(es, 0) == es && HalfEmpty(es, |es|) == EmptyTable(|es|)
  {
  }

  lemma HalfEmptyNext(es: seq<Val>, i: nat)
    requires i < |es|
    ensures HalfEmpty(es, i)[i] == es[i] && HalfEmpty(es, i)[i := Nothing] == HalfEmpty(es, i + 1)
  {
  }

  lemma FirstMarked(h: Graph, ys: seq<nat>, rest: seq<nat>, m: set<nat>)
    requires Intact(h) && m <= h.Keys && ys != [] && AreSymbols(h, ys + rest)
    ensures AreSymbols(h, ys[1..] + rest) && ys[0] in h && IsSymbol(h[ys[0]]) && Within([Ptr(ys[0])], h.Keys)
    ensures MarkSymbols(h, ys + rest, m) ==
            MarkSymbols(h, ys[1..] + rest, if ys[0] !in m && LiveSymbol(h, ys[0]) then Mark(h, Ptr(ys[0]), m) else m)
  {
    assert (ys + rest)[1..] == ys[1..] + rest && (ys + rest)[0] == ys[0];
  }

  lemma {:induction false} JoinedSymbols(h: Graph, heads: seq<Val>, bs: seq<seq<nat>>)
    requires |heads| == |bs| && forall i | 0 <= i < |bs| :: Follows(h, heads[i], bs[i])
    ensures AreSymbols(h, Joined(bs))
  {
    if bs != [] {
      forall i | 0 <= i < |bs[0]|
        ensures bs[0][i] in h && IsSymbol(h[bs[0][i]])
      {
        FollowedIn(h, heads[0], bs[0], bs[0][i]);
      }
      JoinedSymbols(h, heads[1..], bs[1..]);
    }
  }

  // ---- What a collection keeps ----

  // Marking from the roots, then the table itself, then the symbols that have
  // a value; `m` are bits set before (the static vector's, if any).
  function Survivors(h: Graph, roots: seq<Val>, table: nat, syms: seq<nat>, m: set<nat>): (r: set<nat>)
    requires Intact(h) && m <= h.Keys && table in h && Within(roots, h.Keys) && AreSymbols(h, syms)
    ensures r <= h.Keys
  {
    MarkSymbols(h, syms, MarkAll(h, roots, m) + {table})
  }

  // A set that holds the roots, the live symbols and the table, and what its
  // members point to; what the table points to only if the table is reached
  // from the roots.
  predicate Closure(h: Graph, roots: seq<Val>, table: nat, syms: seq<nat>, d: set<nat>)
    requires AreSymbols(h, syms) && table in h
  {
    && Within(roots, d) && table in d && d <= h.Keys
    && (forall i | 0 <= i < |syms| :: LiveSymbol(h, syms[i]) ==> syms[i] in d)
    && (forall a | a in d && a != table :: Within(Followed(h[a]), d))
  }

  ghost predicate FromRoots(h: Graph, roots: seq<Val>, a: nat) {
    forall c: set<nat> | ClosedBeyond(h, {}, c) && Within(roots, c) :: a in c
  }

  // The static vector, whose bit may be set already, points to nothing.
  predicate Static(h: Graph, table: nat, m: set<nat>) {
    m <= {ZERO} && ZERO in h && h[ZERO] == Elems([]) && table != ZERO
  }

  // The survivors are exactly what is reachable: the least such set.
  lemma CollectorExact(h: Graph, roots: seq<Val>, table: nat, syms: seq<nat>, m: set<nat>)
    requires Intact(h) && table in h && Within(roots, h.Keys) && AreSymbols(h, syms) && Static(h, table, m)
    ensures var s := Survivors(h, roots, table, syms, m);
            && m <= s && Closure(h, roots, table, syms, s)
            && (FromRoots(h, roots, table) ==> Within(Followed(h[table]), s))
            && forall d | m <= d && Closure(h, roots, table, syms, d) &&
                          (FromRoots(h, roots, table) ==> Within(Followed(h[table]), d)) :: s <= d
  {
    var m1 := MarkAll(h, roots, m);
    var s := Survivors(h, roots, table, syms, m);
    MarkAllCloses(h, roots, m);
    SymbolsClose(h, syms, m1 + {table});
    RootedIsMarked(h, roots, table, m);
    forall a | a in s && a != table
      ensures Within(Followed(h[a]), s)
    {
      if a in m1 && a !in m {
        assert Within(Followed(h[a]), m1);
      }
    }
    forall d | m <= d && Closure(h, roots, table, syms, d)
      && (FromRoots(h, roots, table) ==> Within(Followed(h[table]), d))
      ensures s <= d
    {
      RootsWithin(h, roots, table, d, m);
      SymbolsLeast(h, syms, m1 + {table}, d);
    }
  }

  lemma RootedIsMarked(h: Graph, roots: seq<Val>, a: nat, m: set<nat>)
    requires Intact(h) && Within(roots, h.Keys) && Static(h, a, m)
    ensures FromRoots(h, roots, a) <==> a in MarkAll(h, roots, m)
  {
    var m1 := MarkAll(h, roots, m);
    MarkAllCloses(h, roots, m);
    assert ClosedBeyond(h, {}, m1);
    forall c: set<nat> | ClosedBeyond(h, {}, c) && Within(roots, c)
      ensures m1 <= c + m
    {
      MarkAllLeast(h, roots, m, c + m);
    }
  }

  // The first phase stays inside any such set.
  lemma RootsWithin(h: Graph, roots: seq<Val>, table: nat, d: set<nat>, m: set<nat>)
    requires Intact(h) && table in h && Within(roots, h.Keys) && m <= d <= h.Keys && table in d && Static(h, table, m)
    requires Within(roots, d) && (forall a | a in d && a != table :: Within(Followed(h[a]), d))
    requires FromRoots(h, roots, table) ==> Within(Followed(h[table]), d)
    ensures MarkAll(h, roots, m) <= d
  {
    var m1 := MarkAll(h, roots, m);
    MarkAllCloses(h, roots, m);
    RootedIsMarked(h, roots, table, m);
    var c := m1 * d;
    forall a | a in c && a !in m
      ensures Within(Followed(h[a]), c)
    {
      assert Within(Followed(h[a]), m1) && Within(Followed(h[a]), d);
    }
    MarkAllLeast(h, roots, m, c);
  }

  // ---- A collection, from one valid memory to the next ----

  // The objects a collection keeps.
  function Kept(m: Mem, table: nat, roots: seq<Val>, bs: seq<seq<nat>>): set<nat>
    requires ValidMem(m, table, bs) && Intact(Live(m)) && Within(roots, Live(m).Keys) && m.marked <= {ZERO}
  {
    LiveTable(m, table, bs);
    Survivors(Live(m), roots, table, Joined(bs), m.marked)
  }

  // Dead objects to be finalized, dead objects freed, and the kept symbols
  // that hash to one of `size` buckets.
  function Sent(m: Mem, s: set<nat>): set<nat>
    requires forall x | x in m.listed :: x in m.nodes
  {
    set x | x in m.listed && x !in s && Finalizable(m.nodes[x])
  }

  function Freed(m: Mem, s: set<nat>): set<nat>
    requires forall x | x in m.listed :: x in m.nodes
  {
    set x | x in m.listed && x !in s && !Finalizable(m.nodes[x])
  }

  function Hashed(m: Mem, s: set<nat>, size: nat, i: nat): set<nat>
    requires size > 0 && SymbolsShaped(m.nodes) && forall x | x in m.listed :: x in m.nodes
  {
    set x | x in m.listed && x in s && IsSymbol(m.nodes[x]) && Slot(m.nodes[x], size) == i
  }

  predicate Listed(m: Mem, table: nat) {
    Sweepable(m, table) && forall x | x in m.listed :: x in m.nodes
  }

  // Every object of the old list is in exactly one place: kept, sent to be
  // finalized with its flag cleared, or freed; kept contents are unchanged but
  // for the links of symbols, of which every bucket holds those that hash to
  // it.
  predicate Collected(m: Mem, table: nat, s: set<nat>, r: Mem, bs: seq<seq<nat>>)
    requires Listed(m, table)
  {
    && r.listed == Pushed(m.listed, s) && r.chain == Pushed(m.listed, Sent(m, s)) + m.chain
    && r.nodes.Keys == m.nodes.Keys - Freed(m, s)
    && (forall a | a in m.listed && a in s && a != table :: a in r.nodes && Relinked(m.nodes[a], r.nodes[a]))
    && (forall a | a in Sent(m, s) :: a in r.nodes && r.nodes[a] == Unflagged(m.nodes[a]))
    && (forall a | a in m.chain :: a in r.nodes && a in m.nodes && r.nodes[a] == m.nodes[a])
    && |m.nodes[table].elems| == |bs| && Buckets(r.nodes, table, bs)
    && forall i | 0 <= i < |bs| :: bs[i] == Pushed(m.listed, Hashed(m, s, |bs|, i))
  }

  lemma LiveTable(m: Mem, table: nat, bs: seq<seq<nat>>)
    requires ValidMem(m, table, bs)
    ensures var h := Live(m);
            && IsTable(h, table) && h[table] == m.nodes[table] && Buckets(h, table, bs)
            && AreSymbols(h, Joined(bs)) && (forall i, x | 0 <= i < |bs| && x in bs[i] :: x in h)
  {
    var h := Live(m);
    assert table in Members(m.listed);
    forall i | 0 <= i < |bs|
      ensures Follows(h, h[table].elems[i], bs[i])
    {
      assert forall x | x in bs[i] :: x in m.listed && x in Members(m.listed);
      FollowsSame(m.nodes, h, m.nodes[table].elems[i], bs[i]);
    }
    JoinedSymbols(h, h[table].elems, bs);
  }

  // Memory when the sweep starts: marks set, buckets and list emptied.
  predicate SweepStart(m0: Mem, table: nat, m1: Mem)
    requires IsTable(m0.nodes, table)
  {
    && m1.nodes == m0.nodes[table := Elems(EmptyTable(|m0.nodes[table].elems|))]
    && m1.listed == [] && m1.chain == m0.chain && m1.size == 0 && table in m1.marked
  }

  lemma Emptied(m0: Mem, table: nat, m1: Mem)
    requires IsTable(m0.nodes, table) && Sweepable(m0, table) && SweepStart(m0, table, m1)
    requires Distinct(m0.listed) && forall x | x in m0.listed :: x in m0.nodes
    ensures Ready(m1, table, m0.listed)
    ensures Buckets(m1.nodes, table, seq(|m0.nodes[table].elems|, i => []))
  {
  }

  // The state in which the sweep is finished.
  predicate Swept(m0: Mem, table: nat, s: set<nat>, m1: Mem, r: Mem) {
    && Sweepable(m0, table) && SweepStart(m0, table, m1) && m1.marked == s
    && Ready(m1, table, m0.listed) && r == Sweep(m1, table, m0.listed)
    && forall x | x in m0.listed :: x in m0.nodes
  }

  function NewBuckets(m0: Mem, table: nat, m1: Mem): seq<seq<nat>>
    requires IsTable(m0.nodes, table) && SymbolsShaped(m1.nodes) && forall x | x in m0.listed :: x in m1.nodes
  {
    var n := |m0.nodes[table].elems|;
    Refilled(m1, m0.listed, n, seq(n, i => []))
  }

  lemma SweptCollected(m0: Mem, table: nat, s: set<nat>, m1: Mem, r: Mem)
    requires Swept(m0, table, s, m1, r) && table !in m0.chain && Members(m0.listed) !! Members(m0.chain)
    requires forall a | a in m0.chain :: a in m0.nodes
    ensures Collected(m0, table, s, r, NewBuckets(m0, table, m1))
  {
    var xs := m0.listed;
    Emptied(m0, table, m1);
    SweepLists(m1, table, xs);
    SweepContents(m1, table, xs);
    SweepBuckets(m1, table, xs, seq(|m0.nodes[table].elems|, i => []));
    SameChoices(m0, table, s, m1);
    assert Pushed(xs, Keeps(m1, xs)) + [] == Pushed(xs, Keeps(m1, xs));
    PushedSame(xs, Keeps(m1, xs), s);
    var bs := NewBuckets(m0, table, m1);
    forall i | 0 <= i < |bs|
      ensures bs[i] == Pushed(xs, Hashed(m0, s, |bs|, i))
    {
      SlotChoices(m0, table, s, m1, |bs|, i);
      assert Pushed(xs, InSlot(m1, xs, |bs|, i)) + [] == Pushed(xs, InSlot(m1, xs, |bs|, i));
    }
    ChainUntouched(m0, table, s, m1, r);
  }

  lemma ChainUntouched(m0: Mem, table: nat, s: set<nat>, m1: Mem, r: Mem)
    requires Swept(m0, table, s, m1, r) && table !in m0.chain && Members(m0.listed) !! Members(m0.chain)
    requires forall a | a in m0.chain :: a in m0.nodes
    ensures forall a | a in m0.chain :: a in r.nodes && r.nodes[a] == m0.nodes[a]
  {
    SweepLists(m1, table, m0.listed);
    SweepContents(m1, table, m0.listed);
    forall a | a in m0.chain
      ensures a in r.nodes && r.nodes[a] == m0.nodes[a]
    {
      assert a in Members(m0.chain) && a !in Members(m0.listed);
    }
  }

  // Emptying the buckets changes no choice of the sweep.
  lemma SameChoices(m0: Mem, table: nat, s: set<nat>, m1: Mem)
    requires Sweepable(m0, table) && SweepStart(m0, table, m1) && m1.marked == s
    requires forall x | x in m0.listed :: x in m0.nodes && x in m1.nodes
    ensures Sends(m1, m0.listed) == Sent(m0, s) && Frees(m1, m0.listed) == Freed(m0, s)
    ensures Keeps(m1, m0.listed) == set x | x in m0.listed && x in s
  {
  }

  lemma SlotChoices(m0: Mem, table: nat, s: set<nat>, m1: Mem, size: nat, i: nat)
    requires Sweepable(m0, table) && SweepStart(m0, table, m1) && m1.marked == s && size > 0 && SymbolsShaped(m1.nodes)
    requires forall x | x in m0.listed :: x in m0.nodes && x in m1.nodes
    ensures InSlot(m1, m0.listed, size, i) == Hashed(m0, s, size, i)
  {
  }

  lemma SweptValid(m0: Mem, table: nat, s: set<nat>, m1: Mem, r: Mem, bs: seq<seq<nat>>)
    requires Swept(m0, table, s, m1, r) && ValidMem(m0, table, bs) && s <= Members(m0.listed) + {ZERO}
    ensures ValidMem(r, table, NewBuckets(m0, table, m1)) && r.marked <= {ZERO}
  {
    SweptCollected(m0, table, s, m1, r) by { Placed(m0, table, bs); }
    SweptLists(m0, table, s, m1, r, bs);
    SweptSize(m0, table, s, m1, r);
    SweptMarks(m0, table, s, m1, r);
    var bs2 := NewBuckets(m0, table, m1);
    forall i, x | 0 <= i < |bs2| && x in bs2[i]
      ensures x in r.listed
    {
      PushedMembers(m0.listed, Hashed(m0, s, |bs2|, i));
      PushedMembers(m0.listed, s);
    }
    ZeroKept(m0, table, s, m1, r, bs);
  }

  lemma Placed(m: Mem, table: nat, bs: seq<seq<nat>>)
    requires ValidMem(m, table, bs)
    ensures table !in m.chain && forall a | a in m.chain :: a in m.nodes && a !in m.listed
  {
    assert table in Members(m.listed);
    forall a | a in m.chain
      ensures a in m.nodes && a !in m.listed
    {
      assert a in Members(m.chain) && a !in Members(m.listed);
    }
  }

  lemma SweptMarks(m0: Mem, table: nat, s: set<nat>, m1: Mem, r: Mem)
    requires Swept(m0, table, s, m1, r) && s <= Members(m0.listed) + {ZERO}
    ensures r.marked <= {ZERO}
  {
    SweepLists(m1, table, m0.listed);
  }

  lemma ZeroKept(m0: Mem, table: nat, s: set<nat>, m1: Mem, r: Mem, bs: seq<seq<nat>>)
    requires Swept(m0, table, s, m1, r) && ValidMem(m0, table, bs)
    ensures ZERO in r.nodes && r.nodes[ZERO] == Elems([])
  {
    SweepLists(m1, table, m0.listed);
    SweepContents(m1, table, m0.listed);
  }

  lemma PushedSet(xs: seq<nat>, c: set<nat>)
    ensures Members(Pushed(xs, c)) == set x | x in xs && x in c
  {
    PushedMembers(xs, c);
  }

  lemma SweptLists(m0: Mem, table: nat, s: set<nat>, m1: Mem, r: Mem, bs: seq<seq<nat>>)
    requires Swept(m0, table, s, m1, r) && ValidMem(m0, table, bs)
    requires Collected(m0, table, s, r, NewBuckets(m0, table, m1))
    ensures Distinct(r.listed) && Distinct(r.chain)
    ensures r.nodes.Keys == Members(r.listed) + Members(r.chain) + {ZERO}
    ensures Members(r.listed) !! Members(r.chain) && table in r.listed && ZERO !in r.listed && ZERO !in r.chain
  {
    var xs, sent := m0.listed, Sent(m0, s);
    PushedDistinct(xs, s);
    PushedDistinct(xs, sent);
    PushedMembers(xs, s);
    PushedMembers(xs, sent);
    DistinctChain(m0, Pushed(xs, sent));
    PushedSet(xs, s);
    PushedSet(xs, sent);
    assert Members(r.chain) == Members(Pushed(xs, sent)) + Members(m0.chain);
    Parted(m0, s);
  }

  // Kept, sent and freed part the old list.
  lemma Parted(m: Mem, s: set<nat>)
    requires forall x | x in m.listed :: x in m.nodes
    ensures var kept := set x | x in m.listed && x in s;
            && kept + Sent(m, s) + Freed(m, s) == Members(m.listed)
            && kept !! Sent(m, s) && kept !! Freed(m, s) && Sent(m, s) !! Freed(m, s)
            && (set x | x in m.listed && x in Sent(m, s)) == Sent(m, s)
  {
  }

  lemma DistinctChain(m0: Mem, ys: seq<nat>)
    requires Distinct(ys) && Distinct(m0.chain) && Members(m0.listed) !! Members(m0.chain)
    requires forall y | y in ys :: y in m0.listed
    ensures Distinct(ys + m0.chain)
  {
    forall i, j | 0 <= i < j < |ys + m0.chain|
      ensures (ys + m0.chain)[i] != (ys + m0.chain)[j]
    {
      if i < |ys| <= j {
        assert ys[i] in Members(m0.listed) && m0.chain[j - |ys|] in Members(m0.chain);
      }
    }
  }

  // The recorded size is that of the new list as it now is.
  lemma SweptSize(m0: Mem, table: nat, s: set<nat>, m1: Mem, r: Mem)
    requires Swept(m0, table, s, m1, r)
    ensures (forall x | x in r.listed :: x in r.nodes) && r.size == TotalSize(r.nodes, r.listed)
  {
    var xs := m0.listed;
    SweepLists(m1, table, xs);
    SweepContents(m1, table, xs);
    SweepSize(m1, table, xs);
    PushedMembers(xs, Keeps(m1, xs));
    assert r.listed == Pushed(xs, Keeps(m1, xs));
    forall i | 0 <= i < |r.listed|
      ensures r.listed[i] in r.nodes && r.listed[i] in m1.nodes
              && SizeOf(r.nodes[r.listed[i]]) == SizeOf(m1.nodes[r.listed[i]])
    {
      assert r.listed[i] in Keeps(m1, xs);
    }
    TotalSame(r.nodes, m1.nodes, r.listed);
  }

  // No survivor points to anything freed or waiting.
  lemma SweptSolid(m0: Mem, table: nat, values: seq<Val>, bs: seq<seq<nat>>, s: set<nat>, r: Mem, bs2: seq<seq<nat>>)
    requires ValidMem(m0, table, bs) && ValidMem(r, table, bs2) && Collected(m0, table, s, r, bs2)
    requires s <= Members(m0.listed) + {ZERO} && Within(values, s)
    requires forall a | a in s && a != table :: Within(Followed(m0.nodes[a]), s)
    ensures Intact(Live(r)) && Within(values, Live(r).Keys)
  {
    var h := Live(r);
    PushedMembers(m0.listed, s);
    assert s <= h.Keys;
    forall a | a in h
      ensures Within(Followed(h[a]), h.Keys)
    {
      if a == table {
        TableIntact(r, table, bs2);
      } else if a != ZERO {
        assert a in r.listed && a in s && Relinked(m0.nodes[a], r.nodes[a]);
        LinksIgnored(m0.nodes[a], r.nodes[a]);
        WithinMore(Followed(h[a]), s, h.Keys);
      }
    }
    WithinMore(values, s, h.Keys);
  }

  lemma WithinMore(vs: seq<Val>, c: set<nat>, d: set<nat>)
    requires Within(vs, c) && c <= d
    ensures Within(vs, d)
  {
  }

  lemma LinksIgnored(x: Node, y: Node)
    requires Relinked(x, y)
    ensures Followed(y) == Followed(x)
  {
    if IsSymbol(x) {
      assert y.elems[..SY_NEXT] == x.elems[..SY_NEXT] && y.elems[SY_NEXT + 1..] == x.elems[SY_NEXT + 1..];
    }
  }

  lemma TableIntact(r: Mem, table: nat, bs: seq<seq<nat>>)
    requires ValidMem(r, table, bs)
    ensures Within(Followed(r.nodes[table]), Live(r).Keys)
  {
    forall i | 0 <= i < |bs| && r.nodes[table].elems[i].Ptr?
      ensures r.nodes[table].elems[i].a in Live(r).Keys
    {
      assert Follows(r.nodes, r.nodes[table].elems[i], bs[i]) && bs[i][0] in bs[i];
    }
  }

  lemma AfterSweep(m0: Mem, table: nat, values: seq<Val>, bs: seq<seq<nat>>, m1: Mem, r: Mem)
    requires ValidMem(m0, table, bs) && Intact(Live(m0)) && Within(values, Live(m0).Keys) && m0.marked <= {ZERO}
    requires Swept(m0, table, Kept(m0, table, values, bs), m1, r)
    ensures var bs2 := NewBuckets(m0, table, m1);
            && Collected(m0, table, Kept(m0, table, values, bs), r, bs2)
            && ValidMem(r, table, bs2) && r.marked <= {ZERO}
            && Intact(Live(r)) && Within(values, Live(r).Keys)
  {
    var h, s := Live(m0), Kept(m0, table, values, bs);
    LiveTable(m0, table, bs);
    CollectorExact(h, values, table, Joined(bs), m0.marked);
    Placed(m0, table, bs);
    SweptCollected(m0, table, s, m1, r);
    SweptValid(m0, table, s, m1, r, bs);
    SweptSolid(m0, table, values, bs, s, r, NewBuckets(m0, table, m1));
  }

  // ---- The other operations keep memory valid ----

  lemma AllocatedValid(m: Mem, table: nat, bs: seq<seq<nat>>, p: nat, x: Node)
    requires ValidMem(m, table, bs) && p !in m.nodes && SymbolShaped(x)
    ensures ValidMem(Allocated(m, p, x), table, bs)
  {
    var r := Allocated(m, p, x);
    assert table in Members(m.listed) && p !in Members(m.listed) && p !in Members(m.chain);
    assert forall i | 0 <= i < |m.listed| :: m.listed[i] in Members(m.listed);
    assert r.listed[1..] == m.listed && Members(r.listed) == Members(m.listed) + {p};
    TotalSame(r.nodes, m.nodes, m.listed);
    BucketsKept(m.nodes, table, bs, p, x);
  }

  lemma BucketsKept(h: Graph, table: nat, bs: seq<seq<nat>>, p: nat, x: Node)
    requires Buckets(h, table, bs) && p !in h
    ensures Buckets(h[p := x], table, bs)
  {
    forall i | 0 <= i < |bs|
      ensures Follows(h[p := x], h[table].elems[i], bs[i])
    {
      forall y | y in bs[i]
        ensures y in h && h[p := x][y] == h[y]
      {
        FollowedIn(h, h[table].elems[i], bs[i], y);
      }
      FollowsSame(h, h[p := x], h[table].elems[i], bs[i]);
    }
  }

  lemma AllocatedSolid(m: Mem, table: nat, bs: seq<seq<nat>>, p: nat, x: Node)
    requires ValidMem(m, table, bs) && p !in m.nodes && SymbolShaped(x)
    ensures Members(Allocated(m, p, x).listed) + {ZERO} <= Allocated(m, p, x).nodes.Keys
    ensures Intact(Live(m)) && Within(Followed(x), Live(m).Keys + {p}) ==> Intact(Live(Allocated(m, p, x)))
  {
    var r := Allocated(m, p, x);
    assert Members(r.listed) == Members(m.listed) + {p};
    if Intact(Live(m)) && Within(Followed(x), Live(m).Keys + {p}) {
      forall a | a in Live(r)
        ensures Within(Followed(Live(r)[a]), Live(r).Keys)
      {
        if a != p {
          assert Live(r)[a] == Live(m)[a];
          WithinMore(Followed(Live(m)[a]), Live(m).Keys, Live(r).Keys);
        }
      }
    }
  }

  lemma UnusedApart(m: Mem, table: nat, bs: seq<seq<nat>>, p: nat)
    requires ValidMem(m, table, bs) && p !in m.nodes
    ensures p != table && Apart([p], bs)
  {
    assert p !in Members(m.listed);
  }

  lemma ListedFirst(xs: seq<nat>, q: nat)
    requires xs != [] && xs[0] == q
    ensures Within([Ptr(q)], Members(xs) + {ZERO})
  {
  }

  lemma Added(m: Mem, bs: seq<seq<nat>>, p: nat, x: Node, q: nat, r: Node, y: Node, table: nat, m1: Mem, m2: Mem,
              bs2: seq<seq<nat>>)
    requires IsSymbol(y) && y.elems[SY_HASH].Int? && bs != [] && IsTable(m.nodes, table) && SizeOf(x) == SizeOf(y)
    requires p != q && p != table && q != table
    requires m1 == Allocated(Allocated(m, p, x), q, r).(nodes := m.nodes[p := y][q := r])
    requires IsTable(m1.nodes, table) && p in m1.nodes && m1.nodes[p] == y
    requires m2 == m1.(nodes := Linked(m1.nodes, table, p)) && bs2 == InFront(bs, m1.nodes, p)
    ensures SymbolAdded(m, bs, p, y, q, r, table, m2, bs2)
  {
  }

  lemma WrittenFirst(h: Graph, p: nat, q: nat, x: Node, r: Node, y: Node)
    requires p != q
    ensures h[p := x][q := r][p := y] == h[p := y][q := r]
  {
  }

  lemma LinkedValid(m: Mem, table: nat, bs: seq<seq<nat>>, p: nat)
    requires ValidMem(m, table, bs) && p in m.listed && p in m.nodes && p != table && IsSymbol(m.nodes[p])
             && Apart([p], bs)
    ensures bs != [] && m.nodes[p].elems[SY_HASH].Int?
    ensures ValidMem(m.(nodes := Linked(m.nodes, table, p)), table, InFront(bs, m.nodes, p))
  {
    var r := m.(nodes := Linked(m.nodes, table, p));
    var m1 := m.(marked := {p});
    assert SweepOne(m1, table, p).nodes == r.nodes;
    var bs1 := StepBuckets(m1, table, [p], bs);
    assert p in Members(m.listed) && table in Members(m.listed);
    TotalSame(r.nodes, m.nodes, m.listed) by {
      assert forall i | 0 <= i < |m.listed| :: m.listed[i] in Members(m.listed);
    }
  }

  lemma LinkedSolid(m: Mem, table: nat, bs: seq<seq<nat>>, p: nat)
    requires ValidMem(m, table, bs) && p in m.listed && p in m.nodes && p != table && IsSymbol(m.nodes[p])
    requires m.nodes[p].elems[SY_HASH].Int? && Members(m.listed) + {ZERO} <= Linked(m.nodes, table, p).Keys
    ensures Intact(Live(m)) ==> Intact(Live(m.(nodes := Linked(m.nodes, table, p))))
  {
    var h, k := Live(m), Live(m.(nodes := Linked(m.nodes, table, p)));
    assert p in Members(m.listed) && table in Members(m.listed);
    if Intact(h) {
      forall a | a in k
        ensures Within(Followed(k[a]), k.Keys)
      {
        assert Within(Followed(h[a]), h.Keys);
        if a == p {
          LinksIgnored(h[p], k[p]);
        }
      }
    }
  }

  lemma StoredValid(m: Mem, table: nat, bs: seq<seq<nat>>, a: nat, i: nat, v: Val)
    requires ValidMem(m, table, bs) && a in m.listed && a in m.nodes && a != table && Writable(m.nodes[a], i)
    ensures ValidMem(m.(nodes := m.nodes[a := Stored(m.nodes[a], i, v)]), table, bs)
  {
    var r := m.(nodes := m.nodes[a := Stored(m.nodes[a], i, v)]);
    assert a in Members(m.listed);
    TotalSame(r.nodes, m.nodes, m.listed) by {
      assert forall i | 0 <= i < |m.listed| :: m.listed[i] in Members(m.listed);
    }
    forall j | 0 <= j < |bs|
      ensures Follows(r.nodes, m.nodes[table].elems[j], bs[j])
    {
      StoredFollows(m.nodes, a, i, v, m.nodes[table].elems[j], bs[j]);
    }
  }

  lemma {:induction false} StoredFollows(h: Graph, a: nat, i: nat, v: Val, head: Val, xs: seq<nat>)
    requires Follows(h, head, xs) && a in h && Writable(h[a], i)
    ensures Follows(h[a := Stored(h[a], i, v)], head, xs)
    decreases |xs|
  {
    if xs != [] {
      StoredFollows(h, a, i, v, h[xs[0]].elems[SY_NEXT], xs[1..]);
    }
  }

  // A written field is one that marking follows.
  lemma StoredFollowed(x: Node, i: nat, v: Val, c: set<nat>)
    requires Writable(x, i) && Within(Followed(x), c)
    ensures Within(Followed(Stored(x, i, v)), c) <==> Within([v], c)
  {
    var y := Stored(x, i, v);
    var j := if x.Typed? && x.kind == T_SYMBOL && |x.elems| > SY_NEXT && i > SY_NEXT then i - 1 else i;
    assert Followed(y) == Followed(x)[j := v];
    assert [v][0] == Followed(y)[j];
  }

  lemma StoredSolid(m: Mem, table: nat, bs: seq<seq<nat>>, a: nat, i: nat, v: Val)
    requires ValidMem(m, table, bs) && a in m.listed && a in m.nodes && a != table && Writable(m.nodes[a], i)
    requires Members(m.listed) + {ZERO} <= m.nodes[a := Stored(m.nodes[a], i, v)].Keys
    ensures Intact(Live(m)) ==>
              (Intact(Live(m.(nodes := m.nodes[a := Stored(m.nodes[a], i, v)]))) <==> Within([v], Live(m).Keys))
  {
    var h, k := Live(m), Live(m.(nodes := m.nodes[a := Stored(m.nodes[a], i, v)]));
    assert a in Members(m.listed) && k == h[a := Stored(h[a], i, v)];
    if Intact(h) {
      StoredFollowed(h[a], i, v, h.Keys);
      assert k.Keys == h.Keys;
    }
  }

  lemma AssignedWithin(roots: seq<nat>, vars: map<nat, Val>, r: nat, v: Val, c: set<nat>)
    requires forall x | x in roots :: x in vars
    ensures Within(ValuesOf(roots, vars), c) ==>
              (Within(ValuesOf(roots, vars[r := v]), c) <==> (r in roots ==> Within([v], c)))
  {
    var vs, us := ValuesOf(roots, vars), ValuesOf(roots, vars[r := v]);
    assert forall i | 0 <= i < |roots| :: us[i] == if roots[i] == r then v else vs[i];
    assert [v][0] == v;
  }

  lemma TakenValid(m: Mem, table: nat, bs: seq<seq<nat>>)
    requires ValidMem(m, table, bs)
    ensures (m.chain == [] || m.chain[0] in m.nodes) && ValidMem(Taken(m), table, bs)
  {
    if m.chain != [] {
      var x := m.chain[0];
      TakenLists(m);
      assert x in Members(m.chain);
      assert forall i | 0 <= i < |m.listed| :: m.listed[i] in Members(m.listed);
      assert ([x] + m.listed)[1..] == m.listed;
    }
  }

  lemma TakenLists(m: Mem)
    requires m.chain != [] && Distinct(m.listed) && Distinct(m.chain) && Members(m.listed) !! Members(m.chain)
    ensures var x := m.chain[0];
            && Distinct([x] + m.listed) && Distinct(m.chain[1..]) && Members([x] + m.listed) !! Members(m.chain[1..])
            && Members([x] + m.listed) + Members(m.chain[1..]) == Members(m.listed) + Members(m.chain)
  {
    var x := m.chain[0];
    assert m.chain == [x] + m.chain[1..] && Members(m.chain) == {x} + Members(m.chain[1..]);
    assert Members([x] + m.listed) == Members(m.listed) + {x};
    FirstIsNew(m.chain);
    assert x in Members(m.chain) && x !in Members(m.chain[1..]);
    assert forall i | 0 <= i < |m.listed| :: m.listed[i] in Members(m.listed);
    assert forall i, j | 0 <= i < j < |m.chain[1..]| ::
        m.chain[1..][i] == m.chain[i + 1] && m.chain[1..][j] == m.chain[j + 1];
  }

  // What comes back may point to what has been freed since it died, or to
  // other dead objects: memory is sound again only if it does not.
  lemma TakenSolid(m: Mem, table: nat, bs: seq<seq<nat>>)
    requires ValidMem(m, table, bs) && m.chain != []
    ensures m.chain[0] in m.nodes && Members(Taken(m).listed) + {ZERO} <= m.nodes.Keys
    ensures Intact(Live(m)) ==>
              (Intact(Live(Taken(m))) <==> Within(Followed(m.nodes[m.chain[0]]), Live(Taken(m)).Keys))
  {
    TakenValid(m, table, bs);
    var x, r := m.chain[0], Taken(m);
    assert Members(r.listed) == Members(m.listed) + {x};
    if Intact(Live(m)) {
      assert Live(r)[x] == m.nodes[x];
      forall a | a in Live(r) && a != x
        ensures Within(Followed(Live(r)[a]), Live(r).Keys)
      {
        assert Live(r)[a] == Live(m)[a];
        WithinMore(Followed(Live(m)[a]), Live(m).Keys, Live(r).Keys);
      }
    }
  }

  // A set a collection could not do with less than.
  ghost predicate Spans(m: Mem, table: nat, roots: seq<Val>, bs: seq<seq<nat>>, d: set<nat>)
    requires ValidMem(m, table, bs)
  {
    LiveTable(m, table, bs);
    && m.marked <= d && Closure(Live(m), roots, table, Joined(bs), d)
    && (FromRoots(Live(m), roots, table) ==> Within(Followed(Live(m)[table]), d))
  }

  // Reachable from the protected roots, the symbols with a value and the
  // symbol table, before anything is collected.
  ghost predicate Reached(m: Mem, table: nat, roots: seq<Val>, bs: seq<seq<nat>>, x: nat)
    requires ValidMem(m, table, bs)
  {
    forall d: set<nat> | Spans(m, table, roots, bs, d) :: x in d
  }

  lemma KeptIsReached(m: Mem, table: nat, roots: seq<Val>, bs: seq<seq<nat>>, x: nat)
    requires ValidMem(m, table, bs) && Intact(Live(m)) && Within(roots, Live(m).Keys) && m.marked <= {ZERO}
    ensures x in Kept(m, table, roots, bs) <==> Reached(m, table, roots, bs, x)
  {
    LiveTable(m, table, bs);
    CollectorExact(Live(m), roots, table, Joined(bs), m.marked);
    assert Spans(m, table, roots, bs, Kept(m, table, roots, bs));
  }

  predicate PointsTo(x: Node, b: nat) {
    Ptr(b) in Followed(x)
  }

  // Dead without a finalizer: gone after the next collection.
  ghost predicate Doomed(m: Mem, table: nat, roots: seq<Val>, bs: seq<seq<nat>>, b: nat)
    requires ValidMem(m, table, bs)
  {
    b in Members(m.listed) && !Reached(m, table, roots, bs, b) && !Finalizable(m.nodes[b])
  }

  // A dead object sent to be finalized keeps its pointers.  They dangle
  // exactly if, before the collection, it pointed to an unreachable object
  // that is not to be finalized itself.
  lemma SentMayDangle(m: Mem, table: nat, roots: seq<Val>, bs: seq<seq<nat>>, r: Mem, bs2: seq<seq<nat>>, a: nat)
    requires ValidMem(m, table, bs) && Intact(Live(m)) && Within(roots, Live(m).Keys) && m.marked <= {ZERO}
    requires Collected(m, table, Kept(m, table, roots, bs), r, bs2)
    requires a in Members(m.listed) && !Reached(m, table, roots, bs, a) && Finalizable(m.nodes[a])
    ensures a in r.chain && a in r.nodes
    ensures !Within(Followed(r.nodes[a]), r.nodes.Keys) <==>
            exists b :: PointsTo(m.nodes[a], b) && Doomed(m, table, roots, bs, b)
  {
    var s, vs := Kept(m, table, roots, bs), Followed(m.nodes[a]);
    KeptIsReached(m, table, roots, bs, a);
    PushedMembers(m.listed, Sent(m, s));
    assert Live(m)[a] == m.nodes[a] && Followed(Unflagged(m.nodes[a])) == vs && Within(vs, Live(m).Keys);
    forall b
      ensures b in Freed(m, s) <==> Doomed(m, table, roots, bs, b)
    {
      KeptIsReached(m, table, roots, bs, b);
    }
    forall i | 0 <= i < |vs| && vs[i].Ptr?
      ensures PointsTo(m.nodes[a], vs[i].a) && (vs[i].a in r.nodes <==> vs[i].a !in Freed(m, s))
    {
    }
  }

  // Such a memory: nothing refers to a string connection, nor to its string
  // but the connection itself.
  lemma SentDangles() returns (m: Mem)
    ensures ValidMem(m, 1, [[]]) && Intact(Live(m)) && Within([], Live(m).Keys) && m.marked == {} && 2 in m.listed
    ensures forall r, bs2 | Collected(m, 1, Kept(m, 1, [], [[]]), r, bs2) ::
              2 in r.chain && 2 in r.nodes && !Within(Followed(r.nodes[2]), r.nodes.Keys)
  {
    m := TwoDead();
    var h := Live(m);
    assert Joined([[]]) == [] + Joined([]);
    assert ClosedBeyond(h, {}, {}) && Within([], {}) && !FromRoots(h, [], 1);
    assert Spans(m, 1, [], [[]], {1});
    forall r, bs2 | Collected(m, 1, Kept(m, 1, [], [[]]), r, bs2)
      ensures 2 in r.chain && 2 in r.nodes && !Within(Followed(r.nodes[2]), r.nodes.Keys)
    {
      assert Followed(m.nodes[2])[3] == Ptr(3) && PointsTo(m.nodes[2], 3) && Doomed(m, 1, [], [[]], 3);
      SentMayDangle(m, 1, [], [[]], r, bs2, 2);
    }
  }

  const CONN_STRING := 2

  // The string is allocated first, then the connection that reads from it.
  lemma TwoDead() returns (m: Mem)
    ensures ValidMem(m, 1, [[]]) && Intact(Live(m)) && m.marked == {} && m.listed == [2, 3, 1] && m.chain == []
    ensures Finalizable(m.nodes[2]) && !Finalizable(m.nodes[3])
    ensures Followed(m.nodes[2]) == [Int(CONN_STRING), Int(-1), Int(0), Ptr(3)]
  {
    var x2, x3 := Typed(T_CONNECTION, true, [Int(CONN_STRING), Int(-1), Int(0), Ptr(3)]), Raw([65]);
    var m1 := TableAlone();
    var m2 := OneMore(m1, 3, x3);
    m := OneMore(m2, 2, x2);
    TwoDeadIntact(m, x2, x3);
  }

  lemma OneMore(m: Mem, p: nat, x: Node) returns (r: Mem)
    requires ValidMem(m, 1, [[]]) && p !in m.nodes && Allocatable(x)
    ensures ValidMem(r, 1, [[]]) && r.nodes == m.nodes[p := x] && r.listed == [p] + m.listed
    ensures r.marked == m.marked && r.chain == m.chain
  {
    AllocatedValid(m, 1, [[]], p, x);
    r := Allocated(m, p, x);
  }

  lemma TwoDeadIntact(m: Mem, x2: Node, x3: Node)
    requires ValidMem(m, 1, [[]]) && m.listed == [2, 3, 1] && 1 in m.nodes && 2 in m.nodes && 3 in m.nodes
    requires m.nodes[1] == Elems([Nothing]) && m.nodes[2] == x2 && m.nodes[3] == x3
    requires Followed(x2) == [Int(CONN_STRING), Int(-1), Int(0), Ptr(3)] && Followed(x3) == []
    ensures Intact(Live(m))
  {
    assert Members([2, 3, 1]) == {1, 2, 3};
  }

  lemma TableAlone() returns (m: Mem)
    ensures ValidMem(m, 1, [[]]) && m.nodes.Keys == {ZERO, 1} && m.listed == [1] && m.marked == {} && m.chain == []
    ensures m.nodes[1] == Elems([Nothing])
  {
    var x := Elems([Nothing]);
    m := Mem(map[ZERO := Elems([]), 1 := x], {}, [1], [], SizeOf(x));
    assert TotalSize(m.nodes, [1]) == SizeOf(x) + TotalSize(m.nodes, []);
    assert Members([1]) == {1} && Follows(m.nodes, x.elems[0], []);
  }

  // ---- Read off for single objects ----

  // Every object of the old list ends up in exactly one place, once.
  lemma Conserved(m: Mem, table: nat, bs: seq<seq<nat>>, s: set<nat>, r: Mem, bs2: seq<seq<nat>>, x: nat)
    requires ValidMem(m, table, bs) && ValidMem(r, table, bs2) && Collected(m, table, s, r, bs2) && x in m.listed
    ensures x in r.listed <==> x in s
    ensures x in r.chain <==> x !in s && Finalizable(m.nodes[x])
    ensures x !in r.nodes <==> x !in s && !Finalizable(m.nodes[x])
    ensures x in r.chain ==> !Finalizable(r.nodes[x])
  {
    PushedMembers(m.listed, s);
    PushedMembers(m.listed, Sent(m, s));
    Placed(m, table, bs);
  }

  // A surviving symbol is in the bucket of its hash, once, and in no other.
  lemma SymbolsRehashed(m: Mem, table: nat, s: set<nat>, r: Mem, bs: seq<seq<nat>>, i: nat, x: nat)
    requires Listed(m, table) && Distinct(m.listed) && Collected(m, table, s, r, bs) && i < |bs|
    ensures Distinct(bs[i])
    ensures x in bs[i] <==> x in m.listed && x in s && IsSymbol(m.nodes[x]) && Slot(m.nodes[x], |bs|) == i
  {
    PushedDistinct(m.listed, Hashed(m, s, |bs|, i));
    PushedMembers(m.listed, Hashed(m, s, |bs|, i));
  }
}
