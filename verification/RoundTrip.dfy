// Saving and loading back gives the same graph.
module RoundTrip {
  import opened Bytes
  import opened Values
  import opened Graphs

  // ---- Images ----

  // What a value becomes: numbers keep thirty-two bits, singletons eight.
  function Image(v: Val, t: Table, l: Binding): Val {
    match v
    case Nothing => Nothing
    case Int(n) => Int(Wrap32(n))
    case Singleton(k) => Singleton(k % 256)
    case Ptr(a) => if a in t && t[a] in l then Ptr(l[t[a]]) else Nothing
  }

  function Images(vs: seq<Val>, t: Table, l: Binding): (r: seq<Val>)
    ensures |r| == |vs|
  {
    seq(|vs|, i requires 0 <= i < |vs| => Image(vs[i], t, l))
  }

  function NodeImage(x: Node, t: Table, l: Binding): Node {
    match x
    case Plain(flags, fin, _) => Plain(flags, fin, Images(Kids(x), t, l))
    case Raw(bytes) => Raw(bytes)
    case Typed(kind, fin, _) => Typed(kind, fin, Images(Kids(x), t, l))
    case Elems(_) => Elems(Images(Kids(x), t, l))
  }

  // Saver and loader at the same point of the stream: the numbers in use are
  // the first |t|, bound to addresses in the store.
  predicate InStep(h: Graph, t: Table, l: Binding, g: Store) {
    && t.Keys <= h.Keys && g != [] && g[ZERO] == Elems([])
    && (forall a | a in t :: t[a] in l && l[t[a]] < |g| && (l[t[a]] == ZERO ==> h[a] == Elems([])))
    && (forall n | n in l :: 0 <= n < |t|)
  }

  predicate Bound(vs: seq<Val>, t: Table) {
    forall i | 0 <= i < |vs| :: vs[i].Ptr? ==> vs[i].a in t
  }

  predicate Keeps(l: Binding, l2: Binding) {
    forall n | n in l :: n in l2 && l2[n] == l[n]
  }

  // The objects numbered since `t` are new in the store, each an image.
  predicate Restored(h: Graph, t: Table, t2: Table, l2: Binding, g: Store, g2: Store) {
    && |g| <= |g2| && g2[..|g|] == g
    && forall a | a in t2 && a !in t :: ImageAt(h, a, t2, l2, |g|, g2)
  }

  predicate ImageAt(h: Graph, a: nat, t: Table, l: Binding, base: nat, g: Store) {
    && a in h && a in t && t[a] in l && l[t[a]] < |g|
    && g[l[t[a]]] == NodeImage(h[a], t, l) && Bound(Kids(h[a]), t)
    && (l[t[a]] >= base || (l[t[a]] == ZERO && h[a] == Elems([])))
  }

  // What loading what was saved gives.
  predicate Comes(h: Graph, v: Val, t: Table, t2: Table, l: Binding, g: Store, rest: seq<byte>, r: Loaded) {
    && r.Loaded? && r.rest == rest && InStep(h, t2, r.binding, r.store) && Keeps(l, r.binding)
    && r.v == Image(v, t2, r.binding) && (v.Ptr? ==> v.a in t2)
    && Restored(h, t, t2, r.binding, g, r.store)
  }

  predicate AllCome(h: Graph, vs: seq<Val>, t: Table, t2: Table, l: Binding, g: Store, rest: seq<byte>, r: LoadedAll) {
    && r.LoadedAll? && r.rest == rest && InStep(h, t2, r.binding, r.store) && Keeps(l, r.binding)
    && r.vs == Images(vs, t2, r.binding) && Bound(vs, t2)
    && Restored(h, t, t2, r.binding, g, r.store)
  }

  // ---- Later numbers change no image ----

  lemma ImageGrows(v: Val, t: Table, l: Binding, t2: Table, l2: Binding)
    requires Grows(t, t2) && Keeps(l, l2) && (forall a | a in t :: t[a] in l) && (v.Ptr? ==> v.a in t)
    ensures Image(v, t, l) == Image(v, t2, l2)
  {
  }

  lemma ImagesGrow(vs: seq<Val>, t: Table, l: Binding, t2: Table, l2: Binding)
    requires Grows(t, t2) && Keeps(l, l2) && (forall a | a in t :: t[a] in l) && Bound(vs, t)
    ensures Images(vs, t, l) == Images(vs, t2, l2) && Bound(vs, t2)
  {
    forall i | 0 <= i < |vs|
      ensures Image(vs[i], t, l) == Image(vs[i], t2, l2)
    {
      ImageGrows(vs[i], t, l, t2, l2);
    }
  }

  // Two stretches of saving and loading, one after the other.
  lemma RestoredTwice(h: Graph, t: Table, t1: Table, l1: Binding, g: Store, g1: Store, t2: Table, l2: Binding,
                      g2: Store)
    requires (forall a | a in t1 :: t1[a] in l1) && Grows(t1, t2) && Keeps(l1, l2)
    requires Restored(h, t, t1, l1, g, g1) && Restored(h, t1, t2, l2, g1, g2)
    ensures Restored(h, t, t2, l2, g, g2)
  {
    forall a | a in t2 && a !in t
      ensures ImageAt(h, a, t2, l2, |g|, g2)
    {
      if a in t1 {
        assert ImageAt(h, a, t1, l1, |g|, g1);
        ImageStays(h, a, t1, l1, |g|, g1, t2, l2, g2);
      } else {
        assert ImageAt(h, a, t2, l2, |g1|, g2);
      }
    }
    assert g2[..|g|] == g2[..|g1|][..|g|];
  }

  lemma ImageStays(h: Graph, a: nat, t1: Table, l1: Binding, base: nat, g1: Store, t2: Table, l2: Binding, g2: Store)
    requires (forall b | b in t1 :: t1[b] in l1) && Grows(t1, t2) && Keeps(l1, l2)
    requires ImageAt(h, a, t1, l1, base, g1) && |g1| <= |g2| && g2[..|g1|] == g1
    ensures ImageAt(h, a, t2, l2, base, g2)
  {
    ImagesGrow(Kids(h[a]), t1, l1, t2, l2);
    var p := l1[t1[a]];
    assert g2[p] == g2[..|g1|][p] == g1[p];
  }

  // ---- The round trip ----

  lemma {:induction false} SavedLoads(h: Graph, v: Val, t: Table, l: Binding, g: Store, rest: seq<byte>)
    requires Sound(h) && In(h, v) && InStep(h, t, l, g)
    ensures var s := Save(h, v, t); Comes(h, v, t, s.table, l, g, rest, Load(s.bytes + rest, l, g))
    decreases h.Keys - t.Keys, 1, 0
  {
    if v.Ptr? && v.a !in t {
      NewObjectLoads(h, v.a, t, l, g, rest);
    } else {
      ShortLoads(h, v, t, l, g, rest);
    }
  }

  // Everything that is written without a new number.
  lemma ShortLoads(h: Graph, v: Val, t: Table, l: Binding, g: Store, rest: seq<byte>)
    requires Sound(h) && In(h, v) && InStep(h, t, l, g) && (v.Ptr? ==> v.a in t)
    ensures var s := Save(h, v, t); Comes(h, v, t, s.table, l, g, rest, Load(s.bytes + rest, l, g))
  {
    var s := SaveValue(h, v, t);
    var bs := s.bytes + rest;
    SaveDef(h, v, t);
    LoadDef(bs, l, g);
    assert g[..|g|] == g;
    match v
    case Nothing => assert bs[1..] == rest;
    case Int(n) => WordLoads(INT, Be32(n), rest); Be32Decodes(n);
    case Singleton(k) => assert bs[2..] == rest;
    case Ptr(a) =>
      SubsetSize(t.Keys, h.Keys);
      WordLoads(REF, Be32(t[a]), rest);
      WordDecodes(t[a]);
  }

  lemma {:induction false} SubsetSize(a: set<nat>, b: set<nat>)
    requires a <= b
    ensures |a| <= |b| && (a != b ==> |a| < |b|)
  {
    if a != {} {
      var x :| x in a;
      SubsetSize(a - {x}, b - {x});
    }
  }

  lemma WordLoads(tag: byte, w: seq<byte>, rest: seq<byte>)
    requires |w| == 4
    ensures var bs := [tag] + w + rest; |bs| >= 5 && bs[0] == tag && bs[1..5] == w && bs[5..] == rest
  {
  }

  lemma HeaderLoads(w: seq<byte>, u: seq<byte>, tail: seq<byte>)
    requires |w| == 4 && |u| == 4
    ensures var bs := [OBJ] + w + u + tail;
            |bs| >= 9 && bs[0] == OBJ && bs[1..5] == w && bs[5..9] == u && bs[9..] == tail
  {
  }

  function Kinded(x: Node): nat {
    4 * LengthOf(x) + KindOf(x)
  }

  lemma {:induction false} NewObjectLoads(h: Graph, a: nat, t: Table, l: Binding, g: Store, rest: seq<byte>)
    requires Sound(h) && a in h && a !in t && InStep(h, t, l, g)
    ensures var s := Save(h, Ptr(a), t); Comes(h, Ptr(a), t, s.table, l, g, rest, Load(s.bytes + rest, l, g))
    decreases h.Keys - t.Keys, 0, 2
  {
    NewObjectOutcome(h, a, t, l, g, rest);
    NodeLoads(h, a, t, l, g, rest);
    var x := h[a];
    var k := SaveAll(h, Kids(x), t[a := |t|]);
    Same(h, Ptr(a), t, k.table, Save(h, Ptr(a), t).table, l, g, rest,
         LoadObject(|t|, Kinded(x), Payload(x) + k.bytes + rest, l, g), Load(Save(h, Ptr(a), t).bytes + rest, l, g));
  }

  lemma Same(h: Graph, v: Val, t: Table, t1: Table, t2: Table, l: Binding, g: Store, rest: seq<byte>, r1: Loaded,
             r2: Loaded)
    requires t1 == t2 && r1 == r2 && Comes(h, v, t, t1, l, g, rest, r1)
    ensures Comes(h, v, t, t2, l, g, rest, r2)
  {
  }

  // The stream of a new object up to its header.
  lemma NewObjectOutcome(h: Graph, a: nat, t: Table, l: Binding, g: Store, rest: seq<byte>)
    requires Sound(h) && a in h && a !in t && t.Keys <= h.Keys
    ensures var x := h[a];
            var k := SaveAll(h, Kids(x), t[a := |t|]);
            && Save(h, Ptr(a), t).table == k.table
            && Load(Save(h, Ptr(a), t).bytes + rest, l, g) ==
               LoadObject(|t|, Kinded(x), Payload(x) + k.bytes + rest, l, g)
  {
    var n, x := |t|, h[a];
    var k := SaveAll(h, Kids(x), t[a := n]);
    SaveDef(h, Ptr(a), t);
    assert Header(x) == Be32(Kinded(x)) + Payload(x);
    Regrouped(Be32(n), Be32(Kinded(x)), Payload(x), k.bytes, rest);
    SubsetSize(t.Keys, h.Keys);
    ObjectLoads(n, Kinded(x), Payload(x) + k.bytes + rest, l, g);
  }

  lemma Regrouped(w: seq<byte>, u: seq<byte>, p: seq<byte>, k: seq<byte>, rest: seq<byte>)
    ensures [OBJ] + w + (u + p) + k + rest == [OBJ] + w + u + (p + k + rest)
  {
  }

  lemma ObjectLoads(n: nat, u: nat, tail: seq<byte>, l: Binding, g: Store)
    requires n < 0x8000_0000 && u < P32
    ensures Load([OBJ] + Be32(n) + Be32(u) + tail, l, g) == LoadObject(n, u, tail, l, g)
  {
    WordDecodes(n);
    WordDecodes(u);
    HeaderLoads(Be32(n), Be32(u), tail);
    var bs := [OBJ] + Be32(n) + Be32(u) + tail;
    LoadDef(bs, l, g);
  }

  lemma {:induction false} NodeLoads(h: Graph, a: nat, t: Table, l: Binding, g: Store, rest: seq<byte>)
    requires Sound(h) && a in h && a !in t && InStep(h, t, l, g)
    ensures var x := h[a];
            var k := SaveAll(h, Kids(x), t[a := |t|]);
            Comes(h, Ptr(a), t, k.table, l, g, rest, LoadObject(|t|, Kinded(x), Payload(x) + k.bytes + rest, l, g))
    decreases h.Keys - t.Keys, 0, 1
  {
    var x := h[a];
    var k := SaveAll(h, Kids(x), t[a := |t|]);
    if x.Raw? {
      RawLoads(h, a, t, l, g, rest);
    } else if x == Elems([]) {
      ZeroLoads(h, a, t, l, g, rest);
    } else {
      ShellLoads(h, a, t, l, g, rest);
      FilledOutcome(x, |t|, k.bytes, rest, l, g);
    }
  }

  // A new object at the end of the store, bound to the next number.
  lemma Binds(h: Graph, a: nat, t: Table, l: Binding, g: Store, x: Node)
    requires a in h && a !in t && InStep(h, t, l, g)
    ensures InStep(h, t[a := |t|], l[|t| := |g|], g + [x]) && Keeps(l, l[|t| := |g|])
  {
    var t1, l1 := t[a := |t|], l[|t| := |g|];
    forall b | b in t1
      ensures t1[b] in l1 && l1[t1[b]] < |g + [x]| && (l1[t1[b]] == ZERO ==> h[b] == Elems([]))
    {
    }
  }

  // Bytes carry no pointers.
  lemma RawLoads(h: Graph, a: nat, t: Table, l: Binding, g: Store, rest: seq<byte>)
    requires Sound(h) && a in h && a !in t && InStep(h, t, l, g) && h[a].Raw?
    ensures var x := h[a];
            var k := SaveAll(h, Kids(x), t[a := |t|]);
            Comes(h, Ptr(a), t, k.table, l, g, rest, LoadObject(|t|, Kinded(x), Payload(x) + k.bytes + rest, l, g))
  {
    SaveAllDef(h, [], t[a := |t|]);
    RawOutcome(h[a], |t|, rest, l, g);
    RawComes(h, a, t, l, g, rest);
  }

  lemma RawOutcome(x: Node, n: nat, rest: seq<byte>, l: Binding, g: Store)
    requires x.Raw?
    ensures LoadObject(n, Kinded(x), Payload(x) + [] + rest, l, g) == Loaded(Ptr(|g|), rest, l[n := |g|], g + [x])
  {
    var bs := Payload(x) + [] + rest;
    assert bs[..|x.bytes|] == x.bytes && bs[|x.bytes|..] == rest;
  }

  lemma RawComes(h: Graph, a: nat, t: Table, l: Binding, g: Store, rest: seq<byte>)
    requires a in h && a !in t && InStep(h, t, l, g) && h[a].Raw?
    ensures Comes(h, Ptr(a), t, t[a := |t|], l, g, rest, Loaded(Ptr(|g|), rest, l[|t| := |g|], g + [h[a]]))
  {
    Binds(h, a, t, l, g, h[a]);
    assert (g + [h[a]])[..|g|] == g;
  }

  // The empty vector is not allocated again.
  lemma ZeroLoads(h: Graph, a: nat, t: Table, l: Binding, g: Store, rest: seq<byte>)
    requires Sound(h) && a in h && a !in t && InStep(h, t, l, g) && h[a] == Elems([])
    ensures var x := h[a];
            var k := SaveAll(h, Kids(x), t[a := |t|]);
            Comes(h, Ptr(a), t, k.table, l, g, rest, LoadObject(|t|, Kinded(x), Payload(x) + k.bytes + rest, l, g))
  {
    SaveAllDef(h, [], t[a := |t|]);
    ZeroOutcome(|t|, rest, l, g);
    ZeroComes(h, a, t, l, g, rest);
  }

  lemma ZeroOutcome(n: nat, rest: seq<byte>, l: Binding, g: Store)
    ensures LoadObject(n, Kinded(Elems([])), Payload(Elems([])) + [] + rest, l, g) ==
            Loaded(Ptr(ZERO), rest, l[n := ZERO], g)
  {
    assert Payload(Elems([])) + [] + rest == rest;
  }

  lemma ZeroComes(h: Graph, a: nat, t: Table, l: Binding, g: Store, rest: seq<byte>)
    requires a in h && a !in t && InStep(h, t, l, g) && h[a] == Elems([])
    ensures Comes(h, Ptr(a), t, t[a := |t|], l, g, rest, Loaded(Ptr(ZERO), rest, l[|t| := ZERO], g))
  {
    ZeroBinds(h, a, t, l, g);
    ZeroRestored(h, a, t, t[a := |t|], l[|t| := ZERO], g);
  }

  lemma ZeroRestored(h: Graph, a: nat, t: Table, t1: Table, l1: Binding, g: Store)
    requires a in h && a !in t && t1.Keys == t.Keys + {a} && t1[a] in l1 && l1[t1[a]] == ZERO
    requires h[a] == Elems([]) && g != [] && g[ZERO] == Elems([])
    ensures Restored(h, t, t1, l1, g, g)
  {
    assert g[..|g|] == g;
    assert ImageAt(h, a, t1, l1, |g|, g);
  }

  lemma ZeroBinds(h: Graph, a: nat, t: Table, l: Binding, g: Store)
    requires a in h && a !in t && InStep(h, t, l, g) && h[a] == Elems([])
    ensures InStep(h, t[a := |t|], l[|t| := ZERO], g) && Keeps(l, l[|t| := ZERO])
  {
  }

  lemma PayloadLoads(x: Node, n: nat, tail: seq<byte>, l: Binding, g: Store)
    requires Shaped(x) && !x.Raw? && x != Elems([])
    ensures LoadObject(n, Kinded(x), Payload(x) + tail, l, g) == LoadNode(n, Filled(x, []), |Kids(x)|, tail, l, g)
  {
    var bs := Payload(x) + tail;
    match x
    case Plain(flags, fin, _) =>
      FlagsLoad(flags, fin);
      assert bs[..4] == Be32(Flagged(flags, fin)) && bs[4..] == tail;
    case Typed(kind, fin, _) =>
      FlagsLoad(kind, fin);
      assert bs[..4] == Be32(Flagged(kind, fin)) && bs[4..] == tail;
    case Elems(_) => assert bs == tail;
  }

  lemma FilledOutcome(x: Node, n: nat, kids: seq<byte>, rest: seq<byte>, l: Binding, g: Store)
    requires Shaped(x) && !x.Raw? && x != Elems([])
    ensures LoadObject(n, Kinded(x), Payload(x) + kids + rest, l, g) ==
            LoadNode(n, Filled(x, []), |Kids(x)|, kids + rest, l, g)
  {
    PayloadLoads(x, n, kids + rest, l, g);
    assert Payload(x) + kids + rest == Payload(x) + (kids + rest);
  }

  lemma FlagsLoad(x: Bits31, b: bool)
    ensures var w := Unsigned32(Be32(Flagged(x, b))); w / 2 == x && (w % 2 == 1) == b
  {
    WordDecodes(Flagged(x, b));
  }

  lemma {:induction false} ShellLoads(h: Graph, a: nat, t: Table, l: Binding, g: Store, rest: seq<byte>)
    requires Sound(h) && a in h && a !in t && InStep(h, t, l, g) && !h[a].Raw? && h[a] != Elems([])
    ensures var x := h[a];
            var k := SaveAll(h, Kids(x), t[a := |t|]);
            Comes(h, Ptr(a), t, k.table, l, g, rest, LoadNode(|t|, Filled(x, []), |Kids(x)|, k.bytes + rest, l, g))
    decreases h.Keys - t.Keys, 0, 0
  {
    var x, t1, l1, g1 := h[a], t[a := |t|], l[|t| := |g|], g + [Filled(h[a], [])];
    var k := SaveAll(h, Kids(x), t1);
    assert a in h.Keys - t.Keys && a !in h.Keys - t1.Keys;
    Binds(h, a, t, l, g, Filled(x, []));
    AllSavedLoad(h, Kids(x), t1, l1, g1, rest);
    var r := LoadAll(|Kids(x)|, k.bytes + rest, l1, g1);
    var y := Filled(Filled(x, []), r.vs);
    Completed(h, a, t, t1, k.table, l, l1, g, g1, rest, r, y, r.store[|g| := y]);
  }

  // The shell is filled once the pointers are there: `t1`, `l1` and `g1` are
  // tables and store with the shell, `g2` is the store at the end.
  lemma Completed(h: Graph, a: nat, t: Table, t1: Table, t2: Table, l: Binding, l1: Binding, g: Store, g1: Store,
                  rest: seq<byte>, r: LoadedAll, y: Node, g2: Store)
    requires Sound(h) && a in h && a !in t && InStep(h, t, l, g) && !h[a].Raw? && h[a] != Elems([])
    requires t1 == t[a := |t|] && l1 == l[|t| := |g|] && g1 == g + [Filled(h[a], [])] && Grows(t1, t2)
    requires AllCome(h, Kids(h[a]), t1, t2, l1, g1, rest, r)
    requires |g| < |r.store| && y == Filled(Filled(h[a], []), r.vs) && g2 == r.store[|g| := y]
    ensures Comes(h, Ptr(a), t, t2, l, g, rest, Loaded(Ptr(|g|), rest, r.binding, g2))
  {
    var l2 := r.binding;
    BoundFirst(h, a, t, t1, t2, l, l1, l2, g);
    Untouched(g, g1, r.store, y, g2);
    FilledInStep(h, t2, l2, r.store, |g|, y, g2);
    FilledShell(h[a], r.vs, t2, l2, y);
    FilledRestored(h, a, t, t1, t2, l2, g, g1, r.store, y, g2);
  }

  lemma FilledShell(x: Node, vs: seq<Val>, t: Table, l: Binding, y: Node)
    requires !x.Raw? && vs == Images(Kids(x), t, l) && y == Filled(Filled(x, []), vs)
    ensures y == NodeImage(x, t, l)
  {
  }

  // The number and the address the shell was given stay its own.
  lemma BoundFirst(h: Graph, a: nat, t: Table, t1: Table, t2: Table, l: Binding, l1: Binding, l2: Binding, g: Store)
    requires InStep(h, t, l, g) && a !in t && t1 == t[a := |t|] && l1 == l[|t| := |g|]
    requires Grows(t1, t2) && Keeps(l1, l2)
    ensures a in t2 && t2[a] == |t| && |t| in l2 && l2[|t|] == |g| && Keeps(l, l2) && t1.Keys == t.Keys + {a}
  {
    assert l1[|t|] == |g| && t1[a] == |t| && |t| !in l;
  }

  lemma Untouched(g: Store, g1: Store, z: Store, y: Node, g2: Store)
    requires |g1| == |g| + 1 <= |z| && g1[..|g|] == g && z[..|g1|] == g1 && g2 == z[|g| := y]
    ensures g2[..|g|] == g
  {
    assert g2[..|g|] == z[..|g1|][..|g|];
  }

  lemma FilledInStep(h: Graph, t: Table, l: Binding, g: Store, i: nat, x: Node, g2: Store)
    requires InStep(h, t, l, g) && 0 < i < |g| && g2 == g[i := x]
    ensures InStep(h, t, l, g2)
  {
  }

  lemma FilledRestored(h: Graph, a: nat, t: Table, t1: Table, t2: Table, l: Binding, g: Store, g0: Store, g1: Store,
                       y: Node, g2: Store)
    requires InStep(h, t2, l, g1) && a in t2 && a !in t && |g| < |g1| == |g2| && 0 < |g| && l[t2[a]] == |g|
    requires y == NodeImage(h[a], t2, l) && g2 == g1[|g| := y] && g2[..|g|] == g && Bound(Kids(h[a]), t2)
    requires t1.Keys == t.Keys + {a} && |g0| == |g| + 1 && Restored(h, t1, t2, l, g0, g1)
    ensures Restored(h, t, t2, l, g, g2)
  {
    forall b | b in t2 && b !in t
      ensures ImageAt(h, b, t2, l, |g|, g2)
    {
      if b != a {
        assert ImageAt(h, b, t2, l, |g0|, g1);
      }
    }
  }

  lemma {:induction false} AllSavedLoad(h: Graph, vs: seq<Val>, t: Table, l: Binding, g: Store, rest: seq<byte>)
    requires Sound(h) && AllIn(h, vs) && InStep(h, t, l, g)
    ensures var s := SaveAll(h, vs, t); AllCome(h, vs, t, s.table, l, g, rest, LoadAll(|vs|, s.bytes + rest, l, g))
    decreases h.Keys - t.Keys, 2, |vs|
  {
    if vs == [] {
      NoneLoad(h, t, l, g, rest);
    } else {
      var s1 := Save(h, vs[0], t);
      var s2 := SaveAll(h, vs[1..], s1.table);
      SavedLoads(h, vs[0], t, l, g, s2.bytes + rest);
      var r1 := Load(s1.bytes + (s2.bytes + rest), l, g);
      AllSavedLoad(h, vs[1..], s1.table, r1.binding, r1.store, rest);
      var r2 := LoadAll(|vs[1..]|, s2.bytes + rest, r1.binding, r1.store);
      BothCome(h, vs, t, s1.table, s2.table, l, g, rest, r1, r2);
      FirstThenRest(h, vs, t, l, g, rest, |vs|, |vs[1..]|, s1, s2, r1, r2);
    }
  }

  lemma NoneLoad(h: Graph, t: Table, l: Binding, g: Store, rest: seq<byte>)
    requires Sound(h) && InStep(h, t, l, g)
    ensures var s := SaveAll(h, [], t); AllCome(h, [], t, s.table, l, g, rest, LoadAll(0, s.bytes + rest, l, g))
  {
    NoneSaved(h, t);
    NoneRead(rest, l, g);
    Unchanged(h, t, l, g, rest);
  }

  lemma NoneSaved(h: Graph, t: Table)
    requires Sound(h) && t.Keys <= h.Keys
    ensures SaveAll(h, [], t) == Saved([], t)
  {
    SaveAllDef(h, [], t);
  }

  lemma NoneRead(rest: seq<byte>, l: Binding, g: Store)
    ensures LoadAll(0, [] + rest, l, g) == LoadedAll([], rest, l, g)
  {
    assert [] + rest == rest;
    LoadAllDef(0, rest, l, g);
  }

  lemma Unchanged(h: Graph, t: Table, l: Binding, g: Store, rest: seq<byte>)
    requires InStep(h, t, l, g)
    ensures AllCome(h, [], t, t, l, g, rest, LoadedAll([], rest, l, g))
  {
    assert g[..|g|] == g;
  }

  // What is read of the first value and then of the others.
  lemma FirstThenRest(h: Graph, vs: seq<Val>, t: Table, l: Binding, g: Store, rest: seq<byte>, n: nat, m: nat,
                      s1: Saved, s2: Saved, r1: Loaded, r2: LoadedAll)
    requires Sound(h) && AllIn(h, vs) && t.Keys <= h.Keys && vs != [] && n == m + 1
    requires s1 == Save(h, vs[0], t) && s2 == SaveAll(h, vs[1..], s1.table)
    requires r1 == Load(s1.bytes + (s2.bytes + rest), l, g) && r1.Loaded?
    requires r2 == LoadAll(m, r1.rest, r1.binding, r1.store) && r2.LoadedAll?
    ensures SaveAll(h, vs, t).table == s2.table
    ensures LoadAll(n, SaveAll(h, vs, t).bytes + rest, l, g) == r2.(vs := [r1.v] + r2.vs)
  {
    SaveAllDef(h, vs, t);
    assert s1.bytes + s2.bytes + rest == s1.bytes + (s2.bytes + rest);
    LoadAllDef(n, s1.bytes + (s2.bytes + rest), l, g);
  }

  lemma BothCome(h: Graph, vs: seq<Val>, t: Table, t1: Table, t2: Table, l: Binding, g: Store, rest: seq<byte>,
                 r1: Loaded, r2: LoadedAll)
    requires vs != [] && Grows(t, t1) && Grows(t1, t2) && (vs[0].Ptr? ==> vs[0].a in t1)
    requires r1.Loaded? && Comes(h, vs[0], t, t1, l, g, r1.rest, r1)
    requires AllCome(h, vs[1..], t1, t2, r1.binding, r1.store, rest, r2)
    ensures AllCome(h, vs, t, t2, l, g, rest, r2.(vs := [r1.v] + r2.vs))
  {
    ImageGrows(vs[0], t1, r1.binding, t2, r2.binding);
    FirstAndRest(vs, t2, r2.binding);
    RestoredTwice(h, t, t1, r1.binding, g, r1.store, t2, r2.binding, r2.store);
  }

  lemma FirstAndRest(vs: seq<Val>, t: Table, l: Binding)
    requires vs != [] && (vs[0].Ptr? ==> vs[0].a in t) && Bound(vs[1..], t)
    ensures Images(vs, t, l) == [Image(vs[0], t, l)] + Images(vs[1..], t, l) && Bound(vs, t)
  {
    forall i | 0 <= i < |vs| && vs[i].Ptr?
      ensures vs[i].a in t
    {
      assert i > 0 ==> vs[i] == vs[1..][i - 1];
    }
  }
}
