// What a checkpoint preserves: a graph isomorphism onto the loaded heap.
module Checkpoints {
  import opened Bytes
  import opened Values
  import opened Graphs
  import opened RoundTrip

  // ---- Different objects stay different, and nothing else is made ----

  // Objects saved and addresses filled, apart from the empty vector's, are in
  // one-to-one correspondence.
  ghost predicate Faithful(t: Table, l: Binding, size: nat) {
    && (forall a | a in t :: t[a] in l)
    && (forall a, b {:trigger t[a], t[b]} | a in t && b in t && l[t[a]] == l[t[b]] :: a == b)
    && (forall p | 0 < p < size :: Owned(t, l, p))
  }

  ghost predicate Owned(t: Table, l: Binding, p: nat) {
    exists a :: a in t && t[a] in l && l[t[a]] == p
  }

  lemma OwnedGrows(t: Table, l: Binding, t2: Table, l2: Binding, size: nat)
    requires Grows(t, t2) && Keeps(l, l2) && forall p | 0 < p < size :: Owned(t, l, p)
    ensures forall p | 0 < p < size :: Owned(t2, l2, p)
  {
    forall p | 0 < p < size
      ensures Owned(t2, l2, p)
    {
      assert Owned(t, l, p);
      var a :| a in t && t[a] in l && l[t[a]] == p;
      assert t2[a] == t[a];
    }
  }

  // Binding the next number to a new address.
  lemma BindFaithful(h: Graph, a: nat, t: Table, l: Binding, g: Store)
    requires a in h && a !in t && InStep(h, t, l, g) && Faithful(t, l, |g|)
    ensures Faithful(t[a := |t|], l[|t| := |g|], |g| + 1)
  {
    var t1, l1 := t[a := |t|], l[|t| := |g|];
    OwnedGrows(t, l, t1, l1, |g|);
    assert Owned(t1, l1, |g|) by { assert t1[a] == |t|; }
    forall b | b in t
      ensures t1[b] == t[b] && l1[t1[b]] == l[t[b]] < |g|
    {
    }
  }

  // Binding it to the empty vector, which only one object is.
  lemma BindZeroFaithful(h: Graph, a: nat, t: Table, l: Binding, g: Store)
    requires Sound(h) && a in h && a !in t && InStep(h, t, l, g) && Faithful(t, l, |g|) && h[a] == Elems([])
    ensures Faithful(t[a := |t|], l[|t| := ZERO], |g|)
  {
    var t1, l1 := t[a := |t|], l[|t| := ZERO];
    OwnedGrows(t, l, t1, l1, |g|);
    forall b | b in t
      ensures t1[b] == t[b] && l1[t1[b]] == l[t[b]] != ZERO
    {
      assert h[b] == Elems([]) ==> b == ZERO == a;
    }
  }

  lemma {:induction false} SaveFaithful(h: Graph, v: Val, t: Table, l: Binding, g: Store, rest: seq<byte>)
    requires Sound(h) && In(h, v) && InStep(h, t, l, g) && Faithful(t, l, |g|)
    ensures var s := Save(h, v, t);
            var r := Load(s.bytes + rest, l, g);
            r.Loaded? && Faithful(s.table, r.binding, |r.store|)
    decreases h.Keys - t.Keys, 1, 0
  {
    if v.Ptr? && v.a !in t {
      NewFaithful(h, v.a, t, l, g, rest);
    } else {
      ShortFaithful(h, v, t, l, g, rest);
    }
  }

  // Nothing new: table and binding are as they were.
  lemma ShortFaithful(h: Graph, v: Val, t: Table, l: Binding, g: Store, rest: seq<byte>)
    requires Sound(h) && In(h, v) && InStep(h, t, l, g) && Faithful(t, l, |g|) && (v.Ptr? ==> v.a in t)
    ensures var s := Save(h, v, t);
            var r := Load(s.bytes + rest, l, g);
            r.Loaded? && Faithful(s.table, r.binding, |r.store|)
  {
    var s := Save(h, v, t);
    SavedLoads(h, v, t, l, g, rest);
    SaveDef(h, v, t);
    LoadDef(s.bytes + rest, l, g);
    var r := LoadValue(s.bytes + rest, l, g);
    if v.Ptr? {
      SubsetSize(t.Keys, h.Keys);
      WordLoads(REF, Be32(t[v.a]), rest);
      WordDecodes(t[v.a]);
    }
    assert r.binding == l && r.store == g;
  }

  lemma {:induction false} NewFaithful(h: Graph, a: nat, t: Table, l: Binding, g: Store, rest: seq<byte>)
    requires Sound(h) && a in h && a !in t && InStep(h, t, l, g) && Faithful(t, l, |g|)
    ensures var s := Save(h, Ptr(a), t);
            var r := Load(s.bytes + rest, l, g);
            r.Loaded? && Faithful(s.table, r.binding, |r.store|)
    decreases h.Keys - t.Keys, 0, 3
  {
    NewObjectOutcome(h, a, t, l, g, rest);
    NodeFaithful(h, a, t, l, g, rest);
  }

  lemma {:induction false} NodeFaithful(h: Graph, a: nat, t: Table, l: Binding, g: Store, rest: seq<byte>)
    requires Sound(h) && a in h && a !in t && InStep(h, t, l, g) && Faithful(t, l, |g|)
    ensures var x := h[a];
            var k := SaveAll(h, Kids(x), t[a := |t|]);
            var r := LoadObject(|t|, Kinded(x), Payload(x) + k.bytes + rest, l, g);
            r.Loaded? && Faithful(k.table, r.binding, |r.store|)
    decreases h.Keys - t.Keys, 0, 2
  {
    var x := h[a];
    if x.Raw? {
      SaveAllDef(h, [], t[a := |t|]);
      RawOutcome(x, |t|, rest, l, g);
      BindFaithful(h, a, t, l, g);
    } else if x == Elems([]) {
      SaveAllDef(h, [], t[a := |t|]);
      ZeroOutcome(|t|, rest, l, g);
      BindZeroFaithful(h, a, t, l, g);
    } else {
      FilledFaithful(h, a, t, l, g, rest);
    }
  }

  lemma {:induction false} FilledFaithful(h: Graph, a: nat, t: Table, l: Binding, g: Store, rest: seq<byte>)
    requires Sound(h) && a in h && a !in t && InStep(h, t, l, g) && Faithful(t, l, |g|)
    requires !h[a].Raw? && h[a] != Elems([])
    ensures var x := h[a];
            var k := SaveAll(h, Kids(x), t[a := |t|]);
            var r := LoadObject(|t|, Kinded(x), Payload(x) + k.bytes + rest, l, g);
            r.Loaded? && Faithful(k.table, r.binding, |r.store|)
    decreases h.Keys - t.Keys, 0, 1
  {
    FilledOutcome(h[a], |t|, SaveAll(h, Kids(h[a]), t[a := |t|]).bytes, rest, l, g);
    ShellFaithful(h, a, t, l, g, rest);
  }

  lemma {:induction false} ShellFaithful(h: Graph, a: nat, t: Table, l: Binding, g: Store, rest: seq<byte>)
    requires Sound(h) && a in h && a !in t && InStep(h, t, l, g) && Faithful(t, l, |g|)
    requires !h[a].Raw? && h[a] != Elems([])
    ensures var k := SaveAll(h, Kids(h[a]), t[a := |t|]);
            var r := LoadNode(|t|, Filled(h[a], []), |Kids(h[a])|, k.bytes + rest, l, g);
            r.Loaded? && Faithful(k.table, r.binding, |r.store|)
    decreases h.Keys - t.Keys, 0, 0
  {
    var x, t1, l1, g1 := h[a], t[a := |t|], l[|t| := |g|], g + [Filled(h[a], [])];
    assert a in h.Keys - t.Keys && a !in h.Keys - t1.Keys;
    Binds(h, a, t, l, g, Filled(x, []));
    BindFaithful(h, a, t, l, g);
    AllFaithful(h, Kids(x), t1, l1, g1, rest);
  }

  lemma {:induction false} AllFaithful(h: Graph, vs: seq<Val>, t: Table, l: Binding, g: Store, rest: seq<byte>)
    requires Sound(h) && AllIn(h, vs) && InStep(h, t, l, g) && Faithful(t, l, |g|)
    ensures var s := SaveAll(h, vs, t);
            var r := LoadAll(|vs|, s.bytes + rest, l, g);
            r.LoadedAll? && Faithful(s.table, r.binding, |r.store|)
    decreases h.Keys - t.Keys, 2, |vs|
  {
    var s := SaveAll(h, vs, t);
    SaveAllDef(h, vs, t);
    LoadAllDef(|vs|, s.bytes + rest, l, g);
    if vs == [] {
      assert [] + rest == rest;
    } else {
      var s1 := Save(h, vs[0], t);
      var s2 := SaveAll(h, vs[1..], s1.table);
      assert s.bytes + rest == s1.bytes + (s2.bytes + rest);
      SavedLoads(h, vs[0], t, l, g, s2.bytes + rest);
      SaveFaithful(h, vs[0], t, l, g, s2.bytes + rest);
      var r1 := Load(s1.bytes + (s2.bytes + rest), l, g);
      AllFaithful(h, vs[1..], s1.table, r1.binding, r1.store, rest);
    }
  }

  // ---- What is saved ----

  // A set of objects that holds what its members point to, as far as pointers
  // are followed.
  predicate Closed(h: Graph, c: set<nat>) {
    c <= h.Keys && forall a | a in c :: Within(Kids(h[a]), c)
  }

  lemma {:induction false} SavesWithin(h: Graph, v: Val, t: Table, c: set<nat>)
    requires Sound(h) && Closed(h, c) && In(h, v) && t.Keys <= c && (v.Ptr? ==> v.a in c)
    ensures Save(h, v, t).table.Keys <= c
    decreases h.Keys - t.Keys, 1, 0
  {
    SaveDef(h, v, t);
    if v.Ptr? && v.a !in t {
      var t1 := t[v.a := |t|];
      assert v.a in h.Keys - t.Keys && v.a !in h.Keys - t1.Keys;
      AllSaveWithin(h, Kids(h[v.a]), t1, c);
    }
  }

  lemma {:induction false} AllSaveWithin(h: Graph, vs: seq<Val>, t: Table, c: set<nat>)
    requires Sound(h) && Closed(h, c) && AllIn(h, vs) && t.Keys <= c && Within(vs, c)
    ensures SaveAll(h, vs, t).table.Keys <= c
    decreases h.Keys - t.Keys, 2, |vs|
  {
    SaveAllDef(h, vs, t);
    if vs != [] {
      SavesWithin(h, vs[0], t, c);
      AllSaveWithin(h, vs[1..], Save(h, vs[0], t).table, c);
    }
  }

  // ---- The isomorphism ----

  const FRESH: Store := [Elems([])]

  function Follow(v: Val, f: map<nat, nat>): Val {
    match v
    case Nothing => Nothing
    case Int(n) => Int(Wrap32(n))
    case Singleton(k) => Singleton(k % 256)
    case Ptr(a) => if a in f then Ptr(f[a]) else Nothing
  }

  predicate Mapped(vs: seq<Val>, ws: seq<Val>, f: map<nat, nat>) {
    |ws| == |vs| && forall i | 0 <= i < |vs| :: ws[i] == Follow(vs[i], f)
  }

  predicate NodeMapped(x: Node, y: Node, f: map<nat, nat>) {
    match x
    case Plain(flags, fin, fields) => y.Plain? && y.flags == flags && y.finalize == fin && Mapped(fields, y.fields, f)
    case Raw(bytes) => y == Raw(bytes)
    case Typed(kind, fin, elems) => y.Typed? && y.kind == kind && y.finalize == fin && Mapped(Kids(x), y.elems, f)
    case Elems(elems) => y.Elems? && Mapped(elems, y.elems, f)
  }

  ghost predicate Hit(f: map<nat, nat>, p: nat) {
    exists a :: a in f && f[a] == p
  }

  // `f` takes the objects reachable from the roots, one to one, to the loaded
  // objects: same kinds, flags, bytes, sharing and cycles.
  ghost predicate Isomorphic(h: Graph, roots: seq<Val>, f: map<nat, nat>, vs: seq<Val>, g: Store) {
    && Closed(h, f.Keys) && Within(roots, f.Keys)
    && (forall c | Closed(h, c) && Within(roots, c) :: f.Keys <= c)
    && (forall a, b {:trigger f[a], f[b]} | a in f && b in f && f[a] == f[b] :: a == b)
    && Mapped(roots, vs, f)
    && (forall a | a in f :: f[a] < |g| && NodeMapped(h[a], g[f[a]], f))
    && (forall p | 0 < p < |g| :: Hit(f, p))
  }

  function Composed(t: Table, l: Binding): map<nat, nat>
    requires forall a | a in t :: t[a] in l
  {
    map a | a in t :: l[t[a]]
  }

  lemma ImagesMapped(vs: seq<Val>, t: Table, l: Binding)
    requires (forall a | a in t :: t[a] in l) && Bound(vs, t)
    ensures Mapped(vs, Images(vs, t, l), Composed(t, l))
  {
    forall i | 0 <= i < |vs|
      ensures Images(vs, t, l)[i] == Follow(vs[i], Composed(t, l))
    {
    }
  }

  lemma FaithfulIsOneToOne(t: Table, l: Binding, size: nat)
    requires Faithful(t, l, size)
    ensures var f := Composed(t, l);
            && (forall a, b {:trigger f[a], f[b]} | a in f && b in f && f[a] == f[b] :: a == b)
            && (forall p | 0 < p < size :: Hit(f, p))
  {
    var f := Composed(t, l);
    forall a, b | a in f && b in f && f[a] == f[b]
      ensures a == b
    {
      assert l[t[a]] == l[t[b]];
    }
    forall p | 0 < p < size
      ensures Hit(f, p)
    {
      assert Owned(t, l, p);
      var a :| a in t && t[a] in l && l[t[a]] == p;
      assert f[a] == p;
    }
  }

  // Any heap, cyclic and shared, and any roots written through one handle:
  // reading as many roots back from the start of those bytes, whatever
  // follows them, consumes exactly those bytes and gives an isomorphic graph
  // of everything reachable and nothing more.
  lemma CheckpointRoundTrip(h: Graph, roots: seq<Val>, rest: seq<byte>)
    requires Sound(h) && AllIn(h, roots)
    ensures var s := SaveAll(h, roots, map[]);
            var r := LoadAll(|roots|, s.bytes + rest, map[], FRESH);
            && r.LoadedAll? && r.rest == rest
            && (forall a | a in s.table :: s.table[a] in r.binding)
            && Isomorphic(h, roots, Composed(s.table, r.binding), r.vs, r.store)
  {
    var t: Table, l: Binding := map[], map[];
    var s := SaveAll(h, roots, t);
    AllSavedLoad(h, roots, t, l, FRESH, rest);
    AllFaithful(h, roots, t, l, FRESH, rest);
    var r := LoadAll(|roots|, s.bytes + rest, l, FRESH);
    var f := Composed(s.table, r.binding);
    FaithfulIsOneToOne(s.table, r.binding, |r.store|);
    ImagesMapped(roots, s.table, r.binding);
    forall a | a in f
      ensures f[a] < |r.store| && NodeMapped(h[a], r.store[f[a]], f) && Within(Kids(h[a]), f.Keys)
    {
      assert ImageAt(h, a, s.table, r.binding, |FRESH|, r.store);
      ImagesMapped(Kids(h[a]), s.table, r.binding);
    }
    forall c | Closed(h, c) && Within(roots, c)
      ensures f.Keys <= c
    {
      AllSaveWithin(h, roots, t, c);
    }
  }

  // A number comes back as it was exactly if it fits thirty-two bits.
  lemma NumbersKept(n: int, f: map<nat, nat>)
    ensures Follow(Int(n), f) == Int(n) <==> -0x8000_0000 <= n < 0x8000_0000
  {
  }
}
