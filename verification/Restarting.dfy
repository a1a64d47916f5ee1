// Threads in a checkpoint: which are written, how, and what becomes of them
// when the file is read.
module Restarting {
  import opened Bytes
  import opened Values
  import opened Graphs
  import opened RoundTrip
  import opened Checkpoints
  import Reading

  type Int32 = x: int | -0x8000_0000 <= x < 0x8000_0000

  // The registers kept outside the heap; `state` says how long the thread may
  // still run.
  datatype Counters = Counters(ip: Int32, top: Int32, state: Int32, locked: Int32)

  // `regs` is the address of the vector with the other registers; its first
  // element is the accumulator.
  datatype Thread = Thread(number: Int32, c: Counters, regs: nat)

  const NOQUOTA := -2
  const YIELD_VAL := Singleton(3)

  predicate Restartable(c: Counters) {
    c.state != DYING && c.state != NOQUOTA
  }

  // ---- Writing ----

  const END: seq<byte> := [255, 255, 255, 255]

  function ThreadHeader(n: Int32, c: Counters): (r: seq<byte>)
    ensures |r| == 20
  {
    Be32(n) + Be32(c.ip) + Be32(c.top) + Be32(c.state) + Be32(c.locked)
  }

  predicate RecordsIn(h: Graph, ts: seq<Thread>) {
    forall i | 0 <= i < |ts| :: Restartable(ts[i].c) ==> ts[i].regs in h
  }

  function SaveThreads(h: Graph, ts: seq<Thread>, t: Table): (r: Saved)
    requires Sound(h) && RecordsIn(h, ts) && t.Keys <= h.Keys
    ensures r.table.Keys <= h.Keys
  {
    if ts == [] then Saved([], t)
    else if !Restartable(ts[0].c) then SaveThreads(h, ts[1..], t)
    else
      var r := Save(h, Ptr(ts[0].regs), t);
      var k := SaveThreads(h, ts[1..], r.table);
      Saved(ThreadHeader(ts[0].number, ts[0].c) + r.bytes + k.bytes, k.table)
  }

  // Symbol table, threads, end mark.
  function CheckpointBytes(h: Graph, symtab: nat, ts: seq<Thread>): seq<byte>
    requires Sound(h) && symtab in h && RecordsIn(h, ts)
  {
    var s := Save(h, Ptr(symtab), map[]);
    s.bytes + SaveThreads(h, ts, s.table).bytes + END
  }

  // ---- Reading ----

  // A thread that was waiting finds `undefined` in its accumulator.
  function Settle(g: Store, p: nat): (r: Store)
    ensures |r| == |g|
  {
    if p < |g| && Waiter(g[p]) then g[p := Settled(g[p])] else g
  }

  predicate Waiter(x: Node) {
    x.Elems? && x.elems != [] && x.elems[0] == YIELD_VAL
  }

  function Settled(x: Node): Node {
    if Waiter(x) then Elems(x.elems[0 := UNDEFINED_VAL]) else x
  }

  datatype Restored = Restored(ts: seq<Thread>, rest: seq<byte>, binding: Binding, store: Store) | Broken

  function CountersAt(bs: seq<byte>): Counters
    requires |bs| >= 20
  {
    Counters(Signed32(bs[4..8]), Signed32(bs[8..12]), Signed32(bs[12..16]), Signed32(bs[16..20]))
  }

  function LoadThreads(bs: seq<byte>, l: Binding, g: Store): Restored
    decreases |bs|
  {
    if |bs| < 4 then Broken
    else
      var n := Signed32(bs[..4]);
      if n == -1 then Restored([], bs[4..], l, g)
      else if |bs| < 20 then Broken
      else
        match Load(bs[20..], l, g)
        case Failed => Broken
        case Loaded(v, rest, l1, g1) =>
          if !v.Ptr? then Broken
          else
            match LoadThreads(rest, l1, Settle(g1, v.a))
            case Broken => Broken
            case Restored(ts, rest2, l2, g2) => Restored([Thread(n, CountersAt(bs), v.a)] + ts, rest2, l2, g2)
  }

  datatype Checkpoint = Checkpoint(symtab: Val, threads: Restored)

  function LoadCheckpoint(bs: seq<byte>): Checkpoint {
    match Load(bs, map[], FRESH)
    case Failed => Checkpoint(Nothing, Broken)
    case Loaded(v, rest, l, g) => Checkpoint(v, LoadThreads(rest, l, g))
  }

  // ---- What comes back ----

  function Kept(ts: seq<Thread>): seq<Thread> {
    if ts == [] then []
    else if Restartable(ts[0].c) then [ts[0]] + Kept(ts[1..])
    else Kept(ts[1..])
  }

  function Records(ts: seq<Thread>): (r: seq<Val>)
    ensures |r| == |ts|
  {
    seq(|ts|, i requires 0 <= i < |ts| => Ptr(ts[i].regs))
  }

  // The threads with new register vectors.
  function Reborn(ts: seq<Thread>, vs: seq<Val>): seq<Thread>
    requires |vs| == |ts| && forall i | 0 <= i < |vs| :: vs[i].Ptr?
  {
    seq(|ts|, i requires 0 <= i < |ts| => ts[i].(regs := vs[i].a))
  }

  function SettleAll(g: Store, ts: seq<Thread>): (r: Store)
    ensures |r| == |g|
    decreases ts
  {
    if ts == [] then g else SettleAll(Settle(g, ts[0].regs), ts[1..])
  }

  lemma {:induction false} KeptIn(h: Graph, ts: seq<Thread>)
    requires RecordsIn(h, ts)
    ensures AllIn(h, Records(Kept(ts)))
  {
    if ts != [] {
      KeptIn(h, ts[1..]);
      var rs := Records(Kept(ts));
      if Restartable(ts[0].c) {
        assert rs == [Ptr(ts[0].regs)] + Records(Kept(ts[1..]));
      }
    }
  }

  lemma HeaderReads(n: Int32, c: Counters, tail: seq<byte>)
    ensures var bs := ThreadHeader(n, c) + tail;
            Signed32(bs[..4]) == n && CountersAt(bs) == c && bs[20..] == tail
  {
    SignedReads(n, Be32(n));
    SignedReads(c.ip, Be32(c.ip));
    SignedReads(c.top, Be32(c.top));
    SignedReads(c.state, Be32(c.state));
    SignedReads(c.locked, Be32(c.locked));
    Words(Be32(n), Be32(c.ip), Be32(c.top), Be32(c.state), Be32(c.locked), tail);
  }

  lemma SignedReads(n: Int32, w: seq<byte>)
    requires w == Be32(n)
    ensures Signed32(w) == n
  {
    Be32Decodes(n);
    Wrap32Same(n);
  }

  lemma Words(a: seq<byte>, b: seq<byte>, c: seq<byte>, d: seq<byte>, e: seq<byte>, tail: seq<byte>)
    requires |a| == 4 && |b| == 4 && |c| == 4 && |d| == 4 && |e| == 4
    ensures var bs := a + b + c + d + e + tail;
            bs[..4] == a && bs[4..8] == b && bs[8..12] == c && bs[12..16] == d && bs[16..20] == e && bs[20..] == tail
  {
  }

  lemma EndReads(rest: seq<byte>)
    ensures Signed32((END + rest)[..4]) == -1 && (END + rest)[4..] == rest
  {
    assert (END + rest)[..4] == END;
  }

  lemma SettleTail(g: Store, tail: Store, p: nat)
    requires p < |g|
    ensures Settle(g + tail, p) == Settle(g, p) + tail
  {
  }

  // Reading the threads is reading their register vectors as roots, one after
  // another, except that waiters are settled in between.
  lemma {:induction false} ThreadsLoad(h: Graph, ts: seq<Thread>, t: Table, l: Binding, g: Store, g2: Store,
                                       rest: seq<byte>)
    requires Sound(h) && RecordsIn(h, ts) && InStep(h, t, l, g) && |g2| == |g|
    requires forall i | 0 <= i < |ts| :: ts[i].number != -1
    ensures AllIn(h, Records(Kept(ts)))
    ensures var k := SaveAll(h, Records(Kept(ts)), t);
            var p := LoadAll(|Kept(ts)|, k.bytes, l, g);
            && k.table == SaveThreads(h, ts, t).table
            && p.LoadedAll? && |g| <= |p.store| && (forall i | 0 <= i < |p.vs| :: p.vs[i].Ptr?)
            && LoadThreads(SaveThreads(h, ts, t).bytes + END + rest, l, g2) ==
               Restored(Reborn(Kept(ts), p.vs), rest, p.binding, SettleAll(g2 + p.store[|g|..], Reborn(Kept(ts), p.vs)))
    decreases ts, 1
  {
    KeptIn(h, ts);
    if ts == [] {
      NoThreads(h, t, l, g, g2, rest);
    } else if !Restartable(ts[0].c) {
      ThreadsLoad(h, ts[1..], t, l, g, g2, rest);
    } else {
      FirstThread(h, ts, t, l, g, g2, rest);
    }
  }

  lemma NoThreads(h: Graph, t: Table, l: Binding, g: Store, g2: Store, rest: seq<byte>)
    requires Sound(h) && t.Keys <= h.Keys && |g2| == |g|
    ensures LoadAll(0, SaveAll(h, [], t).bytes, l, g) == LoadedAll([], [], l, g) && SaveAll(h, [], t).table == t
    ensures LoadThreads([] + END + rest, l, g2) == Restored([], rest, l, g2 + g[|g|..])
  {
    SaveAllDef(h, [], t);
    LoadAllDef(0, [], l, g);
    EndReads(rest);
    assert [] + END + rest == END + rest && g2 + g[|g|..] == g2;
  }

  // The first of several roots, and the others after it.
  lemma FirstRoot(h: Graph, a: nat, vs: seq<Val>, n: nat, t: Table, l: Binding, g: Store)
    requires n == |vs| && Sound(h) && a in h && AllIn(h, [Ptr(a)] + vs) && InStep(h, t, l, g)
    ensures AllIn(h, vs)
    ensures var s1 := Save(h, Ptr(a), t);
            var r1 := Load(s1.bytes, l, g);
            var k, k2 := SaveAll(h, [Ptr(a)] + vs, t), SaveAll(h, vs, s1.table);
            && r1.Loaded? && r1.v.Ptr? && r1.rest == [] && InStep(h, s1.table, r1.binding, r1.store)
            && r1.v.a < |r1.store| && |g| <= |r1.store| && r1.store[..|g|] == g
            && k.table == k2.table
            && LoadAll(1 + n, k.bytes, l, g) == Behind(r1.v, LoadAll(n, k2.bytes, r1.binding, r1.store))
  {
    FirstSaved(h, Ptr(a), vs, t);
    var s1 := Save(h, Ptr(a), t);
    RootAlone(h, a, t, l, g);
    RootThenMore(s1.bytes, SaveAll(h, vs, s1.table).bytes, n, l, g);
  }

  // The same of `p`, what all the roots read as.
  lemma FirstRootAs(h: Graph, a: nat, vs: seq<Val>, n: nat, t: Table, l: Binding, g: Store, m: nat, p: LoadedAll,
                    s1: Saved, r1: Loaded)
    requires n == |vs| && Sound(h) && a in h && AllIn(h, [Ptr(a)] + vs) && InStep(h, t, l, g)
    requires m == 1 + n && p == LoadAll(m, SaveAll(h, [Ptr(a)] + vs, t).bytes, l, g)
    requires s1 == Save(h, Ptr(a), t) && r1 == Load(s1.bytes, l, g)
    ensures AllIn(h, vs) && s1.table.Keys <= h.Keys
    ensures r1.Loaded? && r1.v.Ptr? && InStep(h, s1.table, r1.binding, r1.store)
    ensures p == Behind(r1.v, LoadAll(n, SaveAll(h, vs, s1.table).bytes, r1.binding, r1.store))
  {
    FirstRoot(h, a, vs, n, t, l, g);
  }

  lemma FirstSaved(h: Graph, v: Val, vs: seq<Val>, t: Table)
    requires Sound(h) && AllIn(h, [v] + vs) && t.Keys <= h.Keys
    ensures In(h, v) && AllIn(h, vs)
    ensures var s1 := Save(h, v, t);
            var k2 := SaveAll(h, vs, s1.table);
            SaveAll(h, [v] + vs, t) == Saved(s1.bytes + k2.bytes, k2.table)
  {
    var all := [v] + vs;
    OthersIn(h, v, vs);
    assert all[1..] == vs && all[0] == v;
    SaveAllDef(h, all, t);
  }

  lemma RootAlone(h: Graph, a: nat, t: Table, l: Binding, g: Store)
    requires Sound(h) && a in h && InStep(h, t, l, g)
    ensures var s1 := Save(h, Ptr(a), t);
            var r1 := Load(s1.bytes, l, g);
            && r1.Loaded? && r1.v.Ptr? && r1.rest == [] && InStep(h, s1.table, r1.binding, r1.store)
            && r1.v.a < |r1.store| && |g| <= |r1.store| && r1.store[..|g|] == g
  {
    var s1 := Save(h, Ptr(a), t);
    assert s1.bytes + [] == s1.bytes;
    SavedLoads(h, Ptr(a), t, l, g, []);
  }

  lemma RootThenMore(bs: seq<byte>, more: seq<byte>, n: nat, l: Binding, g: Store)
    requires Load(bs, l, g).Loaded? && Load(bs, l, g).rest == []
    ensures var r1 := Load(bs, l, g);
            LoadAll(1 + n, bs + more, l, g) == Behind(r1.v, LoadAll(n, more, r1.binding, r1.store))
  {
    var r1 := Load(bs, l, g);
    Reading.LoadElsewhere(bs, more, l, g, g);
    SameGrowth(r1.store, Load(bs + more, l, g).store, g, more);
    LoadAllDef(1 + n, bs + more, l, g);
  }

  lemma SameGrowth(s: Store, s2: Store, g: Store, bs: seq<byte>)
    requires Reading.Later(s, s2, g, g)
    ensures s2 == s && [] + bs == bs
  {
  }

  lemma OthersIn(h: Graph, v: Val, vs: seq<Val>)
    requires AllIn(h, [v] + vs)
    ensures AllIn(h, vs)
  {
    forall i | 0 <= i < |vs|
      ensures In(h, vs[i])
    {
      assert vs[i] == ([v] + vs)[i + 1];
    }
  }

  function Behind(v: Val, r: LoadedAll): LoadedAll {
    match r
    case FailedAll => FailedAll
    case LoadedAll(vs, rest, l, g) => LoadedAll([v] + vs, rest, l, g)
  }

  lemma {:induction false} FirstThread(h: Graph, ts: seq<Thread>, t: Table, l: Binding, g: Store, g2: Store,
                                       rest: seq<byte>)
    requires Sound(h) && RecordsIn(h, ts) && InStep(h, t, l, g) && |g2| == |g|
    requires forall i | 0 <= i < |ts| :: ts[i].number != -1
    requires ts != [] && Restartable(ts[0].c)
    ensures AllIn(h, Records(Kept(ts)))
    ensures var k := SaveAll(h, Records(Kept(ts)), t);
            var p := LoadAll(|Kept(ts)|, k.bytes, l, g);
            && k.table == SaveThreads(h, ts, t).table
            && p.LoadedAll? && |g| <= |p.store| && (forall i | 0 <= i < |p.vs| :: p.vs[i].Ptr?)
            && LoadThreads(SaveThreads(h, ts, t).bytes + END + rest, l, g2) ==
               Restored(Reborn(Kept(ts), p.vs), rest, p.binding, SettleAll(g2 + p.store[|g|..], Reborn(Kept(ts), p.vs)))
    decreases ts, 0
  {
    KeptIn(h, ts);
    var a, others := ts[0].regs, Records(Kept(ts[1..]));
    var s1 := Save(h, Ptr(a), t);
    assert Records(Kept(ts)) == [Ptr(a)] + others;
    FirstRoot(h, a, others, |Kept(ts[1..])|, t, l, g);
    var r1 := Load(s1.bytes, l, g);
    var s2 := FirstRead(h, ts, t, l, g, g2, rest, s1, r1);
    ThreadsLoad(h, ts[1..], s1.table, r1.binding, r1.store, Settle(s2, r1.v.a), rest);
    var q := SaveAll(h, others, s1.table);
    var p2 := LoadAll(|Kept(ts[1..])|, q.bytes, r1.binding, r1.store);
    Reading.AllLoadKeeps(|Kept(ts[1..])|, q.bytes, r1.binding, r1.store);
    var x := LoadThreads(SaveThreads(h, ts[1..], s1.table).bytes + END + rest, r1.binding, Settle(s2, r1.v.a));
    JoinedFirst(ts[0], Kept(ts[1..]), r1.v, p2, x, g, g2, r1.store, s2, rest);
  }

  // One more thread in front of those read.
  lemma JoinedFirst(t: Thread, ks: seq<Thread>, v: Val, p: LoadedAll, x: Restored, g: Store, g2: Store, s: Store,
                    s2: Store, rest: seq<byte>)
    requires |g| == |g2| && Reading.Later(s, s2, g, g2) && v.Ptr? && v.a < |s|
    requires p.LoadedAll? && |s| <= |p.store| && p.store[..|s|] == s
    requires |p.vs| == |ks| && forall i | 0 <= i < |p.vs| :: p.vs[i].Ptr?
    requires x == Restored(Reborn(ks, p.vs), rest, p.binding,
                           SettleAll(Settle(s2, v.a) + p.store[|s|..], Reborn(ks, p.vs)))
    ensures forall i | 0 <= i < |p.vs| + 1 :: ([v] + p.vs)[i].Ptr?
    ensures WithFirst(t, v.a, x) == Restored(Reborn([t] + ks, [v] + p.vs), rest, p.binding,
                                             SettleAll(g2 + p.store[|g|..], Reborn([t] + ks, [v] + p.vs)))
  {
    Joins(g, g2, s, s2, p.store, v.a);
    RebornMore(t, ks, v, p.vs);
    var all := Reborn([t] + ks, [v] + p.vs);
    assert all[1..] == Reborn(ks, p.vs);
  }

  // A first thread that is kept is read from the stream, then the others.
  lemma FirstRead(h: Graph, ts: seq<Thread>, t: Table, l: Binding, g: Store, g2: Store, rest: seq<byte>, s1: Saved,
                  r1: Loaded)
    returns (s2: Store)
    requires Sound(h) && RecordsIn(h, ts) && InStep(h, t, l, g) && |g2| == |g|
    requires ts != [] && Restartable(ts[0].c) && ts[0].number != -1 && s1 == Save(h, Ptr(ts[0].regs), t)
    requires r1 == Load(s1.bytes, l, g) && r1.Loaded? && r1.v.Ptr? && r1.rest == [] && s1.table.Keys <= h.Keys
    ensures Reading.Later(r1.store, s2, g, g2)
    ensures LoadThreads(SaveThreads(h, ts, t).bytes + END + rest, l, g2) ==
            WithFirst(ts[0], r1.v.a, LoadThreads(SaveThreads(h, ts[1..], s1.table).bytes + END + rest, r1.binding,
                                                 Settle(s2, r1.v.a)))
  {
    var k := SaveThreads(h, ts[1..], s1.table);
    var x := k.bytes + END + rest;
    Reading.LoadElsewhere(s1.bytes, x, l, g, g2);
    s2 := Load(s1.bytes + x, l, g2).store;
    Grouped(ThreadHeader(ts[0].number, ts[0].c), s1.bytes, k.bytes, rest);
    ThreadReads(ts[0].number, ts[0].c, s1.bytes + x, l, g2);
  }

  function WithFirst(t: Thread, regs: nat, r: Restored): Restored {
    match r
    case Broken => Broken
    case Restored(ts, rest, l, g) => Restored([t.(regs := regs)] + ts, rest, l, g)
  }

  lemma Grouped(head: seq<byte>, s: seq<byte>, k: seq<byte>, rest: seq<byte>)
    ensures head + s + k + END + rest == head + (s + (k + END + rest)) && [] + (k + END + rest) == k + END + rest
  {
  }

  // One thread of the stream.
  lemma ThreadReads(n: Int32, c: Counters, bs: seq<byte>, l: Binding, g: Store)
    requires n != -1
    ensures LoadThreads(ThreadHeader(n, c) + bs, l, g) == AfterHeader(n, c, Load(bs, l, g))
  {
    HeaderReads(n, c, bs);
  }

  function AfterHeader(n: Int32, c: Counters, r: Loaded): Restored {
    match r
    case Failed => Broken
    case Loaded(v, rest, l1, g1) =>
      if !v.Ptr? then Broken
      else
        match LoadThreads(rest, l1, Settle(g1, v.a))
        case Broken => Broken
        case Restored(ts, rest2, l2, g2) => Restored([Thread(n, c, v.a)] + ts, rest2, l2, g2)
  }

  lemma RebornMore(t: Thread, ts: seq<Thread>, v: Val, vs: seq<Val>)
    requires |vs| == |ts| && v.Ptr? && forall i | 0 <= i < |vs| :: vs[i].Ptr?
    ensures forall i | 0 <= i < |vs| + 1 :: ([v] + vs)[i].Ptr?
    ensures Reborn([t] + ts, [v] + vs) == [t.(regs := v.a)] + Reborn(ts, vs)
  {
  }

  lemma Joins(g: Store, g2: Store, s: Store, s2: Store, z: Store, p: nat)
    requires |g| == |g2| && Reading.Later(s, s2, g, g2) && p < |s| <= |z| && z[..|s|] == s
    ensures Settle(g2 + z[|g|..], p) == Settle(s2, p) + z[|s|..]
  {
    assert z[|g|..] == z[..|s|][|g|..] + z[|s|..];
    assert g2 + z[|g|..] == s2 + z[|s|..];
    SettleTail(s2, z[|s|..], p);
  }

  // ---- The whole checkpoint ----

  lemma RootsIn(h: Graph, symtab: nat, ts: seq<Thread>)
    requires symtab in h && RecordsIn(h, ts)
    ensures AllIn(h, [Ptr(symtab)] + Records(Kept(ts)))
  {
    KeptIn(h, ts);
  }

  // Reading the symbol table and the threads is reading that many roots.
  lemma CheckpointLoads(h: Graph, symtab: nat, ts: seq<Thread>, rest: seq<byte>)
    requires Sound(h) && symtab in h && RecordsIn(h, ts) && forall i | 0 <= i < |ts| :: ts[i].number != -1
    ensures AllIn(h, [Ptr(symtab)] + Records(Kept(ts)))
    ensures var r := LoadCheckpoint(CheckpointBytes(h, symtab, ts) + rest);
            var p := LoadAll(1 + |Kept(ts)|, SaveAll(h, [Ptr(symtab)] + Records(Kept(ts)), map[]).bytes, map[], FRESH);
            && p.LoadedAll? && (forall i | 0 <= i < |p.vs| :: p.vs[i].Ptr?) && r.symtab == p.vs[0]
            && r.threads == Restored(Reborn(Kept(ts), p.vs[1..]), rest, p.binding,
                                     SettleAll(p.store, Reborn(Kept(ts), p.vs[1..])))
  {
    RootsIn(h, symtab, ts);
    var ks, c := Kept(ts), LoadCheckpoint(CheckpointBytes(h, symtab, ts) + rest);
    var t: Table, l: Binding := map[], map[];
    var s1 := Save(h, Ptr(symtab), t);
    var r1 := Load(s1.bytes, l, FRESH);
    RootAlone(h, symtab, t, l, FRESH);
    Opens(h, symtab, ts, rest, s1, r1);
    var p := LoadAll(1 + |ks|, SaveAll(h, [Ptr(symtab)] + Records(ks), t).bytes, l, FRESH);
    PartsLoad(h, symtab, ts, rest, ks, Records(ks), t, l, FRESH, s1, r1, c.threads, p, 1 + |ks|);
  }

  // `x` is what the stream behind the symbol table reads as, `p` what all
  // roots read as.
  lemma PartsLoad(h: Graph, symtab: nat, ts: seq<Thread>, rest: seq<byte>, ks: seq<Thread>, vs: seq<Val>, t: Table,
                  l: Binding, g: Store, s1: Saved, r1: Loaded, x: Restored, p: LoadedAll, n: nat)
    requires Sound(h) && symtab in h && RecordsIn(h, ts) && forall i | 0 <= i < |ts| :: ts[i].number != -1
    requires ks == Kept(ts) && vs == Records(ks) && AllIn(h, [Ptr(symtab)] + vs) && InStep(h, t, l, g)
    requires s1 == Save(h, Ptr(symtab), t) && r1 == Load(s1.bytes, l, g) && r1.Loaded? && s1.table.Keys <= h.Keys
    requires x == LoadThreads(SaveThreads(h, ts, s1.table).bytes + END + rest, r1.binding, r1.store)
    requires n == 1 + |ks| && p == LoadAll(n, SaveAll(h, [Ptr(symtab)] + vs, t).bytes, l, g)
    ensures p.LoadedAll? && |p.vs| == 1 + |ks| && (forall i | 0 <= i < |p.vs| :: p.vs[i].Ptr?) && p.vs[0] == r1.v
    ensures x == Restored(Reborn(ks, p.vs[1..]), rest, p.binding, SettleAll(p.store, Reborn(ks, p.vs[1..])))
  {
    FirstRootAs(h, symtab, vs, |ks|, t, l, g, n, p, s1, r1);
    ThreadsLoad(h, ts, s1.table, r1.binding, r1.store, r1.store, rest);
    var k2 := SaveAll(h, vs, s1.table);
    var p2 := LoadAll(|ks|, k2.bytes, r1.binding, r1.store);
    Reading.AllLoadKeeps(|ks|, k2.bytes, r1.binding, r1.store);
    Gathered(x, ks, rest, r1.v, p, p2, r1.store);
  }

  lemma Gathered(x: Restored, ks: seq<Thread>, rest: seq<byte>, v: Val, p: LoadedAll, p2: LoadedAll, g: Store)
    requires p == Behind(v, p2) && v.Ptr? && p2.LoadedAll?
    requires |p2.vs| == |ks| && forall i | 0 <= i < |p2.vs| :: p2.vs[i].Ptr?
    requires |g| <= |p2.store| && p2.store[..|g|] == g
    requires x == Restored(Reborn(ks, p2.vs), rest, p2.binding, SettleAll(g + p2.store[|g|..], Reborn(ks, p2.vs)))
    ensures p.LoadedAll? && |p.vs| == 1 + |ks| && (forall i | 0 <= i < |p.vs| :: p.vs[i].Ptr?) && p.vs[0] == v
    ensures x == Restored(Reborn(ks, p.vs[1..]), rest, p.binding, SettleAll(p.store, Reborn(ks, p.vs[1..])))
  {
    TailOf(v, p2.vs);
    Whole(g, p2.store);
  }

  lemma TailOf(v: Val, vs: seq<Val>)
    ensures ([v] + vs)[1..] == vs
  {
  }

  lemma Whole(g: Store, z: Store)
    requires |g| <= |z| && z[..|g|] == g
    ensures g + z[|g|..] == z
  {
  }

  // The symbol table first, then what follows it.
  lemma Opens(h: Graph, symtab: nat, ts: seq<Thread>, rest: seq<byte>, s1: Saved, r1: Loaded)
    requires Sound(h) && symtab in h && RecordsIn(h, ts) && s1 == Save(h, Ptr(symtab), map[])
    requires r1 == Load(s1.bytes, map[], FRESH) && r1.Loaded? && r1.rest == []
    ensures LoadCheckpoint(CheckpointBytes(h, symtab, ts) + rest) ==
            Checkpoint(r1.v, LoadThreads(SaveThreads(h, ts, s1.table).bytes + END + rest, r1.binding, r1.store))
  {
    var x := SaveThreads(h, ts, s1.table).bytes + END + rest;
    Reading.LoadElsewhere(s1.bytes, x, map[], FRESH, FRESH);
    SameGrowth(r1.store, Load(s1.bytes + x, map[], FRESH).store, FRESH, x);
    Regrouped(s1.bytes, SaveThreads(h, ts, s1.table).bytes, rest);
  }

  lemma Regrouped(s: seq<byte>, k: seq<byte>, rest: seq<byte>)
    ensures s + k + END + rest == s + (k + END + rest)
  {
  }

  // Any heap and any threads: what is read back is exactly the threads that
  // were neither dying nor free of quota, in order, with their numbers and
  // counters, and one graph isomorphic to everything reachable from the symbol
  // table and their registers, shared as before, in which only accumulators
  // that said `yield' now say `undefined'.
  lemma ThreadCheckpoint(h: Graph, symtab: nat, ts: seq<Thread>, rest: seq<byte>)
    requires Sound(h) && symtab in h && RecordsIn(h, ts) && forall i | 0 <= i < |ts| :: ts[i].number != -1
    ensures AllIn(h, [Ptr(symtab)] + Records(Kept(ts)))
    ensures var r := LoadCheckpoint(CheckpointBytes(h, symtab, ts) + rest);
            && r.threads.Restored? && r.threads.rest == rest && |r.threads.ts| == |Kept(ts)|
            && (forall i | 0 <= i < |Kept(ts)| ::
                  r.threads.ts[i].number == Kept(ts)[i].number && r.threads.ts[i].c == Kept(ts)[i].c)
            && exists f, g :: Isomorphic(h, [Ptr(symtab)] + Records(Kept(ts)), f, [r.symtab] + Records(r.threads.ts), g)
                              && r.threads.store == SettleAll(g, r.threads.ts)
  {
    var ks := Kept(ts);
    CheckpointLoads(h, symtab, ts, rest);
    var p := RootsRead(h, [Ptr(symtab)] + Records(ks), 1 + |ks|);
    Threaded(h, [Ptr(symtab)] + Records(ks), ks, p, LoadCheckpoint(CheckpointBytes(h, symtab, ts) + rest), rest);
  }

  // The roots read back are isomorphic to those saved.
  lemma RootsRead(h: Graph, roots: seq<Val>, n: nat) returns (p: LoadedAll)
    requires Sound(h) && AllIn(h, roots) && n == |roots|
    ensures p == LoadAll(n, SaveAll(h, roots, map[]).bytes, map[], FRESH) && p.LoadedAll?
    ensures exists f :: Isomorphic(h, roots, f, p.vs, p.store)
  {
    CheckpointRoundTrip(h, roots, []);
    var s := SaveAll(h, roots, map[]);
    assert s.bytes + [] == s.bytes;
    p := LoadAll(n, s.bytes, map[], FRESH);
    assert Isomorphic(h, roots, Composed(s.table, p.binding), p.vs, p.store);
  }

  // Symbol table and registers of the threads are the roots.
  lemma Threaded(h: Graph, roots: seq<Val>, ks: seq<Thread>, p: LoadedAll, r: Checkpoint, rest: seq<byte>)
    requires Sound(h) && AllIn(h, roots) && p.LoadedAll? && exists f :: Isomorphic(h, roots, f, p.vs, p.store)
    requires |p.vs| == 1 + |ks| && (forall i | 0 <= i < |p.vs| :: p.vs[i].Ptr?) && r.symtab == p.vs[0]
    requires r.threads == Restored(Reborn(ks, p.vs[1..]), rest, p.binding, SettleAll(p.store, Reborn(ks, p.vs[1..])))
    ensures r.threads.rest == rest && |r.threads.ts| == |ks|
    ensures forall i | 0 <= i < |ks| :: r.threads.ts[i].number == ks[i].number && r.threads.ts[i].c == ks[i].c
    ensures exists f, g :: Isomorphic(h, roots, f, [r.symtab] + Records(r.threads.ts), g)
                           && r.threads.store == SettleAll(g, r.threads.ts)
  {
    RebornRecords(ks, p.vs);
    var f :| Isomorphic(h, roots, f, p.vs, p.store);
    assert Isomorphic(h, roots, f, [r.symtab] + Records(r.threads.ts), p.store);
  }

  lemma RebornRecords(ts: seq<Thread>, vs: seq<Val>)
    requires |vs| == 1 + |ts| && forall i | 0 <= i < |vs| :: vs[i].Ptr?
    ensures [vs[0]] + Records(Reborn(ts, vs[1..])) == vs
  {
  }

  // Kept are the threads that were neither dying nor free of quota, each as
  // often as it was there.
  lemma {:induction false} KeptExactly(ts: seq<Thread>, t: Thread)
    ensures multiset(Kept(ts))[t] == if t.c.state != 0 && t.c.state != -2 then multiset(ts)[t] else 0
  {
    if ts != [] {
      KeptExactly(ts[1..], t);
      assert ts == [ts[0]] + ts[1..];
    }
  }

  // Settling puts `undefined' for `yield' in the first register of restarted
  // threads and changes nothing else.
  lemma SettledExactly(g: Store, ts: seq<Thread>, p: nat)
    requires p < |g|
    ensures var r := SettleAll(g, ts)[p];
            if g[p].Elems? && g[p].elems != [] && g[p].elems[0] == Singleton(3)
               && exists i :: 0 <= i < |ts| && ts[i].regs == p
            then r.Elems? && |r.elems| == |g[p].elems| && r.elems[0] == Singleton(2) && r.elems[1..] == g[p].elems[1..]
            else r == g[p]
  {
    SettledOnce(g, ts, p);
  }

  lemma {:induction false} SettledOnce(g: Store, ts: seq<Thread>, p: nat)
    requires p < |g|
    ensures SettleAll(g, ts)[p] == if exists i :: 0 <= i < |ts| && ts[i].regs == p then Settled(g[p]) else g[p]
    decreases ts
  {
    if ts != [] {
      SettledOnce(Settle(g, ts[0].regs), ts[1..], p);
      if j :| 0 <= j < |ts[1..]| && ts[1..][j].regs == p {
        assert ts[j + 1].regs == p;
      }
      if j :| 0 <= j < |ts| && ts[j].regs == p && j > 0 {
        assert ts[1..][j - 1].regs == p;
      }
    }
  }
}
