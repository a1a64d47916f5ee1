// Writing the restartable threads after the database, and starting them again.
module ThreadFiles {
  import opened Bytes
  import opened Values
  import opened Graphs
  import opened Restarting
  import Persist
  import S = Scheduling
  import Queues
  import Sequences

  // ---- Writing ----

  // The threads in the order of the table: bucket by bucket, along the chains.
  function Chain(ns: seq<nat>, recs: map<nat, Thread>): (r: seq<Thread>)
    requires forall i | 0 <= i < |ns| :: ns[i] in recs
    ensures |r| == |ns|
  {
    seq(|ns|, i requires 0 <= i < |ns| => recs[ns[i]])
  }

  predicate Recorded(tab: seq<seq<nat>>, recs: map<nat, Thread>) {
    forall b, i | 0 <= b < |tab| && 0 <= i < |tab[b]| :: tab[b][i] in recs
  }

  function Listed(tab: seq<seq<nat>>, recs: map<nat, Thread>): seq<Thread>
    requires Recorded(tab, recs)
  {
    if tab == [] then []
    else Listed(tab[..|tab| - 1], recs) + Chain(tab[|tab| - 1], recs)
  }

  lemma {:induction false} SavesBoth(h: Graph, xs: seq<Thread>, ys: seq<Thread>, t: Table)
    requires Sound(h) && RecordsIn(h, xs) && RecordsIn(h, ys) && t.Keys <= h.Keys
    ensures RecordsIn(h, xs + ys)
    ensures var s1 := SaveThreads(h, xs, t);
            var s2 := SaveThreads(h, ys, s1.table);
            SaveThreads(h, xs + ys, t) == Saved(s1.bytes + s2.bytes, s2.table)
    decreases xs
  {
    if xs == [] {
      assert xs + ys == ys;
    } else {
      assert (xs + ys)[1..] == xs[1..] + ys;
      SavesBoth(h, xs[1..], ys, if Restartable(xs[0].c) then Save(h, Ptr(xs[0].regs), t).table else t);
    }
  }

  // `out` and `numbers` are what writing the threads makes of what was there.
  predicate Written(h: Graph, xs: seq<Thread>, out0: seq<byte>, t: Table, out: seq<byte>, numbers: Table) {
    && Sound(h) && RecordsIn(h, xs) && t.Keys <= h.Keys
    && out == out0 + SaveThreads(h, xs, t).bytes && numbers == SaveThreads(h, xs, t).table
  }

  lemma WrittenBoth(h: Graph, xs: seq<Thread>, ys: seq<Thread>, out0: seq<byte>, t: Table, out1: seq<byte>, t1: Table,
                    out2: seq<byte>, t2: Table)
    requires Written(h, xs, out0, t, out1, t1) && Written(h, ys, out1, t1, out2, t2)
    ensures Written(h, xs + ys, out0, t, out2, t2)
  {
    SavesBoth(h, xs, ys, t);
  }

  lemma ChainMore(ns: seq<nat>, recs: map<nat, Thread>, i: nat)
    requires i < |ns| && forall j | 0 <= j < |ns| :: ns[j] in recs
    ensures Chain(ns[..i + 1], recs) == Chain(ns[..i], recs) + [recs[ns[i]]]
  {
  }

  lemma ChainIn(h: Graph, ns: seq<nat>, recs: map<nat, Thread>, i: nat)
    requires i < |ns| && (forall j | 0 <= j < |ns| :: ns[j] in recs) && RecordsIn(h, Chain(ns, recs))
    ensures RecordsIn(h, [recs[ns[i]]])
  {
    assert Chain(ns, recs)[i] == recs[ns[i]];
  }

  lemma OneThread(h: Graph, x: Thread, t: Table)
    requires Sound(h) && RecordsIn(h, [x]) && t.Keys <= h.Keys
    ensures Restartable(x.c) ==> x.regs in h
    ensures SaveThreads(h, [x], t) ==
            if Restartable(x.c) then
              var r := Save(h, Ptr(x.regs), t);
              Saved(ThreadHeader(x.number, x.c) + r.bytes, r.table)
            else Saved([], t)
  {
    var xs := [x];
    assert xs[0] == x && xs[1..] == [];
    if Restartable(x.c) {
      var r := Save(h, Ptr(x.regs), t);
      assert ThreadHeader(x.number, x.c) + r.bytes + [] == ThreadHeader(x.number, x.c) + r.bytes;
    }
  }

  method WriteHeader(w: Persist.Writer, n: Int32, c: Counters)
    modifies w`out
    ensures w.out == old(w.out) + ThreadHeader(n, c)
  {
    ghost var head := ThreadHeader(n, c);
    w.out := w.out + Be32(n);
    w.out := w.out + (Be32(c.ip) + Be32(c.top) + Be32(c.state) + Be32(c.locked));
    assert w.out == old(w.out) + head;
  }

  method WriteThread(w: Persist.Writer, h: Graph, x: Thread)
    requires w.Valid() && Sound(h) && w.numbers.Keys <= h.Keys && RecordsIn(h, [x])
    modifies w`next, w`out, w`numbers, w.table`contents, w.table.buckets
    ensures w.Valid()
    ensures var s := SaveThreads(h, [x], old(w.numbers)); w.out == old(w.out) + s.bytes && w.numbers == s.table
  {
    OneThread(h, x, w.numbers);
    if x.c.state != DYING && x.c.state != NOQUOTA {
      WriteRecord(w, h, x.number, x.c, x.regs);
    }
  }

  method WriteRecord(w: Persist.Writer, h: Graph, n: Int32, c: Counters, regs: nat)
    requires w.Valid() && Sound(h) && w.numbers.Keys <= h.Keys && regs in h
    modifies w`next, w`out, w`numbers, w.table`contents, w.table.buckets
    ensures w.Valid()
    ensures var r := Save(h, Ptr(regs), old(w.numbers));
            w.out == old(w.out) + (ThreadHeader(n, c) + r.bytes) && w.numbers == r.table
  {
    ghost var r := Save(h, Ptr(regs), w.numbers);
    WriteHeader(w, n, c);
    w.Save(h, Ptr(regs));
    Persist.Regrouped(old(w.out), ThreadHeader(n, c), r.bytes);
  }

  method WriteChain(w: Persist.Writer, h: Graph, ns: seq<nat>, recs: map<nat, Thread>)
    requires w.Valid() && Sound(h) && w.numbers.Keys <= h.Keys
    requires (forall j | 0 <= j < |ns| :: ns[j] in recs) && RecordsIn(h, Chain(ns, recs))
    modifies w`next, w`out, w`numbers, w.table`contents, w.table.buckets
    ensures w.Valid() && w.numbers.Keys <= h.Keys
    ensures Written(h, Chain(ns, recs), old(w.out), old(w.numbers), w.out, w.numbers)
  {
    for i := 0 to |ns|
      invariant w.Valid() && w.numbers.Keys <= h.Keys
      invariant Written(h, Chain(ns[..i], recs), old(w.out), old(w.numbers), w.out, w.numbers)
    {
      ChainIn(h, ns, recs, i);
      ghost var out1, t1 := w.out, w.numbers;
      WriteThread(w, h, recs[ns[i]]);
      WrittenBoth(h, Chain(ns[..i], recs), [recs[ns[i]]], old(w.out), old(w.numbers), out1, t1, w.out, w.numbers);
      ChainMore(ns, recs, i);
    }
    assert ns[..|ns|] == ns;
  }

  method WriteThreads(w: Persist.Writer, h: Graph, tab: seq<seq<nat>>, recs: map<nat, Thread>)
    requires w.Valid() && Sound(h) && w.numbers.Keys <= h.Keys
    requires Recorded(tab, recs) && RecordsIn(h, Listed(tab, recs))
    modifies w`next, w`out, w`numbers, w.table`contents, w.table.buckets
    ensures w.Valid()
    ensures w.out == old(w.out) + SaveThreads(h, Listed(tab, recs), old(w.numbers)).bytes + END
  {
    for b := 0 to |tab|
      invariant w.Valid() && w.numbers.Keys <= h.Keys
      invariant Written(h, Listed(tab[..b], recs), old(w.out), old(w.numbers), w.out, w.numbers)
    {
      ListedMore(h, tab, recs, b);
      ghost var out1, t1 := w.out, w.numbers;
      WriteChain(w, h, tab[b], recs);
      WrittenBoth(h, Listed(tab[..b], recs), Chain(tab[b], recs), old(w.out), old(w.numbers), out1, t1, w.out,
                  w.numbers);
    }
    assert tab[..|tab|] == tab;
    w.out := w.out + END;
  }

  lemma {:induction false} ListedMore(h: Graph, tab: seq<seq<nat>>, recs: map<nat, Thread>, b: nat)
    requires b < |tab| && Recorded(tab, recs) && RecordsIn(h, Listed(tab, recs))
    ensures Listed(tab[..b + 1], recs) == Listed(tab[..b], recs) + Chain(tab[b], recs)
    ensures RecordsIn(h, Chain(tab[b], recs))
    decreases |tab|
  {
    assert tab[..b + 1][..b] == tab[..b];
    var n := |tab| - 1;
    var xs, ys := Listed(tab[..n], recs), Chain(tab[n], recs);
    if b == n {
      assert tab[..b + 1] == tab;
      forall i | 0 <= i < |ys|
        ensures Restartable(ys[i].c) ==> ys[i].regs in h
      {
        assert (xs + ys)[|xs| + i] == ys[i];
      }
    } else {
      assert tab[..n][..b] == tab[..b] && tab[..n][..b + 1] == tab[..b + 1] && tab[..n][b] == tab[b];
      forall i | 0 <= i < |xs|
        ensures Restartable(xs[i].c) ==> xs[i].regs in h
      {
        assert (xs + ys)[i] == xs[i];
      }
      ListedMore(h, tab[..n], recs, b);
    }
  }

  // ---- Reading ----

  predicate Reads(ts: seq<Thread>, r: Restored, whole: Restored) {
    match r
    case Broken => whole.Broken?
    case Restored(more, rest, l, g) => whole == Restored(ts + more, rest, l, g)
  }

  // Reads threads up to the end mark; false where the program would stop.
  method ReadThreads(r: Persist.Reader) returns (ok: bool, ts: seq<Thread>)
    requires r.Valid()
    modifies r`input, r`store, r`bound, r.table`contents, r.table.buckets
    ensures var l := LoadThreads(old(r.input), old(r.bound), old(r.store));
            ok == l.Restored? && (ok ==> r.Valid() && l == Restored(ts, r.input, r.bound, r.store))
  {
    ghost var whole := LoadThreads(r.input, r.bound, r.store);
    ts := [];
    while true
      invariant r.Valid() && Reads(ts, LoadThreads(r.input, r.bound, r.store), whole)
      decreases |r.input|
    {
      var more, t;
      ok, more, t := ReadNext(r, ts, whole);
      if !ok || !more {
        return;
      }
      ts := ts + [t];
    }
  }

  // One thread more than `ts`, or the end mark.
  method ReadNext(r: Persist.Reader, ghost ts: seq<Thread>, ghost whole: Restored)
    returns (ok: bool, more: bool, t: Thread)
    requires r.Valid() && Reads(ts, LoadThreads(r.input, r.bound, r.store), whole)
    modifies r`input, r`store, r`bound, r.table`contents, r.table.buckets
    ensures if !ok then whole == Broken
            else if !more then r.Valid() && whole == Restored(ts, r.input, r.bound, r.store)
            else && r.Valid() && |r.input| < old(|r.input|)
                 && Reads(ts + [t], LoadThreads(r.input, r.bound, r.store), whole)
  {
    ok, more, t := ReadThread(r);
    if ok && more {
      ReadsMore(ts, t, LoadThreads(r.input, r.bound, r.store), whole);
    }
  }

  lemma ReadsMore(ts: seq<Thread>, t: Thread, r: Restored, whole: Restored)
    requires Reads(ts, After(t, r), whole)
    ensures Reads(ts + [t], r, whole)
  {
    if r.Restored? {
      assert ts + ([t] + r.ts) == ts + [t] + r.ts;
    }
  }

  // One thread, or the end mark.
  method ReadThread(r: Persist.Reader) returns (ok: bool, more: bool, t: Thread)
    requires r.Valid()
    modifies r`input, r`store, r`bound, r.table`contents, r.table.buckets
    ensures ok ==> r.Valid() && (more ==> |r.input| < old(|r.input|))
    ensures var l := LoadThreads(old(r.input), old(r.bound), old(r.store));
            if !ok then l == Broken
            else if !more then l == Restored([], r.input, r.bound, r.store)
            else l == After(t, LoadThreads(r.input, r.bound, r.store))
  {
    ok, more, t := false, true, Thread(0, Counters(0, 0, 0, 0), 0);
    ghost var bs := r.input;
    var word, words;
    ok, word := r.Take(4);
    if !ok {
      return;
    }
    var n := Signed32(word);
    if n == -1 {
      more := false;
      return;
    }
    ok, words := r.Take(16);
    if !ok {
      return;
    }
    Split(bs);
    var v;
    ok, v := r.Load();
    if !ok || !v.Ptr? {
      ok := false;
      return;
    }
    t := Thread(n, Counters(Signed32(words[..4]), Signed32(words[4..8]), Signed32(words[8..12]),
                            Signed32(words[12..])), v.a);
    r.store := Settle(r.store, v.a);
  }

  function After(t: Thread, r: Restored): Restored {
    match r
    case Broken => Broken
    case Restored(ts, rest, l, g) => Restored([t] + ts, rest, l, g)
  }

  lemma Split(bs: seq<byte>)
    requires |bs| >= 20
    ensures var words := bs[4..][..16];
            && words[..4] == bs[4..8] && words[4..8] == bs[8..12] && words[8..12] == bs[12..16]
            && words[12..] == bs[16..20]
            && bs[4..][16..] == bs[20..]
  {
  }

  // ---- Starting again ----

  function Numbers(ts: seq<Thread>): (r: seq<int>)
    ensures |r| == |ts|
  {
    seq(|ts|, i requires 0 <= i < |ts| => ts[i].number)
  }

  predicate Positive(ns: seq<int>) {
    forall i | 0 <= i < |ns| :: ns[i] > 0
  }

  // The numbers can be given to new threads.
  ghost predicate CanStart(ls: Queues.Lists, ns: seq<int>) {
    && Positive(ns)
    && (forall i | 0 <= i < |ns| :: !Queues.Waiting(ls, ns[i]))
    && (forall i, j | 0 <= i < j < |ns| :: ns[i] != ns[j])
  }

  function Backwards(ns: seq<int>): (r: seq<nat>)
    requires Positive(ns)
    ensures |r| == |ns|
  {
    seq(|ns|, i requires 0 <= i < |ns| => ns[|ns| - 1 - i])
  }

  // The next number after the first `i` threads.
  function NextNumber(n: nat, ns: seq<int>, i: nat): nat
    requires i <= |ns|
  {
    if i == 0 then n else S.Max(NextNumber(n, ns, i - 1), ns[i - 1] + 1)
  }

  lemma {:induction false} NextNumberAbove(n: nat, ns: seq<int>, i: nat, j: nat)
    requires j < i <= |ns|
    ensures n <= NextNumber(n, ns, i) && ns[j] < NextNumber(n, ns, i)
  {
    if j < i - 1 {
      NextNumberAbove(n, ns, i - 1, j);
    } else {
      NextNumberFrom(n, ns, i - 1);
    }
  }

  lemma {:induction false} NextNumberFrom(n: nat, ns: seq<int>, i: nat)
    requires i <= |ns|
    ensures n <= NextNumber(n, ns, i)
  {
    if i > 0 {
      NextNumberFrom(n, ns, i - 1);
    }
  }

  method RestartThreads(s: S.Scheduler, ts: seq<Thread>)
    requires s.Valid() && CanStart(s.ls, Numbers(ts))
    modifies s`links, s`tab, s`active, s`ls, s`nextNumber, s`kind, s`yielding
    ensures s.Valid() && s.ls == old(s.ls).(run := Backwards(Numbers(ts)) + old(s.ls).run)
    ensures s.nextNumber == NextNumber(old(s.nextNumber), Numbers(ts), |ts|)
  {
    ghost var ns := Numbers(ts);
    StartFirst(ns, s.ls);
    for i := 0 to |ts|
      invariant s.Valid() && Started(ns, i, old(s.ls), s.ls)
      invariant s.nextNumber == NextNumber(old(s.nextNumber), ns, i)
    {
      StartNext(ns, i, old(s.ls), s.ls);
      s.Restore(ts[i].number);
    }
    assert ns[..|ts|] == ns;
  }

  ghost predicate Started(ns: seq<int>, i: nat, ls0: Queues.Lists, ls: Queues.Lists)
    requires i <= |ns| && Positive(ns)
  {
    ls == ls0.(run := Backwards(ns[..i]) + ls0.run)
  }

  lemma StartFirst(ns: seq<int>, ls: Queues.Lists)
    requires CanStart(ls, ns)
    ensures Started(ns, 0, ls, ls)
  {
    assert ns[..0] == [] && Backwards([]) + ls.run == ls.run;
  }

  lemma StartNext(ns: seq<int>, i: nat, ls0: Queues.Lists, ls: Queues.Lists)
    requires i < |ns| && CanStart(ls0, ns) && Started(ns, i, ls0, ls)
    ensures ns[i] > 0 && !Queues.Waiting(ls, ns[i]) && Started(ns, i + 1, ls0, ls.(run := [ns[i]] + ls.run))
  {
    assert Backwards(ns[..i + 1]) == [ns[i]] + Backwards(ns[..i]);
    assert [ns[i]] + (Backwards(ns[..i]) + ls0.run) == [ns[i]] + Backwards(ns[..i]) + ls0.run;
  }

  // ---- Which threads start again ----

  predicate Named(recs: map<nat, Thread>) {
    forall n | n in recs :: recs[n].number == n
  }

  // The threads of the table are those in the queues, each once.
  lemma {:induction false} ListedNumbers(tab: seq<seq<nat>>, recs: map<nat, Thread>, k: nat)
    requires |tab| <= S.TABLE_SIZE && Recorded(tab, recs) && Named(recs)
    requires forall b | 0 <= b < |tab| :: Sequences.Distinct(tab[b])
    requires forall b, i | 0 <= b < |tab| && 0 <= i < |tab[b]| :: tab[b][i] % S.TABLE_SIZE == b
    ensures var ns := Numbers(Listed(tab, recs));
            && (k in ns <==> k % S.TABLE_SIZE < |tab| && k in tab[k % S.TABLE_SIZE])
            && (forall i | 0 <= i < |ns| :: 0 <= ns[i] && ns[i] % S.TABLE_SIZE < |tab|)
            && (forall i, j | 0 <= i < j < |ns| :: ns[i] != ns[j])
    decreases |tab|
  {
    if tab != [] {
      var n := |tab| - 1;
      ListedNumbers(tab[..n], recs, k);
      var xs, ys := Numbers(Listed(tab[..n], recs)), Numbers(Chain(tab[n], recs));
      assert Numbers(Listed(tab, recs)) == xs + ys;
      ChainNumbers(tab[n], recs);
      forall i, j | 0 <= i < j < |xs + ys|
        ensures (xs + ys)[i] != (xs + ys)[j]
      {
        if i < |xs| <= j { assert tab[n][j - |xs|] % S.TABLE_SIZE == n; }
      }
    }
  }

  lemma ChainNumbers(ns: seq<nat>, recs: map<nat, Thread>)
    requires (forall i | 0 <= i < |ns| :: ns[i] in recs) && Named(recs)
    ensures Numbers(Chain(ns, recs)) == ns
  {
  }

  lemma {:induction false} KeptNumbers(ts: seq<Thread>, recs: map<nat, Thread>, k: nat)
    requires FromRecords(ts, recs)
    requires forall i, j | 0 <= i < j < |ts| :: ts[i].number != ts[j].number
    ensures var ns := Numbers(Kept(ts));
            && (k in ns <==> k in Numbers(ts) && k in recs && Restartable(recs[k].c))
            && (forall i | 0 <= i < |ns| :: ns[i] in Numbers(ts))
            && (forall i, j | 0 <= i < j < |ns| :: ns[i] != ns[j])
    decreases ts
  {
    if ts != [] {
      KeptNumbers(ts[1..], recs, k);
      KeptNumbers(ts[1..], recs, ts[0].number);
      assert Numbers(ts) == [ts[0].number] + Numbers(ts[1..]);
      if Restartable(ts[0].c) {
        assert Numbers(Kept(ts)) == [ts[0].number] + Numbers(Kept(ts[1..]));
      }
    }
  }

  predicate FromRecords(ts: seq<Thread>, recs: map<nat, Thread>) {
    forall i | 0 <= i < |ts| :: Filed(ts[i], recs)
  }

  predicate Filed(x: Thread, recs: map<nat, Thread>) {
    x.number >= 0 && x.number in recs && recs[x.number] == x
  }

  lemma {:induction false} ListedRecords(tab: seq<seq<nat>>, recs: map<nat, Thread>)
    requires Recorded(tab, recs) && Named(recs)
    ensures FromRecords(Listed(tab, recs), recs)
    decreases |tab|
  {
    if tab != [] {
      var n := |tab| - 1;
      ListedRecords(tab[..n], recs);
      forall i | 0 <= i < |tab[n]|
        ensures Filed(Chain(tab[n], recs)[i], recs)
      {
        var m := tab[n][i];
        assert m in recs && Chain(tab[n], recs)[i] == recs[m] && recs[m].number == m;
      }
    }
  }

  // The threads a checkpoint of any scheduler state holds are those in a
  // queue that are neither dying nor free of quota, and a new scheduler can
  // start all of them under their numbers.
  lemma SavedCanStart(tab: seq<seq<nat>>, ls: Queues.Lists, limit: nat, kind: map<nat, int>, yielding: map<nat, bool>,
                      recs: map<nat, Thread>, n: nat)
    requires S.Agrees(tab, ls) && S.Known(ls, limit, kind, yielding) && Recorded(tab, recs) && Named(recs)
    ensures var ns := Numbers(Kept(Listed(tab, recs)));
            && CanStart(Queues.Each([], [], []), ns)
            && (n in ns <==> Queues.Waiting(ls, n) && n in recs && Restartable(recs[n].c))
  {
    var ts := Listed(tab, recs);
    ListedRecords(tab, recs);
    InBuckets(tab, ls);
    ListedNumbers(tab, recs, n);
    forall i, j | 0 <= i < j < |ts|
      ensures ts[i].number != ts[j].number
    {
      assert Numbers(ts)[i] != Numbers(ts)[j];
    }
    KeptNumbers(ts, recs, n);
    var ns := Numbers(Kept(ts));
    forall i | 0 <= i < |ns|
      ensures ns[i] > 0
    {
      assert ns[i] in Numbers(ts);
      ListedNumbers(tab, recs, ns[i]);
      assert Queues.Waiting(ls, ns[i]);
    }
  }

  lemma InBuckets(tab: seq<seq<nat>>, ls: Queues.Lists)
    requires S.Agrees(tab, ls)
    ensures forall b, i | 0 <= b < |tab| && 0 <= i < |tab[b]| :: tab[b][i] % S.TABLE_SIZE == b
  {
    forall b, i | 0 <= b < |tab| && 0 <= i < |tab[b]|
      ensures tab[b][i] % S.TABLE_SIZE == b
    {
      var t: nat := tab[b][i];
      assert t in tab[b] && Queues.Waiting(ls, t);
    }
  }
}
