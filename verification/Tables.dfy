// The hash tables that hold slots and methods: chains of links spliced in
// place, and a count.
module Tables {
  import opened Chains
  import opened Sequences
  import opened Values

  // A symbol: which one it is, and the hash it carries.
  datatype Key = Key(id: nat, hash: nat)

  // ---- The table ----

  // What a table looks like: chains of named links, in the bucket of their
  // name's hash, one link a name.
  datatype Shape = Shape(heads: seq<nat>, next: map<nat, nat>, name: map<nat, Key>)

  predicate Filed(t: Shape, chains: seq<seq<nat>>, contents: map<Key, nat>, b: nat, i: nat)
    requires b < |chains| && i < |chains[b]| && |t.heads| > 0
  {
    var x := chains[b][i];
    x in t.name && t.name[x].hash % |t.heads| == b && t.name[x] in contents && contents[t.name[x]] == x
  }

  predicate Present(t: Shape, chains: seq<seq<nat>>, contents: map<Key, nat>, k: Key)
    requires k in contents && |t.heads| == |chains| > 0
  {
    var x := contents[k];
    x in chains[k.hash % |t.heads|] && x in t.name && t.name[x] == k
  }

  ghost predicate Holds(t: Shape, chains: seq<seq<nat>>, contents: map<Key, nat>) {
    && |t.heads| == |chains| > 0
    && (forall b | 0 <= b < |chains| :: IsChain(t.next, t.heads[b], chains[b]))
    && (forall b, i {:trigger Filed(t, chains, contents, b, i)} | 0 <= b < |chains| && 0 <= i < |chains[b]| ::
          Filed(t, chains, contents, b, i))
    && (forall k {:trigger Present(t, chains, contents, k)} | k in contents :: Present(t, chains, contents, k))
  }

  // The bucket a name belongs to.
  function Bucket(t: Shape, k: Key): nat
    requires |t.heads| > 0
  {
    k.hash % |t.heads|
  }

  ghost predicate Unused(chains: seq<seq<nat>>, v: nat) {
    v != 0 && forall b | 0 <= b < |chains| :: v !in chains[b]
  }

  // A link belongs to one bucket only.
  lemma OneBucket(t: Shape, chains: seq<seq<nat>>, contents: map<Key, nat>, b: nat, i: nat, c: nat, j: nat)
    requires Holds(t, chains, contents) && b < |chains| && c < |chains| && i < |chains[b]| && j < |chains[c]|
    ensures chains[b][i] == chains[c][j] ==> b == c && i == j
  {
    assert Filed(t, chains, contents, b, i) && Filed(t, chains, contents, c, j);
    assert IsChain(t.next, t.heads[b], chains[b]);
  }

  // A new name goes to the front of its bucket.
  function Pushed(t: Shape, k: Key, v: nat): Shape
    requires |t.heads| > 0
  {
    var b := Bucket(t, k);
    Shape(t.heads[b := v], t.next[v := t.heads[b]], t.name[v := k])
  }

  lemma PushedHolds(t: Shape, chains: seq<seq<nat>>, contents: map<Key, nat>, k: Key, v: nat)
    requires Holds(t, chains, contents) && k !in contents && Unused(chains, v)
    ensures var b := Bucket(t, k); Holds(Pushed(t, k, v), chains[b := [v] + chains[b]], contents[k := v])
  {
    var b := Bucket(t, k);
    var t2, chains2, contents2 := Pushed(t, k, v), chains[b := [v] + chains[b]], contents[k := v];
    forall c | 0 <= c < |chains2|
      ensures IsChain(t2.next, t2.heads[c], chains2[c])
    {
      if c == b {
        PushChain(t.next, t.heads[b], chains[b], v);
      } else {
        ChainKept(t.next, t.heads[c], chains[c], t2.next);
      }
    }
    forall c, i | 0 <= c < |chains2| && 0 <= i < |chains2[c]|
      ensures Filed(t2, chains2, contents2, c, i)
    {
      if c == b && i > 0 {
        assert Filed(t, chains, contents, c, i - 1) && chains2[c][i] == chains[c][i - 1];
      } else if c != b {
        assert Filed(t, chains, contents, c, i);
      }
    }
    forall j | j in contents2
      ensures Present(t2, chains2, contents2, j)
    {
      if j != k {
        assert Present(t, chains, contents, j);
        assert Bucket(t, j) == b ==> contents[j] in [v] + chains[b];
      }
    }
  }

  // Where a name's link stands.
  lemma NameAt(t: Shape, chains: seq<seq<nat>>, contents: map<Key, nat>, k: Key, i: nat)
    requires Holds(t, chains, contents) && i < |chains[Bucket(t, k)]|
    requires chains[Bucket(t, k)][i] in t.name && t.name[chains[Bucket(t, k)][i]] == k
    ensures k in contents && contents[k] == chains[Bucket(t, k)][i]
  {
    assert Filed(t, chains, contents, Bucket(t, k), i);
  }

  // A link takes the place of the one with its name.
  function Overlaid(t: Shape, xs: seq<nat>, i: nat, k: Key, v: nat): Shape
    requires |t.heads| > 0 && i < |xs| && xs[i] in t.next
  {
    Shape(if i == 0 then t.heads[Bucket(t, k) := v] else t.heads, Replaced(t.next, xs, i, v), t.name[v := k])
  }

  lemma OverlaidHolds(t: Shape, chains: seq<seq<nat>>, contents: map<Key, nat>, k: Key, v: nat, i: nat)
    requires Holds(t, chains, contents) && Unused(chains, v) && k in contents
    requires i < |chains[Bucket(t, k)]| && chains[Bucket(t, k)][i] == contents[k]
    ensures contents[k] in t.next
    ensures var b := Bucket(t, k);
            Holds(Overlaid(t, chains[b], i, k, v), chains[b := With(chains[b], i, v)], contents[k := v])
  {
    var b := Bucket(t, k);
    var xs := chains[b];
    ReplaceChain(t.next, t.heads[b], xs, i, v);
    var t2, chains2, contents2 := Overlaid(t, xs, i, k, v), chains[b := With(xs, i, v)], contents[k := v];
    forall c | 0 <= c < |chains2|
      ensures IsChain(t2.next, t2.heads[c], chains2[c])
    {
      if c != b {
        Elsewhere(t, chains, contents, b, c);
        ChainKept(t.next, t.heads[c], chains[c], t2.next);
      }
    }
    forall c, j | 0 <= c < |chains2| && 0 <= j < |chains2[c]|
      ensures Filed(t2, chains2, contents2, c, j)
    {
      assert Filed(t, chains, contents, c, j);
      OneBucket(t, chains, contents, c, j, b, i);
    }
    forall j | j in contents2
      ensures Present(t2, chains2, contents2, j)
    {
      if j != k {
        assert Present(t, chains, contents, j);
        assert Present(t, chains, contents, k);
        Remains(xs, i, v, contents[j]);
      } else {
        assert With(xs, i, v)[i] == v;
      }
    }
  }

  lemma Remains(xs: seq<nat>, i: nat, v: nat, x: nat)
    requires i < |xs|
    ensures x in xs && x != xs[i] ==> x in With(xs, i, v) && x in Without(xs, i)
  {
    if x in xs && x != xs[i] {
      var j :| 0 <= j < |xs| && xs[j] == x;
      assert With(xs, i, v)[j] == x;
      assert Without(xs, i)[if j < i then j else j - 1] == x;
    }
  }

  lemma Elsewhere(t: Shape, chains: seq<seq<nat>>, contents: map<Key, nat>, b: nat, c: nat)
    requires Holds(t, chains, contents) && b < |chains| && c < |chains| && b != c
    ensures forall x | x in chains[c] :: x !in chains[b]
  {
    forall x | x in chains[c] && x in chains[b]
      ensures false
    {
      var i :| 0 <= i < |chains[b]| && chains[b][i] == x;
      var j :| 0 <= j < |chains[c]| && chains[c][j] == x;
      OneBucket(t, chains, contents, b, i, c, j);
    }
  }

  function Removed(t: Shape, xs: seq<nat>, i: nat, k: Key): Shape
    requires |t.heads| > 0 && i < |xs| && xs[i] in t.next
  {
    Shape(if i == 0 then t.heads[Bucket(t, k) := t.next[xs[0]]] else t.heads, Skipped(t.next, xs, i)[xs[i] := 0],
          t.name)
  }

  lemma RemovedHolds(t: Shape, chains: seq<seq<nat>>, contents: map<Key, nat>, k: Key, i: nat)
    requires Holds(t, chains, contents) && k in contents
    requires i < |chains[Bucket(t, k)]| && chains[Bucket(t, k)][i] == contents[k]
    ensures contents[k] in t.next
    ensures var b := Bucket(t, k);
            Holds(Removed(t, chains[b], i, k), chains[b := Without(chains[b], i)], contents - {k})
  {
    var b := Bucket(t, k);
    var xs := chains[b];
    SkipChain(t.next, t.heads[b], xs, i);
    var t2, chains2, contents2 := Removed(t, xs, i, k), chains[b := Without(xs, i)], contents - {k};
    forall c | 0 <= c < |chains2|
      ensures IsChain(t2.next, t2.heads[c], chains2[c])
    {
      if c != b {
        Elsewhere(t, chains, contents, b, c);
        ChainKept(t.next, t.heads[c], chains[c], t2.next);
      } else {
        ChainKept(Skipped(t.next, xs, i), t2.heads[b], Without(xs, i), t2.next);
      }
    }
    forall c, j | 0 <= c < |chains2| && 0 <= j < |chains2[c]|
      ensures Filed(t2, chains2, contents2, c, j)
    {
      var m := if c == b && j >= i then j + 1 else j;
      assert chains2[c][j] == chains[c][m] && Filed(t, chains, contents, c, m);
      OneBucket(t, chains, contents, c, m, b, i);
    }
    forall j | j in contents2
      ensures Present(t2, chains2, contents2, j)
    {
      assert Present(t, chains, contents, j);
      assert Present(t, chains, contents, k);
      Remains(xs, i, 0, contents[j]);
    }
  }

  // ---- The code ----

  class HashTable {
    var heads: seq<nat>
    var next: map<nat, nat>
    var name: map<nat, Key>
    var count: nat
    ghost var chains: seq<seq<nat>>
    ghost var contents: map<Key, nat>
    ghost var removals: nat

    // `contents` is what the chains hold.  The count goes up with every new
    // name, and never down.
    ghost predicate Valid()
      reads this
    {
      Holds(Form(), chains, contents) && count == |contents| + removals
    }

    function Form(): Shape
      reads `heads, `next, `name
    {
      Shape(heads, next, name)
    }

    constructor (len: nat)
      requires len > 0
      ensures Valid() && contents == map[] && |heads| == len && count == removals == 0
    {
      heads, next, name, count := seq(len, i => 0), map[], map[], 0;
      chains, contents, removals := seq(len, i => []), map[], 0;
    }

    // Walks the bucket of `k`; `i` is where its link stands, or the length of
    // the chain.
    method Search(k: Key) returns (curr: nat, prev: nat, ghost i: nat)
      requires Valid()
      ensures var xs := chains[Bucket(Form(), k)];
              i <= |xs| && curr == At(xs, i) && prev == At(xs, i - 1)
      ensures curr != 0 <==> k in contents
      ensures k in contents ==> curr == contents[k] && i < |chains[Bucket(Form(), k)]|
    {
      var b := Bucket(Form(), k);
      ghost var xs := chains[b];
      curr, prev, i := heads[b], 0, 0;
      assert IsChain(next, heads[b], xs);
      while curr != 0
        invariant i <= |xs| && curr == At(xs, i) && prev == At(xs, i - 1)
        invariant forall j | 0 <= j < i :: xs[j] in name && name[xs[j]] != k
        decreases |xs| - i
      {
        assert LinkAt(next, xs, i) && Filed(Form(), chains, contents, b, i);
        if name[curr] == k {
          NameAt(Form(), chains, contents, k, i);
          return;
        }
        prev, curr, i := curr, next[curr], i + 1;
      }
      NotThere(Form(), chains, contents, k, i);
    }

    method Get(k: Key) returns (r: nat)
      requires Valid()
      ensures r == if k in contents then contents[k] else 0
      ensures r == 0 <==> k !in contents
    {
      ghost var i;
      var prev;
      r, prev, i := Search(k);
    }

    method Put(k: Key, v: nat)
      requires Valid() && Unused(chains, v)
      modifies this
      ensures Valid() && contents == old(contents)[k := v] && removals == old(removals)
      ensures count == old(count) + if k in old(contents) then 0 else 1
      ensures |heads| == |old(heads)|
    {
      var b := Bucket(Form(), k);
      ghost var i;
      var curr, prev;
      curr, prev, i := Search(k);
      ghost var xs := chains[b];
      SizeAfter(contents, k, v);
      if curr != 0 {
        OverlaidHolds(Form(), chains, contents, k, v, i);
        PrevIs(next, heads[b], xs, i);
        chains, contents := chains[b := With(xs, i, v)], contents[k := v];
        name := name[v := k];
        next := next[v := next[curr]];
        if prev == 0 {
          heads := heads[b := v];
        } else {
          next := next[prev := v];
        }
      } else {
        PushedHolds(Form(), chains, contents, k, v);
        chains, contents := chains[b := [v] + xs], contents[k := v];
        name := name[v := k];
        next := next[v := heads[b]];
        heads := heads[b := v];
        count := count + 1;
      }
    }

    method Remove(k: Key)
      requires Valid()
      modifies this
      ensures Valid() && contents == old(contents) - {k} && count == old(count)
      ensures removals == old(removals) + if k in old(contents) then 1 else 0
      ensures |heads| == |old(heads)|
    {
      var b := Bucket(Form(), k);
      ghost var i;
      var curr, prev;
      curr, prev, i := Search(k);
      if curr != 0 {
        ghost var xs := chains[b];
        RemovedHolds(Form(), chains, contents, k, i);
        PrevIs(next, heads[b], xs, i);
        SizeWithout(contents, k);
        chains, contents, removals := chains[b := Without(xs, i)], contents - {k}, removals + 1;
        if prev == 0 {
          heads := heads[b := next[curr]];
        } else {
          next := next[prev := next[curr]];
        }
        next := next[curr := 0];
      } else {
        assert contents - {k} == contents;
      }
    }

    // The names, in a vector whose length is the count: all of them, each
    // once, and after them as many elements that nobody fills as there have
    // been removals.
    method EnumerateKeys(junk: Key) returns (result: array<Key>, ghost filled: nat)
      requires Valid()
      ensures Valid() && fresh(result) && result.Length == count
      ensures filled == |contents| && filled + removals == count
      ensures forall k :: k in contents <==> k in result[..filled]
      ensures forall i, j | 0 <= i < j < filled :: result[i] != result[j]
    {
      result := new Key[count](i => junk);
      AllNamed(Form(), chains, contents);
      ghost var all: seq<nat> := [];
      var j, b := 0, 0;
      while b < |heads|
        invariant b <= |heads| && j == |all| && all == Joined(chains[..b])
        invariant Enumerated(name, all, result[..], j)
      {
        JoinedMore(chains, b);
        j := NameChain(b, result, j, all);
        all := all + chains[b];
        b := b + 1;
      }
      filled := j;
      assert chains[..b] == chains;
      NamesOut(Form(), chains, contents, all, result[..]);
    }

    // The names of one bucket, from place `start` on.
    method NameChain(b: nat, result: array<Key>, start: nat, ghost all: seq<nat>) returns (j: nat)
      requires Valid() && b < |heads| && |all| + |chains[b]| <= result.Length
      requires Enumerated(name, all, result[..], start)
      modifies result
      ensures Enumerated(name, all + chains[b], result[..], j)
    {
      j := start;
      var link := heads[b];
      ghost var i, xs := 0, chains[b];
      assert IsChain(next, heads[b], xs);
      while link != 0
        invariant i <= |xs| && link == At(xs, i) && j == start + i
        invariant Enumerated(name, all + xs[..i], result[..], j)
        decreases |xs| - i
      {
        assert LinkAt(next, xs, i) && Filed(Form(), chains, contents, b, i);
        NamedNext(name, all, xs, i, result[..], j);
        result[j] := name[link];
        j := j + 1;
        link, i := next[link], i + 1;
      }
      ChainEnds(next, heads[b], xs, i);
      assert xs[..i] == xs;
    }
  }

  function Joined(chains: seq<seq<nat>>): seq<nat> {
    if chains == [] then [] else Joined(chains[..|chains| - 1]) + chains[|chains| - 1]
  }

  lemma {:induction false} JoinedMore(chains: seq<seq<nat>>, b: nat)
    requires b < |chains|
    ensures Joined(chains[..b + 1]) == Joined(chains[..b]) + chains[b]
    ensures |Joined(chains[..b + 1])| <= |Joined(chains)|
    decreases |chains|
  {
    assert chains[..b + 1][..b] == chains[..b];
    var n := |chains| - 1;
    if b == n {
      assert chains[..b + 1] == chains;
    } else {
      assert chains[..n][..b + 1] == chains[..b + 1];
      JoinedMore(chains[..n], b);
    }
  }

  predicate Enumerated(name: map<nat, Key>, all: seq<nat>, result: seq<Key>, j: nat) {
    && j == |all| <= |result|
    && forall m | 0 <= m < j :: all[m] in name && result[m] == name[all[m]]
  }

  lemma NamedNext(name: map<nat, Key>, all: seq<nat>, xs: seq<nat>, i: nat, result: seq<Key>, j: nat)
    requires i < |xs| && Enumerated(name, all + xs[..i], result, j) && j < |result| && xs[i] in name
    ensures Enumerated(name, all + xs[..i + 1], result[j := name[xs[i]]], j + 1)
  {
    assert all + xs[..i + 1] == all + xs[..i] + [xs[i]];
  }

  predicate Below(t: Shape, contents: map<Key, nat>, x: nat, n: nat)
    requires |t.heads| > 0
  {
    x in t.name && t.name[x] in contents && contents[t.name[x]] == x && Bucket(t, t.name[x]) < n
  }

  // The links of the first `n` buckets.
  lemma {:induction false} FirstBuckets(t: Shape, chains: seq<seq<nat>>, contents: map<Key, nat>, n: nat)
    requires Holds(t, chains, contents) && n <= |chains|
    ensures var all := Joined(chains[..n]);
            && (forall m | 0 <= m < |all| :: Below(t, contents, all[m], n))
            && Distinct(all)
            && (forall k | k in contents && Bucket(t, k) < n :: contents[k] in all)
  {
    if n > 0 {
      FirstBuckets(t, chains, contents, n - 1);
      JoinedMore(chains, n - 1);
      var xs, ys := Joined(chains[..n - 1]), chains[n - 1];
      assert IsChain(t.next, t.heads[n - 1], ys);
      var zs := xs + ys;
      forall m | 0 <= m < |zs|
        ensures Below(t, contents, zs[m], n) && (m < |xs| ==> Below(t, contents, zs[m], n - 1))
        ensures m >= |xs| ==> Bucket(t, t.name[zs[m]]) == n - 1
      {
        if m < |xs| {
          assert zs[m] == xs[m] && Below(t, contents, xs[m], n - 1);
        } else {
          assert Filed(t, chains, contents, n - 1, m - |xs|);
        }
      }
      forall k | k in contents && Bucket(t, k) < n
        ensures contents[k] in xs + ys
      {
        assert Present(t, chains, contents, k);
      }
    }
  }

  function Names(name: map<nat, Key>, all: seq<nat>): (r: seq<Key>)
    requires forall m | 0 <= m < |all| :: all[m] in name
    ensures |r| == |all|
  {
    seq(|all|, m requires 0 <= m < |all| => name[all[m]])
  }

  // All links have different names, and there is one for every name.
  lemma AllNamed(t: Shape, chains: seq<seq<nat>>, contents: map<Key, nat>)
    requires Holds(t, chains, contents)
    ensures var all := Joined(chains);
            && (forall m | 0 <= m < |all| :: all[m] in t.name) && |all| == |contents|
            && (forall k :: k in Names(t.name, all) <==> k in contents)
            && (forall i, j | 0 <= i < j < |all| :: Names(t.name, all)[i] != Names(t.name, all)[j])
  {
    FirstBuckets(t, chains, contents, |chains|);
    assert chains[..|chains|] == chains;
    var all := Joined(chains);
    var ns := Names(t.name, all);
    forall k
      ensures k in ns <==> k in contents
    {
      if k in contents {
        NameStands(t, chains, contents, k);
        var m :| 0 <= m < |all| && all[m] == contents[k];
        assert Present(t, chains, contents, k) && ns[m] == k;
      }
    }
    SameCount(ns, contents);
  }

  lemma SameCount(ks: seq<Key>, contents: map<Key, nat>)
    requires (forall i, j | 0 <= i < j < |ks| :: ks[i] != ks[j]) && forall k :: k in ks <==> k in contents
    ensures |ks| == |contents|
  {
    KeysCount(ks);
    assert (set k | k in ks) == contents.Keys;
  }

  lemma {:induction false} KeysCount(ks: seq<Key>)
    requires forall i, j | 0 <= i < j < |ks| :: ks[i] != ks[j]
    ensures |set k | k in ks| == |ks|
  {
    if ks != [] {
      KeysCount(ks[1..]);
      assert ks == [ks[0]] + ks[1..];
      assert (set k | k in ks) == {ks[0]} + set k | k in ks[1..];
    }
  }

  lemma NamesOut(t: Shape, chains: seq<seq<nat>>, contents: map<Key, nat>, all: seq<nat>, result: seq<Key>)
    requires Holds(t, chains, contents) && all == Joined(chains) && Enumerated(t.name, all, result, |all|)
    ensures |all| == |contents|
    ensures forall k :: k in contents <==> k in result[..|all|]
    ensures forall i, j | 0 <= i < j < |all| :: result[i] != result[j]
  {
    AllNamed(t, chains, contents);
    assert result[..|all|] == Names(t.name, all);
  }

  lemma NotThere(t: Shape, chains: seq<seq<nat>>, contents: map<Key, nat>, k: Key, i: nat)
    requires Holds(t, chains, contents) && i <= |chains[Bucket(t, k)]| && At(chains[Bucket(t, k)], i) == 0
    requires forall j | 0 <= j < i :: chains[Bucket(t, k)][j] in t.name && t.name[chains[Bucket(t, k)][j]] != k
    ensures k !in contents
  {
    var b := Bucket(t, k);
    ChainEnds(t.next, t.heads[b], chains[b], i);
    NameStands(t, chains, contents, k);
  }

  lemma NameStands(t: Shape, chains: seq<seq<nat>>, contents: map<Key, nat>, k: Key)
    requires Holds(t, chains, contents)
    ensures k in contents ==>
              var xs := chains[Bucket(t, k)];
              exists j | 0 <= j < |xs| :: xs[j] in t.name && t.name[xs[j]] == k
  {
    if k in contents {
      assert Present(t, chains, contents, k);
      var xs := chains[Bucket(t, k)];
      var j :| 0 <= j < |xs| && xs[j] == contents[k];
      assert t.name[xs[j]] == k;
    }
  }

  lemma SizeAfter(m: map<Key, nat>, k: Key, v: nat)
    ensures |m[k := v]| == |m| + if k in m then 0 else 1
  {
    assert m[k := v].Keys == m.Keys + {k};
  }

  lemma SizeWithout(m: map<Key, nat>, k: Key)
    requires k in m
    ensures |m - {k}| == |m| - 1
  {
    assert (m - {k}).Keys == m.Keys - {k};
  }
}
