// Reading depends neither on what follows in the stream nor on what the
// objects loaded earlier have become since.
module Reading {
  import opened Bytes
  import opened Values
  import opened Graphs

  predicate Elsewhere(r: Loaded, r2: Loaded, x: seq<byte>, g: Store, g2: Store) {
    && r.Loaded? && r2.Loaded? && r2.v == r.v && r2.rest == r.rest + x && r2.binding == r.binding
    && Later(r.store, r2.store, g, g2)
  }

  predicate AllElsewhere(r: LoadedAll, r2: LoadedAll, x: seq<byte>, g: Store, g2: Store) {
    && r.LoadedAll? && r2.LoadedAll? && r2.vs == r.vs && r2.rest == r.rest + x && r2.binding == r.binding
    && Later(r.store, r2.store, g, g2)
  }

  // Both stores grow by the same objects.
  predicate Later(s: Store, s2: Store, g: Store, g2: Store) {
    |g| <= |s| && s[..|g|] == g && s2 == g2 + s[|g|..]
  }

  lemma {:induction false} LoadElsewhere(bs: seq<byte>, x: seq<byte>, l: Binding, g: Store, g2: Store)
    requires |g| == |g2| && Load(bs, l, g).Loaded?
    ensures Elsewhere(Load(bs, l, g), Load(bs + x, l, g2), x, g, g2)
    decreases |bs|, 0, 0
  {
    LoadDef(bs, l, g);
    LoadDef(bs + x, l, g2);
    if bs[0] == OBJ && |bs| >= 9 {
      HeadElsewhere(bs, x);
      ObjectElsewhere(Signed32(bs[1..5]), Unsigned32(bs[5..9]), bs[9..], x, l, g, g2);
    } else {
      ShortElsewhere(bs, x, l, g, g2);
    }
  }

  lemma HeadElsewhere(bs: seq<byte>, x: seq<byte>)
    requires |bs| >= 9
    ensures (bs + x)[0] == bs[0] && (bs + x)[1..5] == bs[1..5] && (bs + x)[5..9] == bs[5..9]
            && (bs + x)[9..] == bs[9..] + x
  {
  }

  lemma Prefixes(bs: seq<byte>, x: seq<byte>)
    requires bs != []
    ensures (bs + x)[0] == bs[0] && (bs + x)[1..] == bs[1..] + x
    ensures |bs| >= 2 ==> (bs + x)[1] == bs[1] && (bs + x)[2..] == bs[2..] + x
    ensures |bs| >= 5 ==> (bs + x)[1..5] == bs[1..5] && (bs + x)[5..] == bs[5..] + x
  {
  }

  lemma Unchanged(g: Store, g2: Store)
    requires |g| == |g2|
    ensures Later(g, g2, g, g2)
  {
  }

  lemma ShortElsewhere(bs: seq<byte>, x: seq<byte>, l: Binding, g: Store, g2: Store)
    requires |g| == |g2| && LoadValue(bs, l, g).Loaded? && !(bs[0] == OBJ && |bs| >= 9)
    ensures Elsewhere(LoadValue(bs, l, g), LoadValue(bs + x, l, g2), x, g, g2)
  {
    Prefixes(bs, x);
    Unchanged(g, g2);
  }

  lemma {:induction false} ObjectElsewhere(n: int, u: nat, bs: seq<byte>, x: seq<byte>, l: Binding, g: Store, g2: Store)
    requires |g| == |g2| && LoadObject(n, u, bs, l, g).Loaded?
    ensures Elsewhere(LoadObject(n, u, bs, l, g), LoadObject(n, u, bs + x, l, g2), x, g, g2)
    decreases |bs|, 3
  {
    var kind, len := u % 4, u / 4;
    if kind == 1 {
      RawElsewhere(n, u, bs, x, l, g, g2);
    } else if kind == 3 {
      if len == 0 {
        assert g[..|g|] == g && g2 == g2 + g[|g|..];
      } else {
        NodeElsewhere(n, Elems([]), len, bs, x, l, g, g2);
      }
    } else {
      assert (bs + x)[..4] == bs[..4] && (bs + x)[4..] == bs[4..] + x;
      var w := Unsigned32(bs[..4]);
      if kind == 0 {
        NodeElsewhere(n, Plain(w / 2, w % 2 == 1, []), FIELDS, bs[4..], x, l, g, g2);
      } else {
        NodeElsewhere(n, Typed(w / 2, w % 2 == 1, []), len, bs[4..], x, l, g, g2);
      }
    }
  }

  lemma RawElsewhere(n: int, u: nat, bs: seq<byte>, x: seq<byte>, l: Binding, g: Store, g2: Store)
    requires |g| == |g2| && LoadObject(n, u, bs, l, g).Loaded? && u % 4 == 1
    ensures Elsewhere(LoadObject(n, u, bs, l, g), LoadObject(n, u, bs + x, l, g2), x, g, g2)
  {
    var len := u / 4;
    assert (bs + x)[..len] == bs[..len] && (bs + x)[len..] == bs[len..] + x;
    assert (g + [Raw(bs[..len])])[..|g|] == g && (g + [Raw(bs[..len])])[|g|..] == [Raw(bs[..len])];
  }

  lemma {:induction false} NodeElsewhere(n: int, shell: Node, count: nat, bs: seq<byte>, x: seq<byte>, l: Binding,
                                         g: Store, g2: Store)
    requires |g| == |g2| && !shell.Raw? && LoadNode(n, shell, count, bs, l, g).Loaded?
    ensures Elsewhere(LoadNode(n, shell, count, bs, l, g), LoadNode(n, shell, count, bs + x, l, g2), x, g, g2)
    decreases |bs|, 2
  {
    var l1 := l[n := |g|];
    var r := LoadAll(count, bs, l1, g + [shell]);
    AllLoadElsewhere(count, bs, x, l1, g + [shell], g2 + [shell]);
    var r2 := LoadAll(count, bs + x, l1, g2 + [shell]);
    FilledLater(r.store, r2.store, g, g2, shell, Filled(shell, r.vs));
  }

  lemma FilledLater(s: Store, s2: Store, g: Store, g2: Store, shell: Node, y: Node)
    requires |g| == |g2| && Later(s, s2, g + [shell], g2 + [shell])
    ensures |g| < |s| == |s2| && Later(s[|g| := y], s2[|g2| := y], g, g2)
  {
    assert s[|g| := y][..|g|] == s[..|g| + 1][..|g|];
    assert s2[|g2| := y] == g2 + s[|g| := y][|g|..];
  }

  lemma {:induction false} AllLoadElsewhere(count: nat, bs: seq<byte>, x: seq<byte>, l: Binding, g: Store, g2: Store)
    requires |g| == |g2| && LoadAll(count, bs, l, g).LoadedAll?
    ensures AllElsewhere(LoadAll(count, bs, l, g), LoadAll(count, bs + x, l, g2), x, g, g2)
    decreases |bs|, 1, count
  {
    LoadAllDef(count, bs, l, g);
    LoadAllDef(count, bs + x, l, g2);
    if count == 0 {
      assert g[..|g|] == g && g2 == g2 + g[|g|..];
    } else {
      LoadElsewhere(bs, x, l, g, g2);
      var r := Load(bs, l, g);
      var r2 := Load(bs + x, l, g2);
      AllLoadElsewhere(count - 1, r.rest, x, r.binding, r.store, r2.store);
      LaterTwice(r.store, r2.store, LoadAll(count - 1, r.rest, r.binding, r.store).store,
                 LoadAll(count - 1, r.rest + x, r.binding, r2.store).store, g, g2);
    }
  }

  // The store only grows.
  lemma AllLoadKeeps(count: nat, bs: seq<byte>, l: Binding, g: Store)
    requires LoadAll(count, bs, l, g).LoadedAll?
    ensures var r := LoadAll(count, bs, l, g);
            |g| <= |r.store| && r.store[..|g|] == g
  {
    AllLoadElsewhere(count, bs, [], l, g, g);
  }

  lemma LaterTwice(s: Store, s2: Store, z: Store, z2: Store, g: Store, g2: Store)
    requires |g| == |g2| && Later(s, s2, g, g2) && Later(z, z2, s, s2)
    ensures Later(z, z2, g, g2)
  {
    assert z[..|g|] == z[..|s|][..|g|];
    assert z[|g|..] == z[..|s|][|g|..] + z[|s|..];
  }
}
