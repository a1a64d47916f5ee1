// The checkpoint writer and reader: a stream, and a hash table of what has
// been numbered so far.
module Persist {
  import opened Bytes
  import opened Values
  import opened Graphs
  import opened Checkpoints

  const TABLE_SIZE: nat := 6469

  // "MOVEdatabase"
  const SIGNATURE: seq<byte> := [0x4D, 0x4F, 0x56, 0x45, 0x64, 0x61, 0x74, 0x61, 0x62, 0x61, 0x73, 0x65]
  const OLD_FORMAT: nat := 0
  const MIXED_FORMAT: nat := 1
  const NET_FORMAT: nat := 2

  // ---- Hash chains ----

  datatype Chain = End | Link(key: int, value: int, next: Chain)

  function Assoc(c: Chain, key: int): Option<int> {
    match c
    case End => None
    case Link(k, v, next) => if k == key then Some(v) else Assoc(next, key)
  }

  // A map from integers to integers in TABLE_SIZE buckets.
  class HashTable {
    const buckets: array<Chain>
    ghost var contents: map<int, int>

    ghost predicate Valid()
      reads this, buckets
    {
      && buckets.Length == TABLE_SIZE
      && forall key: int ::
           Assoc(buckets[key % TABLE_SIZE], key) == if key in contents then Some(contents[key]) else None
    }

    constructor ()
      ensures Valid() && contents == map[] && fresh(buckets)
    {
      buckets := new Chain[TABLE_SIZE](i => End);
      contents := map[];
    }

    method Find(key: int) returns (r: Option<int>)
      requires Valid()
      ensures r == if key in contents then Some(contents[key]) else None
    {
      var curr := buckets[key % TABLE_SIZE];
      while curr.Link?
        invariant Assoc(curr, key) == Assoc(buckets[key % TABLE_SIZE], key)
        decreases curr
      {
        if curr.key == key {
          return Some(curr.value);
        }
        curr := curr.next;
      }
      r := None;
    }

    method Bind(key: int, value: int)
      requires Valid()
      modifies `contents, buckets
      ensures Valid() && contents == old(contents)[key := value]
    {
      var i := key % TABLE_SIZE;
      buckets[i] := Link(key, value, buckets[i]);
      contents := contents[key := value];
    }
  }

  // ---- Writing ----

  class Writer {
    const table: HashTable
    var next: nat
    var out: seq<byte>
    ghost var numbers: Table

    ghost predicate Valid()
      reads this, table, table.buckets
    {
      && table.Valid() && next == |numbers|
      && (forall key | key in table.contents :: 0 <= key && key in numbers)
      && (forall a | a in numbers :: a in table.contents && table.contents[a] == numbers[a])
    }

    // start_save: the stream begins with the format's name and version.
    constructor ()
      ensures Valid() && fresh(table) && fresh(table.buckets) && numbers == map[] && out == SIGNATURE + Be32(NET_FORMAT)
    {
      table := new HashTable();
      next, out := 0, SIGNATURE + Be32(NET_FORMAT);
      numbers := map[];
    }

    method Number(a: nat) returns (n: nat)
      requires Valid() && a !in numbers
      modifies `next, `numbers, table`contents, table.buckets
      ensures Valid() && n == old(|numbers|) && numbers == old(numbers)[a := n]
    {
      n := next;
      table.Bind(a, n);
      next := next + 1;
      numbers := numbers[a := n];
    }

    method Save(h: Graph, v: Val)
      requires Valid() && Sound(h) && In(h, v) && numbers.Keys <= h.Keys
      modifies `next, `out, `numbers, table`contents, table.buckets
      ensures Valid()
      ensures var s := Graphs.Save(h, v, old(numbers)); out == old(out) + s.bytes && numbers == s.table
      decreases h.Keys - numbers.Keys, 1, 0
    {
      SaveDef(h, v, numbers);
      match v
      case Nothing => out := out + [NIL];
      case Int(n) => out := out + [INT] + Be32(n);
      case Singleton(k) => out := out + [SINGLE, k % 256];
      case Ptr(a) =>
        var found := table.Find(a);
        if found.Some? {
          out := out + [REF] + Be32(found.value);
        } else {
          SaveObject(h, a);
        }
    }

    method SaveObject(h: Graph, a: nat)
      requires Valid() && Sound(h) && a in h && a !in numbers && numbers.Keys <= h.Keys
      modifies `next, `out, `numbers, table`contents, table.buckets
      ensures Valid()
      ensures var s := Graphs.Save(h, Ptr(a), old(numbers)); out == old(out) + s.bytes && numbers == s.table
      decreases h.Keys - numbers.Keys, 0, 0
    {
      ghost var head, k := SaveNew(h, a, numbers);
      Regrouped(out, head, k.bytes);
      Fewer(h, a, numbers);
      var n := Number(a);
      WriteHeader(n, h[a]);
      SaveKids(h, Kids(h[a]));
    }

    method WriteHeader(n: nat, x: Node)
      modifies `out
      ensures out == old(out) + ([OBJ] + Be32(n) + Header(x))
    {
      ghost var head := [OBJ] + Be32(n) + Header(x);
      var word := Be32(n);
      out := out + [OBJ] + word;
      out := out + Be32(4 * LengthOf(x) + KindOf(x));
      out := out + Payload(x);
      assert out == old(out) + head;
    }

    // The pointers of an object, in order.
    method SaveKids(h: Graph, vs: seq<Val>)
      requires Valid() && Sound(h) && AllIn(h, vs) && numbers.Keys <= h.Keys
      modifies `next, `out, `numbers, table`contents, table.buckets
      ensures Valid()
      ensures var s := SaveAll(h, vs, old(numbers)); out == old(out) + s.bytes && numbers == s.table
      decreases h.Keys - numbers.Keys, 3, 0
    {
      ghost var before, t, whole := out, numbers, SaveAll(h, vs, numbers);
      for i := 0 to |vs|
        invariant Valid() && numbers.Keys <= h.Keys && Grows(t, numbers)
        invariant Unwritten(out, SaveAll(h, vs[i..], numbers), before, whole)
      {
        assert h.Keys - numbers.Keys <= h.Keys - t.Keys;
        SaveNext(h, vs, i, before, whole);
      }
      SaveAllDef(h, [], numbers);
      assert vs[|vs|..] == [] && out + [] == out;
    }

    method SaveNext(h: Graph, vs: seq<Val>, i: nat, ghost before: seq<byte>, ghost whole: Saved)
      requires Valid() && Sound(h) && AllIn(h, vs) && numbers.Keys <= h.Keys && i < |vs|
      requires Unwritten(out, SaveAll(h, vs[i..], numbers), before, whole)
      modifies `next, `out, `numbers, table`contents, table.buckets
      ensures Valid() && numbers.Keys <= h.Keys && Grows(old(numbers), numbers)
      ensures Unwritten(out, SaveAll(h, vs[i + 1..], numbers), before, whole)
      decreases h.Keys - numbers.Keys, 2, 0
    {
      ghost var o, one := out, Graphs.Save(h, vs[i], numbers);
      SaveFirst(h, vs, i, numbers);
      Save(h, vs[i]);
      Advance(o, one.bytes, SaveAll(h, vs[i + 1..], numbers), before, whole);
    }
  }

  lemma SaveNew(h: Graph, a: nat, t: Table) returns (head: seq<byte>, k: Saved)
    requires Sound(h) && a in h && a !in t && t.Keys <= h.Keys
    ensures head == [OBJ] + Be32(|t|) + Header(h[a]) && k == SaveAll(h, Kids(h[a]), t[a := |t|])
    ensures Graphs.Save(h, Ptr(a), t) == Saved(head + k.bytes, k.table)
  {
    SaveDef(h, Ptr(a), t);
    head, k := [OBJ] + Be32(|t|) + Header(h[a]), SaveAll(h, Kids(h[a]), t[a := |t|]);
  }

  lemma Regrouped(a: seq<byte>, b: seq<byte>, c: seq<byte>)
    ensures a + b + c == a + (b + c)
  {
  }

  lemma Fewer(h: Graph, a: nat, t: Table)
    requires a in h && a !in t
    ensures h.Keys - t[a := |t|].Keys < h.Keys - t.Keys
  {
    assert a in h.Keys - t.Keys && a !in h.Keys - t[a := |t|].Keys;
  }

  // What is still to be written completes what has been written.
  predicate Unwritten(out: seq<byte>, r: Saved, before: seq<byte>, whole: Saved) {
    out + r.bytes == before + whole.bytes && r.table == whole.table
  }

  lemma SaveFirst(h: Graph, vs: seq<Val>, i: nat, t: Table)
    requires Sound(h) && AllIn(h, vs) && t.Keys <= h.Keys && i < |vs|
    ensures var r := Graphs.Save(h, vs[i], t);
            var k := SaveAll(h, vs[i + 1..], r.table);
            SaveAll(h, vs[i..], t) == Saved(r.bytes + k.bytes, k.table)
  {
    SaveAllDef(h, vs[i..], t);
    assert vs[i..][1..] == vs[i + 1..];
  }

  lemma Advance(o: seq<byte>, one: seq<byte>, k: Saved, before: seq<byte>, whole: Saved)
    requires Unwritten(o, Saved(one + k.bytes, k.table), before, whole)
    ensures Unwritten(o + one, k, before, whole)
  {
    assert o + one + k.bytes == o + (one + k.bytes);
  }

  // ---- Reading ----

  class Reader {
    const table: HashTable
    var input: seq<byte>
    var store: Store
    var version: nat
    ghost var bound: Binding

    ghost predicate Valid()
      reads this, table, table.buckets
    {
      && table.Valid()
      && (forall key | key in table.contents :: key in bound && table.contents[key] == bound[key])
      && (forall n | n in bound :: n in table.contents)
    }

    // start_load: without the signature the stream is rewound and taken to be
    // in the old format.  A stream too short for both stops the program.
    constructor (file: seq<byte>)
      requires |file| >= 16
      ensures Valid() && fresh(table) && fresh(table.buckets) && bound == map[] && store == FRESH
      ensures if file[..12] == SIGNATURE then version == Unsigned32(file[12..16]) && input == file[16..]
              else version == OLD_FORMAT && input == file
    {
      table := new HashTable();
      store, bound := FRESH, map[];
      if file[..12] == SIGNATURE {
        version, input := Unsigned32(file[12..16]), file[16..];
      } else {
        version, input := OLD_FORMAT, file;
      }
    }

    method Take(n: nat) returns (ok: bool, bs: seq<byte>)
      modifies `input
      ensures ok == (n <= |old(input)|)
      ensures ok ==> bs == old(input)[..n] && input == old(input)[n..]
    {
      if n > |input| {
        return false, [];
      }
      ok, bs, input := true, input[..n], input[n..];
    }

    // Allocate an object and bind it to its number.
    method Allocate(n: int, x: Node) returns (p: nat)
      requires Valid()
      modifies `store, `bound, table`contents, table.buckets
      ensures Valid() && p == old(|store|) && store == old(store) + [x] && bound == old(bound)[n := p]
    {
      p := |store|;
      store := store + [x];
      table.Bind(n, p);
      bound := bound[n := p];
    }

    method Load() returns (ok: bool, v: Val)
      requires Valid()
      modifies `input, `store, `bound, table`contents, table.buckets
      ensures var r := Graphs.Load(old(input), old(bound), old(store));
              ok == r.Loaded? &&
              (ok ==> Valid() && v == r.v && input == r.rest && bound == r.binding && store == r.store)
      decreases |input|, 0
    {
      LoadDef(input, bound, store);
      ok, v := false, Nothing;
      if input == [] {
        return;
      }
      var c := input[0];
      if c == NIL {
        ok, input := true, input[1..];
      } else if c == INT && |input| >= 5 {
        ok, v, input := true, Int(Signed32(input[1..5])), input[5..];
      } else if c == SINGLE && |input| >= 2 {
        ok, v, input := true, Singleton(input[1]), input[2..];
      } else if c == REF && |input| >= 5 {
        var found := table.Find(Signed32(input[1..5]));
        if found.Some? {
          ok, v, input := true, Ptr(found.value), input[5..];
        }
      } else if c == OBJ && |input| >= 9 {
        var n, u := Signed32(input[1..5]), Unsigned32(input[5..9]);
        input := input[9..];
        ok, v := LoadBody(n, u);
      }
    }

    method LoadBody(n: int, u: nat) returns (ok: bool, v: Val)
      requires Valid()
      modifies `input, `store, `bound, table`contents, table.buckets
      ensures var r := LoadObject(n, u, old(input), old(bound), old(store));
              ok == r.Loaded? &&
              (ok ==> Valid() && v == r.v && input == r.rest && bound == r.binding && store == r.store)
      decreases |input|, 3
    {
      var kind, len := u % 4, u / 4;
      v := Nothing;
      if kind == 1 {
        var bs;
        ok, bs := Take(len);
        if ok {
          var p := Allocate(n, Raw(bs));
          v := Ptr(p);
        }
      } else if kind == 3 && len == 0 {
        table.Bind(n, ZERO);
        bound := bound[n := ZERO];
        ok, v := true, Ptr(ZERO);
      } else if kind == 3 {
        ok, v := LoadShell(n, Elems([]), len);
      } else {
        var word;
        ok, word := Take(4);
        if ok {
          var w := Unsigned32(word);
          if kind == 0 {
            ok, v := LoadShell(n, Plain(w / 2, w % 2 == 1, []), FIELDS);
          } else {
            ok, v := LoadShell(n, Typed(w / 2, w % 2 == 1, []), len);
          }
        }
      }
    }

    // The object is bound before its pointers are read, so that they may lead
    // back to it.
    method LoadShell(n: int, shell: Node, count: nat) returns (ok: bool, v: Val)
      requires Valid() && !shell.Raw?
      modifies `input, `store, `bound, table`contents, table.buckets
      ensures var r := LoadNode(n, shell, count, old(input), old(bound), old(store));
              ok == r.Loaded? &&
              (ok ==> Valid() && v == r.v && input == r.rest && bound == r.binding && store == r.store)
      decreases |input|, 2
    {
      var p := Allocate(n, shell);
      var vs;
      ok, vs := LoadKids(count);
      v := Ptr(p);
      if ok {
        store := store[p := Filled(shell, vs)];
      }
    }

    method LoadKids(count: nat) returns (ok: bool, vs: seq<Val>)
      requires Valid()
      modifies `input, `store, `bound, table`contents, table.buckets
      ensures var r := LoadAll(count, old(input), old(bound), old(store));
              ok == r.LoadedAll? &&
              (ok ==> Valid() && vs == r.vs && input == r.rest && bound == r.binding && store == r.store)
      decreases |input|, 1
    {
      ghost var whole := LoadAll(count, input, bound, store);
      vs := [];
      for i := 0 to count
        invariant Valid() && |vs| == i && |input| <= old(|input|)
        invariant Remaining(vs, LoadAll(count - i, input, bound, store), whole)
      {
        LoadAllDef(count - i, input, bound, store);
        var v;
        ok, v := Load();
        if !ok {
          return;
        }
        vs := vs + [v];
      }
      LoadAllDef(0, input, bound, store);
      ok := true;
    }
  }

  // What is still to be read completes what has been read.
  predicate Remaining(vs: seq<Val>, r: LoadedAll, whole: LoadedAll) {
    match r
    case FailedAll => whole.FailedAll?
    case LoadedAll(ws, rest, l, g) => whole == LoadedAll(vs + ws, rest, l, g)
  }

  // ---- Whole files ----

  // What a writer makes of a list of roots.
  function File(h: Graph, roots: seq<Val>): seq<byte>
    requires Sound(h) && AllIn(h, roots)
  {
    SIGNATURE + Be32(NET_FORMAT) + SaveAll(h, roots, map[]).bytes
  }

  method WriteFile(h: Graph, roots: seq<Val>) returns (file: seq<byte>)
    requires Sound(h) && AllIn(h, roots)
    ensures file == File(h, roots)
  {
    var w := new Writer();
    w.SaveKids(h, roots);
    file := w.out;
  }

  // Reading back `count` roots, and what is left of the file; None where the
  // program would stop.  The old format is not part of this model.
  method ReadFile(file: seq<byte>, count: nat) returns (r: Option<(seq<Val>, Store, seq<byte>)>)
    ensures r == Contents(file, count)
  {
    if |file| < 16 {
      return None;
    }
    var reader := new Reader(file);
    if reader.version != MIXED_FORMAT && reader.version != NET_FORMAT {
      return None;
    }
    var ok, vs := reader.LoadKids(count);
    r := if ok then Some((vs, reader.store, reader.input)) else None;
  }

  function Contents(file: seq<byte>, count: nat): Option<(seq<Val>, Store, seq<byte>)> {
    if |file| < 16 || file[..12] != SIGNATURE then None
    else
      var version := Unsigned32(file[12..16]);
      if version != MIXED_FORMAT && version != NET_FORMAT then None
      else match LoadAll(count, file[16..], map[], FRESH)
           case FailedAll => None
           case LoadedAll(vs, rest, _, g) => Some((vs, g, rest))
  }

  // A file written for some roots, with anything after it, reads back as an
  // isomorphic graph and leaves exactly what came after.
  lemma FilesRoundTrip(h: Graph, roots: seq<Val>, rest: seq<byte>)
    requires Sound(h) && AllIn(h, roots)
    ensures var r := Contents(File(h, roots) + rest, |roots|);
            r.Some? && r.value.2 == rest && exists f :: Isomorphic(h, roots, f, r.value.0, r.value.1)
  {
    var s := SaveAll(h, roots, map[]);
    var file := File(h, roots) + rest;
    WordDecodes(NET_FORMAT);
    assert file[..12] == SIGNATURE && file[12..16] == Be32(NET_FORMAT) && file[16..] == s.bytes + rest;
    CheckpointRoundTrip(h, roots, rest);
    var r := LoadAll(|roots|, s.bytes + rest, map[], FRESH);
    assert Isomorphic(h, roots, Composed(s.table, r.binding), r.vs, r.store);
  }
}
