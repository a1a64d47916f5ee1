// Object graphs as the checkpointer sees them, and their byte form.
module Graphs {
  import opened Bytes
  import opened Values

  datatype Val =
    | Nothing
    | Int(n: int)
    | Singleton(k: nat)
    | Ptr(a: nat)

  type Bits31 = x: nat | x < 0x8000_0000

  // Plain objects have seven fields: methods, attributes, parents, owner,
  // group, location, contents.
  datatype Node =
    | Plain(flags: Bits31, finalize: bool, fields: seq<Val>)
    | Raw(bytes: seq<byte>)
    | Typed(kind: Bits31, finalize: bool, elems: seq<Val>)
    | Elems(elems: seq<Val>)

  const FIELDS: nat := 7
  const MAX_LENGTH: nat := 0x2000_0000
  const T_CONNECTION: nat := 9
  const CONNECTION_SLOTS: nat := 4

  // The statically allocated vector of length zero.
  const ZERO: nat := 0
  const UNDEFINED_VAL := Singleton(2)

  // What the allocators guarantee of a single node.
  predicate Shaped(x: Node) {
    match x
    case Plain(_, _, fields) => |fields| == FIELDS
    case Raw(bytes) => |bytes| < MAX_LENGTH
    case Typed(kind, _, elems) => |elems| < MAX_LENGTH && (kind == T_CONNECTION ==> |elems| == CONNECTION_SLOTS)
    case Elems(elems) => |elems| < MAX_LENGTH
  }

  type Graph = map<nat, Node>

  // What a node's pointers are, as far as they are followed: connections are
  // written closed.
  function Kids(x: Node): seq<Val> {
    match x
    case Plain(_, _, fields) => fields
    case Raw(_) => []
    case Typed(kind, _, elems) => if kind == T_CONNECTION then Blanks(CONNECTION_SLOTS) else elems
    case Elems(elems) => elems
  }

  function Blanks(n: nat): seq<Val> {
    seq(n, i => Nothing)
  }

  predicate In(h: Graph, v: Val) {
    v.Ptr? ==> v.a in h
  }

  predicate AllIn(h: Graph, vs: seq<Val>) {
    forall i | 0 <= i < |vs| :: In(h, vs[i])
  }

  // Pointers lead into `c`.
  predicate Within(vs: seq<Val>, c: set<nat>) {
    forall i | 0 <= i < |vs| :: vs[i].Ptr? ==> vs[i].a in c
  }

  // A heap that can be written: no dangling pointers, one empty vector, fewer
  // objects than numbers.
  predicate Sound(h: Graph) {
    && (forall a | a in h :: Shaped(h[a]) && AllIn(h, Kids(h[a])))
    && (forall a | a in h :: h[a] == Elems([]) ==> a == ZERO)
    && |h| < 0x8000_0000
  }

  // ---- Byte form ----

  const NIL: byte := 0x4E
  const INT: byte := 0x49
  const SINGLE: byte := 0x53
  const REF: byte := 0x52
  const OBJ: byte := 0x4F

  function KindOf(x: Node): nat {
    match x
    case Plain(_, _, _) => 0
    case Raw(_) => 1
    case Typed(_, _, _) => 2
    case Elems(_) => 3
  }

  function LengthOf(x: Node): nat {
    match x
    case Plain(_, _, _) => 0
    case Raw(bytes) => |bytes|
    case Typed(_, _, elems) => |elems|
    case Elems(elems) => |elems|
  }

  function Flagged(x: nat, b: bool): nat {
    2 * x + if b then 1 else 0
  }

  // Length and kind, then what comes before the pointers.
  function Header(x: Node): seq<byte> {
    Be32(4 * LengthOf(x) + KindOf(x)) + Payload(x)
  }

  function Payload(x: Node): seq<byte> {
    match x
    case Plain(flags, fin, _) => Be32(Flagged(flags, fin))
    case Raw(bytes) => bytes
    case Typed(kind, fin, _) => Be32(Flagged(kind, fin))
    case Elems(_) => []
  }

  // ---- Saving ----

  // Numbers given to objects so far.
  type Table = map<nat, nat>

  datatype Saved = Saved(bytes: seq<byte>, table: Table)

  predicate Grows(t: Table, u: Table) {
    forall a | a in t :: a in u && u[a] == t[a]
  }

  // Here and below the recursion stands behind two more layers, so that proofs
  // that only pass results on do not unfold it; the `Def` lemmas open it.
  function Save(h: Graph, v: Val, t: Table): (r: Saved)
    requires Sound(h) && In(h, v) && t.Keys <= h.Keys
    ensures r.table.Keys <= h.Keys && Grows(t, r.table)
    decreases h.Keys - t.Keys, 1, 2
  {
    SaveOne(h, v, t)
  }

  function SaveOne(h: Graph, v: Val, t: Table): (r: Saved)
    requires Sound(h) && In(h, v) && t.Keys <= h.Keys
    ensures r.table.Keys <= h.Keys && Grows(t, r.table)
    decreases h.Keys - t.Keys, 1, 1
  {
    SaveValue(h, v, t)
  }

  function SaveValue(h: Graph, v: Val, t: Table): (r: Saved)
    requires Sound(h) && In(h, v) && t.Keys <= h.Keys
    ensures r.table.Keys <= h.Keys && Grows(t, r.table)
    decreases h.Keys - t.Keys, 1, 0
  {
    match v
    case Nothing => Saved([NIL], t)
    case Int(n) => Saved([INT] + Be32(n), t)
    case Singleton(k) => Saved([SINGLE, k % 256], t)
    case Ptr(a) =>
      if a in t then Saved([REF] + Be32(t[a]), t)
      else
        var n := |t|;
        assert a in h.Keys - t.Keys && a !in h.Keys - t[a := n].Keys;
        var r := SaveAll(h, Kids(h[a]), t[a := n]);
        Saved([OBJ] + Be32(n) + Header(h[a]) + r.bytes, r.table)
  }

  function SaveAll(h: Graph, vs: seq<Val>, t: Table): (r: Saved)
    requires Sound(h) && AllIn(h, vs) && t.Keys <= h.Keys
    ensures r.table.Keys <= h.Keys && Grows(t, r.table)
    decreases h.Keys - t.Keys, 2, |vs|, 2
  {
    SaveEach(h, vs, t)
  }

  function SaveEach(h: Graph, vs: seq<Val>, t: Table): (r: Saved)
    requires Sound(h) && AllIn(h, vs) && t.Keys <= h.Keys
    ensures r.table.Keys <= h.Keys && Grows(t, r.table)
    decreases h.Keys - t.Keys, 2, |vs|, 1
  {
    SaveList(h, vs, t)
  }

  function SaveList(h: Graph, vs: seq<Val>, t: Table): (r: Saved)
    requires Sound(h) && AllIn(h, vs) && t.Keys <= h.Keys
    ensures r.table.Keys <= h.Keys && Grows(t, r.table)
    decreases h.Keys - t.Keys, 2, |vs|, 0
  {
    if vs == [] then Saved([], t)
    else
      var r1 := Save(h, vs[0], t);
      var r2 := SaveAll(h, vs[1..], r1.table);
      Saved(r1.bytes + r2.bytes, r2.table)
  }

  // ---- Loading ----

  // The new heap is a sequence: objects are allocated one after another.
  type Store = seq<Node>

  // Objects bound to numbers so far.
  type Binding = map<int, nat>

  // `rest` is what has not been read; Failed stands for leaving with an error.
  datatype Loaded = Loaded(v: Val, rest: seq<byte>, binding: Binding, store: Store) | Failed
  datatype LoadedAll = LoadedAll(vs: seq<Val>, rest: seq<byte>, binding: Binding, store: Store) | FailedAll

  function Load(bs: seq<byte>, l: Binding, g: Store): (r: Loaded)
    ensures r.Loaded? ==> |r.rest| < |bs| && |g| <= |r.store|
    decreases |bs|, 0, 2
  {
    LoadOne(bs, l, g)
  }

  function LoadOne(bs: seq<byte>, l: Binding, g: Store): (r: Loaded)
    ensures r.Loaded? ==> |r.rest| < |bs| && |g| <= |r.store|
    decreases |bs|, 0, 1
  {
    LoadValue(bs, l, g)
  }

  function LoadValue(bs: seq<byte>, l: Binding, g: Store): (r: Loaded)
    ensures r.Loaded? ==> |r.rest| < |bs| && |g| <= |r.store|
    decreases |bs|, 0, 0
  {
    if bs == [] then Failed
    else if bs[0] == NIL then Loaded(Nothing, bs[1..], l, g)
    else if bs[0] == INT && |bs| >= 5 then Loaded(Int(Signed32(bs[1..5])), bs[5..], l, g)
    else if bs[0] == SINGLE && |bs| >= 2 then Loaded(Singleton(bs[1]), bs[2..], l, g)
    else if bs[0] == REF && |bs| >= 5 then
      var n := Signed32(bs[1..5]);
      if n in l then Loaded(Ptr(l[n]), bs[5..], l, g) else Failed
    else if bs[0] == OBJ && |bs| >= 9 then LoadObject(Signed32(bs[1..5]), Unsigned32(bs[5..9]), bs[9..], l, g)
    else Failed
  }

  function LoadObject(n: int, u: nat, bs: seq<byte>, l: Binding, g: Store): (r: Loaded)
    ensures r.Loaded? ==> |r.rest| <= |bs| && |g| <= |r.store|
    decreases |bs|, 2
  {
    var kind, len := u % 4, u / 4;
    if kind == 1 then
      if |bs| < len then Failed else Loaded(Ptr(|g|), bs[len..], l[n := |g|], g + [Raw(bs[..len])])
    else if kind == 3 then
      if len == 0 then Loaded(Ptr(ZERO), bs, l[n := ZERO], g) else LoadNode(n, Elems([]), len, bs, l, g)
    else if |bs| < 4 then Failed
    else
      var w := Unsigned32(bs[..4]);
      if kind == 0 then LoadNode(n, Plain(w / 2, w % 2 == 1, []), FIELDS, bs[4..], l, g)
      else LoadNode(n, Typed(w / 2, w % 2 == 1, []), len, bs[4..], l, g)
  }

  // The object is allocated and bound, then its pointers are read.
  function LoadNode(n: int, shell: Node, count: nat, bs: seq<byte>, l: Binding, g: Store): (r: Loaded)
    requires !shell.Raw?
    ensures r.Loaded? ==> |r.rest| <= |bs| && |g| <= |r.store|
    decreases |bs|, 1, count + 1
  {
    match LoadAll(count, bs, l[n := |g|], g + [shell])
    case FailedAll => Failed
    case LoadedAll(vs, rest, l2, g2) => Loaded(Ptr(|g|), rest, l2, g2[|g| := Filled(shell, vs)])
  }

  function LoadAll(count: nat, bs: seq<byte>, l: Binding, g: Store): (r: LoadedAll)
    ensures r.LoadedAll? ==> |r.rest| <= |bs| && |r.vs| == count && |g| <= |r.store|
    decreases |bs|, 1, count, 2
  {
    LoadEach(count, bs, l, g)
  }

  function LoadEach(count: nat, bs: seq<byte>, l: Binding, g: Store): (r: LoadedAll)
    ensures r.LoadedAll? ==> |r.rest| <= |bs| && |r.vs| == count && |g| <= |r.store|
    decreases |bs|, 1, count, 1
  {
    LoadList(count, bs, l, g)
  }

  function LoadList(count: nat, bs: seq<byte>, l: Binding, g: Store): (r: LoadedAll)
    ensures r.LoadedAll? ==> |r.rest| <= |bs| && |r.vs| == count && |g| <= |r.store|
    decreases |bs|, 1, count, 0
  {
    if count == 0 then LoadedAll([], bs, l, g)
    else
      match Load(bs, l, g)
      case Failed => FailedAll
      case Loaded(v, rest, l1, g1) =>
        match LoadAll(count - 1, rest, l1, g1)
        case FailedAll => FailedAll
        case LoadedAll(vs, rest2, l2, g2) => LoadedAll([v] + vs, rest2, l2, g2)
  }

  function Filled(shell: Node, vs: seq<Val>): Node
    requires !shell.Raw?
  {
    match shell
    case Plain(flags, fin, _) => Plain(flags, fin, vs)
    case Typed(kind, fin, _) => Typed(kind, fin, vs)
    case Elems(_) => Elems(vs)
  }

  // ---- The definitions, for where they are needed ----

  lemma SaveDef(h: Graph, v: Val, t: Table)
    requires Sound(h) && In(h, v) && t.Keys <= h.Keys
    ensures Save(h, v, t) == SaveValue(h, v, t)
  {
    assert SaveOne(h, v, t) == SaveValue(h, v, t);
  }

  lemma SaveAllDef(h: Graph, vs: seq<Val>, t: Table)
    requires Sound(h) && AllIn(h, vs) && t.Keys <= h.Keys
    ensures SaveAll(h, vs, t) == SaveList(h, vs, t)
  {
    assert SaveEach(h, vs, t) == SaveList(h, vs, t);
  }

  lemma LoadDef(bs: seq<byte>, l: Binding, g: Store)
    ensures Load(bs, l, g) == LoadValue(bs, l, g)
  {
    assert LoadOne(bs, l, g) == LoadValue(bs, l, g);
  }

  lemma LoadAllDef(count: nat, bs: seq<byte>, l: Binding, g: Store)
    ensures LoadAll(count, bs, l, g) == LoadList(count, bs, l, g)
  {
    assert LoadEach(count, bs, l, g) == LoadList(count, bs, l, g);
  }
}
