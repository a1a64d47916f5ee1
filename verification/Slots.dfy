// Slots of objects: inheritance through parents, and assignment with
// copy-down.
module Slots {
  import opened Values
  import opened Tables

  datatype Parents = NoParents | One(o: nat) | Many(os: seq<nat>)

  datatype Slot = Slot(name: Key, flags: nat, value: Value, owner: nat)

  // Parents and attribute tables of every object, every slot, and the object
  // a slot is in.
  datatype World = World(parents: map<nat, Parents>, attrs: map<nat, map<Key, nat>>, slots: map<nat, Slot>,
                         home: map<nat, nat>)

  const OWNER_MASK: nat := 0xF00

  function ParentList(p: Parents): seq<nat> {
    match p
    case NoParents => []
    case One(o) => [o]
    case Many(os) => os
  }

  predicate Placed(w: World, o: nat, k: Key)
    requires o in w.attrs && k in w.attrs[o]
  {
    var s := w.attrs[o][k];
    s != 0 && s in w.slots && s in w.home && w.slots[s].name == k && w.home[s] == o
  }

  // Every slot is in one table, under its name.
  predicate Consistent(w: World) {
    && w.parents.Keys == w.attrs.Keys
    && forall o, k {:trigger Placed(w, o, k)} | o in w.attrs && k in w.attrs[o] :: Placed(w, o, k)
  }

  // The parent graph is acyclic: ranks fall from child to parent.
  predicate Ranked(parents: map<nat, Parents>, rank: map<nat, nat>) {
    forall o | o in parents :: o in rank && Lower(parents, rank, ParentList(parents[o]), rank[o])
  }

  predicate Lower(parents: map<nat, Parents>, rank: map<nat, nat>, os: seq<nat>, r: nat) {
    forall i | 0 <= i < |os| :: os[i] in parents && os[i] in rank && rank[os[i]] < r
  }

  predicate Searchable(w: World, rank: map<nat, nat>) {
    Consistent(w) && Ranked(w.parents, rank)
  }

  // ---- The order of the search ----

  // Depth first, left to right; an object that is inherited twice comes twice.
  // In layers, so that it is unfolded only where OrderDef is called.
  function Order(parents: map<nat, Parents>, rank: map<nat, nat>, o: nat): seq<nat>
    requires Ranked(parents, rank) && o in parents
    decreases rank[o], 1, 2
  {
    OrderOne(parents, rank, o)
  }

  function OrderOne(parents: map<nat, Parents>, rank: map<nat, nat>, o: nat): seq<nat>
    requires Ranked(parents, rank) && o in parents
    decreases rank[o], 1, 1
  {
    OrderFrom(parents, rank, o)
  }

  function OrderFrom(parents: map<nat, Parents>, rank: map<nat, nat>, o: nat): seq<nat>
    requires Ranked(parents, rank) && o in parents
    decreases rank[o], 1, 0
  {
    [o] + OrderAll(parents, rank, ParentList(parents[o]), rank[o])
  }

  lemma OrderDef(parents: map<nat, Parents>, rank: map<nat, nat>, o: nat)
    requires Ranked(parents, rank) && o in parents
    ensures Lower(parents, rank, ParentList(parents[o]), rank[o])
    ensures Order(parents, rank, o) == [o] + OrderAll(parents, rank, ParentList(parents[o]), rank[o])
  {
    assert OrderOne(parents, rank, o) == OrderFrom(parents, rank, o);
  }

  function OrderAll(parents: map<nat, Parents>, rank: map<nat, nat>, os: seq<nat>, r: nat): seq<nat>
    requires Ranked(parents, rank) && Lower(parents, rank, os, r)
    decreases r, 0, |os|
  {
    if os == [] then []
    else
      assert Lower(parents, rank, os[1..], r) by { assert forall i | 0 <= i < |os[1..]| :: os[1..][i] == os[i + 1]; }
      Order(parents, rank, os[0]) + OrderAll(parents, rank, os[1..], r)
  }

  predicate Within(w: World, os: seq<nat>) {
    forall i | 0 <= i < |os| :: os[i] in w.attrs
  }

  // The first object of the list that has the slot itself.
  function First(w: World, os: seq<nat>, k: Key): (r: Option<nat>)
    requires Within(w, os)
    ensures r.Some? ==> r.value in w.attrs && k in w.attrs[r.value] && r.value in os
  {
    if os == [] then None else if k in w.attrs[os[0]] then Some(os[0]) else First(w, os[1..], k)
  }

  lemma {:induction false} FirstOfBoth(w: World, xs: seq<nat>, ys: seq<nat>, k: Key)
    requires Within(w, xs) && Within(w, ys)
    ensures Within(w, xs + ys)
    ensures First(w, xs + ys, k) == if First(w, xs, k).Some? then First(w, xs, k) else First(w, ys, k)
  {
    if xs == [] {
      assert xs + ys == ys;
    } else {
      assert (xs + ys)[1..] == xs[1..] + ys;
      FirstOfBoth(w, xs[1..], ys, k);
    }
  }

  lemma {:induction false} OrderWithin(w: World, rank: map<nat, nat>, o: nat)
    requires Searchable(w, rank) && o in w.parents
    ensures Within(w, Order(w.parents, rank, o))
    decreases rank[o], 1, 0
  {
    OrderDef(w.parents, rank, o);
    OrderAllWithin(w, rank, ParentList(w.parents[o]), rank[o]);
  }

  lemma {:induction false} OrderAllWithin(w: World, rank: map<nat, nat>, os: seq<nat>, r: nat)
    requires Searchable(w, rank) && Lower(w.parents, rank, os, r)
    ensures Within(w, OrderAll(w.parents, rank, os, r))
    decreases r, 0, |os|
  {
    if os != [] {
      OrderWithin(w, rank, os[0]);
      assert Lower(w.parents, rank, os[1..], r) by { assert forall i | 0 <= i < |os[1..]| :: os[1..][i] == os[i + 1]; }
      OrderAllWithin(w, rank, os[1..], r);
    }
  }

  // ---- Looking up ----

  function Holder(w: World, rank: map<nat, nat>, o: nat, k: Key): Option<nat>
    requires Searchable(w, rank) && o in w.parents
  {
    OrderWithin(w, rank, o);
    First(w, Order(w.parents, rank, o), k)
  }

  // None of these objects has or inherits the slot; `i` is the first that does,
  // from `h`.
  predicate NoneHas(w: World, rank: map<nat, nat>, ps: seq<nat>, r: nat, k: Key)
    requires Searchable(w, rank) && Lower(w.parents, rank, ps, r)
  {
    forall i | 0 <= i < |ps| :: Holder(w, rank, ps[i], k).None?
  }

  predicate FirstHas(w: World, rank: map<nat, nat>, ps: seq<nat>, r: nat, k: Key, i: nat, h: Option<nat>)
    requires Searchable(w, rank) && Lower(w.parents, rank, ps, r)
  {
    && i < |ps| && h.Some? && h == Holder(w, rank, ps[i], k)
    && forall j | 0 <= j < i :: Holder(w, rank, ps[j], k).None?
  }

  // An object's own slot comes first; otherwise that of the first parent, `i`,
  // that has or inherits one.
  lemma Inherits(w: World, rank: map<nat, nat>, o: nat, k: Key) returns (i: nat)
    requires Searchable(w, rank) && o in w.parents
    ensures var ps, h := ParentList(w.parents[o]), Holder(w, rank, o, k);
            && Lower(w.parents, rank, ps, rank[o])
            && (k in w.attrs[o] ==> h == Some(o))
            && (k !in w.attrs[o] ==> if NoneHas(w, rank, ps, rank[o], k) then h.None?
                                     else FirstHas(w, rank, ps, rank[o], k, i, h))
  {
    var ps := ParentList(w.parents[o]);
    OrderDef(w.parents, rank, o);
    OrderWithin(w, rank, o);
    OrderAllWithin(w, rank, ps, rank[o]);
    FirstOfBoth(w, [o], OrderAll(w.parents, rank, ps, rank[o]), k);
    i := InheritsFrom(w, rank, ps, rank[o], k);
  }

  lemma {:induction false} InheritsFrom(w: World, rank: map<nat, nat>, ps: seq<nat>, r: nat, k: Key) returns (i: nat)
    requires Searchable(w, rank) && Lower(w.parents, rank, ps, r)
    ensures Within(w, OrderAll(w.parents, rank, ps, r))
    ensures var h := First(w, OrderAll(w.parents, rank, ps, r), k);
            if NoneHas(w, rank, ps, r, k) then h.None? else FirstHas(w, rank, ps, r, k, i, h)
    decreases |ps|
  {
    i := 0;
    OrderAllWithin(w, rank, ps, r);
    if ps != [] {
      var tl, h := ps[1..], First(w, OrderAll(w.parents, rank, ps, r), k);
      assert Lower(w.parents, rank, tl, r) by { assert forall i | 0 <= i < |tl| :: tl[i] == ps[i + 1]; }
      var j := InheritsFrom(w, rank, tl, r, k);
      OrderWithin(w, rank, ps[0]);
      FirstOfBoth(w, Order(w.parents, rank, ps[0]), OrderAll(w.parents, rank, tl, r), k);
      if Holder(w, rank, ps[0], k).None? {
        OneLater(w, rank, ps, r, k, j, h);
        i := j + 1;
      }
    }
  }

  // The first object has no such slot: the answer is that of the others.
  lemma OneLater(w: World, rank: map<nat, nat>, ps: seq<nat>, r: nat, k: Key, i: nat, h: Option<nat>)
    requires Searchable(w, rank) && Lower(w.parents, rank, ps, r) && ps != [] && Lower(w.parents, rank, ps[1..], r)
    requires Holder(w, rank, ps[0], k).None?
    requires if NoneHas(w, rank, ps[1..], r, k) then h.None? else FirstHas(w, rank, ps[1..], r, k, i, h)
    ensures if NoneHas(w, rank, ps, r, k) then h.None? else FirstHas(w, rank, ps, r, k, i + 1, h)
  {
    assert forall i | 0 < i < |ps| :: ps[i] == ps[1..][i - 1];
  }

  // The slot an object sees, and who holds it.
  function Lookup(w: World, rank: map<nat, nat>, o: nat, k: Key): Option<(Slot, nat)>
    requires Searchable(w, rank) && o in w.parents
  {
    OrderWithin(w, rank, o);
    Seen(w, Order(w.parents, rank, o), k)
  }

  function Seen(w: World, os: seq<nat>, k: Key): Option<(Slot, nat)>
    requires Consistent(w) && Within(w, os)
  {
    match First(w, os, k)
    case None => None
    case Some(h) => assert Placed(w, h, k); Some((w.slots[w.attrs[h][k]], h))
  }

  // ---- Assigning ----

  datatype Outcome = Done | NotFound | NoPermission

  function Entered(m: map<Key, nat>, k: Key, s: nat): map<Key, nat> {
    m[k := s]
  }

  // A new, empty slot in an object's own table.
  function AddSlot(w: World, o: nat, k: Key, owner: nat, s: nat): World
    requires o in w.attrs
  {
    w.(attrs := w.attrs[o := Entered(w.attrs[o], k, s)], slots := w.slots[s := Slot(k, OWNER_MASK, UNDEFINED, owner)],
       home := w.home[s := o])
  }

  // The value goes into the object's own slot; into a copy of an inherited
  // one, with its owner and flags.  `s` is the number a new slot would get.
  function SlotSet(w: World, rank: map<nat, nat>, x: nat, k: Key, v: Value, mayRead: bool, mayWrite: bool,
                   s: nat): (World, Outcome)
    requires Searchable(w, rank) && x in w.parents
  {
    if !mayRead then (w, NoPermission)
    else
      match Lookup(w, rank, x, k)
      case None => (w, NotFound)
      case Some((_, h)) =>
        if !mayWrite then (w, NoPermission)
        else
          OrderWithin(w, rank, x);
          assert Placed(w, h, k);
          (Written(w, x, k, v, s, w.attrs[h][k], h), Done)
  }

  function Written(w: World, x: nat, k: Key, v: Value, s: nat, found: nat, h: nat): World
    requires x in w.attrs && found in w.slots
  {
    var slot := w.slots[found];
    if h == x then Filled(w, found, slot.(value := v))
    else
      var w2 := AddSlot(w, x, k, slot.owner, s);
      Filled(w2, s, w2.slots[s].(flags := slot.flags, value := v))
  }

  // The search comes to `x` before it finds the slot anywhere else.
  predicate Reaches(w: World, os: seq<nat>, x: nat, k: Key)
    requires Within(w, os)
  {
    os != [] && (os[0] == x || (k !in w.attrs[os[0]] && Reaches(w, os[1..], x, k)))
  }

  // ---- What assignment does to every lookup ----

  ghost predicate Assigned(w: World, w2: World, x: nat, k: Key, slot: Slot) {
    && Consistent(w) && Consistent(w2) && w2.parents == w.parents && x in w.attrs
    && w2.attrs == w.attrs[x := w2.attrs[x]] && k in w2.attrs[x]
    && (forall j | j != k ::
          (j in w2.attrs[x] <==> j in w.attrs[x]) && (j in w.attrs[x] ==> w2.attrs[x][j] == w.attrs[x][j]))
    && (forall s | s in w.slots && s != w2.attrs[x][k] :: s in w2.slots && w2.slots[s] == w.slots[s])
    && w2.attrs[x][k] in w2.slots && w2.slots[w2.attrs[x][k]] == slot
  }

  lemma {:induction false} SeenAfter(w: World, w2: World, x: nat, k: Key, slot: Slot, os: seq<nat>, j: Key)
    requires Assigned(w, w2, x, k, slot) && Within(w, os)
    ensures Within(w2, os)
    ensures Seen(w2, os, j) == if j == k && Reaches(w, os, x, k) then Some((slot, x)) else Seen(w, os, j)
  {
    assert Placed(w2, x, k);
    if os != [] {
      SeenAfter(w, w2, x, k, slot, os[1..], j);
      if j in w.attrs[os[0]] {
        assert Placed(w, os[0], j);
      }
      if j in w2.attrs[os[0]] {
        assert Placed(w2, os[0], j);
      }
    }
  }

  predicate SlotsBelow(w: World, n: nat) {
    n > 0 && (forall s | s in w.slots :: s < n) && forall s | s in w.home :: s < n
  }

  // An unused slot number.
  predicate Unclaimed(w: World, s: nat) {
    s != 0 && s !in w.slots && s !in w.home
  }

  lemma CopyDown(w: World, x: nat, k: Key, s: nat, slot: Slot)
    requires Consistent(w) && x in w.attrs && k !in w.attrs[x] && Unclaimed(w, s) && slot.name == k
    ensures var w1 := AddSlot(w, x, k, slot.owner, s);
            Assigned(w, w1.(slots := w1.slots[s := slot]), x, k, slot)
  {
    var w1 := AddSlot(w, x, k, slot.owner, s);
    var w2 := w1.(slots := w1.slots[s := slot]);
    forall o, j | o in w2.attrs && j in w2.attrs[o]
      ensures Placed(w2, o, j)
    {
      if !(o == x && j == k) {
        assert Placed(w, o, j);
      }
    }
  }

  lemma SetInPlace(w: World, x: nat, k: Key, v: Value)
    requires Consistent(w) && x in w.attrs && k in w.attrs[x]
    ensures Placed(w, x, k)
    ensures var s := w.attrs[x][k];
            var slot := w.slots[s].(value := v);
            Assigned(w, w.(slots := w.slots[s := slot]), x, k, slot)
  {
    assert Placed(w, x, k);
    var s := w.attrs[x][k];
    var w2 := w.(slots := w.slots[s := w.slots[s].(value := v)]);
    forall o, j | o in w2.attrs && j in w2.attrs[o]
      ensures Placed(w2, o, j)
    {
      assert Placed(w, o, j);
    }
  }

  // After a permitted assignment to a slot that `x` sees, every object whose
  // search comes to `x` in time sees the slot there with the new value and
  // the old owner and flags; no other lookup, of any name from any object,
  // has changed.  `x` itself is one that sees it.
  lemma AssignmentSeen(w: World, rank: map<nat, nat>, x: nat, k: Key, v: Value, s: nat, y: nat, j: Key)
    requires Searchable(w, rank) && x in w.parents && y in w.parents && Unclaimed(w, s)
    requires Lookup(w, rank, x, k).Some?
    ensures Within(w, Order(w.parents, rank, x)) && Within(w, Order(w.parents, rank, y))
    ensures var (w2, outcome) := SlotSet(w, rank, x, k, v, true, true, s);
            && outcome == Done && Consistent(w2) && w2.parents == w.parents
            && Reaches(w, Order(w.parents, rank, x), x, k)
            && Lookup(w2, rank, y, j) ==
               if j == k && Reaches(w, Order(w.parents, rank, y), x, k)
               then Some((Lookup(w, rank, x, k).value.0.(value := v), x))
               else Lookup(w, rank, y, j)
  {
    OrderWithin(w, rank, x);
    OrderWithin(w, rank, y);
    OrderDef(w.parents, rank, x);
    var os := Order(w.parents, rank, x);
    var (slot, h) := Lookup(w, rank, x, k).value;
    assert os[0] == x;
    assert Placed(w, h, k);
    if h == x {
      SetInPlace(w, x, k, v);
    } else {
      CopyDown(w, x, k, s, slot.(value := v));
    }
    var w2 := SlotSet(w, rank, x, k, v, true, true, s).0;
    SeenAfter(w, w2, x, k, slot.(value := v), Order(w.parents, rank, y), j);
  }

  // Refused assignments change nothing.
  lemma RefusalChangesNothing(w: World, rank: map<nat, nat>, x: nat, k: Key, v: Value, mayRead: bool, mayWrite: bool,
                              s: nat)
    requires Searchable(w, rank) && x in w.parents
    ensures var (w2, outcome) := SlotSet(w, rank, x, k, v, mayRead, mayWrite, s);
            && (outcome == Done <==> mayRead && mayWrite && Lookup(w, rank, x, k).Some?)
            && (outcome != Done ==> w2 == w)
  {
  }

  // ---- The code ----

  // The world itself if it is well formed and its slot numbers are below `n`.
  ghost function Checked(w: World, n: nat): Option<World> {
    if Consistent(w) && SlotsBelow(w, n) then Some(w) else None
  }

  // Every object has a table of its own.
  ghost predicate Apart(tables: map<nat, HashTable>) {
    forall o, p | o in tables && p in tables && o != p :: tables[o] != tables[p]
  }

  // What a table holds, if its chains are whole.
  ghost function Whole(t: HashTable): Option<map<Key, nat>>
    reads t
  {
    if t.Valid() then Some(t.contents) else None
  }

  // What all attribute tables hold, if their chains are whole.
  ghost function Held(tables: map<nat, HashTable>): Option<map<nat, map<Key, nat>>>
    reads tables.Values
  {
    if Apart(tables) && forall o | o in tables :: Whole(tables[o]).Some?
    then Some(Contents(tables))
    else None
  }

  ghost function Contents(tables: map<nat, HashTable>): map<nat, map<Key, nat>>
    reads tables.Values
  {
    map o | o in tables :: tables[o].contents
  }

  lemma HeldAs(tables: map<nat, HashTable>, attrs: map<nat, map<Key, nat>>)
    requires Apart(tables) && tables.Keys == attrs.Keys
    requires forall o | o in tables :: Whole(tables[o]) == Some(attrs[o])
    ensures Held(tables) == Some(attrs)
  {
    assert Contents(tables) == attrs;
  }

  lemma HeldHas(tables: map<nat, HashTable>, attrs: map<nat, map<Key, nat>>)
    requires Held(tables) == Some(attrs)
    ensures Apart(tables) && tables.Keys == attrs.Keys
    ensures forall o | o in tables :: Whole(tables[o]) == Some(attrs[o])
  {
  }

  method GetIn(tables: map<nat, HashTable>, ghost attrs: map<nat, map<Key, nat>>, o: nat, k: Key) returns (s: nat)
    requires Held(tables) == Some(attrs) && o in attrs
    ensures s == if k in attrs[o] then attrs[o][k] else 0
    ensures s == 0 <==> k !in attrs[o]
  {
    s := tables[o].Get(k);
  }

  method PutIn(tables: map<nat, HashTable>, ghost attrs: map<nat, map<Key, nat>>, o: nat, k: Key, s: nat)
    requires Held(tables) == Some(attrs) && o in tables && o in attrs
    requires s > 0 && forall j | j in attrs[o] :: attrs[o][j] < s
    modifies tables[o]
    ensures Held(tables) == Some(attrs[o := Entered(attrs[o], k, s)])
  {
    NewLink(tables[o], s);
    tables[o].Put(k, s);
    HeldAs(tables, attrs[o := Entered(attrs[o], k, s)]);
  }

  method AddTable(tables: map<nat, HashTable>, ghost attrs: map<nat, map<Key, nat>>, o: nat)
    returns (tables2: map<nat, HashTable>)
    requires Held(tables) == Some(attrs) && o !in tables
    ensures tables2.Keys == tables.Keys + {o}
    ensures Held(tables2) == Some(attrs[o := map[]])
  {
    var table := NewTable();
    tables2 := tables[o := table];
    OneMore(tables, attrs, o, table);
  }

  method NewTable() returns (t: HashTable)
    ensures fresh(t) && Whole(t) == Some(map[])
  {
    t := new HashTable(19);
  }

  lemma OneMore(tables: map<nat, HashTable>, attrs: map<nat, map<Key, nat>>, o: nat, t: HashTable)
    requires Held(tables) == Some(attrs) && o !in tables && Whole(t) == Some(map[])
    requires forall p | p in tables :: tables[p] != t
    ensures Held(tables[o := t]) == Some(attrs[o := map[]])
  {
    HeldHas(tables, attrs);
    HeldAs(tables[o := t], attrs[o := map[]]);
  }

  method RemoveIn(tables: map<nat, HashTable>, ghost attrs: map<nat, map<Key, nat>>, o: nat, k: Key)
    requires Held(tables) == Some(attrs) && o in tables && o in attrs
    modifies tables[o]
    ensures Held(tables) == Some(attrs[o := attrs[o] - {k}])
  {
    tables[o].Remove(k);
    HeldAs(tables, attrs[o := attrs[o] - {k}]);
  }

  // A slot that did not exist is in no chain.
  lemma NewLink(t: HashTable, s: nat)
    requires t.Valid() && s > 0 && forall j | j in t.contents :: t.contents[j] < s
    ensures Unused(t.chains, s)
  {
    forall b, i | 0 <= b < |t.chains| && 0 <= i < |t.chains[b]|
      ensures t.chains[b][i] != s
    {
      assert Tables.Filed(t.Form(), t.chains, t.contents, b, i);
    }
  }

  class ObjectStore {
    var parents: map<nat, Parents>
    var tables: map<nat, HashTable>
    var slots: map<nat, Slot>
    var nextSlot: nat
    ghost var home: map<nat, nat>

    // What the fields stand for, if they fit together.
    ghost function State(): Option<World>
      reads this, tables.Values
    {
      var w := World(parents, Contents(tables), slots, home);
      if Held(tables) == Some(w.attrs) then Checked(w, nextSlot) else None
    }

    ghost predicate Valid()
      reads this, tables.Values
    {
      State().Some?
    }

    ghost function Now(): World
      requires Valid()
      reads this, tables.Values
    {
      State().value
    }

    lemma Known() returns (w: World)
      requires Valid()
      ensures w == Now() && Held(tables) == Some(w.attrs) && tables.Keys == w.attrs.Keys == w.parents.Keys
      ensures w.parents == parents && w.slots == slots && w.home == home && Checked(w, nextSlot) == Some(w)
    {
      w := Now();
    }

    lemma Becomes(w: World)
      requires Held(tables) == Some(w.attrs) && w.parents == parents && w.slots == slots && w.home == home
      requires Checked(w, nextSlot) == Some(w)
      ensures State() == Some(w)
    {
    }

    constructor ()
      ensures State() == Some(World(map[], map[], map[], map[]))
    {
      parents, tables, slots, home, nextSlot := map[], map[], map[], map[], 1;
      new;
      HeldAs(tables, map[]);
      Becomes(World(map[], map[], map[], map[]));
    }

    // newobject, as far as slots go: a new table with nineteen buckets.
    method AddObject(o: nat, p: Parents)
      requires Valid() && o !in parents
      modifies `parents, `tables
      ensures State() == Some(Born(old(Now()), o, p))
    {
      ghost var w := Known();
      ghost var w2 := BornConsistent(w, o, p, nextSlot);
      var more := AddTable(tables, w.attrs, o);
      Place(o, p, more);
      Becomes(w2);
    }

    method Place(o: nat, p: Parents, more: map<nat, HashTable>)
      modifies `parents, `tables
      ensures parents == old(parents)[o := p] && tables == more && Held(more) == old(Held(more))
    {
      parents, tables := parents[o := p], more;
    }

    // The search, as a loop along single parents and a recursion into
    // vectors of them.
    method FindSlot(o: nat, k: Key, ghost w: World, ghost rank: map<nat, nat>) returns (s: nat, foundin: nat)
      requires Held(tables) == Some(w.attrs) && parents == w.parents && Searchable(w, rank) && o in w.parents
      ensures Answers(w, Holder(w, rank, o, k), k, s, foundin)
      decreases rank[o]
    {
      var obj := o;
      while true
        invariant obj in w.parents && rank[obj] <= rank[o] && Holder(w, rank, obj, k) == Holder(w, rank, o, k)
        decreases rank[obj]
      {
        SearchStep(w, rank, obj, k);
        s := GetIn(tables, w.attrs, obj, k);
        if s != 0 {
          return s, obj;
        }
        match parents[obj]
        case NoParents =>
          return 0, 0;
        case One(q) =>
          obj := q;
        case Many(os) =>
          s, foundin := FindAmong(os, k, w, rank, rank[obj]);
          return;
      }
    }

    method FindAmong(os: seq<nat>, k: Key, ghost w: World, ghost rank: map<nat, nat>, ghost r: nat)
      returns (s: nat, foundin: nat)
      requires Held(tables) == Some(w.attrs) && parents == w.parents
      requires Searchable(w, rank) && Lower(w.parents, rank, os, r)
      ensures Answers(w, HolderAmong(w, rank, os, r, k), k, s, foundin)
      decreases r, 0
    {
      s, foundin := 0, 0;
      var i := 0;
      while i < |os|
        invariant i <= |os| && Lower(w.parents, rank, os[i..], r) && s == 0
        invariant HolderAmong(w, rank, os[i..], r, k) == HolderAmong(w, rank, os, r, k)
      {
        AmongFrom(w, rank, os, i, r, k);
        s, foundin := FindSlot(os[i], k, w, rank);
        if s != 0 {
          return;
        }
        i := i + 1;
      }
      AmongSteps(w, rank, os[i..], r, k);
    }

    // addslot: a new slot, entered under its name.
    method NewSlot(o: nat, k: Key, owner: nat) returns (s: nat)
      requires Valid() && o in tables
      modifies `slots, `nextSlot, `home, tables[o]
      ensures s == old(nextSlot) && State() == Some(AddSlot(old(Now()), o, k, owner, s))
    {
      s := nextSlot;
      ghost var w := Known();
      Numbered(w, o, s);
      ghost var attrs := Enter(o, k, owner, w.attrs);
      ghost var w2 := AddedConsistent(w, o, k, owner, s, attrs, slots, home, nextSlot);
      Becomes(w2);
    }

    method Enter(o: nat, k: Key, owner: nat, ghost attrs: map<nat, map<Key, nat>>)
      returns (ghost attrs2: map<nat, map<Key, nat>>)
      requires Held(tables) == Some(attrs) && o in tables && o in attrs
      requires nextSlot > 0 && forall j | j in attrs[o] :: attrs[o][j] < nextSlot
      modifies `slots, `nextSlot, `home, tables[o]
      ensures nextSlot == old(nextSlot) + 1 && home == old(home)[old(nextSlot) := o]
      ensures slots == old(slots)[old(nextSlot) := Slot(k, OWNER_MASK, UNDEFINED, owner)]
      ensures Held(tables) == Some(attrs2) && attrs2 == attrs[o := Entered(attrs[o], k, old(nextSlot))]
    {
      PutIn(tables, attrs, o, k, nextSlot);
      MakeSlot(o, k, owner);
      attrs2 := Held(tables).value;
    }

    method MakeSlot(o: nat, k: Key, owner: nat)
      modifies `slots, `nextSlot, `home
      ensures nextSlot == old(nextSlot) + 1 && home == old(home)[old(nextSlot) := o]
      ensures slots == old(slots)[old(nextSlot) := Slot(k, OWNER_MASK, UNDEFINED, owner)]
      ensures Held(tables) == old(Held(tables))
    {
      slots := slots[nextSlot := Slot(k, OWNER_MASK, UNDEFINED, owner)];
      home := home[nextSlot := o];
      nextSlot := nextSlot + 1;
    }

    // A slot in a table is changed where it is.
    method Fill(s: nat, slot: Slot)
      requires Valid() && s in slots && slot.name == slots[s].name
      modifies `slots
      ensures State() == Some(Filled(old(Now()), s, slot))
    {
      ghost var w := Known();
      FilledConsistent(w, s, slot, nextSlot);
      slots := slots[s := slot];
      Becomes(Filled(w, s, slot));
    }

    method DelSlot(o: nat, k: Key)
      requires Valid() && o in tables
      modifies tables[o]
      ensures State() == Some(Deleted(old(Now()), o, k))
    {
      ghost var w := Known();
      RemovedConsistent(w, o, k, nextSlot);
      RemoveIn(tables, w.attrs, o, k);
      Becomes(Deleted(w, o, k));
    }

    method SetSlot(x: nat, k: Key, v: Value, mayRead: bool, mayWrite: bool, ghost rank: map<nat, nat>)
      returns (outcome: Outcome)
      requires Valid() && Ranked(parents, rank) && x in parents && x in tables
      modifies `slots, `nextSlot, `home, tables[x]
      ensures Searchable(old(Now()), rank)
      ensures var (w2, done) := SlotSet(old(Now()), rank, x, k, v, mayRead, mayWrite, old(nextSlot));
              State() == Some(w2) && outcome == done
    {
      ghost var w := Known();
      if !mayRead {
        return NoPermission;
      }
      var s, foundin := FindSlot(x, k, w, rank);
      Reading(w, rank, x, k, v, mayWrite, nextSlot, s, foundin);
      if s == 0 {
        return NotFound;
      }
      if !mayWrite {
        return NoPermission;
      }
      Assign(x, k, v, s, foundin);
      outcome := Done;
    }

    // In place, or into a copy of an inherited slot.
    method Assign(x: nat, k: Key, v: Value, s: nat, foundin: nat)
      requires Valid() && x in tables && s in slots && slots[s].name == k
      modifies `slots, `nextSlot, `home, tables[x]
      ensures x in old(Now()).attrs && s in old(Now()).slots
      ensures State() == Some(Written(old(Now()), x, k, v, old(nextSlot), s, foundin))
    {
      ghost var w := Known();
      var slot := slots[s];
      if foundin == x {
        Fill(s, slot.(value := v));
      } else {
        var copy := NewSlot(x, k, slot.owner);
        ghost var w2 := Known();
        Fill(copy, slots[copy].(flags := slot.flags, value := v));
      }
    }
  }

  function Born(w: World, o: nat, p: Parents): World {
    w.(parents := w.parents[o := p], attrs := w.attrs[o := map[]])
  }

  function Filled(w: World, s: nat, slot: Slot): World {
    w.(slots := w.slots[s := slot])
  }

  function Deleted(w: World, o: nat, k: Key): World
    requires o in w.attrs
  {
    w.(attrs := w.attrs[o := w.attrs[o] - {k}])
  }

  // An object that is new has no slots yet.
  lemma BornConsistent(w: World, o: nat, p: Parents, n: nat) returns (w2: World)
    requires Checked(w, n) == Some(w) && o !in w.parents
    ensures w2 == Born(w, o, p) && Checked(w2, n) == Some(w2) && w2.slots == w.slots && w2.home == w.home
    ensures w2.parents == w.parents[o := p] && w2.attrs == w.attrs[o := map[]]
  {
    w2 := Born(w, o, p);
    forall q, j | q in w2.attrs && j in w2.attrs[q]
      ensures Placed(w2, q, j)
    {
      assert Placed(w, q, j);
    }
  }

  lemma Numbered(w: World, o: nat, n: nat)
    requires Checked(w, n) == Some(w) && o in w.attrs
    ensures n > 0 && forall j | j in w.attrs[o] :: w.attrs[o][j] < n
  {
    forall j | j in w.attrs[o]
      ensures w.attrs[o][j] < n
    {
      assert Placed(w, o, j);
    }
  }

  lemma AddedConsistent(w: World, o: nat, k: Key, owner: nat, s: nat, attrs: map<nat, map<Key, nat>>,
                        slots: map<nat, Slot>, home: map<nat, nat>, n: nat) returns (w2: World)
    requires Checked(w, s) == Some(w) && o in w.attrs && n == s + 1
    requires attrs == w.attrs[o := Entered(w.attrs[o], k, s)] && home == w.home[s := o]
    requires slots == w.slots[s := Slot(k, OWNER_MASK, UNDEFINED, owner)]
    ensures w2 == AddSlot(w, o, k, owner, s) && Checked(w2, n) == Some(w2)
    ensures w2.parents == w.parents && w2.attrs == attrs && w2.slots == slots && w2.home == home
  {
    w2 := AddSlot(w, o, k, owner, s);
    forall p, j | p in w2.attrs && j in w2.attrs[p]
      ensures Placed(w2, p, j)
    {
      if !(p == o && j == k) {
        assert Placed(w, p, j);
      }
    }
  }

  lemma FilledConsistent(w: World, s: nat, slot: Slot, n: nat)
    requires Checked(w, n) == Some(w) && s in w.slots && slot.name == w.slots[s].name
    ensures Checked(Filled(w, s, slot), n) == Some(Filled(w, s, slot))
  {
    var w2 := Filled(w, s, slot);
    forall p, j | p in w2.attrs && j in w2.attrs[p]
      ensures Placed(w2, p, j)
    {
      assert Placed(w, p, j);
    }
  }

  lemma RemovedConsistent(w: World, o: nat, k: Key, n: nat)
    requires Checked(w, n) == Some(w) && o in w.attrs
    ensures Checked(Deleted(w, o, k), n) == Some(Deleted(w, o, k))
  {
    var w2 := Deleted(w, o, k);
    forall p, j | p in w2.attrs && j in w2.attrs[p]
      ensures Placed(w2, p, j)
    {
      assert Placed(w, p, j);
    }
  }

  // What the search's answer says about the lookup.
  lemma Reading(w: World, rank: map<nat, nat>, x: nat, k: Key, v: Value, mayWrite: bool, n: nat, s: nat, foundin: nat)
    requires Searchable(w, rank) && x in w.parents && Answers(w, Holder(w, rank, x, k), k, s, foundin)
    ensures s != 0 ==> s in w.slots && w.slots[s].name == k
    ensures SlotSet(w, rank, x, k, v, true, mayWrite, n) ==
            if s == 0 then (w, NotFound)
            else if !mayWrite then (w, NoPermission) else (Written(w, x, k, v, n, s, foundin), Done)
  {
    if s != 0 { assert Placed(w, foundin, k); }
  }

  // Null if no object holds the slot, else the slot in its holder's table.
  predicate Answers(w: World, h: Option<nat>, k: Key, s: nat, foundin: nat) {
    match h
    case None => s == 0
    case Some(o) => s != 0 && foundin == o && o in w.attrs && k in w.attrs[o] && s == w.attrs[o][k]
  }

  function HolderAmong(w: World, rank: map<nat, nat>, os: seq<nat>, r: nat, k: Key): Option<nat>
    requires Searchable(w, rank) && Lower(w.parents, rank, os, r)
  {
    OrderAllWithin(w, rank, os, r);
    First(w, OrderAll(w.parents, rank, os, r), k)
  }

  lemma HolderSteps(w: World, rank: map<nat, nat>, o: nat, k: Key)
    requires Searchable(w, rank) && o in w.parents
    ensures Lower(w.parents, rank, ParentList(w.parents[o]), rank[o])
    ensures Holder(w, rank, o, k) ==
            if k in w.attrs[o] then Some(o) else HolderAmong(w, rank, ParentList(w.parents[o]), rank[o], k)
    ensures k in w.attrs[o] ==> w.attrs[o][k] != 0
  {
    OrderDef(w.parents, rank, o);
    OrderWithin(w, rank, o);
    var rest := OrderAll(w.parents, rank, ParentList(w.parents[o]), rank[o]);
    assert Order(w.parents, rank, o)[1..] == rest;
    if k in w.attrs[o] { assert Placed(w, o, k); }
  }

  lemma AmongSteps(w: World, rank: map<nat, nat>, os: seq<nat>, r: nat, k: Key)
    requires Searchable(w, rank) && Lower(w.parents, rank, os, r)
    ensures os == [] ==> HolderAmong(w, rank, os, r, k).None?
    ensures os != [] ==> os[0] in w.parents && os[0] in rank && rank[os[0]] < r && Lower(w.parents, rank, os[1..], r)
    ensures os != [] ==> HolderAmong(w, rank, os, r, k) ==
                           if Holder(w, rank, os[0], k).Some? then Holder(w, rank, os[0], k)
                           else HolderAmong(w, rank, os[1..], r, k)
  {
    if os != [] {
      assert Lower(w.parents, rank, os[1..], r) by { assert forall i | 0 <= i < |os[1..]| :: os[1..][i] == os[i + 1]; }
      OrderWithin(w, rank, os[0]);
      OrderAllWithin(w, rank, os[1..], r);
      FirstOfBoth(w, Order(w.parents, rank, os[0]), OrderAll(w.parents, rank, os[1..], r), k);
    }
  }

  lemma AmongFrom(w: World, rank: map<nat, nat>, os: seq<nat>, i: nat, r: nat, k: Key)
    requires Searchable(w, rank) && i < |os| && Lower(w.parents, rank, os[i..], r)
    ensures os[i] in w.parents && os[i] in rank && rank[os[i]] < r && Lower(w.parents, rank, os[i + 1..], r)
    ensures HolderAmong(w, rank, os[i..], r, k) ==
            if Holder(w, rank, os[i], k).Some? then Holder(w, rank, os[i], k)
            else HolderAmong(w, rank, os[i + 1..], r, k)
  {
    AmongSteps(w, rank, os[i..], r, k);
    assert os[i..][0] == os[i] && os[i..][1..] == os[i + 1..];
  }

  // What one turn of the search is to do.
  lemma SearchStep(w: World, rank: map<nat, nat>, o: nat, k: Key)
    requires Searchable(w, rank) && o in w.parents
    ensures o in w.attrs && o in rank
    ensures k in w.attrs[o] ==> w.attrs[o][k] != 0 && Holder(w, rank, o, k) == Some(o)
    ensures k !in w.attrs[o] ==>
              match w.parents[o]
              case NoParents => Holder(w, rank, o, k) == None
              case One(p) =>
                p in w.parents && p in rank && rank[p] < rank[o] && Holder(w, rank, p, k) == Holder(w, rank, o, k)
              case Many(os) =>
                Lower(w.parents, rank, os, rank[o]) && Holder(w, rank, o, k) == HolderAmong(w, rank, os, rank[o], k)
  {
    HolderSteps(w, rank, o, k);
    match w.parents[o]
    case NoParents => AmongSteps(w, rank, [], rank[o], k);
    case One(p) =>
      AmongSteps(w, rank, [p], rank[o], k);
      AmongSteps(w, rank, [p][1..], rank[o], k);
    case Many(os) =>
  }
}
