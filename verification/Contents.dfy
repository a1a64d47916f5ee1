// Where objects are: each object's location, and each object's list of what
// is in it.  0 is nowhere.
module Contents {
  import opened Chains
  import opened Sequences
  import opened Values

  datatype Tree = Tree(location: map<nat, nat>, contents: map<nat, seq<nat>>)

  predicate Known(t: Tree, o: nat) {
    o in t.location && o in t.contents
  }

  // ---- Steps ----

  function New(t: Tree, o: nat, owner: nat): Tree
    requires owner == 0 || owner in t.contents
  {
    var made := Tree(t.location[o := owner], t.contents[o := []]);
    if owner == 0 then made else made.(contents := made.contents[owner := [o] + t.contents[owner]])
  }

  function Move(t: Tree, o: nat, dest: nat): Tree
    requires o in t.location && (t.location[o] == 0 || t.location[o] in t.contents) && (dest == 0 || dest in t.contents)
  {
    var from := t.location[o];
    var left := if from == 0 then t.contents else t.contents[from := Dropped(t.contents[from], o)];
    Tree(t.location[o := dest], if dest == 0 then left else left[dest := [o] + left[dest]])
  }

  // ---- The invariant ----

  function Times(xs: seq<nat>, o: nat): nat {
    multiset(xs)[o]
  }

  predicate Listed(t: Tree, l: nat, o: nat)
    requires l in t.contents
  {
    Times(t.contents[l], o) == if o in t.location && t.location[o] == l then 1 else 0
  }

  // An object is once in the list of its location, and in no other.
  ghost predicate Proper(t: Tree) {
    && t.location.Keys == t.contents.Keys && 0 !in t.location
    && (forall o | o in t.location :: t.location[o] == 0 || t.location[o] in t.contents)
    && (forall l, o {:trigger Listed(t, l, o)} | l in t.contents :: Listed(t, l, o))
  }

  lemma TimesPushed(xs: seq<nat>, o: nat, p: nat)
    ensures Times([p] + xs, o) == Times(xs, o) + if o == p then 1 else 0
  {
  }

  lemma {:induction false} TimesDropped(xs: seq<nat>, o: nat, p: nat)
    ensures Times(Dropped(xs, p), o) == if o == p && Times(xs, o) > 0 then Times(xs, o) - 1 else Times(xs, o)
  {
    if xs != [] {
      assert xs == [xs[0]] + xs[1..];
      TimesPushed(xs[1..], o, xs[0]);
      if xs[0] != p {
        TimesDropped(xs[1..], o, p);
        TimesPushed(Dropped(xs[1..], p), o, xs[0]);
      }
    }
  }

  lemma NewKeeps(t: Tree, o: nat, owner: nat)
    requires Proper(t) && o != 0 && o !in t.location && (owner == 0 || owner in t.contents)
    ensures Proper(New(t, o, owner))
  {
    var t2 := New(t, o, owner);
    forall l, p | l in t2.contents
      ensures Listed(t2, l, p)
    {
      if l in t.contents {
        assert Listed(t, l, p);
        TimesPushed(t.contents[l], p, o);
      }
    }
  }

  lemma MoveKeeps(t: Tree, o: nat, dest: nat)
    requires Proper(t) && o in t.location && (dest == 0 || dest in t.contents)
    ensures Proper(Move(t, o, dest))
  {
    var t2, from := Move(t, o, dest), t.location[o];
    forall l, p | l in t2.contents
      ensures Listed(t2, l, p)
    {
      assert Listed(t, l, p);
      TimesDropped(t.contents[l], p, o);
      TimesPushed(if l == from then Dropped(t.contents[l], o) else t.contents[l], p, o);
    }
  }

  // ---- Whole runs ----

  datatype Event = Make(o: nat, owner: nat) | MoveTo(o: nat, dest: nat)

  predicate Enabled(t: Tree, e: Event) {
    match e
    case Make(o, owner) => o != 0 && o !in t.location && (owner == 0 || owner in t.contents)
    case MoveTo(o, dest) =>
      o in t.location && (t.location[o] == 0 || t.location[o] in t.contents) && (dest == 0 || dest in t.contents)
  }

  function Step(t: Tree, e: Event): Tree
    requires Enabled(t, e)
  {
    match e
    case Make(o, owner) => New(t, o, owner)
    case MoveTo(o, dest) => Move(t, o, dest)
  }

  function Run(es: seq<Event>): Option<Tree> {
    if es == [] then Some(Tree(map[], map[]))
    else
      match Run(es[..|es| - 1])
      case None => None
      case Some(t) => if Enabled(t, es[|es| - 1]) then Some(Step(t, es[|es| - 1])) else None
  }

  lemma {:induction false} RunsProper(es: seq<Event>)
    requires Run(es).Some?
    ensures Proper(Run(es).value)
  {
    if es != [] {
      RunsProper(es[..|es| - 1]);
      var t := Run(es[..|es| - 1]).value;
      match es[|es| - 1]
      case Make(o, owner) => NewKeeps(t, o, owner);
      case MoveTo(o, dest) => MoveKeeps(t, o, dest);
    }
  }

  // A new object comes to its owner, a moved one to its destination, in front
  // of what is there; no other object changes its place.
  lemma ComesFirst(es: seq<Event>, e: Event)
    requires Run(es + [e]).Some?
    ensures var o, at := e.o, if e.Make? then e.owner else e.dest;
            var t, t2 := Run(es).value, Run(es + [e]).value;
            && o in t2.location && t2.location[o] == at
            && (at != 0 ==> at in t2.contents && t2.contents[at] != [] && t2.contents[at][0] == o)
            && (e.Make? ==> o in t2.contents && t2.contents[o] == [])
            && forall p: nat | p in t.location && p != o :: p in t2.location && t2.location[p] == t.location[p]
  {
    RunsProper(es);
    assert (es + [e])[..|es|] == es;
  }

  // After any run, an object is exactly once in the contents of its location,
  // and nowhere else.
  lemma Containment(es: seq<Event>, l: nat, o: nat)
    requires Run(es).Some? && l in Run(es).value.contents && o in Run(es).value.location
    ensures var t := Run(es).value; multiset(t.contents[l])[o] == if t.location[o] == l then 1 else 0
  {
    RunsProper(es);
    assert Listed(Run(es).value, l, o);
  }

  // Moving disturbs no other object: every list keeps its other members, in
  // their order.
  lemma {:induction false} OthersKeepOrder(t: Tree, o: nat, dest: nat, l: nat)
    requires Proper(t) && o in t.location && (dest == 0 || dest in t.contents) && l in t.contents
    ensures Others(Move(t, o, dest).contents[l], o) == Others(t.contents[l], o)
  {
    var mid := MovedList(t, o, dest, l);
    OthersDropped(t.contents[l], o);
    OthersPushed(mid, o);
  }

  lemma MovedList(t: Tree, o: nat, dest: nat, l: nat) returns (mid: seq<nat>)
    requires Proper(t) && o in t.location && (dest == 0 || dest in t.contents) && l in t.contents
    ensures mid == if l == t.location[o] then Dropped(t.contents[l], o) else t.contents[l]
    ensures Move(t, o, dest).contents[l] == if l == dest then [o] + mid else mid
  {
    mid := if l == t.location[o] then Dropped(t.contents[l], o) else t.contents[l];
  }

  function Others(xs: seq<nat>, o: nat): seq<nat> {
    if xs == [] then [] else (if xs[0] == o then [] else [xs[0]]) + Others(xs[1..], o)
  }

  lemma OthersPushed(xs: seq<nat>, o: nat)
    ensures Others([o] + xs, o) == Others(xs, o)
  {
    assert ([o] + xs)[1..] == xs;
  }

  lemma {:induction false} OthersDropped(xs: seq<nat>, o: nat)
    ensures Others(Dropped(xs, o), o) == Others(xs, o)
  {
    if xs != [] && xs[0] != o {
      OthersDropped(xs[1..], o);
      assert Dropped(xs, o)[1..] == Dropped(xs[1..], o);
    }
  }

  // ---- Lists of cells ----

  datatype Cells = Cells(head: map<nat, nat>, car: map<nat, nat>, cdr: map<nat, nat>)

  predicate CellAt(c: Cells, lists: map<nat, seq<nat>>, owner: map<nat, nat>, contents: map<nat, seq<nat>>, l: nat,
                   i: nat)
    requires l in lists && l in contents && i < |lists[l]|
  {
    var x := lists[l][i];
    x in c.car && x in owner && owner[x] == l && i < |contents[l]| && contents[l][i] == c.car[x]
  }

  predicate Row(c: Cells, lists: map<nat, seq<nat>>, contents: map<nat, seq<nat>>, l: nat)
    requires l in lists && l in contents && l in c.head
  {
    |lists[l]| == |contents[l]| && IsChain(c.cdr, c.head[l], lists[l])
  }

  // The contents are spelled out in cells, none of them in two lists.
  ghost predicate Spelled(c: Cells, lists: map<nat, seq<nat>>, owner: map<nat, nat>, contents: map<nat, seq<nat>>) {
    && c.head.Keys == lists.Keys == contents.Keys
    && (forall l {:trigger Row(c, lists, contents, l)} | l in lists :: Row(c, lists, contents, l))
    && (forall l, i {:trigger CellAt(c, lists, owner, contents, l, i)} | l in lists && 0 <= i < |lists[l]| ::
          CellAt(c, lists, owner, contents, l, i))
  }

  lemma NotElsewhere(c: Cells, lists: map<nat, seq<nat>>, owner: map<nat, nat>, contents: map<nat, seq<nat>>, l: nat,
                     x: nat)
    requires Spelled(c, lists, owner, contents) && l in lists
    ensures x in lists[l] ==> x in owner && owner[x] == l
  {
    assert Row(c, lists, contents, l);
    if x in lists[l] {
      var i :| 0 <= i < |lists[l]| && lists[l][i] == x;
      assert CellAt(c, lists, owner, contents, l, i);
    }
  }

  lemma PushSpelled(c: Cells, lists: map<nat, seq<nat>>, owner: map<nat, nat>, contents: map<nat, seq<nat>>, l: nat,
                    o: nat, v: nat)
    requires Spelled(c, lists, owner, contents) && l in lists && v != 0 && v !in owner
    ensures Spelled(Cells(c.head[l := v], c.car[v := o], c.cdr[v := c.head[l]]), lists[l := [v] + lists[l]],
                    owner[v := l], contents[l := [o] + contents[l]])
  {
    var c2, lists2 := Cells(c.head[l := v], c.car[v := o], c.cdr[v := c.head[l]]), lists[l := [v] + lists[l]];
    var owner2, contents2 := owner[v := l], contents[l := [o] + contents[l]];
    forall m | m in lists2
      ensures Row(c2, lists2, contents2, m)
    {
      assert Row(c, lists, contents, m);
      NotElsewhere(c, lists, owner, contents, m, v);
      if m == l {
        PushChain(c.cdr, c.head[l], lists[l], v);
      } else {
        ChainKept(c.cdr, c.head[m], lists[m], c2.cdr);
      }
    }
    forall m, i | m in lists2 && 0 <= i < |lists2[m]|
      ensures CellAt(c2, lists2, owner2, contents2, m, i)
    {
      assert Row(c, lists, contents, m);
      if m != l {
        assert CellAt(c, lists, owner, contents, m, i);
      } else if i > 0 {
        assert CellAt(c, lists, owner, contents, m, i - 1);
      }
    }
  }

  lemma SkipSpelled(c: Cells, lists: map<nat, seq<nat>>, owner: map<nat, nat>, contents: map<nat, seq<nat>>, l: nat,
                    i: nat)
    requires Spelled(c, lists, owner, contents) && l in lists && i < |lists[l]|
    ensures lists[l][i] in c.cdr && |lists[l]| == |contents[l]|
    ensures Spelled(c.(head := c.head[l := if i == 0 then c.cdr[lists[l][0]] else c.head[l]],
                       cdr := Skipped(c.cdr, lists[l], i)),
                    lists[l := Without(lists[l], i)], owner, contents[l := Without(contents[l], i)])
  {
    var xs := lists[l];
    assert Row(c, lists, contents, l);
    SkipChain(c.cdr, c.head[l], xs, i);
    var c2 := c.(head := c.head[l := if i == 0 then c.cdr[xs[0]] else c.head[l]], cdr := Skipped(c.cdr, xs, i));
    var lists2, contents2 := lists[l := Without(xs, i)], contents[l := Without(contents[l], i)];
    forall m | m in lists2
      ensures Row(c2, lists2, contents2, m)
    {
      assert Row(c, lists, contents, m);
      if m != l {
        if i > 0 {
          assert CellAt(c, lists, owner, contents, l, i - 1);
          NotElsewhere(c, lists, owner, contents, m, xs[i - 1]);
        }
        ChainKept(c.cdr, c.head[m], lists[m], c2.cdr);
      }
    }
    forall m, j | m in lists2 && 0 <= j < |lists2[m]|
      ensures CellAt(c2, lists2, owner, contents2, m, j)
    {
      var k := if m == l && j >= i then j + 1 else j;
      assert CellAt(c, lists, owner, contents, m, k);
    }
  }

  // ---- The code ----

  class ObjectTree {
    var location: map<nat, nat>
    var c: Cells
    var nextCell: nat
    ghost var lists: map<nat, seq<nat>>
    ghost var owner: map<nat, nat>
    ghost var contents: map<nat, seq<nat>>

    ghost function Now(): Tree
      reads `location, `contents
    {
      Tree(location, contents)
    }

    ghost predicate Valid()
      reads this
    {
      && Spelled(c, lists, owner, contents) && Proper(Now())
      && nextCell > 0 && forall x | x in owner :: x < nextCell
    }

    constructor ()
      ensures Valid() && Now() == Tree(map[], map[])
    {
      location, c, nextCell := map[], Cells(map[], map[], map[]), 1;
      lists, owner, contents := map[], map[], map[];
    }

    // CONS onto the contents of `l`.
    method Push(l: nat, o: nat)
      requires Spelled(c, lists, owner, contents) && l in contents && nextCell > 0
               && forall x | x in owner :: x < nextCell
      modifies `c, `nextCell, `lists, `owner, `contents
      ensures Spelled(c, lists, owner, contents) && contents == old(contents)[l := [o] + old(contents)[l]]
      ensures nextCell > 0 && forall x | x in owner :: x < nextCell
    {
      var link := nextCell;
      PushSpelled(c, lists, owner, contents, l, o, link);
      nextCell := nextCell + 1;
      c := Cells(c.head, c.car[link := o], c.cdr[link := c.head[l]]);
      c := c.(head := c.head[l := link]);
      lists, owner, contents := lists[l := [link] + lists[l]], owner[link := l], contents[l := [o] + contents[l]];
    }

    // contents_remove: takes the first cell that holds `o' out of the list and
    // returns what the list begins with now.
    method ContentsRemove(first: nat, o: nat, ghost l: nat) returns (r: nat)
      requires Spelled(c, lists, owner, contents) && l in contents && first == c.head[l]
      modifies `c, `lists, `contents
      ensures c.head == old(c.head) && Spelled(c.(head := c.head[l := r]), lists, owner, contents)
      ensures contents == old(contents)[l := Dropped(old(contents)[l], o)]
    {
      var curr, prev := first, 0;
      ghost var xs, os, i := lists[l], contents[l], 0;
      assert Row(c, lists, contents, l);
      while curr != 0
        invariant c == old(c) && lists == old(lists) && contents == old(contents)
        invariant i <= |xs| && curr == At(xs, i) && prev == At(xs, i - 1) && o !in os[..i]
        decreases |xs| - i
      {
        CellHere(c, lists, owner, contents, l, i);
        if c.car[curr] == o {
          DroppedAt(os, o, i);
          SkipSpelled(c, lists, owner, contents, l, i);
          lists, contents := lists[l := Without(xs, i)], contents[l := Without(os, i)];
          if prev == 0 {
            return c.cdr[curr];
          }
          c := c.(cdr := c.cdr[prev := c.cdr[curr]]);
          return first;
        }
        prev, curr, i := curr, c.cdr[curr], i + 1;
      }
      ChainEnds(c.cdr, c.head[l], xs, i);
      assert os[..i] == os;
      NotDropped(os, o);
      assert c.head[l := first] == c.head && contents[l := os] == contents;
      r := first;
    }

    method MoveTo(o: nat, dest: nat)
      requires Valid() && o in location && (dest == 0 || dest in contents)
      modifies `location, `c, `nextCell, `lists, `owner, `contents
      ensures Valid() && Now() == Move(old(Now()), o, dest)
    {
      MoveKeeps(Now(), o, dest);
      var from := location[o];
      if from != 0 {
        var r := ContentsRemove(c.head[from], o, from);
        c := c.(head := c.head[from := r]);
      }
      location := location[o := dest];
      if dest != 0 {
        Push(dest, o);
      }
    }

    method NewObject(o: nat, parent: nat)
      requires Valid() && o != 0 && o !in location && (parent == 0 || parent in contents)
      modifies `location, `c, `nextCell, `lists, `owner, `contents
      ensures Valid() && Now() == New(old(Now()), o, parent)
    {
      NewKeeps(Now(), o, parent);
      NewRow(c, lists, owner, contents, o);
      location := location[o := parent];
      c := c.(head := c.head[o := 0]);
      lists, contents := lists[o := []], contents[o := []];
      if parent != 0 {
        Push(parent, o);
      }
    }
  }

  lemma CellHere(c: Cells, lists: map<nat, seq<nat>>, owner: map<nat, nat>, contents: map<nat, seq<nat>>, l: nat,
                 i: nat)
    requires Spelled(c, lists, owner, contents) && l in lists && i <= |lists[l]| && At(lists[l], i) != 0
    ensures i < |lists[l]| == |contents[l]| && IsChain(c.cdr, c.head[l], lists[l])
    ensures var x := lists[l][i];
            x in c.car && c.car[x] == contents[l][i] && x in c.cdr && c.cdr[x] == At(lists[l], i + 1)
    ensures At(lists[l], i - 1) == 0 <==> i == 0
  {
    assert Row(c, lists, contents, l) && CellAt(c, lists, owner, contents, l, i);
    assert LinkAt(c.cdr, lists[l], i);
    PrevIs(c.cdr, c.head[l], lists[l], i);
  }

  lemma NewRow(c: Cells, lists: map<nat, seq<nat>>, owner: map<nat, nat>, contents: map<nat, seq<nat>>, o: nat)
    requires Spelled(c, lists, owner, contents) && o !in lists
    ensures Spelled(c.(head := c.head[o := 0]), lists[o := []], owner, contents[o := []])
  {
    var c2, lists2, contents2 := c.(head := c.head[o := 0]), lists[o := []], contents[o := []];
    forall m | m in lists2
      ensures Row(c2, lists2, contents2, m)
    {
      if m != o { assert Row(c, lists, contents, m); }
    }
    forall m, i | m in lists2 && 0 <= i < |lists2[m]|
      ensures CellAt(c2, lists2, owner, contents2, m, i)
    {
      assert CellAt(c, lists, owner, contents, m, i);
    }
  }
}
