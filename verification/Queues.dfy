// The scheduler's three doubly linked queues.  Threads are known by their
// numbers; 0 is no thread.
module Queues {
  import opened Sequences
  import opened Values

  datatype Q = RunQ | BlockQ | SleepQ

  // One of something for every queue.
  datatype Each<T> = Each(run: T, block: T, sleep: T) {
    function Get(q: Q): T {
      match q
      case RunQ => run
      case BlockQ => block
      case SleepQ => sleep
    }

    function Put(q: Q, x: T): Each<T> {
      match q
      case RunQ => this.(run := x)
      case BlockQ => this.(block := x)
      case SleepQ => this.(sleep := x)
    }
  }

  // Queue heads and tails, and the links and queue field of every thread.
  datatype Links = Links(head: Each<nat>, tail: Each<nat>, next: map<nat, nat>, prev: map<nat, nat>,
                         queue: map<nat, Option<Q>>)

  // Push onto the front.
  function Enq(s: Links, q: Q, t: nat): Links {
    var h := s.head.Get(q);
    Links(s.head.Put(q, t), if h != 0 then s.tail else s.tail.Put(q, t),
          s.next[t := h], if h != 0 then s.prev[t := 0][h := t] else s.prev[t := 0], s.queue[t := Some(q)])
  }

  // Take out, wherever it stands.  The thread's own links stay as they are.
  function Deq(s: Links, q: Q, t: nat): Links
    requires t in s.next && t in s.prev
  {
    var p, n := s.prev[t], s.next[t];
    Links(if p != 0 then s.head else s.head.Put(q, n), if n != 0 then s.tail else s.tail.Put(q, p),
          if p != 0 then s.next[p := n] else s.next, if n != 0 then s.prev[n := p] else s.prev, s.queue[t := None])
  }

  // ---- What a well-formed queue is ----

  predicate Placed(s: Links, q: Q, xs: seq<nat>, i: nat)
    requires i < |xs|
  {
    var x := xs[i];
    && x != 0 && x in s.next && x in s.prev && x in s.queue
    && s.next[x] == At(xs, i + 1) && s.prev[x] == At(xs, i - 1) && s.queue[x] == Some(q)
  }

  // The threads of queue `q`, front first.
  predicate IsQueue(s: Links, q: Q, xs: seq<nat>) {
    && s.head.Get(q) == At(xs, 0) && s.tail.Get(q) == At(xs, |xs| - 1) && Distinct(xs)
    && forall i {:trigger Placed(s, q, xs, i)} | 0 <= i < |xs| :: Placed(s, q, xs, i)
  }

  type Lists = Each<seq<nat>>

  predicate AreQueues(s: Links, ls: Lists) {
    IsQueue(s, RunQ, ls.run) && IsQueue(s, BlockQ, ls.block) && IsQueue(s, SleepQ, ls.sleep)
  }

  lemma QueueOf(s: Links, ls: Lists, q: Q)
    requires AreQueues(s, ls)
    ensures IsQueue(s, q, ls.Get(q))
  {
  }

  // No thread is in two queues: its queue field is one value.
  lemma Apart(s: Links, q: Q, xs: seq<nat>, q2: Q, ys: seq<nat>, x: nat)
    requires IsQueue(s, q, xs) && IsQueue(s, q2, ys) && x in xs && x in ys
    ensures q == q2
  {
    var i :| 0 <= i < |xs| && xs[i] == x;
    var j :| 0 <= j < |ys| && ys[j] == x;
    assert Placed(s, q, xs, i) && Placed(s, q2, ys, j);
  }

  predicate Waiting(ls: Lists, t: nat) {
    t in ls.run || t in ls.block || t in ls.sleep
  }

  lemma EnqKeeps(s: Links, ls: Lists, q: Q, t: nat)
    requires AreQueues(s, ls) && t != 0 && !Waiting(ls, t)
    ensures AreQueues(Enq(s, q, t), ls.Put(q, [t] + ls.Get(q)))
  {
    QueueOf(s, ls, q);
    EnqHere(s, q, t, ls.Get(q));
    if q != RunQ { EnqElsewhere(s, q, ls.Get(q), t, RunQ, ls.run); }
    if q != BlockQ { EnqElsewhere(s, q, ls.Get(q), t, BlockQ, ls.block); }
    if q != SleepQ { EnqElsewhere(s, q, ls.Get(q), t, SleepQ, ls.sleep); }
  }

  lemma EnqHere(s: Links, q: Q, t: nat, xs: seq<nat>)
    requires IsQueue(s, q, xs) && t != 0 && t !in xs
    ensures IsQueue(Enq(s, q, t), q, [t] + xs)
  {
    var r, ys := Enq(s, q, t), [t] + xs;
    forall i | 0 <= i < |ys|
      ensures Placed(r, q, ys, i)
    {
      if i > 0 {
        assert ys[i] == xs[i - 1] && Placed(s, q, xs, i - 1);
      }
    }
    if xs != [] { assert Placed(s, q, xs, 0); }
  }

  lemma EnqElsewhere(s: Links, q: Q, ys: seq<nat>, t: nat, p: Q, xs: seq<nat>)
    requires IsQueue(s, q, ys) && IsQueue(s, p, xs) && p != q && t !in xs
    ensures IsQueue(Enq(s, q, t), p, xs)
  {
    var r := Enq(s, q, t);
    forall i | 0 <= i < |xs|
      ensures Placed(r, p, xs, i)
    {
      assert Placed(s, p, xs, i) && xs[i] in xs;
      if ys != [] {
        assert Placed(s, q, ys, 0);
      }
    }
  }

  lemma DeqKeeps(s: Links, ls: Lists, q: Q, i: nat)
    requires AreQueues(s, ls) && i < |ls.Get(q)|
    ensures ls.Get(q)[i] in s.next && ls.Get(q)[i] in s.prev
    ensures AreQueues(Deq(s, q, ls.Get(q)[i]), ls.Put(q, Without(ls.Get(q), i)))
  {
    QueueOf(s, ls, q);
    assert Placed(s, q, ls.Get(q), i);
    DeqHere(s, q, ls.Get(q), i);
    if q != RunQ { DeqElsewhere(s, q, ls.Get(q), i, RunQ, ls.run); }
    if q != BlockQ { DeqElsewhere(s, q, ls.Get(q), i, BlockQ, ls.block); }
    if q != SleepQ { DeqElsewhere(s, q, ls.Get(q), i, SleepQ, ls.sleep); }
  }

  lemma DeqHere(s: Links, q: Q, xs: seq<nat>, i: nat)
    requires IsQueue(s, q, xs) && i < |xs| && Placed(s, q, xs, i)
    ensures IsQueue(Deq(s, q, xs[i]), q, Without(xs, i))
  {
    var r, ys := Deq(s, q, xs[i]), Without(xs, i);
    forall j | 0 <= j < |ys|
      ensures Placed(r, q, ys, j)
    {
      DeqPlaced(s, q, xs, i, j);
    }
    WithoutDistinct(xs, i);
    AtWithout(xs, i, 0);
    AtWithout(xs, i, |ys| - 1);
    DeqEnds(s, q, xs, i);
  }

  lemma DeqEnds(s: Links, q: Q, xs: seq<nat>, i: nat)
    requires IsQueue(s, q, xs) && i < |xs| && Placed(s, q, xs, i)
    ensures var r := Deq(s, q, xs[i]);
            && r.head.Get(q) == (if i == 0 then At(xs, 1) else At(xs, 0))
            && r.tail.Get(q) == (if i == |xs| - 1 then At(xs, |xs| - 2) else At(xs, |xs| - 1))
  {
    if i > 0 { assert Placed(s, q, xs, i - 1); }
    if i + 1 < |xs| { assert Placed(s, q, xs, i + 1); }
  }

  lemma DeqPlaced(s: Links, q: Q, xs: seq<nat>, i: nat, j: nat)
    requires IsQueue(s, q, xs) && i < |xs| && Placed(s, q, xs, i) && j < |xs| - 1
    ensures Placed(Deq(s, q, xs[i]), q, Without(xs, i), j)
  {
    var k, ys := if j < i then j else j + 1, Without(xs, i);
    AtWithout(xs, i, j - 1);
    AtWithout(xs, i, j + 1);
    assert ys[j] == xs[k];
    DeqLinks(s, q, xs, i, k);
  }

  lemma DeqLinks(s: Links, q: Q, xs: seq<nat>, i: nat, k: nat)
    requires IsQueue(s, q, xs) && i < |xs| && Placed(s, q, xs, i) && k < |xs| && k != i
    ensures var r, x := Deq(s, q, xs[i]), xs[k];
            && x != 0 && x in r.next && x in r.prev && x in r.queue && r.queue[x] == Some(q)
            && r.next[x] == (if k + 1 == i then At(xs, i + 1) else At(xs, k + 1))
            && r.prev[x] == (if k == i + 1 then At(xs, i - 1) else At(xs, k - 1))
  {
    assert Placed(s, q, xs, k);
    if i > 0 { assert Placed(s, q, xs, i - 1); }
    if i + 1 < |xs| { assert Placed(s, q, xs, i + 1); }
  }

  lemma DeqElsewhere(s: Links, q: Q, ys: seq<nat>, i: nat, p: Q, xs: seq<nat>)
    requires IsQueue(s, q, ys) && IsQueue(s, p, xs) && i < |ys| && Placed(s, q, ys, i) && p != q
    ensures IsQueue(Deq(s, q, ys[i]), p, xs)
  {
    var r := Deq(s, q, ys[i]);
    forall j | 0 <= j < |xs|
      ensures Placed(r, p, xs, j)
    {
      assert Placed(s, p, xs, j);
      if i > 0 { assert Placed(s, q, ys, i - 1); }
      if i + 1 < |ys| { assert Placed(s, q, ys, i + 1); }
    }
  }
}
