// The green-thread scheduler: queues, thread table and counts, changed while
// the queues are walked.
module Scheduling {
  import opened Queues
  import opened Sequences
  import opened Values

  const TABLE_SIZE: nat := 2131

  const NOT_BLOCKED: int := 0
  const READLINE: int := 1
  const ACCEPT: int := 2
  const LOCKING: int := 3

  class Scheduler {
    var links: Links                 // queue heads and tails, and every thread's links and queue
    var kind: map<nat, int>          // contextkind
    var yielding: map<nat, bool>     // the accumulator is yield_thread
    var tab: seq<seq<nat>>           // threadtab
    var active: int                  // num_active
    var nextNumber: nat
    var current: nat
    ghost var ls: Lists
    ghost var ran: seq<nat>          // threads given to run_vm, in order
    ghost var tried: seq<nat>        // blocked threads tried, in order
    ghost var died: seq<nat>         // threads that run_vm has found finished

    // Every registered thread is in exactly one queue and in its bucket of
    // the table, and the counts agree.
    // A blocked thread says what it waits for.
    ghost predicate Valid()
      reads `links, `kind, `yielding, `tab, `active, `nextNumber, `ls
    {
      Linked() && Blocked(ls.block, kind)
    }

    ghost predicate Linked()
      reads `links, `kind, `yielding, `tab, `active, `nextNumber, `ls
    {
      && AreQueues(links, ls)
      && Agrees(tab, ls)
      && active == Count(ls)
      && Known(ls, nextNumber, kind, yielding)
    }

    constructor ()
      ensures Valid() && ls == Each([], [], []) && active == 0 && nextNumber == 1 && current == 0
    {
      links := Links(Each(0, 0, 0), Each(0, 0, 0), map[], map[], map[]);
      kind, yielding := map[], map[];
      tab := seq(TABLE_SIZE, i => []);
      active, nextNumber, current := 0, 1, 0;
      ls, ran, tried := Each([], [], []), [], [];
    }

    // ---- Queues ----

    method EnqLinks(q: Q, t: nat)
      modifies `links
      ensures links == Queues.Enq(old(links), q, t)
    {
      var h := links.head.Get(q);
      links := links.(prev := links.prev[t := 0], next := links.next[t := h]);
      if h != 0 {
        links := links.(prev := links.prev[h := t]);
      } else {
        links := links.(tail := links.tail.Put(q, t));
      }
      links := links.(head := links.head.Put(q, t), queue := links.queue[t := Some(q)]);
    }

    method DeqLinks(q: Q, t: nat)
      requires t in links.next && t in links.prev
      modifies `links
      ensures links == Queues.Deq(old(links), q, t)
    {
      var p, n := links.prev[t], links.next[t];
      if p != 0 {
        links := links.(next := links.next[p := n]);
      } else {
        links := links.(head := links.head.Put(q, n));
      }
      if n != 0 {
        links := links.(prev := links.prev[n := p]);
      } else {
        links := links.(tail := links.tail.Put(q, p));
      }
      links := links.(queue := links.queue[t := None]);
    }

    method Enq(q: Q, t: nat, ghost l: Lists)
      requires AreQueues(links, l) && t != 0 && !Waiting(l, t)
      modifies `links
      ensures AreQueues(links, l.Put(q, [t] + l.Get(q)))
    {
      EnqKeeps(links, l, q, t);
      EnqLinks(q, t);
    }

    // Out of the queue its queue field names.
    method Deq(t: nat, ghost l: Lists)
      requires AreQueues(links, l) && Waiting(l, t)
      modifies `links
      ensures AreQueues(links, Taken(l, t)) && !Waiting(Taken(l, t), t)
    {
      TakenSafely(links, l, t);
      DeqLinks(links.queue[t].value, t);
    }

    // To the front of another queue.
    method Move(t: nat, to: Q)
      requires Linked() && Waiting(ls, t)
      modifies `links, `ls
      ensures Linked() && ls == Moved(old(ls), t, to)
    {
      MovedAgrees(tab, ls, t, to);
      assert t != 0;
      Deq(t, ls);
      Enq(to, t, Taken(ls, t));
      ls := Moved(ls, t, to);
    }

    // ---- Registering ----

    method Register(t: nat)
      requires Valid() && !Waiting(ls, t) && 0 < t < nextNumber && t in kind && t in yielding
      modifies `links, `tab, `active, `ls
      ensures Valid() && ls == old(ls).(run := [t] + old(ls).run)
    {
      EnteredAgrees(tab, ls, t);
      var b := t % TABLE_SIZE;
      tab := tab[b := [t] + tab[b]];
      active := active + 1;
      Enq(RunQ, t, ls);
      ls := ls.(run := [t] + ls.run);
    }

    method Deregister(t: nat)
      requires Valid() && Waiting(ls, t)
      modifies `links, `tab, `active, `ls
      ensures Valid() && ls == Taken(old(ls), t)
    {
      DropFromBucket(t);
      active := active - 1;
      Deq(t, ls);
      LeftAgrees(old(tab), ls, t);
      TakenBlocked(ls, t, kind);
      ls := Taken(ls, t);
    }

    method DropFromBucket(t: nat)
      requires |tab| == TABLE_SIZE
      modifies `tab
      ensures tab == old(tab)[t % TABLE_SIZE := Dropped(old(tab)[t % TABLE_SIZE], t)]
    {
      var b := t % TABLE_SIZE;
      var chain, i := tab[b], 0;
      while i < |chain|
        invariant i <= |chain| && t !in chain[..i]
      {
        if chain[i] == t {
          DroppedAt(chain, t, i);
          tab := tab[b := Without(chain, i)];
          return;
        }
        i := i + 1;
      }
      NotDropped(chain, t);
    }

    // begin_thread: a new number, runnable.
    method Begin() returns (t: nat)
      requires Valid()
      modifies `links, `tab, `active, `ls, `nextNumber, `kind, `yielding
      ensures Valid() && t == old(nextNumber) && nextNumber == old(nextNumber) + 1
      ensures ls == old(ls).(run := [t] + old(ls).run)
    {
      t := nextNumber;
      nextNumber := nextNumber + 1;
      kind, yielding := kind[t := NOT_BLOCKED], yielding[t := false];
      KnownMore(ls, t, old(kind), old(yielding));
      Register(t);
    }

    // A thread read from a checkpoint: its own number, runnable.
    method Restore(t: nat)
      requires Valid() && t > 0 && !Waiting(ls, t)
      modifies `links, `tab, `active, `ls, `nextNumber, `kind, `yielding
      ensures Valid() && nextNumber == Max(old(nextNumber), t + 1)
      ensures ls == old(ls).(run := [t] + old(ls).run)
      ensures kind == old(kind)[t := NOT_BLOCKED] && yielding == old(yielding)[t := false]
    {
      if t >= nextNumber {
        nextNumber := t + 1;
      }
      kind, yielding := kind[t := NOT_BLOCKED], yielding[t := false];
      KnownLater(ls, old(nextNumber), nextNumber, t, old(kind), old(yielding));
      Register(t);
    }

    // ---- Blocking and waking ----

    method BlockThread(why: int)
      requires Valid() && (current != 0 ==> Waiting(ls, current)) && Reason(why)
      modifies `links, `ls, `kind
      ensures Valid() && (if current == 0 then ls == old(ls) && kind == old(kind)
                          else ls == Moved(old(ls), current, BlockQ) && kind == old(kind)[current := why])
    {
      if current == 0 {
        return;
      }
      KnownStill(ls, nextNumber, kind, yielding, current, why, yielding[current]);
      MovedBlocked(links, ls, current, BlockQ, kind, why);
      kind := kind[current := why];
      Move(current, BlockQ);
    }

    method SleepThread(until: int)
      requires Valid() && (current != 0 ==> Waiting(ls, current))
      modifies `links, `ls, `kind
      ensures Valid() && (if current == 0 then ls == old(ls) && kind == old(kind)
                          else ls == Moved(old(ls), current, SleepQ) && kind == old(kind)[current := until])
    {
      if current == 0 {
        return;
      }
      KnownStill(ls, nextNumber, kind, yielding, current, until, yielding[current]);
      MovedBlocked(links, ls, current, SleepQ, kind, until);
      kind := kind[current := until];
      Move(current, SleepQ);
    }

    method Unblock(t: nat)
      requires Valid() && Waiting(ls, t)
      modifies `links, `ls, `kind, `yielding
      ensures Valid() && ls == Moved(old(ls), t, RunQ)
      ensures kind == old(kind)[t := NOT_BLOCKED] && yielding == old(yielding)[t := false]
    {
      KnownStill(ls, nextNumber, kind, yielding, t, NOT_BLOCKED, false);
      MovedBlocked(links, ls, t, RunQ, kind, NOT_BLOCKED);
      if yielding[t] {
        yielding := yielding[t := false];
      }
      kind := kind[t := NOT_BLOCKED];
      assert yielding == old(yielding)[t := false];
      Move(t, RunQ);
    }

    // ---- Running ----

    // What a thread may do while it runs: start threads, wake threads that
    // are blocked or asleep, block or go to sleep.  The last two leave
    // yield_thread in its accumulator, and then it does nothing more.  `rest`
    // are the threads behind it in the run queue, in front of which
    // everything happens.
    method RunVm(t: nat, ghost front: seq<nat>, ghost rest: seq<nat>) returns (finished: bool, ghost front2: seq<nat>)
      requires Valid() && Waiting(ls, t) && current == t && ls.run == front + rest && t !in rest
      modifies `links, `ls, `kind, `yielding, `tab, `active, `nextNumber, `ran, `died
      ensures Valid() && Waiting(ls, t) && ls.run == front2 + rest
      ensures ran == old(ran) + [t] && died == if finished then old(died) + [t] else old(died)
      ensures old(yielding)[t] ==> ls == old(ls)
      ensures AllBut(old(ls), old(nextNumber), ls, nextNumber, [])
    {
      ran := ran + [t];
      finished, front2 := *, front;
      died := if finished then died + [t] else died;
      if yielding[t] {
        return;
      }
      var steps: int := *;
      while steps > 0 && !yielding[t]
        invariant Valid() && Waiting(ls, t) && ls.run == front2 + rest
        invariant ran == old(ran) + [t] && died == if finished then old(died) + [t] else old(died)
        invariant AllBut(old(ls), old(nextNumber), ls, nextNumber, [])
      {
        ghost var l0, limit0 := ls, nextNumber;
        front2 := Act(t, front2, rest);
        AllButThen(old(ls), old(nextNumber), l0, limit0, [], ls, nextNumber, []);
        steps := steps - 1;
      }
    }

    method Act(t: nat, ghost front: seq<nat>, ghost rest: seq<nat>) returns (ghost front2: seq<nat>)
      requires Valid() && Waiting(ls, t) && current == t && ls.run == front + rest && t !in rest
      modifies `links, `ls, `kind, `yielding, `tab, `active, `nextNumber
      ensures Valid() && Waiting(ls, t) && ls.run == front2 + rest
      ensures AllBut(old(ls), old(nextNumber), ls, nextNumber, [])
    {
      ghost var l0 := ls;
      var act: int, x: int := *, *;
      if act == 0 {
        var u := Begin();
        front2 := [u] + front;
        assert [u] + (front + rest) == [u] + front + rest;
      } else if Reason(act) {
        RunAfterLeaving(ls, front, rest, t, BlockQ);
        front2 := Left(front, t);
        BlockThread(act);
        MovedKeepsAll(l0, t, BlockQ, nextNumber);
        Yield(t);
      } else if act == 4 {
        RunAfterLeaving(ls, front, rest, t, SleepQ);
        front2 := Left(front, t);
        SleepThread(x);
        MovedKeepsAll(l0, t, SleepQ, nextNumber);
        Yield(t);
      } else if x > 0 && x in tab[x % TABLE_SIZE] {
        front2 := Wake(x, t, front, rest);
      } else {
        front2 := front;
      }
    }

    method Yield(t: nat)
      requires Valid() && Waiting(ls, t)
      modifies `yielding
      ensures Valid() && yielding == old(yielding)[t := true]
    {
      KnownStill(ls, nextNumber, kind, yielding, t, kind[t], true);
      assert kind[t := kind[t]] == kind;
      yielding := yielding[t := true];
    }

    // Another thread is killed: it is woken if it is not runnable already.
    method Wake(u: nat, ghost t: nat, ghost front: seq<nat>, ghost rest: seq<nat>) returns (ghost front2: seq<nat>)
      requires Valid() && Waiting(ls, t) && Waiting(ls, u) && ls.run == front + rest
      modifies `links, `ls, `kind, `yielding
      ensures Valid() && Waiting(ls, t) && ls.run == front2 + rest
      ensures AllBut(old(ls), nextNumber, ls, nextNumber, [])
    {
      Located(links, ls, u);
      front2 := front;
      if links.queue[u] != Some(RunQ) {
        assert u !in ls.Get(RunQ) && ls.Get(RunQ) == ls.run;
        StillWaits(ls, u, RunQ, t);
        assert [u] + (front + rest) == [u] + front + rest;
        front2 := [u] + front;
        MovedKeepsAll(ls, u, RunQ, nextNumber);
        Unblock(u);
      }
    }

    // What is left of a finished thread: its number, in the caller's list.
    method Finish(t: nat, ghost front: seq<nat>, ghost rest: seq<nat>) returns (ghost front2: seq<nat>)
      requires Valid() && Waiting(ls, t) && ls.run == front + rest && t !in rest
      modifies `links, `ls, `tab, `active
      ensures Valid() && ls == Taken(old(ls), t) && ls.run == front2 + rest
    {
      TakenFront(ls, front, rest, t);
      front2 := Left(front, t);
      Deregister(t);
    }

    // A thread that is found finished is in no queue any more.
    method RunOne(t: nat, ghost front: seq<nat>, ghost rest: seq<nat>)
      returns (ghost front2: seq<nat>, ghost gone: seq<nat>)
      requires Valid() && Waiting(ls, t) && ls.run == front + rest && t !in rest
      modifies `links, `ls, `kind, `yielding, `tab, `active, `nextNumber, `ran, `died, `current
      ensures Valid() && ls.run == front2 + rest && ran == old(ran) + [t]
      ensures died == old(died) + gone && gone <= [t]
      ensures AllBut(old(ls), old(nextNumber), ls, nextNumber, gone)
    {
      current := t;
      gone := [];
      var finished;
      finished, front2 := RunVm(t, front, rest);
      if finished {
        TakenKeepsOthers(links, old(ls), old(nextNumber), ls, nextNumber, t);
        front2 := Finish(t, front2, rest);
        gone := [t];
      }
    }

    // One pass: exactly the threads that were runnable when it began, each
    // once, in order; none that joined meanwhile.  Of the threads there were,
    // those are gone that it has found finished.
    method RunRunQueue() returns (any: bool, ghost gone: seq<nat>)
      requires Valid()
      modifies `links, `ls, `kind, `yielding, `tab, `active, `nextNumber, `ran, `died, `current
      ensures Valid()
      ensures any == (old(ls).run != []) && ran == old(ran) + old(ls).run
      ensures any ==> current == 0
      ensures died == old(died) + gone && From(gone, old(ls).run)
      ensures AllBut(old(ls), old(nextNumber), ls, nextNumber, gone)
    {
      gone := [];
      var t := links.head.run;
      ghost var order, i, front := ls.run, 0, [];
      PassBegins(links, ls, RunQ);
      if t == 0 {
        PassEnds(links, ls, RunQ, [], order, 0);
        return false, [];
      }
      while t != 0
        invariant Valid() && i <= |order| && t == At(order, i)
        invariant ls.run == front + order[i..] && ran == old(ran) + order[..i]
        invariant died == old(died) + gone && From(gone, order)
        invariant AllBut(old(ls), old(nextNumber), ls, nextNumber, gone)
        decreases |order| - i
      {
        t, front, gone := RunNext(t, front, order, i, old(ran), old(ls), old(nextNumber), old(died), gone);
        i := i + 1;
      }
      PassEnds(links, ls, RunQ, front, order, i);
      current := 0;
      any := true;
    }

    // The thread at `i` of the order in which the pass began gets its slice;
    // returns the one behind it.  `l0', `limit0' and `died0' are from when the
    // pass began, `lost' are the threads found finished since.
    method RunNext(t: nat, ghost front: seq<nat>, ghost order: seq<nat>, ghost i: nat, ghost before: seq<nat>,
                   ghost l0: Lists, ghost limit0: nat, ghost died0: seq<nat>, ghost lost: seq<nat>)
      returns (following: nat, ghost front2: seq<nat>, ghost gone: seq<nat>)
      requires Valid() && i <= |order| && t == At(order, i) && t != 0 && Distinct(order)
      requires ls.run == front + order[i..] && ran == before + order[..i]
      requires died == died0 + lost && From(lost, order) && AllBut(l0, limit0, ls, nextNumber, lost)
      modifies `links, `ls, `kind, `yielding, `tab, `active, `nextNumber, `ran, `died, `current
      ensures Valid() && i < |order| && following == At(order, i + 1)
      ensures ls.run == front2 + order[i + 1..] && ran == before + order[..i + 1]
      ensures died == died0 + gone && From(gone, order) && AllBut(l0, limit0, ls, nextNumber, gone)
    {
      NextInLine(links, ls, RunQ, front, order, i);
      RanMore(before, order, i);
      following := links.next[t];
      front2, gone := RunOne(t, front + [t], order[i + 1..]);
      gone := PassGoes(l0, limit0, old(ls), old(nextNumber), ls, nextNumber, died0, lost, gone, order, i);
    }

    // ---- Waking and trying again ----

    // Returns the sleeper behind this one.
    method WakeIfDue(t: nat, now: int, ghost after: Lists, ghost rest: seq<nat>, ghost kind0: map<nat, int>)
      returns (following: nat)
      requires Valid() && Waiting(ls, t) && t in kind && t in links.next
      requires after == if kind[t] <= now then Moved(ls, t, RunQ) else ls
      requires Same(rest, kind0, kind) && Same(rest, kind0, kind[t := NOT_BLOCKED])
      modifies `links, `ls, `kind, `yielding
      ensures Valid() && ls == after && following == old(links).next[t] && Same(rest, kind0, kind)
    {
      following := links.next[t];
      if kind[t] <= now {
        Unblock(t);
      }
    }

    // The sleeper at `i` is looked at; returns the one behind it.
    method NextAwake(t: nat, now: int, ghost ls0: Lists, ghost kind0: map<nat, int>, ghost i: nat)
      returns (following: nat)
      requires Valid() && i <= |ls0.sleep| && t == At(ls0.sleep, i) && t != 0 && Distinct(ls0.sleep)
      requires ls == Awake(ls0, kind0, now, i) && Same(ls0.sleep[i..], kind0, kind)
      modifies `links, `ls, `kind, `yielding
      ensures Valid() && i < |ls0.sleep| && following == At(ls0.sleep, i + 1)
      ensures ls == Awake(ls0, kind0, now, i + 1) && Same(ls0.sleep[i + 1..], kind0, kind)
    {
      NextSleeper(links, ls, ls0, kind0, now, i, kind);
      following := WakeIfDue(t, now, Awake(ls0, kind0, now, i + 1), ls0.sleep[i + 1..], kind0);
    }

    // The sleepers whose time has come become runnable, and only they.
    method WakeSleepers(now: int)
      requires Valid()
      modifies `links, `ls, `kind, `yielding
      ensures Valid() && ls == Awake(old(ls), old(kind), now, |old(ls).sleep|)
    {
      SleepersBegin(links, ls, nextNumber, kind, yielding, now);
      WakeFrom(links.head.sleep, now, ls, kind);
    }

    method WakeFrom(first: nat, now: int, ghost ls0: Lists, ghost kind0: map<nat, int>)
      requires Valid() && first == At(ls0.sleep, 0) && Distinct(ls0.sleep)
      requires ls == Awake(ls0, kind0, now, 0) && Same(ls0.sleep[0..], kind0, kind)
      modifies `links, `ls, `kind, `yielding
      ensures Valid() && ls == Awake(ls0, kind0, now, |ls0.sleep|)
    {
      var t := first;
      ghost var i := 0;
      while t != 0
        invariant Valid() && i <= |ls0.sleep| && t == At(ls0.sleep, i)
        invariant ls == Awake(ls0, kind0, now, i) && Same(ls0.sleep[i..], kind0, kind)
        decreases |ls0.sleep| - i
      {
        t := NextAwake(t, now, ls0, kind0, i);
        i := i + 1;
      }
      SleepersEnd(links, ls, ls0, kind0, now, i);
    }

    // A read or accept is tried: it blocks again, which puts the thread at the
    // front of the queue, or comes to an end and wakes it.
    method TryRead(t: nat, why: int, ghost front: seq<nat>, ghost rest: seq<nat>) returns (ghost front2: seq<nat>)
      requires Valid() && current == t && t != 0 && Waiting(ls, t) && Reason(why)
      requires Taken(ls, t) == ls.(block := front + rest)
      modifies `links, `ls, `kind, `yielding
      ensures Valid() && ls.block == front2 + rest && ls.sleep == old(ls).sleep && Behind(old(ls).run, ls.run)
    {
      var done: bool := *;
      MovedBehind(links, ls, t);
      if done {
        front2 := front;
        Unblock(t);
      } else {
        front2 := [t] + front;
        assert [t] + (front + rest) == [t] + front + rest;
        BlockThread(why);
      }
    }

    // A lock is taken or not.  A waiter that gets it keeps its accumulator.
    method TryLock(t: nat, ghost front: seq<nat>, ghost rest: seq<nat>) returns (ghost front2: seq<nat>)
      requires Valid() && t in kind && Waiting(ls, t) && ls.block == front + [t] + rest
      requires Taken(ls, t) == ls.(block := front + rest)
      modifies `links, `ls
      ensures Valid() && ls.block == front2 + rest && ls.sleep == old(ls).sleep && Behind(old(ls).run, ls.run)
    {
      var done: bool := *;
      MovedBehind(links, ls, t);
      front2 := front + [t];
      if done {
        front2 := front;
        KeepsKind(links, ls, t, kind);
        Move(t, RunQ);
      }
    }

    // One thread of the block queue is tried.
    method TryOne(t: nat, ghost front: seq<nat>, ghost rest: seq<nat>) returns (ghost front2: seq<nat>)
      requires Valid() && ls.block == front + [t] + rest
      modifies `links, `ls, `kind, `yielding, `tried, `current
      ensures Valid() && ls.block == front2 + rest && ls.sleep == old(ls).sleep && Behind(old(ls).run, ls.run)
      ensures tried == old(tried) + [t]
      ensures t in old(kind) && (old(kind)[t] == LOCKING ==> yielding == old(yielding) && kind == old(kind))
    {
      tried := tried + [t];
      current := t;
      TakenHere(links, ls, BlockQ, front, t, rest);
      BlockedHere(ls, kind, front, t, rest);
      var why := kind[t];
      if why == READLINE || why == ACCEPT {
        front2 := TryRead(t, why, front, rest);
      } else if why == LOCKING {
        front2 := TryLock(t, front, rest);
      } else {
        assert false;
      }
    }

    method TryAll()
      requires Valid()
      modifies `links, `ls, `kind, `yielding, `tried, `current
      ensures Valid() && current == 0 && ls.sleep == old(ls).sleep && tried == old(tried) + old(ls).block
      ensures Behind(old(ls).run, ls.run)
    {
      var t := links.head.block;
      ghost var order, i, front := ls.block, 0, [];
      PassBegins(links, ls, BlockQ);
      while t != 0
        invariant Valid() && i <= |order| && t == At(order, i) && ls.sleep == old(ls).sleep
        invariant ls.block == front + order[i..] && tried == old(tried) + order[..i]
        invariant Behind(old(ls).run, ls.run)
        decreases |order| - i
      {
        ghost var run0 := ls.run;
        t, front := TryNext(t, front, order, i, old(tried));
        BehindThen(old(ls).run, run0, ls.run);
        i := i + 1;
      }
      PassEnds(links, ls, BlockQ, front, order, i);
      current := 0;
    }

    // The thread at `i` of the order in which the pass began is tried;
    // returns the one behind it.
    method TryNext(t: nat, ghost front: seq<nat>, ghost order: seq<nat>, ghost i: nat, ghost before: seq<nat>)
      returns (following: nat, ghost front2: seq<nat>)
      requires Valid() && i <= |order| && t == At(order, i) && t != 0 && Distinct(order)
      requires ls.block == front + order[i..] && tried == before + order[..i]
      modifies `links, `ls, `kind, `yielding, `tried, `current
      ensures Valid() && i < |order| && following == At(order, i + 1) && ls.sleep == old(ls).sleep
      ensures Behind(old(ls).run, ls.run)
      ensures ls.block == front2 + order[i + 1..] && tried == before + order[..i + 1]
    {
      NextInLine(links, ls, BlockQ, front, order, i);
      RanMore(before, order, i);
      following := links.next[t];
      front2 := TryOne(t, front, order[i + 1..]);
    }

    // One pass: the sleepers whose time has come are woken, in front of what was
    // runnable, and exactly the threads that were blocked when it began are
    // tried, each once, in order.
    method RunBlockedQueue(now: int)
      requires Valid()
      modifies `links, `ls, `kind, `yielding, `tried, `current
      ensures Valid() && current == 0
      ensures ls.sleep == Later(old(ls).sleep, old(kind), now, |old(ls).sleep|)
      ensures Behind(Due(old(ls).sleep, old(kind), now, |old(ls).sleep|) + old(ls).run, ls.run)
      ensures tried == old(tried) + old(ls).block
    {
      AllAwake(ls, kind, now);
      WakeSleepers(now);
      TryAll();
    }
  }

  // Of the numbers given out before, those are in a queue that were in one,
  // `gone` aside.
  ghost predicate AllBut(l0: Lists, limit0: nat, l: Lists, limit: nat, gone: seq<nat>) {
    limit0 <= limit && forall u: nat | u < limit0 :: Waiting(l, u) <==> Waiting(l0, u) && u !in gone
  }

  lemma AllButThen(l0: Lists, limit0: nat, l1: Lists, limit1: nat, g: seq<nat>, l2: Lists, limit2: nat, h: seq<nat>)
    requires AllBut(l0, limit0, l1, limit1, g) && AllBut(l1, limit1, l2, limit2, h)
    ensures AllBut(l0, limit0, l2, limit2, g + h)
  {
  }

  lemma MovedKeepsAll(l: Lists, t: nat, to: Q, limit: nat)
    requires Waiting(l, t)
    ensures AllBut(l, limit, Moved(l, t, to), limit, [])
  {
    forall u: nat | u < limit
      ensures Waiting(Moved(l, t, to), u) <==> Waiting(l, u)
    {
      MovedWaiting(l, t, to, u);
    }
  }

  lemma TakenKeepsOthers(s: Links, l0: Lists, limit0: nat, l: Lists, limit: nat, t: nat)
    requires AllBut(l0, limit0, l, limit, []) && AreQueues(s, l) && Waiting(l, t)
    ensures AllBut(l0, limit0, Taken(l, t), limit, [t])
  {
    TakenSafely(s, l, t);
    forall u: nat | u < limit0
      ensures Waiting(Taken(l, t), u) <==> Waiting(l0, u) && u !in [t]
    {
      TakenWaiting(l, t, u);
    }
  }

  predicate From(xs: seq<nat>, ys: seq<nat>) {
    forall t: nat | t in xs :: t in ys
  }

  lemma PassGoes(l0: Lists, limit0: nat, l1: Lists, limit1: nat, l2: Lists, limit2: nat, died: seq<nat>, g: seq<nat>,
                 h: seq<nat>, order: seq<nat>, i: nat) returns (gone: seq<nat>)
    requires i < |order| && h <= [order[i]] && From(g, order)
    requires AllBut(l0, limit0, l1, limit1, g) && AllBut(l1, limit1, l2, limit2, h)
    ensures died + g + h == died + gone && From(gone, order) && AllBut(l0, limit0, l2, limit2, gone)
  {
    gone := g + h;
    AllButThen(l0, limit0, l1, limit1, g, l2, limit2, h);
    assert died + g + h == died + gone;
  }

  // `ys' ends with `xs'.
  predicate Behind(xs: seq<nat>, ys: seq<nat>) {
    |xs| <= |ys| && ys[|ys| - |xs|..] == xs
  }

  lemma BehindThen(xs: seq<nat>, ys: seq<nat>, zs: seq<nat>)
    requires Behind(xs, ys) && Behind(ys, zs)
    ensures Behind(xs, zs)
  {
    assert zs[|zs| - |xs|..] == zs[|zs| - |ys|..][|ys| - |xs|..];
  }

  // A blocked thread that becomes runnable goes to the front.
  lemma MovedBehind(s: Links, ls: Lists, t: nat)
    requires AreQueues(s, ls) && t in ls.block
    ensures Behind(ls.run, ls.run) && Behind(ls.run, Moved(ls, t, RunQ).run)
    ensures Moved(ls, t, BlockQ).run == ls.run
  {
    Located(s, ls, t);
    assert ls.Get(RunQ) == ls.run && ls.Get(BlockQ) == ls.block;
    assert t in ls.Get(BlockQ) && t !in ls.Get(RunQ);
    assert Moved(ls, t, RunQ).run == [t] + ls.run;
  }

  lemma BlockedHere(ls: Lists, kind: map<nat, int>, front: seq<nat>, t: nat, rest: seq<nat>)
    requires ls.block == front + [t] + rest && Blocked(ls.block, kind)
    ensures Waiting(ls, t) && t in kind && Reason(kind[t])
  {
    assert ls.block[|front|] == t;
  }

  predicate Reason(k: int) {
    READLINE <= k <= LOCKING
  }

  ghost predicate Blocked(xs: seq<nat>, kind: map<nat, int>) {
    forall t: nat | t in xs :: t in kind && Reason(kind[t])
  }

  predicate Same(xs: seq<nat>, kind: map<nat, int>, kind2: map<nat, int>) {
    xs != [] ==> xs[0] in kind && xs[0] in kind2 && kind2[xs[0]] == kind[xs[0]] && Same(xs[1..], kind, kind2)
  }

  lemma {:induction false} SameStill(xs: seq<nat>, kind: map<nat, int>, kind2: map<nat, int>, t: nat, k: int)
    requires Same(xs, kind, kind2) && t !in xs
    ensures Same(xs, kind, kind2[t := k])
  {
    if xs != [] {
      SameStill(xs[1..], kind, kind2, t, k);
    }
  }

  lemma {:induction false} SameAtFirst(xs: seq<nat>, kind: map<nat, int>)
    requires forall t: nat | t in xs :: t in kind
    ensures Same(xs, kind, kind)
  {
    if xs != [] {
      forall t: nat | t in xs[1..]
        ensures t in kind
      {
        assert t in xs;
      }
      SameAtFirst(xs[1..], kind);
    }
  }

  // Whether a sleeper's time has come.
  predicate IsDue(t: nat, kind: map<nat, int>, now: int) {
    t in kind && kind[t] <= now
  }

  // Of the first `i`, those still asleep after `now`, in order.
  function Later(xs: seq<nat>, kind: map<nat, int>, now: int, i: nat): seq<nat>
    requires i <= |xs|
    decreases i, 1
  {
    LaterFrom(xs, kind, now, i)
  }

  function LaterFrom(xs: seq<nat>, kind: map<nat, int>, now: int, i: nat): seq<nat>
    requires i <= |xs|
    decreases i, 0
  {
    if i == 0 then [] else Later(xs, kind, now, i - 1) + if IsDue(xs[i - 1], kind, now) then [] else [xs[i - 1]]
  }

  // Those to be woken by `now`, last first.
  function Due(xs: seq<nat>, kind: map<nat, int>, now: int, i: nat): seq<nat>
    requires i <= |xs|
    decreases i, 1
  {
    DueFrom(xs, kind, now, i)
  }

  function DueFrom(xs: seq<nat>, kind: map<nat, int>, now: int, i: nat): seq<nat>
    requires i <= |xs|
    decreases i, 0
  {
    if i == 0 then [] else (if IsDue(xs[i - 1], kind, now) then [xs[i - 1]] else []) + Due(xs, kind, now, i - 1)
  }

  lemma {:induction false} SplitExactly(xs: seq<nat>, kind: map<nat, int>, now: int, i: nat, t: nat)
    requires i <= |xs|
    ensures t in Due(xs, kind, now, i) <==> t in xs[..i] && t in kind && kind[t] <= now
    ensures t in Later(xs, kind, now, i) <==> t in xs[..i] && (t in kind ==> kind[t] > now)
  {
    assert Due(xs, kind, now, i) == DueFrom(xs, kind, now, i) && Later(xs, kind, now, i) == LaterFrom(xs, kind, now, i);
    if i > 0 {
      SplitExactly(xs, kind, now, i - 1, t);
      assert xs[..i] == xs[..i - 1] + [xs[i - 1]];
    }
  }

  // A sleeper is woken if its time has come, and sleeps on if not; nobody else
  // is touched.
  lemma WokenExactly(ls: Lists, kind: map<nat, int>, now: int, t: nat)
    requires forall u: nat | u in ls.sleep :: u in kind
    ensures var l := Awake(ls, kind, now, |ls.sleep|);
            && (t in l.run <==> t in ls.run || (t in ls.sleep && kind[t] <= now))
            && (t in l.sleep <==> t in ls.sleep && now < kind[t])
            && l.block == ls.block
  {
    AllAwake(ls, kind, now);
    SplitExactly(ls.sleep, kind, now, |ls.sleep|, t);
    assert ls.sleep[..|ls.sleep|] == ls.sleep;
  }

  // ---- The run queue while it is walked ----

  function Left(front: seq<nat>, t: nat): seq<nat> {
    if t in front then Without(front, Position(front, t)) else front
  }

  lemma TakenFront(ls: Lists, front: seq<nat>, rest: seq<nat>, t: nat)
    requires Waiting(ls, t) && ls.run == front + rest && t !in rest
    ensures Taken(ls, t).run == Left(front, t) + rest
  {
    if t in ls.run {
      SamePosition(front, rest, t);
      var i := Position(front, t);
      assert Without(front + rest, i) == Without(front, i) + rest;
    }
  }

  lemma SamePosition(front: seq<nat>, rest: seq<nat>, t: nat)
    requires t in front + rest && t !in rest
    ensures t in front && Position(front + rest, t) == Position(front, t)
  {
    assert front == (front + rest)[..|front|];
    PositionLeast(front + rest, t, Position(front, t));
    PositionLeast(front, t, Position(front + rest, t));
  }

  lemma {:induction false} PositionLeast(xs: seq<nat>, t: nat, j: nat)
    requires j < |xs| && xs[j] == t
    ensures Position(xs, t) <= j
  {
    if xs[0] != t {
      PositionLeast(xs[1..], t, j - 1);
    }
  }

  // A running thread that blocks or sleeps leaves the threads behind it.
  lemma RunAfterLeaving(ls: Lists, front: seq<nat>, rest: seq<nat>, t: nat, to: Q)
    requires Waiting(ls, t) && ls.run == front + rest && t !in rest && to != RunQ
    ensures Moved(ls, t, to).run == Left(front, t) + rest && Waiting(Moved(ls, t, to), t)
  {
    TakenFront(ls, front, rest, t);
    MovedWaiting(ls, t, to, t);
  }

  lemma StillWaits(ls: Lists, u: nat, to: Q, t: nat)
    requires Waiting(ls, u) && Waiting(ls, t)
    ensures Waiting(Moved(ls, u, to), t)
  {
    MovedWaiting(ls, u, to, t);
  }

  lemma PassBegins(s: Links, ls: Lists, q: Q)
    requires AreQueues(s, ls)
    ensures var xs := ls.Get(q); Distinct(xs) && s.head.Get(q) == At(xs, 0) && xs == [] + xs[0..] && xs[..0] == []
  {
    QueueOf(s, ls, q);
  }

  lemma RanMore(before: seq<nat>, order: seq<nat>, i: nat)
    requires i < |order|
    ensures before + order[..i] + [order[i]] == before + order[..i + 1]
  {
  }

  lemma PassEnds(s: Links, ls: Lists, q: Q, front: seq<nat>, order: seq<nat>, i: nat)
    requires AreQueues(s, ls) && i <= |order| && ls.Get(q) == front + order[i..] && At(order, i) == 0
    ensures i == |order| && order[..i] == order
  {
    QueueOf(s, ls, q);
    if i < |order| {
      assert ls.Get(q)[|front|] == order[i];
      PlacedAt(s, q, ls.Get(q), |front|);
    }
  }

  lemma PlacedAt(s: Links, q: Q, xs: seq<nat>, i: nat)
    requires IsQueue(s, q, xs) && i < |xs|
    ensures xs[i] != 0
  {
    assert Placed(s, q, xs, i);
  }

  // The saved link leads to the next thread of the order in which the pass
  // began.
  lemma NextInLine(s: Links, ls: Lists, q: Q, front: seq<nat>, order: seq<nat>, i: nat)
    requires AreQueues(s, ls) && i <= |order| && ls.Get(q) == front + order[i..] && At(order, i) != 0
    requires Distinct(order)
    ensures i < |order|
    ensures Waiting(ls, order[i]) && order[i] in s.next && s.next[order[i]] == At(order, i + 1)
    ensures ls.Get(q) == front + [order[i]] + order[i + 1..] && order[i] !in order[i + 1..]
  {
    QueueOf(s, ls, q);
    var xs := ls.Get(q);
    assert Placed(s, q, xs, |front|);
    assert xs[|front|] == order[i];
    assert i + 1 < |order| ==> xs[|front| + 1] == order[i + 1];
    assert order[i..] == [order[i]] + order[i + 1..];
  }

  // Taking a thread out of the middle of the list that is being walked.
  lemma TakenHere(s: Links, ls: Lists, q: Q, front: seq<nat>, t: nat, rest: seq<nat>)
    requires AreQueues(s, ls) && ls.Get(q) == front + [t] + rest
    ensures Waiting(ls, t) && Taken(ls, t) == ls.Put(q, front + rest)
  {
    var xs := ls.Get(q);
    assert xs[|front|] == t;
    QueueOf(s, ls, q);
    Located(s, ls, t);
    var i := Position(xs, t);
    assert ls.run == ls.Get(RunQ) && ls.block == ls.Get(BlockQ) && ls.sleep == ls.Get(SleepQ);
    assert Without(xs, |front|) == front + rest;
  }

  // ---- The sleepers ----

  // The queues when the first `i` sleepers have been looked at.
  ghost function Awake(ls: Lists, kind: map<nat, int>, now: int, i: nat): Lists
    requires i <= |ls.sleep|
  {
    Each(Due(ls.sleep, kind, now, i) + ls.run, ls.block, Later(ls.sleep, kind, now, i) + ls.sleep[i..])
  }

  lemma NextSleeper(s: Links, ls: Lists, ls0: Lists, kind0: map<nat, int>, now: int, i: nat, kind: map<nat, int>)
    requires i <= |ls0.sleep| && AreQueues(s, ls) && ls == Awake(ls0, kind0, now, i) && At(ls0.sleep, i) != 0
    requires Same(ls0.sleep[i..], kind0, kind) && Distinct(ls0.sleep)
    ensures i < |ls0.sleep|
    ensures var t := ls0.sleep[i];
            && t in kind && t in s.next && s.next[t] == At(ls0.sleep, i + 1) && Waiting(ls, t)
            && Awake(ls0, kind0, now, i + 1) == (if kind[t] <= now then Moved(ls, t, RunQ) else ls)
            && Same(ls0.sleep[i + 1..], kind0, kind) && Same(ls0.sleep[i + 1..], kind0, kind[t := NOT_BLOCKED])
  {
    var order, front := ls0.sleep, Later(ls0.sleep, kind0, now, i);
    var t := order[i];
    NextInLine(s, ls, SleepQ, front, order, i);
    TakenHere(s, ls, SleepQ, front, t, order[i + 1..]);
    SameMore(order, i, kind0, kind);
    AwakeNext(ls, ls0, kind0, now, i);
  }

  lemma AwakeNext(ls: Lists, ls0: Lists, kind0: map<nat, int>, now: int, i: nat)
    requires i < |ls0.sleep| && ls0.sleep[i] in kind0 && ls == Awake(ls0, kind0, now, i) && Waiting(ls, ls0.sleep[i])
    requires Taken(ls, ls0.sleep[i]) == ls.(sleep := Later(ls0.sleep, kind0, now, i) + ls0.sleep[i + 1..])
    ensures var t := ls0.sleep[i];
            Awake(ls0, kind0, now, i + 1) == (if kind0[t] <= now then Moved(ls, t, RunQ) else ls)
  {
    var order, t := ls0.sleep, ls0.sleep[i];
    LaterMore(order, i, kind0, now, ls0.run);
  }

  lemma SleepersEnd(s: Links, ls: Lists, ls0: Lists, kind0: map<nat, int>, now: int, i: nat)
    requires AreQueues(s, ls) && i <= |ls0.sleep| && ls == Awake(ls0, kind0, now, i) && At(ls0.sleep, i) == 0
    ensures i == |ls0.sleep|
  {
    PassEnds(s, ls, SleepQ, Later(ls0.sleep, kind0, now, i), ls0.sleep, i);
  }

  lemma LaterMore(order: seq<nat>, i: nat, kind: map<nat, int>, now: int, more: seq<nat>)
    requires i < |order| && order[i] in kind
    ensures var t := order[i];
            && Due(order, kind, now, i + 1) + more
               == (if kind[t] <= now then [t] + (Due(order, kind, now, i) + more) else Due(order, kind, now, i) + more)
            && Later(order, kind, now, i + 1) + order[i + 1..]
               == (if kind[t] <= now then Later(order, kind, now, i) + order[i + 1..] else Later(order, kind, now,
                                                                                                 i) + order[i..])
  {
    var t := order[i];
    Fronted(t, Due(order, kind, now, i), more);
    Backed(t, Later(order, kind, now, i), order[i + 1..]);
    assert order[i..] == [t] + order[i + 1..];
  }

  lemma Fronted(t: nat, d: seq<nat>, more: seq<nat>)
    ensures [t] + d + more == [t] + (d + more) && [] + d == d
  {
  }

  lemma Backed(t: nat, l: seq<nat>, more: seq<nat>)
    ensures l + [t] + more == l + ([t] + more) && l + [] == l
  {
  }

  lemma SameMore(order: seq<nat>, i: nat, kind0: map<nat, int>, kind: map<nat, int>)
    requires i < |order| && Same(order[i..], kind0, kind) && order[i] !in order[i + 1..]
    ensures order[i] in kind0 && order[i] in kind && kind[order[i]] == kind0[order[i]]
    ensures Same(order[i + 1..], kind0, kind) && Same(order[i + 1..], kind0, kind[order[i] := NOT_BLOCKED])
  {
    assert order[i..][1..] == order[i + 1..];
    SameStill(order[i + 1..], kind0, kind, order[i], NOT_BLOCKED);
  }

  lemma AllAwake(ls: Lists, kind: map<nat, int>, now: int)
    ensures var n := |ls.sleep|;
            Awake(ls, kind, now, n) == Each(Due(ls.sleep, kind, now, n) + ls.run, ls.block,
                                            Later(ls.sleep, kind, now, n))
  {
    var n := |ls.sleep|;
    assert Later(ls.sleep, kind, now, n) + ls.sleep[n..] == Later(ls.sleep, kind, now, n);
  }

  // ---- Lists ----

  function Count(ls: Lists): nat {
    |ls.run| + |ls.block| + |ls.sleep|
  }

  // Numbers have been given out, and the other fields exist.
  ghost predicate Known(ls: Lists, limit: nat, kind: map<nat, int>, yielding: map<nat, bool>) {
    limit > 0 && forall t: nat | Waiting(ls, t) :: 0 < t < limit && t in kind && t in yielding
  }

  function Position(xs: seq<nat>, t: nat): (i: nat)
    requires t in xs
    ensures i < |xs| && xs[i] == t && t !in xs[..i]
  {
    if xs[0] == t then 0
    else
      assert t in xs[1..];
      assert xs == [xs[0]] + xs[1..];
      1 + Position(xs[1..], t)
  }

  // The lists without the thread, wherever it stands.
  function Taken(ls: Lists, t: nat): Lists
    requires Waiting(ls, t)
  {
    if t in ls.run then ls.(run := Without(ls.run, Position(ls.run, t)))
    else if t in ls.block then ls.(block := Without(ls.block, Position(ls.block, t)))
    else ls.(sleep := Without(ls.sleep, Position(ls.sleep, t)))
  }

  function Moved(ls: Lists, t: nat, to: Q): Lists
    requires Waiting(ls, t)
  {
    var l := Taken(ls, t);
    l.Put(to, [t] + l.Get(to))
  }

  // Where its queue field says it is.
  lemma Located(s: Links, ls: Lists, t: nat)
    requires AreQueues(s, ls) && Waiting(ls, t)
    ensures t != 0 && t in s.next && t in s.prev && t in s.queue && s.queue[t].Some?
    ensures t in ls.Get(s.queue[t].value)
    ensures forall q: Q {:trigger ls.Get(q)} :: t in ls.Get(q) <==> q == s.queue[t].value
  {
    if t in ls.run { assert Placed(s, RunQ, ls.run, Position(ls.run, t)); }
    if t in ls.block { assert Placed(s, BlockQ, ls.block, Position(ls.block, t)); }
    if t in ls.sleep { assert Placed(s, SleepQ, ls.sleep, Position(ls.sleep, t)); }
  }

  lemma TakenSafely(s: Links, ls: Lists, t: nat)
    requires AreQueues(s, ls) && Waiting(ls, t)
    ensures t in s.queue && s.queue[t].Some? && t in s.next && t in s.prev
    ensures AreQueues(Queues.Deq(s, s.queue[t].value, t), Taken(ls, t)) && !Waiting(Taken(ls, t), t)
  {
    Located(s, ls, t);
    var q := s.queue[t].value;
    var i := Position(ls.Get(q), t);
    DeqKeeps(s, ls, q, i);
    QueueOf(s, ls, q);
    assert ls.run == ls.Get(RunQ) && ls.block == ls.Get(BlockQ) && ls.sleep == ls.Get(SleepQ);
    assert Taken(ls, t) == ls.Put(q, Without(ls.Get(q), i));
    NotLeft(ls.Get(q), i);
  }

  lemma NotLeft(xs: seq<nat>, i: nat)
    requires i < |xs| && Distinct(xs)
    ensures xs[i] !in Without(xs, i)
  {
  }

  lemma TakenWaiting(ls: Lists, t: nat, x: nat)
    requires Waiting(ls, t)
    ensures Waiting(Taken(ls, t), x) ==> Waiting(ls, x)
    ensures x != t && Waiting(ls, x) ==> Waiting(Taken(ls, t), x)
  {
    if t in ls.run { LeftOver(ls.run, Position(ls.run, t), x); }
    if t in ls.block { LeftOver(ls.block, Position(ls.block, t), x); }
    if t in ls.sleep { LeftOver(ls.sleep, Position(ls.sleep, t), x); }
  }

  lemma LeftOver(xs: seq<nat>, i: nat, x: nat)
    requires i < |xs|
    ensures x in Without(xs, i) ==> x in xs
    ensures x in xs && x != xs[i] ==> x in Without(xs, i)
  {
    if x in xs && x != xs[i] {
      var j := Position(xs, x);
      assert Without(xs, i)[if j < i then j else j - 1] == x;
    }
  }

  lemma MovedWaiting(ls: Lists, t: nat, to: Q, x: nat)
    requires Waiting(ls, t)
    ensures Waiting(Moved(ls, t, to), x) <==> Waiting(ls, x)
  {
    TakenWaiting(ls, t, x);
    var l := Taken(ls, t);
    assert x in [t] + l.Get(to) <==> x == t || x in l.Get(to);
  }

  lemma KnownMore(ls: Lists, t: nat, kind: map<nat, int>, yielding: map<nat, bool>)
    requires Known(ls, t, kind, yielding)
    ensures Known(ls, t + 1, kind[t := NOT_BLOCKED], yielding[t := false]) && !Waiting(ls, t)
  {
  }

  function Max(a: int, b: int): int {
    if a < b then b else a
  }

  lemma KnownLater(ls: Lists, limit: nat, limit2: nat, t: nat, kind: map<nat, int>, yielding: map<nat, bool>)
    requires Known(ls, limit, kind, yielding) && limit <= limit2 && !Waiting(ls, t)
    ensures Known(ls, limit2, kind[t := NOT_BLOCKED], yielding[t := false])
    ensures Blocked(ls.block, kind) ==> Blocked(ls.block, kind[t := NOT_BLOCKED])
  {
  }

  lemma KnownStill(ls: Lists, limit: nat, kind: map<nat, int>, yielding: map<nat, bool>, t: nat, k: int, y: bool)
    requires Known(ls, limit, kind, yielding) && Waiting(ls, t)
    ensures Known(ls, limit, kind[t := k], yielding[t := y]) && t in kind && t in yielding
    ensures Known(ls, limit, kind[t := k], yielding)
  {
  }

  lemma SleepersBegin(s: Links, ls: Lists, limit: nat, kind: map<nat, int>, yielding: map<nat, bool>, now: int)
    requires AreQueues(s, ls) && Known(ls, limit, kind, yielding)
    ensures s.head.sleep == At(ls.sleep, 0) && Distinct(ls.sleep)
    ensures Same(ls.sleep[0..], kind, kind) && ls == Awake(ls, kind, now, 0)
  {
    PassBegins(s, ls, SleepQ);
    assert ls.sleep[0..] == ls.sleep;
    assert [] + ls.run == ls.run && [] + ls.sleep == ls.sleep;
    SameAtFirst(ls.sleep, kind);
  }

  lemma TakenBlocked(ls: Lists, t: nat, kind: map<nat, int>)
    requires Waiting(ls, t) && Blocked(ls.block, kind)
    ensures Blocked(Taken(ls, t).block, kind)
  {
    forall x: nat | x in Taken(ls, t).block
      ensures x in ls.block
    {
      if t in ls.block && t !in ls.run { LeftOver(ls.block, Position(ls.block, t), x); }
    }
  }

  lemma MovedBlocked(s: Links, ls: Lists, t: nat, to: Q, kind: map<nat, int>, k: int)
    requires AreQueues(s, ls) && Waiting(ls, t) && Blocked(ls.block, kind) && (to == BlockQ ==> Reason(k))
    ensures Blocked(Moved(ls, t, to).block, kind[t := k])
  {
    TakenSafely(s, ls, t);
    TakenBlocked(ls, t, kind);
    var l := Taken(ls, t);
    forall x: nat | x in Moved(ls, t, to).block
      ensures (x == t && to == BlockQ) || (x in l.block && x != t)
    {
      if to == BlockQ && x != t { assert x in [t] + l.block; }
    }
  }

  lemma KeepsKind(s: Links, ls: Lists, t: nat, kind: map<nat, int>)
    requires AreQueues(s, ls) && Waiting(ls, t) && Blocked(ls.block, kind) && t in kind
    ensures Blocked(Moved(ls, t, RunQ).block, kind)
  {
    MovedBlocked(s, ls, t, RunQ, kind, kind[t]);
    assert kind[t := kind[t]] == kind;
  }

  lemma {:induction false} DroppedMembers(xs: seq<nat>, t: nat, x: nat)
    requires Distinct(xs)
    ensures x in Dropped(xs, t) <==> x in xs && x != t
    ensures Distinct(Dropped(xs, t))
  {
    if t in xs {
      var i := Position(xs, t);
      DroppedAt(xs, t, i);
      LeftOver(xs, i, x);
      WithoutDistinct(xs, i);
      NotLeft(xs, i);
    } else {
      NotDropped(xs, t);
    }
  }

  // Bucket `c` is right about thread `x`.
  predicate Files(tab: seq<seq<nat>>, ls: Lists, c: nat, x: nat)
    requires c < |tab|
  {
    Distinct(tab[c]) && (x in tab[c] <==> x % TABLE_SIZE == c && Waiting(ls, x))
  }

  lemma LeftFiled(tab: seq<seq<nat>>, ls: Lists, t: nat, c: nat, x: nat)
    requires Agrees(tab, ls) && Waiting(ls, t) && !Waiting(Taken(ls, t), t) && c < TABLE_SIZE
    ensures Files(tab[t % TABLE_SIZE := Dropped(tab[t % TABLE_SIZE], t)], Taken(ls, t), c, x)
  {
    TakenWaiting(ls, t, x);
    WhereFiled(tab, ls, c, x);
    if c == t % TABLE_SIZE {
      DroppedMembers(tab[c], t, x);
    }
  }

  lemma LeftAgrees(tab: seq<seq<nat>>, ls: Lists, t: nat)
    requires Agrees(tab, ls) && Waiting(ls, t) && !Waiting(Taken(ls, t), t)
    ensures var b, l := t % TABLE_SIZE, Taken(ls, t);
            && Agrees(tab[b := Dropped(tab[b], t)], l) && Count(l) == Count(ls) - 1
            && forall x: nat :: Waiting(l, x) ==> Waiting(ls, x)
  {
    var l := Taken(ls, t);
    var tab2 := tab[t % TABLE_SIZE := Dropped(tab[t % TABLE_SIZE], t)];
    forall x: nat
      ensures Waiting(l, x) ==> Waiting(ls, x)
    {
      TakenWaiting(ls, t, x);
    }
    forall c: nat, x: nat | c < TABLE_SIZE
      ensures Files(tab2, l, c, x)
    {
      LeftFiled(tab, ls, t, c, x);
    }
    AgreesWhen(tab2, l);
  }

  lemma AgreesWhen(tab: seq<seq<nat>>, ls: Lists)
    requires |tab| == TABLE_SIZE
    requires forall c: nat, x: nat {:trigger Files(tab, ls, c, x)} | c < TABLE_SIZE :: Files(tab, ls, c, x)
    ensures Agrees(tab, ls)
  {
    forall c: nat | c < TABLE_SIZE
      ensures Distinct(tab[c])
    {
      assert Files(tab, ls, c, 0);
    }
    forall b, t | 0 <= b < TABLE_SIZE && t in tab[b]
      ensures t % TABLE_SIZE == b && Waiting(ls, t)
    {
      FilesBelong(tab, ls, b, t);
    }
    forall t: nat | Waiting(ls, t)
      ensures t in tab[t % TABLE_SIZE]
    {
      assert Files(tab, ls, t % TABLE_SIZE, t);
    }
  }

  lemma FilesBelong(tab: seq<seq<nat>>, ls: Lists, b: nat, t: nat)
    requires |tab| == TABLE_SIZE && b < TABLE_SIZE && t in tab[b] && Files(tab, ls, b, t)
    ensures t % TABLE_SIZE == b && Waiting(ls, t)
  {
  }

  lemma EnteredFiled(tab: seq<seq<nat>>, ls: Lists, t: nat, c: nat, x: nat)
    requires Agrees(tab, ls) && !Waiting(ls, t) && c < TABLE_SIZE
    ensures Files(tab[t % TABLE_SIZE := [t] + tab[t % TABLE_SIZE]], ls.(run := [t] + ls.run), c, x)
  {
    var b := t % TABLE_SIZE;
    assert t !in tab[b] && Distinct(tab[c]);
    assert x in [t] + ls.run <==> x == t || x in ls.run;
    assert x in [t] + tab[b] <==> x == t || x in tab[b];
    WhereFiled(tab, ls, c, x);
  }

  lemma WhereFiled(tab: seq<seq<nat>>, ls: Lists, c: nat, x: nat)
    requires Agrees(tab, ls) && c < TABLE_SIZE
    ensures Files(tab, ls, c, x)
  {
    if Waiting(ls, x) {
      assert x in tab[x % TABLE_SIZE];
    }
  }

  lemma EnteredAgrees(tab: seq<seq<nat>>, ls: Lists, t: nat)
    requires Agrees(tab, ls) && !Waiting(ls, t)
    ensures var b, l := t % TABLE_SIZE, ls.(run := [t] + ls.run);
            && Agrees(tab[b := [t] + tab[b]], l) && Count(l) == Count(ls) + 1
            && forall x: nat :: Waiting(l, x) <==> x == t || Waiting(ls, x)
  {
    var l, tab2 := ls.(run := [t] + ls.run), tab[t % TABLE_SIZE := [t] + tab[t % TABLE_SIZE]];
    forall c: nat, x: nat | c < TABLE_SIZE
      ensures Files(tab2, l, c, x)
    {
      EnteredFiled(tab, ls, t, c, x);
    }
    AgreesWhen(tab2, l);
    forall x: nat
      ensures Waiting(l, x) <==> x == t || Waiting(ls, x)
    {
      assert x in [t] + ls.run <==> x == t || x in ls.run;
    }
  }

  lemma MovedAgrees(tab: seq<seq<nat>>, ls: Lists, t: nat, to: Q)
    requires Agrees(tab, ls) && Waiting(ls, t)
    ensures Agrees(tab, Moved(ls, t, to))
    ensures Count(Moved(ls, t, to)) == Count(ls)
    ensures forall limit, kind, yielding :: Known(ls, limit, kind, yielding) ==>
            Known(Moved(ls, t, to), limit, kind, yielding)
  {
    forall x: nat
      ensures Waiting(Moved(ls, t, to), x) <==> Waiting(ls, x)
    {
      MovedWaiting(ls, t, to, x);
    }
  }

  // The table holds the threads in the queues, each once, in the bucket of
  // its number.
  ghost predicate Agrees(tab: seq<seq<nat>>, ls: Lists) {
    && |tab| == TABLE_SIZE
    && (forall b | 0 <= b < TABLE_SIZE :: Distinct(tab[b]))
    && (forall b, t | 0 <= b < TABLE_SIZE && t in tab[b] :: t % TABLE_SIZE == b && Waiting(ls, t))
    && (forall t: nat | Waiting(ls, t) :: t in tab[t % TABLE_SIZE])
  }

  // ---- What holds of every state ----

  // Each registered thread is in exactly one queue, once, and its queue field
  // names that queue; no other thread is in any.
  lemma InOneQueue(s: Links, tab: seq<seq<nat>>, ls: Lists, t: nat)
    requires AreQueues(s, ls) && Agrees(tab, ls)
    ensures t in tab[t % TABLE_SIZE] <==> Waiting(ls, t)
    ensures Waiting(ls, t) ==> t in s.queue && s.queue[t].Some?
    ensures forall q: Q {:trigger ls.Get(q)} :: t in ls.Get(q) <==> Waiting(ls, t) && s.queue[t] == Some(q)
    ensures forall q: Q {:trigger ls.Get(q)} :: multiset(ls.Get(q))[t] <= 1
  {
    if Waiting(ls, t) {
      Located(s, ls, t);
    }
    forall q: Q {:trigger ls.Get(q)}
      ensures t in ls.Get(q) ==> Waiting(ls, t)
      ensures multiset(ls.Get(q))[t] <= 1
    {
      QueueOf(s, ls, q);
      AtMostOnce(ls.Get(q), t);
    }
  }

  lemma {:induction false} AtMostOnce(xs: seq<nat>, t: nat)
    requires Distinct(xs)
    ensures multiset(xs)[t] <= 1
  {
    if xs != [] {
      assert xs == [xs[0]] + xs[1..];
      AtMostOnce(xs[1..], t);
      if xs[0] == t {
        assert t !in xs[1..] && t !in multiset(xs[1..]);
      }
    }
  }

  function Total(tab: seq<seq<nat>>): nat {
    if tab == [] then 0 else Total(tab[..|tab| - 1]) + |tab[|tab| - 1]|
  }

  // The number of threads found by going through the whole table.
  lemma Population(s: Links, tab: seq<seq<nat>>, ls: Lists)
    requires AreQueues(s, ls) && Agrees(tab, ls)
    ensures Total(tab) == Count(ls)
  {
    var all := Members(ls.run) + Members(ls.block) + Members(ls.sleep);
    MembersCount(ls.run);
    MembersCount(ls.block);
    MembersCount(ls.sleep);
    forall t: nat
      ensures !(t in ls.run && t in ls.block) && !(t in ls.run && t in ls.sleep) && !(t in ls.block && t in ls.sleep)
    {
      if t in ls.run && t in ls.block { Apart(s, RunQ, ls.run, BlockQ, ls.block, t); }
      if t in ls.run && t in ls.sleep { Apart(s, RunQ, ls.run, SleepQ, ls.sleep, t); }
      if t in ls.block && t in ls.sleep { Apart(s, BlockQ, ls.block, SleepQ, ls.sleep, t); }
    }
    assert Members(ls.run) !! Members(ls.block) && (Members(ls.run) + Members(ls.block)) !! Members(ls.sleep);
    assert tab[..TABLE_SIZE] == tab;
    forall b | 0 <= b < TABLE_SIZE
      ensures Filed(tab[b], all, b)
    {
      forall t: nat
        ensures t in tab[b] <==> t in all && t % TABLE_SIZE == b
      {
        assert t in all <==> Waiting(ls, t);
      }
    }
    TotalCount(tab, TABLE_SIZE, all);
    assert all == Below(all, TABLE_SIZE);
  }

  lemma {:induction false} MembersCount(xs: seq<nat>)
    requires Distinct(xs)
    ensures |Members(xs)| == |xs|
  {
    if xs != [] {
      MembersCount(xs[1..]);
      assert xs == [xs[0]] + xs[1..];
      assert Members(xs) == {xs[0]} + Members(xs[1..]);
    }
  }

  function Below(all: set<nat>, n: nat): set<nat> {
    set t | t in all && t % TABLE_SIZE < n
  }

  // Bucket `b` holds those that belong there, each once.
  ghost predicate Filed(bucket: seq<nat>, all: set<nat>, b: nat) {
    Distinct(bucket) && forall t: nat :: t in bucket <==> t in all && t % TABLE_SIZE == b
  }

  lemma {:induction false} TotalCount(tab: seq<seq<nat>>, n: nat, all: set<nat>)
    requires n <= |tab| == TABLE_SIZE && forall b | 0 <= b < TABLE_SIZE :: Filed(tab[b], all, b)
    ensures Total(tab[..n]) == |Below(all, n)|
    decreases n
  {
    if n > 0 {
      TotalCount(tab, n - 1, all);
      assert tab[..n][..n - 1] == tab[..n - 1];
      OneBucket(tab[n - 1], all, n - 1);
    } else {
      assert Below(all, n) == {};
    }
  }

  lemma OneBucket(bucket: seq<nat>, all: set<nat>, b: nat)
    requires Filed(bucket, all, b)
    ensures |Below(all, b + 1)| == |Below(all, b)| + |bucket|
  {
    MembersCount(bucket);
    forall t: nat
      ensures t in Below(all, b + 1) <==> t in Below(all, b) || t in Members(bucket)
      ensures !(t in Below(all, b) && t in Members(bucket))
    {
      assert t in bucket <==> t in all && t % TABLE_SIZE == b;
    }
    assert Below(all, b + 1) == Below(all, b) + Members(bucket);
    assert Below(all, b) !! Members(bucket);
  }
}
