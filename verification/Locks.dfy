// Recursive object locks: the mutex, the primitives, the scheduler's retry,
// and the release when a thread exits.
module Locks {
  import opened Values

  // Threads are known by number; 0 stands for no current thread.
  datatype Mutex = Mutex(counter: int, owner: nat)

  function TryLock(m: Mutex, self: nat): Option<Mutex> {
    if m.counter != 0 && m.owner != self then None else Some(Mutex(m.counter + 1, self))
  }

  function Released(m: Mutex): Mutex {
    if m.counter - 1 <= 0 then Mutex(0, 0) else m.(counter := m.counter - 1)
  }

  // What a thread's registers say: the object it holds or waits for, how
  // often it locked it, and whether it is in the block queue waiting for it.
  datatype Regs = Regs(locked: Option<nat>, count: int, waiting: bool)

  const NO_LOCKS := Regs(None, 0, false)

  datatype State = State(mutexes: map<nat, Mutex>, regs: map<nat, Regs>)

  function Of(s: State, x: nat): Mutex {
    if x in s.mutexes then s.mutexes[x] else Mutex(0, 0)
  }

  // How often thread `t` holds `x`: a thread that waits has counted its
  // attempt already.
  function Held(s: State, t: nat, x: nat): int {
    if t in s.regs && s.regs[t].locked == Some(x) then s.regs[t].count - (if s.regs[t].waiting then 1 else 0) else 0
  }

  // ---- Steps ----

  datatype Answer = Granted | Refused | Blocks | MultipleLocks

  predicate Running(s: State, t: nat) {
    t in s.regs && !s.regs[t].waiting
  }

  function LockStep(s: State, t: nat, x: nat): (r: (State, Answer))
    requires Running(s, t)
  {
    var me := s.regs[t];
    if me.count > 0 && me.locked != Some(x) then (s, MultipleLocks)
    else
      match TryLock(Of(s, x), t)
      case None => (s.(regs := s.regs[t := Regs(Some(x), me.count + 1, true)]), Blocks)
      case Some(m) => (State(s.mutexes[x := m], s.regs[t := Regs(Some(x), me.count + 1, false)]), Granted)
  }

  function UnlockStep(s: State, t: nat, x: nat): (r: (State, Answer))
    requires Running(s, t)
  {
    var me := s.regs[t];
    if me.locked != Some(x) then (s, Refused)
    else (State(s.mutexes[x := Released(Of(s, x))],
                s.regs[t := if me.count - 1 <= 0 then NO_LOCKS else me.(count := me.count - 1)]), Granted)
  }

  // run_blocked_queue tries again for a waiting thread.
  function RetryStep(s: State, t: nat): State
    requires t in s.regs && s.regs[t].waiting && s.regs[t].locked.Some?
  {
    var x := s.regs[t].locked.value;
    match TryLock(Of(s, x), t)
    case None => s
    case Some(m) => State(s.mutexes[x := m], s.regs[t := s.regs[t].(waiting := false)])
  }

  function ReleasedTimes(m: Mutex, n: nat): Mutex
    decreases n
  {
    if n == 0 then m else ReleasedTimes(Released(m), n - 1)
  }

  // A finished thread gives back what it counted, whoever holds it.
  function ExitStep(s: State, t: nat): State
    requires t in s.regs
  {
    var me := s.regs[t];
    State(if me.locked.None? || me.count <= 0 then s.mutexes
          else s.mutexes[me.locked.value := ReleasedTimes(Of(s, me.locked.value), me.count)], s.regs - {t})
  }

  // A thread that is killed leaves the block queue and runs.
  function KillStep(s: State, t: nat): State
    requires t in s.regs
  {
    s.(regs := s.regs[t := s.regs[t].(waiting := false)])
  }

  // ---- The invariant ----

  predicate Sane(r: Regs) {
    r.count >= 0 && (r.count > 0 <==> r.locked.Some?) && (r.waiting ==> r.count == 1)
  }

  // The counter of every object is the recursive count of its one holder, and
  // zero when it has none.
  ghost predicate Exclusive(s: State) {
    && (forall t | t in s.regs :: t > 0 && Sane(s.regs[t]))
    && (forall x: nat {:trigger Of(s, x)} :: Agrees(s, x))
  }

  ghost predicate Agrees(s: State, x: nat) {
    && Of(s, x).counter >= 0
    && (forall t: nat | Held(s, t, x) > 0 :: Of(s, x) == Mutex(Held(s, t, x), t))
    && (Of(s, x).counter > 0 ==> Held(s, Of(s, x).owner, x) > 0)
  }

  // ---- What one step keeps ----

  // An object nobody's registers or mutex changed for.
  lemma StillAgrees(s: State, s2: State, y: nat)
    requires Agrees(s, y) && Of(s2, y) == Of(s, y)
    requires forall u: nat {:trigger Held(s2, u, y)} :: Held(s2, u, y) == Held(s, u, y)
    ensures Agrees(s2, y)
  {
    var u := Of(s2, y).owner;
    assert Held(s2, u, y) == Held(s, u, y);
  }

  // Only thread `t`'s hold on `x` changes, to `n` times; `m` says the same.
  lemma NowAgrees(s: State, s2: State, x: nat, t: nat, n: int, m: Mutex)
    requires Agrees(s, x) && Of(s2, x) == m && Held(s2, t, x) == n && m.counter == n >= 0 && (n > 0 ==> m.owner == t)
    requires forall u: nat {:trigger Held(s2, u, x)} :: u != t ==> Held(s2, u, x) == Held(s, u, x) <= 0
    ensures Agrees(s2, x)
  {
  }

  // Nobody holds what thread `t` holds, and nobody what is free.
  lemma NobodyElse(s: State, x: nat, t: nat, u: nat)
    requires Agrees(s, x) && (Held(s, t, x) > 0 || Of(s, x).counter == 0) && u != t
    ensures Held(s, u, x) <= 0
  {
  }

  lemma LockKeeps(s: State, t: nat, x: nat)
    requires Exclusive(s) && Running(s, t)
    ensures Exclusive(LockStep(s, t, x).0)
  {
    var (s2, answer) := LockStep(s, t, x);
    forall y: nat
      ensures Agrees(s2, y)
    {
      var m := Of(s, y);
      assert Agrees(s, y);
      if y != x || answer != Granted {
        StillAgrees(s, s2, y);
      } else {
        Taking(s, s2, t, x, Held(s, t, x));
      }
    }
  }

  lemma Taking(s: State, s2: State, t: nat, x: nat, n: int)
    requires Agrees(s, x) && n == Held(s, t, x) >= 0 && TryLock(Of(s, x), t) == Some(Of(s2, x))
             && Held(s2, t, x) == n + 1
    requires forall u: nat {:trigger Held(s2, u, x)} :: u != t ==> Held(s2, u, x) == Held(s, u, x)
    ensures Agrees(s2, x)
  {
    forall u: nat {:trigger Held(s2, u, x)} | u != t
      ensures Held(s2, u, x) == Held(s, u, x) <= 0
    {
      NobodyElse(s, x, t, u);
    }
    NowAgrees(s, s2, x, t, n + 1, Of(s2, x));
  }

  lemma UnlockKeeps(s: State, t: nat, x: nat)
    requires Exclusive(s) && Running(s, t)
    ensures Exclusive(UnlockStep(s, t, x).0)
  {
    var s2 := UnlockStep(s, t, x).0;
    forall y: nat
      ensures Agrees(s2, y)
    {
      var m := Of(s, y);
      assert Agrees(s, y);
      if y != x || s.regs[t].locked != Some(x) {
        StillAgrees(s, s2, y);
      } else {
        assert Sane(s.regs[t]) && Held(s, t, x) == s.regs[t].count > 0;
        forall u: nat {:trigger Held(s2, u, x)} | u != t
          ensures Held(s2, u, x) == Held(s, u, x) <= 0
        {
          NobodyElse(s, x, t, u);
        }
        NowAgrees(s, s2, x, t, s.regs[t].count - 1, Of(s2, x));
      }
    }
  }

  lemma RetryKeeps(s: State, t: nat)
    requires Exclusive(s) && t in s.regs && s.regs[t].waiting
    ensures s.regs[t].locked.Some? && Exclusive(RetryStep(s, t))
  {
    assert Sane(s.regs[t]);
    var x := s.regs[t].locked.value;
    var s2 := RetryStep(s, t);
    forall y: nat
      ensures Agrees(s2, y)
    {
      var m := Of(s, y);
      assert Agrees(s, y);
      if y != x || TryLock(Of(s, x), t).None? {
        StillAgrees(s, s2, y);
      } else {
        Taking(s, s2, t, x, Held(s, t, x));
      }
    }
  }

  lemma {:induction false} ReleasedToZero(m: Mutex, n: nat)
    requires 0 <= m.counter <= n && n > 0
    ensures ReleasedTimes(m, n) == Mutex(0, 0)
    decreases n
  {
    if n > 1 {
      ReleasedToZero(Released(m), n - 1);
    }
  }

  // A thread may exit in peace unless it is waiting for a lock that is held.
  predicate ExitsInPeace(s: State, t: nat)
    requires t in s.regs
  {
    s.regs[t].waiting && s.regs[t].locked.Some? ==> Of(s, s.regs[t].locked.value).counter == 0
  }

  lemma ExitKeepsExactly(s: State, t: nat)
    requires Exclusive(s) && t in s.regs
    ensures Exclusive(ExitStep(s, t)) <==> ExitsInPeace(s, t)
  {
    assert Sane(s.regs[t]);
    var s2, me := ExitStep(s, t), s.regs[t];
    if me.locked.Some? {
      var x := me.locked.value;
      var m := Of(s, x);
      assert Agrees(s, x);
      if ExitsInPeace(s, t) {
        assert me.waiting || Held(s, t, x) > 0;
        ReleasedToZero(m, me.count);
      } else {
        assert me.waiting && m.counter > 0 && Held(s, m.owner, x) == m.counter && m.owner != t;
        assert ReleasedTimes(m, 1) == Released(m);
        assert Held(s2, m.owner, x) == m.counter && Of(s2, x).counter < m.counter;
        assert !Agrees(s2, x);
        return;
      }
    }
    forall y: nat
      ensures Agrees(s2, y)
    {
      var m := Of(s, y);
      assert Agrees(s, y);
      assert forall u: nat :: u != t ==> Held(s2, u, y) == Held(s, u, y);
    }
  }

  // Killing a thread that waits for a lock always breaks the accounting.
  lemma KillKeepsExactly(s: State, t: nat)
    requires Exclusive(s) && t in s.regs
    ensures Exclusive(KillStep(s, t)) <==> !s.regs[t].waiting
  {
    var s2 := KillStep(s, t);
    if s.regs[t].waiting {
      assert Sane(s.regs[t]);
      var x := s.regs[t].locked.value;
      var m := Of(s, x);
      assert Agrees(s, x) && Held(s, t, x) == 0 && Held(s2, t, x) == 1;
      assert Of(s2, x) == m;
      assert !Agrees(s2, x);
    } else {
      assert s2 == s;
    }
  }

  // ---- Whole runs ----

  datatype Event = Start(t: nat) | Lock(t: nat, x: nat) | Unlock(t: nat, x: nat) | Retry(t: nat) | Exit(t: nat)

  // What can happen next, with no thread dying while it waits for a lock that
  // is held.
  predicate Enabled(s: State, e: Event) {
    match e
    case Start(t) => t > 0 && t !in s.regs
    case Lock(t, _) => Running(s, t)
    case Unlock(t, _) => Running(s, t)
    case Retry(t) => t in s.regs && s.regs[t].waiting && s.regs[t].locked.Some?
    case Exit(t) => t in s.regs && ExitsInPeace(s, t)
  }

  function Step(s: State, e: Event): State
    requires Enabled(s, e)
  {
    match e
    case Start(t) => s.(regs := s.regs[t := NO_LOCKS])
    case Lock(t, x) => LockStep(s, t, x).0
    case Unlock(t, x) => UnlockStep(s, t, x).0
    case Retry(t) => RetryStep(s, t)
    case Exit(t) => ExitStep(s, t)
  }

  const IDLE := State(map[], map[])

  // The state after the events, if they can happen one after another.
  function Run(es: seq<Event>): Option<State> {
    if es == [] then Some(IDLE)
    else
      match Run(es[..|es| - 1])
      case None => None
      case Some(s) => if Enabled(s, es[|es| - 1]) then Some(Step(s, es[|es| - 1])) else None
  }

  lemma RunOn(es: seq<Event>, e: Event)
    requires Run(es).Some? && Enabled(Run(es).value, e)
    ensures Run(es + [e]) == Some(Step(Run(es).value, e))
  {
    assert (es + [e])[..|es|] == es;
  }

  lemma IdleIsExclusive()
    ensures Exclusive(IDLE)
  {
    forall y: nat
      ensures Agrees(IDLE, y)
    {
    }
  }

  lemma StartKeeps(s: State, t: nat)
    requires Exclusive(s) && t > 0 && t !in s.regs
    ensures Exclusive(s.(regs := s.regs[t := NO_LOCKS]))
  {
    var s2 := s.(regs := s.regs[t := NO_LOCKS]);
    forall y: nat
      ensures Agrees(s2, y)
    {
      var m := Of(s, y);
      assert Agrees(s, y);
      assert forall u: nat :: Held(s2, u, y) == Held(s, u, y);
    }
  }

  lemma {:induction false} RunsKeep(es: seq<Event>)
    requires Run(es).Some?
    ensures Exclusive(Run(es).value)
  {
    if es != [] {
      RunsKeep(es[..|es| - 1]);
      var s := Run(es[..|es| - 1]).value;
      match es[|es| - 1]
      case Start(t) => StartKeeps(s, t);
      case Lock(t, x) => LockKeeps(s, t, x);
      case Unlock(t, x) => UnlockKeeps(s, t, x);
      case Retry(t) => RetryKeeps(s, t);
      case Exit(t) => ExitKeepsExactly(s, t);
    } else {
      IdleIsExclusive();
    }
  }

  // After any run, an object's counter is the number of times its one holder
  // has it locked, and zero exactly when nobody has; no two threads do.
  lemma MutualExclusion(es: seq<Event>, x: nat, t: nat, u: nat)
    requires Run(es).Some?
    ensures var s := Run(es).value;
            && Of(s, x).counter >= 0
            && (Held(s, t, x) > 0 ==> Of(s, x).counter == Held(s, t, x) && Of(s, x).owner == t)
            && (Of(s, x).counter == 0 <==> forall v: nat :: Held(s, v, x) <= 0)
            && (Held(s, t, x) > 0 && Held(s, u, x) > 0 ==> t == u)
  {
    RunsKeep(es);
    var s := Run(es).value;
    var m := Of(s, x);
    assert Agrees(s, x);
  }

  // ---- What a killed waiter does ----

  // One thread holds the object and another waits for it and is killed: its
  // exit takes the lock from the holder, and a third thread gets it too.
  lemma KilledWaiter(x: nat)
    ensures var es := [Start(1), Start(2), Start(3), Lock(1, x), Lock(2, x)];
            Run(es).Some? && Running(KillStep(Run(es).value, 2), 3)
            && var s := ExitStep(KillStep(Run(es).value, 2), 2);
               Running(s, 3) && Held(LockStep(s, 3, x).0, 1, x) == 1 && Held(LockStep(s, 3, x).0, 3, x) == 1
  {
    var es := [Start(1), Start(2), Start(3), Lock(1, x), Lock(2, x)];
    var e1 := [] + [Start(1)];
    var e2 := e1 + [Start(2)];
    var e3 := e2 + [Start(3)];
    var e4 := e3 + [Lock(1, x)];
    RunOn([], Start(1));
    RunOn(e1, Start(2));
    RunOn(e2, Start(3));
    RunOn(e3, Lock(1, x));
    RunOn(e4, Lock(2, x));
    assert es == e4 + [Lock(2, x)];
    assert Run(e4).value.mutexes == map[x := Mutex(1, 1)];
    assert Run(es).value.regs[2] == Regs(Some(x), 1, true) && Run(es).value.regs[1] == Regs(Some(x), 1, false);
    assert ReleasedTimes(Mutex(1, 1), 1) == Mutex(0, 0);
  }

  // ---- After a restore ----

  // Each restored thread locks what it had locked as often as it had, but
  // while no thread is current.
  function Relock(m: Mutex, n: nat): Mutex
    decreases n
  {
    if n == 0 then m
    else match TryLock(m, 0)
         case None => Relock(m, n - 1)
         case Some(m2) => Relock(m2, n - 1)
  }

  // The counter comes back right for one holder, but the holder is not its
  // owner: until somebody unlocks, no thread can lock it, not even the one that
  // holds it.
  lemma {:induction false} RestoredLocks(m: Mutex, n: nat)
    requires m.counter >= 0 && (m.counter > 0 ==> m.owner == 0)
    ensures Relock(m, n).counter == m.counter + n
    ensures forall t: nat | t > 0 :: TryLock(Relock(m, n), t).None? <==> m.counter + n > 0
    decreases n
  {
    if n > 0 {
      RestoredLocks(Mutex(m.counter + 1, 0), n - 1);
    }
  }

  // ---- The code ----

  // Some of the releases have been made.
  predicate HandingBack(mutexes: map<nat, Mutex>, s: State, x: nat, left: nat, count: nat) {
    && x in mutexes && mutexes == s.mutexes[x := mutexes[x]]
    && ReleasedTimes(mutexes[x], left) == ReleasedTimes(Of(s, x), count)
  }

  // The registers and mutexes the primitives change.
  class LockTable {
    var mutexes: map<nat, Mutex>
    var regs: map<nat, Regs>
    var current: nat

    constructor ()
      ensures mutexes == map[] && regs == map[] && current == 0
    {
      mutexes, regs, current := map[], map[], 0;
    }

    function Now(): State
      reads this
    {
      State(mutexes, regs)
    }

    // recmutex_init, when an object is made.
    method InitMutex(x: nat)
      modifies `mutexes
      ensures mutexes == old(mutexes)[x := Mutex(0, current)]
    {
      mutexes := mutexes[x := Mutex(0, current)];
    }

    method LockMutex(x: nat) returns (status: int)
      modifies `mutexes
      ensures var r := TryLock(Of(old(Now()), x), current);
              if r.None? then status == -1 && mutexes == old(mutexes)
              else status == 0 && mutexes == old(mutexes)[x := r.value]
    {
      var m := Of(Now(), x);
      var self := current;
      if m.counter != 0 && m.owner != self {
        return -1;
      }
      m := m.(counter := m.counter + 1);
      mutexes := mutexes[x := m.(owner := self)];
      status := 0;
    }

    method UnlockMutex(x: nat)
      modifies `mutexes
      ensures mutexes == old(mutexes)[x := Released(Of(old(Now()), x))]
    {
      var m := Of(Now(), x);
      m := m.(counter := m.counter - 1);
      if m.counter <= 0 {
        m := Mutex(0, 0);
      }
      mutexes := mutexes[x := m];
    }

    // The lock primitive: the count goes up before the lock is tried.
    method LockObject(x: nat) returns (answer: Answer)
      requires Running(Now(), current)
      modifies `mutexes, `regs
      ensures (Now(), answer) == LockStep(old(Now()), current, x)
    {
      var me := regs[current];
      if me.count > 0 && me.locked != Some(x) {
        return MultipleLocks;
      }
      me := me.(locked := Some(x));
      me := me.(count := me.count + 1);
      var status := LockMutex(x);
      regs := regs[current := me.(waiting := status < 0)];
      answer := if status < 0 then Blocks else Granted;
    }

    method UnlockObject(x: nat) returns (answer: Answer)
      requires Running(Now(), current)
      modifies `mutexes, `regs
      ensures (Now(), answer) == UnlockStep(old(Now()), current, x)
    {
      var me := regs[current];
      if me.locked != Some(x) {
        return Refused;
      }
      me := me.(count := me.count - 1);
      if me.count <= 0 {
        me := me.(locked := None, count := 0);
      }
      regs := regs[current := me];
      UnlockMutex(x);
      answer := Granted;
    }

    // A waiting thread's turn in the pass over the block queue.
    method RetryLock(t: nat)
      requires t in regs && regs[t].waiting && regs[t].locked.Some?
      modifies `mutexes, `regs, `current
      ensures Now() == RetryStep(old(Now()), t) && current == t
    {
      current := t;
      var status := LockMutex(regs[t].locked.value);
      if status >= 0 {
        regs := regs[t := regs[t].(waiting := false)];
      }
    }

    method ExitThread(t: nat)
      requires t in regs && regs[t].count >= 0
      modifies `mutexes, `regs
      ensures Now() == ExitStep(old(Now()), t)
    {
      var was := regs[t];
      var left := was.count;
      ghost var s0 := Now();
      while left > 0 && was.locked.Some?
        invariant 0 <= left <= was.count && regs == s0.regs
        invariant left == was.count ==> mutexes == s0.mutexes
        invariant left < was.count ==> was.locked.Some? && HandingBack(mutexes, s0, was.locked.value, left, was.count)
        decreases left
      {
        UnlockMutex(was.locked.value);
        left := left - 1;
      }
      regs := regs - {t};
    }
  }
}
