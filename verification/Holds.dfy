// What locking, unlocking and trying again do to who holds what.
module Holds {
  import opened Values
  import opened Locks

  // The holds of thread `t` on object `x` change by `d`, all others stay.
  ghost predicate Shifted(s: State, s2: State, t: nat, x: nat, d: int) {
    && Held(s2, t, x) == Held(s, t, x) + d
    && (forall u: nat, y: nat {:trigger Held(s2, u, y)} :: u != t || y != x ==> Held(s2, u, y) == Held(s, u, y))
    && (forall y: nat {:trigger Of(s2, y)} :: y != x ==> Of(s2, y) == Of(s, y))
  }

  ghost predicate Free(s: State, x: nat, t: nat) {
    forall u: nat :: u != t ==> Held(s, u, x) <= 0
  }

  // An object can be locked exactly if no other thread holds it, by a thread
  // that holds no other object; if it is held, the thread waits for it.
  lemma LockingHolds(s: State, t: nat, x: nat)
    requires Exclusive(s) && Running(s, t)
    ensures var (s2, answer) := LockStep(s, t, x);
            && (answer == MultipleLocks <==> exists y: nat :: y != x && Held(s, t, y) > 0)
            && (answer == Granted <==> (forall y: nat :: y != x ==> Held(s, t, y) <= 0) && Free(s, x, t))
            && (answer == Granted ==> Shifted(s, s2, t, x, 1) && Running(s2, t) &&
                                      Of(s2, x) == Mutex(Held(s2, t, x), t))
            && (answer == MultipleLocks ==> s2 == s)
            && (answer == Blocks ==> Shifted(s, s2, t, x, 0) && s2.regs[t] == Regs(Some(x), 1, true) &&
                                     s2.mutexes == s.mutexes)
            && answer != Refused
  {
    var (s2, answer) := LockStep(s, t, x);
    var me, m := s.regs[t], Of(s, x);
    assert Sane(me) && Agrees(s, x);
    if answer == MultipleLocks {
      assert Held(s, t, me.locked.value) > 0;
    } else {
      assert forall y: nat :: y != x ==> Held(s, t, y) <= 0;
      if answer == Blocks {
        assert Held(s, m.owner, x) > 0 && m.owner != t;
        assert Held(s, t, x) == 0;
      } else {
        assert Free(s, x, t);
      }
    }
  }

  // Unlocking takes exactly one hold away, if there is one, and frees the
  // object with the last.
  lemma UnlockingHolds(s: State, t: nat, x: nat)
    requires Exclusive(s) && Running(s, t)
    ensures var (s2, answer) := UnlockStep(s, t, x);
            && (answer == Granted <==> Held(s, t, x) > 0) && (answer == Granted || (answer == Refused && s2 == s))
            && (answer == Granted ==>
                  && Shifted(s, s2, t, x, -1) && Running(s2, t)
                  && Of(s2, x) == if Held(s2, t, x) > 0 then Mutex(Held(s2, t, x), t) else Mutex(0, 0))
  {
    var me := s.regs[t];
    assert Sane(me) && Agrees(s, x);
  }

  function Unlocked(s: State, t: nat, x: nat, n: nat): Option<State>
    decreases n
  {
    if n == 0 then Some(s)
    else if !Running(s, t) then None
    else Unlocked(UnlockStep(s, t, x).0, t, x, n - 1)
  }

  // After as many unlocks as there were locks the counter is zero, and any
  // running thread that holds nothing can have the object.
  lemma {:induction false} UnlockedOften(s: State, t: nat, x: nat, n: nat, u: nat)
    requires Exclusive(s) && Running(s, t) && n == Held(s, t, x)
    ensures Unlocked(s, t, x, n).Some?
    ensures var s2 := Unlocked(s, t, x, n).value;
            && Exclusive(s2) && Shifted(s, s2, t, x, -Held(s, t, x)) && Running(s2, t)
            && (n > 0 ==> Of(s2, x).counter == 0)
            && (n > 0 && Running(s2, u) && (forall y: nat :: Held(s2, u, y) <= 0) ==> LockStep(s2, u, x).1 == Granted)
    decreases n
  {
    if n > 0 {
      UnlockingHolds(s, t, x);
      UnlockKeeps(s, t, x);
      var s1 := UnlockStep(s, t, x).0;
      UnlockedOften(s1, t, x, n - 1, u);
      var s2 := Unlocked(s, t, x, n).value;
      assert s2 == Unlocked(s1, t, x, n - 1).value;
      if n == 1 {
        assert s2 == s1;
      }
      if Running(s2, u) && (forall y: nat :: Held(s2, u, y) <= 0) {
        assert Agrees(s2, x);
        LockingHolds(s2, u, x);
      }
    }
  }

  // A waiting thread that is tried again gets the object exactly if nobody
  // holds it; otherwise nothing changes.
  lemma RetryingHolds(s: State, t: nat, x: nat)
    requires Exclusive(s) && t in s.regs && s.regs[t].waiting && s.regs[t].locked == Some(x)
    ensures var s2 := RetryStep(s, t);
            && (Running(s2, t) <==> Free(s, x, t))
            && (Running(s2, t) ==> Shifted(s, s2, t, x, 1) && Held(s2, t, x) == 1 && Of(s2, x) == Mutex(1, t))
            && (!Running(s2, t) ==> s2 == s)
  {
    var m := Of(s, x);
    assert Sane(s.regs[t]) && Agrees(s, x) && Held(s, t, x) == 0;
    if Running(RetryStep(s, t), t) {
      assert m.counter == 0;
    } else {
      assert Held(s, m.owner, x) > 0;
    }
  }
}
