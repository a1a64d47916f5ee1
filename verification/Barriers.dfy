// The barrier: a mutex, one condition variable, and two counters.  A step is
// what one participant does from getting the mutex until it lets go of it.
module Barriers {

  // Where a participant is: outside; waiting, for the others to arrive or to
  // go to sleep, on the condition variable; or woken, and waiting for the mutex.
  datatype Place = Outside | Gathering | Called | Sleeping | Roused

  // `done` counts the barrier_hit calls that have returned.
  datatype Party = Party(done: nat, place: Place)

  datatype State = State(threshold: int, waiting: int, sleeping: int, parties: seq<Party>)

  function Started(p: Party): nat {
    p.done + if p.place == Outside then 0 else 1
  }

  // ---- Steps ----

  function Awoken(p: Party): Party {
    match p.place
    case Gathering => p.(place := Called)
    case Sleeping => p.(place := Roused)
    case _ => p
  }

  function Broadcast(ps: seq<Party>): (r: seq<Party>)
    ensures |r| == |ps|
  {
    seq(|ps|, i requires 0 <= i < |ps| => Awoken(ps[i]))
  }

  // sleeping is incremented, then wait_for_wakeup.
  function Sleep(s: State, i: nat): State
    requires i < |s.parties|
  {
    var s2 := s.(sleeping := s.sleeping + 1);
    if s2.sleeping == s2.waiting then
      s2.(sleeping := 0, waiting := 0, parties := Broadcast(s2.parties)[i := Party(s.parties[i].done + 1, Outside)])
    else s2.(parties := s2.parties[i := s.parties[i].(place := Sleeping)])
  }

  function Arrive(s: State, i: nat): State
    requires i < |s.parties|
  {
    var s2 := s.(waiting := s.waiting + 1);
    if s2.waiting >= s2.threshold then Sleep(s2.(parties := Broadcast(s2.parties)), i)
    else s2.(parties := s2.parties[i := s.parties[i].(place := Gathering)])
  }

  function Recheck(s: State, i: nat): State
    requires i < |s.parties|
  {
    if s.waiting < s.threshold then s.(parties := s.parties[i := s.parties[i].(place := Gathering)])
    else Sleep(s, i)
  }

  function Leave(s: State, i: nat): State
    requires i < |s.parties|
  {
    s.(parties := s.parties[i := Party(s.parties[i].done + 1, Outside)])
  }

  // Nobody leaves the condition variable without a broadcast.
  predicate Enabled(s: State, i: nat) {
    i < |s.parties| && s.parties[i].place != Gathering && s.parties[i].place != Sleeping
  }

  function Step(s: State, i: nat): State
    requires Enabled(s, i)
  {
    match s.parties[i].place
    case Outside => Arrive(s, i)
    case Called => Recheck(s, i)
    case Roused => Leave(s, i)
  }

  function Init(n: nat): State {
    State(n, 0, 0, seq(n, i => Party(0, Outside)))
  }

  // The state after the given participants have made a step each, in order.
  function Run(n: nat, turns: seq<nat>): (r: State)
    requires Possible(n, turns)
    decreases turns, 1
  {
    if turns == [] then Init(n) else Step(Run(n, turns[..|turns| - 1]), turns[|turns| - 1])
  }

  predicate Possible(n: nat, turns: seq<nat>)
    decreases turns, 0
  {
    turns == [] || (Possible(n, turns[..|turns| - 1]) && Enabled(Run(n, turns[..|turns| - 1]), turns[|turns| - 1]))
  }

  // ---- Counting ----

  function Count(ps: seq<Party>, at: Place): nat {
    if ps == [] then 0 else Count(ps[..|ps| - 1], at) + if ps[|ps| - 1].place == at then 1 else 0
  }

  lemma {:induction false} CountUpdate(ps: seq<Party>, i: nat, p: Party, at: Place)
    requires i < |ps|
    ensures Count(ps[i := p], at) ==
            Count(ps, at) - (if ps[i].place == at then 1 else 0) + (if p.place == at then 1 else 0)
    decreases |ps|
  {
    var n := |ps| - 1;
    if i < n {
      assert ps[i := p][..n] == ps[..n][i := p];
      CountUpdate(ps[..n], i, p, at);
    } else {
      assert ps[i := p][..n] == ps[..n];
    }
  }

  lemma {:induction false} CountSome(ps: seq<Party>, at: Place)
    ensures Count(ps, at) <= |ps|
    ensures Count(ps, at) == |ps| <==> forall j | 0 <= j < |ps| :: ps[j].place == at
    ensures Count(ps, at) == 0 <==> forall j | 0 <= j < |ps| :: ps[j].place != at
    decreases |ps|
  {
    if ps != [] {
      CountSome(ps[..|ps| - 1], at);
    }
  }

  // All but one are there.
  lemma CountOthers(ps: seq<Party>, i: nat, at: Place)
    requires i < |ps| && ps[i].place != at
    ensures Count(ps, at) < |ps|
    ensures Count(ps, at) == |ps| - 1 <==> forall j | 0 <= j < |ps| && j != i :: ps[j].place == at
  {
    var qs := ps[i := ps[i].(place := at)];
    CountUpdate(ps, i, ps[i].(place := at), at);
    CountSome(qs, at);
    forall j | 0 <= j < |ps| && j != i
      ensures qs[j] == ps[j]
    {
    }
  }

  // ---- The invariant ----

  // Round `r` while participants gather: stragglers of the round before may
  // still have to leave.
  ghost predicate Gathers(s: State, r: nat) {
    && s.sleeping == 0 && 0 <= s.waiting < |s.parties| && s.waiting == Count(s.parties, Gathering)
    && forall i | 0 <= i < |s.parties| ::
         var p := s.parties[i];
         ((p.place == Outside || p.place == Gathering) && p.done == r) || (p.place == Roused && p.done + 1 == r)
  }

  // Round `r` once all are there: they go to sleep one by one.
  ghost predicate Releases(s: State, r: nat) {
    && s.waiting == |s.parties| && 0 < s.sleeping < |s.parties| && s.sleeping == Count(s.parties, Sleeping)
    && forall i | 0 <= i < |s.parties| ::
         var p := s.parties[i]; (p.place == Called || p.place == Sleeping) && p.done == r
  }

  ghost predicate InRound(s: State, r: nat) {
    s.threshold == |s.parties| > 0 && (Gathers(s, r) || Releases(s, r))
  }

  // Everybody but one sleeps, and that one ends the round.
  lemma RoundEnds(s: State, i: nat, r: nat)
    requires i < |s.parties| == s.threshold && s.waiting == |s.parties| && s.sleeping == |s.parties| - 1
    requires s.parties[i].done == r
    requires forall j | 0 <= j < |s.parties| && j != i :: s.parties[j] == Party(r, Sleeping)
    ensures Gathers(Sleep(s, i), r + 1)
  {
    CountSome(Sleep(s, i).parties, Gathering);
  }

  lemma ArriveKeeps(s: State, i: nat, r: nat)
    requires InRound(s, r) && Enabled(s, i) && s.parties[i].place == Outside
    ensures InRound(Arrive(s, i), r) || InRound(Arrive(s, i), r + 1)
  {
    var ps, n := s.parties, |s.parties|;
    assert Gathers(s, r);
    if s.waiting + 1 < n {
      CountUpdate(ps, i, ps[i].(place := Gathering), Gathering);
    } else {
      CountOthers(ps, i, Gathering);
      LastArrives(s, i, r);
    }
  }

  lemma LastArrives(s: State, i: nat, r: nat)
    requires s.threshold == |s.parties| == s.waiting + 1 && s.sleeping == 0 && i < |s.parties|
    requires s.parties[i] == Party(r, Outside)
    requires forall j | 0 <= j < |s.parties| && j != i :: s.parties[j] == Party(r, Gathering)
    ensures Releases(Arrive(s, i), r) || Gathers(Arrive(s, i), r + 1)
  {
    var n, ps := |s.parties|, Broadcast(s.parties);
    var s2 := s.(waiting := n, parties := ps);
    assert ps[i] == Party(r, Outside);
    if n == 1 {
      RoundEnds(s2, i, r);
    } else {
      CountSome(ps, Sleeping);
      CountUpdate(ps, i, ps[i].(place := Sleeping), Sleeping);
    }
  }

  lemma RecheckKeeps(s: State, i: nat, r: nat)
    requires InRound(s, r) && Enabled(s, i) && s.parties[i].place == Called
    ensures InRound(Recheck(s, i), r) || InRound(Recheck(s, i), r + 1)
  {
    var ps, n := s.parties, |s.parties|;
    assert Releases(s, r);
    if s.sleeping + 1 < n {
      CountUpdate(ps, i, ps[i].(place := Sleeping), Sleeping);
    } else {
      CountOthers(ps, i, Sleeping);
      RoundEnds(s, i, r);
    }
  }

  lemma LeaveKeeps(s: State, i: nat, r: nat)
    requires InRound(s, r) && Enabled(s, i) && s.parties[i].place == Roused
    ensures InRound(Leave(s, i), r)
  {
    CountUpdate(s.parties, i, Party(s.parties[i].done + 1, Outside), Gathering);
  }

  lemma StepKeeps(s: State, i: nat, r: nat)
    requires InRound(s, r) && Enabled(s, i)
    ensures InRound(Step(s, i), r) || InRound(Step(s, i), r + 1)
    ensures |Step(s, i).parties| == |s.parties|
  {
    match s.parties[i].place
    case Outside => ArriveKeeps(s, i, r);
    case Called => RecheckKeeps(s, i, r);
    case Roused => LeaveKeeps(s, i, r);
  }

  lemma InitInRound(n: nat)
    requires n > 0
    ensures InRound(Init(n), 0)
  {
    CountSome(Init(n).parties, Gathering);
  }

  lemma {:induction false} RunInRound(n: nat, turns: seq<nat>) returns (r: nat)
    requires n > 0 && Possible(n, turns)
    ensures InRound(Run(n, turns), r) && |Run(n, turns).parties| == n
    decreases |turns|
  {
    if turns == [] {
      InitInRound(n);
      r := 0;
    } else {
      r := RunInRound(n, turns[..|turns| - 1]);
      var s, i := Run(n, turns[..|turns| - 1]), turns[|turns| - 1];
      StepKeeps(s, i, r);
      if !InRound(Run(n, turns), r) {
        r := r + 1;
      }
    }
  }

  // ---- What it is for ----

  // Whatever the order of steps, no participant has finished a hit that
  // another has not started.
  lemma RoundsSeparated(n: nat, turns: seq<nat>, i: nat, j: nat)
    requires n > 0 && Possible(n, turns) && i < n && j < n
    ensures |Run(n, turns).parties| == n && Run(n, turns).parties[i].done <= Started(Run(n, turns).parties[j])
  {
    var r := RunInRound(n, turns);
    var p, q := Run(n, turns).parties[i], Run(n, turns).parties[j];
  }

  // Between rounds, when everybody is outside, all have hit equally often and
  // both counters are zero.
  lemma BetweenRounds(n: nat, turns: seq<nat>, i: nat, j: nat)
    requires n > 0 && Possible(n, turns) && i < n && j < n
    requires forall k | 0 <= k < |Run(n, turns).parties| :: Run(n, turns).parties[k].place == Outside
    ensures var s := Run(n, turns);
            s.waiting == 0 && s.sleeping == 0 && |s.parties| == n && s.parties[i].done == s.parties[j].done
  {
    var r := RunInRound(n, turns);
    var s := Run(n, turns);
    CountSome(s.parties, Gathering);
    assert s.parties[i].place == Outside && s.parties[j].place == Outside;
  }

  // Somebody can always go on: no wakeup is lost.
  lemma NeverStuck(n: nat, turns: seq<nat>)
    requires n > 0 && Possible(n, turns)
    ensures exists i :: Enabled(Run(n, turns), i)
  {
    var r := RunInRound(n, turns);
    var s := Run(n, turns);
    CountSome(s.parties, Gathering);
    CountSome(s.parties, Sleeping);
    if Gathers(s, r) {
      var j :| 0 <= j < n && s.parties[j].place != Gathering;
      assert Enabled(s, j);
    } else {
      var j :| 0 <= j < n && s.parties[j].place != Sleeping;
      assert Enabled(s, j);
    }
  }

  // ---- The code ----

  class Barrier {
    var threshold: int
    var waiting: int
    var sleeping: int
    var parties: seq<Party>        // the participants, and who waits on the condition variable

    function Now(): State
      reads this
    {
      State(threshold, waiting, sleeping, parties)
    }

    constructor (n: nat)
      ensures Now() == Init(n)
    {
      threshold := n;
      waiting, sleeping := 0, 0;
      parties := seq(n, i => Party(0, Outside));
    }

    method Wait(i: nat, where: Place)
      requires i < |parties|
      modifies `parties
      ensures parties == old(parties)[i := old(parties)[i].(place := where)]
    {
      parties := parties[i := parties[i].(place := where)];
    }

    method WakeAll()
      modifies `parties
      ensures parties == Broadcast(old(parties))
    {
      var i := 0;
      while i < |parties|
        invariant i <= |parties| == |old(parties)|
        invariant forall j | 0 <= j < |parties| ::
                  parties[j] == if j < i then Awoken(old(parties)[j]) else old(parties)[j]
      {
        parties := parties[i := Awoken(parties[i])];
        i := i + 1;
      }
    }

    method Return(i: nat)
      requires i < |parties|
      modifies `parties
      ensures parties == old(parties)[i := Party(old(parties)[i].done + 1, Outside)]
    {
      parties := parties[i := Party(parties[i].done + 1, Outside)];
    }

    method WaitForWakeup(i: nat)
      requires i < |parties|
      modifies this
      ensures Now() == Sleep(old(Now()), i)
    {
      sleeping := sleeping + 1;
      if sleeping == waiting {
        sleeping, waiting := 0, 0;
        WakeAll();
        Return(i);
      } else {
        Wait(i, Sleeping);
      }
    }

    // barrier_hit up to the first wait.
    method Hit(i: nat)
      requires i < |parties|
      modifies this
      ensures Now() == Arrive(old(Now()), i)
    {
      waiting := waiting + 1;
      if waiting >= threshold {
        WakeAll();
        WaitForWakeup(i);
      } else {
        Wait(i, Gathering);
      }
    }

    // The loop's test after a wakeup.
    method Resume(i: nat)
      requires i < |parties|
      modifies this
      ensures Now() == Recheck(old(Now()), i)
    {
      if waiting < threshold {
        Wait(i, Gathering);
      } else {
        WaitForWakeup(i);
      }
    }
  }
}
