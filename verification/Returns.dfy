// `return` cannot surface from an expression that holds none.
module Returns {
  import opened Values
  import opened Machine
  import opened Syntax
  import opened Scoping
  import opened Semantics

  lemma {:induction false} NoReturnIsSafe(e: Expr, top: bool)
    requires NoReturn(e)
    ensures ReturnSafe(e, top)
    decreases e
  {
    match e
    case Lit(_) =>
    case This =>
    case Var(_) =>
    case One(_, a) => NoReturnIsSafe(a, top);
    case Two(_, a, b) => NoReturnIsSafe(a, top); NoReturnIsSafe(b, top);
    case Three(_, a, b, c) => NoReturnIsSafe(a, top); NoReturnIsSafe(b, top); NoReturnIsSafe(c, top);
    case Many(k, es) =>
      NoReturnsAreSafe(es);
      if es.Cons? { NoReturnIsSafe(es.head, top); }
    case Headed(_, a, _) => NoReturnIsSafe(a, top);
    case Fun(_, _) =>
  }

  lemma {:induction false} NoReturnsAreSafe(es: Exprs)
    requires NoReturns(es)
    ensures ReturnsSafe(es)
    decreases es
  {
    if es.Cons? {
      NoReturnIsSafe(es.head, false);
      NoReturnsAreSafe(es.tail);
    }
  }

  lemma {:induction false} NoReturnNoRet(w: World, fuel: nat, room: nat, e: Expr, s: Scopes, me: Me, st: St)
    requires NoReturn(e)
    ensures !Eval(w, fuel, room, e, s, me, st).Ret?
    decreases fuel, 1, e, 3
  {
    match e
    case One(k, a) =>
      NoReturnNoRet(w, fuel, room, a, Before1(k, s), me, st);
      assert !EvalOne(w, fuel, room, e, s, me, st).Ret?;
    case Two(k, _, _) =>
      if k.While? {
        NoReturnNoRetWhile(w, fuel, room, e, s, me, st);
        assert EvalTwo(w, fuel, room, e, s, me, st) == EvalWhile(w, fuel, room, e, s, me, st);
      } else {
        NoReturnNoRet2(w, fuel, room, e, s, me, st);
      }
    case Three(_, _, _, _) => NoReturnNoRet3(w, fuel, room, e, s, me, st);
    case Many(k, es) => NoReturnsNoRetMany(w, fuel, room, k, es, s, me, st);
    case Headed(_, _, _) => NoReturnNoRetHeaded(w, fuel, room, e, s, me, st);
    case _ =>
  }

  lemma {:induction false} NoReturnNoRet3(w: World, fuel: nat, room: nat, e: Expr, s: Scopes, me: Me, st: St)
    requires NoReturn(e) && e.Three?
    ensures !EvalThree(w, fuel, room, e, s, me, st).Ret?
    decreases fuel, 1, e, 2
  {
    NoReturnNoRet(w, fuel, room, e.a, s, me, st);
    var r1 := Eval(w, fuel, room, e.a, s, me, st);
    if r1.Val? {
      NoReturnNoRet(w, fuel, room, e.b, After(e.a, s), me, r1.st);
      NoReturnNoRet(w, fuel, room, e.c, After(e.b, After(e.a, s)), me, r1.st);
    }
  }

  lemma {:induction false} NoReturnNoRetHeaded(w: World, fuel: nat, room: nat, e: Expr, s: Scopes, me: Me, st: St)
    requires NoReturn(e) && e.Headed?
    ensures !EvalHeaded(w, fuel, room, e, s, me, st).Ret?
    decreases fuel, 1, e, 2
  {
    NoReturnNoRet(w, fuel, room, e.a, s, me, st);
    var r1 := Eval(w, fuel, room, e.a, s, me, st);
    if r1.Val? {
      NoReturnsNoRetApplied(w, fuel, room, r1.v, e.es, After(e.a, s), me, r1.st);
    }
  }

  lemma {:induction false} NoReturnsNoRetApplied(w: World, fuel: nat, room: nat, g: Value, es: Exprs, s: Scopes,
                                                 me: Me, st: St)
    requires NoReturns(es)
    ensures !EvalApplied(w, fuel, room, g, es, s, me, st).Ret?
    decreases fuel, 1, es, 2
  {
    if room >= 2 {
      NoReturnsNoRetArgs(w, fuel, room - 2, es, 1, |st.heap|, s, me, NewArgs(st, Count(es)));
    }
  }

  lemma {:induction false} NoReturnNoRet2(w: World, fuel: nat, room: nat, e: Expr, s: Scopes, me: Me, st: St)
    requires NoReturn(e) && e.Two? && !e.k2.While?
    ensures !EvalTwo(w, fuel, room, e, s, me, st).Ret?
    decreases fuel, 1, e, 2
  {
    NoReturnNoRet(w, fuel, room, e.a, s, me, st);
    var r1 := Eval(w, fuel, room, e.a, s, me, st);
    if r1.Val? {
      var room2 := if e.k2.Binary? && room > 0 then room - 1 else room;
      NoReturnNoRet(w, fuel, room2, e.b, After(e.a, s), me, r1.st);
      if e.k2.Binary? {
        assert !EvalRight(w, fuel, room, e.k2.op, r1.v, e.b, After(e.a, s), me, r1.st).Ret?;
      }
    }
  }

  lemma {:induction false} NoReturnNoRetWhile(w: World, fuel: nat, room: nat, e: Expr, s: Scopes, me: Me, st: St)
    requires NoReturn(e) && e.Two? && e.k2.While?
    ensures !EvalWhile(w, fuel, room, e, s, me, st).Ret?
    decreases fuel, 1, e, 2
  {
    NoReturnNoRet(w, fuel, room, e.a, s, me, st);
    var r1 := Eval(w, fuel, room, e.a, s, me, st);
    if r1.Val? {
      NoReturnNoRet(w, fuel, room, e.b, After(e.a, s), me, r1.st);
      var r2 := Eval(w, fuel, room, e.b, After(e.a, s), me, r1.st);
      if r2.Val? && fuel > 0 {
        NoReturnNoRetWhile(w, fuel - 1, room, e, s, me, r2.st);
      }
    }
  }

  lemma {:induction false} NoReturnsNoRetMany(w: World, fuel: nat, room: nat, k: FormN, es: Exprs, s: Scopes, me: Me,
                                              st: St)
    requires NoReturns(es)
    ensures !EvalMany(w, fuel, room, k, es, s, me, st).Ret?
    decreases fuel, 1, es, 1
  {
    match k
    case Block => NoReturnsNoRet(w, fuel, room, es, [[]] + s, me, OpenScope(st, BlockNames(es, s)));
    case VecLit => NoReturnsNoRetSeq(w, fuel, room, es, s, me, st);
    case Call(x) =>
      if room > 0 {
        NoReturnsNoRetArgs(w, fuel, room - 1, es, 1, |st.heap|, s, me, NewArgs(st, Count(es)));
      }
  }

  lemma {:induction false} NoReturnsNoRet(w: World, fuel: nat, room: nat, es: Exprs, s: Scopes, me: Me, st: St)
    requires NoReturns(es)
    ensures !EvalAll(w, fuel, room, es, s, me, st).Ret?
    decreases fuel, 1, es, 0
  {
    if es.Cons? {
      NoReturnNoRet(w, fuel, room, es.head, s, me, st);
      var r1 := Eval(w, fuel, room, es.head, s, me, st);
      if r1.Val? {
        NoReturnsNoRet(w, fuel, room, es.tail, After(es.head, s), me, r1.st);
      }
    }
  }

  lemma {:induction false} NoReturnsNoRetSeq(w: World, fuel: nat, room: nat, es: Exprs, s: Scopes, me: Me, st: St)
    requires NoReturns(es)
    ensures !EvalPushed(w, fuel, room, es, s, me, st).RetSeq?
    decreases fuel, 1, es, 0
  {
    if es.Cons? {
      NoReturnNoRet(w, fuel, room, es.head, s, me, st);
      var r1 := Eval(w, fuel, room, es.head, s, me, st);
      if r1.Val? && room > 0 {
        NoReturnsNoRetSeq(w, fuel, room - 1, es.tail, After(es.head, s), me, r1.st);
      }
    }
  }

  lemma {:induction false} NoReturnsNoRetArgs(w: World, fuel: nat, room: nat, es: Exprs, k: nat, argv: nat,
                                              s: Scopes, me: Me, st: St)
    requires NoReturns(es)
    ensures !EvalArgs(w, fuel, room, es, k, argv, s, me, st).Ret?
    decreases fuel, 1, es, 0
  {
    if es.Cons? {
      NoReturnNoRet(w, fuel, room, es.head, s, me, st);
      var r1 := Eval(w, fuel, room, es.head, s, me, st);
      if r1.Val? {
        var r2 := StoreArg(r1.st, argv, k, r1.v);
        if r2.Some? {
          NoReturnsNoRetArgs(w, fuel, room, es.tail, k + 1, argv, After(es.head, s), me, r2.value);
        }
      }
    }
  }
}
