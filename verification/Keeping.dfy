// Direct evaluation leaves the vectors that are there as they are: argument
// vectors are filled and entered by the call that has made them.
module Keeping {
  import opened Values
  import opened Machine
  import opened Syntax
  import opened Scoping
  import opened Semantics

  // Every vector of `h`, the one at `but` aside, is in `k`.
  predicate Kept(h: SHeap, k: SHeap, but: int) {
    |h| <= |k| && forall a {:trigger k[a]} | 0 <= a < |h| && a != but && h[a].SVec? :: k[a] == h[a]
  }

  predicate KeptBy(h: SHeap, r: Res, but: int) {
    r.Stuck? || Kept(h, r.st.heap, but)
  }

  predicate KeptBySeq(h: SHeap, r: ResSeq) {
    r.StuckSeq? || Kept(h, r.st.heap, -1)
  }

  // A part and then the rest from there.
  lemma KeptOn(h: SHeap, k: SHeap, but: int, r: Res)
    requires Kept(h, k, but) && KeptBy(k, r, but)
    ensures KeptBy(h, r, but)
  {
  }

  lemma {:induction false} EvalKeeps(w: World, fuel: nat, room: nat, e: Expr, s: Scopes, me: Me, st: St)
    ensures KeptBy(st.heap, Eval(w, fuel, room, e, s, me, st), -1)
    decreases fuel, 1, e, 4
  {
    match e
    case Lit(_) =>
    case This =>
    case Var(_) =>
    case One(_, _) => OneKeeps(w, fuel, room, e, s, me, st);
    case Two(_, _, _) => TwoKeeps(w, fuel, room, e, s, me, st);
    case Three(_, _, _, _) => ThreeKeeps(w, fuel, room, e, s, me, st);
    case Many(k, es) => ManyKeeps(w, fuel, room, k, es, s, me, st);
    case Headed(_, _, _) => HeadedKeeps(w, fuel, room, e, s, me, st);
    case Fun(_, _) =>
  }

  lemma {:induction false} OneKeeps(w: World, fuel: nat, room: nat, e: Expr, s: Scopes, me: Me, st: St)
    requires e.One?
    ensures KeptBy(st.heap, EvalOne(w, fuel, room, e, s, me, st), -1)
    decreases fuel, 1, e, 3
  {
    EvalKeeps(w, fuel, room, e.a, Before1(e.k1, s), me, st);
    var r := Eval(w, fuel, room, e.a, Before1(e.k1, s), me, st);
    if r.Val? {
      KeptOn(st.heap, r.st.heap, -1, Finish1(w, e.k1, s, After(e, s), r.v, me, r.st));
    }
  }

  lemma {:induction false} TwoKeeps(w: World, fuel: nat, room: nat, e: Expr, s: Scopes, me: Me, st: St)
    requires e.Two?
    ensures KeptBy(st.heap, EvalTwo(w, fuel, room, e, s, me, st), -1)
    decreases fuel, 1, e, 3
  {
    match e.k2
    case Binary(_) => BinaryKeeps(w, fuel, room, e, s, me, st);
    case And => ShortKeeps(w, fuel, room, e, s, me, st);
    case Or => ShortKeeps(w, fuel, room, e, s, me, st);
    case While => WhileKeeps(w, fuel, room, e, s, me, st);
    case _ =>
  }

  lemma {:induction false} BinaryKeeps(w: World, fuel: nat, room: nat, e: Expr, s: Scopes, me: Me, st: St)
    requires e.Two? && e.k2.Binary?
    ensures KeptBy(st.heap, EvalBinary(w, fuel, room, e, s, me, st), -1)
    decreases fuel, 1, e, 2
  {
    EvalKeeps(w, fuel, room, e.a, s, me, st);
    var r := Eval(w, fuel, room, e.a, s, me, st);
    if r.Val? {
      RightKeeps(w, fuel, room, e.k2.op, r.v, e.b, After(e.a, s), me, r.st);
      KeptOn(st.heap, r.st.heap, -1, EvalRight(w, fuel, room, e.k2.op, r.v, e.b, After(e.a, s), me, r.st));
    }
  }

  lemma {:induction false} RightKeeps(w: World, fuel: nat, room: nat, op: BinaryOp, x: Value, e: Expr, s: Scopes,
                                     me: Me, st: St)
    ensures KeptBy(st.heap, EvalRight(w, fuel, room, op, x, e, s, me, st), -1)
    decreases fuel, 1, e, 5
  {
    if room > 0 {
      EvalKeeps(w, fuel, room - 1, e, s, me, st);
      var r := Eval(w, fuel, room - 1, e, s, me, st);
      if r.Val? {
        KeptOn(st.heap, r.st.heap, -1, Operate(w, r.st, op, x, r.v));
      }
    }
  }

  lemma {:induction false} ShortKeeps(w: World, fuel: nat, room: nat, e: Expr, s: Scopes, me: Me, st: St)
    requires e.Two? && (e.k2.And? || e.k2.Or?)
    ensures KeptBy(st.heap, EvalShort(w, fuel, room, e, s, me, st), -1)
    decreases fuel, 1, e, 2
  {
    EvalKeeps(w, fuel, room, e.a, s, me, st);
    var r := Eval(w, fuel, room, e.a, s, me, st);
    if r.Val? {
      EvalKeeps(w, fuel, room, e.b, After(e.a, s), me, r.st);
      KeptOn(st.heap, r.st.heap, -1, Eval(w, fuel, room, e.b, After(e.a, s), me, r.st));
    }
  }

  lemma {:induction false} WhileKeeps(w: World, fuel: nat, room: nat, e: Expr, s: Scopes, me: Me, st: St)
    requires e.Two? && e.k2.While?
    ensures KeptBy(st.heap, EvalWhile(w, fuel, room, e, s, me, st), -1)
    decreases fuel, 1, e, 2
  {
    EvalKeeps(w, fuel, room, e.a, s, me, st);
    var r := Eval(w, fuel, room, e.a, s, me, st);
    if r.Val? && r.v != FALSE {
      EvalKeeps(w, fuel, room, e.b, After(e.a, s), me, r.st);
      var q := Eval(w, fuel, room, e.b, After(e.a, s), me, r.st);
      KeptOn(st.heap, r.st.heap, -1, q);
      if q.Val? && fuel > 0 {
        WhileKeeps(w, fuel - 1, room, e, s, me, q.st);
        KeptOn(st.heap, q.st.heap, -1, EvalWhile(w, fuel - 1, room, e, s, me, q.st));
      }
    }
  }

  lemma {:induction false} ThreeKeeps(w: World, fuel: nat, room: nat, e: Expr, s: Scopes, me: Me, st: St)
    requires e.Three?
    ensures KeptBy(st.heap, EvalThree(w, fuel, room, e, s, me, st), -1)
    decreases fuel, 1, e, 3
  {
    EvalKeeps(w, fuel, room, e.a, s, me, st);
    var r := Eval(w, fuel, room, e.a, s, me, st);
    if r.Val? {
      EvalKeeps(w, fuel, room, e.b, After(e.a, s), me, r.st);
      EvalKeeps(w, fuel, room, e.c, After(e.b, After(e.a, s)), me, r.st);
      KeptOn(st.heap, r.st.heap, -1, EvalBranch(w, fuel, room, r.v, e, s, me, r.st));
    }
  }

  lemma {:induction false} HeadedKeeps(w: World, fuel: nat, room: nat, e: Expr, s: Scopes, me: Me, st: St)
    requires e.Headed?
    ensures KeptBy(st.heap, EvalHeaded(w, fuel, room, e, s, me, st), -1)
    decreases fuel, 1, e, 3
  {
    EvalKeeps(w, fuel, room, e.a, s, me, st);
    var r := Eval(w, fuel, room, e.a, s, me, st);
    if r.Val? {
      AppliedKeeps(w, fuel, room, r.v, e.es, After(e.a, s), me, r.st);
      KeptOn(st.heap, r.st.heap, -1, EvalApplied(w, fuel, room, r.v, e.es, After(e.a, s), me, r.st));
    }
  }

  // The vector a call makes is new, whatever becomes of it.
  lemma NewKept(h: SHeap, c: SCell, r: Res)
    requires KeptBy(h + [c], r, |h|)
    ensures KeptBy(h, r, -1)
  {
    if !r.Stuck? {
      forall a | 0 <= a < |h| && h[a].SVec?
        ensures r.st.heap[a] == h[a]
      {
        assert (h + [c])[a] == h[a];
      }
    }
  }

  lemma {:induction false} AppliedKeeps(w: World, fuel: nat, room: nat, g: Value, es: Exprs, s: Scopes, me: Me, st: St)
    ensures KeptBy(st.heap, EvalApplied(w, fuel, room, g, es, s, me, st), -1)
    decreases fuel, 1, es, 3
  {
    if room >= 2 {
      var argv, st0 := |st.heap|, NewArgs(st, Count(es));
      ArgsKeep(w, fuel, room - 2, es, 1, argv, s, me, st0);
      var r := EvalArgs(w, fuel, room - 2, es, 1, argv, s, me, st0);
      if r.Val? {
        InvokeKeeps(w, fuel, room, g, argv, me, r.st);
        KeptOn(st0.heap, r.st.heap, argv, Invoke(w, fuel, room, g, argv, me, r.st));
      }
      NewKept(st.heap, SVec(Nulls(Count(es) + 1)), EvalApplied(w, fuel, room, g, es, s, me, st));
    }
  }

  lemma {:induction false} ManyKeeps(w: World, fuel: nat, room: nat, k: FormN, es: Exprs, s: Scopes, me: Me, st: St)
    ensures KeptBy(st.heap, EvalMany(w, fuel, room, k, es, s, me, st), -1)
    decreases fuel, 1, es, 4
  {
    match k
    case Block => BlockKeeps(w, fuel, room, es, s, me, st);
    case VecLit => VectorKeeps(w, fuel, room, es, s, me, st);
    case Call(x) => CallKeeps(w, fuel, room, x, es, s, me, st);
  }

  lemma {:induction false} BlockKeeps(w: World, fuel: nat, room: nat, es: Exprs, s: Scopes, me: Me, st: St)
    ensures KeptBy(st.heap, EvalBlock(w, fuel, room, es, s, me, st), -1)
    decreases fuel, 1, es, 3
  {
    var st1 := OpenScope(st, BlockNames(es, s));
    AllKeep(w, fuel, room, es, [[]] + s, me, st1);
    KeptOn(st.heap, st1.heap, -1, EvalAll(w, fuel, room, es, [[]] + s, me, st1));
  }

  lemma {:induction false} VectorKeeps(w: World, fuel: nat, room: nat, es: Exprs, s: Scopes, me: Me, st: St)
    ensures KeptBy(st.heap, EvalVector(w, fuel, room, es, s, me, st), -1)
    decreases fuel, 1, es, 3
  {
    PushedKeep(w, fuel, room, es, s, me, st);
  }

  lemma {:induction false} CallKeeps(w: World, fuel: nat, room: nat, x: Sym, es: Exprs, s: Scopes, me: Me, st: St)
    ensures KeptBy(st.heap, EvalCall(w, fuel, room, x, es, s, me, st), -1)
    decreases fuel, 1, es, 3
  {
    if room > 0 {
      var argv, st0 := |st.heap|, NewArgs(st, Count(es));
      ArgsKeep(w, fuel, room - 1, es, 1, argv, s, me, st0);
      var r := EvalArgs(w, fuel, room - 1, es, 1, argv, s, me, st0);
      if r.Val? {
        NamedKeeps(w, fuel, room, x, argv, AfterAll(es, s), me, r.st);
        KeptOn(st0.heap, r.st.heap, argv, EvalNamed(w, fuel, room, x, argv, AfterAll(es, s), me, r.st));
      }
      NewKept(st.heap, SVec(Nulls(Count(es) + 1)), EvalCall(w, fuel, room, x, es, s, me, st));
    }
  }

  lemma {:induction false} NamedKeeps(w: World, fuel: nat, room: nat, x: Sym, argv: nat, s: Scopes, me: Me, st: St)
    ensures KeptBy(st.heap, EvalNamed(w, fuel, room, x, argv, s, me, st), argv)
    decreases fuel, 0, 2
  {
    if ReadVar(st, s, x).Some? {
      InvokeKeeps(w, fuel, room, ReadVar(st, s, x).value, argv, me, st);
    }
  }

  // Entering a function takes its argument vector.
  lemma {:induction false} InvokeKeeps(w: World, fuel: nat, room: nat, f: Value, argv: nat, me: Me, st: St)
    ensures KeptBy(st.heap, Invoke(w, fuel, room, f, argv, me, st), argv)
    decreases fuel, 0, 1
  {
    if !Invoke(w, fuel, room, f, argv, me, st).Stuck? {
      var fn := st.heap[f.a];
      var scope := SScope(fn.env, fn.params, BindParams(fn.params, st.heap[argv].elems[1..]));
      var st1 := St(st.heap[argv := scope], st.globals, Ref(argv));
      var me1 := Me(fn.self, if (fn.flags / SETUID) % 2 == 1 then fn.owner else me.effuid);
      EvalKeeps(w, fuel - 1, room, fn.body, [fn.params] + fn.scopes, me1, st1);
      KeptOn(st.heap, st1.heap, argv, Eval(w, fuel - 1, room, fn.body, [fn.params] + fn.scopes, me1, st1));
    }
  }

  lemma {:induction false} AllKeep(w: World, fuel: nat, room: nat, es: Exprs, s: Scopes, me: Me, st: St)
    ensures KeptBy(st.heap, EvalAll(w, fuel, room, es, s, me, st), -1)
    decreases fuel, 1, es, 2
  {
    if es.Cons? {
      EvalKeeps(w, fuel, room, es.head, s, me, st);
      var r := Eval(w, fuel, room, es.head, s, me, st);
      if r.Val? {
        AllKeep(w, fuel, room, es.tail, After(es.head, s), me, r.st);
        KeptOn(st.heap, r.st.heap, -1, EvalAll(w, fuel, room, es.tail, After(es.head, s), me, r.st));
      }
    }
  }

  lemma {:induction false} PushedKeep(w: World, fuel: nat, room: nat, es: Exprs, s: Scopes, me: Me, st: St)
    ensures KeptBySeq(st.heap, EvalPushed(w, fuel, room, es, s, me, st))
    decreases fuel, 1, es, 2
  {
    if es.Cons? {
      EvalKeeps(w, fuel, room, es.head, s, me, st);
      var r := Eval(w, fuel, room, es.head, s, me, st);
      if r.Val? && room > 0 {
        PushedKeep(w, fuel, room - 1, es.tail, After(es.head, s), me, r.st);
      }
    }
  }

  // Storing arguments changes their vector only.
  lemma {:induction false} ArgsKeep(w: World, fuel: nat, room: nat, es: Exprs, k: nat, argv: nat, s: Scopes, me: Me,
                                   st: St)
    ensures KeptBy(st.heap, EvalArgs(w, fuel, room, es, k, argv, s, me, st), argv)
    decreases fuel, 1, es, 2
  {
    if es.Cons? {
      EvalKeeps(w, fuel, room, es.head, s, me, st);
      var r := Eval(w, fuel, room, es.head, s, me, st);
      if r.Val? {
        var t := StoreArg(r.st, argv, k, r.v);
        if t.Some? {
          ArgsKeep(w, fuel, room, es.tail, k + 1, argv, After(es.head, s), me, t.value);
          KeptOn(st.heap, t.value.heap, argv,
                 EvalArgs(w, fuel, room, es.tail, k + 1, argv, After(es.head, s), me, t.value));
        }
      }
    }
  }
}
