// Everything the compiler produces is a finished block, through all nested
// functions.
module Compiled {
  import opened Bytes
  import opened Values
  import opened Machine
  import opened Syntax
  import opened Scoping
  import opened Emission
  import opened Limits
  import opened Heights
  import opened Discipline
  import opened Blocks
  import opened Safety

  // Literals in source text are never methods.
  predicate PlainLiterals(e: Expr)
    decreases e
  {
    match e
    case Lit(v) => !v.MethodVal?
    case This => true
    case Var(_) => true
    case One(_, a) => PlainLiterals(a)
    case Two(_, a, b) => PlainLiterals(a) && PlainLiterals(b)
    case Three(_, a, b, c) => PlainLiterals(a) && PlainLiterals(b) && PlainLiterals(c)
    case Many(_, es) => AllPlain(es)
    case Headed(_, a, es) => PlainLiterals(a) && AllPlain(es)
    case Fun(k, b) => (k.DefMethod? ==> PlainLiterals(k.a)) && PlainLiterals(b)
  }

  predicate AllPlain(es: Exprs)
    decreases es
  {
    match es
    case Nil => true
    case Cons(e, tl) => PlainLiterals(e) && AllPlain(tl)
  }

  lemma {:induction false} FitsVectors(e: Expr, s: Scopes)
    requires Fits(e, s)
    ensures VectorsFit(e)
    decreases e
  {
    assert FitsForm(e, s);
    match e
    case Lit(_) =>
    case This =>
    case Var(_) =>
    case One(k, a) => FitsVectors(a, Before1(k, s));
    case Two(_, a, b) =>
      FitsVectors(a, s);
      FitsVectors(b, After(a, s));
    case Three(_, a, b, c) =>
      FitsVectors(a, s);
      FitsVectors(b, After(a, s));
      FitsVectors(c, After(b, After(a, s)));
    case Many(k, es) => FitsAllVectors(es, if k.Block? then [[]] + s else s);
    case Headed(_, a, es) =>
      FitsVectors(a, s);
      FitsAllVectors(es, After(a, s));
    case Fun(k, _) => if k.DefMethod? { FitsVectors(k.a, s); }
  }

  lemma {:induction false} FitsAllVectors(es: Exprs, s: Scopes)
    requires FitsAll(es, s)
    ensures AllVectorsFit(es)
    decreases es
  {
    if es.Cons? {
      FitsVectors(es.head, s);
      FitsAllVectors(es.tail, After(es.head, s));
    }
  }

  // A block within the limits is finished: this covers every function body.
  lemma BodyIsGood(params: seq<Sym>, b: Expr, s: Scopes)
    requires BlockFits(params, b, s)
    ensures GoodBlock(EmitTemplate(params, b, s).code)
  {
    FitsVectors(b, [params] + s);
    EmittedLevel(b, [params] + s, [], 0);
    LevelBlock(Emit(b, [params] + s, []).code, NoReturn(b));
  }

  lemma LevelBlock(c: seq<byte>, none: bool)
    requires Level(c, 0, none, true)
    ensures GoodBlock(c + [OP_RET])
  {
    assert (c + [OP_RET])[..|c|] == c;
  }

  lemma LitOpGood(op: byte, v: Value, lits: seq<Value>)
    requires GoodValues(lits) && !v.MethodVal?
    ensures GoodValues(LitOp(op, v, lits).lits)
  {
  }

  lemma AccessGood(local: byte, global: byte, x: Sym, s: Scopes, lits: seq<Value>)
    requires GoodValues(lits)
    ensures GoodValues(Access(local, global, x, s, lits).lits)
  {
    LitOpGood(global, SymVal(x), lits);
  }

  lemma CallGlobalGood(x: Sym, lits: seq<Value>)
    requires GoodValues(lits)
    ensures GoodValues(CallGlobal(x, lits).lits)
  {
    LitOpGood(OP_A_GLOB, SymVal(x), lits);
  }

  // The literal pool holds good values only, whatever was in it before.
  lemma {:induction false} LiteralsGood(e: Expr, s: Scopes, lits: seq<Value>)
    requires Fits(e, s) && PlainLiterals(e) && GoodValues(lits)
    ensures GoodValues(Emit(e, s, lits).lits)
    decreases e, 2
  {
    assert FitsForm(e, s) && Emit(e, s, lits) == EmitForm(e, s, lits);
    match e
    case Lit(v) => LitOpGood(OP_A_LITL, v, lits);
    case This =>
    case Var(x) => AccessGood(OP_A_LOCL, OP_A_GLOB, x, s, lits);
    case One(_, _) => OneGood(e, s, lits);
    case Two(_, _, _) => TwoGood(e, s, lits);
    case Three(_, _, _, _) => ThreeGood(e, s, lits);
    case Many(k, es) => ManyGood(k, es, s, lits);
    case Headed(_, _, _) => HeadedGood(e, s, lits);
    case Fun(_, _) => FunGood(e, s, lits);
  }

  lemma PostGood(k: Form1, s: Scopes, t: Scopes, lits: seq<Value>)
    requires GoodValues(lits)
    ensures GoodValues(Post1(k, s, t, lits).lits)
  {
    match k
    case Assign(x) => AccessGood(OP_LOCL_A, OP_GLOB_A, x, t, lits);
    case MethodRef(x) => LitOpGood(OP_METHOD_CLOSURE, SymVal(x), lits);
    case SlotGet(x) => LitOpGood(OP_A_SLOT, SymVal(x), lits);
    case Define(x) =>
      LitOpGood(OP_A_LITL, SymVal(x), lits);
      CallGlobalGood("define-global", LitOp(OP_A_LITL, SymVal(x), lits).lits);
    case _ =>
  }

  lemma {:induction false} OneGood(e: Expr, s: Scopes, lits: seq<Value>)
    requires e.One? && FitsForm(e, s) && PlainLiterals(e) && GoodValues(lits)
    ensures GoodValues(EmitOne(e, s, lits).lits)
    decreases e, 1
  {
    LiteralsGood(e.a, Before1(e.k1, s), lits);
    PostGood(e.k1, s, After(e, s), Emit(e.a, Before1(e.k1, s), lits).lits);
  }

  lemma {:induction false} ThreeGood(e: Expr, s: Scopes, lits: seq<Value>)
    requires e.Three? && FitsForm(e, s) && PlainLiterals(e) && GoodValues(lits)
    ensures GoodValues(EmitThree(e, s, lits).lits)
    decreases e, 1
  {
    var s1 := After(e.a, s);
    var r1 := Emit(e.a, s, lits);
    var r2 := Emit(e.b, s1, r1.lits);
    LiteralsGood(e.a, s, lits);
    LiteralsGood(e.b, s1, r1.lits);
    LiteralsGood(e.c, After(e.b, s1), r2.lits);
    CallGlobalGood("element-set", Emit(e.c, After(e.b, s1), r2.lits).lits);
  }

  lemma {:induction false} HeadedGood(e: Expr, s: Scopes, lits: seq<Value>)
    requires e.Headed? && FitsForm(e, s) && PlainLiterals(e) && GoodValues(lits)
    ensures GoodValues(EmitHeaded(e, s, lits).lits)
    decreases e, 1
  {
    var s1, l := After(e.a, s), Emit(e.a, s, lits).lits;
    LiteralsGood(e.a, s, lits);
    ArgumentsGood(e.es, 1, s1, l);
    if e.kh.Send? {
      LitOpGood(if e.kh.asSelf then OP_CALL_AS else OP_CALL, SymVal(e.kh.x), EmitArgs(e.es, 1, s1, l).lits);
    }
  }

  lemma {:induction false} TwoGood(e: Expr, s: Scopes, lits: seq<Value>)
    requires e.Two? && FitsForm(e, s) && PlainLiterals(e) && GoodValues(lits)
    ensures GoodValues(EmitTwo(e, s, lits).lits)
    decreases e, 1
  {
    LiteralsGood(e.a, s, lits);
    var l := Emit(e.a, s, lits).lits;
    if IsAccess(e.k2) {
      if e.k2.DefSlot? { LitOpGood(OP_A_LITL, SymVal(e.k2.x), l); }
      var m := Mid2(e.k2, l).lits;
      LiteralsGood(e.b, After(e.a, s), m);
      var p := Emit(e.b, After(e.a, s), m).lits;
      match e.k2 {
        case SlotSet(x) => LitOpGood(OP_SLOT_A, SymVal(x), p);
        case Index => CallGlobalGood("element-ref", p);
        case DefSlot(_) => CallGlobalGood("add-slot", p);
      }
    } else {
      LiteralsGood(e.b, After(e.a, s), l);
    }
  }

  lemma {:induction false} ManyGood(k: FormN, es: Exprs, s: Scopes, lits: seq<Value>)
    requires FitsForm(Many(k, es), s) && AllPlain(es) && GoodValues(lits)
    ensures GoodValues(EmitMany(k, es, s, lits).lits)
    decreases es, 1
  {
    match k
    case Block =>
      if es.Nil? { LitOpGood(OP_A_LITL, UNDEFINED, lits); } else { SequenceGood(es, [[]] + s, lits); }
    case VecLit =>
      if es.Nil? { LitOpGood(OP_A_LITL, Ref(ZERO_VECTOR), lits); } else { PushedGood(es, s, lits); }
    case Call(x) =>
      ArgumentsGood(es, 1, s, lits);
      AccessGood(OP_A_LOCL, OP_A_GLOB, x, AfterAll(es, s), EmitArgs(es, 1, s, lits).lits);
  }

  lemma {:induction false} SequenceGood(es: Exprs, s: Scopes, lits: seq<Value>)
    requires FitsAll(es, s) && AllPlain(es) && GoodValues(lits)
    ensures GoodValues(EmitAll(es, s, lits).lits)
    decreases es, 0
  {
    if es.Cons? {
      LiteralsGood(es.head, s, lits);
      SequenceGood(es.tail, After(es.head, s), Emit(es.head, s, lits).lits);
    }
  }

  lemma {:induction false} PushedGood(es: Exprs, s: Scopes, lits: seq<Value>)
    requires FitsAll(es, s) && AllPlain(es) && GoodValues(lits)
    ensures GoodValues(EmitPushed(es, s, lits).lits)
    decreases es, 0
  {
    if es.Cons? {
      LiteralsGood(es.head, s, lits);
      PushedGood(es.tail, After(es.head, s), Emit(es.head, s, lits).lits);
    }
  }

  lemma {:induction false} ArgumentsGood(es: Exprs, k: nat, s: Scopes, lits: seq<Value>)
    requires FitsAll(es, s) && AllPlain(es) && GoodValues(lits)
    ensures GoodValues(EmitArgs(es, k, s, lits).lits)
    decreases es, 0
  {
    if es.Cons? {
      LiteralsGood(es.head, s, lits);
      ArgumentsGood(es.tail, k + 1, After(es.head, s), Emit(es.head, s, lits).lits);
    }
  }

  lemma {:induction false} FunGood(e: Expr, s: Scopes, lits: seq<Value>)
    requires e.Fun? && FitsForm(e, s) && PlainLiterals(e) && GoodValues(lits)
    ensures GoodValues(EmitFun(e, s, lits).lits)
    decreases e, 1
  {
    var t := After(e, s);
    assert t == AfterForm(e, s);
    TemplateGood(Params(e.kf), e.b, t);
    var m := EmitTemplate(Params(e.kf), e.b, t);
    match e.kf
    case Lambda(_) =>
    case BindCC(_) => CallGlobalGood("call/cc", CloseOver(m, lits).lits);
    case DefMethod(a, x, _) =>
      LiteralsGood(a, s, lits);
      var l := Emit(a, s, lits).lits;
      LitOpGood(OP_A_LITL, SymVal(x), l);
      CallGlobalGood("add-method", CloseOver(m, LitOp(OP_A_LITL, SymVal(x), l).lits).lits);
  }

  // Compiled functions, and all functions inside them, are finished blocks:
  // what safe runs are made of.
  lemma {:induction false} TemplateGood(params: seq<Sym>, b: Expr, s: Scopes)
    requires BlockFits(params, b, s) && PlainLiterals(b)
    ensures GoodMethod(EmitTemplate(params, b, s))
    decreases b, 3
  {
    BodyIsGood(params, b, s);
    LiteralsGood(b, [params] + s, []);
  }
}
