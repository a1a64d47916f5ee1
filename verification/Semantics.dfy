// Direct evaluation of expressions, with variables found by name.
//
// Covered: literals, `this`, variables, assignment, `!`, binary operators,
// `&&`, `||`, `if`, `while`, blocks, local `define`, vectors, functions,
// application and `return`.  Every other form is stuck.
module Semantics {
  import opened Bytes
  import opened Values
  import opened Machine
  import opened Syntax
  import opened Scoping

  // A scope holds values by name; a declared name without a value is Null.
  datatype SCell =
    | SVec(elems: seq<Value>)
    | SBytes(bytes: seq<byte>)
    | SScope(parent: Value, names: seq<Sym>, vals: map<Sym, Value>)
    | SFunction(params: seq<Sym>, body: Expr, scopes: Scopes, env: Value, self: Value, flags: nat, owner: Value)
    | SOther(cell: Cell)

  type SHeap = seq<SCell>

  datatype St = St(heap: SHeap, globals: map<Sym, Value>, env: Value)

  // Who is executing.
  datatype Me = Me(self: Value, effuid: Value)

  // Val: the expression's value.  Ret: a `return` was reached.  Stuck: an
  // error, or not enough fuel or room.
  datatype Res = Val(v: Value, st: St) | Ret(v: Value, st: St) | Stuck
  datatype ResSeq = Vals(vs: seq<Value>, st: St) | RetSeq(v: Value, st: St) | StuckSeq

  function Alloc(st: St, c: SCell): (r: (St, Value)) {
    (st.(heap := st.heap + [c]), Ref(|st.heap|))
  }

  function AllocVec(st: St, elems: seq<Value>): (r: (St, Value)) {
    if elems == [] then (st, Ref(ZERO_VECTOR)) else Alloc(st, SVec(elems))
  }

  // ---- Variables ----

  predicate IsScope(h: SHeap, v: Value) {
    v.Ref? && v.a < |h| && h[v.a].SScope?
  }

  // The scope `i` parents up from `env`.
  function ScopeUp(h: SHeap, env: Value, i: nat): Option<nat>
    decreases i
  {
    if !IsScope(h, env) then None
    else if i == 0 then Some(env.a)
    else ScopeUp(h, h[env.a].parent, i - 1)
  }

  function Lookup1(vals: map<Sym, Value>, x: Sym): Value {
    if x in vals then vals[x] else Null
  }

  function ReadVar(st: St, s: Scopes, x: Sym): Option<Value> {
    match Lookup(s, x)
    case None => Some(Global(st.globals, x))
    case Some(p) =>
      match ScopeUp(st.heap, st.env, p.frame)
      case None => None
      case Some(a) => if a < |st.heap| && st.heap[a].SScope? then Some(Lookup1(st.heap[a].vals, x)) else None
  }

  function WriteLocal(st: St, depth: nat, x: Sym, v: Value): Res {
    match ScopeUp(st.heap, st.env, depth)
    case None => Stuck
    case Some(a) =>
      if a < |st.heap| && st.heap[a].SScope?
      then Val(v, st.(heap := st.heap[a := st.heap[a].(vals := st.heap[a].vals[x := v])]))
      else Stuck
  }

  function WriteVar(w: World, st: St, s: Scopes, x: Sym, v: Value, me: Me): Res {
    match Lookup(s, x)
    case Some(p) => WriteLocal(st, p.frame, x, v)
    case None => if w.privileged(me.effuid) then Val(v, st.(globals := st.globals[x := v])) else Stuck
  }

  // ---- Operators ----

  function Plus(st: St, x: Value, y: Value): Res {
    if x.Num? && y.Num? then Val(Num(Wrap62(x.n + y.n)), st)
    else if !(x.Ref? && x.a < |st.heap| && y.Ref? && y.a < |st.heap|) then Stuck
    else match (st.heap[x.a], st.heap[y.a])
         case (SBytes(a), SBytes(b)) => (var (st1, v) := Alloc(st, SBytes(a + b)); Val(v, st1))
         case (SVec(a), SVec(b)) => (var (st1, v) := AllocVec(st, a + b); Val(v, st1))
         case _ => Stuck
  }

  function Operate(w: World, st: St, op: BinaryOp, x: Value, y: Value): Res {
    if op == OP_EQ then Val(Bool(x == y), st)
    else if op == OP_NE then Val(Bool(x != y), st)
    else if op == OP_PLUS then Plus(st, x, y)
    else if !x.Num? || !y.Num? then Stuck
    else match Arith(op, x.n, y.n)
         case Some(v) => Val(v, st)
         case None => Stuck
  }

  // ---- Arguments ----

  function StoreArg(st: St, argv: nat, k: nat, v: Value): Option<St> {
    if argv < |st.heap| && st.heap[argv].SVec? && k < |st.heap[argv].elems|
    then Some(st.(heap := st.heap[argv := SVec(st.heap[argv].elems[k := v])]))
    else None
  }

  // Parameters take the arguments in order; of two equal names the first wins.
  function BindParams(params: seq<Sym>, args: seq<Value>): map<Sym, Value>
    requires |params| == |args|
  {
    if params == [] then map[]
    else BindParams(params[1..], args[1..])[params[0] := args[0]]
  }

  // ---- Evaluation ----

  // `room` is how many more operands may be pending.
  function Eval(w: World, fuel: nat, room: nat, e: Expr, s: Scopes, me: Me, st: St): Res
    decreases fuel, 1, e, 4
  {
    EvalForm(w, fuel, room, e, s, me, st)
  }

  function EvalForm(w: World, fuel: nat, room: nat, e: Expr, s: Scopes, me: Me, st: St): Res
    decreases fuel, 1, e, 3
  {
    match e
    case Lit(v) => Val(v, st)
    case This => Val(me.self, st)
    case Var(x) => EvalVar(st, s, x)
    case One(_, _) => EvalOne(w, fuel, room, e, s, me, st)
    case Two(_, _, _) => EvalTwo(w, fuel, room, e, s, me, st)
    case Three(_, _, _, _) => EvalThree(w, fuel, room, e, s, me, st)
    case Many(k, es) => EvalMany(w, fuel, room, k, es, s, me, st)
    case Headed(_, _, _) => EvalHeaded(w, fuel, room, e, s, me, st)
    case Fun(k, b) => EvalFun(k, b, s, me, st)
  }

  function EvalVar(st: St, s: Scopes, x: Sym): Res {
    match ReadVar(st, s, x)
    case Some(v) => Val(v, st)
    case None => Stuck
  }

  function EvalFun(k: FormF, b: Expr, s: Scopes, me: Me, st: St): Res {
    if !k.Lambda? then Stuck
    else
      var (st1, v) := Alloc(st, SFunction(k.params, b, s, st.env, me.self, PERMS_MASK, me.effuid));
      Val(v, st1)
  }

  function EvalOne(w: World, fuel: nat, room: nat, e: Expr, s: Scopes, me: Me, st: St): Res
    requires e.One?
    decreases fuel, 1, e, 2
  {
    match Eval(w, fuel, room, e.a, Before1(e.k1, s), me, st)
    case Val(v, st1) => Finish1(w, e.k1, s, After(e, s), v, me, st1)
    case r => r
  }

  function EvalTwo(w: World, fuel: nat, room: nat, e: Expr, s: Scopes, me: Me, st: St): Res
    requires e.Two?
    decreases fuel, 1, e, 2
  {
    match e.k2
    case Binary(op) => EvalBinary(w, fuel, room, e, s, me, st)
    case And => EvalShort(w, fuel, room, e, s, me, st)
    case Or => EvalShort(w, fuel, room, e, s, me, st)
    case While => EvalWhile(w, fuel, room, e, s, me, st)
    case _ => Stuck
  }

  function EvalBinary(w: World, fuel: nat, room: nat, e: Expr, s: Scopes, me: Me, st: St): Res
    requires e.Two? && e.k2.Binary?
    decreases fuel, 1, e, 1
  {
    match Eval(w, fuel, room, e.a, s, me, st)
    case Val(x, st1) => EvalRight(w, fuel, room, e.k2.op, x, e.b, After(e.a, s), me, st1)
    case r => r
  }

  // The left operand is pending while the right one is evaluated.
  function EvalRight(w: World, fuel: nat, room: nat, op: BinaryOp, x: Value, e: Expr, s: Scopes, me: Me, st: St): Res
    decreases fuel, 1, e, 5
  {
    if room == 0 then Stuck
    else match Eval(w, fuel, room - 1, e, s, me, st)
         case Val(y, st1) => Operate(w, st1, op, x, y)
         case r => r
  }

  function EvalShort(w: World, fuel: nat, room: nat, e: Expr, s: Scopes, me: Me, st: St): Res
    requires e.Two? && (e.k2.And? || e.k2.Or?)
    decreases fuel, 1, e, 1
  {
    match Eval(w, fuel, room, e.a, s, me, st)
    case Val(x, st1) =>
      if (x == FALSE) == e.k2.And? then Val(x, st1) else Eval(w, fuel, room, e.b, After(e.a, s), me, st1)
    case r => r
  }

  // The names of the body are resolved once, so every iteration evaluates the
  // condition in the scopes before the loop.
  function EvalWhile(w: World, fuel: nat, room: nat, e: Expr, s: Scopes, me: Me, st: St): Res
    requires e.Two? && e.k2.While?
    decreases fuel, 1, e, 1
  {
    match Eval(w, fuel, room, e.a, s, me, st)
    case Val(x, st1) =>
      if x == FALSE then Val(x, st1)
      else (match Eval(w, fuel, room, e.b, After(e.a, s), me, st1)
            case Val(_, st2) => if fuel == 0 then Stuck else EvalWhile(w, fuel - 1, room, e, s, me, st2)
            case r => r)
    case r => r
  }

  function EvalThree(w: World, fuel: nat, room: nat, e: Expr, s: Scopes, me: Me, st: St): Res
    requires e.Three?
    decreases fuel, 1, e, 2
  {
    if e.k3.IndexSet? then Stuck
    else match Eval(w, fuel, room, e.a, s, me, st)
         case Val(x, st1) => EvalBranch(w, fuel, room, x, e, s, me, st1)
         case r => r
  }

  function EvalBranch(w: World, fuel: nat, room: nat, x: Value, e: Expr, s: Scopes, me: Me, st: St): Res
    requires e.Three?
    decreases fuel, 1, e, 1
  {
    if x != FALSE then Eval(w, fuel, room, e.b, After(e.a, s), me, st)
    else Eval(w, fuel, room, e.c, After(e.b, After(e.a, s)), me, st)
  }

  function EvalHeaded(w: World, fuel: nat, room: nat, e: Expr, s: Scopes, me: Me, st: St): Res
    requires e.Headed?
    decreases fuel, 1, e, 2
  {
    if e.kh.Send? then Stuck
    else match Eval(w, fuel, room, e.a, s, me, st)
         case Val(g, st1) => EvalApplied(w, fuel, room, g, e.es, After(e.a, s), me, st1)
         case r => r
  }

  // Callee and argument vector are both pending while arguments are evaluated.
  function EvalApplied(w: World, fuel: nat, room: nat, g: Value, es: Exprs, s: Scopes, me: Me, st: St): Res
    decreases fuel, 1, es, 1
  {
    if room < 2 then Stuck
    else
      var argv := |st.heap|;
      match EvalArgs(w, fuel, room - 2, es, 1, argv, s, me, NewArgs(st, Count(es)))
      case Val(_, st1) => Invoke(w, fuel, room, g, argv, me, st1)
      case r => r
  }

  // What a one-part form does with its subexpression's value.
  function Finish1(w: World, k: Form1, s: Scopes, t: Scopes, v: Value, me: Me, st: St): Res {
    match k
    case Assign(x) => WriteVar(w, st, t, x, v, me)
    case Unary(op) => if op == OP_NOT then Val(Bool(v == FALSE), st) else Stuck
    case Define(x) => if s == [] then Stuck else WriteLocal(st, 0, x, v)
    case Return => Ret(v, st)
    case _ => Stuck
  }

  function EvalMany(w: World, fuel: nat, room: nat, k: FormN, es: Exprs, s: Scopes, me: Me, st: St): Res
    decreases fuel, 1, es, 2
  {
    match k
    case Block => EvalBlock(w, fuel, room, es, s, me, st)
    case VecLit => EvalVector(w, fuel, room, es, s, me, st)
    case Call(x) => EvalCall(w, fuel, room, x, es, s, me, st)
  }

  function EvalBlock(w: World, fuel: nat, room: nat, es: Exprs, s: Scopes, me: Me, st: St): Res
    decreases fuel, 1, es, 1
  {
    if es.Nil? then Val(UNDEFINED, st)
    else
      match EvalAll(w, fuel, room, es, [[]] + s, me, OpenScope(st, BlockNames(es, s)))
      case Val(v, st1) => Val(v, st1.(env := st.env))
      case r => r
  }

  function EvalVector(w: World, fuel: nat, room: nat, es: Exprs, s: Scopes, me: Me, st: St): Res
    decreases fuel, 1, es, 1
  {
    match EvalPushed(w, fuel, room, es, s, me, st)
    case Vals(vs, st1) => (var (st2, v) := AllocVec(st1, vs); Val(v, st2))
    case RetSeq(v, st1) => Ret(v, st1)
    case StuckSeq => Stuck
  }

  function EvalCall(w: World, fuel: nat, room: nat, x: Sym, es: Exprs, s: Scopes, me: Me, st: St): Res
    decreases fuel, 1, es, 1
  {
    if room == 0 then Stuck
    else
      var argv := |st.heap|;
      match EvalArgs(w, fuel, room - 1, es, 1, argv, s, me, NewArgs(st, Count(es)))
      case Val(_, st1) =>
        EvalNamed(w, fuel, room, x, argv, AfterAll(es, s), me, st1)
      case r => r
  }

  function EvalNamed(w: World, fuel: nat, room: nat, x: Sym, argv: nat, s: Scopes, me: Me, st: St): (r: Res)
    ensures !r.Ret?
    decreases fuel, 0, 1
  {
    match ReadVar(st, s, x)
    case Some(f) => Invoke(w, fuel, room, f, argv, me, st)
    case None => Stuck
  }

  function OpenScope(st: St, names: seq<Sym>): St {
    var (st1, env) := Alloc(st, SScope(st.env, names, map[]));
    st1.(env := env)
  }

  // An argument vector: slot 0 is for the link to the callee's scope.
  function NewArgs(st: St, argc: nat): St {
    Alloc(st, SVec(Nulls(argc + 1))).0
  }

  // The argument vector becomes the scope of the function body.
  function Invoke(w: World, fuel: nat, room: nat, f: Value, argv: nat, me: Me, st: St): (r: Res)
    ensures !r.Ret?
    decreases fuel, 0, 0
  {
    if fuel == 0 || !(f.Ref? && f.a < |st.heap| && st.heap[f.a].SFunction?) then Stuck
    else if !(argv < |st.heap| && st.heap[argv].SVec? && st.heap[argv].elems != []) then Stuck
    else
      var fn := st.heap[f.a];
      var args := st.heap[argv].elems[1..];
      if !w.canRun(fn.flags, fn.owner, me.effuid) || |args| != |fn.params| then Stuck
      else
        var scope := SScope(fn.env, fn.params, BindParams(fn.params, args));
        var st1 := St(st.heap[argv := scope], st.globals, Ref(argv));
        var me1 := Me(fn.self, if (fn.flags / SETUID) % 2 == 1 then fn.owner else me.effuid);
        match Eval(w, fuel - 1, room, fn.body, [fn.params] + fn.scopes, me1, st1)
        case Val(v, st2) => Val(v, st2.(env := st.env))
        case Ret(v, st2) => Val(v, st2.(env := st.env))
        case Stuck => Stuck
  }

  function EvalAll(w: World, fuel: nat, room: nat, es: Exprs, s: Scopes, me: Me, st: St): Res
    decreases fuel, 1, es, 0
  {
    match es
    case Nil => Stuck
    case Cons(e, tl) =>
      (match Eval(w, fuel, room, e, s, me, st)
       case Val(v, st1) => if tl.Nil? then Val(v, st1) else EvalAll(w, fuel, room, tl, After(e, s), me, st1)
       case r => r)
  }

  function EvalPushed(w: World, fuel: nat, room: nat, es: Exprs, s: Scopes, me: Me, st: St): ResSeq
    decreases fuel, 1, es, 0
  {
    match es
    case Nil => Vals([], st)
    case Cons(e, tl) =>
      (match Eval(w, fuel, room, e, s, me, st)
       case Val(v, st1) =>
         if room == 0 then StuckSeq
         else (match EvalPushed(w, fuel, room - 1, tl, After(e, s), me, st1)
               case Vals(vs, st2) => Vals([v] + vs, st2)
               case r => r)
       case Ret(v, st1) => RetSeq(v, st1)
       case Stuck => StuckSeq)
  }

  // The value of Val is of no interest.
  function EvalArgs(w: World, fuel: nat, room: nat, es: Exprs, k: nat, argv: nat, s: Scopes, me: Me, st: St): Res
    decreases fuel, 1, es, 0
  {
    match es
    case Nil => Val(Null, st)
    case Cons(e, tl) =>
      (match Eval(w, fuel, room, e, s, me, st)
       case Val(v, st1) =>
         (match StoreArg(st1, argv, k, v)
          case Some(st2) => EvalArgs(w, fuel, room, tl, k + 1, argv, After(e, s), me, st2)
          case None => Stuck)
       case r => r)
  }
}
