// What the one-pass compiler appends to its code buffer and literal pool for
// each expression.
module Emission {
  import opened Bytes
  import opened Values
  import opened Machine
  import opened Syntax
  import opened Scoping

  // Code appended, and the literal pool afterwards.
  datatype Emitted = Emitted(code: seq<byte>, lits: seq<Value>)

  // The operand byte that survives the cast to char.
  function B(n: int): byte {
    n % 256
  }

  function GetLit(lits: seq<Value>, v: Value): (r: (nat, seq<Value>))
    ensures lits <= r.1 && r.0 < |r.1| && r.1[r.0] == v
  {
    match Find(lits, v)
    case Some(i) => (i, lits)
    case None => (|lits|, lits + [v])
  }

  // An instruction whose operand is a literal index.
  function LitOp(op: byte, v: Value, lits: seq<Value>): (r: Emitted)
    ensures lits <= r.lits && |r.code| == 2
  {
    var (i, lits') := GetLit(lits, v);
    Emitted([op, B(i)], lits')
  }

  // Read or write a variable: a local if the name is in scope.
  function Access(local: byte, global: byte, x: Sym, s: Scopes, lits: seq<Value>): (r: Emitted)
    ensures lits <= r.lits && r.code != []
  {
    match Lookup(s, x)
    case Some(p) => Emitted([local, B(p.frame), B(p.offset)], lits)
    case None => LitOp(global, SymVal(x), lits)
  }

  function VarRef(x: Sym, s: Scopes, lits: seq<Value>): (r: Emitted)
    ensures lits <= r.lits && r.code != []
  {
    Access(OP_A_LOCL, OP_A_GLOB, x, s, lits)
  }

  // Apply a global to the argument vector on the stack.
  function CallGlobal(x: Sym, lits: seq<Value>): (r: Emitted)
    ensures lits <= r.lits && |r.code| == 3
  {
    var g := LitOp(OP_A_GLOB, SymVal(x), lits);
    Emitted(g.code + [OP_APPLY], g.lits)
  }

  function PrepareCall(argc: nat): (r: seq<byte>)
    ensures |r| == 3
  {
    [OP_VECTOR, B(argc + 1), OP_PUSH]
  }

  // Move the value in the accumulator to index 1 of a new argument vector.
  function PrepareWithFirst(argc: nat): (r: seq<byte>)
    ensures |r| == 6
  {
    [OP_PUSH, OP_VECTOR, B(argc + 1), OP_SWAP, OP_ATPUT, 1]
  }

  function AtPut(k: nat): (r: seq<byte>)
    ensures |r| == 2
  {
    [OP_ATPUT, B(k)]
  }

  const FETCH_CALLEE: seq<byte> := [OP_POP, OP_SWAP]

  function JumpOp(op: byte, disp: int): (r: seq<byte>)
    ensures |r| == 3
  {
    [op] + Be16(disp)
  }

  // Load a template, which is never in the pool already, and close it over
  // the current environment.
  function CloseOver(m: Method, lits: seq<Value>): (r: Emitted)
    ensures lits <= r.lits && |r.code| == 3
  {
    Emitted([OP_A_LITL, B(|lits|), OP_CLOSURE], lits + [MethodVal(m)])
  }

  // ---- What stands around the subexpressions ----

  function Pre1(k: Form1, s: Scopes): seq<byte> {
    if k.Define? && s == [] then PrepareCall(2) else []
  }

  // `s` is the scope list before, `t` after the subexpression.
  function Post1(k: Form1, s: Scopes, t: Scopes, lits: seq<Value>): (r: Emitted)
    ensures lits <= r.lits && r.code != []
  {
    match k
    case Assign(x) => Access(OP_LOCL_A, OP_GLOB_A, x, t, lits)
    case Unary(op) => Emitted([op], lits)
    case MethodRef(x) => LitOp(OP_METHOD_CLOSURE, SymVal(x), lits)
    case SlotGet(x) => LitOp(OP_A_SLOT, SymVal(x), lits)
    case Return => Emitted([OP_RET], lits)
    case Define(x) =>
      if s == [] then
        var n := LitOp(OP_A_LITL, SymVal(x), lits);
        var g := CallGlobal("define-global", n.lits);
        Emitted(AtPut(2) + n.code + AtPut(1) + g.code, g.lits)
      else Emitted([OP_LOCL_A, B(0), B(Find(Declare(s, x)[0], x).value)], lits)
  }

  // Slot and element forms.
  predicate IsAccess(k: Form2) {
    k.SlotSet? || k.Index? || k.DefSlot?
  }

  function Pre2(k: Form2): seq<byte> {
    if k.DefSlot? then PrepareCall(3) else []
  }

  function Mid2(k: Form2, lits: seq<Value>): (r: Emitted)
    requires IsAccess(k)
    ensures lits <= r.lits
  {
    match k
    case SlotSet(_) => Emitted([OP_PUSH], lits)
    case Index => Emitted(PrepareWithFirst(2), lits)
    case DefSlot(x) =>
      var l := LitOp(OP_A_LITL, SymVal(x), lits);
      Emitted(AtPut(1) + l.code + AtPut(2), l.lits)
  }

  function Post2(k: Form2, lits: seq<Value>): (r: Emitted)
    requires IsAccess(k)
    ensures lits <= r.lits
  {
    match k
    case SlotSet(x) => LitOp(OP_SLOT_A, SymVal(x), lits)
    case Index =>
      var g := CallGlobal("element-ref", lits);
      Emitted(AtPut(2) + g.code, g.lits)
    case DefSlot(_) =>
      var g := CallGlobal("add-slot", lits);
      Emitted(AtPut(3) + g.code, g.lits)
  }

  // The jump of `&&` and `||` over the jump past the second part.
  function ShortOp(k: Form2): byte {
    if k.And? then OP_JUMP_TRUE else OP_JUMP_FALSE
  }

  function First3(k: Form3, n: nat): seq<byte> {
    if k.If? then JumpOp(OP_JUMP_FALSE, n + 3) else PrepareWithFirst(3)
  }

  function Second3(k: Form3, n: nat): seq<byte> {
    if k.If? then JumpOp(OP_JUMP, n) else AtPut(2)
  }

  function Post3(k: Form3, lits: seq<Value>): (r: Emitted)
    ensures lits <= r.lits
  {
    if k.If? then Emitted([], lits)
    else
      var g := CallGlobal("element-set", lits);
      Emitted(AtPut(3) + g.code, g.lits)
  }

  function PostH(k: FormH, lits: seq<Value>): (r: Emitted)
    ensures lits <= r.lits
  {
    match k
    case Apply => Emitted(FETCH_CALLEE + [OP_APPLY], lits)
    case Send(x, asSelf) =>
      var l := LitOp(if asSelf then OP_CALL_AS else OP_CALL, SymVal(x), lits);
      Emitted(FETCH_CALLEE + l.code, l.lits)
  }

  function Params(k: FormF): seq<Sym> {
    match k
    case Lambda(params) => params
    case BindCC(x) => [x]
    case DefMethod(_, _, params) => params
  }

  // ---- Emission ----

  function Emit(e: Expr, s: Scopes, lits: seq<Value>): (r: Emitted)
    ensures lits <= r.lits && r.code != []
    decreases e, 4
  {
    EmitForm(e, s, lits)
  }

  function EmitForm(e: Expr, s: Scopes, lits: seq<Value>): (r: Emitted)
    ensures lits <= r.lits && r.code != []
    decreases e, 3
  {
    match e
    case Lit(v) => LitOp(OP_A_LITL, v, lits)
    case This => Emitted([OP_A_SELF], lits)
    case Var(x) => VarRef(x, s, lits)
    case One(_, _) => EmitOne(e, s, lits)
    case Two(_, _, _) => EmitTwo(e, s, lits)
    case Three(_, _, _, _) => EmitThree(e, s, lits)
    case Many(k, es) => EmitMany(k, es, s, lits)
    case Headed(_, _, _) => EmitHeaded(e, s, lits)
    case Fun(_, _) => EmitFun(e, s, lits)
  }

  function EmitOne(e: Expr, s: Scopes, lits: seq<Value>): (r: Emitted)
    requires e.One?
    ensures lits <= r.lits && r.code != []
    decreases e, 2
  {
    var r1 := Emit(e.a, Before1(e.k1, s), lits);
    var p := Post1(e.k1, s, After(e, s), r1.lits);
    Emitted(Pre1(e.k1, s) + r1.code + p.code, p.lits)
  }

  function EmitTwo(e: Expr, s: Scopes, lits: seq<Value>): (r: Emitted)
    requires e.Two?
    ensures lits <= r.lits && r.code != []
    decreases e, 2
  {
    match e.k2
    case Binary(op) => EmitBinary(e, s, lits)
    case And => EmitShort(e, s, lits)
    case Or => EmitShort(e, s, lits)
    case While => EmitWhile(e, s, lits)
    case _ => EmitAccess(e, s, lits)
  }

  function EmitBinary(e: Expr, s: Scopes, lits: seq<Value>): (r: Emitted)
    requires e.Two? && e.k2.Binary?
    ensures lits <= r.lits && r.code != []
    decreases e, 1
  {
    var r1 := Emit(e.a, s, lits);
    var r2 := Emit(e.b, After(e.a, s), r1.lits);
    Emitted(r1.code + [OP_PUSH] + r2.code + [e.k2.op], r2.lits)
  }

  function EmitShort(e: Expr, s: Scopes, lits: seq<Value>): (r: Emitted)
    requires e.Two? && (e.k2.And? || e.k2.Or?)
    ensures lits <= r.lits && r.code != []
    decreases e, 1
  {
    var r1 := Emit(e.a, s, lits);
    var r2 := Emit(e.b, After(e.a, s), r1.lits);
    Emitted(r1.code + JumpOp(ShortOp(e.k2), 3) + JumpOp(OP_JUMP, |r2.code|) + r2.code, r2.lits)
  }

  function EmitWhile(e: Expr, s: Scopes, lits: seq<Value>): (r: Emitted)
    requires e.Two? && e.k2.While?
    ensures lits <= r.lits && r.code != []
    decreases e, 1
  {
    var r1 := Emit(e.a, s, lits);
    var r2 := Emit(e.b, After(e.a, s), r1.lits);
    Emitted(r1.code + JumpOp(OP_JUMP_FALSE, |r2.code| + 3) + r2.code +
            JumpOp(OP_JUMP, -(|r1.code| + |r2.code| + 6)), r2.lits)
  }

  function EmitAccess(e: Expr, s: Scopes, lits: seq<Value>): (r: Emitted)
    requires e.Two? && IsAccess(e.k2)
    ensures lits <= r.lits && r.code != []
    decreases e, 1
  {
    var r1 := Emit(e.a, s, lits);
    var m := Mid2(e.k2, r1.lits);
    var r2 := Emit(e.b, After(e.a, s), m.lits);
    var p := Post2(e.k2, r2.lits);
    Emitted(Pre2(e.k2) + r1.code + m.code + r2.code + p.code, p.lits)
  }

  function EmitThree(e: Expr, s: Scopes, lits: seq<Value>): (r: Emitted)
    requires e.Three?
    ensures lits <= r.lits && r.code != []
    decreases e, 2
  {
    var r1 := Emit(e.a, s, lits);
    var r2 := Emit(e.b, After(e.a, s), r1.lits);
    var r3 := Emit(e.c, After(e.b, After(e.a, s)), r2.lits);
    var p := Post3(e.k3, r3.lits);
    Emitted(r1.code + First3(e.k3, |r2.code|) + r2.code + Second3(e.k3, |r3.code|) + r3.code + p.code, p.lits)
  }

  function EmitHeaded(e: Expr, s: Scopes, lits: seq<Value>): (r: Emitted)
    requires e.Headed?
    ensures lits <= r.lits && r.code != []
    decreases e, 2
  {
    var r1 := Emit(e.a, s, lits);
    var r2 := EmitArgs(e.es, 1, After(e.a, s), r1.lits);
    var p := PostH(e.kh, r2.lits);
    Emitted(r1.code + [OP_PUSH] + PrepareCall(Count(e.es)) + r2.code + p.code, p.lits)
  }

  function EmitMany(k: FormN, es: Exprs, s: Scopes, lits: seq<Value>): (r: Emitted)
    ensures lits <= r.lits && r.code != []
    decreases es, 1
  {
    match k
    case Block =>
      if es.Nil? then LitOp(OP_A_LITL, UNDEFINED, lits)
      else
        var r1 := EmitAll(es, [[]] + s, lits);
        Emitted([OP_ENTER_SCOPE, B(|BlockNames(es, s)|)] + r1.code + [OP_LEAVE_SCOPE], r1.lits)
    case VecLit =>
      if es.Nil? then LitOp(OP_A_LITL, Ref(ZERO_VECTOR), lits)
      else
        var r1 := EmitPushed(es, s, lits);
        Emitted(r1.code + [OP_MAKE_VECTOR, B(Count(es))], r1.lits)
    case Call(x) =>
      var r1 := EmitArgs(es, 1, s, lits);
      var r2 := VarRef(x, AfterAll(es, s), r1.lits);
      Emitted(PrepareCall(Count(es)) + r1.code + r2.code + [OP_APPLY], r2.lits)
  }

  function EmitFun(e: Expr, s: Scopes, lits: seq<Value>): (r: Emitted)
    requires e.Fun?
    ensures lits <= r.lits && r.code != []
    decreases e, 2
  {
    var b := e.b;
    match e.kf
    case Lambda(params) => CloseOver(EmitTemplate(params, b, s), lits)
    case BindCC(x) =>
      var r1 := CloseOver(EmitTemplate([x], b, s), lits);
      var r2 := CallGlobal("call/cc", r1.lits);
      Emitted(PrepareCall(1) + r1.code + AtPut(1) + r2.code, r2.lits)
    case DefMethod(a, x, params) =>
      var r1 := Emit(a, s, lits);
      var r2 := LitOp(OP_A_LITL, SymVal(x), r1.lits);
      var r3 := CloseOver(EmitTemplate(params, b, After(a, s)), r2.lits);
      var r4 := CallGlobal("add-method", r3.lits);
      Emitted(PrepareCall(3) + r1.code + AtPut(1) + r2.code + AtPut(2) + r3.code + AtPut(3) + r4.code, r4.lits)
  }

  // The template of a function body: its own buffer and literal pool.
  function EmitTemplate(params: seq<Sym>, b: Expr, s: Scopes): Method
    decreases b, 5
  {
    var r := Emit(b, [params] + s, []);
    Template(|params|, r.code + [OP_RET], r.lits)
  }

  // A sequence of expressions, as inside braces.
  function EmitAll(es: Exprs, s: Scopes, lits: seq<Value>): (r: Emitted)
    ensures lits <= r.lits
    decreases es, 0
  {
    match es
    case Nil => Emitted([], lits)
    case Cons(e, tl) =>
      var r1 := Emit(e, s, lits);
      var r2 := EmitAll(tl, After(e, s), r1.lits);
      Emitted(r1.code + r2.code, r2.lits)
  }

  // Elements of a literal vector, each pushed.
  function EmitPushed(es: Exprs, s: Scopes, lits: seq<Value>): (r: Emitted)
    ensures lits <= r.lits
    decreases es, 0
  {
    match es
    case Nil => Emitted([], lits)
    case Cons(e, tl) =>
      var r1 := Emit(e, s, lits);
      var r2 := EmitPushed(tl, After(e, s), r1.lits);
      Emitted(r1.code + [OP_PUSH] + r2.code, r2.lits)
  }

  // Arguments, stored from index `k` of the vector on the stack.
  function EmitArgs(es: Exprs, k: nat, s: Scopes, lits: seq<Value>): (r: Emitted)
    ensures lits <= r.lits
    decreases es, 0
  {
    match es
    case Nil => Emitted([], lits)
    case Cons(e, tl) =>
      var r1 := Emit(e, s, lits);
      var r2 := EmitArgs(tl, k + 1, After(e, s), r1.lits);
      Emitted(r1.code + AtPut(k) + r2.code, r2.lits)
  }
}
