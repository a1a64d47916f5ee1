// Compiler correctness: running the emitted bytes does what direct
// evaluation says.
module Correctness {
  import opened Bytes
  import opened Values
  import opened Machine
  import opened Syntax
  import opened Scoping
  import opened Emission
  import opened Limits
  import opened Semantics
  import opened Agreement
  import opened Execution
  import opened Returns

  // ---- What is to be shown of every run ----

  // `len` bytes further with `v` in the accumulator, stack and environment
  // and every other register as they were.
  predicate Arrives(vm: Vm, vm2: Vm, v: Value, len: nat) {
    vm2 == vm.(acc := v, ip := vm.ip + len, heap := vm2.heap, globals := vm2.globals)
  }

  // About to return `v`, nothing pending on the stack.
  predicate Returning(vm: Vm, vm2: Vm, v: Value) {
    && vm2 == vm.(acc := v, ip := vm2.ip, env := vm2.env, heap := vm2.heap, globals := vm2.globals)
    && At(vm2.code, vm2.ip, [OP_RET])
  }

  predicate Matches(r: Res, me: Me, st: St, vm: Vm, vm2: Vm, len: nat) {
    match r
    case Val(v, st2) => Arrives(vm, vm2, v, len) && Agree(me, st2, vm2) && Ext(st.heap, st2.heap)
    case Ret(v, st2) =>
      Returning(vm, vm2, v) && HeapAgrees(st2.heap, vm2.heap) && st2.globals == vm2.globals && Ext(st.heap, st2.heap)
    case Stuck => true
  }

  function Room(vm: Vm): nat
    requires |vm.stack| <= STACK_LENGTH
  {
    STACK_LENGTH - |vm.stack|
  }

  // Code `em` stands `off` bytes on, its literals are in the machine's pool.
  predicate Loaded(vm: Vm, off: nat, em: Emitted) {
    At(vm.code, vm.ip + off, em.code) && em.lits <= vm.lits
  }

  // Everything but the code itself.
  predicate Context(e: Expr, s: Scopes, me: Me, st: St, vm: Vm) {
    && Agree(me, st, vm)
    && ChainOk(st.heap, st.env, After(e, s))
    && Fits(e, s)
    && ReturnSafe(e, s == [])
    && Sized(vm)
  }

  predicate Sized(vm: Vm) {
    |vm.lits| <= MAX_LITS && |vm.code| < MAX_CODE && |vm.stack| <= STACK_LENGTH
  }

  // The static facts about a form, one level down.
  lemma Static(e: Expr, s: Scopes)
    ensures After(e, s) == AfterForm(e, s)
    ensures Fits(e, s) == FitsForm(e, s)
    ensures ReturnSafe(e, s == []) == ReturnSafeForm(e, s == [])
  {
  }

  // A part with result `r`, and where it has a value, the rest with result
  // `r2` from there.
  lemma Joined(step: Vm -> Out, r: Res, r2: Res, me: Me, st: St, vm: Vm, n: nat, vm2: Vm, n2: nat, vm3: Vm,
               len: nat, len2: nat) returns (m: nat, end: Vm)
    requires Goes(step, vm, n, vm2) && Matches(r, me, st, vm, vm2, len)
    requires r.Val? ==> Goes(step, vm2, n2, vm3) && Matches(r2, me, r.st, vm2, vm3, len2)
    ensures Goes(step, vm, m, end) && Matches(if r.Val? then r2 else r, me, st, vm, end, len + len2)
  {
    m, end := n, vm2;
    if r.Val? {
      Then(step, vm, n, vm2, n2, vm3);
      m, end := n + n2, vm3;
    }
  }

  // The same where the rest starts with operands that the part has left on
  // the stack: `a` and `b` are the states without them.
  lemma JoinedOver(step: Vm -> Out, r: Res, r2: Res, me: Me, st: St, a: Vm, b: Vm, vm: Vm, n: nat, vm2: Vm, n2: nat,
                   vm3: Vm, len: nat, len2: nat) returns (m: nat, end: Vm)
    requires Goes(step, vm, n, vm2) && !r.Ret?
    requires r.Val? ==> Arrives(a, b, b.acc, len) && Ext(st.heap, r.st.heap)
    requires r.Val? ==> Goes(step, vm2, n2, vm3) && Matches(r2, me, r.st, b, vm3, len2)
    ensures Goes(step, vm, m, end) && Matches(if r.Val? then r2 else r, me, st, a, end, len + len2)
  {
    m, end := n, vm2;
    if r.Val? {
      Then(step, vm, n, vm2, n2, vm3);
      m, end := n + n2, vm3;
    }
  }

  // Chain for the rest of an expression after a part of it has run.
  lemma ChainOn(st: St, st1: St, s: Scopes)
    requires ChainOk(st.heap, st.env, s) && Ext(st.heap, st1.heap) && st1.env == st.env
    ensures ChainOk(st1.heap, st1.env, s)
  {
    ChainExt(st.heap, st1.heap, st.env, s);
  }

  // ---- Variables ----

  lemma SimRead(w: World, step: Vm -> Out, x: Sym, s: Scopes, lits: seq<Value>, me: Me, st: St, vm: Vm)
    returns (vm2: Vm)
    requires Drives(w, step) && Loaded(vm, 0, VarRef(x, s, lits)) && Sized(vm) && Agree(me, st, vm)
    requires ChainOk(st.heap, st.env, s) && PlaceFits(s, x)
    ensures ReadVar(st, s, x).Some?
    ensures vm2 == vm.(acc := ReadVar(st, s, x).value, ip := vm.ip + |VarRef(x, s, lits).code|)
    ensures Goes(step, vm, 1, vm2) && Agree(me, st, vm2)
  {
    match Lookup(s, x) {
      case Some(p) =>
        LocalAgrees(st.heap, vm.heap, st.env, s, x);
        var a := ScopeUp(st.heap, st.env, p.frame).value;
        DoLocal(w, step, vm, p.frame, p.offset, a);
        vm2 := vm.(acc := vm.heap[a].elems[p.offset + 1], ip := vm.ip + 3);
      case None =>
        var (i, lits') := GetLit(lits, SymVal(x));
        DoGlobal(w, step, vm, i);
        vm2 := vm.(acc := Global(vm.globals, x), ip := vm.ip + 2);
    }
    Once(step, vm, vm2);
  }

  lemma SimWriteLocal(w: World, step: Vm -> Out, x: Sym, s: Scopes, me: Me, st: St, vm: Vm) returns (vm2: Vm)
    requires Drives(w, step) && Agree(me, st, vm) && ChainOk(st.heap, st.env, s)
    requires Lookup(s, x).Some? && PlaceFits(s, x)
    requires var p := Lookup(s, x).value; At(vm.code, vm.ip, [OP_LOCL_A, B(p.frame), B(p.offset)])
    ensures Goes(step, vm, 1, vm2)
    ensures WriteLocal(st, Lookup(s, x).value.frame, x, vm.acc).Val?
    ensures Matches(WriteLocal(st, Lookup(s, x).value.frame, x, vm.acc), me, st, vm, vm2, 3)
  {
    var p := Lookup(s, x).value;
    LocalAgrees(st.heap, vm.heap, st.env, s, x);
    var a := ScopeUp(st.heap, st.env, p.frame).value;
    DoSetLocal(w, step, vm, p.frame, p.offset, a);
    WriteAgrees(st.heap, vm.heap, a, p.offset, vm.acc);
    vm2 := vm.(heap := vm.heap[a := Vec(vm.heap[a].elems[p.offset + 1 := vm.acc])], ip := vm.ip + 3);
    Once(step, vm, vm2);
  }

  lemma SimWrite(w: World, step: Vm -> Out, x: Sym, s: Scopes, lits: seq<Value>, me: Me, st: St, vm: Vm)
    returns (n: nat, vm2: Vm)
    requires Drives(w, step) && Loaded(vm, 0, Access(OP_LOCL_A, OP_GLOB_A, x, s, lits)) && Sized(vm)
             && Agree(me, st, vm)
    requires ChainOk(st.heap, st.env, s) && PlaceFits(s, x)
    ensures Goes(step, vm, n, vm2)
    ensures Matches(WriteVar(w, st, s, x, vm.acc, me), me, st, vm, vm2, |Access(OP_LOCL_A, OP_GLOB_A, x, s, lits).code|)
  {
    match Lookup(s, x) {
      case Some(p) =>
        vm2 := SimWriteLocal(w, step, x, s, me, st, vm);
        n := 1;
      case None =>
        if w.privileged(me.effuid) {
          var (i, lits') := GetLit(lits, SymVal(x));
          DoSetGlobal(w, step, vm, i);
          n, vm2 := 1, vm.(globals := vm.globals[x := vm.acc], ip := vm.ip + 2);
          Once(step, vm, vm2);
        } else {
          n, vm2 := 0, vm;
        }
    }
  }

  // ---- Operators ----

  lemma SimPlus(w: World, step: Vm -> Out, x: Value, base: seq<Value>, me: Me, st: St, vm: Vm) returns (vm2: Vm)
    requires Drives(w, step) && At(vm.code, vm.ip, [OP_PLUS]) && Agree(me, st, vm) && vm.stack == base + [x]
    requires Plus(st, x, vm.acc).Val?
    ensures Goes(step, vm, 1, vm2)
    ensures Matches(Plus(st, x, vm.acc), me, st, vm.(stack := base), vm2, 1)
  {
    DoPlus(w, step, vm, base, x);
    var y := vm.acc;
    if x.Num? && y.Num? {
      vm2 := vm.(acc := Num(Wrap62(x.n + y.n)), stack := base, ip := vm.ip + 1);
    } else {
      HeapDef(st.heap, vm.heap);
      assert CellAgrees(st.heap[x.a], vm.heap[x.a]) && CellAgrees(st.heap[y.a], vm.heap[y.a]);
      if st.heap[x.a].SBytes? {
        var bs := vm.heap[x.a].bytes + vm.heap[y.a].bytes;
        AllocAgrees(st.heap, vm.heap, SBytes(bs), BVec(bs));
        vm2 := vm.(heap := vm.heap + [BVec(bs)], acc := Ref(|vm.heap|), stack := base, ip := vm.ip + 1);
      } else {
        var es := vm.heap[x.a].elems + vm.heap[y.a].elems;
        if es != [] { AllocAgrees(st.heap, vm.heap, SVec(es), Vec(es)); }
        var (h, v) := NewVector(vm.heap, es);
        vm2 := vm.(heap := h, acc := v, stack := base, ip := vm.ip + 1);
      }
    }
    Once(step, vm, vm2);
  }

  lemma SimOperate(w: World, step: Vm -> Out, op: BinaryOp, x: Value, base: seq<Value>, me: Me, st: St, vm: Vm)
    returns (n: nat, vm2: Vm)
    requires Drives(w, step) && At(vm.code, vm.ip, [op]) && Agree(me, st, vm) && vm.stack == base + [x]
    ensures Goes(step, vm, n, vm2)
    ensures Matches(Operate(w, st, op, x, vm.acc), me, st, vm.(stack := base), vm2, 1)
  {
    if Operate(w, st, op, x, vm.acc).Stuck? {
      n, vm2 := 0, vm;
    } else if op == OP_PLUS {
      vm2 := SimPlus(w, step, x, base, me, st, vm);
      n := 1;
    } else {
      n, vm2 := 1, vm.(acc := Operate(w, st, op, x, vm.acc).v, stack := base, ip := vm.ip + 1);
      if op == OP_EQ || op == OP_NE {
        DoCompare(w, step, vm, op, base, x);
      } else {
        DoArith(w, step, vm, op, base, x.n, vm.acc.n, vm2.acc);
      }
      Once(step, vm, vm2);
    }
  }

  // ---- Where the parts of the code stand ----

  lemma LayoutOne(e: Expr, s: Scopes, lits: seq<Value>, code: seq<byte>, p: int)
    requires e.One? && !(e.k1.Define? && s == []) && At(code, p, EmitOne(e, s, lits).code)
    ensures var r1 := Emit(e.a, Before1(e.k1, s), lits);
            var q := Post1(e.k1, s, After(e, s), r1.lits);
            && At(code, p, r1.code) && At(code, p + |r1.code|, q.code)
            && EmitOne(e, s, lits).lits == q.lits && |EmitOne(e, s, lits).code| == |r1.code| + |q.code|
  {
    var r1 := Emit(e.a, Before1(e.k1, s), lits);
    var q := Post1(e.k1, s, After(e, s), r1.lits);
    assert [] + r1.code + q.code == r1.code + q.code;
    AtSplit(code, p, r1.code, q.code);
  }

  lemma LayoutBinary(e: Expr, s: Scopes, lits: seq<Value>, code: seq<byte>, p: int)
    requires e.Two? && e.k2.Binary? && At(code, p, EmitBinary(e, s, lits).code)
    ensures var r1 := Emit(e.a, s, lits);
            var r2 := Emit(e.b, After(e.a, s), r1.lits);
            && At(code, p, r1.code) && At(code, p + |r1.code|, [OP_PUSH])
            && At(code, p + |r1.code| + 1, r2.code) && At(code, p + |r1.code| + 1 + |r2.code|, [e.k2.op])
  {
    var r1 := Emit(e.a, s, lits);
    var r2 := Emit(e.b, After(e.a, s), r1.lits);
    AtSplit4(code, p, r1.code, [OP_PUSH], r2.code, [e.k2.op]);
  }

  lemma LayoutShort(e: Expr, s: Scopes, lits: seq<Value>, code: seq<byte>, p: int)
    requires e.Two? && (e.k2.And? || e.k2.Or?) && At(code, p, EmitShort(e, s, lits).code)
    ensures var r1 := Emit(e.a, s, lits);
            var r2 := Emit(e.b, After(e.a, s), r1.lits);
            && At(code, p, r1.code)
            && At(code, p + |r1.code|, JumpOp(ShortOp(e.k2), 3))
            && At(code, p + |r1.code| + 3, JumpOp(OP_JUMP, |r2.code|))
            && At(code, p + |r1.code| + 6, r2.code)
  {
    var r1 := Emit(e.a, s, lits);
    var r2 := Emit(e.b, After(e.a, s), r1.lits);
    var j1, j2 := JumpOp(ShortOp(e.k2), 3), JumpOp(OP_JUMP, |r2.code|);
    AtSplit4(code, p, r1.code, j1, j2, r2.code);
  }

  lemma LayoutWhile(e: Expr, s: Scopes, lits: seq<Value>, code: seq<byte>, p: int)
    requires e.Two? && e.k2.While? && At(code, p, EmitWhile(e, s, lits).code)
    ensures var r1 := Emit(e.a, s, lits);
            var r2 := Emit(e.b, After(e.a, s), r1.lits);
            && At(code, p, r1.code) && At(code, p + |r1.code|, JumpOp(OP_JUMP_FALSE, |r2.code| + 3))
            && At(code, p + |r1.code| + 3, r2.code)
            && At(code, p + |r1.code| + 3 + |r2.code|, JumpOp(OP_JUMP, -(|r1.code| + |r2.code| + 6)))
  {
    var r1 := Emit(e.a, s, lits);
    var r2 := Emit(e.b, After(e.a, s), r1.lits);
    var j1, j2 := JumpOp(OP_JUMP_FALSE, |r2.code| + 3), JumpOp(OP_JUMP, -(|r1.code| + |r2.code| + 6));
    AtSplit4(code, p, r1.code, j1, r2.code, j2);
  }

  lemma LayoutIf(e: Expr, s: Scopes, lits: seq<Value>, code: seq<byte>, p: int)
    requires e.Three? && e.k3.If? && At(code, p, EmitThree(e, s, lits).code)
    ensures var r1 := Emit(e.a, s, lits);
            var r2 := Emit(e.b, After(e.a, s), r1.lits);
            var r3 := Emit(e.c, After(e.b, After(e.a, s)), r2.lits);
            && At(code, p, r1.code) && At(code, p + |r1.code|, JumpOp(OP_JUMP_FALSE, |r2.code| + 3))
            && At(code, p + |r1.code| + 3, r2.code)
            && At(code, p + |r1.code| + 3 + |r2.code|, JumpOp(OP_JUMP, |r3.code|))
            && At(code, p + |r1.code| + |r2.code| + 6, r3.code)
            && EmitThree(e, s, lits).lits == r3.lits
            && |EmitThree(e, s, lits).code| == |r1.code| + |r2.code| + |r3.code| + 6
  {
    var r1 := Emit(e.a, s, lits);
    var r2 := Emit(e.b, After(e.a, s), r1.lits);
    var r3 := Emit(e.c, After(e.b, After(e.a, s)), r2.lits);
    var j1, j2 := JumpOp(OP_JUMP_FALSE, |r2.code| + 3), JumpOp(OP_JUMP, |r3.code|);
    var c4 := r1.code + j1 + r2.code + j2;
    assert c4 + r3.code + [] == c4 + r3.code;
    AtSplit(code, p, c4, r3.code);
    AtSplit4(code, p, r1.code, j1, r2.code, j2);
  }

  lemma LayoutApply(e: Expr, s: Scopes, lits: seq<Value>, code: seq<byte>, p: int)
    requires e.Headed? && e.kh.Apply? && At(code, p, EmitHeaded(e, s, lits).code)
    ensures var r1 := Emit(e.a, s, lits);
            var r2 := EmitArgs(e.es, 1, After(e.a, s), r1.lits);
            && At(code, p, r1.code) && At(code, p + |r1.code|, [OP_PUSH])
            && At(code, p + |r1.code| + 1, PrepareCall(Count(e.es)))
            && At(code, p + |r1.code| + 4, r2.code)
            && At(code, p + |r1.code| + 4 + |r2.code|, FETCH_CALLEE)
            && At(code, p + |r1.code| + 6 + |r2.code|, [OP_APPLY])
            && EmitHeaded(e, s, lits).lits == r2.lits && |EmitHeaded(e, s, lits).code| == |r1.code| + |r2.code| + 7
  {
    var r1 := Emit(e.a, s, lits);
    var r2 := EmitArgs(e.es, 1, After(e.a, s), r1.lits);
    var c4 := r1.code + [OP_PUSH] + PrepareCall(Count(e.es)) + r2.code;
    AtSplit(code, p, c4, FETCH_CALLEE + [OP_APPLY]);
    AtSplit4(code, p, r1.code, [OP_PUSH], PrepareCall(Count(e.es)), r2.code);
    AtSplit(code, p + |c4|, FETCH_CALLEE, [OP_APPLY]);
  }

  lemma LayoutCall(x: Sym, es: Exprs, s: Scopes, lits: seq<Value>, code: seq<byte>, p: int)
    requires At(code, p, EmitMany(Call(x), es, s, lits).code)
    ensures var r1 := EmitArgs(es, 1, s, lits);
            var r2 := VarRef(x, AfterAll(es, s), r1.lits);
            && At(code, p, PrepareCall(Count(es))) && At(code, p + 3, r1.code) && At(code, p + 3 + |r1.code|, r2.code)
            && At(code, p + 3 + |r1.code| + |r2.code|, [OP_APPLY])
            && EmitMany(Call(x), es, s, lits).lits == r2.lits
            && |EmitMany(Call(x), es, s, lits).code| == 4 + |r1.code| + |r2.code|
  {
    var r1 := EmitArgs(es, 1, s, lits);
    var r2 := VarRef(x, AfterAll(es, s), r1.lits);
    AtSplit4(code, p, PrepareCall(Count(es)), r1.code, r2.code, [OP_APPLY]);
  }

  // ---- The simulation ----

  // For every expression: from a state where its code is loaded and that
  // agrees with `st`, the machine reaches the outcome of direct evaluation.
  lemma {:induction false} Sim(w: World, step: Vm -> Out, fuel: nat, e: Expr, s: Scopes, lits: seq<Value>,
                               me: Me, st: St, vm: Vm) returns (n: nat, vm2: Vm)
    requires Drives(w, step) && Context(e, s, me, st, vm) && Loaded(vm, 0, Emit(e, s, lits))
    ensures Goes(step, vm, n, vm2)
    ensures Matches(Eval(w, fuel, Room(vm), e, s, me, st), me, st, vm, vm2, |Emit(e, s, lits).code|)
    decreases fuel, 1, e, 6
  {
    Static(e, s);
    assert Eval(w, fuel, Room(vm), e, s, me, st) == EvalForm(w, fuel, Room(vm), e, s, me, st);
    assert Emit(e, s, lits) == EmitForm(e, s, lits);
    match e
    case Lit(v) => n, vm2 := SimLit(w, step, v, lits, me, st, vm);
    case This =>
      DoSelf(w, step, vm);
      n, vm2 := 1, vm.(acc := vm.self, ip := vm.ip + 1);
      Once(step, vm, vm2);
    case Var(x) =>
      vm2 := SimRead(w, step, x, s, lits, me, st, vm);
      n := 1;
    case One(_, _) => n, vm2 := SimOne(w, step, fuel, e, s, lits, me, st, vm);
    case Two(_, _, _) => n, vm2 := SimTwo(w, step, fuel, e, s, lits, me, st, vm);
    case Three(_, _, _, _) => n, vm2 := SimThree(w, step, fuel, e, s, lits, me, st, vm);
    case Many(k, es) => n, vm2 := SimMany(w, step, fuel, k, es, s, lits, me, st, vm);
    case Headed(_, _, _) => n, vm2 := SimHeaded(w, step, fuel, e, s, lits, me, st, vm);
    case Fun(k, _) =>
      if k.Lambda? {
        n, vm2 := SimLambda(w, step, e, s, lits, me, st, vm);
      } else {
        n, vm2 := Idle(step, vm);
      }
  }

  // Nothing is claimed of an evaluation that is stuck.
  lemma Idle(step: Vm -> Out, vm: Vm) returns (n: nat, vm2: Vm)
    ensures Goes(step, vm, n, vm2)
  {
    n, vm2 := 0, vm;
  }

  lemma SimLit(w: World, step: Vm -> Out, v: Value, lits: seq<Value>, me: Me, st: St, vm: Vm)
    returns (n: nat, vm2: Vm)
    requires Drives(w, step) && Loaded(vm, 0, LitOp(OP_A_LITL, v, lits)) && Sized(vm) && Agree(me, st, vm)
    ensures Goes(step, vm, n, vm2) && Matches(Val(v, st), me, st, vm, vm2, 2)
  {
    var (i, lits') := GetLit(lits, v);
    DoLiteral(w, step, vm, i);
    n, vm2 := 1, vm.(acc := v, ip := vm.ip + 2);
    Once(step, vm, vm2);
  }

  // ---- One part ----

  lemma {:induction false} SimOne(w: World, step: Vm -> Out, fuel: nat, e: Expr, s: Scopes, lits: seq<Value>,
                                  me: Me, st: St, vm: Vm) returns (n: nat, vm2: Vm)
    requires e.One?
    requires Drives(w, step) && Context(e, s, me, st, vm) && Loaded(vm, 0, EmitOne(e, s, lits))
    ensures Goes(step, vm, n, vm2)
    ensures Matches(EvalOne(w, fuel, Room(vm), e, s, me, st), me, st, vm, vm2, |EmitOne(e, s, lits).code|)
    decreases fuel, 1, e, 4
  {
    Static(e, s);
    var k, a, s1, t := e.k1, e.a, Before1(e.k1, s), After(e, s);
    if k.Define? && s == [] {
      NoReturnNoRet(w, fuel, Room(vm), a, s1, me, st);
      n, vm2 := Idle(step, vm);
    } else {
      LayoutOne(e, s, lits, vm.code, vm.ip);
      n, vm2 := Sim(w, step, fuel, a, s1, lits, me, st, vm);
      var r := Eval(w, fuel, Room(vm), a, s1, me, st);
      if r.Val? {
        ChainOn(st, r.st, t);
        var n2, vm3 := SimFinish1(w, step, k, s, t, Emit(a, s1, lits).lits, me, r.st, vm2);
        n, vm2 := Joined(step, r, Finish1(w, k, s, t, r.v, me, r.st), me, st, vm, n, vm2, n2, vm3,
                         |Emit(a, s1, lits).code|, |Post1(k, s, t, Emit(a, s1, lits).lits).code|);
      }
    }
  }

  lemma SimFinish1(w: World, step: Vm -> Out, k: Form1, s: Scopes, t: Scopes, lits: seq<Value>,
                   me: Me, st: St, vm: Vm) returns (n: nat, vm2: Vm)
    requires Drives(w, step) && Loaded(vm, 0, Post1(k, s, t, lits)) && Sized(vm) && Agree(me, st, vm)
    requires ChainOk(st.heap, st.env, t) && Extends(Before1(k, s), t)
    requires k.Assign? ==> PlaceFits(t, k.x)
    requires k.Define? ==> PlaceFits(Before1(k, s), k.x)
    ensures Goes(step, vm, n, vm2)
    ensures Matches(Finish1(w, k, s, t, vm.acc, me, st), me, st, vm, vm2, |Post1(k, s, t, lits).code|)
  {
    if k.Assign? {
      n, vm2 := SimWrite(w, step, k.x, t, lits, me, st, vm);
    } else if k.Unary? && k.op == OP_NOT {
      DoNot(w, step, vm);
      n, vm2 := 1, vm.(acc := Bool(vm.acc == FALSE), ip := vm.ip + 1);
      Once(step, vm, vm2);
    } else if k.Define? && s != [] {
      ChainPrefix(st.heap, st.env, Declare(s, k.x), t);
      vm2 := SimWriteLocal(w, step, k.x, Declare(s, k.x), me, st, vm);
      n := 1;
    } else {
      n, vm2 := 0, vm;
    }
  }

  lemma SimLambda(w: World, step: Vm -> Out, e: Expr, s: Scopes, lits: seq<Value>, me: Me, st: St, vm: Vm)
    returns (n: nat, vm2: Vm)
    requires e.Fun? && e.kf.Lambda?
    requires Drives(w, step) && Loaded(vm, 0, EmitFun(e, s, lits)) && Sized(vm) && Agree(me, st, vm)
    requires ChainOk(st.heap, st.env, s) && BlockFits(e.kf.params, e.b, s)
    ensures Goes(step, vm, n, vm2)
    ensures var (st1, v) := Alloc(st, SFunction(e.kf.params, e.b, s, st.env, me.self, PERMS_MASK, me.effuid));
            Matches(Val(v, st1), me, st, vm, vm2, |EmitFun(e, s, lits).code|)
  {
    var m := EmitTemplate(e.kf.params, e.b, s);
    assert CloseOver(m, lits).code == [OP_A_LITL, B(|lits|)] + [OP_CLOSURE];
    AtSplit(vm.code, vm.ip, [OP_A_LITL, B(|lits|)], [OP_CLOSURE]);
    DoLiteral(w, step, vm, |lits|);
    var vm1 := vm.(acc := MethodVal(m), ip := vm.ip + 2);
    DoClosure(w, step, vm1, m);
    var fn := SFunction(e.kf.params, e.b, s, st.env, me.self, PERMS_MASK, me.effuid);
    var c := Closure(m.(env := vm.env, owner := vm.effuid), vm.self);
    AllocAgrees(st.heap, vm.heap, fn, c);
    n, vm2 := 2, vm1.(heap := vm.heap + [c], acc := Ref(|vm.heap|), ip := vm.ip + 3);
    Once(step, vm, vm1);
    ThenOnce(step, vm, 1, vm1, vm2);
  }

  // ---- Two parts ----

  lemma {:induction false} SimTwo(w: World, step: Vm -> Out, fuel: nat, e: Expr, s: Scopes, lits: seq<Value>,
                                  me: Me, st: St, vm: Vm) returns (n: nat, vm2: Vm)
    requires e.Two?
    requires Drives(w, step) && Context(e, s, me, st, vm) && Loaded(vm, 0, EmitTwo(e, s, lits))
    ensures Goes(step, vm, n, vm2)
    ensures Matches(EvalTwo(w, fuel, Room(vm), e, s, me, st), me, st, vm, vm2, |EmitTwo(e, s, lits).code|)
    decreases fuel, 1, e, 5
  {
    match e.k2
    case Binary(_) => n, vm2 := SimBinary(w, step, fuel, e, s, lits, me, st, vm);
    case And => n, vm2 := SimShort(w, step, fuel, e, s, lits, me, st, vm);
    case Or => n, vm2 := SimShort(w, step, fuel, e, s, lits, me, st, vm);
    case While => n, vm2 := SimWhile(w, step, fuel, e, s, lits, me, st, vm);
    case _ => n, vm2 := Idle(step, vm);
  }

  lemma {:induction false} SimBinary(w: World, step: Vm -> Out, fuel: nat, e: Expr, s: Scopes, lits: seq<Value>,
                                     me: Me, st: St, vm: Vm) returns (n: nat, vm2: Vm)
    requires e.Two? && e.k2.Binary?
    requires Drives(w, step) && Context(e, s, me, st, vm) && Loaded(vm, 0, EmitBinary(e, s, lits))
    ensures Goes(step, vm, n, vm2)
    ensures Matches(EvalBinary(w, fuel, Room(vm), e, s, me, st), me, st, vm, vm2, |EmitBinary(e, s, lits).code|)
    decreases fuel, 1, e, 3
  {
    LayoutBinary(e, s, lits, vm.code, vm.ip);
    var em := Emit(e.a, s, lits);
    n, vm2 := SimOperands(w, step, fuel, e, s, lits, me, st, vm, em, Emit(e.b, After(e.a, s), em.lits));
  }

  lemma {:induction false} SimOperands(w: World, step: Vm -> Out, fuel: nat, e: Expr, s: Scopes, lits: seq<Value>,
                                       me: Me, st: St, vm: Vm, em: Emitted, right: Emitted)
    returns (n: nat, vm2: Vm)
    requires e.Two? && e.k2.Binary? && em == Emit(e.a, s, lits) && right == Emit(e.b, After(e.a, s), em.lits)
    requires Drives(w, step) && Context(e, s, me, st, vm)
    requires Loaded(vm, 0, em) && At(vm.code, vm.ip + |em.code|, [OP_PUSH]) && Loaded(vm, |em.code| + 1, right)
    requires At(vm.code, vm.ip + |em.code| + 1 + |right.code|, [e.k2.op])
    ensures Goes(step, vm, n, vm2)
    ensures Matches(EvalBinary(w, fuel, Room(vm), e, s, me, st), me, st, vm, vm2, |em.code| + |right.code| + 2)
    decreases fuel, 1, e, 2
  {
    FirstContext(e, s, me, st, vm);
    n, vm2 := Sim(w, step, fuel, e.a, s, lits, me, st, vm);
    var r, s1 := Eval(w, fuel, Room(vm), e.a, s, me, st), After(e.a, s);
    if r.Val? {
      OperandContext(e, s, em, right, me, st, vm, r.st, vm2);
      var n2, vm3 := SimPushOperand(w, step, fuel, e.k2.op, e.b, s1, em.lits, me, r.st, vm2);
      n, vm2 := Joined(step, r, EvalRight(w, fuel, Room(vm), e.k2.op, r.v, e.b, s1, me, r.st), me, st, vm, n, vm2, n2,
                       vm3, |em.code|, |right.code| + 2);
    }
  }

  // From the state the left operand leads to.
  lemma OperandContext(e: Expr, s: Scopes, em: Emitted, right: Emitted, me: Me, st: St, vm: Vm, st1: St, vm1: Vm)
    requires e.Two? && e.k2.Binary? && ChainOk(st.heap, st.env, After(e.b, After(e.a, s)))
    requires At(vm.code, vm.ip + |em.code|, [OP_PUSH]) && Loaded(vm, |em.code| + 1, right) && Sized(vm)
    requires At(vm.code, vm.ip + |em.code| + 1 + |right.code|, [e.k2.op])
    requires Arrives(vm, vm1, vm1.acc, |em.code|) && Agree(me, st1, vm1) && Ext(st.heap, st1.heap) && st1.env == st.env
    ensures ChainOk(st1.heap, st1.env, After(e.b, After(e.a, s))) && Sized(vm1)
    ensures At(vm1.code, vm1.ip, [OP_PUSH]) && Loaded(vm1, 1, right)
    ensures At(vm1.code, vm1.ip + 1 + |right.code|, [e.k2.op])
  {
    ChainOn(st, st1, After(e.b, After(e.a, s)));
  }

  // The left operand is pushed, the right one evaluated, the operator applied.
  lemma {:induction false} SimPushOperand(w: World, step: Vm -> Out, fuel: nat, op: BinaryOp, e: Expr, s: Scopes,
                                          lits: seq<Value>, me: Me, st: St, vm: Vm) returns (n: nat, vm2: Vm)
    requires NoReturn(e) && Fits(e, s) && Drives(w, step) && Agree(me, st, vm) && Sized(vm)
    requires At(vm.code, vm.ip, [OP_PUSH]) && Loaded(vm, 1, Emit(e, s, lits))
    requires At(vm.code, vm.ip + 1 + |Emit(e, s, lits).code|, [op])
    requires ChainOk(st.heap, st.env, After(e, s))
    ensures Goes(step, vm, n, vm2)
    ensures Matches(EvalRight(w, fuel, Room(vm), op, vm.acc, e, s, me, st), me, st, vm, vm2,
                    |Emit(e, s, lits).code| + 2)
    decreases fuel, 1, e, 8
  {
    if Room(vm) == 0 {
      n, vm2 := Idle(step, vm);
      return;
    }
    DoPush(w, step, vm);
    var vm1 := vm.(stack := vm.stack + [vm.acc], ip := vm.ip + 1);
    Once(step, vm, vm1);
    n, vm2 := SimRight(w, step, fuel, op, e, s, lits, me, st, vm, vm1, Room(vm));
    Then(step, vm, 1, vm1, n, vm2);
    n := n + 1;
  }

  // From `vm1`, where the left operand has been pushed.
  lemma {:induction false} SimRight(w: World, step: Vm -> Out, fuel: nat, op: BinaryOp, e: Expr, s: Scopes,
                                    lits: seq<Value>, me: Me, st: St, vm: Vm, vm1: Vm, room: nat)
    returns (n: nat, vm2: Vm)
    requires NoReturn(e) && Fits(e, s) && Drives(w, step) && Agree(me, st, vm1) && Sized(vm1)
    requires room == Room(vm1) + 1 && vm1 == vm.(stack := vm.stack + [vm.acc], ip := vm.ip + 1)
    requires Loaded(vm, 1, Emit(e, s, lits)) && At(vm.code, vm.ip + 1 + |Emit(e, s, lits).code|, [op])
    requires ChainOk(st.heap, st.env, After(e, s))
    ensures Goes(step, vm1, n, vm2)
    ensures Matches(EvalRight(w, fuel, room, op, vm.acc, e, s, me, st), me, st, vm, vm2,
                    |Emit(e, s, lits).code| + 2)
    decreases fuel, 1, e, 7
  {
    RightContext(op, e, s, me, st, vm, vm1, Emit(e, s, lits));
    NoReturnNoRet(w, fuel, Room(vm1), e, s, me, st);
    n, vm2 := Sim(w, step, fuel, e, s, lits, me, st, vm1);
    n, vm2 := FinishRight(w, step, op, Eval(w, fuel, Room(vm1), e, s, me, st), me, st, vm, vm1, n, vm2,
                          |Emit(e, s, lits).code|);
  }

  // The code for the right operand, seen from where it begins.
  lemma RightContext(op: BinaryOp, e: Expr, s: Scopes, me: Me, st: St, vm: Vm, vm1: Vm, em: Emitted)
    requires NoReturn(e) && Fits(e, s) && Agree(me, st, vm1) && Sized(vm1) && ChainOk(st.heap, st.env, After(e, s))
    requires vm1 == vm.(stack := vm.stack + [vm.acc], ip := vm.ip + 1)
    requires Loaded(vm, 1, em) && At(vm.code, vm.ip + 1 + |em.code|, [op])
    ensures Context(e, s, me, st, vm1) && Loaded(vm1, 0, em) && At(vm1.code, vm1.ip + |em.code|, [op])
  {
    NoReturnIsSafe(e, s == []);
    AtMoved(vm, vm1, 1, 0, em.code);
    AtMoved(vm, vm1, 1, |em.code|, [op]);
  }

  // The right operand has come to the result `r`.
  lemma FinishRight(w: World, step: Vm -> Out, op: BinaryOp, r: Res, me: Me, st: St, vm: Vm, vm1: Vm, n: nat, vm2: Vm,
                    len: nat) returns (m: nat, end: Vm)
    requires Drives(w, step) && vm1 == vm.(stack := vm.stack + [vm.acc], ip := vm.ip + 1)
    requires Goes(step, vm1, n, vm2) && Matches(r, me, st, vm1, vm2, len) && !r.Ret?
    requires At(vm1.code, vm1.ip + len, [op])
    ensures Goes(step, vm1, m, end)
    ensures Matches(if r.Val? then Operate(w, r.st, op, vm.acc, r.v) else r, me, st, vm, end, len + 2)
  {
    m, end := n, vm2;
    if r.Val? {
      var b := vm2.(stack := vm.stack);
      var n2, vm3 := SimOperate(w, step, op, vm.acc, vm.stack, me, r.st, vm2);
      m, end := JoinedOver(step, r, Operate(w, r.st, op, vm.acc, r.v), me, st, vm, b, vm1, n, vm2, n2, vm3, len + 1, 1);
    }
  }

  lemma FirstContext(e: Expr, s: Scopes, me: Me, st: St, vm: Vm)
    requires e.Two? && (e.k2.Binary? || e.k2.And? || e.k2.Or? || e.k2.While?)
    requires Context(e, s, me, st, vm)
    ensures Context(e.a, s, me, st, vm) && ChainOk(st.heap, st.env, After(e.b, After(e.a, s)))
    ensures e.k2.Binary? ==> NoReturn(e.b) && Fits(e.b, After(e.a, s))
  {
    Static(e, s);
    ChainPrefix(st.heap, st.env, After(e.a, s), After(e.b, After(e.a, s)));
  }

  // The second part of a form that jumps, from a state the first leads to.
  lemma SecondContext(e: Expr, s: Scopes, me: Me, st: St, vm: Vm, st1: St, vm1: Vm)
    requires e.Two? && (e.k2.And? || e.k2.Or? || e.k2.While?)
    requires Context(e, s, me, st, vm) && Agree(me, st1, vm1) && Ext(st.heap, st1.heap) && st1.env == st.env
    requires vm1.lits == vm.lits && vm1.code == vm.code && vm1.stack == vm.stack
    ensures Context(e.b, After(e.a, s), me, st1, vm1)
  {
    Static(e, s);
    ChainOn(st, st1, After(e, s));
  }

  lemma {:induction false} SimShort(w: World, step: Vm -> Out, fuel: nat, e: Expr, s: Scopes, lits: seq<Value>,
                                    me: Me, st: St, vm: Vm) returns (n: nat, vm2: Vm)
    requires e.Two? && (e.k2.And? || e.k2.Or?)
    requires Drives(w, step) && Context(e, s, me, st, vm) && Loaded(vm, 0, EmitShort(e, s, lits))
    ensures Goes(step, vm, n, vm2)
    ensures Matches(EvalShort(w, fuel, Room(vm), e, s, me, st), me, st, vm, vm2, |EmitShort(e, s, lits).code|)
    decreases fuel, 1, e, 3
  {
    LayoutShort(e, s, lits, vm.code, vm.ip);
    n, vm2 := SimAlternatives(w, step, fuel, e, s, lits, me, st, vm);
  }

  lemma {:induction false} SimAlternatives(w: World, step: Vm -> Out, fuel: nat, e: Expr, s: Scopes, lits: seq<Value>,
                                           me: Me, st: St, vm: Vm) returns (n: nat, vm2: Vm)
    requires e.Two? && (e.k2.And? || e.k2.Or?)
    requires Drives(w, step) && Context(e, s, me, st, vm)
    requires var r1 := Emit(e.a, s, lits);
             var r2 := Emit(e.b, After(e.a, s), r1.lits);
             && Loaded(vm, 0, r1) && At(vm.code, vm.ip + |r1.code|, JumpOp(ShortOp(e.k2), 3))
             && At(vm.code, vm.ip + |r1.code| + 3, JumpOp(OP_JUMP, |r2.code|))
             && Loaded(vm, |r1.code| + 6, r2)
    ensures Goes(step, vm, n, vm2)
    ensures var r1 := Emit(e.a, s, lits);
            Matches(EvalShort(w, fuel, Room(vm), e, s, me, st), me, st, vm, vm2,
                    |r1.code| + |Emit(e.b, After(e.a, s), r1.lits).code| + 6)
    decreases fuel, 1, e, 2
  {
    FirstContext(e, s, me, st, vm);
    n, vm2 := Sim(w, step, fuel, e.a, s, lits, me, st, vm);
    var r := Eval(w, fuel, Room(vm), e.a, s, me, st);
    if r.Val? {
      SecondContext(e, s, me, st, vm, r.st, vm2);
      var s1, em := After(e.a, s), Emit(e.a, s, lits);
      var n2, vm3 := SimSecond(w, step, fuel, e.k2.And?, e.b, s1, em.lits, me, r.st, vm2);
      var r2 := if (r.v == FALSE) == e.k2.And? then r else Eval(w, fuel, Room(vm), e.b, s1, me, r.st);
      n, vm2 := Joined(step, r, r2, me, st, vm, n, vm2, n2, vm3, |em.code|, |Emit(e.b, s1, em.lits).code| + 6);
    }
  }

  // The jumps of `&&` and `||` and the second part.
  lemma {:induction false} SimSecond(w: World, step: Vm -> Out, fuel: nat, isAnd: bool, e: Expr, s: Scopes,
                                     lits: seq<Value>, me: Me, st: St, vm: Vm) returns (n: nat, vm2: Vm)
    requires Drives(w, step) && Context(e, s, me, st, vm) && Loaded(vm, 6, Emit(e, s, lits))
    requires At(vm.code, vm.ip, JumpOp(if isAnd then OP_JUMP_TRUE else OP_JUMP_FALSE, 3))
    requires At(vm.code, vm.ip + 3, JumpOp(OP_JUMP, |Emit(e, s, lits).code|))
    ensures Goes(step, vm, n, vm2)
    ensures Matches(if (vm.acc == FALSE) == isAnd then Val(vm.acc, st) else Eval(w, fuel, Room(vm), e, s, me, st),
                    me, st, vm, vm2, |Emit(e, s, lits).code| + 6)
    decreases fuel, 1, e, 7
  {
    AtFits(vm.code, vm.ip + 6, Emit(e, s, lits).code);
    n, vm2 := SimSkip(w, step, isAnd, |Emit(e, s, lits).code|, vm);
    if (vm.acc == FALSE) != isAnd {
      var n2, vm3 := Sim(w, step, fuel, e, s, lits, me, st, vm2);
      Then(step, vm, n, vm2, n2, vm3);
      n, vm2 := n + n2, vm3;
    }
  }

  // On to the second part, or past it.
  lemma SimSkip(w: World, step: Vm -> Out, isAnd: bool, len: nat, vm: Vm) returns (n: nat, vm2: Vm)
    requires Drives(w, step) && len < 0x8000
    requires At(vm.code, vm.ip, JumpOp(if isAnd then OP_JUMP_TRUE else OP_JUMP_FALSE, 3))
    requires At(vm.code, vm.ip + 3, JumpOp(OP_JUMP, len))
    ensures Goes(step, vm, n, vm2)
    ensures vm2 == vm.(ip := vm.ip + 6 + if (vm.acc == FALSE) == isAnd then len else 0)
  {
    var op := if isAnd then OP_JUMP_TRUE else OP_JUMP_FALSE;
    DoJump(w, step, vm, op, 3);
    if (vm.acc == FALSE) == isAnd {
      var vm1 := vm.(ip := vm.ip + 3);
      Once(step, vm, vm1);
      DoJump(w, step, vm1, OP_JUMP, len);
      vm2 := vm.(ip := vm.ip + 6 + len);
      ThenOnce(step, vm, 1, vm1, vm2);
      n := 2;
    } else {
      vm2 := vm.(ip := vm.ip + 6);
      Once(step, vm, vm2);
      n := 1;
    }
  }

  lemma {:induction false} SimWhile(w: World, step: Vm -> Out, fuel: nat, e: Expr, s: Scopes, lits: seq<Value>,
                                    me: Me, st: St, vm: Vm) returns (n: nat, vm2: Vm)
    requires e.Two? && e.k2.While?
    requires Drives(w, step) && Context(e, s, me, st, vm) && Loaded(vm, 0, EmitWhile(e, s, lits))
    ensures Goes(step, vm, n, vm2)
    ensures Matches(EvalWhile(w, fuel, Room(vm), e, s, me, st), me, st, vm, vm2, |EmitWhile(e, s, lits).code|)
    decreases fuel, 1, e, 4
  {
    LayoutWhile(e, s, lits, vm.code, vm.ip);
    n, vm2 := SimLoop(w, step, fuel, e, s, lits, me, st, vm);
  }

  // The parts of a loop are in place, seen from its first byte.
  predicate LoopLoaded(e: Expr, s: Scopes, lits: seq<Value>, vm: Vm)
    requires e.Two?
  {
    var r1 := Emit(e.a, s, lits);
    var r2 := Emit(e.b, After(e.a, s), r1.lits);
    && Loaded(vm, 0, r1) && At(vm.code, vm.ip + |r1.code|, JumpOp(OP_JUMP_FALSE, |r2.code| + 3))
    && Loaded(vm, |r1.code| + 3, r2)
    && At(vm.code, vm.ip + |r1.code| + 3 + |r2.code|, JumpOp(OP_JUMP, -(|r1.code| + |r2.code| + 6)))
  }

  function LoopLength(e: Expr, s: Scopes, lits: seq<Value>): nat
    requires e.Two?
  {
    var r1 := Emit(e.a, s, lits);
    |r1.code| + |Emit(e.b, After(e.a, s), r1.lits).code| + 6
  }

  lemma {:induction false} SimLoop(w: World, step: Vm -> Out, fuel: nat, e: Expr, s: Scopes, lits: seq<Value>,
                                   me: Me, st: St, vm: Vm) returns (n: nat, vm2: Vm)
    requires e.Two? && e.k2.While?
    requires Drives(w, step) && Context(e, s, me, st, vm) && LoopLoaded(e, s, lits, vm)
    ensures Goes(step, vm, n, vm2)
    ensures Matches(EvalWhile(w, fuel, Room(vm), e, s, me, st), me, st, vm, vm2, LoopLength(e, s, lits))
    decreases fuel, 1, e, 3
  {
    Static(e, s);
    ChainPrefix(st.heap, st.env, After(e.a, s), After(e.b, After(e.a, s)));
    n, vm2 := Sim(w, step, fuel, e.a, s, lits, me, st, vm);
    var r := Eval(w, fuel, Room(vm), e.a, s, me, st);
    if r.Val? {
      var len := |Emit(e.b, After(e.a, s), Emit(e.a, s, lits).lits).code|;
      AtFits(vm.code, vm2.ip, JumpOp(OP_JUMP_FALSE, len + 3));
      AtFits(vm.code, vm2.ip + 3, Emit(e.b, After(e.a, s), Emit(e.a, s, lits).lits).code);
      var vm3 := SimExit(w, step, len, vm2);
      ThenOnce(step, vm, n, vm2, vm3);
      n, vm2 := n + 1, vm3;
      if r.v != FALSE {
        var n2, vm4 := SimBody(w, step, fuel, e, s, lits, me, st, vm, r.st, vm3);
        Then(step, vm, n, vm3, n2, vm4);
        n, vm2 := n + n2, vm4;
      }
    }
  }

  // A conditional jump over `len` bytes and the unconditional jump after them.
  lemma SimExit(w: World, step: Vm -> Out, len: nat, vm: Vm) returns (vm2: Vm)
    requires Drives(w, step) && len + 3 < 0x8000
    requires At(vm.code, vm.ip, JumpOp(OP_JUMP_FALSE, len + 3))
    ensures step(vm) == Run(vm2)
    ensures vm2 == vm.(ip := vm.ip + 3 + if vm.acc == FALSE then len + 3 else 0)
  {
    DoJump(w, step, vm, OP_JUMP_FALSE, len + 3);
    vm2 := vm.(ip := vm.ip + 3 + if vm.acc == FALSE then len + 3 else 0);
  }

  // The body of a loop, then the remaining iterations.
  lemma {:induction false} SimBody(w: World, step: Vm -> Out, fuel: nat, e: Expr, s: Scopes, lits: seq<Value>,
                                   me: Me, st: St, vm: Vm, st1: St, vm1: Vm) returns (n: nat, vm2: Vm)
    requires e.Two? && e.k2.While?
    requires Drives(w, step) && Context(e, s, me, st, vm) && LoopLoaded(e, s, lits, vm)
    requires Agree(me, st1, vm1) && Ext(st.heap, st1.heap)
    requires vm1 == vm.(acc := vm1.acc, ip := vm.ip + |Emit(e.a, s, lits).code| + 3, heap := vm1.heap,
                        globals := vm1.globals)
    ensures Goes(step, vm1, n, vm2)
    ensures match Eval(w, fuel, Room(vm), e.b, After(e.a, s), me, st1)
            case Val(_, st2) =>
              fuel > 0 ==> Matches(EvalWhile(w, fuel - 1, Room(vm), e, s, me, st2), me, st, vm, vm2,
                                   LoopLength(e, s, lits))
            case r => Matches(r, me, st, vm, vm2, LoopLength(e, s, lits))
    decreases fuel, 1, e, 2
  {
    Static(e, s);
    var l := Emit(e.a, s, lits).lits;
    SecondContext(e, s, me, st, vm, st1, vm1);
    n, vm2 := Sim(w, step, fuel, e.b, After(e.a, s), l, me, st1, vm1);
    var r := Eval(w, fuel, Room(vm), e.b, After(e.a, s), me, st1);
    if r.Val? && fuel > 0 {
      var n2, vm3 := SimAgain(w, step, fuel, e, s, lits, me, st, vm, r.st, vm2);
      Then(step, vm1, n, vm2, n2, vm3);
      n, vm2 := n + n2, vm3;
    }
  }

  // The jump back to the condition.
  lemma {:induction false} SimAgain(w: World, step: Vm -> Out, fuel: nat, e: Expr, s: Scopes, lits: seq<Value>,
                                    me: Me, st: St, vm: Vm, st1: St, vm1: Vm) returns (n: nat, vm2: Vm)
    requires e.Two? && e.k2.While? && fuel > 0
    requires Drives(w, step) && Context(e, s, me, st, vm) && LoopLoaded(e, s, lits, vm)
    requires Agree(me, st1, vm1) && Ext(st.heap, st1.heap)
    requires vm1 == vm.(acc := vm1.acc, ip := vm.ip + LoopLength(e, s, lits) - 3, heap := vm1.heap,
                        globals := vm1.globals)
    ensures Goes(step, vm1, n, vm2)
    ensures Matches(EvalWhile(w, fuel - 1, Room(vm), e, s, me, st1), me, st, vm, vm2, LoopLength(e, s, lits))
    decreases fuel, 1, e, 1
  {
    AtFits(vm.code, vm.ip, Emit(e.a, s, lits).code);
    AtFits(vm.code, vm.ip + LoopLength(e, s, lits) - 3, JumpOp(OP_JUMP, 3 - LoopLength(e, s, lits) - 3));
    Static(e, s);
    var back: int := LoopLength(e, s, lits);
    DoJump(w, step, vm1, OP_JUMP, -back);
    var vm3 := vm1.(ip := vm.ip);
    Once(step, vm1, vm3);
    ChainOn(st, st1, After(e, s));
    n, vm2 := SimLoop(w, step, fuel - 1, e, s, lits, me, st1, vm3);
    Then(step, vm1, 1, vm3, n, vm2);
    n := n + 1;
  }

  // ---- Three parts ----

  lemma {:induction false} SimThree(w: World, step: Vm -> Out, fuel: nat, e: Expr, s: Scopes, lits: seq<Value>,
                                    me: Me, st: St, vm: Vm) returns (n: nat, vm2: Vm)
    requires e.Three?
    requires Drives(w, step) && Context(e, s, me, st, vm) && Loaded(vm, 0, EmitThree(e, s, lits))
    ensures Goes(step, vm, n, vm2)
    ensures Matches(EvalThree(w, fuel, Room(vm), e, s, me, st), me, st, vm, vm2, |EmitThree(e, s, lits).code|)
    decreases fuel, 1, e, 4
  {
    if e.k3.If? {
      LoadIf(e, s, lits, vm);
      n, vm2 := SimIf(w, step, fuel, e, s, lits, me, st, vm, EvalThree(w, fuel, Room(vm), e, s, me, st));
    } else {
      n, vm2 := Idle(step, vm);
    }
  }

  // `whole` is the result of the conditional.
  lemma {:induction false} SimIf(w: World, step: Vm -> Out, fuel: nat, e: Expr, s: Scopes, lits: seq<Value>,
                                 me: Me, st: St, vm: Vm, whole: Res)
    returns (n: nat, vm2: Vm)
    requires e.Three? && e.k3.If?
    requires Drives(w, step) && Context(e, s, me, st, vm)
    requires whole == EvalThree(w, fuel, Room(vm), e, s, me, st)
    requires Loaded(vm, 0, Emit(e.a, s, lits))
    requires BranchesLoaded(e, s, Emit(e.a, s, lits).lits, vm, |Emit(e.a, s, lits).code|)
    ensures Goes(step, vm, n, vm2)
    ensures Matches(whole, me, st, vm, vm2, |Emit(e.a, s, lits).code| + BranchesLength(e, s, Emit(e.a, s, lits).lits))
    decreases fuel, 1, e, 3
  {
    ConditionContext(e, s, me, st, vm);
    n, vm2 := Sim(w, step, fuel, e.a, s, lits, me, st, vm);
    var r := Eval(w, fuel, Room(vm), e.a, s, me, st);
    if r.Val? {
      BranchesContext(e, s, Emit(e.a, s, lits), me, st, vm, r.st, vm2);
      var n2, vm3 := SimBranches(w, step, fuel, e, s, Emit(e.a, s, lits).lits, me, r.st, vm2);
      n, vm2 := Joined(step, r, whole, me, st, vm, n, vm2, n2, vm3, |Emit(e.a, s, lits).code|,
                       BranchesLength(e, s, Emit(e.a, s, lits).lits));
    }
  }

  // From the state the condition leads to.
  lemma BranchesContext(e: Expr, s: Scopes, em: Emitted, me: Me, st: St, vm: Vm, st1: St, vm1: Vm)
    requires e.Three? && Context(e, s, me, st, vm) && BranchesLoaded(e, s, em.lits, vm, |em.code|)
    requires Arrives(vm, vm1, vm1.acc, |em.code|) && Agree(me, st1, vm1) && Ext(st.heap, st1.heap)
    ensures Context(e, s, me, st1, vm1) && BranchesLoaded(e, s, em.lits, vm1, 0)
  {
    ChainOn(st, st1, After(e, s));
  }

  lemma ConditionContext(e: Expr, s: Scopes, me: Me, st: St, vm: Vm)
    requires e.Three? && e.k3.If? && Context(e, s, me, st, vm)
    ensures Context(e.a, s, me, st, vm)
  {
    Static(e, s);
    var s2 := After(e.b, After(e.a, s));
    ChainPrefix(st.heap, st.env, s2, After(e.c, s2));
    ChainPrefix(st.heap, st.env, After(e.a, s), s2);
  }

  // The conditional jump and both branches, `off` bytes on.
  predicate BranchesLoaded(e: Expr, s: Scopes, lits: seq<Value>, vm: Vm, off: nat)
    requires e.Three?
  {
    var r2 := Emit(e.b, After(e.a, s), lits);
    var r3 := Emit(e.c, After(e.b, After(e.a, s)), r2.lits);
    && At(vm.code, vm.ip + off, JumpOp(OP_JUMP_FALSE, |r2.code| + 3))
    && Loaded(vm, off + 3, r2)
    && At(vm.code, vm.ip + off + 3 + |r2.code|, JumpOp(OP_JUMP, |r3.code|))
    && Loaded(vm, off + |r2.code| + 6, r3)
  }

  function BranchesLength(e: Expr, s: Scopes, lits: seq<Value>): nat
    requires e.Three?
  {
    var r2 := Emit(e.b, After(e.a, s), lits);
    |r2.code| + |Emit(e.c, After(e.b, After(e.a, s)), r2.lits).code| + 6
  }

  lemma LoadIf(e: Expr, s: Scopes, lits: seq<Value>, vm: Vm)
    requires e.Three? && e.k3.If? && Loaded(vm, 0, EmitThree(e, s, lits))
    ensures Loaded(vm, 0, Emit(e.a, s, lits))
    ensures BranchesLoaded(e, s, Emit(e.a, s, lits).lits, vm, |Emit(e.a, s, lits).code|)
    ensures |EmitThree(e, s, lits).code| == |Emit(e.a, s, lits).code| + BranchesLength(e, s, Emit(e.a, s, lits).lits)
  {
    LayoutIf(e, s, lits, vm.code, vm.ip);
  }

  // The conditional jump and the branch it leads to.
  lemma {:induction false} SimBranches(w: World, step: Vm -> Out, fuel: nat, e: Expr, s: Scopes, lits: seq<Value>,
                                       me: Me, st: St, vm: Vm) returns (n: nat, vm2: Vm)
    requires e.Three? && e.k3.If?
    requires Drives(w, step) && Context(e, s, me, st, vm) && BranchesLoaded(e, s, lits, vm, 0)
    ensures Goes(step, vm, n, vm2)
    ensures Matches(EvalBranch(w, fuel, Room(vm), vm.acc, e, s, me, st), me, st, vm, vm2, BranchesLength(e, s, lits))
    decreases fuel, 1, e, 2
  {
    AtFits(vm.code, vm.ip + |Emit(e.b, After(e.a, s), lits).code| + 6,
           Emit(e.c, After(e.b, After(e.a, s)), Emit(e.b, After(e.a, s), lits).lits).code);
    Static(e, s);
    var s1 := After(e.a, s);
    var s2 := After(e.b, s1);
    var r2 := Emit(e.b, s1, lits);
    AtFits(vm.code, vm.ip, JumpOp(OP_JUMP_FALSE, |r2.code| + 3));
    var vm1 := SimExit(w, step, |r2.code|, vm);
    Once(step, vm, vm1);
    if vm.acc != FALSE {
      ChainPrefix(st.heap, st.env, s2, After(e.c, s2));
      n, vm2 := SimBranch(w, step, fuel, e.b, s1, lits, |Emit(e.c, s2, r2.lits).code|, me, st, vm1);
    } else {
      n, vm2 := Sim(w, step, fuel, e.c, s2, r2.lits, me, st, vm1);
    }
    Then(step, vm, 1, vm1, n, vm2);
    n := n + 1;
  }

  // An expression followed by a jump over `len` bytes.
  lemma {:induction false} SimBranch(w: World, step: Vm -> Out, fuel: nat, e: Expr, s: Scopes, lits: seq<Value>,
                                     len: nat, me: Me, st: St, vm: Vm) returns (n: nat, vm2: Vm)
    requires Drives(w, step) && Context(e, s, me, st, vm) && Loaded(vm, 0, Emit(e, s, lits))
    requires At(vm.code, vm.ip + |Emit(e, s, lits).code|, JumpOp(OP_JUMP, len)) && len < 0x8000
    ensures Goes(step, vm, n, vm2)
    ensures Matches(Eval(w, fuel, Room(vm), e, s, me, st), me, st, vm, vm2, |Emit(e, s, lits).code| + 3 + len)
    decreases fuel, 1, e, 7
  {
    n, vm2 := Sim(w, step, fuel, e, s, lits, me, st, vm);
    if Eval(w, fuel, Room(vm), e, s, me, st).Val? {
      DoJump(w, step, vm2, OP_JUMP, len);
      var vm3 := vm2.(ip := vm2.ip + 3 + len);
      ThenOnce(step, vm, n, vm2, vm3);
      n, vm2 := n + 1, vm3;
    }
  }

  // ---- Calls ----

  // A new argument vector is allocated and pushed.
  lemma SimPrepare(w: World, step: Vm -> Out, argc: nat, me: Me, st: St, vm: Vm) returns (vm2: Vm)
    requires Drives(w, step) && Agree(me, st, vm) && At(vm.code, vm.ip, PrepareCall(argc)) && argc < 255
    requires |vm.stack| < STACK_LENGTH
    ensures Goes(step, vm, 2, vm2)
    ensures vm2 == vm.(acc := vm2.acc, stack := vm.stack + [Ref(|st.heap|)], ip := vm.ip + 3, heap := vm2.heap)
    ensures Agree(me, NewArgs(st, argc), vm2) && Ext(st.heap, NewArgs(st, argc).heap)
  {
    assert PrepareCall(argc) == [OP_VECTOR, B(argc + 1)] + [OP_PUSH];
    AtSplit(vm.code, vm.ip, [OP_VECTOR, B(argc + 1)], [OP_PUSH]);
    var vec := Vec(Nulls(argc + 1));
    DoVector(w, step, vm, argc + 1);
    var vm1 := vm.(heap := vm.heap + [vec], acc := Ref(|vm.heap|), ip := vm.ip + 2);
    DoPush(w, step, vm1);
    AllocAgrees(st.heap, vm.heap, SVec(Nulls(argc + 1)), vec);
    vm2 := vm1.(stack := vm.stack + [vm1.acc], ip := vm.ip + 3);
    Once(step, vm, vm1);
    ThenOnce(step, vm, 1, vm1, vm2);
  }

  // The arguments are in their vector, which is still on top of the stack.
  predicate MatchesArgs(r: Res, me: Me, st: St, vm: Vm, vm2: Vm, len: nat) {
    match r
    case Val(_, st2) =>
      && vm2 == vm.(acc := vm2.acc, ip := vm.ip + len, heap := vm2.heap, globals := vm2.globals)
      && Agree(me, st2, vm2) && Ext(st.heap, st2.heap)
    case Ret(_, _) => false
    case Stuck => true
  }

  lemma {:induction false} SimArgs(w: World, step: Vm -> Out, fuel: nat, es: Exprs, k: nat, argv: nat, s: Scopes,
                                   lits: seq<Value>, me: Me, st: St, vm: Vm, base: seq<Value>) returns (n: nat, vm2: Vm)
    requires Drives(w, step) && Agree(me, st, vm) && Sized(vm) && Loaded(vm, 0, EmitArgs(es, k, s, lits))
    requires ChainOk(st.heap, st.env, AfterAll(es, s)) && FitsAll(es, s) && NoReturns(es)
    requires vm.stack == base + [Ref(argv)] && k + Count(es) <= 256
    ensures Goes(step, vm, n, vm2)
    ensures MatchesArgs(EvalArgs(w, fuel, Room(vm), es, k, argv, s, me, st), me, st, vm, vm2,
                        |EmitArgs(es, k, s, lits).code|)
    decreases fuel, 1, es, 2
  {
    if es.Nil? {
      n, vm2 := 0, vm;
    } else {
      var r1 := Emit(es.head, s, lits);
      AtSplit3(vm.code, vm.ip, r1.code, AtPut(k), EmitArgs(es.tail, k + 1, After(es.head, s), r1.lits).code);
      n, vm2 := SimFirstArg(w, step, fuel, es, k, argv, s, lits, me, st, vm, base);
    }
  }

  lemma {:induction false} SimFirstArg(w: World, step: Vm -> Out, fuel: nat, es: Exprs, k: nat, argv: nat, s: Scopes,
                                       lits: seq<Value>, me: Me, st: St, vm: Vm, base: seq<Value>)
    returns (n: nat, vm2: Vm)
    requires es.Cons? && Drives(w, step) && Agree(me, st, vm) && Sized(vm)
    requires var r1 := Emit(es.head, s, lits);
             && Loaded(vm, 0, r1) && At(vm.code, vm.ip + |r1.code|, AtPut(k))
             && Loaded(vm, |r1.code| + 2, EmitArgs(es.tail, k + 1, After(es.head, s), r1.lits))
    requires ChainOk(st.heap, st.env, AfterAll(es, s)) && FitsAll(es, s) && NoReturns(es)
    requires vm.stack == base + [Ref(argv)] && k + Count(es) <= 256
    ensures Goes(step, vm, n, vm2)
    ensures var r1 := Emit(es.head, s, lits);
            MatchesArgs(EvalArgs(w, fuel, Room(vm), es, k, argv, s, me, st), me, st, vm, vm2,
                        |r1.code| + 2 + |EmitArgs(es.tail, k + 1, After(es.head, s), r1.lits).code|)
    decreases fuel, 1, es, 1
  {
    HeadOfListContext(es, s, me, st, vm);
    NoReturnIsSafe(es.head, s == []);
    NoReturnNoRet(w, fuel, Room(vm), es.head, s, me, st);
    n, vm2 := Sim(w, step, fuel, es.head, s, lits, me, st, vm);
    var r := Eval(w, fuel, Room(vm), es.head, s, me, st);
    if r.Val? {
      ChainOn(st, r.st, AfterAll(es, s));
      var n2, vm3 := SimStoreArg(w, step, fuel, es, k, argv, s, Emit(es.head, s, lits).lits, me, r.st, vm2, base);
      Then(step, vm, n, vm2, n2, vm3);
      n, vm2 := n + n2, vm3;
    }
  }

  lemma HeadOfListContext(es: Exprs, s: Scopes, me: Me, st: St, vm: Vm)
    requires es.Cons? && Agree(me, st, vm) && ChainOk(st.heap, st.env, AfterAll(es, s))
    ensures ChainOk(st.heap, st.env, After(es.head, s))
  {
    ChainPrefix(st.heap, st.env, After(es.head, s), AfterAll(es.tail, After(es.head, s)));
  }

  // The value of the first argument is stored, the others follow.
  lemma {:induction false} SimStoreArg(w: World, step: Vm -> Out, fuel: nat, es: Exprs, k: nat, argv: nat, s: Scopes,
                                       lits: seq<Value>,
                                       me: Me, st: St, vm: Vm, base: seq<Value>) returns (n: nat, vm2: Vm)
    requires es.Cons? && Drives(w, step) && Agree(me, st, vm) && Sized(vm)
    requires At(vm.code, vm.ip, AtPut(k)) && Loaded(vm, 2, EmitArgs(es.tail, k + 1, After(es.head, s), lits))
    requires ChainOk(st.heap, st.env, AfterAll(es, s)) && FitsAll(es, s) && NoReturns(es)
    requires vm.stack == base + [Ref(argv)] && k + Count(es) <= 256
    ensures Goes(step, vm, n, vm2)
    ensures var t := StoreArg(st, argv, k, vm.acc);
            t.Some? ==>
              MatchesArgs(EvalArgs(w, fuel, Room(vm), es.tail, k + 1, argv, After(es.head, s), me, t.value), me, st,
                          vm, vm2, |EmitArgs(es.tail, k + 1, After(es.head, s), lits).code| + 2)
    decreases fuel, 1, es, 0
  {
    var t := StoreArg(st, argv, k, vm.acc);
    if t.None? {
      n, vm2 := 0, vm;
    } else {
      HeapDef(st.heap, vm.heap);
      assert CellAgrees(st.heap[argv], vm.heap[argv]);
      var elems := vm.heap[argv].elems[k := vm.acc];
      DoAtPut(w, step, vm, base, argv, k);
      UpdateAgrees(st.heap, vm.heap, argv, SVec(elems), Vec(elems));
      var vm1 := vm.(heap := vm.heap[argv := Vec(elems)], ip := vm.ip + 2);
      Once(step, vm, vm1);
      ChainOn(st, t.value, AfterAll(es, s));
      n, vm2 := SimArgs(w, step, fuel, es.tail, k + 1, argv, After(es.head, s), lits, me, t.value, vm1, base);
      Then(step, vm, 1, vm1, n, vm2);
      n := n + 1;
    }
  }

  // The machine on entry to a closure agrees with the state in which the
  // function body is evaluated.
  lemma EnterAgrees(fn: SCell, argv: nat, me: Me, st: St, vm: Vm, c: Cell, vm1: Vm)
    requires Agree(me, st, vm) && fn.SFunction? && CellAgrees(fn, c) && ChainOk(st.heap, fn.env, fn.scopes)
    requires argv < |st.heap| && st.heap[argv].SVec? && |st.heap[argv].elems| == |fn.params| + 1
    requires vm.heap[argv].Vec? && vm.heap[argv].elems != [] && vm1 == Enter(vm, c.meth, argv, c.self)
    ensures var st1 := St(st.heap[argv := SScope(fn.env, fn.params, BindParams(fn.params, st.heap[argv].elems[1..]))],
                          st.globals, Ref(argv));
            && Agree(Me(fn.self, if (fn.flags / SETUID) % 2 == 1 then fn.owner else me.effuid), st1, vm1)
            && Ext(st.heap, st1.heap) && ChainOk(st1.heap, st1.env, [fn.params] + fn.scopes)
  {
    HeapDef(st.heap, vm.heap);
    assert CellAgrees(st.heap[argv], vm.heap[argv]);
    var elems := st.heap[argv].elems;
    var scope := SScope(fn.env, fn.params, BindParams(fn.params, elems[1..]));
    CallSlots(fn, elems);
    UpdateAgrees(st.heap, vm.heap, argv, scope, Vec(elems[0 := fn.env]));
    ChainExt(st.heap, st.heap[argv := scope], fn.env, fn.scopes);
    var h := st.heap[argv := scope];
    ChainDef(h, Ref(argv), [fn.params] + fn.scopes);
    assert ([fn.params] + fn.scopes)[1..] == fn.scopes;
  }

  // A finished block on entry: everything the simulation of its body needs.
  lemma BodyLoaded(fn: SCell, vm: Vm)
    requires fn.SFunction? && BlockFits(fn.params, fn.body, fn.scopes) && vm.ip == 0
    requires var m := EmitTemplate(fn.params, fn.body, fn.scopes); vm.code == m.code && vm.lits == m.lits
    ensures var em := Emit(fn.body, [fn.params] + fn.scopes, []);
            && Loaded(vm, 0, em) && At(vm.code, |em.code|, [OP_RET])
            && |vm.code| < MAX_CODE && |vm.lits| <= MAX_LITS
  {
    var em := Emit(fn.body, [fn.params] + fn.scopes, []);
    assert vm.code[0..0 + |em.code + [OP_RET]|] == em.code + [OP_RET];
    AtHere(vm.code, 0, em.code + [OP_RET]);
    AtSplit(vm.code, 0, em.code, [OP_RET]);
  }

  // A function body runs up to its return.
  lemma {:induction false} SimFunction(w: World, step: Vm -> Out, fuel: nat, fn: SCell, me: Me, st: St, vm: Vm)
    returns (n: nat, vm2: Vm)
    requires Drives(w, step) && fn.SFunction? && BlockFits(fn.params, fn.body, fn.scopes)
    requires var m := EmitTemplate(fn.params, fn.body, fn.scopes); vm.code == m.code && vm.lits == m.lits && vm.ip == 0
    requires Agree(me, st, vm) && ChainOk(st.heap, st.env, [fn.params] + fn.scopes) && |vm.stack| <= STACK_LENGTH
    ensures Goes(step, vm, n, vm2)
    ensures match Eval(w, fuel, Room(vm), fn.body, [fn.params] + fn.scopes, me, st)
            case Stuck => true
            case r => Returning(vm, vm2, r.v) && HeapAgrees(r.st.heap, vm2.heap) && r.st.globals == vm2.globals
                      && Ext(st.heap, r.st.heap)
    decreases fuel + 1, 0, 0
  {
    var s := [fn.params] + fn.scopes;
    BodyLoaded(fn, vm);
    n, vm2 := Sim(w, step, fuel, fn.body, s, [], me, st, vm);
  }

  // What is left of a call when the function body is done.
  function Returned(r: Res, env: Value): Res {
    match r
    case Val(v, st) => Val(v, st.(env := env))
    case Ret(v, st) => Val(v, st.(env := env))
    case Stuck => Stuck
  }

  // From its first instruction, a function runs and returns to `caller`.
  lemma {:induction false} SimCalled(w: World, step: Vm -> Out, fuel: nat, fn: SCell, me: Me, st: St, me1: Me, st1: St,
                                     caller: Vm, vm: Vm) returns (n: nat, vm2: Vm)
    requires Drives(w, step) && fn.SFunction? && BlockFits(fn.params, fn.body, fn.scopes)
    requires var m := EmitTemplate(fn.params, fn.body, fn.scopes); vm.code == m.code && vm.lits == m.lits && vm.ip == 0
    requires Agree(me1, st1, vm) && ChainOk(st1.heap, st1.env, [fn.params] + fn.scopes) && |vm.stack| <= STACK_LENGTH
    requires vm.frame == SavedFrame(caller) && caller.code != [] && vm.stack == caller.stack
    requires vm.trap == caller.trap && vm.uid == caller.uid && vm.state == caller.state
    requires me == Me(caller.self, caller.effuid) && st.env == caller.env && Ext(st.heap, st1.heap)
    ensures Goes(step, vm, n, vm2)
    ensures Matches(Returned(Eval(w, fuel, Room(vm), fn.body, [fn.params] + fn.scopes, me1, st1), st.env), me, st,
                    caller, vm2, 0)
    decreases fuel + 1, 0, 1
  {
    n, vm2 := SimFunction(w, step, fuel, fn, me1, st1, vm);
    if !Eval(w, fuel, Room(vm), fn.body, [fn.params] + fn.scopes, me1, st1).Stuck? {
      var vm3 := SimReturn(w, step, caller, vm, vm2);
      ThenOnce(step, vm, n, vm2, vm3);
      n, vm2 := n + 1, vm3;
    }
  }

  // Applying a closure runs its body and returns here.
  lemma {:induction false} SimInvoke(w: World, step: Vm -> Out, fuel: nat, f: Value, argv: nat, me: Me, st: St,
                                     vm: Vm, base: seq<Value>) returns (n: nat, vm2: Vm)
    requires Drives(w, step) && Agree(me, st, vm) && At(vm.code, vm.ip, [OP_APPLY])
    requires vm.acc == f && vm.stack == base + [Ref(argv)] && |vm.stack| <= STACK_LENGTH
    ensures Goes(step, vm, n, vm2)
    ensures Matches(Invoke(w, fuel, STACK_LENGTH - |base|, f, argv, me, st), me, st, vm.(stack := base), vm2, 1)
    decreases fuel, 0, 2
  {
    if Invoke(w, fuel, STACK_LENGTH - |base|, f, argv, me, st).Stuck? {
      n, vm2 := 0, vm;
    } else {
      var fn, c := st.heap[f.a], vm.heap[f.a];
      HeapDef(st.heap, vm.heap);
      assert CellAgrees(fn, c) && CellAgrees(st.heap[argv], vm.heap[argv]);
      assert ChainOk(st.heap, st.heap[f.a].env, st.heap[f.a].scopes);
      AtFits(vm.code, vm.ip, [OP_APPLY]);
      DoApplyClosure(w, step, vm, base, f.a, argv);
      var caller := vm.(stack := base, ip := vm.ip + 1);
      var vm1 := Enter(caller, c.meth, argv, c.self);
      EnterAgrees(fn, argv, me, st, caller, c, vm1);
      Once(step, vm, vm1);
      var st1 := St(st.heap[argv := SScope(fn.env, fn.params, BindParams(fn.params, st.heap[argv].elems[1..]))],
                    st.globals, Ref(argv));
      n, vm2 := SimCalled(w, step, fuel - 1, fn, me, st, Me(vm1.self, vm1.effuid), st1, caller, vm1);
      Then(step, vm, 1, vm1, n, vm2);
      n := n + 1;
    }
  }

  // Returning restores the caller.
  lemma SimReturn(w: World, step: Vm -> Out, caller: Vm, entry: Vm, vm: Vm) returns (vm2: Vm)
    requires Drives(w, step) && Returning(entry, vm, vm.acc) && entry.frame == SavedFrame(caller) && caller.code != []
    requires entry.stack == caller.stack && entry.trap == caller.trap && entry.uid == caller.uid
             && entry.state == caller.state
    ensures step(vm) == Run(vm2)
    ensures vm2 == caller.(acc := vm.acc, heap := vm.heap, globals := vm.globals)
  {
    DoReturn(w, step, vm);
    vm2 := Restore(vm, vm.frame);
  }

  lemma {:induction false} SimHeaded(w: World, step: Vm -> Out, fuel: nat, e: Expr, s: Scopes, lits: seq<Value>,
                                     me: Me, st: St, vm: Vm) returns (n: nat, vm2: Vm)
    requires e.Headed?
    requires Drives(w, step) && Context(e, s, me, st, vm) && Loaded(vm, 0, EmitHeaded(e, s, lits))
    ensures Goes(step, vm, n, vm2)
    ensures Matches(EvalHeaded(w, fuel, Room(vm), e, s, me, st), me, st, vm, vm2, |EmitHeaded(e, s, lits).code|)
    decreases fuel, 1, e, 5
  {
    if e.kh.Send? {
      n, vm2 := Idle(step, vm);
    } else {
      LoadApply(e, s, lits, vm);
      var em := Emit(e.a, s, lits);
      var r := Eval(w, fuel, Room(vm), e.a, s, me, st);
      n, vm2 := SimApply(w, step, fuel, e, s, lits, me, st, vm, em, EmitArgs(e.es, 1, After(e.a, s), em.lits), r,
                         if r.Val? then EvalApplied(w, fuel, Room(vm), r.v, e.es, After(e.a, s), me, r.st) else r);
    }
  }

  // The code of an application after the callee is computed, `off` bytes on.
  predicate CallLoaded(es: Exprs, s: Scopes, lits: seq<Value>, vm: Vm, off: nat) {
    var r2 := EmitArgs(es, 1, s, lits);
    && At(vm.code, vm.ip + off, [OP_PUSH])
    && At(vm.code, vm.ip + off + 1, PrepareCall(Count(es)))
    && Loaded(vm, off + 4, r2)
    && At(vm.code, vm.ip + off + 4 + |r2.code|, FETCH_CALLEE)
    && At(vm.code, vm.ip + off + 6 + |r2.code|, [OP_APPLY])
  }

  lemma LoadApply(e: Expr, s: Scopes, lits: seq<Value>, vm: Vm)
    requires e.Headed? && e.kh.Apply? && Loaded(vm, 0, EmitHeaded(e, s, lits))
    ensures Loaded(vm, 0, Emit(e.a, s, lits))
    ensures CallLoaded(e.es, After(e.a, s), Emit(e.a, s, lits).lits, vm, |Emit(e.a, s, lits).code|)
    ensures |EmitHeaded(e, s, lits).code| ==
            |Emit(e.a, s, lits).code| + |EmitArgs(e.es, 1, After(e.a, s), Emit(e.a, s, lits).lits).code| + 7
  {
    LayoutApply(e, s, lits, vm.code, vm.ip);
  }

  // `em` and `args` are the code of callee and arguments, `r` and `whole` the
  // results of the callee and of the application.
  lemma {:induction false} SimApply(w: World, step: Vm -> Out, fuel: nat, e: Expr, s: Scopes, lits: seq<Value>,
                                    me: Me, st: St, vm: Vm, em: Emitted, args: Emitted, r: Res, whole: Res)
    returns (n: nat, vm2: Vm)
    requires e.Headed? && e.kh.Apply? && Sized(vm) && r == Eval(w, fuel, Room(vm), e.a, s, me, st)
    requires whole == if r.Val? then EvalApplied(w, fuel, Room(vm), r.v, e.es, After(e.a, s), me, r.st) else r
    requires em == Emit(e.a, s, lits) && args == EmitArgs(e.es, 1, After(e.a, s), em.lits)
    requires Drives(w, step) && Context(e, s, me, st, vm) && Loaded(vm, 0, em)
    requires CallLoaded(e.es, After(e.a, s), em.lits, vm, |em.code|)
    ensures Goes(step, vm, n, vm2)
    ensures Matches(whole, me, st, vm, vm2, |em.code| + |args.code| + 7)
    decreases fuel, 1, e, 4
  {
    HeadContext(e, s, me, st, vm);
    n, vm2 := Sim(w, step, fuel, e.a, s, lits, me, st, vm);
    if r.Val? {
      n, vm2 := SimBehindCallee(w, step, fuel, e.es, After(e.a, s), me, st, vm, n, vm2, em, args, r, whole);
    }
  }

  lemma {:induction false} SimBehindCallee(w: World, step: Vm -> Out, fuel: nat, es: Exprs, s: Scopes, me: Me, st: St,
                                           vm: Vm, n: nat, vm1: Vm, em: Emitted, args: Emitted, r: Res, whole: Res)
    returns (m: nat, vm2: Vm)
    requires Drives(w, step) && Sized(vm) && Goes(step, vm, n, vm1) && r.Val? && Matches(r, me, st, vm, vm1, |em.code|)
    requires whole == EvalApplied(w, fuel, Room(vm), r.v, es, s, me, r.st) && args == EmitArgs(es, 1, s, em.lits)
    requires CallLoaded(es, s, em.lits, vm, |em.code|) && st.env == vm.env
    requires ChainOk(st.heap, st.env, AfterAll(es, s)) && FitsAll(es, s) && NoReturns(es) && Count(es) < 255
    ensures Goes(step, vm, m, vm2) && Matches(whole, me, st, vm, vm2, |em.code| + |args.code| + 7)
    decreases fuel, 1, es, 6
  {
    CalleeContext(es, s, em, me, st, vm, r.st, vm1);
    var n2, vm3 := SimCallee(w, step, fuel, es, s, em.lits, me, r.st, vm1);
    m, vm2 := Joined(step, r, whole, me, st, vm, n, vm1, n2, vm3, |em.code|, |args.code| + 7);
  }

  // From the state the callee leads to.
  lemma CalleeContext(es: Exprs, s: Scopes, em: Emitted, me: Me, st: St, vm: Vm, st1: St, vm1: Vm)
    requires CallLoaded(es, s, em.lits, vm, |em.code|) && Sized(vm) && ChainOk(st.heap, st.env, AfterAll(es, s))
    requires Arrives(vm, vm1, vm1.acc, |em.code|) && Agree(me, st1, vm1) && Ext(st.heap, st1.heap) && st1.env == st.env
    ensures CallLoaded(es, s, em.lits, vm1, 0) && Sized(vm1) && ChainOk(st1.heap, st1.env, AfterAll(es, s))
  {
    ChainOn(st, st1, AfterAll(es, s));
  }

  lemma HeadContext(e: Expr, s: Scopes, me: Me, st: St, vm: Vm)
    requires e.Headed? && Context(e, s, me, st, vm)
    ensures Context(e.a, s, me, st, vm)
    ensures ChainOk(st.heap, st.env, AfterAll(e.es, After(e.a, s)))
    ensures FitsAll(e.es, After(e.a, s)) && NoReturns(e.es) && Count(e.es) < 255
  {
    Static(e, s);
    ChainPrefix(st.heap, st.env, After(e.a, s), AfterAll(e.es, After(e.a, s)));
  }

  // The callee is pushed, the arguments follow, both are fetched and applied.
  lemma {:induction false} SimCallee(w: World, step: Vm -> Out, fuel: nat, es: Exprs, s: Scopes, lits: seq<Value>,
                                     me: Me, st: St, vm: Vm) returns (n: nat, vm2: Vm)
    requires Drives(w, step) && Agree(me, st, vm) && Sized(vm) && CallLoaded(es, s, lits, vm, 0)
    requires ChainOk(st.heap, st.env, AfterAll(es, s)) && FitsAll(es, s) && NoReturns(es) && Count(es) < 255
    ensures Goes(step, vm, n, vm2)
    ensures Matches(EvalApplied(w, fuel, Room(vm), vm.acc, es, s, me, st), me, st, vm, vm2,
                    |EmitArgs(es, 1, s, lits).code| + 7)
    decreases fuel, 1, es, 5
  {
    if Room(vm) < 2 {
      n, vm2 := Idle(step, vm);
      return;
    }
    DoPush(w, step, vm);
    var vm1 := vm.(stack := vm.stack + [vm.acc], ip := vm.ip + 1);
    Once(step, vm, vm1);
    n, vm2 := SimCalleePushed(w, step, fuel, es, s, lits, me, st, vm, vm1, Room(vm));
    Then(step, vm, 1, vm1, n, vm2);
    n := n + 1;
  }

  // From `vm1`, where the callee has been pushed.
  lemma {:induction false} SimCalleePushed(w: World, step: Vm -> Out, fuel: nat, es: Exprs, s: Scopes, lits: seq<Value>,
                                           me: Me, st: St, vm: Vm, vm1: Vm, room: nat)
    returns (n: nat, vm2: Vm)
    requires Drives(w, step) && Agree(me, st, vm1) && Sized(vm1) && Room(vm1) >= 1 && room == Room(vm1) + 1
    requires vm1 == vm.(stack := vm.stack + [vm.acc], ip := vm.ip + 1)
    requires var r2 := EmitArgs(es, 1, s, lits);
             && At(vm1.code, vm1.ip, PrepareCall(Count(es))) && Loaded(vm1, 3, r2)
             && At(vm1.code, vm1.ip + 3 + |r2.code|, FETCH_CALLEE) && At(vm1.code, vm1.ip + 5 + |r2.code|, [OP_APPLY])
    requires ChainOk(st.heap, st.env, AfterAll(es, s)) && FitsAll(es, s) && NoReturns(es) && Count(es) < 255
    ensures Goes(step, vm1, n, vm2)
    ensures Matches(EvalApplied(w, fuel, room, vm.acc, es, s, me, st), me, st, vm, vm2,
                    |EmitArgs(es, 1, s, lits).code| + 7)
    decreases fuel, 1, es, 4
  {
    n, vm2 := SimArguments(w, step, fuel, es, s, lits, me, st, vm1);
    var r := EvalArgs(w, fuel, Room(vm1) - 1, es, 1, |st.heap|, s, me, NewArgs(st, Count(es)));
    n, vm2 := FinishCallee(w, step, fuel, r, |st.heap|, me, st, vm, vm1, room, n, vm2,
                           |EmitArgs(es, 1, s, lits).code| + 3);
  }

  // The arguments have come to the result `r`.
  lemma {:induction false} FinishCallee(w: World, step: Vm -> Out, fuel: nat, r: Res, argv: nat, me: Me, st: St, vm: Vm,
                                        vm1: Vm, room: nat, n: nat, vm2: Vm, len: nat)
    returns (m: nat, end: Vm)
    requires Drives(w, step) && Sized(vm1) && Room(vm1) >= 1 && room == Room(vm1) + 1
    requires vm1 == vm.(stack := vm.stack + [vm.acc], ip := vm.ip + 1)
    requires Goes(step, vm1, n, vm2) && MatchesArgs(r, me, st, vm1.(stack := vm1.stack + [Ref(argv)]), vm2, len)
    requires At(vm1.code, vm1.ip + len, FETCH_CALLEE) && At(vm1.code, vm1.ip + len + 2, [OP_APPLY])
    ensures Goes(step, vm1, m, end)
    ensures Matches(if r.Val? then Invoke(w, fuel, room, vm.acc, argv, me, r.st) else r, me, st, vm, end, len + 4)
    decreases fuel, 0, 4
  {
    m, end := n, vm2;
    if r.Val? {
      var b := vm2.(acc := vm.acc, stack := vm.stack);
      var n2, vm3 := SimFetched(w, step, fuel, vm.acc, argv, me, r.st, vm2, vm.stack);
      m, end := JoinedOver(step, r, Invoke(w, fuel, room, vm.acc, argv, me, r.st), me, st, vm, b, vm1, n, vm2, n2, vm3,
                           len + 1, 3);
    }
  }

  // Callee and argument vector are fetched from the stack and applied.
  lemma {:induction false} SimFetched(w: World, step: Vm -> Out, fuel: nat, f: Value, argv: nat, me: Me, st: St,
                                      vm: Vm, base: seq<Value>) returns (n: nat, vm2: Vm)
    requires Drives(w, step) && Agree(me, st, vm) && At(vm.code, vm.ip, FETCH_CALLEE)
             && At(vm.code, vm.ip + 2, [OP_APPLY])
    requires vm.stack == base + [f] + [Ref(argv)] && |vm.stack| <= STACK_LENGTH
    ensures Goes(step, vm, n, vm2)
    ensures Matches(Invoke(w, fuel, STACK_LENGTH - |base|, f, argv, me, st), me, st, vm.(acc := f, stack := base), vm2,
                    3)
    decreases fuel, 0, 3
  {
    assert vm.stack == base + [f, Ref(argv)];
    DoFetchCallee(w, step, vm, base, f, Ref(argv));
    var vm1 := vm.(acc := f, stack := base + [Ref(argv)], ip := vm.ip + 2);
    n, vm2 := SimInvoke(w, step, fuel, f, argv, me, st, vm1, base);
    Then(step, vm, 2, vm1, n, vm2);
    n := n + 2;
  }

  // A new argument vector is pushed and filled.
  lemma {:induction false} SimArguments(w: World, step: Vm -> Out, fuel: nat, es: Exprs, s: Scopes, lits: seq<Value>,
                                        me: Me, st: St, vm: Vm) returns (n: nat, vm2: Vm)
    requires Drives(w, step) && Agree(me, st, vm) && Sized(vm) && Room(vm) >= 1
    requires At(vm.code, vm.ip, PrepareCall(Count(es))) && Loaded(vm, 3, EmitArgs(es, 1, s, lits))
    requires ChainOk(st.heap, st.env, AfterAll(es, s)) && FitsAll(es, s) && NoReturns(es) && Count(es) < 255
    ensures Goes(step, vm, n, vm2)
    ensures var base := vm.(stack := vm.stack + [Ref(|st.heap|)]);
            MatchesArgs(EvalArgs(w, fuel, Room(vm) - 1, es, 1, |st.heap|, s, me, NewArgs(st, Count(es))),
                        me, st, base, vm2, |EmitArgs(es, 1, s, lits).code| + 3)
    decreases fuel, 1, es, 3
  {
    var vm1 := SimPrepare(w, step, Count(es), me, st, vm);
    ChainOn(st, NewArgs(st, Count(es)), AfterAll(es, s));
    n, vm2 := SimArgs(w, step, fuel, es, 1, |st.heap|, s, lits, me, NewArgs(st, Count(es)), vm1, vm.stack);
    Then(step, vm, 2, vm1, n, vm2);
    n := n + 2;
  }

  // ---- Blocks, vectors and calls of plain names ----

  lemma {:induction false} SimMany(w: World, step: Vm -> Out, fuel: nat, k: FormN, es: Exprs, s: Scopes,
                                   lits: seq<Value>, me: Me, st: St, vm: Vm) returns (n: nat, vm2: Vm)
    requires Drives(w, step) && Context(Many(k, es), s, me, st, vm) && Loaded(vm, 0, EmitMany(k, es, s, lits))
    ensures Goes(step, vm, n, vm2)
    ensures Matches(EvalMany(w, fuel, Room(vm), k, es, s, me, st), me, st, vm, vm2, |EmitMany(k, es, s, lits).code|)
    decreases fuel, 1, es, 6
  {
    Static(Many(k, es), s);
    match k
    case Block => n, vm2 := SimBlock(w, step, fuel, es, s, lits, me, st, vm);
    case VecLit => n, vm2 := SimVector(w, step, fuel, es, s, lits, me, st, vm);
    case Call(x) => n, vm2 := SimCall(w, step, fuel, x, es, s, lits, me, st, vm);
  }

  lemma {:induction false} SimCall(w: World, step: Vm -> Out, fuel: nat, x: Sym, es: Exprs, s: Scopes, lits: seq<Value>,
                                   me: Me, st: St, vm: Vm) returns (n: nat, vm2: Vm)
    requires Drives(w, step) && Agree(me, st, vm) && Sized(vm) && Loaded(vm, 0, EmitMany(Call(x), es, s, lits))
    requires ChainOk(st.heap, st.env, AfterAll(es, s)) && FitsAll(es, s) && NoReturns(es) && Count(es) < 255
    requires PlaceFits(AfterAll(es, s), x)
    ensures Goes(step, vm, n, vm2)
    ensures Matches(EvalCall(w, fuel, Room(vm), x, es, s, me, st), me, st, vm, vm2,
                    |EmitMany(Call(x), es, s, lits).code|)
    decreases fuel, 1, es, 5
  {
    LayoutCall(x, es, s, lits, vm.code, vm.ip);
    if Room(vm) == 0 {
      n, vm2 := Idle(step, vm);
    } else {
      var args := EmitArgs(es, 1, s, lits);
      var r := EvalArgs(w, fuel, Room(vm) - 1, es, 1, |st.heap|, s, me, NewArgs(st, Count(es)));
      n, vm2 := SimPrepared(w, step, fuel, x, es, s, lits, me, st, vm, args, VarRef(x, AfterAll(es, s), args.lits), r,
                            if r.Val? then EvalNamed(w, fuel, Room(vm), x, |st.heap|, AfterAll(es, s), me, r.st)
                            else r);
    }
  }

  // `args` and `name` are the code of arguments and callee, `r` and `whole` the
  // results of the arguments and of the call.
  lemma {:induction false} SimPrepared(w: World, step: Vm -> Out, fuel: nat, x: Sym, es: Exprs, s: Scopes,
                                       lits: seq<Value>, me: Me, st: St, vm: Vm, args: Emitted, name: Emitted, r: Res,
                                       whole: Res) returns (n: nat, vm2: Vm)
    requires Drives(w, step) && Agree(me, st, vm) && Sized(vm) && Room(vm) > 0
    requires args == EmitArgs(es, 1, s, lits) && name == VarRef(x, AfterAll(es, s), args.lits)
    requires r == EvalArgs(w, fuel, Room(vm) - 1, es, 1, |st.heap|, s, me, NewArgs(st, Count(es)))
    requires whole == if r.Val? then EvalNamed(w, fuel, Room(vm), x, |st.heap|, AfterAll(es, s), me, r.st) else r
    requires At(vm.code, vm.ip, PrepareCall(Count(es))) && Loaded(vm, 3, args) && Loaded(vm, 3 + |args.code|, name)
    requires At(vm.code, vm.ip + 3 + |args.code| + |name.code|, [OP_APPLY])
    requires ChainOk(st.heap, st.env, AfterAll(es, s)) && FitsAll(es, s) && NoReturns(es) && Count(es) < 255
    requires PlaceFits(AfterAll(es, s), x)
    ensures Goes(step, vm, n, vm2)
    ensures Matches(whole, me, st, vm, vm2, 4 + |args.code| + |name.code|)
    decreases fuel, 1, es, 4
  {
    n, vm2 := SimArguments(w, step, fuel, es, s, lits, me, st, vm);
    if r.Val? {
      n, vm2 := SimPreparedNamed(w, step, fuel, x, AfterAll(es, s), args.lits, me, st, r.st, vm, n, vm2,
                                 3 + |args.code|);
    }
  }

  // After `n` instructions and `len` bytes the arguments are in place.
  lemma {:induction false} SimPreparedNamed(w: World, step: Vm -> Out, fuel: nat, x: Sym, s: Scopes, lits: seq<Value>,
                                            me: Me, st: St, st1: St, vm: Vm, n: nat, vm1: Vm, len: nat)
    returns (m: nat, vm2: Vm)
    requires Drives(w, step) && Sized(vm) && Room(vm) > 0 && Goes(step, vm, n, vm1) && Agree(me, st1, vm1)
    requires vm1 == vm.(acc := vm1.acc, stack := vm.stack + [Ref(|st.heap|)], ip := vm.ip + len, heap := vm1.heap,
                        globals := vm1.globals)
    requires Loaded(vm, len, VarRef(x, s, lits)) && At(vm.code, vm.ip + len + |VarRef(x, s, lits).code|, [OP_APPLY])
    requires ChainOk(st.heap, st.env, s) && PlaceFits(s, x) && Ext(st.heap, st1.heap) && st1.env == st.env
    ensures Goes(step, vm, m, vm2)
    ensures Matches(EvalNamed(w, fuel, Room(vm), x, |st.heap|, s, me, st1), me, st, vm, vm2,
                    len + |VarRef(x, s, lits).code| + 1)
    decreases fuel, 0, 4
  {
    ChainOn(st, st1, s);
    var n2, vm3 := SimNamed(w, step, fuel, x, |st.heap|, s, lits, me, st1, vm1, vm.stack);
    m, vm2 := JoinedOver(step, Val(Null, st1), EvalNamed(w, fuel, Room(vm), x, |st.heap|, s, me, st1), me, st, vm,
                         vm1.(stack := vm.stack), vm, n, vm1, n2, vm3, len, |VarRef(x, s, lits).code| + 1);
  }

  // A variable is read and applied.
  lemma {:induction false} SimNamed(w: World, step: Vm -> Out, fuel: nat, x: Sym, argv: nat, s: Scopes,
                                    lits: seq<Value>,
                                    me: Me, st: St, vm: Vm, base: seq<Value>) returns (n: nat, vm2: Vm)
    requires Drives(w, step) && Agree(me, st, vm) && Sized(vm) && Loaded(vm, 0, VarRef(x, s, lits))
    requires At(vm.code, vm.ip + |VarRef(x, s, lits).code|, [OP_APPLY])
    requires ChainOk(st.heap, st.env, s) && PlaceFits(s, x) && vm.stack == base + [Ref(argv)]
    ensures Goes(step, vm, n, vm2)
    ensures Matches(EvalNamed(w, fuel, STACK_LENGTH - |base|, x, argv, s, me, st), me, st, vm.(stack := base), vm2,
                    |VarRef(x, s, lits).code| + 1)
    decreases fuel, 0, 3
  {
    var vm1 := SimRead(w, step, x, s, lits, me, st, vm);
    n, vm2 := SimInvoke(w, step, fuel, vm1.acc, argv, me, st, vm1, base);
    Then(step, vm, 1, vm1, n, vm2);
    n := n + 1;
  }

  lemma {:induction false} SimVector(w: World, step: Vm -> Out, fuel: nat, es: Exprs, s: Scopes, lits: seq<Value>,
                                     me: Me, st: St, vm: Vm) returns (n: nat, vm2: Vm)
    requires Drives(w, step) && Agree(me, st, vm) && Sized(vm) && Loaded(vm, 0, EmitMany(VecLit, es, s, lits))
    requires ChainOk(st.heap, st.env, AfterAll(es, s)) && FitsAll(es, s) && Count(es) < 256
    requires es.Nil? || (ReturnSafe(es.head, s == []) && NoReturns(es.tail))
    ensures Goes(step, vm, n, vm2)
    ensures Matches(EvalVector(w, fuel, Room(vm), es, s, me, st), me, st, vm, vm2, |EmitMany(VecLit, es, s, lits).code|)
    decreases fuel, 1, es, 4
  {
    if es.Nil? {
      n, vm2 := SimLit(w, step, Ref(ZERO_VECTOR), lits, me, st, vm);
    } else {
      AtSplit(vm.code, vm.ip, EmitPushed(es, s, lits).code, [OP_MAKE_VECTOR, B(Count(es))]);
      n, vm2 := SimPushed(w, step, fuel, es, s, lits, me, st, vm);
      var r := EvalPushed(w, fuel, Room(vm), es, s, me, st);
      if r.Vals? {
        DoMakeVector(w, step, vm2, vm.stack, r.vs);
        AllocAgrees(r.st.heap, vm2.heap, SVec(r.vs), Vec(r.vs));
        var (h, v) := NewVector(vm2.heap, r.vs);
        var vm3 := vm2.(heap := h, acc := v, stack := vm.stack, ip := vm2.ip + 2);
        ThenOnce(step, vm, n, vm2, vm3);
        n, vm2 := n + 1, vm3;
      }
    }
  }

  // The elements end up on the stack in order.
  predicate MatchesSeq(r: ResSeq, me: Me, st: St, vm: Vm, vm2: Vm, count: nat, len: nat) {
    match r
    case Vals(vs, st2) =>
      && vm2 == vm.(acc := vm2.acc, stack := vm.stack + vs, ip := vm.ip + len, heap := vm2.heap, globals := vm2.globals)
      && |vs| == count && Agree(me, st2, vm2) && Ext(st.heap, st2.heap)
    case RetSeq(v, st2) => Matches(Ret(v, st2), me, st, vm, vm2, len)
    case StuckSeq => true
  }

  // One more element in front.
  function Preceded(v: Value, r: ResSeq): ResSeq {
    if r.Vals? then Vals([v] + r.vs, r.st) else r
  }

  lemma JoinedSeq(step: Vm -> Out, r: Res, r2: ResSeq, me: Me, st: St, vm: Vm, n: nat, vm2: Vm, n2: nat, vm3: Vm,
                  count: nat, len: nat, len2: nat) returns (m: nat, end: Vm)
    requires r.Val? && Goes(step, vm, n, vm2) && Matches(r, me, st, vm, vm2, len)
    requires Goes(step, vm2, n2, vm3) && MatchesSeq(r2, me, r.st, vm2, vm3, count, len2) && !r2.RetSeq?
    ensures Goes(step, vm, m, end) && MatchesSeq(r2, me, st, vm, end, count, len + len2)
  {
    Then(step, vm, n, vm2, n2, vm3);
    m, end := n + n2, vm3;
  }

  lemma {:induction false} SimPushed(w: World, step: Vm -> Out, fuel: nat, es: Exprs, s: Scopes, lits: seq<Value>,
                                     me: Me, st: St, vm: Vm) returns (n: nat, vm2: Vm)
    requires Drives(w, step) && Loaded(vm, 0, EmitPushed(es, s, lits)) && Agree(me, st, vm) && Sized(vm)
    requires ChainOk(st.heap, st.env, AfterAll(es, s)) && FitsAll(es, s)
    requires es.Nil? || (ReturnSafe(es.head, s == []) && NoReturns(es.tail))
    ensures Goes(step, vm, n, vm2)
    ensures MatchesSeq(EvalPushed(w, fuel, Room(vm), es, s, me, st), me, st, vm, vm2, Count(es),
                       |EmitPushed(es, s, lits).code|)
    decreases fuel, 1, es, 2
  {
    if es.Nil? {
      n, vm2 := 0, vm;
      assert vm.stack + [] == vm.stack;
    } else {
      var r1 := Emit(es.head, s, lits);
      var more := EmitPushed(es.tail, After(es.head, s), r1.lits);
      AtSplit3(vm.code, vm.ip, r1.code, [OP_PUSH], more.code);
      n, vm2 := SimFirstPushed(w, step, fuel, es, s, lits, me, st, vm, r1, more,
                               EvalPushed(w, fuel, Room(vm), es, s, me, st));
    }
  }

  // `em` is the code of the first element, `more` that of the others, `whole`
  // what they all result in.
  lemma {:induction false} SimFirstPushed(w: World, step: Vm -> Out, fuel: nat, es: Exprs, s: Scopes, lits: seq<Value>,
                                          me: Me, st: St, vm: Vm, em: Emitted, more: Emitted, whole: ResSeq)
    returns (n: nat, vm2: Vm)
    requires es.Cons? && Drives(w, step) && Agree(me, st, vm) && Sized(vm)
    requires whole == EvalPushed(w, fuel, Room(vm), es, s, me, st)
    requires em == Emit(es.head, s, lits) && more == EmitPushed(es.tail, After(es.head, s), em.lits)
    requires Loaded(vm, 0, em) && At(vm.code, vm.ip + |em.code|, [OP_PUSH]) && Loaded(vm, |em.code| + 1, more)
    requires ChainOk(st.heap, st.env, AfterAll(es, s)) && FitsAll(es, s)
    requires ReturnSafe(es.head, s == []) && NoReturns(es.tail)
    ensures Goes(step, vm, n, vm2)
    ensures MatchesSeq(whole, me, st, vm, vm2, Count(es), |em.code| + 1 + |more.code|)
    decreases fuel, 1, es, 1
  {
    HeadOfListContext(es, s, me, st, vm);
    n, vm2 := Sim(w, step, fuel, es.head, s, lits, me, st, vm);
    var r := Eval(w, fuel, Room(vm), es.head, s, me, st);
    if r.Val? && Room(vm) > 0 {
      TailContext(es, s, em, more, me, st, vm, r.st, vm2);
      var n2, vm3 := SimPushedTail(w, step, fuel, es, s, em.lits, me, r.st, vm2);
      n, vm2 := JoinedSeq(step, r, whole, me, st, vm, n, vm2, n2, vm3, Count(es), |em.code|, |more.code| + 1);
    }
  }

  // From the state the first element leads to.
  lemma TailContext(es: Exprs, s: Scopes, em: Emitted, more: Emitted, me: Me, st: St, vm: Vm, st1: St, vm1: Vm)
    requires ChainOk(st.heap, st.env, AfterAll(es, s)) && Sized(vm)
    requires At(vm.code, vm.ip + |em.code|, [OP_PUSH]) && Loaded(vm, |em.code| + 1, more)
    requires Arrives(vm, vm1, vm1.acc, |em.code|) && Agree(me, st1, vm1) && Ext(st.heap, st1.heap) && st1.env == st.env
    ensures ChainOk(st1.heap, st1.env, AfterAll(es, s)) && Sized(vm1)
    ensures At(vm1.code, vm1.ip, [OP_PUSH]) && Loaded(vm1, 1, more)
  {
    ChainOn(st, st1, AfterAll(es, s));
  }

  // The first element is pushed, the others follow.
  lemma {:induction false} SimPushedTail(w: World, step: Vm -> Out, fuel: nat, es: Exprs, s: Scopes, lits: seq<Value>,
                                         me: Me, st: St, vm: Vm) returns (n: nat, vm2: Vm)
    requires es.Cons? && Drives(w, step) && Agree(me, st, vm) && Sized(vm) && Room(vm) > 0
    requires At(vm.code, vm.ip, [OP_PUSH]) && Loaded(vm, 1, EmitPushed(es.tail, After(es.head, s), lits))
    requires ChainOk(st.heap, st.env, AfterAll(es, s)) && FitsAll(es, s) && NoReturns(es.tail)
    ensures Goes(step, vm, n, vm2)
    ensures var r := EvalPushed(w, fuel, Room(vm) - 1, es.tail, After(es.head, s), me, st);
            !r.RetSeq? && MatchesSeq(Preceded(vm.acc, r), me, st, vm, vm2, Count(es),
                                     |EmitPushed(es.tail, After(es.head, s), lits).code| + 1)
    decreases fuel, 1, es, 0
  {
    var s1 := After(es.head, s);
    DoPush(w, step, vm);
    var vm1 := vm.(stack := vm.stack + [vm.acc], ip := vm.ip + 1);
    Once(step, vm, vm1);
    NoReturnsNoRetSeq(w, fuel, Room(vm1), es.tail, s1, me, st);
    if es.tail.Cons? { NoReturnIsSafe(es.tail.head, s1 == []); }
    n, vm2 := SimPushed(w, step, fuel, es.tail, s1, lits, me, st, vm1);
    Then(step, vm, 1, vm1, n, vm2);
    n := n + 1;
    var r := EvalPushed(w, fuel, Room(vm1), es.tail, s1, me, st);
    if r.Vals? {
      assert vm.stack + [vm.acc] + r.vs == vm.stack + ([vm.acc] + r.vs);
    }
  }

  // The machine after OP_ENTER_SCOPE agrees with the opened scope.
  lemma SimOpen(w: World, step: Vm -> Out, names: seq<Sym>, s: Scopes, me: Me, st: St, vm: Vm) returns (vm2: Vm)
    requires Drives(w, step) && Agree(me, st, vm) && ChainOk(st.heap, st.env, s)
    requires At(vm.code, vm.ip, [OP_ENTER_SCOPE, B(|names|)]) && |names| < 256
    ensures step(vm) == Run(vm2)
    ensures vm2 == vm.(heap := vm2.heap, env := Ref(|st.heap|), ip := vm.ip + 2)
    ensures Agree(me, OpenScope(st, names), vm2) && Ext(st.heap, OpenScope(st, names).heap)
    ensures ChainOk(OpenScope(st, names).heap, Ref(|st.heap|), [names] + s)
  {
    var c := Vec([vm.env] + Nulls(|names|));
    DoEnterScope(w, step, vm, |names|);
    FreshSlots(names, st.env);
    AllocAgrees(st.heap, vm.heap, SScope(st.env, names, map[]), c);
    ChainExt(st.heap, OpenScope(st, names).heap, st.env, s);
    ChainDef(OpenScope(st, names).heap, Ref(|st.heap|), [names] + s);
    assert ([names] + s)[1..] == s;
    vm2 := vm.(heap := vm.heap + [c], env := Ref(|vm.heap|), ip := vm.ip + 2);
  }

  lemma {:induction false} SimBlock(w: World, step: Vm -> Out, fuel: nat, es: Exprs, s: Scopes, lits: seq<Value>,
                                    me: Me, st: St, vm: Vm) returns (n: nat, vm2: Vm)
    requires Drives(w, step) && Loaded(vm, 0, EmitMany(Block, es, s, lits)) && Agree(me, st, vm) && Sized(vm)
    requires ChainOk(st.heap, st.env, s) && FitsAll(es, [[]] + s) && |BlockNames(es, s)| < 256 && ReturnsSafe(es)
    ensures Goes(step, vm, n, vm2)
    ensures Matches(EvalBlock(w, fuel, Room(vm), es, s, me, st), me, st, vm, vm2, |EmitMany(Block, es, s, lits).code|)
    decreases fuel, 1, es, 4
  {
    if es.Nil? {
      n, vm2 := SimLit(w, step, UNDEFINED, lits, me, st, vm);
    } else {
      var names := BlockNames(es, s);
      AtSplit3(vm.code, vm.ip, [OP_ENTER_SCOPE, B(|names|)], EmitAll(es, [[]] + s, lits).code, [OP_LEAVE_SCOPE]);
      var vm1 := SimOpen(w, step, names, s, me, st, vm);
      Once(step, vm, vm1);
      assert ([[]] + s)[1..] == s && AfterAll(es, [[]] + s) == [names] + s;
      var st1 := OpenScope(st, names);
      n, vm2 := SimAll(w, step, fuel, es, [[]] + s, lits, me, st1, vm1);
      Then(step, vm, 1, vm1, n, vm2);
      n := n + 1;
      var r := EvalAll(w, fuel, Room(vm), es, [[]] + s, me, st1);
      if r.Val? {
        var vm3 := SimLeave(w, step, st.env, me, r.st, vm2);
        ThenOnce(step, vm, n, vm2, vm3);
        n, vm2 := n + 1, vm3;
      }
    }
  }

  // OP_LEAVE_SCOPE goes back to the enclosing scope.
  lemma SimLeave(w: World, step: Vm -> Out, env: Value, me: Me, st: St, vm: Vm) returns (vm2: Vm)
    requires Drives(w, step) && Agree(me, st, vm) && At(vm.code, vm.ip, [OP_LEAVE_SCOPE])
    requires IsScope(st.heap, st.env) && st.heap[st.env.a].parent == env
    ensures step(vm) == Run(vm2)
    ensures vm2 == vm.(env := env, ip := vm.ip + 1) && Agree(me, st.(env := env), vm2)
  {
    HeapDef(st.heap, vm.heap);
    assert CellAgrees(st.heap[st.env.a], vm.heap[st.env.a]);
    DoLeaveScope(w, step, vm);
    vm2 := vm.(env := env, ip := vm.ip + 1);
  }

  lemma {:induction false} SimAll(w: World, step: Vm -> Out, fuel: nat, es: Exprs, s: Scopes, lits: seq<Value>,
                                  me: Me, st: St, vm: Vm) returns (n: nat, vm2: Vm)
    requires Drives(w, step) && Loaded(vm, 0, EmitAll(es, s, lits)) && Agree(me, st, vm) && Sized(vm)
    requires ChainOk(st.heap, st.env, AfterAll(es, s)) && FitsAll(es, s) && ReturnsSafe(es) && s != []
    ensures Goes(step, vm, n, vm2)
    ensures Matches(EvalAll(w, fuel, Room(vm), es, s, me, st), me, st, vm, vm2, |EmitAll(es, s, lits).code|)
    decreases fuel, 1, es, 1
  {
    if es.Nil? {
      n, vm2 := Idle(step, vm);
    } else {
      var r1 := Emit(es.head, s, lits);
      var s1 := After(es.head, s);
      AtSplit(vm.code, vm.ip, r1.code, EmitAll(es.tail, s1, r1.lits).code);
      ChainPrefix(st.heap, st.env, s1, AfterAll(es.tail, s1));
      n, vm2 := Sim(w, step, fuel, es.head, s, lits, me, st, vm);
      var r := Eval(w, fuel, Room(vm), es.head, s, me, st);
      if r.Val? && es.tail.Cons? {
        ChainOn(st, r.st, AfterAll(es, s));
        var n2, vm3 := SimAll(w, step, fuel, es.tail, s1, r1.lits, me, r.st, vm2);
        n, vm2 := Joined(step, r, EvalAll(w, fuel, Room(vm), es.tail, s1, me, r.st), me, st, vm, n, vm2, n2, vm3,
                         |r1.code|, |EmitAll(es.tail, s1, r1.lits).code|);
      }
    }
  }

  // ---- Main theorems ----

  // The machine of world `w`.
  function Stepper(w: World): Vm -> Out {
    vm => Instr(w, vm)
  }

  // Whenever direct evaluation of `e` yields a value, running the emitted
  // bytes from the first one reaches the byte just past the last with that
  // value in the accumulator; stack, environment register and every other
  // register are as before, and heap, locals and globals are those of direct
  // evaluation.
  lemma CompilerCorrect(w: World, fuel: nat, e: Expr, s: Scopes, lits: seq<Value>, me: Me, st: St, vm: Vm, v: Value,
                        st2: St)
    requires Context(e, s, me, st, vm) && Loaded(vm, 0, Emit(e, s, lits))
    requires Eval(w, fuel, Room(vm), e, s, me, st) == Val(v, st2)
    ensures exists n: nat, vm2: Vm ::
              && Goes(Stepper(w), vm, n, vm2)
              && Arrives(vm, vm2, v, |Emit(e, s, lits).code|)
              && Agree(me, st2, vm2)
  {
    var n, vm2 := Sim(w, Stepper(w), fuel, e, s, lits, me, st, vm);
  }

  // A call of a function value, at any depth of nested calls inside it, comes
  // back to the instruction after OP_APPLY with the function's value and the
  // caller's registers.
  lemma CallCorrect(w: World, fuel: nat, f: Value, argv: nat, me: Me, st: St, vm: Vm, base: seq<Value>, v: Value,
                    st2: St)
    requires Agree(me, st, vm) && At(vm.code, vm.ip, [OP_APPLY]) && vm.acc == f
    requires vm.stack == base + [Ref(argv)] && |vm.stack| <= STACK_LENGTH
    requires Invoke(w, fuel, STACK_LENGTH - |base|, f, argv, me, st) == Val(v, st2)
    ensures exists n: nat, vm2: Vm ::
              && Goes(Stepper(w), vm, n, vm2)
              && Arrives(vm.(stack := base), vm2, v, 1)
              && Agree(me, st2, vm2)
  {
    var n, vm2 := SimInvoke(w, Stepper(w), fuel, f, argv, me, st, vm, base);
  }
}
