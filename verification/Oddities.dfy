// Where the machine does something other than one might expect: an input, and
// exactly when.
module Oddities {
  import opened Bytes
  import opened Values
  import opened Machine
  import opened Syntax
  import opened Scoping
  import opened Emission
  import opened Limits
  import opened Semantics
  import opened Agreement
  import opened Execution
  import opened Correctness
  import opened Returns
  import opened Heights
  import opened Blocks
  import Compiler
  import Programs
  import Safety
  import Exceptions

  // ---- Negation and complement ----

  // What the instruction does once its operand is in the accumulator: it
  // looks at the top of the stack, which it does not use, and on an empty
  // stack below it.
  function UnaryOutcome(w: World, op: byte, vm: Vm): Out {
    if vm.stack == [] then Bad
    else if vm.acc.Num? && Top(vm).Num?
    then Run(vm.(acc := Num(if op == OP_NEG then Wrap62(-vm.acc.n) else -vm.acc.n - 1), ip := vm.ip + 1))
    else TypeError(w, vm, vm.acc)
  }

  // The emitted code of `-a` or `~a`, where `a` has value `v`: it gives the
  // result exactly if `v` is a number and, by chance, the pending operand on
  // top of the stack is one too.
  lemma UnaryLooksAtStack(w: World, step: Vm -> Out, fuel: nat, op: UnaryOp, a: Expr, s: Scopes, lits: seq<Value>,
                          me: Me, st: St, vm: Vm) returns (n: nat, vm2: Vm)
    requires op == OP_NEG || op == OP_BNOT
    requires var e := One(Unary(op), a); Drives(w, step) && Context(e, s, me, st, vm) && Loaded(vm, 0, Emit(e, s, lits))
    requires Eval(w, fuel, Room(vm), a, s, me, st).Val?
    ensures Goes(step, vm, n, vm2) && vm2.stack == vm.stack && vm2.acc == Eval(w, fuel, Room(vm), a, s, me, st).v
    ensures vm2.ip == vm.ip + |Emit(a, s, lits).code| && step(vm2) == UnaryOutcome(w, op, vm2)
    ensures step(vm2).Run? <==> vm2.acc.Num? && vm.stack != [] && Top(vm).Num?
  {
    var e := One(Unary(op), a);
    Static(e, s);
    assert Emit(e, s, lits) == EmitOne(e, s, lits);
    LayoutOne(e, s, lits, vm.code, vm.ip);
    n, vm2 := Sim(w, step, fuel, a, s, lits, me, st, vm);
    Fetch1(w, step, vm2, op);
    UnaryExec(w, vm2, op);
  }

  lemma UnaryExec(w: World, vm: Vm, op: byte)
    requires op == OP_NEG || op == OP_BNOT
    ensures Exec(w, vm, op, 0, 0) == UnaryOutcome(w, op, vm)
    ensures UnaryOutcome(w, op, vm).Run? <==> vm.acc.Num? && vm.stack != [] && Top(vm).Num?
  {
  }

  // The program `-5` reads below its empty stack.
  lemma MinusFive(w: World, step: Vm -> Out, vm: Vm)
    requires Drives(w, step) && vm.stack == []
    requires Programs.Starting(Compiler.Program(One(Unary(OP_NEG), Lit(Num(5)))), vm)
    ensures Steps(step, 2, vm) == Bad
  {
    var e := One(Unary(OP_NEG), Lit(Num(5)));
    assert Emit(Lit(Num(5)), [], []) == LitOp(OP_A_LITL, Num(5), []);
    assert Emit(e, [], []) == EmitOne(e, [], []);
    assert vm.code == [OP_A_LITL, 0, OP_NEG, OP_RET] && vm.lits == [Num(5)];
    DoLiteral(w, step, vm, 0) by { AtHere(vm.code, 0, [OP_A_LITL, 0]); }
    var vm1 := vm.(acc := Num(5), ip := 2);
    Fetch1(w, step, vm1, OP_NEG) by { AtHere(vm.code, 2, [OP_NEG]); }
    UnaryExec(w, vm1, OP_NEG);
    assert Steps(step, 1, vm1) == Bad;
  }

  // ---- Handlers ----

  // An executable handler that takes the four arguments of an exception.
  predicate HandlesWell(w: World, vm: Vm) {
    IsClosure(vm.heap, vm.trap) &&
    var m := vm.heap[vm.trap.a].meth; w.canRun(m.flags, m.owner, vm.effuid) && m.argc == 4
  }

  lemma HandlerStarts(w: World, vm: Vm, exc: Value, arg: Value)
    requires HandlesWell(w, vm)
    ensures var o := Raise(w, vm, exc, arg);
            o.Raised? && o.vm.ip == 0 && o.vm.code == vm.heap[vm.trap.a].meth.code && o.vm.stack == []
  {
  }

  // Any exception an operator raises starts the handler at its first byte,
  // except division or remainder by zero, which starts it at the second.
  lemma HandlerEntry(w: World, vm: Vm, op: byte)
    requires HandlesWell(w, vm) && vm.stack != [] && OP_NOT <= op <= OP_PERCENT && Len(op) > 0
    requires ExecArith(w, vm, op).Raised?
    ensures var v := ExecArith(w, vm, op).vm;
            && v.code == vm.heap[vm.trap.a].meth.code && v.stack == []
            && v.ip == if (op == OP_SLASH || op == OP_PERCENT) && vm.acc == Num(0) && Top(vm).Num? then 1 else 0
  {
    HandlerStarts(w, vm, SymVal("divide-by-zero"), Null);
    HandlerStarts(w, vm, SymVal("vm-runtime-type-error"), vm.acc);
  }

  // Of a safe machine that divides by zero: the handler is at an instruction
  // exactly if its first one is a single byte and not its last.
  lemma ZeroDivisionPlaced(w: World, vm: Vm)
    requires Safety.GoodWorld(w, false) && Safety.Safe(vm, false) && HandlesWell(w, vm) && Exceptions.ZeroDivision(vm)
    ensures var o := Instr(w, vm);
            var code := vm.heap[vm.trap.a].meth.code;
            o.Raised? && code != [] && (Safety.Safe(o.vm, false) <==> Len(code[0]) == 1 && |code| > 1)
  {
    var m := vm.heap[vm.trap.a].meth;
    assert Safety.GoodCell(vm.heap[vm.trap.a], false);
    var v := Raise(w, vm, SymVal("divide-by-zero"), Null).vm;
    HandlerStarts(w, vm, SymVal("divide-by-zero"), Null);
    RaisedSafe(w, vm, SymVal("divide-by-zero"), Null);
    Safety.SafeFetches(vm, false);
    assert Instr(w, vm) == Raised(v.(ip := 1));
    SecondByte(v, v.(ip := 1));
  }

  lemma RaisedSafe(w: World, vm: Vm, exc: Value, arg: Value)
    requires Safety.Safe(vm, false) && Safety.GoodValue(exc) && Safety.GoodValue(arg) && HandlesWell(w, vm)
    ensures Raise(w, vm, exc, arg).Raised? && Safety.Safe(Raise(w, vm, exc, arg).vm, false)
    ensures Raise(w, vm, exc, arg).vm.frame.NoFrame?
  {
    var cell := vm.heap[vm.trap.a];
    assert Safety.GoodCell(cell, false);
    Exceptions.RaiseStateSafe(vm, exc, arg);
    Safety.Entering(RaiseState(vm, exc, arg), cell.meth, |vm.heap|, cell.self, false);
  }

  lemma SecondByte(v: Vm, v1: Vm)
    requires Safety.Safe(v, false) && v.ip == 0 && v1 == v.(ip := 1) && v.frame.NoFrame?
    ensures v.code != [] && (Safety.Safe(v1, false) <==> Len(v.code[0]) == 1 && |v.code| > 1)
  {
    Entry(v.code);
    Fetchable(v.code, 0, 0);
    Unfold(v.code, 1, 0);
    if Len(v.code[0]) == 1 && |v.code| > 1 {
      FallsThrough(v.code, 0, 0);
    }
  }

  // A handler that starts with a literal: it is entered at the literal's
  // index, which here reads as an element access.
  lemma HandlerMisread(w: World, vm: Vm)
    requires HandlesWell(w, vm) && vm.stack != [] && vm.acc == Num(0) && Top(vm).Num?
    requires vm.heap[vm.trap.a].meth.code == [OP_A_LITL, 0, OP_RET]
    ensures var o := ExecArith(w, vm, OP_SLASH); o.Raised? && o.vm.ip == 1 && o.vm.code[1] == OP_AT
  {
    HandlerStarts(w, vm, SymVal("divide-by-zero"), Null);
  }

  // ---- A `define` without braces ----

  // A `define` that is itself the body of a function, without braces, has its
  // name added to the parameters' scope, but the environment of a call holds
  // the arguments only: the place it writes to is inside that vector exactly
  // if the name is a parameter.
  lemma BareDefine(params: seq<Sym>, x: Sym, h: Heap, argv: nat)
    requires argv < |h| && h[argv].Vec? && |h[argv].elems| == 1 + |params|
    ensures var scopes := Declare([params], x);
            var p := Lookup(scopes, x);
            && p.Some? && p.value.frame == 0
            && (Local(h, Ref(argv), 0, p.value.offset).Some? <==> x in params)
  {
    var scopes := Declare([params], x);
    var i := Find(scopes[0], x).value;
    if x in params {
      assert scopes == [params];
    } else {
      assert scopes[0] == params + [x];
      assert i == |params|;
    }
  }

  // The body `define x = 1` of a function without parameters writes beyond
  // the argument vector.
  lemma DefineBeyond(w: World, step: Vm -> Out, vm: Vm, argv: nat)
    requires Drives(w, step) && vm.ip == 0 && vm.env == Ref(argv)
    requires argv < |vm.heap| && vm.heap[argv].Vec? && |vm.heap[argv].elems| == 1
    requires var r := Emit(One(Define("x"), Lit(Num(1))), [[]], []); vm.code == r.code + [OP_RET] && vm.lits == r.lits
    ensures Steps(step, 2, vm) == Bad
  {
    var e := One(Define("x"), Lit(Num(1)));
    assert Emit(Lit(Num(1)), Declare([[]], "x"), []) == LitOp(OP_A_LITL, Num(1), []);
    assert Emit(e, [[]], []) == EmitOne(e, [[]], []);
    assert Declare([[]], "x")[0] == ["x"];
    assert vm.code == [OP_A_LITL, 0, OP_LOCL_A, 0, 0, OP_RET] && vm.lits == [Num(1)];
    DoLiteral(w, step, vm, 0) by { AtHere(vm.code, 0, [OP_A_LITL, 0]); }
    var vm1 := vm.(acc := Num(1), ip := 2);
    assert step(vm1) == Instr(w, vm1);
    assert Steps(step, 1, vm1) == Bad;
  }
}
