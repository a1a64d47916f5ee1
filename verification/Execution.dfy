// What single instructions do, read off the bytes at the instruction pointer,
// and how runs are put together.
module Execution {
  import opened Bytes
  import opened Values
  import opened Machine
  import opened Emission

  // `bs` stands in `code` at position `p`.  The definition stands behind two
  // more layers, so that a proof that only passes the fact on does not unfold
  // the recursion; AtDef opens it.
  predicate At(code: seq<byte>, p: int, bs: seq<byte>)
    decreases |bs|, 2
  {
    AtFirst(code, p, bs)
  }

  predicate AtFirst(code: seq<byte>, p: int, bs: seq<byte>)
    decreases |bs|, 1
  {
    AtEach(code, p, bs)
  }

  predicate AtEach(code: seq<byte>, p: int, bs: seq<byte>)
    decreases |bs|, 0
  {
    if bs == [] then 0 <= p <= |code|
    else 0 <= p < |code| && code[p] == bs[0] && At(code, p + 1, bs[1..])
  }

  // The definition, for where it is needed.
  lemma AtDef(code: seq<byte>, p: int, bs: seq<byte>)
    ensures At(code, p, bs) == AtEach(code, p, bs)
  {
    assert AtFirst(code, p, bs) == AtEach(code, p, bs);
  }

  lemma {:induction false} AtFits(code: seq<byte>, p: int, bs: seq<byte>)
    requires At(code, p, bs)
    ensures 0 <= p && p + |bs| <= |code|
    decreases |bs|
  {
    AtDef(code, p, bs);
    if bs != [] {
      AtFits(code, p + 1, bs[1..]);
    }
  }

  lemma {:induction false} AtHere(code: seq<byte>, p: nat, bs: seq<byte>)
    requires p + |bs| <= |code| && code[p..p + |bs|] == bs
    ensures At(code, p, bs)
    decreases |bs|
  {
    AtDef(code, p, bs);
    if bs != [] {
      assert code[p] == code[p..p + |bs|][0];
      assert code[p + 1..p + 1 + |bs[1..]|] == bs[1..];
      AtHere(code, p + 1, bs[1..]);
    }
  }

  lemma {:induction false} AtSplit(code: seq<byte>, p: int, a: seq<byte>, b: seq<byte>)
    requires At(code, p, a + b)
    ensures At(code, p, a) && At(code, p + |a|, b)
    decreases |a|
  {
    AtDef(code, p, a);
    AtDef(code, p, a + b);
    if a == [] {
      assert a + b == b;
      AtFits(code, p, b);
    } else {
      assert (a + b)[1..] == a[1..] + b;
      AtSplit(code, p + 1, a[1..], b);
    }
  }

  // Seen from `k` bytes further on.
  lemma AtMoved(vm: Vm, vm1: Vm, k: int, off: int, bs: seq<byte>)
    requires vm1.code == vm.code && vm1.ip == vm.ip + k && At(vm.code, vm.ip + k + off, bs)
    ensures At(vm1.code, vm1.ip + off, bs)
  {
  }

  lemma AtSplit3(code: seq<byte>, p: int, a: seq<byte>, b: seq<byte>, c: seq<byte>)
    requires At(code, p, a + b + c)
    ensures At(code, p, a) && At(code, p + |a|, b) && At(code, p + |a| + |b|, c)
  {
    AtSplit(code, p, a + b, c);
    AtSplit(code, p, a, b);
  }

  lemma AtSplit4(code: seq<byte>, p: int, a: seq<byte>, b: seq<byte>, c: seq<byte>, d: seq<byte>)
    requires At(code, p, a + b + c + d)
    ensures At(code, p, a) && At(code, p + |a|, b) && At(code, p + |a| + |b|, c) && At(code, p + |a| + |b| + |c|, d)
  {
    AtSplit(code, p, a + b + c, d);
    AtSplit3(code, p, a, b, c);
  }

  // ---- Runs ----

  // `n` instructions lead from `a` to `b`.
  ghost predicate Goes(step: Vm -> Out, a: Vm, n: nat, b: Vm) {
    Steps(step, n, a) == Run(b)
  }

  lemma Once(step: Vm -> Out, a: Vm, b: Vm)
    requires step(a) == Run(b)
    ensures Goes(step, a, 1, b)
  {
    assert Steps(step, 0, b) == Run(b);
  }

  lemma Then(step: Vm -> Out, a: Vm, m: nat, b: Vm, n: nat, c: Vm)
    requires Goes(step, a, m, b) && Goes(step, b, n, c)
    ensures Goes(step, a, m + n, c)
  {
    StepsAdd(step, m, n, a, b);
  }

  lemma ThenOnce(step: Vm -> Out, a: Vm, m: nat, b: Vm, c: Vm)
    requires Goes(step, a, m, b) && step(b) == Run(c)
    ensures Goes(step, a, m + 1, c)
  {
    Once(step, b, c);
    Then(step, a, m, b, 1, c);
  }

  // ---- Single instructions ----

  lemma Fetch1(w: World, step: Vm -> Out, vm: Vm, op: byte)
    requires Drives(w, step) && Len(op) == 1 && At(vm.code, vm.ip, [op])
    ensures step(vm) == Exec(w, vm, op, 0, 0)
  {
    AtDef(vm.code, vm.ip, [op]);
    assert step(vm) == Instr(w, vm);
  }

  lemma Fetch2(w: World, step: Vm -> Out, vm: Vm, op: byte, a: byte)
    requires Drives(w, step) && Len(op) == 2 && At(vm.code, vm.ip, [op, a])
    ensures step(vm) == Exec(w, vm, op, a, 0)
  {
    assert [op, a][1..] == [a];
    AtDef(vm.code, vm.ip, [op, a]);
    AtDef(vm.code, vm.ip + 1, [a]);
    assert step(vm) == Instr(w, vm);
  }

  lemma Fetch3(w: World, step: Vm -> Out, vm: Vm, op: byte, a: byte, b: byte)
    requires Drives(w, step) && Len(op) == 3 && At(vm.code, vm.ip, [op, a, b])
    ensures step(vm) == Exec(w, vm, op, a, b)
  {
    assert [op, a, b][1..] == [a, b] && [a, b][1..] == [b];
    AtDef(vm.code, vm.ip, [op, a, b]);
    AtDef(vm.code, vm.ip + 1, [a, b]);
    AtDef(vm.code, vm.ip + 2, [b]);
    assert step(vm) == Instr(w, vm);
  }

  lemma DoLiteral(w: World, step: Vm -> Out, vm: Vm, i: nat)
    requires Drives(w, step) && At(vm.code, vm.ip, [OP_A_LITL, B(i)]) && i < |vm.lits| <= 256
    ensures step(vm) == Run(vm.(acc := vm.lits[i], ip := vm.ip + 2))
  {
    Fetch2(w, step, vm, OP_A_LITL, B(i));
  }

  lemma DoGlobal(w: World, step: Vm -> Out, vm: Vm, i: nat)
    requires Drives(w, step) && At(vm.code, vm.ip, [OP_A_GLOB, B(i)]) && i < |vm.lits| <= 256 && vm.lits[i].SymVal?
    ensures step(vm) == Run(vm.(acc := Global(vm.globals, vm.lits[i].s), ip := vm.ip + 2))
  {
    Fetch2(w, step, vm, OP_A_GLOB, B(i));
  }

  lemma DoSetGlobal(w: World, step: Vm -> Out, vm: Vm, i: nat)
    requires Drives(w, step) && At(vm.code, vm.ip, [OP_GLOB_A, B(i)]) && i < |vm.lits| <= 256 && vm.lits[i].SymVal?
    requires w.privileged(vm.effuid)
    ensures step(vm) == Run(vm.(globals := vm.globals[vm.lits[i].s := vm.acc], ip := vm.ip + 2))
  {
    Fetch2(w, step, vm, OP_GLOB_A, B(i));
  }

  lemma DoLocal(w: World, step: Vm -> Out, vm: Vm, i: nat, o: nat, f: nat)
    requires Drives(w, step) && At(vm.code, vm.ip, [OP_A_LOCL, B(i), B(o)]) && i < 256 && o < 256
    requires Local(vm.heap, vm.env, i, o) == Some(f)
    ensures step(vm) == Run(vm.(acc := vm.heap[f].elems[o + 1], ip := vm.ip + 3))
  {
    Fetch3(w, step, vm, OP_A_LOCL, B(i), B(o));
  }

  lemma DoSetLocal(w: World, step: Vm -> Out, vm: Vm, i: nat, o: nat, f: nat)
    requires Drives(w, step) && At(vm.code, vm.ip, [OP_LOCL_A, B(i), B(o)]) && i < 256 && o < 256
    requires Local(vm.heap, vm.env, i, o) == Some(f)
    ensures step(vm) == Run(vm.(heap := vm.heap[f := Vec(vm.heap[f].elems[o + 1 := vm.acc])], ip := vm.ip + 3))
  {
    Fetch3(w, step, vm, OP_LOCL_A, B(i), B(o));
  }

  lemma DoSelf(w: World, step: Vm -> Out, vm: Vm)
    requires Drives(w, step) && At(vm.code, vm.ip, [OP_A_SELF])
    ensures step(vm) == Run(vm.(acc := vm.self, ip := vm.ip + 1))
  {
    Fetch1(w, step, vm, OP_A_SELF);
  }

  lemma DoPush(w: World, step: Vm -> Out, vm: Vm)
    requires Drives(w, step) && At(vm.code, vm.ip, [OP_PUSH]) && |vm.stack| < STACK_LENGTH
    ensures step(vm) == Run(vm.(stack := vm.stack + [vm.acc], ip := vm.ip + 1))
  {
    Fetch1(w, step, vm, OP_PUSH);
  }

  // POP and SWAP together exchange the two values below the accumulator's
  // place: the callee comes to the accumulator, its arguments to the stack.
  lemma DoFetchCallee(w: World, step: Vm -> Out, vm: Vm, base: seq<Value>, f: Value, argv: Value)
    requires Drives(w, step) && At(vm.code, vm.ip, FETCH_CALLEE) && vm.stack == base + [f, argv]
    ensures Goes(step, vm, 2, vm.(acc := f, stack := base + [argv], ip := vm.ip + 2))
  {
    assert FETCH_CALLEE == [OP_POP] + [OP_SWAP];
    AtSplit(vm.code, vm.ip, [OP_POP], [OP_SWAP]);
    Fetch1(w, step, vm, OP_POP);
    assert vm.stack[..|vm.stack| - 1] == base + [f];
    var vm1 := vm.(acc := argv, stack := base + [f], ip := vm.ip + 1);
    Fetch1(w, step, vm1, OP_SWAP);
    assert vm1.stack[..|vm1.stack| - 1] == base;
    Once(step, vm, vm1);
    ThenOnce(step, vm, 1, vm1, vm.(acc := f, stack := base + [argv], ip := vm.ip + 2));
  }

  lemma DoVector(w: World, step: Vm -> Out, vm: Vm, n: nat)
    requires Drives(w, step) && At(vm.code, vm.ip, [OP_VECTOR, B(n)]) && 0 < n < 256
    ensures step(vm) == Run(vm.(heap := vm.heap + [Vec(Nulls(n))], acc := Ref(|vm.heap|), ip := vm.ip + 2))
  {
    Fetch2(w, step, vm, OP_VECTOR, B(n));
  }

  lemma DoAtPut(w: World, step: Vm -> Out, vm: Vm, base: seq<Value>, argv: nat, k: nat)
    requires Drives(w, step) && At(vm.code, vm.ip, AtPut(k)) && k < 256
    requires vm.stack == base + [Ref(argv)] && argv < |vm.heap| && vm.heap[argv].Vec? && k < |vm.heap[argv].elems|
    ensures step(vm) == Run(vm.(heap := vm.heap[argv := Vec(vm.heap[argv].elems[k := vm.acc])], ip := vm.ip + 2))
  {
    Fetch2(w, step, vm, OP_ATPUT, B(k));
  }

  lemma DoEnterScope(w: World, step: Vm -> Out, vm: Vm, n: nat)
    requires Drives(w, step) && At(vm.code, vm.ip, [OP_ENTER_SCOPE, B(n)]) && n < 256
    ensures step(vm) == Run(vm.(heap := vm.heap + [Vec([vm.env] + Nulls(n))], env := Ref(|vm.heap|), ip := vm.ip + 2))
  {
    Fetch2(w, step, vm, OP_ENTER_SCOPE, B(n));
  }

  lemma DoLeaveScope(w: World, step: Vm -> Out, vm: Vm)
    requires Drives(w, step) && At(vm.code, vm.ip, [OP_LEAVE_SCOPE])
    requires IsVec(vm.heap, vm.env) && vm.heap[vm.env.a].elems != []
    ensures step(vm) == Run(vm.(env := vm.heap[vm.env.a].elems[0], ip := vm.ip + 1))
  {
    Fetch1(w, step, vm, OP_LEAVE_SCOPE);
  }

  lemma DoMakeVector(w: World, step: Vm -> Out, vm: Vm, base: seq<Value>, vs: seq<Value>)
    requires Drives(w, step) && At(vm.code, vm.ip, [OP_MAKE_VECTOR, B(|vs|)]) && |vs| < 256
    requires vm.stack == base + vs
    ensures var (h, v) := NewVector(vm.heap, vs);
            step(vm) == Run(vm.(heap := h, acc := v, stack := base, ip := vm.ip + 2))
  {
    Fetch2(w, step, vm, OP_MAKE_VECTOR, B(|vs|));
    assert vm.stack[|vm.stack| - |vs|..] == vs;
    assert vm.stack[..|vm.stack| - |vs|] == base;
  }

  lemma DoClosure(w: World, step: Vm -> Out, vm: Vm, m: Method)
    requires Drives(w, step) && At(vm.code, vm.ip, [OP_CLOSURE]) && vm.acc == MethodVal(m)
    ensures step(vm) == Run(vm.(heap := vm.heap + [Closure(m.(env := vm.env, owner := vm.effuid), vm.self)],
                                acc := Ref(|vm.heap|), ip := vm.ip + 1))
  {
    Fetch1(w, step, vm, OP_CLOSURE);
  }

  lemma DoApplyClosure(w: World, step: Vm -> Out, vm: Vm, base: seq<Value>, f: nat, argv: nat)
    requires Drives(w, step) && At(vm.code, vm.ip, [OP_APPLY])
    requires vm.stack == base + [Ref(argv)] && vm.acc == Ref(f)
    requires f < |vm.heap| && vm.heap[f].Closure? && argv < |vm.heap| && vm.heap[argv].Vec?
    requires var m := vm.heap[f].meth;
             w.canRun(m.flags, m.owner, vm.effuid) && |vm.heap[argv].elems| == m.argc + 1
    ensures step(vm) == Run(Enter(vm.(stack := base, ip := vm.ip + 1), vm.heap[f].meth, argv, vm.heap[f].self))
  {
    Fetch1(w, step, vm, OP_APPLY);
    assert vm.stack[..|vm.stack| - 1] == base;
  }

  lemma DoReturn(w: World, step: Vm -> Out, vm: Vm)
    requires Drives(w, step) && At(vm.code, vm.ip, [OP_RET]) && vm.frame.Frame? && vm.frame.code != []
    ensures step(vm) == Run(Restore(vm, vm.frame))
  {
    Fetch1(w, step, vm, OP_RET);
  }

  lemma DoJump(w: World, step: Vm -> Out, vm: Vm, op: byte, disp: int)
    requires Drives(w, step) && OP_JUMP <= op <= OP_JUMP_FALSE && At(vm.code, vm.ip, JumpOp(op, disp))
    requires -0x8000 <= disp < 0x8000
    ensures step(vm) ==
            Run(vm.(ip := vm.ip + 3 + if op == OP_JUMP || (op == OP_JUMP_TRUE) == (vm.acc != FALSE) then disp else 0))
  {
    assert JumpOp(op, disp) == [op, Be16(disp)[0], Be16(disp)[1]];
    Fetch3(w, step, vm, op, Be16(disp)[0], Be16(disp)[1]);
    Be16Decodes(disp);
  }

  lemma DoNot(w: World, step: Vm -> Out, vm: Vm)
    requires Drives(w, step) && At(vm.code, vm.ip, [OP_NOT])
    ensures step(vm) == Run(vm.(acc := Bool(vm.acc == FALSE), ip := vm.ip + 1))
  {
    Fetch1(w, step, vm, OP_NOT);
  }

  lemma DoCompare(w: World, step: Vm -> Out, vm: Vm, op: byte, base: seq<Value>, x: Value)
    requires Drives(w, step) && At(vm.code, vm.ip, [op]) && vm.stack == base + [x]
    requires op == OP_EQ || op == OP_NE
    ensures step(vm) == Run(vm.(acc := Bool((x == vm.acc) == (op == OP_EQ)), stack := base, ip := vm.ip + 1))
  {
    Fetch1(w, step, vm, op);
    assert vm.stack[..|vm.stack| - 1] == base;
  }

  lemma DoArith(w: World, step: Vm -> Out, vm: Vm, op: byte, base: seq<Value>, x: int, y: int, v: Value)
    requires Drives(w, step) && At(vm.code, vm.ip, [op]) && vm.stack == base + [Num(x)] && vm.acc == Num(y)
    requires Arith(op, x, y) == Some(v) && (OP_GT <= op <= OP_LE || (OP_BOR <= op <= OP_PERCENT && op != OP_PLUS))
    ensures step(vm) == Run(vm.(acc := v, stack := base, ip := vm.ip + 1))
  {
    Fetch1(w, step, vm, op);
    assert vm.stack[..|vm.stack| - 1] == base;
  }

  lemma DoPlus(w: World, step: Vm -> Out, vm: Vm, base: seq<Value>, x: Value)
    requires Drives(w, step) && At(vm.code, vm.ip, [OP_PLUS]) && vm.stack == base + [x]
    ensures step(vm) == ExecPlus(w, vm)
    ensures Drop(vm, 1) == vm.(stack := base) && Top(vm) == x
  {
    Fetch1(w, step, vm, OP_PLUS);
    assert vm.stack[..|vm.stack| - 1] == base;
  }
}
