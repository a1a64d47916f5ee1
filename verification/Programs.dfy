// A whole program: compiled in one pass, then run from its first byte.
module Programs {
  import opened Bytes
  import opened Values
  import opened Machine
  import opened Syntax
  import opened Scoping
  import opened Emission
  import opened Limits
  import opened Semantics
  import opened Agreement
  import opened Execution
  import opened Correctness
  import opened Compiler

  // A top-level expression within the bounds the compiler does not check.
  predicate ProgramFits(e: Expr) {
    var r := Emit(e, [], []);
    |r.code| + 1 < MAX_CODE && |r.lits| <= MAX_LITS && ReturnSafe(e, true) && Fits(e, [])
  }

  // A machine about to run `m` with nothing to return to.
  predicate Starting(m: Method, vm: Vm) {
    vm.code == m.code && vm.lits == m.lits && vm.ip == 0 && vm.frame.NoFrame? && |vm.stack| <= STACK_LENGTH
  }

  // The machine stopped with `v`.
  predicate Stopped(w: World, vm: Vm, n: nat, vm2: Vm, v: Value) {
    Steps(Stepper(w), n, vm) == Halt(vm2) && vm2.acc == v && vm2.stack == vm.stack && vm2.state == DYING
  }

  lemma ProgramLoaded(e: Expr, vm: Vm)
    requires Starting(Program(e), vm)
    ensures Loaded(vm, 0, Emit(e, [], [])) && At(vm.code, |Emit(e, [], []).code|, [OP_RET])
  {
    var em := Emit(e, [], []);
    assert vm.code[0..0 + |em.code + [OP_RET]|] == em.code + [OP_RET];
    AtHere(vm.code, 0, em.code + [OP_RET]);
    AtSplit(vm.code, 0, em.code, [OP_RET]);
  }

  // At the final return, or at one before, the machine stops.
  lemma Stops(w: World, step: Vm -> Out, r: Res, me: Me, st: St, vm: Vm, n: nat, vm2: Vm, len: nat)
    requires Drives(w, step) && Goes(step, vm, n, vm2) && Matches(r, me, st, vm, vm2, len) && !r.Stuck?
    requires vm.frame.NoFrame? && vm.ip == 0 && At(vm.code, len, [OP_RET])
    ensures Steps(step, n + 1, vm) == Halt(vm2.(state := DYING)) && vm2.acc == r.v && vm2.stack == vm.stack
    ensures HeapAgrees(r.st.heap, vm2.heap) && r.st.globals == vm2.globals
  {
    Fetch1(w, step, vm2, OP_RET);
    assert Steps(step, 1, vm2) == Halt(vm2.(state := DYING));
    StepsAdd(step, n, 1, vm, vm2);
  }

  // The template that Parse returns, run on its own, stops with the value
  // direct evaluation gives, by falling off the end or by `return`.
  lemma ProgramCorrect(w: World, fuel: nat, e: Expr, me: Me, st: St, vm: Vm)
    requires ProgramFits(e) && Agree(me, st, vm) && Starting(Program(e), vm)
    ensures Compiles(e, []) && Short(e, [])
    ensures var r := Eval(w, fuel, Room(vm), e, [], me, st);
            !r.Stuck? ==> exists n: nat, vm2: Vm ::
                            && Stopped(w, vm, n, vm2, r.v)
                            && HeapAgrees(r.st.heap, vm2.heap) && r.st.globals == vm2.globals
  {
    FitsCompiles(e, []);
    ProgramLoaded(e, vm);
    var r := Eval(w, fuel, Room(vm), e, [], me, st);
    var n, vm2 := Sim(w, Stepper(w), fuel, e, [], [], me, st, vm);
    if !r.Stuck? {
      Stops(w, Stepper(w), r, me, st, vm, n, vm2, |Emit(e, [], []).code|);
      assert Stopped(w, vm, n + 1, vm2.(state := DYING), r.v);
    }
  }
}
