// Runs that go on through exceptions: the instruction pointer, in the
// registers and in every frame and continuation, stays at an instruction
// start of a finished block, whatever is raised and handled.
module Exceptions {
  import opened Bytes
  import opened Values
  import opened Machine
  import opened Heights
  import opened Blocks
  import opened Safety
  import opened Calls

  // What is claimed when an exception is raised.
  predicate Survives(o: Out) {
    o.Raised? ==> o.vm.state == DYING || Safe(o.vm, false)
  }

  // Fewer operands, still in place.
  lemma Popped(vm: Vm, n: nat)
    requires Safe(vm, false) && n <= |vm.stack|
    ensures Safe(Drop(vm, n), false)
  {
    PendingAnyway(vm.frame, |vm.stack| - Height(vm), |vm.stack| - n - Height(vm), false);
  }

  // ---- Raising ----

  lemma RaiseStateSafe(vm: Vm, exc: Value, arg: Value)
    requires Safe(vm, false) && GoodValue(exc) && GoodValue(arg)
    ensures Safe(RaiseState(vm, exc, arg), false)
  {
    Saved(vm, false);
    PendingAnyway(SavedFrame(vm), |vm.stack|, -Height(vm), false);
    assert GoodCell(Vec([Null, exc, arg, Ref(|vm.heap| + 1), vm.acc]), false);
    assert GoodCell(Cont(SavedFrame(vm), vm.stack), false);
  }

  lemma HandledSurvives(w: World, vm: Vm, handler: Cell, argv: nat)
    requires GoodWorld(w, false) && Safe(vm, false) && GoodCell(handler, false)
    requires argv < |vm.heap| && vm.heap[argv].Vec? && vm.heap[argv].elems != []
    ensures Survives(Handled(w, vm, handler, argv))
  {
    if handler.Closure? {
      Entering(vm, handler.meth, argv, handler.self, false);
    }
  }

  // The handler starts at an instruction, and what it could go back to is at
  // one as well.
  lemma RaiseSurvives(w: World, vm: Vm, exc: Value, arg: Value)
    requires GoodWorld(w, false) && Safe(vm, false) && GoodValue(exc) && GoodValue(arg)
    ensures Survives(Raise(w, vm, exc, arg))
  {
    if vm.trap.Ref? && vm.trap.a < |vm.heap| {
      RaiseStateSafe(vm, exc, arg);
      HandledSurvives(w, RaiseState(vm, exc, arg), vm.heap[vm.trap.a], |vm.heap|);
    }
  }

  lemma NameSurvives(w: World, vm: Vm, name: Sym, arg: Value)
    requires GoodWorld(w, false) && Safe(vm, false) && GoodValue(arg)
    ensures Survives(RaiseName(w, vm, name, arg))
  {
    RaiseSurvives(w, vm, SymVal(name), arg);
  }

  // ---- Applications ----

  lemma MethodSurvives(w: World, vm: Vm, m: Method, self: Value, argv: Value)
    requires GoodWorld(w, false) && Safe(vm, false) && GoodMethod(m)
    ensures Survives(ApplyMethod(w, vm, m, self, argv))
  {
    NameSurvives(w, vm, "no-permission", m.name);
    NameSurvives(w, vm, "wrong-argc", MethodVal(m));
  }

  lemma CallCCSurvives(w: World, vm: Vm, f: Value)
    requires GoodWorld(w, false) && Safe(vm, false) && GoodValue(f)
    ensures Survives(CallCC(w, vm, f))
  {
    if IsClosure(vm.heap, f) {
      var cell := vm.heap[f.a];
      assert GoodCell(cell, false);
      MethodSurvives(w, vm.(heap := vm.heap + [Vec([Null, Null])]), cell.meth, cell.self, Ref(|vm.heap|));
    } else {
      NameSurvives(w, vm, "type-error", f);
    }
  }

  lemma PrimSurvives(w: World, vm: Vm, num: nat, f: Value, argv: Value)
    requires GoodWorld(w, false) && Safe(vm, false) && GoodValue(f)
    ensures Survives(ApplyPrim(w, vm, num, f, argv))
  {
    NameSurvives(w, vm, "invalid-primitive", Num(num));
    NameSurvives(w, vm, "wrong-argc", f);
    if IsVec(vm.heap, argv) {
      if num == CALL_CC && |vm.heap[argv.a].elems| >= 2 {
        assert GoodCell(vm.heap[argv.a], false);
        CallCCSurvives(w, vm, vm.heap[argv.a].elems[1]);
      }
      var o := w.prim(num, vm, argv.a);
      if o.PrimRaises? {
        RaiseSurvives(w, vm, o.exc, o.arg);
      }
    }
  }

  lemma ApplySurvives(w: World, vm: Vm, f: Value, argv: Value)
    requires GoodWorld(w, false) && Safe(vm, false) && GoodValue(f)
    ensures Survives(Apply(w, vm, f, argv))
  {
    if f.Ref? && f.a < |vm.heap| {
      assert GoodCell(vm.heap[f.a], false);
      match vm.heap[f.a]
      case Prim(num) => PrimSurvives(w, vm, num, f, argv);
      case Closure(m, self) => MethodSurvives(w, vm, m, self, argv);
      case _ =>
    } else {
      NameSurvives(w, vm, "invalid-callable", f);
    }
  }

  lemma SendSurvives(w: World, vm: Vm, op: byte, a: byte)
    requires GoodWorld(w, false) && Safe(vm, false)
    ensures Survives(ExecSend(w, vm, op, a))
  {
    if a < |vm.lits| && vm.lits[a].SymVal? {
      NameSurvives(w, vm, "null-call-error", vm.lits[a]);
      NameSurvives(w, vm, "vm-runtime-type-error", vm.acc);
      NameSurvives(w, vm, "method-not-found", vm.lits[a]);
      NameSurvives(w, vm, "no-permission", vm.lits[a]);
      if vm.stack != [] {
        Popped(vm, 1);
        NameSurvives(w, Drop(vm, 1), "wrong-argc", vm.lits[a]);
      }
    }
  }

  lemma CallSurvives(w: World, vm: Vm, op: byte, a: byte)
    requires GoodWorld(w, false) && Safe(vm, false) && op == vm.code[vm.ip] && OP_RET <= op <= OP_APPLY
    ensures Survives(ExecCall(w, vm, op, a))
  {
    if op == OP_APPLY {
      if vm.stack != [] {
        Calling(vm, false);
        var o := Applied(w, vm, a);
        ApplySurvives(w, Drop(vm, 1).(ip := vm.ip + 1), vm.acc, Top(vm));
      }
    } else if op != OP_RET {
      SendSurvives(w, vm, op, a);
    }
  }

  // ---- Other instructions ----

  lemma ElementSurvives(w: World, vm: Vm, op: byte, a: byte)
    requires GoodWorld(w, false) && Safe(vm, false)
    ensures Survives(ExecElement(w, vm, op, a))
  {
    NameSurvives(w, vm, "range-check-error", vm.acc);
    NameSurvives(w, vm, "vm-runtime-type-error", vm.acc);
    if vm.stack != [] {
      NameSurvives(w, vm, "range-check-error", Top(vm));
      NameSurvives(w, vm, "vm-runtime-type-error", Top(vm));
    }
  }

  lemma SlotSurvives(w: World, vm: Vm, op: byte, a: byte)
    requires GoodWorld(w, false) && Safe(vm, false)
    ensures Survives(ExecSlot(w, vm, op, a))
  {
    if a < |vm.lits| && vm.lits[a].SymVal? {
      NameSurvives(w, vm, "vm-runtime-type-error", vm.acc);
      NameSurvives(w, vm, "no-permission", vm.lits[a]);
      NameSurvives(w, vm, "slot-not-found", vm.lits[a]);
      if vm.stack != [] {
        Popped(vm, 1);
        NameSurvives(w, Drop(vm, 1), "vm-runtime-type-error", Top(vm));
        NameSurvives(w, Drop(vm, 1), "no-permission", vm.lits[a]);
        NameSurvives(w, Drop(vm, 1), "slot-not-found", vm.lits[a]);
      }
    }
  }

  lemma MoveSurvives(w: World, vm: Vm, op: byte, a: byte, b: byte)
    requires GoodWorld(w, false) && Safe(vm, false)
    ensures Survives(ExecMove(w, vm, op, a, b))
  {
    NameSurvives(w, vm, "no-permission", SymVal("setting-global-value"));
    NameSurvives(w, vm, "no-permission", SymVal("restoring-vm-frame-pointer"));
    NameSurvives(w, vm, "vm-runtime-type-error", vm.acc);
  }

  lemma BuildSurvives(w: World, vm: Vm, op: byte, a: byte)
    requires GoodWorld(w, false) && Safe(vm, false)
    ensures Survives(ExecBuild(w, vm, op, a))
  {
    NameSurvives(w, vm, "vm-runtime-type-error", vm.acc);
    if a < |vm.lits| {
      NameSurvives(w, vm, "method-not-found", vm.lits[a]);
      NameSurvives(w, vm, "no-permission", vm.lits[a]);
    }
  }

  // About to divide by zero: the instruction after which the handler starts
  // at its second byte.
  predicate ZeroDivision(vm: Vm) {
    (Op(vm) == OP_SLASH || Op(vm) == OP_PERCENT) && vm.acc == Num(0) && vm.stack != [] && Top(vm).Num?
  }

  lemma ArithSurvives(w: World, vm: Vm, op: byte)
    requires GoodWorld(w, false) && Safe(vm, false) && op == Op(vm) && OP_NOT <= op && Len(op) > 0 && !ZeroDivision(vm)
    ensures Survives(ExecArith(w, vm, op))
  {
    NameSurvives(w, vm, "vm-runtime-type-error", vm.acc);
  }

  lemma ExecSurvives(w: World, vm: Vm, op: byte, a: byte, b: byte)
    requires GoodWorld(w, false) && Safe(vm, false) && op == Op(vm) && Len(op) > 0 && !ZeroDivision(vm)
    ensures Survives(Exec(w, vm, op, a, b))
  {
    if op <= OP_ATPUT { ElementSurvives(w, vm, op, a); }
    else if op == OP_A_SLOT || op == OP_SLOT_A { SlotSurvives(w, vm, op, a); }
    else if OP_PUSH <= op <= OP_SWAP { }
    else if OP_RET <= op <= OP_APPLY { CallSurvives(w, vm, op, a); }
    else if op >= OP_NOT { ArithSurvives(w, vm, op); }
    else if op >= OP_JUMP { }
    else if op >= OP_VECTOR { BuildSurvives(w, vm, op, a); }
    else { MoveSurvives(w, vm, op, a, b); }
  }

  // What an instruction leads to, with an exception or without.
  predicate StaysPlaced(o: Out) {
    o.Run? || o.Raised? ==> o.vm.state == DYING || Safe(o.vm, false)
  }

  lemma InstrSurvives(w: World, vm: Vm)
    requires GoodWorld(w, false) && Safe(vm, false) && !ZeroDivision(vm)
    ensures Survives(Instr(w, vm))
  {
    var o, op, a, b := Decoded(w, vm);
    if o != Bad {
      ExecSurvives(w, vm, op, a, b);
    }
  }

  lemma InstrStaysPlaced(w: World, vm: Vm)
    requires GoodWorld(w, false) && Safe(vm, false) && !ZeroDivision(vm)
    ensures StaysPlaced(Instr(w, vm))
  {
    InstrKeeps(w, vm, false);
    InstrSurvives(w, vm);
  }

  // ---- Whole runs ----

  // When the quota runs out the handler's first instruction is executed in
  // the same turn, on an empty stack.
  lemma ChargeStaysPlaced(w: World, vm: Vm)
    requires GoodWorld(w, false) && Safe(vm, false)
    ensures StaysPlaced(Charge(w, vm))
    ensures var c := Charge(w, vm); c.Run? || c.Raised? ==> c.vm.stack == [] || c.vm == vm.(state := c.vm.state)
  {
    var vm1 := vm.(state := DEFAULT_QUOTA);
    assert Safe(vm1, false);
    NameSurvives(w, vm1, "quota-expired", Null);
  }

  lemma TickStaysPlaced(w: World, vm: Vm)
    requires GoodWorld(w, false) && Safe(vm, false) && !ZeroDivision(vm)
    ensures StaysPlaced(Tick(w, vm))
  {
    ChargeStaysPlaced(w, vm);
    var c := Charge(w, vm);
    if c.Run? || c.Raised? {
      InstrStaysPlaced(w, c.vm);
    }
  }

  // At most `n` turns of the interpreter loop, through all exceptions.
  function Onward(tick: Vm -> Out, n: nat, vm: Vm): Out {
    if n == 0 || !Runnable(vm) then Run(vm)
    else
      var o := tick(vm);
      if o.Run? || o.Raised? then Onward(tick, n - 1, o.vm) else o
  }

  // None of them divides by zero.
  predicate NeverDivides(tick: Vm -> Out, n: nat, vm: Vm) {
    n == 0 || !Runnable(vm) ||
    (!ZeroDivision(vm) && var o := tick(vm); (o.Run? || o.Raised? ==> NeverDivides(tick, n - 1, o.vm)))
  }

  // In every state such a run reaches, after any number of exceptions, the
  // machine is at an instruction start of a finished block, and so are all
  // frames and continuations; or its thread is dying.
  lemma {:induction false} RunsInPlace(w: World, tick: Vm -> Out, n: nat, vm: Vm) returns (o: Out)
    requires GoodWorld(w, false) && Ticks(w, tick) && Safe(vm, false) && NeverDivides(tick, n, vm)
    ensures o == Onward(tick, n, vm)
    ensures o.Run? && o.vm.state != DYING ==> Safe(o.vm, false)
    decreases n, 0
  {
    if n == 0 || !Runnable(vm) {
      return Run(vm);
    }
    o := TurnInPlace(w, tick, vm);
    if o.Run? || o.Raised? {
      o := OnwardInPlace(w, tick, n - 1, o.vm);
    }
  }

  lemma TurnInPlace(w: World, tick: Vm -> Out, vm: Vm) returns (o: Out)
    requires GoodWorld(w, false) && Ticks(w, tick) && Safe(vm, false) && !ZeroDivision(vm)
    ensures o == tick(vm) && StaysPlaced(o)
  {
    o := tick(vm);
    assert o == Tick(w, vm);
    TickStaysPlaced(w, vm);
  }

  // The other turns, if there are any.
  lemma {:induction false} OnwardInPlace(w: World, tick: Vm -> Out, n: nat, vm: Vm) returns (o: Out)
    requires GoodWorld(w, false) && Ticks(w, tick) && NeverDivides(tick, n, vm)
    requires vm.state == DYING || Safe(vm, false)
    ensures o == Onward(tick, n, vm)
    ensures o.Run? && o.vm.state != DYING ==> Safe(o.vm, false)
    decreases n, 1
  {
    if vm.state == DYING {
      o := Run(vm);
    } else {
      o := RunsInPlace(w, tick, n, vm);
    }
  }
}
