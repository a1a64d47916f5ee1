// Every run of compiled code keeps to its blocks: the instruction pointer is
// always at an instruction start and, when `exact`, the stack is as high as
// the frames say.  An exception may leave behind a continuation whose stack
// has lost the operands its instruction takes, so that only the first part
// can be said of runs that go on after one.
module Safety {
  import opened Bytes
  import opened Values
  import opened Machine
  import opened Heights
  import opened Blocks

  // ---- Values that hold only finished blocks ----

  predicate GoodValue(v: Value)
    decreases v, 1
  {
    v.MethodVal? ==> GoodMethod(v.m)
  }

  predicate GoodMethod(m: Method)
    decreases m, 0
  {
    GoodBlock(m.code) && GoodValue(m.name) && GoodValue(m.env) && forall i | 0 <= i < |m.lits| :: GoodValue(m.lits[i])
  }

  predicate GoodValues(vs: seq<Value>) {
    forall i | 0 <= i < |vs| :: GoodValue(vs[i])
  }

  // Registers saved in a frame, outwards.
  predicate GoodFrame(f: Frame) {
    f.NoFrame? || (GoodValue(f.self) && GoodValue(f.env) && GoodValues(f.lits) && GoodFrame(f.link))
  }

  // ---- Stack and frames ----

  // The activations the current one will return to stand at instructions of
  // finished blocks; `d` operands are pending, as many as their code says.
  predicate Pending(f: Frame, d: int, exact: bool)
    decreases f
  {
    match f
    case NoFrame => exact ==> d == 0
    case Frame(code, ip, _, _, _, link, _, _) =>
      if code == [] then exact ==> d == 0
      else
        var y := HeightAt(code, ip, 0);
        y.Some? && Positioned(code, ip, y.value) && Pending(link, d - y.value, exact)
  }

  // Without the accounting the height does not matter.
  lemma {:induction false} PendingAnyway(f: Frame, d: int, e: int, exact: bool)
    requires Pending(f, d, exact)
    ensures Pending(f, e, false)
    decreases f
  {
    if f.Frame? && f.code != [] {
      var y := HeightAt(f.code, f.ip, 0).value;
      PendingAnyway(f.link, d - y, e - y, exact);
    }
  }

  lemma {:induction false} PendingNonNegative(f: Frame, d: int)
    requires Pending(f, d, true)
    ensures d >= 0
    decreases f
  {
    if f.Frame? && f.code != [] {
      PendingNonNegative(f.link, d - HeightAt(f.code, f.ip, 0).value);
    }
  }

  // The current activation stands at an instruction, `x` operands high.
  predicate Stands(vm: Vm, x: int, exact: bool) {
    Positioned(vm.code, vm.ip, x) && Pending(vm.frame, |vm.stack| - x, exact)
  }

  function Height(vm: Vm): int {
    var x := HeightAt(vm.code, vm.ip, 0);
    if x.Some? then x.value else 0
  }

  // ---- Heap ----

  predicate GoodCell(c: Cell, exact: bool) {
    match c
    case Vec(elems) => GoodValues(elems)
    case Closure(m, self) => GoodMethod(m) && GoodValue(self)
    case Cont(f, stack) => f.Frame? && f.code != [] && Pending(f, |stack|, exact) && GoodFrame(f) && GoodValues(stack)
    case _ => true
  }

  predicate GoodHeap(h: Heap, exact: bool) {
    forall a | 0 <= a < |h| :: GoodCell(h[a], exact)
  }

  predicate GoodGlobals(g: map<Sym, Value>) {
    forall x | x in g :: GoodValue(g[x])
  }

  predicate GoodRegisters(vm: Vm, exact: bool) {
    && GoodValue(vm.acc) && GoodValue(vm.env) && GoodValue(vm.self)
    && GoodValues(vm.lits) && GoodValues(vm.stack) && GoodFrame(vm.frame)
    && GoodHeap(vm.heap, exact) && GoodGlobals(vm.globals)
  }

  // Primitives, slots and method tables keep to such values.
  ghost predicate GoodWorld(w: World, exact: bool) {
    && (forall h, a, s {:trigger w.findMethod(h, a, s)} ::
          GoodHeap(h, exact) && w.findMethod(h, a, s).Some? ==> GoodMethod(w.findMethod(h, a, s).value))
    && (forall h, a, s, u {:trigger w.slotGet(h, a, s, u)} ::
          GoodHeap(h, exact) && w.slotGet(h, a, s, u).SlotValue? ==> GoodValue(w.slotGet(h, a, s, u).v))
    && (forall h, a, s, v, u {:trigger w.slotSet(h, a, s, v, u)} ::
          GoodHeap(h, exact) && GoodValue(v) && w.slotSet(h, a, s, v, u).SlotWritten? ==>
            GoodHeap(w.slotSet(h, a, s, v, u).heap, exact))
    && (forall num, vm, argv {:trigger w.prim(num, vm, argv)} :: GoodRegisters(vm, exact) ==>
          match w.prim(num, vm, argv)
          case PrimDone(acc, heap, globals, _, _, _, _) => GoodValue(acc) && GoodHeap(heap, exact)
            && GoodGlobals(globals)
          case PrimRaises(exc, arg, result) => GoodValue(exc) && GoodValue(arg) && GoodValue(result))
  }

  predicate Safe(vm: Vm, exact: bool) {
    Stands(vm, Height(vm), exact) && GoodRegisters(vm, exact)
  }

  // A safe machine fetches a whole instruction of its block and finds the
  // operands it takes.
  lemma SafeFetches(vm: Vm, exact: bool)
    requires Safe(vm, exact)
    ensures 0 <= vm.ip < |vm.code| && Emittable(vm.code[vm.ip]) && vm.ip + Len(vm.code[vm.ip]) <= |vm.code|
    ensures exact ==> Needs(vm.code[vm.ip], Operand(vm.code[vm.ip..])) <= |vm.stack|
  {
    Fetchable(vm.code, vm.ip, Height(vm));
    if exact {
      PendingNonNegative(vm.frame, |vm.stack| - Height(vm));
    }
  }

  // ---- Instructions that stay in their activation ----

  // On to the next instruction, with the operands it takes and leaves.
  predicate Moves(vm: Vm, vm2: Vm, op: byte, a: byte) {
    && vm2.code == vm.code && vm2.frame == vm.frame && vm2.lits == vm.lits && vm2.self == vm.self
    && vm2.ip == vm.ip + Len(op) && |vm2.stack| == |vm.stack| + Delta(op, a)
  }

  lemma MovesSafely(vm: Vm, vm2: Vm, exact: bool)
    requires Safe(vm, exact) && vm.ip < |vm.code| - 1 && vm.code[vm.ip] != OP_RET
    requires Moves(vm, vm2, vm.code[vm.ip], Operand(vm.code[vm.ip..])) && GoodRegisters(vm2, exact)
    ensures Safe(vm2, exact)
  {
    FallsThrough(vm.code, vm.ip, Height(vm));
  }

  lemma Element(w: World, vm: Vm, op: byte, a: byte, exact: bool)
    requires GoodRegisters(vm, exact) && (op == OP_AT || op == OP_ATPUT) && ExecElement(w, vm, op, a).Run?
    ensures var vm2 := ExecElement(w, vm, op, a).vm; Moves(vm, vm2, op, a) && GoodRegisters(vm2, exact)
  {
  }

  lemma Slot(w: World, vm: Vm, op: byte, a: byte, exact: bool)
    requires GoodWorld(w, exact) && GoodRegisters(vm, exact) && (op == OP_A_SLOT || op == OP_SLOT_A)
             && ExecSlot(w, vm, op, a).Run?
    ensures var vm2 := ExecSlot(w, vm, op, a).vm; Moves(vm, vm2, op, a) && GoodRegisters(vm2, exact)
  {
  }

  lemma Move(w: World, vm: Vm, op: byte, a: byte, b: byte, exact: bool)
    requires GoodRegisters(vm, exact) && OP_A_LOCL <= op <= OP_GLOB_A && op != OP_A_FRAM
             && ExecMove(w, vm, op, a, b).Run?
    ensures op !in {OP_A_SLOT, OP_SLOT_A} ==>
              var vm2 := ExecMove(w, vm, op, a, b).vm; Moves(vm, vm2, op, a) && GoodRegisters(vm2, exact)
  {
  }

  lemma Stack(vm: Vm, op: byte, exact: bool)
    requires GoodRegisters(vm, exact) && OP_PUSH <= op <= OP_SWAP && ExecStack(vm, op).Run?
    ensures var vm2 := ExecStack(vm, op).vm;
            vm2.state == DYING || (Moves(vm, vm2, op, 0) && GoodRegisters(vm2, exact))
  {
  }

  lemma Build(w: World, vm: Vm, op: byte, a: byte, exact: bool)
    requires GoodWorld(w, exact) && GoodRegisters(vm, exact) && OP_VECTOR <= op <= OP_METHOD_CLOSURE
             && ExecBuild(w, vm, op, a).Run?
    ensures var vm2 := ExecBuild(w, vm, op, a).vm; Moves(vm, vm2, op, a) && GoodRegisters(vm2, exact)
  {
    if op == OP_CLOSURE {
      ClosedOver(vm, exact);
    }
  }

  lemma ClosedOver(vm: Vm, exact: bool)
    requires GoodRegisters(vm, exact) && vm.acc.MethodVal?
    ensures GoodCell(Closure(vm.acc.m.(env := vm.env, owner := vm.effuid), vm.self), exact)
  {
    assert GoodMethod(vm.acc.m);
  }

  lemma Arithmetic(w: World, vm: Vm, op: byte, exact: bool)
    requires GoodRegisters(vm, exact) && OP_NOT <= op <= OP_PERCENT && Len(op) > 0 && ExecArith(w, vm, op).Run?
    ensures var vm2 := ExecArith(w, vm, op).vm; Moves(vm, vm2, op, 0) && GoodRegisters(vm2, exact)
  {
  }

  // ---- Calls, returns and jumps ----

  lemma Jump(vm: Vm, op: byte, a: byte, b: byte, exact: bool)
    requires Safe(vm, exact) && op == vm.code[vm.ip] && IsJump(op) && vm.ip + 2 < |vm.code|
    requires a == vm.code[vm.ip + 1] && b == vm.code[vm.ip + 2]
    ensures Safe(ExecJump(vm, op, a, b).vm, exact)
  {
    JumpsInside(vm.code, vm.ip, Height(vm));
    SafeFetches(vm, exact);
    FallsThrough(vm.code, vm.ip, Height(vm));
  }

  // A machine whose next instruction will be reached by a return: its frame,
  // once saved, is pending.
  lemma Saved(vm: Vm, exact: bool)
    requires Safe(vm, exact)
    ensures Pending(SavedFrame(vm), |vm.stack|, exact) && GoodFrame(SavedFrame(vm))
  {
  }

  lemma Entering(vm: Vm, m: Method, argv: nat, self: Value, exact: bool)
    requires Safe(vm, exact) && GoodMethod(m) && GoodValue(self)
    requires argv < |vm.heap| && vm.heap[argv].Vec? && vm.heap[argv].elems != []
    ensures Safe(Enter(vm, m, argv, self), exact)
  {
    Entry(m.code);
    Saved(vm, exact);
  }

  // ---- Outcomes ----

  // What is claimed of an outcome: a safe machine, unless the stack has run
  // over and the thread is dying.
  predicate Keeps(o: Out, exact: bool) {
    o.Run? ==> o.vm.state == DYING || Safe(o.vm, exact)
  }

  lemma MethodKeeps(w: World, vm: Vm, m: Method, self: Value, argv: Value, exact: bool)
    requires Safe(vm, exact) && GoodMethod(m) && GoodValue(self)
    ensures Keeps(ApplyMethod(w, vm, m, self, argv), exact)
  {
    if ApplyMethod(w, vm, m, self, argv).Run? {
      Entering(vm, m, argv.a, self, exact);
    }
  }

  lemma CallCCKeeps(w: World, vm: Vm, f: Value, exact: bool)
    requires Safe(vm, exact)
    ensures Keeps(CallCC(w, vm, f), exact)
  {
    if CallCC(w, vm, f).Run? {
      var cell := vm.heap[f.a];
      var vm1 := vm.(heap := vm.heap + [Vec([Null, Null])]);
      assert GoodCell(cell, exact);
      Entering(vm1, cell.meth, |vm.heap|, cell.self, exact);
      var v := ApplyMethod(w, vm1, cell.meth, cell.self, Ref(|vm.heap|)).vm;
      Captured(vm1, v, |vm.heap|, exact);
    }
  }

  // The continuation taken from a fresh activation.
  lemma Captured(vm: Vm, v: Vm, av: nat, exact: bool)
    requires Safe(vm, exact) && Safe(v, exact) && v.frame == SavedFrame(vm) && v.stack == vm.stack
    requires av < |v.heap| && v.heap[av].Vec? && |v.heap[av].elems| == 2
    ensures Safe(v.(heap := v.heap[av := Vec(v.heap[av].elems[1 := Ref(|v.heap|)])] + [Cont(v.frame, v.stack)]), exact)
  {
    Saved(vm, exact);
    assert GoodCell(v.heap[av], exact);
    assert GoodCell(Cont(v.frame, v.stack), exact);
  }

  lemma PrimKeeps(w: World, vm: Vm, num: nat, f: Value, argv: Value, exact: bool)
    requires GoodWorld(w, exact) && Safe(vm, exact)
    ensures Keeps(ApplyPrim(w, vm, num, f, argv), exact)
  {
    if num == CALL_CC && IsVec(vm.heap, argv) && |vm.heap[argv.a].elems| >= 2 {
      CallCCKeeps(w, vm, vm.heap[argv.a].elems[1], exact);
    }
  }

  lemma ContKeeps(vm: Vm, frame: Frame, stack: seq<Value>, argv: Value, exact: bool)
    requires Safe(vm, exact) && GoodCell(Cont(frame, stack), exact)
    ensures Keeps(ApplyCont(vm, frame, stack, argv), exact)
  {
    if ApplyCont(vm, frame, stack, argv).Run? {
      assert GoodCell(vm.heap[argv.a], exact);
    }
  }

  lemma ApplyKeeps(w: World, vm: Vm, f: Value, argv: Value, exact: bool)
    requires GoodWorld(w, exact) && Safe(vm, exact)
    ensures Keeps(Apply(w, vm, f, argv), exact)
  {
    if f.Ref? && f.a < |vm.heap| {
      assert GoodCell(vm.heap[f.a], exact);
      match vm.heap[f.a]
      case Prim(num) => PrimKeeps(w, vm, num, f, argv, exact);
      case Closure(m, self) => MethodKeeps(w, vm, m, self, argv, exact);
      case Cont(frame, stack) => ContKeeps(vm, frame, stack, argv, exact);
      case _ =>
    }
  }

  // The operand of a call is popped and the next instruction is where the
  // call will return to.
  lemma Calling(vm: Vm, exact: bool)
    requires Safe(vm, exact) && OP_CALL <= vm.code[vm.ip] <= OP_APPLY
    ensures exact ==> vm.stack != []
    ensures vm.stack != [] ==> Safe(Drop(vm, 1).(ip := vm.ip + Len(vm.code[vm.ip])), exact)
  {
    SafeFetches(vm, exact);
    FallsThrough(vm.code, vm.ip, Height(vm));
  }

  lemma SendKeeps(w: World, vm: Vm, op: byte, a: byte, exact: bool)
    requires GoodWorld(w, exact) && Safe(vm, exact) && op == vm.code[vm.ip] && (op == OP_CALL || op == OP_CALL_AS)
    ensures Keeps(ExecSend(w, vm, op, a), exact)
  {
    if ExecSend(w, vm, op, a).Run? {
      Calling(vm, exact);
      var argv := Top(vm);
      var m := w.findMethod(vm.heap, vm.acc.a, vm.lits[a].s).value;
      Entering(Drop(vm, 1).(ip := vm.ip + 2), m, argv.a, if op == OP_CALL_AS then vm.self else vm.acc, exact);
    }
  }

  lemma ReturnKeeps(vm: Vm, w: World, exact: bool)
    requires Safe(vm, exact) && vm.code[vm.ip] == OP_RET
    ensures Keeps(ExecCall(w, vm, OP_RET, 0), exact)
  {
    ReturnsLevel(vm.code, vm.ip, Height(vm));
  }

  lemma CallKeeps(w: World, vm: Vm, op: byte, a: byte, exact: bool)
    requires GoodWorld(w, exact) && Safe(vm, exact) && op == vm.code[vm.ip] && OP_RET <= op <= OP_APPLY
    ensures Keeps(ExecCall(w, vm, op, a), exact)
  {
    if op == OP_RET {
      ReturnKeeps(vm, w, exact);
    } else {
      Calling(vm, exact);
      if vm.stack == [] {
      } else if op == OP_APPLY {
        var o := Applied(w, vm, a);
        ApplyKeeps(w, Drop(vm, 1).(ip := vm.ip + 1), vm.acc, Top(vm), exact);
      } else {
        SendKeeps(w, vm, op, a, exact);
      }
    }
  }

  lemma OthersKeep(w: World, vm: Vm, op: byte, a: byte, b: byte, exact: bool)
    requires GoodWorld(w, exact) && Safe(vm, exact) && op == vm.code[vm.ip] && Emittable(op)
    requires a == Operand(vm.code[vm.ip..]) && !IsJump(op) && !(OP_RET <= op <= OP_APPLY)
    ensures Keeps(Exec(w, vm, op, if Len(op) >= 2 then a else 0, b), exact)
  {
    var a1 := if Len(op) >= 2 then a else 0;
    if Exec(w, vm, op, a1, b).Run? {
      if op <= OP_ATPUT { Element(w, vm, op, a1, exact); }
      else if op == OP_A_SLOT || op == OP_SLOT_A { Slot(w, vm, op, a1, exact); }
      else if OP_PUSH <= op <= OP_SWAP { Stack(vm, op, exact); }
      else if op >= OP_NOT { Arithmetic(w, vm, op, exact); }
      else if op >= OP_VECTOR { Build(w, vm, op, a1, exact); }
      else { Move(w, vm, op, a1, b, exact); }
      var vm2 := Exec(w, vm, op, a1, b).vm;
      if vm2.state != DYING {
        assert Delta(op, a1) == Delta(op, a);
        MovesSafely(vm, vm2, exact);
      }
    }
  }

  // One instruction.
  lemma InstrKeeps(w: World, vm: Vm, exact: bool)
    requires GoodWorld(w, exact) && Safe(vm, exact)
    ensures Keeps(Instr(w, vm), exact)
  {
    SafeFetches(vm, exact);
    var op := vm.code[vm.ip];
    var b := if Len(op) >= 3 then vm.code[vm.ip + 2] else 0;
    assert Len(op) >= 2 ==> Operand(vm.code[vm.ip..]) == vm.code[vm.ip + 1];
    if IsJump(op) {
      Jump(vm, op, vm.code[vm.ip + 1], b, exact);
    } else if OP_RET <= op <= OP_APPLY {
      CallKeeps(w, vm, op, if Len(op) >= 2 then vm.code[vm.ip + 1] else 0, exact);
    } else {
      OthersKeep(w, vm, op, Operand(vm.code[vm.ip..]), b, exact);
    }
  }

  // ---- Whole runs ----

  // In every state a run reaches, until an exception is raised, the machine
  // is at an instruction start of a finished block, with its operands on the
  // stack and below them exactly those its frames account for; or its thread
  // is dying because the stack ran over.
  lemma {:induction false} RunsSafely(w: World, tick: Vm -> Out, n: nat, vm: Vm, exact: bool) returns (o: Out)
    requires GoodWorld(w, exact) && Ticks(w, tick) && Safe(vm, exact)
    ensures o == Turns(tick, n, vm)
    ensures o.Run? && o.vm.state != DYING ==> Safe(o.vm, exact)
    decreases n, 0
  {
    if n == 0 || !Runnable(vm) {
      return Run(vm);
    }
    o := tick(vm);
    if o.Run? {
      assert o == Tick(w, vm);
      TickKeeps(w, vm, exact);
      o := OthersRunSafely(w, tick, n - 1, o.vm, exact);
    }
  }

  // The other turns, if there are any.
  lemma {:induction false} OthersRunSafely(w: World, tick: Vm -> Out, n: nat, vm: Vm, exact: bool) returns (o: Out)
    requires GoodWorld(w, exact) && Ticks(w, tick) && (vm.state == DYING || Safe(vm, exact))
    ensures o == Turns(tick, n, vm)
    ensures o.Run? && o.vm.state != DYING ==> Safe(o.vm, exact)
    decreases n, 1
  {
    if vm.state == DYING {
      o := Run(vm);
    } else {
      o := RunsSafely(w, tick, n, vm, exact);
    }
  }

  lemma TickKeeps(w: World, vm: Vm, exact: bool)
    requires GoodWorld(w, exact) && Safe(vm, exact) && Tick(w, vm).Run?
    ensures Keeps(Tick(w, vm), exact)
  {
    var v := Charge(w, vm).vm;
    assert v == vm.(state := v.state);
    InstrKeeps(w, v, exact);
  }
}
