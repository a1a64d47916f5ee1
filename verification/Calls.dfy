// Calls and returns nest, and continuations return where they were taken.
module Calls {
  import opened Bytes
  import opened Values
  import opened Machine

  // ---- What one instruction does to the frames ----

  // Neither the frame register nor a continuation is about to be installed.
  predicate Plain(vm: Vm) {
    && Op(vm) != OP_FRAM_A
    && (Op(vm) == OP_APPLY ==> !(vm.acc.Ref? && vm.acc.a < |vm.heap| && vm.heap[vm.acc.a].Cont?))
  }

  // The registers a frame holds are back.
  predicate Back(vm: Vm, f: Frame) {
    f.Frame? && vm == Restore(vm, f)
  }

  // The frame register stays, gains a frame, or loses one whose registers
  // are then restored.
  predicate Nests(vm: Vm, vm2: Vm) {
    || vm2.frame == vm.frame
    || (vm2.frame.Frame? && vm2.frame.link == vm.frame)
    || Back(vm2, vm.frame)
  }

  lemma ApplyNests(w: World, vm: Vm, f: Value, argv: Value)
    requires !(f.Ref? && f.a < |vm.heap| && vm.heap[f.a].Cont?) && Apply(w, vm, f, argv).Run?
    ensures Nests(vm, Apply(w, vm, f, argv).vm)
  {
  }

  lemma InstrNests(w: World, vm: Vm)
    requires Plain(vm) && Instr(w, vm).Run?
    ensures Nests(vm, Instr(w, vm).vm)
  {
    var op := Op(vm);
    if OP_RET <= op <= OP_APPLY {
      CallNests(w, vm, op, if Len(op) >= 2 then vm.code[vm.ip + 1] else 0);
    } else {
      OthersNest(w, vm, op, if Len(op) >= 2 then vm.code[vm.ip + 1] else 0,
                 if Len(op) >= 3 then vm.code[vm.ip + 2] else 0);
    }
  }

  lemma CallNests(w: World, vm: Vm, op: byte, a: byte)
    requires OP_RET <= op <= OP_APPLY && ExecCall(w, vm, op, a).Run?
    requires op == OP_APPLY ==> !(vm.acc.Ref? && vm.acc.a < |vm.heap| && vm.heap[vm.acc.a].Cont?)
    ensures Nests(vm, ExecCall(w, vm, op, a).vm)
  {
    if op == OP_APPLY && vm.stack != [] {
      var o := Applied(w, vm, a);
      ApplyNests(w, Drop(vm, 1).(ip := vm.ip + 1), vm.acc, Top(vm));
    }
  }

  lemma OthersNest(w: World, vm: Vm, op: byte, a: byte, b: byte)
    requires op != OP_FRAM_A && !(OP_RET <= op <= OP_APPLY) && Exec(w, vm, op, a, b).Run?
    ensures Exec(w, vm, op, a, b).vm.frame == vm.frame
  {
  }

  // ---- Runs ----

  // `g` is on the chain of frames that starts at `f`.
  predicate OnChain(f: Frame, g: Frame)
    decreases f
  {
    f == g || (f.Frame? && OnChain(f.link, g))
  }

  predicate PlainRun(step: Vm -> Out, n: nat, vm: Vm) {
    n == 0 || (Plain(vm) && (step(vm).Run? ==> PlainRun(step, n - 1, step(vm).vm)))
  }

  // A run that has not yet returned to `f` after `n` instructions.
  predicate Inside(step: Vm -> Out, n: nat, vm: Vm, f: Frame) {
    OnChain(vm.frame, f) && (n > 0 && step(vm).Run? ==> Inside(step, n - 1, step(vm).vm, f))
  }

  // The activation above `f` returns with instruction `j + 1`, not before.
  predicate ReturnsAt(step: Vm -> Out, j: nat, vm: Vm, f: Frame) {
    && Inside(step, j, vm, f)
    && Steps(step, j + 1, vm).Run? && Back(Steps(step, j + 1, vm).vm, f)
  }

  // Over any run without exceptions, continuations or frame-register writes:
  // an activation's frame stays on the chain until the moment it returns, and
  // at that moment the caller's registers are exactly those it saved.
  lemma {:induction false} FrameStays(w: World, step: Vm -> Out, n: nat, vm: Vm, f: Frame)
    requires Drives(w, step) && f.Frame? && OnChain(vm.frame, f) && PlainRun(step, n, vm)
    ensures Inside(step, n, vm, f) || exists j: nat :: j < n && ReturnsAt(step, j, vm, f)
    decreases n
  {
    if n > 0 && step(vm).Run? {
      var v1 := step(vm).vm;
      assert step(vm) == Instr(w, vm);
      InstrNests(w, vm);
      if OnChain(v1.frame, f) {
        FrameStays(w, step, n - 1, v1, f);
        if !Inside(step, n - 1, v1, f) {
          var j: nat :| j < n - 1 && ReturnsAt(step, j, v1, f);
          StepsAdd(step, 1, j + 1, vm, v1);
          assert ReturnsAt(step, j + 1, vm, f);
        }
      } else {
        assert Steps(step, 0, v1) == Run(v1);
        assert ReturnsAt(step, 0, vm, f);
      }
    }
  }

  // ---- Calls ----

  // An instruction that calls a closure or a method, on itself or `as`
  // another, setuid or not.
  predicate IsCall(vm: Vm) {
    || Op(vm) == OP_CALL || Op(vm) == OP_CALL_AS
    || (Op(vm) == OP_APPLY && IsClosure(vm.heap, vm.acc))
  }

  // Everything a call saves, with the instruction after it next.
  function Resume(vm: Vm): Frame {
    SavedFrame(vm.(ip := vm.ip + Len(Op(vm))))
  }

  lemma CallSaves(w: World, vm: Vm)
    requires IsCall(vm) && Instr(w, vm).Run?
    ensures var v := Instr(w, vm).vm; v.frame == Resume(vm) && v.ip == 0 && |v.stack| == |vm.stack| - 1
  {
  }

  // Whatever the callee runs, to any depth of further calls: either it is
  // still running, or the moment it returned the caller had its code, next
  // instruction, self, literals, environment, frame, method and effective
  // user back.
  lemma CallsNest(w: World, step: Vm -> Out, n: nat, vm: Vm)
    requires Drives(w, step) && IsCall(vm) && step(vm).Run? && PlainRun(step, n, step(vm).vm)
    ensures var v := step(vm).vm;
            Inside(step, n, v, Resume(vm)) || exists j: nat :: j < n && ReturnsAt(step, j, v, Resume(vm))
    ensures forall v :: Back(v, Resume(vm)) ==>
              && v.code == vm.code && v.ip == vm.ip + Len(Op(vm)) && v.self == vm.self && v.lits == vm.lits
              && v.env == vm.env && v.frame == vm.frame && v.meth == vm.meth && v.effuid == vm.effuid
  {
    assert step(vm) == Instr(w, vm);
    CallSaves(w, vm);
    FrameStays(w, step, n, step(vm).vm, Resume(vm));
  }

  // ---- Continuations ----

  // What call/cc leaves behind: an entered closure whose only argument is a
  // continuation cell holding the caller's frame and the live stack.
  predicate Captures(vm: Vm, v: Vm, k: nat) {
    && v.frame.Frame? && v.env.Ref? && IsVec(v.heap, v.env) && |v.heap[v.env.a].elems| == 2
    && v.heap[v.env.a].elems[1] == Ref(k)
    && k < |v.heap| && v.heap[k] == Cont(v.frame, v.stack) && v.stack == vm.stack
  }

  lemma CallCCCaptures(w: World, vm: Vm, f: Value)
    requires CallCC(w, vm, f).Run?
    ensures Captures(vm, CallCC(w, vm, f).vm, |vm.heap| + 1)
  {
  }

  // The machine is about to apply `f` to `v`.
  predicate Applies(vm: Vm, f: Value, v: Value) {
    && Op(vm) == OP_APPLY && vm.acc == f && vm.stack != [] && IsVec(vm.heap, Top(vm))
    && var elems := vm.heap[Top(vm).a].elems; |elems| == 2 && elems[1] == v
  }

  // Applying a continuation to `v` gives the same registers, live stack and
  // accumulator as a return of `v` into its frame; what is not part of a
  // continuation (heap, globals, trap, user, quota) is left alone.
  lemma ContinuationReturns(w: World, at: Vm, later: Vm, k: nat, frame: Frame, stack: seq<Value>, v: Value)
    requires frame.Frame? && frame.code != [] && |stack| <= STACK_LENGTH
    requires Op(at) == OP_RET && at.frame == frame && at.stack == stack && at.acc == v
    requires k < |later.heap| && later.heap[k] == Cont(frame, stack) && Applies(later, Ref(k), v)
    ensures Instr(w, at).Run? && Instr(w, later).Run?
    ensures var r, c := Instr(w, at).vm, Instr(w, later).vm;
            c == r.(heap := later.heap, globals := later.globals, trap := later.trap, uid := later.uid,
                    state := later.state)
  {
    assert Instr(w, at) == Run(Restore(at, frame));
    assert Instr(w, later) == ApplyCont(Drop(later, 1).(ip := later.ip + 1), frame, stack, Top(later));
  }

  // ---- Continuations are never changed ----

  // A later heap: cells are added, and continuations stay what they are.
  predicate KeepsContinuations(h: Heap, h2: Heap) {
    |h| <= |h2| && forall k | 0 <= k < |h| && h[k].Cont? :: h2[k] == h[k]
  }

  // Primitives and slot writes do not touch continuations either.
  ghost predicate Gentle(w: World) {
    && (forall h, a, s, v, u {:trigger w.slotSet(h, a, s, v, u)} ::
          w.slotSet(h, a, s, v, u).SlotWritten? ==> KeepsContinuations(h, w.slotSet(h, a, s, v, u).heap))
    && (forall num, vm, argv {:trigger w.prim(num, vm, argv)} ::
          w.prim(num, vm, argv).PrimDone? ==> KeepsContinuations(vm.heap, w.prim(num, vm, argv).heap))
  }

  // Whether an exception is raised or not.
  predicate Spares(h: Heap, o: Out) {
    o.Bad? || KeepsContinuations(h, o.vm.heap)
  }

  lemma RaiseSpares(w: World, vm: Vm, exc: Value, arg: Value)
    requires Gentle(w)
    ensures Spares(vm.heap, Raise(w, vm, exc, arg))
  {
  }

  lemma MethodSpares(w: World, vm: Vm, m: Method, self: Value, argv: Value)
    requires Gentle(w)
    ensures Spares(vm.heap, ApplyMethod(w, vm, m, self, argv))
  {
    RaiseSpares(w, vm, SymVal("no-permission"), m.name);
    RaiseSpares(w, vm, SymVal("wrong-argc"), MethodVal(m));
  }

  lemma CallCCSpares(w: World, vm: Vm, f: Value)
    requires Gentle(w)
    ensures Spares(vm.heap, CallCC(w, vm, f))
  {
    if IsClosure(vm.heap, f) {
      var cell := vm.heap[f.a];
      MethodSpares(w, vm.(heap := vm.heap + [Vec([Null, Null])]), cell.meth, cell.self, Ref(|vm.heap|));
    } else {
      RaiseSpares(w, vm, SymVal("type-error"), f);
    }
  }

  lemma PrimSpares(w: World, vm: Vm, num: nat, f: Value, argv: Value)
    requires Gentle(w)
    ensures Spares(vm.heap, ApplyPrim(w, vm, num, f, argv))
  {
    RaiseSpares(w, vm, SymVal("invalid-primitive"), Num(num));
    RaiseSpares(w, vm, SymVal("wrong-argc"), f);
    if IsVec(vm.heap, argv) {
      if num == CALL_CC && |vm.heap[argv.a].elems| >= 2 {
        CallCCSpares(w, vm, vm.heap[argv.a].elems[1]);
      }
      var o := w.prim(num, vm, argv.a);
      if o.PrimRaises? {
        RaiseSpares(w, vm, o.exc, o.arg);
      }
    }
  }

  lemma ApplySpares(w: World, vm: Vm, f: Value, argv: Value)
    requires Gentle(w)
    ensures Spares(vm.heap, Apply(w, vm, f, argv))
  {
    if f.Ref? && f.a < |vm.heap| {
      match vm.heap[f.a]
      case Prim(num) => PrimSpares(w, vm, num, f, argv);
      case Closure(m, self) => MethodSpares(w, vm, m, self, argv);
      case _ =>
    } else {
      RaiseSpares(w, vm, SymVal("invalid-callable"), f);
    }
  }

  lemma SlotSpares(w: World, vm: Vm, op: byte, a: byte)
    requires Gentle(w)
    ensures Spares(vm.heap, ExecSlot(w, vm, op, a))
  {
    if a < |vm.lits| && vm.lits[a].SymVal? {
      RaiseSpares(w, vm, SymVal("vm-runtime-type-error"), vm.acc);
      RaiseSpares(w, vm, SymVal("no-permission"), vm.lits[a]);
      RaiseSpares(w, vm, SymVal("slot-not-found"), vm.lits[a]);
      if vm.stack != [] {
        RaiseSpares(w, Drop(vm, 1), SymVal("vm-runtime-type-error"), Top(vm));
        RaiseSpares(w, Drop(vm, 1), SymVal("no-permission"), vm.lits[a]);
        RaiseSpares(w, Drop(vm, 1), SymVal("slot-not-found"), vm.lits[a]);
      }
    }
  }

  lemma SendSpares(w: World, vm: Vm, op: byte, a: byte)
    requires Gentle(w)
    ensures Spares(vm.heap, ExecSend(w, vm, op, a))
  {
    if a < |vm.lits| && vm.lits[a].SymVal? {
      RaiseSpares(w, vm, SymVal("null-call-error"), vm.lits[a]);
      RaiseSpares(w, vm, SymVal("vm-runtime-type-error"), vm.acc);
      RaiseSpares(w, vm, SymVal("method-not-found"), vm.lits[a]);
      RaiseSpares(w, vm, SymVal("no-permission"), vm.lits[a]);
      if vm.stack != [] {
        RaiseSpares(w, Drop(vm, 1), SymVal("wrong-argc"), vm.lits[a]);
      }
    }
  }

  lemma ReturnSpares(w: World, vm: Vm, a: byte)
    ensures Spares(vm.heap, ExecCall(w, vm, OP_RET, a))
    ensures vm.stack == [] ==> ExecCall(w, vm, OP_APPLY, a) == Bad
  {
  }

  lemma CallSpares(w: World, vm: Vm, op: byte, a: byte)
    requires Gentle(w) && OP_RET <= op <= OP_APPLY
    ensures Spares(vm.heap, ExecCall(w, vm, op, a))
  {
    ReturnSpares(w, vm, a);
    if op == OP_APPLY {
      if vm.stack != [] {
        var o := Applied(w, vm, a);
        ApplySpares(w, Drop(vm, 1).(ip := vm.ip + 1), vm.acc, Top(vm));
      }
    } else if op != OP_RET {
      SendSpares(w, vm, op, a);
    }
  }

  lemma ElementSpares(w: World, vm: Vm, op: byte, a: byte)
    requires Gentle(w)
    ensures Spares(vm.heap, ExecElement(w, vm, op, a))
  {
    if op == OP_AT || vm.stack != [] {
      var hold := if op == OP_AT then vm.acc else Top(vm);
      RaiseSpares(w, vm, SymVal("range-check-error"), hold);
      RaiseSpares(w, vm, SymVal("vm-runtime-type-error"), hold);
    }
  }

  lemma ArithSpares(w: World, vm: Vm, op: byte)
    requires Gentle(w)
    ensures Spares(vm.heap, ExecArith(w, vm, op))
  {
    RaiseSpares(w, vm, SymVal("divide-by-zero"), Null);
    RaiseSpares(w, vm, SymVal("vm-runtime-type-error"), vm.acc);
  }

  lemma BuildSpares(w: World, vm: Vm, op: byte, a: byte)
    requires Gentle(w)
    ensures Spares(vm.heap, ExecBuild(w, vm, op, a))
  {
    if op == OP_METHOD_CLOSURE && a < |vm.lits| {
      RaiseSpares(w, vm, SymVal("vm-runtime-type-error"), vm.acc);
      RaiseSpares(w, vm, SymVal("method-not-found"), vm.lits[a]);
      RaiseSpares(w, vm, SymVal("no-permission"), vm.lits[a]);
    }
  }

  lemma MoveSpares(w: World, vm: Vm, op: byte, a: byte, b: byte)
    requires Gentle(w)
    ensures Spares(vm.heap, ExecMove(w, vm, op, a, b))
  {
    RaiseSpares(w, vm, SymVal("no-permission"), SymVal("setting-global-value"));
    RaiseSpares(w, vm, SymVal("no-permission"), SymVal("restoring-vm-frame-pointer"));
    RaiseSpares(w, vm, SymVal("vm-runtime-type-error"), vm.acc);
  }

  lemma ExecSpares(w: World, vm: Vm, op: byte, a: byte, b: byte)
    requires Gentle(w)
    ensures Spares(vm.heap, Exec(w, vm, op, a, b))
  {
    if op <= OP_ATPUT { ElementSpares(w, vm, op, a); }
    else if op == OP_A_SLOT || op == OP_SLOT_A { SlotSpares(w, vm, op, a); }
    else if OP_PUSH <= op <= OP_SWAP { }
    else if OP_RET <= op <= OP_APPLY { CallSpares(w, vm, op, a); }
    else if op >= OP_NOT { ArithSpares(w, vm, op); }
    else if op >= OP_JUMP { }
    else if op >= OP_VECTOR { BuildSpares(w, vm, op, a); }
    else { MoveSpares(w, vm, op, a, b); }
  }

  lemma InstrSpares(w: World, vm: Vm)
    requires Gentle(w)
    ensures Spares(vm.heap, Instr(w, vm))
  {
    var o, op, a, b := Decoded(w, vm);
    if o != Bad {
      ExecSpares(w, vm, op, a, b);
    }
  }

  // A turn of the interpreter loop, in which the quota may run out first.
  lemma TickSpares(w: World, vm: Vm)
    requires Gentle(w)
    ensures Spares(vm.heap, Tick(w, vm))
  {
    RaiseSpares(w, vm.(state := DEFAULT_QUOTA), SymVal("quota-expired"), Null);
    var c := Charge(w, vm);
    if c.Run? || c.Raised? {
      InstrSpares(w, c.vm);
    }
  }

  // ---- At any later time ----

  // All threads work on one heap.  `turns` are the machines as each of a
  // series of turns finds them, whichever thread's turn it is and whether it
  // raises an exception or not; the first finds heap `h`.
  predicate Series(tick: Vm -> Out, h: Heap, turns: seq<Vm>)
    decreases |turns|
  {
    turns == [] ||
    (turns[0].heap == h && !tick(turns[0]).Bad? && Series(tick, tick(turns[0]).vm.heap, turns[1..]))
  }

  function HeapAfter(tick: Vm -> Out, h: Heap, turns: seq<Vm>): Heap
    requires Series(tick, h, turns)
    decreases |turns|
  {
    if turns == [] then h else HeapAfter(tick, tick(turns[0]).vm.heap, turns[1..])
  }

  // No turn of any thread changes a continuation.
  lemma {:induction false} ContinuationsLast(w: World, tick: Vm -> Out, h: Heap, turns: seq<Vm>)
    requires Gentle(w) && Ticks(w, tick) && Series(tick, h, turns)
    ensures KeepsContinuations(h, HeapAfter(tick, h, turns))
    decreases |turns|
  {
    if turns != [] {
      assert tick(turns[0]) == Tick(w, turns[0]);
      TickSpares(w, turns[0]);
      ContinuationsLast(w, tick, tick(turns[0]).vm.heap, turns[1..]);
    }
  }

  // Once call/cc has entered its closure, then after any series of turns, in
  // which the continuation may have been applied any number of times: to
  // apply it to `v`, in whatever thread, is to be where the closure's return
  // of `v` with its entry stack height leads.
  lemma ContinuationResumes(w: World, tick: Vm -> Out, vm: Vm, f: Value, turns: seq<Vm>, at: Vm, later: Vm, v: Value)
    requires Gentle(w) && Ticks(w, tick) && vm.code != [] && |vm.stack| <= STACK_LENGTH && CallCC(w, vm, f).Run?
    requires var c := CallCC(w, vm, f).vm;
             && Series(tick, c.heap, turns) && later.heap == HeapAfter(tick, c.heap, turns)
             && Op(at) == OP_RET && at.frame == c.frame && at.stack == c.stack && at.acc == v
    requires Applies(later, Ref(|vm.heap| + 1), v)
    ensures Instr(w, at).Run? && Instr(w, later).Run?
    ensures var r, c := Instr(w, at).vm, Instr(w, later).vm;
            c == r.(heap := later.heap, globals := later.globals, trap := later.trap, uid := later.uid,
                    state := later.state)
  {
    var c := CallCC(w, vm, f).vm;
    CallCCCaptures(w, vm, f);
    ContinuationsLast(w, tick, c.heap, turns);
    ContinuationReturns(w, at, later, |vm.heap| + 1, c.frame, c.stack, v);
  }
}
