// run_vm and what it calls, on registers and a stack array changed in place.
module Interpreter {
  import opened Bytes
  import opened Values
  import opened Machine

  // What became of an instruction; see Machine.Out.
  datatype Status = Ran | Excepted | Halted | Lost

  predicate Meets(o: Out, s: Status, vm: Vm) {
    match o
    case Run(v) => s == Ran && vm == v
    case Raised(v) => s == Excepted && vm == v
    case Halt(v) => s == Halted && vm == v
    case Bad => s == Lost
  }

  function Fresh(heap: Heap, globals: map<Sym, Value>): Vm {
    Vm(Null, [], 0, Null, [], Null, [], NoFrame, Null, Null, Null, Null, DEFAULT_QUOTA, heap, globals)
  }

  class VmState {
    const w: World
    const stack: array<Value>
    var r: Vm            // all registers; the stack is kept apart
    var top: nat

    ghost predicate Valid()
      reads `r, `top
    {
      stack.Length == STACK_LENGTH && top <= STACK_LENGTH && r.stack == []
    }

    function State(): Vm
      reads `r, `top, stack
      requires Valid()
    {
      r.(stack := stack[..top])
    }

    // init_vm
    constructor (w: World, heap: Heap, globals: map<Sym, Value>)
      ensures Valid() && this.w == w && fresh(stack) && State() == Fresh(heap, globals)
    {
      this.w := w;
      stack := new Value[STACK_LENGTH](i => Null);
      r, top := Fresh(heap, globals), 0;
    }

    // ---- Stack ----

    method PushValue(v: Value)
      requires Valid()
      modifies `r, `top, stack
      ensures Valid() && State() == Push(old(State()), v)
    {
      if top >= STACK_LENGTH {
        top, r := 0, r.(state := DYING);
      }
      stack[top] := v;
      top := top + 1;
    }

    // From an empty stack whatever stands in its first place is taken, and the
    // thread dies.
    method PopValue() returns (v: Value)
      requires Valid()
      modifies `r, `top
      ensures Valid() && (old(top) == 0 ==> v == stack[0] && State() == old(State()).(state := DYING))
      ensures old(top) > 0 ==> v == Top(old(State())) && State() == Drop(old(State()), 1)
    {
      if top == 0 {
        top, r := 1, r.(state := DYING);
      }
      top := top - 1;
      v := stack[top];
      assert old(top) > 0 ==> stack[..old(top)][..old(top) - 1] == stack[..top];
    }

    method PeekValue() returns (v: Value)
      requires Valid() && top > 0
      ensures v == Top(State())
    {
      v := stack[top - 1];
    }

    // ---- Frames ----

    method PushFrame()
      requires Valid()
      modifies `r
      ensures Valid() && State() == old(State()).(frame := SavedFrame(old(State())))
    {
      var f := Frame(r.code, r.ip, r.self, r.lits, r.env, r.frame, r.meth, r.effuid);
      r := r.(frame := f);
    }

    method RestoreFrame(f: Frame)
      requires Valid() && f.Frame?
      modifies `r
      ensures Valid() && State() == Restore(old(State()), f)
    {
      r := r.(code := f.code, ip := f.ip);
      r := r.(self := f.self, lits := f.lits, env := f.env);
      r := r.(frame := f.link, meth := f.meth, effuid := f.effuid);
    }

    // A continuation: the frame and a copy of the live stack.
    method GetCont() returns (k: nat)
      requires Valid()
      modifies `r
      ensures Valid() && k == old(|State().heap|)
      ensures State() == old(State()).(heap := old(State()).heap + [Cont(old(State()).frame, old(State()).stack)])
    {
      var copy, i := [], 0;
      while i < top
        invariant i <= top && copy == stack[..i]
      {
        copy := copy + [stack[i]];
        i := i + 1;
      }
      k := |r.heap|;
      r := r.(heap := r.heap + [Cont(r.frame, copy)]);
    }

    method LoadStack(xs: seq<Value>)
      requires Valid() && |xs| <= STACK_LENGTH
      modifies `top, stack
      ensures Valid() && State() == old(State()).(stack := xs)
    {
      var i := 0;
      while i < |xs|
        invariant i <= |xs| && forall j | 0 <= j < i :: stack[j] == xs[j]
      {
        stack[i] := xs[i];
        i := i + 1;
      }
      top := |xs|;
      assert stack[..top] == xs;
    }

    // The part of apply_closure that starts a method.
    method EnterMethod(m: Method, argv: nat, self: Value)
      requires Valid() && argv < |r.heap| && r.heap[argv].Vec? && r.heap[argv].elems != []
      modifies `r
      ensures Valid() && State() == Enter(old(State()), m, argv, self)
    {
      PushFrame();
      r := r.(env := Ref(argv));
      r := r.(heap := r.heap[argv := Vec(r.heap[argv].elems[0 := m.env])]);
      r := r.(lits := m.lits, code := m.code, self := self, ip := 0, meth := MethodVal(m));
      if Setuid(m) {
        r := r.(effuid := m.owner);
      }
    }

    // ---- Exceptions ----

    method VmRaise(exc: Value, arg: Value) returns (s: Status)
      requires Valid()
      modifies `r, `top
      ensures Valid() && Meets(Raise(w, old(State()), exc, arg), s, State())
    {
      if r.trap.Null? {
        r := r.(state := DYING);
        return Excepted;
      }
      if !(r.trap.Ref? && r.trap.a < |r.heap|) {
        return Lost;
      }
      var handler, argv := r.heap[r.trap.a], |r.heap|;
      PrepareRaise(exc, arg);
      s := CallHandler(handler, argv);
      r := r.(frame := NoFrame);
    }

    method PrepareRaise(exc: Value, arg: Value)
      requires Valid()
      modifies `r, `top
      ensures Valid() && State() == RaiseState(old(State()), exc, arg)
    {
      ghost var before, argv := State(), |r.heap|;
      PushFrame();
      r := r.(heap := r.heap + [Vec([Null, exc, arg, Ref(|r.heap| + 1), r.acc])]);
      var k := GetCont();
      top := 0;
      assert r.heap == before.heap + [Vec([Null, exc, arg, Ref(argv + 1), before.acc]), Cont(r.frame, before.stack)];
    }

    // The handler's call; what it does to the frame does not matter.
    method CallHandler(handler: Cell, argv: nat) returns (s: Status)
      requires Valid() && argv < |r.heap| && r.heap[argv].Vec? && r.heap[argv].elems != []
      modifies `r
      ensures Valid() && Meets(Handled(w, old(State()), handler, argv), s, State().(frame := NoFrame))
    {
      match handler {
        case Closure(m, self) =>
          if !w.canRun(m.flags, m.owner, r.effuid) || m.argc != 4 {
            return Lost;
          }
          EnterMethod(m, argv, self);
        case Prim(num) =>
          if num == CALL_CC || w.primArgc(num).None? || !ArgcFits(w.primArgc(num).value, 4) {
            return Lost;
          }
          var o := w.prim(num, State(), argv);
          if o.PrimRaises? {
            return Lost;
          }
          Finish(o);
        case _ =>
          return Lost;
      }
      s := Excepted;
    }

    method Finish(o: PrimOut)
      requires Valid() && o.PrimDone?
      modifies `r
      ensures Valid() && State() == FinishPrim(old(State()), o)
    {
      r := r.(acc := o.acc, heap := o.heap, globals := o.globals, trap := o.trap, uid := o.uid,
              effuid := o.effuid, state := o.state);
    }

    method RaiseSym(name: Sym, arg: Value) returns (s: Status)
      requires Valid()
      modifies `r, `top
      ensures Valid() && Meets(RaiseName(w, old(State()), name, arg), s, State())
    {
      s := VmRaise(SymVal(name), arg);
    }

    // ---- apply_closure, by what is applied ----

    method ApplyMethodTo(m: Method, self: Value, argv: Value) returns (s: Status)
      requires Valid()
      modifies `r, `top
      ensures Valid() && Meets(ApplyMethod(w, old(State()), m, self, argv), s, State())
    {
      if !w.canRun(m.flags, m.owner, r.effuid) {
        s := RaiseSym("no-permission", m.name);
      } else if !IsVec(r.heap, argv) {
        s := Lost;
      } else if |r.heap[argv.a].elems| - 1 != m.argc {
        s := RaiseSym("wrong-argc", MethodVal(m));
      } else {
        EnterMethod(m, argv.a, self);
        s := Ran;
      }
    }

    // callCCFun: the continuation is taken once the closure has been entered.
    method CallWithCC(f: Value) returns (s: Status)
      requires Valid()
      modifies `r, `top
      ensures Valid() && Meets(CallCC(w, old(State()), f), s, State())
    {
      if !IsClosure(r.heap, f) {
        s := RaiseSym("type-error", f);
        if s == Excepted {
          r := r.(acc := UNDEFINED);
        }
        return;
      }
      var av, cell := |r.heap|, r.heap[f.a];
      r := r.(heap := r.heap + [Vec([Null, Null])]);
      s := ApplyMethodTo(cell.meth, cell.self, Ref(av));
      if s == Ran {
        if !(av < |r.heap| && r.heap[av].Vec? && |r.heap[av].elems| == 2) {
          return Lost;
        }
        StoreCont(av);
      }
    }

    method StoreCont(av: nat)
      requires Valid() && av < |r.heap| && r.heap[av].Vec? && |r.heap[av].elems| == 2
      modifies `r
      ensures Valid()
      ensures var v := old(State());
              State() == v.(heap := v.heap[av := Vec(v.heap[av].elems[1 := Ref(|v.heap|)])] + [Cont(v.frame, v.stack)])
    {
      ghost var v := State();
      var k := GetCont();
      r := r.(heap := r.heap[av := Vec(r.heap[av].elems[1 := Ref(k)])]);
      assert r.heap == v.heap[av := Vec(v.heap[av].elems[1 := Ref(|v.heap|)])] + [Cont(v.frame, v.stack)];
    }

    method ApplyPrimTo(num: nat, f: Value, argv: Value) returns (s: Status)
      requires Valid()
      modifies `r, `top
      ensures Valid() && Meets(ApplyPrim(w, old(State()), num, f, argv), s, State())
    {
      if w.primArgc(num).None? {
        s := RaiseSym("invalid-primitive", Num(num));
      } else if !IsVec(r.heap, argv) {
        s := Lost;
      } else if !ArgcFits(w.primArgc(num).value, |r.heap[argv.a].elems| - 1) {
        s := RaiseSym("wrong-argc", f);
      } else if num == CALL_CC {
        if |r.heap[argv.a].elems| < 2 {
          s := Lost;
        } else {
          s := CallWithCC(r.heap[argv.a].elems[1]);
        }
      } else {
        var o := w.prim(num, State(), argv.a);
        s := Returned(o);
      }
    }

    // A primitive's result goes to the accumulator, raised or not.
    method Returned(o: PrimOut) returns (s: Status)
      requires Valid()
      modifies `r, `top
      ensures Valid()
      ensures match o
              case PrimRaises(exc, arg, result) =>
                (match Raise(w, old(State()), exc, arg)
                 case Raised(v) => s == Excepted && State() == v.(acc := result)
                 case x => Meets(x, s, State()))
              case _ => s == Ran && State() == FinishPrim(old(State()), o)
    {
      match o
      case PrimRaises(exc, arg, result) =>
        s := VmRaise(exc, arg);
        if s == Excepted {
          r := r.(acc := result);
        }
      case _ =>
        Finish(o);
        s := Ran;
    }

    method ApplyContTo(frame: Frame, saved: seq<Value>, argv: Value) returns (s: Status)
      requires Valid()
      modifies `r, `top, stack
      ensures Valid() && Meets(ApplyCont(old(State()), frame, saved, argv), s, State())
    {
      if frame.NoFrame? || |saved| > STACK_LENGTH || !IsVec(r.heap, argv) || |r.heap[argv.a].elems| < 2 {
        return Lost;
      }
      LoadStack(saved);
      RestoreFrame(frame);
      r := r.(acc := r.heap[argv.a].elems[1]);
      s := Ran;
    }

    method ApplyClosure(f: Value, argv: Value) returns (s: Status)
      requires Valid()
      modifies `r, `top, stack
      ensures Valid() && Meets(Apply(w, old(State()), f, argv), s, State())
    {
      if !f.Ref? {
        s := RaiseSym("invalid-callable", f);
      } else if f.a >= |r.heap| {
        s := Lost;
      } else {
        match r.heap[f.a]
        case Prim(num) => s := ApplyPrimTo(num, f, argv);
        case Closure(m, self) => s := ApplyMethodTo(m, self, argv);
        case Cont(frame, saved) => s := ApplyContTo(frame, saved, argv);
        case _ => s := Lost;
      }
    }

    // ---- Instructions ----

    method DoStack(op: byte) returns (s: Status)
      requires Valid() && OP_PUSH <= op <= OP_SWAP
      modifies `r, `top, stack
      ensures Valid() && Meets(ExecStack(old(State()), op), s, State())
    {
      if op == OP_PUSH {
        PushValue(r.acc);
        r := r.(ip := r.ip + 1);
        return Ran;
      }
      if top == 0 {
        return Lost;
      }
      if op == OP_POP {
        var v := PopValue();
        r := r.(acc := v, ip := r.ip + 1);
      } else {
        Swap();
      }
      s := Ran;
    }

    method Swap()
      requires Valid() && top > 0
      modifies `r, stack
      ensures Valid() && ExecStack(old(State()), OP_SWAP) == Run(State())
    {
      var hold := r.acc;
      r := r.(acc := stack[top - 1]);
      stack[top - 1] := hold;
      r := r.(ip := r.ip + 1);
      assert stack[..top] == old(stack[..top])[..top - 1] + [hold];
    }

    method DoJump(op: byte, a: byte, b: byte) returns (s: Status)
      requires Valid() && OP_JUMP <= op <= OP_JUMP_FALSE
      modifies `r
      ensures Valid() && Meets(ExecJump(old(State()), op, a, b), s, State())
    {
      r := r.(ip := r.ip + 3);
      if op == OP_JUMP || (op == OP_JUMP_TRUE && r.acc != FALSE) || (op == OP_JUMP_FALSE && r.acc == FALSE) {
        r := r.(ip := r.ip + Signed16(a, b));
      }
      s := Ran;
    }

    method DoElement(op: byte, a: byte) returns (s: Status)
      requires Valid() && (op == OP_AT || op == OP_ATPUT)
      modifies `r, `top
      ensures Valid() && Meets(ExecElement(w, old(State()), op, a), s, State())
    {
      if op == OP_ATPUT && top == 0 {
        return Lost;
      }
      var v := r.acc;
      if op == OP_ATPUT {
        v := PeekValue();
      }
      var n := BoxLength(r.heap, v);
      if n.None? {
        s := Lost;
      } else if a >= n.value {
        s := RaiseSym("range-check-error", v);
      } else if !IsVec(r.heap, v) {
        s := RaiseSym("vm-runtime-type-error", v);
      } else if op == OP_AT {
        r := r.(acc := r.heap[v.a].elems[a], ip := r.ip + 2);
        s := Ran;
      } else {
        r := r.(heap := r.heap[v.a := Vec(r.heap[v.a].elems[a := r.acc])], ip := r.ip + 2);
        s := Ran;
      }
    }

    // The environment vector `i` links up that has offset `o`.
    method FindLocal(i: nat, o: nat) returns (f: Option<nat>)
      requires Valid()
      ensures f == Local(r.heap, r.env, i, o)
    {
      var env, left := r.env, i;
      while left > 0
        invariant 0 <= left <= i && EnvUp(r.heap, env, left) == EnvUp(r.heap, r.env, i)
      {
        if !IsVec(r.heap, env) || r.heap[env.a].elems == [] {
          return None;
        }
        env, left := r.heap[env.a].elems[0], left - 1;
      }
      f := if IsVec(r.heap, env) && o + 1 < |r.heap[env.a].elems| then Some(env.a) else None;
    }

    method DoMove(op: byte, a: byte, b: byte) returns (s: Status)
      requires Valid()
      modifies `r, `top
      ensures Valid() && Meets(ExecMove(w, old(State()), op, a, b), s, State())
    {
      if op == OP_A_LOCL || op == OP_LOCL_A {
        s := DoLocal(op, a, b);
      } else if op == OP_A_GLOB || op == OP_GLOB_A {
        s := DoGlobal(op, a);
      } else if op == OP_A_LITL {
        if a >= |r.lits| {
          return Lost;
        }
        r := r.(acc := r.lits[a], ip := r.ip + 2);
        s := Ran;
      } else if op == OP_A_SELF {
        r := r.(acc := r.self, ip := r.ip + 1);
        s := Ran;
      } else {
        s := DoFrame(op);
      }
    }

    method DoLocal(op: byte, a: byte, b: byte) returns (s: Status)
      requires Valid() && (op == OP_A_LOCL || op == OP_LOCL_A)
      modifies `r
      ensures Valid() && Meets(ExecMove(w, old(State()), op, a, b), s, State())
    {
      var f := FindLocal(a, b);
      if f.None? {
        return Lost;
      }
      if op == OP_A_LOCL {
        r := r.(acc := r.heap[f.value].elems[b + 1], ip := r.ip + 3);
      } else {
        r := r.(heap := r.heap[f.value := Vec(r.heap[f.value].elems[b + 1 := r.acc])], ip := r.ip + 3);
      }
      s := Ran;
    }

    method DoGlobal(op: byte, a: byte) returns (s: Status)
      requires Valid() && (op == OP_A_GLOB || op == OP_GLOB_A)
      modifies `r, `top
      ensures Valid() && Meets(ExecMove(w, old(State()), op, a, 0), s, State())
    {
      if op == OP_GLOB_A && !w.privileged(r.effuid) {
        s := RaiseSym("no-permission", SymVal("setting-global-value"));
      } else if a >= |r.lits| || !r.lits[a].SymVal? {
        s := Lost;
      } else if op == OP_A_GLOB {
        r := r.(acc := Global(r.globals, r.lits[a].s), ip := r.ip + 2);
        s := Ran;
      } else {
        r := r.(globals := r.globals[r.lits[a].s := r.acc], ip := r.ip + 2);
        s := Ran;
      }
    }

    method DoFrame(op: byte) returns (s: Status)
      requires Valid() && !(op in {OP_A_LOCL, OP_LOCL_A, OP_A_GLOB, OP_GLOB_A, OP_A_LITL, OP_A_SELF})
      modifies `r, `top
      ensures Valid() && Meets(ExecMove(w, old(State()), op, 0, 0), s, State())
    {
      if op == OP_A_FRAM {
        r := r.(acc := if r.frame.NoFrame? then Null else FrameVal(r.frame), ip := r.ip + 1);
        s := Ran;
      } else if op != OP_FRAM_A {
        s := Lost;
      } else if !w.privileged(r.effuid) {
        s := RaiseSym("no-permission", SymVal("restoring-vm-frame-pointer"));
      } else if !r.acc.FrameVal? {
        s := RaiseSym("vm-runtime-type-error", r.acc);
      } else {
        r := r.(frame := r.acc.f, ip := r.ip + 1);
        s := Ran;
      }
    }

    method DoSlot(op: byte, a: byte) returns (s: Status)
      requires Valid() && (op == OP_A_SLOT || op == OP_SLOT_A)
      modifies `r, `top
      ensures Valid() && Meets(ExecSlot(w, old(State()), op, a), s, State())
    {
      if a >= |r.lits| || !r.lits[a].SymVal? {
        return Lost;
      }
      var name := r.lits[a];
      if op == OP_A_SLOT {
        s := ReadSlot(name);
      } else if top == 0 {
        s := Lost;
      } else {
        var target := PopValue();
        s := WriteSlot(target, name);
      }
    }

    method ReadSlot(name: Value) returns (s: Status)
      requires Valid() && name.SymVal?
      modifies `r, `top
      ensures Valid()
      ensures var vm := old(State());
              Meets(if !IsObject(vm.heap, vm.acc) then TypeError(w, vm, vm.acc)
                    else match w.slotGet(vm.heap, vm.acc.a, name.s, vm.effuid)
                         case SlotValue(v) => Run(vm.(acc := v, ip := vm.ip + 2))
                         case ReadDenied => RaiseName(w, vm, "no-permission", name)
                         case NoSlot => RaiseName(w, vm, "slot-not-found", name), s, State())
    {
      if !IsObject(r.heap, r.acc) {
        s := RaiseSym("vm-runtime-type-error", r.acc);
        return;
      }
      match w.slotGet(r.heap, r.acc.a, name.s, r.effuid)
      case SlotValue(v) =>
        r := r.(acc := v, ip := r.ip + 2);
        s := Ran;
      case ReadDenied => s := RaiseSym("no-permission", name);
      case NoSlot => s := RaiseSym("slot-not-found", name);
    }

    // The target has been popped.
    method WriteSlot(target: Value, name: Value) returns (s: Status)
      requires Valid() && name.SymVal?
      modifies `r, `top
      ensures Valid()
      ensures var vm := old(State());
              Meets(if !IsObject(vm.heap, target) then TypeError(w, vm, target)
                    else match w.slotSet(vm.heap, target.a, name.s, vm.acc, vm.effuid)
                         case SlotWritten(h) => Run(vm.(heap := h, ip := vm.ip + 2))
                         case WriteDenied => RaiseName(w, vm, "no-permission", name)
                         case NoTarget => RaiseName(w, vm, "slot-not-found", name), s, State())
    {
      if !IsObject(r.heap, target) {
        s := RaiseSym("vm-runtime-type-error", target);
        return;
      }
      match w.slotSet(r.heap, target.a, name.s, r.acc, r.effuid)
      case SlotWritten(h) =>
        r := r.(heap := h, ip := r.ip + 2);
        s := Ran;
      case WriteDenied => s := RaiseSym("no-permission", name);
      case NoTarget => s := RaiseSym("slot-not-found", name);
    }

    method DoBuild(op: byte, a: byte) returns (s: Status)
      requires Valid() && OP_VECTOR <= op <= OP_METHOD_CLOSURE
      modifies `r, `top
      ensures Valid() && Meets(ExecBuild(w, old(State()), op, a), s, State())
    {
      if op == OP_METHOD_CLOSURE {
        s := CloseMethod(a);
      } else if op == OP_MAKE_VECTOR {
        s := MakeVector(a);
      } else if op == OP_VECTOR {
        var (h, v) := NewVector(r.heap, Nulls(a));
        r := r.(heap := h, acc := v, ip := r.ip + 2);
        s := Ran;
      } else if op == OP_ENTER_SCOPE {
        var env := |r.heap|;
        r := r.(heap := r.heap + [Vec([r.env] + Nulls(a))], env := Ref(env), ip := r.ip + 2);
        s := Ran;
      } else if op == OP_LEAVE_SCOPE {
        if !IsVec(r.heap, r.env) || r.heap[r.env.a].elems == [] {
          return Lost;
        }
        r := r.(env := r.heap[r.env.a].elems[0], ip := r.ip + 1);
        s := Ran;
      } else if op == OP_CLOSURE {
        if !r.acc.MethodVal? {
          return Lost;
        }
        var m := r.acc.m.(env := r.env, owner := r.effuid);
        r := r.(acc := Ref(|r.heap|), heap := r.heap + [Closure(m, r.self)], ip := r.ip + 1);
        s := Ran;
      } else {
        s := Lost;
      }
    }

    // The vector is filled from its end while the stack is popped.
    method MakeVector(a: byte) returns (s: Status)
      requires Valid()
      modifies `r, `top
      ensures Valid() && Meets(ExecBuild(w, old(State()), OP_MAKE_VECTOR, a), s, State())
    {
      if a > top {
        return Lost;
      }
      var es, i := Nulls(a), a;
      while i > 0
        invariant r == old(r) && 0 <= i <= a && |es| == a && top == old(top) - (a - i)
                  && es[i..] == stack[top..old(top)]
      {
        i := i - 1;
        top := top - 1;
        es := es[i := stack[top]];
      }
      assert es == old(State()).stack[old(top) - a..];
      assert stack[..top] == old(State()).stack[..old(top) - a];
      var (h, v) := NewVector(r.heap, es);
      r := r.(heap := h, acc := v, ip := r.ip + 2);
      s := Ran;
    }

    method CloseMethod(a: byte) returns (s: Status)
      requires Valid()
      modifies `r, `top
      ensures Valid() && Meets(ExecBuild(w, old(State()), OP_METHOD_CLOSURE, a), s, State())
    {
      if a >= |r.lits| || !r.lits[a].SymVal? {
        return Lost;
      }
      if !IsObject(r.heap, r.acc) {
        s := RaiseSym("vm-runtime-type-error", r.acc);
        return;
      }
      match w.findMethod(r.heap, r.acc.a, r.lits[a].s)
      case None => s := RaiseSym("method-not-found", r.lits[a]);
      case Some(m) =>
        if !w.canCapture(m.flags, m.owner, r.effuid) {
          s := RaiseSym("no-permission", r.lits[a]);
        } else {
          r := r.(acc := Ref(|r.heap|), heap := r.heap + [Closure(m, r.acc)], ip := r.ip + 2);
          s := Ran;
        }
    }

    method DoArith(op: byte) returns (s: Status)
      requires Valid()
      modifies `r, `top
      ensures Valid() && Meets(ExecArith(w, old(State()), op), s, State())
    {
      if op == OP_NOT {
        r := r.(acc := Bool(r.acc == FALSE), ip := r.ip + 1);
        return Ran;
      }
      if top == 0 {
        return Lost;
      }
      if op == OP_EQ {
        var v := PopValue();
        r := r.(acc := Bool(r.acc == v), ip := r.ip + 1);
        s := Ran;
      } else if op == OP_NE {
        var v := PopValue();
        r := r.(acc := Bool(r.acc != v), ip := r.ip + 1);
        s := Ran;
      } else if op == OP_PLUS {
        s := DoPlus();
      } else {
        s := DoNumbers(op);
      }
    }

    method DoPlus() returns (s: Status)
      requires Valid() && top > 0
      modifies `r, `top
      ensures Valid() && Meets(ExecPlus(w, old(State())), s, State())
    {
      var x := PeekValue();
      var y := r.acc;
      if x.Num? && y.Num? {
        x := PopValue();
        r := r.(acc := Num(Wrap62(x.n + y.n)), ip := r.ip + 1);
        s := Ran;
      } else if IsBVec(r.heap, x) && IsBVec(r.heap, y) {
        x := PopValue();
        r := r.(acc := Ref(|r.heap|), heap := r.heap + [BVec(r.heap[x.a].bytes + r.heap[y.a].bytes)], ip := r.ip + 1);
        s := Ran;
      } else if IsVec(r.heap, x) && IsVec(r.heap, y) {
        x := PopValue();
        var (h, v) := NewVector(r.heap, r.heap[x.a].elems + r.heap[y.a].elems);
        r := r.(heap := h, acc := v, ip := r.ip + 1);
        s := Ran;
      } else {
        s := RaiseSym("vm-runtime-type-error", r.acc);
      }
    }

    // The operators that demand a number in the accumulator and one on the
    // stack.
    method DoNumbers(op: byte) returns (s: Status)
      requires Valid() && top > 0 && !(op in {OP_NOT, OP_EQ, OP_NE, OP_PLUS})
      modifies `r, `top
      ensures Valid() && Meets(ExecArith(w, old(State()), op), s, State())
    {
      var x := PeekValue();
      if !r.acc.Num? || !x.Num? {
        s := RaiseSym("vm-runtime-type-error", r.acc);
      } else if op == OP_NEG {
        r := r.(acc := Num(Wrap62(-r.acc.n)), ip := r.ip + 1);
        s := Ran;
      } else if op == OP_BNOT {
        r := r.(acc := Num(-r.acc.n - 1), ip := r.ip + 1);
        s := Ran;
      } else {
        s := Binary(op, x.n);
      }
    }

    method Binary(op: byte, x: int) returns (s: Status)
      requires Valid() && top > 0 && Top(State()) == Num(x) && r.acc.Num?
      requires !(op in {OP_NOT, OP_EQ, OP_NE, OP_PLUS, OP_NEG, OP_BNOT})
      modifies `r, `top
      ensures Valid() && Meets(ExecArith(w, old(State()), op), s, State())
    {
      var result := Arith(op, x, r.acc.n);
      if result.Some? {
        var v := PopValue();
        r := r.(acc := result.value, ip := r.ip + 1);
        s := Ran;
      } else {
        s := RaiseSym("divide-by-zero", Null);
        if s == Excepted {
          r := r.(ip := r.ip + 1);
        }
      }
    }

    // ---- Calls ----

    method DoCall(op: byte, a: byte) returns (s: Status)
      requires Valid() && OP_RET <= op <= OP_APPLY
      modifies `r, `top, stack
      ensures Valid() && Meets(ExecCall(w, old(State()), op, a), s, State())
    {
      if op == OP_RET {
        s := DoReturn();
      } else if op == OP_APPLY {
        s := DoApply();
      } else {
        s := DoSend(op, a);
      }
    }

    method DoApply() returns (s: Status)
      requires Valid()
      modifies `r, `top, stack
      ensures Valid()
      ensures var vm := old(State());
              Meets(if vm.stack == [] then Bad else Apply(w, Drop(vm, 1).(ip := vm.ip + 1), vm.acc, Top(vm)), s,
                    State())
    {
      if top == 0 {
        return Lost;
      }
      var argv := PopValue();
      r := r.(ip := r.ip + 1);
      s := ApplyClosure(r.acc, argv);
    }

    method DoReturn() returns (s: Status)
      requires Valid()
      modifies `r
      ensures Valid() && Meets(ExecCall(w, old(State()), OP_RET, 0), s, State())
    {
      if !r.frame.NoFrame? {
        RestoreFrame(r.frame);
        if r.code != [] {
          return Ran;
        }
      }
      r := r.(state := DYING);
      s := Halted;
    }

    method DoSend(op: byte, a: byte) returns (s: Status)
      requires Valid()
      modifies `r, `top
      ensures Valid() && Meets(ExecSend(w, old(State()), op, a), s, State())
    {
      if a >= |r.lits| || !r.lits[a].SymVal? {
        return Lost;
      }
      var name := r.lits[a];
      if (op == OP_CALL_AS && r.self.Null?) || !IsBoxed(r.acc) {
        s := RaiseSym("null-call-error", name);
      } else if !IsObject(r.heap, r.acc) {
        s := RaiseSym("vm-runtime-type-error", r.acc);
      } else {
        var m := w.findMethod(r.heap, r.acc.a, name.s);
        if m.None? {
          s := RaiseSym("method-not-found", name);
        } else {
          s := Invoke(op, name, m.value);
        }
      }
    }

    method Invoke(op: byte, name: Value, m: Method) returns (s: Status)
      requires Valid()
      modifies `r, `top
      ensures Valid() && Meets(SendMethod(w, old(State()), op, name, m), s, State())
    {
      if !w.canRun(m.flags, m.owner, r.effuid) {
        s := RaiseSym("no-permission", name);
        return;
      }
      if top == 0 {
        return Lost;
      }
      var argv := PeekValue();
      if !IsVec(r.heap, argv) {
        return Lost;
      }
      argv := PopValue();
      if |r.heap[argv.a].elems| - 1 != m.argc {
        s := RaiseSym("wrong-argc", name);
      } else {
        r := r.(ip := r.ip + 2);
        EnterMethod(m, argv.a, if op == OP_CALL_AS then r.self else r.acc);
        s := Ran;
      }
    }

    // ---- The loop ----

    method Dispatch(op: byte, a: byte, b: byte) returns (s: Status)
      requires Valid() && Len(op) > 0
      modifies `r, `top, stack
      ensures Valid() && Meets(Exec(w, old(State()), op, a, b), s, State())
    {
      if op <= OP_ATPUT { s := DoElement(op, a); }
      else if op == OP_A_SLOT || op == OP_SLOT_A { s := DoSlot(op, a); }
      else if OP_PUSH <= op <= OP_SWAP { s := DoStack(op); }
      else if OP_RET <= op <= OP_APPLY { s := DoCall(op, a); }
      else if op >= OP_NOT { s := DoArith(op); }
      else if op >= OP_JUMP { s := DoJump(op, a, b); }
      else if op >= OP_VECTOR { s := DoBuild(op, a); }
      else { s := DoMove(op, a, b); }
    }

    method Step() returns (s: Status)
      requires Valid()
      modifies `r, `top, stack
      ensures Valid() && Meets(Instr(w, old(State())), s, State())
    {
      if !(0 <= r.ip < |r.code|) {
        return Lost;
      }
      var op := r.code[r.ip];
      if Len(op) == 0 || r.ip + Len(op) > |r.code| {
        return Lost;
      }
      s := Dispatch(op, if Len(op) >= 2 then r.code[r.ip + 1] else 0, if Len(op) >= 3 then r.code[r.ip + 2] else 0);
    }

    // The quota is charged before every instruction.
    method ChargeQuota() returns (s: Status)
      requires Valid()
      modifies `r, `top
      ensures Valid() && Meets(Charge(w, old(State())), s, State())
    {
      s := Ran;
      if r.state > 0 {
        r := r.(state := r.state - 1);
        if r.state == 0 {
          r := r.(state := DEFAULT_QUOTA);
          s := RaiseSym("quota-expired", Null);
          r := r.(trap := Null);
        }
      }
    }

    method Turn(ghost tick: Vm -> Out) returns (s: Status)
      requires Valid() && Ticks(w, tick)
      modifies `r, `top, stack
      ensures Valid() && Meets(tick(old(State())), s, State())
    {
      assert tick(State()) == Tick(w, State());
      var charged := ChargeQuota();
      if charged != Ran && charged != Excepted {
        return charged;
      }
      s := Step();
      if charged == Excepted && s == Ran {
        s := Excepted;
      }
    }

    // One timeslice.  True if the thread has died; Lost where the program
    // itself would go wrong.
    method RunVm(ticks: nat, ghost tick: Vm -> Out) returns (died: bool, s: Status)
      requires Valid() && Ticks(w, tick)
      modifies `r, `top, stack
      ensures Valid() && Meets(Slice(tick, ticks, old(State()), false), s, State())
      ensures s != Lost ==> died == (r.state == DYING)
    {
      var left, raised := ticks, false;
      died, s := false, Ran;
      while r.state != DYING && left > 0 && r.acc != YIELD
        invariant Valid() && 0 <= left <= ticks
        invariant Slice(tick, left, State(), raised) == Slice(tick, ticks, old(State()), false)
        decreases left
      {
        left := left - 1;
        s := Turn(tick);
        if s == Excepted {
          raised := true;
        } else if s != Ran {
          died := r.state == DYING;
          return;
        }
      }
      died := r.state == DYING;
      s := if raised then Excepted else Ran;
    }
  }

  // Up to `ticks` turns of the loop; `raised` says that there has been an
  // exception.
  function Slice(tick: Vm -> Out, ticks: nat, vm: Vm, raised: bool): Out {
    if ticks == 0 || !Runnable(vm) then if raised then Raised(vm) else Run(vm)
    else match tick(vm)
         case Run(v) => Slice(tick, ticks - 1, v, raised)
         case Raised(v) => Slice(tick, ticks - 1, v, true)
         case o => o
  }

  // While nothing is raised, a timeslice of the loop is a run as Safety
  // speaks of it.
  lemma {:induction false} SlicesAreTurns(tick: Vm -> Out, n: nat, vm: Vm)
    requires Turns(tick, n, vm).Run?
    ensures Slice(tick, n, vm, false) == Turns(tick, n, vm)
    decreases n
  {
    if n > 0 && Runnable(vm) {
      SlicesAreTurns(tick, n - 1, tick(vm).vm);
    }
  }
}
