// What calls, messages, accesses to objects and exceptions lead to, register by
// register.
module Activations {
  import opened Bytes
  import opened Values
  import opened Machine

  // `m` starts with `self` as its object and the vector `argv` as its
  // environment; it is to return to `back`, where the stack is `stack`.
  predicate Activated(vm: Vm, vm2: Vm, m: Method, self: Value, argv: nat, back: int, stack: seq<Value>) {
    && vm2.code == m.code && vm2.ip == 0 && vm2.lits == m.lits && vm2.meth == MethodVal(m) && vm2.self == self
    && vm2.effuid == (if (m.flags / SETUID) % 2 == 1 then m.owner else vm.effuid)
    && vm2.env == Ref(argv) && argv < |vm.heap| && vm.heap[argv].Vec? && |vm.heap[argv].elems| == m.argc + 1
    && vm2.heap == vm.heap[argv := Vec([m.env] + vm.heap[argv].elems[1..])]
    && vm2.frame == Frame(vm.code, back, vm.self, vm.lits, vm.env, vm.frame, vm.meth, vm.effuid)
    && vm2.stack == stack && vm2.acc == vm.acc && vm2.globals == vm.globals
    && vm2.trap == vm.trap && vm2.uid == vm.uid && vm2.state == vm.state
  }

  // The instruction `op` for the name `x` is next.
  predicate Named(vm: Vm, op: byte, x: Sym) {
    && 0 <= vm.ip < |vm.code| - 1 && vm.code[vm.ip] == op
    && vm.code[vm.ip + 1] < |vm.lits| && vm.lits[vm.code[vm.ip + 1]] == SymVal(x)
  }

  // One of the two instructions that send a message is next, with its name.
  predicate Sending(vm: Vm, op: byte, name: Sym) {
    (op == OP_CALL || op == OP_CALL_AS) && Named(vm, op, name)
  }

  // A message is sent exactly if the accumulator is an object with a method
  // of that name that may be run and takes as many arguments as there are; and
  // for `as(...)' there is an object already.
  ghost predicate Receives(w: World, vm: Vm, op: byte, name: Sym, m: Method) {
    && vm.acc.Ref? && vm.acc.a < |vm.heap| && vm.heap[vm.acc.a].Object? && (op == OP_CALL_AS ==> vm.self != Null)
    && w.findMethod(vm.heap, vm.acc.a, name) == Some(m) && w.canRun(m.flags, m.owner, vm.effuid)
    && vm.stack != [] && var v := vm.stack[|vm.stack| - 1];
       v.Ref? && v.a < |vm.heap| && vm.heap[v.a].Vec? && |vm.heap[v.a].elems| == m.argc + 1
  }

  // The method runs with the object it was found in as `this', or with the
  // sender's for `as(...)'.
  lemma MessageSent(w: World, vm: Vm, op: byte, name: Sym)
    requires Sending(vm, op, name)
    ensures Instr(w, vm).Run? <==> exists m :: Receives(w, vm, op, name, m)
    ensures forall m | Receives(w, vm, op, name, m) ::
              Activated(vm, Instr(w, vm).vm, m, if op == OP_CALL then vm.acc else vm.self,
                        vm.stack[|vm.stack| - 1].a, vm.ip + 2, vm.stack[..|vm.stack| - 1])
  {
    var o := Instr(w, vm);
    assert o == ExecSend(w, vm, op, vm.code[vm.ip + 1]);
    if m :| Receives(w, vm, op, name, m) {
      SendRuns(w, vm, op, name, m);
    } else if o.Run? {
      SendNeeds(w, vm, op, name);
      assert false;
    }
  }

  lemma SendRuns(w: World, vm: Vm, op: byte, name: Sym, m: Method)
    requires Sending(vm, op, name) && Receives(w, vm, op, name, m)
    ensures var o := ExecSend(w, vm, op, vm.code[vm.ip + 1]);
            o.Run? && Activated(vm, o.vm, m, if op == OP_CALL then vm.acc else vm.self,
                                vm.stack[|vm.stack| - 1].a, vm.ip + 2, vm.stack[..|vm.stack| - 1])
  {
    var elems := vm.heap[vm.stack[|vm.stack| - 1].a].elems;
    assert elems[0 := m.env] == [m.env] + elems[1..];
  }

  lemma SendNeeds(w: World, vm: Vm, op: byte, name: Sym)
    requires Sending(vm, op, name) && ExecSend(w, vm, op, vm.code[vm.ip + 1]).Run?
    ensures exists m :: Receives(w, vm, op, name, m)
  {
    var r := w.findMethod(vm.heap, vm.acc.a, name);
    assert Receives(w, vm, op, name, r.value);
  }

  // Why a message is refused, and what the handler is told: the first of these
  // that applies.
  lemma MessageRefused(w: World, vm: Vm, op: byte, name: Sym)
    requires Sending(vm, op, name)
    ensures var o, raised := Instr(w, vm), (v: Vm, exc: Sym, arg: Value) => Raise(w, v, SymVal(exc), arg);
            if (op == OP_CALL_AS && vm.self == Null) || vm.acc.Null? || vm.acc.Num? || vm.acc.Single?
            then o == raised(vm, "null-call-error", SymVal(name))
            else if !(vm.acc.Ref? && vm.acc.a < |vm.heap| && vm.heap[vm.acc.a].Object?)
            then o == raised(vm, "vm-runtime-type-error", vm.acc)
            else match w.findMethod(vm.heap, vm.acc.a, name)
                 case None => o == raised(vm, "method-not-found", SymVal(name))
                 case Some(m) =>
                   && (!w.canRun(m.flags, m.owner, vm.effuid) ==> o == raised(vm, "no-permission", SymVal(name)))
                   && (w.canRun(m.flags, m.owner, vm.effuid) && vm.stack != []
                       && IsVec(vm.heap, vm.stack[|vm.stack| - 1])
                       && |vm.heap[vm.stack[|vm.stack| - 1].a].elems| != m.argc + 1 ==>
                       o == raised(vm.(stack := vm.stack[..|vm.stack| - 1]), "wrong-argc", SymVal(name)))
  {
    assert Instr(w, vm) == ExecSend(w, vm, op, vm.code[vm.ip + 1]);
  }

  // ---- Slots, method values, globals ----

  // A slot is read from the object in the accumulator, for the current user.
  lemma SlotFetched(w: World, vm: Vm, x: Sym, v: Value)
    requires Named(vm, OP_A_SLOT, x)
    ensures Instr(w, vm) == Run(vm.(acc := v, ip := vm.ip + 2)) <==>
            vm.acc.Ref? && vm.acc.a < |vm.heap| && vm.heap[vm.acc.a].Object?
            && w.slotGet(vm.heap, vm.acc.a, x, vm.effuid) == SlotValue(v)
  {
    var o := ExecSlot(w, vm, OP_A_SLOT, vm.code[vm.ip + 1]);
    assert Instr(w, vm) == o;
    if o == Run(vm.(acc := v, ip := vm.ip + 2)) {
      assert o.vm.acc == v;
    }
  }

  // A slot of the object that was pushed is set to the accumulator, which stays.
  lemma SlotAssigned(w: World, vm: Vm, x: Sym, h: Heap)
    requires Named(vm, OP_SLOT_A, x) && vm.stack != []
    ensures var target := vm.stack[|vm.stack| - 1];
            Instr(w, vm) == Run(vm.(stack := vm.stack[..|vm.stack| - 1], heap := h, ip := vm.ip + 2)) <==>
            target.Ref? && target.a < |vm.heap| && vm.heap[target.a].Object?
            && w.slotSet(vm.heap, target.a, x, vm.acc, vm.effuid) == SlotWritten(h)
  {
    var o := ExecSlot(w, vm, OP_SLOT_A, vm.code[vm.ip + 1]);
    assert Instr(w, vm) == o;
    if o == Run(vm.(stack := vm.stack[..|vm.stack| - 1], heap := h, ip := vm.ip + 2)) {
      assert o.vm.heap == h;
    }
  }

  // A method becomes a value bound to the object it was found in.
  lemma MethodBound(w: World, vm: Vm, x: Sym, m: Method)
    requires Named(vm, OP_METHOD_CLOSURE, x)
    ensures Instr(w, vm) ==
            Run(vm.(heap := vm.heap + [Closure(m, vm.acc)], acc := Ref(|vm.heap|), ip := vm.ip + 2)) <==>
            vm.acc.Ref? && vm.acc.a < |vm.heap| && vm.heap[vm.acc.a].Object?
            && w.findMethod(vm.heap, vm.acc.a, x) == Some(m) && w.canCapture(m.flags, m.owner, vm.effuid)
  {
    var o := ExecBuild(w, vm, OP_METHOD_CLOSURE, vm.code[vm.ip + 1]);
    assert Instr(w, vm) == o;
    if o == Run(vm.(heap := vm.heap + [Closure(m, vm.acc)], acc := Ref(|vm.heap|), ip := vm.ip + 2)) {
      assert o.vm.heap[|vm.heap|] == Closure(m, vm.acc);
    }
  }

  // Only a privileged user sets globals.
  lemma GlobalSet(w: World, vm: Vm, x: Sym)
    requires Named(vm, OP_GLOB_A, x)
    ensures Instr(w, vm) == if w.privileged(vm.effuid)
                            then Run(vm.(globals := vm.globals[x := vm.acc], ip := vm.ip + 2))
                            else Raise(w, vm, SymVal("no-permission"), SymVal("setting-global-value"))
  {
    assert Instr(w, vm) == ExecMove(w, vm, OP_GLOB_A, vm.code[vm.ip + 1], 0);
  }

  // Elements are read from vectors, within their length.
  lemma ElementFetched(w: World, vm: Vm, v: Value)
    requires 0 <= vm.ip < |vm.code| - 1 && vm.code[vm.ip] == OP_AT
    ensures Instr(w, vm) == Run(vm.(acc := v, ip := vm.ip + 2)) <==>
            vm.acc.Ref? && vm.acc.a < |vm.heap| && vm.heap[vm.acc.a].Vec?
            && vm.code[vm.ip + 1] < |vm.heap[vm.acc.a].elems| && vm.heap[vm.acc.a].elems[vm.code[vm.ip + 1]] == v
  {
    var o := ExecElement(w, vm, OP_AT, vm.code[vm.ip + 1]);
    assert Instr(w, vm) == o;
    if o == Run(vm.(acc := v, ip := vm.ip + 2)) {
      assert o.vm.acc == v;
    }
  }

  // Only a privileged user puts another frame in place.
  lemma FrameReplaced(w: World, vm: Vm)
    requires 0 <= vm.ip < |vm.code| && vm.code[vm.ip] == OP_FRAM_A
    ensures Instr(w, vm) ==
            if !w.privileged(vm.effuid)
            then Raise(w, vm, SymVal("no-permission"), SymVal("restoring-vm-frame-pointer"))
            else if vm.acc.FrameVal? then Run(vm.(frame := vm.acc.f, ip := vm.ip + 1))
            else Raise(w, vm, SymVal("vm-runtime-type-error"), vm.acc)
  {
    assert Instr(w, vm) == ExecMove(w, vm, OP_FRAM_A, 0, 0);
  }

  // A push onto a full stack leaves one value on it and kills the thread.
  lemma ValuePushed(w: World, vm: Vm)
    requires 0 <= vm.ip < |vm.code| && vm.code[vm.ip] == OP_PUSH
    ensures Instr(w, vm) == if |vm.stack| < 1024 then Run(vm.(stack := vm.stack + [vm.acc], ip := vm.ip + 1))
                            else Run(vm.(stack := [vm.acc], state := 0, ip := vm.ip + 1))
  {
  }

  // ---- OP_APPLY ----

  // A call is next: the callee in the accumulator, its arguments on the stack.
  predicate Calling(vm: Vm, f: nat) {
    && 0 <= vm.ip < |vm.code| && vm.code[vm.ip] == OP_APPLY && vm.acc == Ref(f) && f < |vm.heap|
    && vm.stack != [] && vm.stack[|vm.stack| - 1].Ref? && vm.stack[|vm.stack| - 1].a < |vm.heap|
    && vm.heap[vm.stack[|vm.stack| - 1].a].Vec? && vm.heap[vm.stack[|vm.stack| - 1].a].elems != []
  }

  // A function runs with the object it was made in, if it may be run and takes
  // as many arguments as there are.
  lemma FunctionApplied(w: World, vm: Vm, f: nat)
    requires Calling(vm, f) && vm.heap[f].Closure?
    ensures var m, argv := vm.heap[f].meth, vm.stack[|vm.stack| - 1].a;
            && (Instr(w, vm).Run? <==>
                w.canRun(m.flags, m.owner, vm.effuid) && |vm.heap[argv].elems| == m.argc + 1)
            && (Instr(w, vm).Run? ==>
                Activated(vm, Instr(w, vm).vm, m, vm.heap[f].self, argv, vm.ip + 1, vm.stack[..|vm.stack| - 1]))
  {
    var m, argv := vm.heap[f].meth, vm.stack[|vm.stack| - 1].a;
    assert Instr(w, vm) == ApplyMethod(w, Drop(vm, 1).(ip := vm.ip + 1), m, vm.heap[f].self, Ref(argv));
    var elems := vm.heap[argv].elems;
    assert elems[0 := m.env] == [m.env] + elems[1..];
  }

  // A primitive other than call/cc takes its arguments off the stack and gives
  // what it answers; it leaves code, frame and environment alone.
  lemma PrimitiveApplied(w: World, vm: Vm, f: nat, num: nat, n: int)
    requires Calling(vm, f) && vm.heap[f] == Prim(num) && num != CALL_CC && w.primArgc(num) == Some(n)
    ensures var argv := vm.stack[|vm.stack| - 1].a;
            var argc := |vm.heap[argv].elems| - 1;
            var vm1 := vm.(stack := vm.stack[..|vm.stack| - 1], ip := vm.ip + 1);
            var o := w.prim(num, vm1, argv);
            && (Instr(w, vm).Run? <==> (if n >= 0 then argc == n else argc >= -n) && o.PrimDone?)
            && (Instr(w, vm).Run? ==>
                Instr(w, vm).vm == vm1.(acc := o.acc, heap := o.heap, globals := o.globals, trap := o.trap,
                                        uid := o.uid, effuid := o.effuid, state := o.state))
  {
    var argv := vm.stack[|vm.stack| - 1].a;
    assert Instr(w, vm) == ApplyPrim(w, Drop(vm, 1).(ip := vm.ip + 1), num, Ref(f), Ref(argv));
  }

  // ---- Exceptions ----

  // A handler that may be run and takes four arguments is called with the
  // exception, its argument, the continuation of what raised it, and the
  // accumulator; it starts on an empty stack and has nothing to return to.
  lemma HandlerCalled(w: World, vm: Vm, exc: Value, arg: Value, t: nat)
    requires vm.trap == Ref(t) && t < |vm.heap| && vm.heap[t].Closure?
    requires var m := vm.heap[t].meth; w.canRun(m.flags, m.owner, vm.effuid) && m.argc == 4
    ensures var m, k := vm.heap[t].meth, |vm.heap|;
            var f := Frame(vm.code, vm.ip, vm.self, vm.lits, vm.env, vm.frame, vm.meth, vm.effuid);
            Raise(w, vm, exc, arg) ==
            Raised(vm.(code := m.code, ip := 0, lits := m.lits, meth := MethodVal(m), self := vm.heap[t].self,
                       effuid := if (m.flags / SETUID) % 2 == 1 then m.owner else vm.effuid,
                       env := Ref(k), frame := NoFrame, stack := [],
                       heap := vm.heap + [Vec([m.env, exc, arg, Ref(k + 1), vm.acc]), Cont(f, vm.stack)]))
  {
    var m, k := vm.heap[t].meth, |vm.heap|;
    var v := RaiseState(vm, exc, arg);
    assert v.heap[k].elems[0 := m.env] == [m.env, exc, arg, Ref(k + 1), vm.acc];
    assert v.heap[k := Vec(v.heap[k].elems[0 := m.env])] ==
           vm.heap + [Vec([m.env, exc, arg, Ref(k + 1), vm.acc]), v.heap[k + 1]];
  }
}
