// The CPU quota: a thread that does not renew it dies in bounded time.
module Quota {
  import opened Bytes
  import opened Values
  import opened Machine

  // Primitives other than set-exception-handler and set-thread-quota: the
  // handler and the quota stay as they are, or the thread is killed.
  ghost predicate Modest(w: World) {
    forall num, vm, argv {:trigger w.prim(num, vm, argv)} :: w.prim(num, vm, argv).PrimDone? ==>
      var o := w.prim(num, vm, argv); o.trap == vm.trap && (o.state == vm.state || o.state == DYING)
  }

  predicate Goes(o: Out) {
    o.Run? || o.Raised?
  }

  // What is left before the thread dies.
  function Potential(vm: Vm): int {
    vm.state + if vm.trap.Null? then 0 else DEFAULT_QUOTA
  }

  predicate Frugal(state: int, trap: Value, o: Out) {
    Goes(o) ==> o.vm.trap == trap && (o.vm.state == state || o.vm.state == DYING)
  }

  lemma RaiseFrugal(w: World, vm: Vm, exc: Value, arg: Value)
    requires Modest(w)
    ensures Frugal(vm.state, vm.trap, Raise(w, vm, exc, arg))
  {
  }

  lemma ApplyMethodFrugal(w: World, vm: Vm, m: Method, self: Value, argv: Value)
    requires Modest(w)
    ensures Frugal(vm.state, vm.trap, ApplyMethod(w, vm, m, self, argv))
  {
    RaiseFrugal(w, vm, SymVal("no-permission"), m.name);
    RaiseFrugal(w, vm, SymVal("wrong-argc"), MethodVal(m));
  }

  lemma CallCCFrugal(w: World, vm: Vm, f: Value)
    requires Modest(w)
    ensures Frugal(vm.state, vm.trap, CallCC(w, vm, f))
  {
    if IsClosure(vm.heap, f) {
      var cell := vm.heap[f.a];
      ApplyMethodFrugal(w, vm.(heap := vm.heap + [Vec([Null, Null])]), cell.meth, cell.self, Ref(|vm.heap|));
    } else {
      RaiseFrugal(w, vm, SymVal("type-error"), f);
    }
  }

  lemma ApplyPrimFrugal(w: World, vm: Vm, num: nat, f: Value, argv: Value)
    requires Modest(w)
    ensures Frugal(vm.state, vm.trap, ApplyPrim(w, vm, num, f, argv))
  {
    RaiseFrugal(w, vm, SymVal("invalid-primitive"), Num(num));
    RaiseFrugal(w, vm, SymVal("wrong-argc"), f);
    if IsVec(vm.heap, argv) {
      if num == CALL_CC && |vm.heap[argv.a].elems| >= 2 {
        CallCCFrugal(w, vm, vm.heap[argv.a].elems[1]);
      }
      var o := w.prim(num, vm, argv.a);
      if o.PrimRaises? {
        RaiseFrugal(w, vm, o.exc, o.arg);
      }
    }
  }

  lemma SendMethodFrugal(w: World, vm: Vm, op: byte, name: Value, m: Method)
    requires Modest(w)
    ensures Frugal(vm.state, vm.trap, SendMethod(w, vm, op, name, m))
  {
  }

  lemma SendFrugal(w: World, vm: Vm, op: byte, a: byte)
    requires Modest(w)
    ensures Frugal(vm.state, vm.trap, ExecSend(w, vm, op, a))
  {
    if a < |vm.lits| && vm.lits[a].SymVal? && IsObject(vm.heap, vm.acc) {
      var m := w.findMethod(vm.heap, vm.acc.a, vm.lits[a].s);
      if m.Some? {
        SendMethodFrugal(w, vm, op, vm.lits[a], m.value);
      }
    }
  }

  lemma ApplyPrimInstrFrugal(w: World, vm: Vm, a: byte)
    requires Modest(w) && vm.stack != [] && vm.acc.Ref? && vm.acc.a < |vm.heap| && vm.heap[vm.acc.a].Prim?
    ensures Frugal(vm.state, vm.trap, ExecCall(w, vm, OP_APPLY, a))
  {
    var o := PrimApplied(w, vm, a);
    ApplyPrimFrugal(w, Drop(vm, 1).(ip := vm.ip + 1), vm.heap[vm.acc.a].num, vm.acc, Top(vm));
  }

  lemma PrimApplied(w: World, vm: Vm, a: byte) returns (o: Out)
    requires vm.stack != [] && vm.acc.Ref? && vm.acc.a < |vm.heap| && vm.heap[vm.acc.a].Prim?
    ensures o == ExecCall(w, vm, OP_APPLY, a)
    ensures o == ApplyPrim(w, Drop(vm, 1).(ip := vm.ip + 1), vm.heap[vm.acc.a].num, vm.acc, Top(vm))
  {
    o := ExecCall(w, vm, OP_APPLY, a);
  }

  lemma ApplyInstrFrugal(w: World, vm: Vm, a: byte)
    requires Modest(w) && !(vm.acc.Ref? && vm.acc.a < |vm.heap| && vm.heap[vm.acc.a].Prim?)
    ensures Frugal(vm.state, vm.trap, ExecCall(w, vm, OP_APPLY, a))
  {
  }

  lemma CallFrugal(w: World, vm: Vm, op: byte, a: byte)
    requires Modest(w)
    ensures Frugal(vm.state, vm.trap, ExecCall(w, vm, op, a))
  {
    if op != OP_APPLY {
      SendFrugal(w, vm, op, a);
    } else if vm.stack != [] && vm.acc.Ref? && vm.acc.a < |vm.heap| && vm.heap[vm.acc.a].Prim? {
      ApplyPrimInstrFrugal(w, vm, a);
    } else if vm.stack != [] {
      ApplyInstrFrugal(w, vm, a);
    }
  }

  lemma ElementFrugal(w: World, vm: Vm, op: byte, a: byte)
    requires Modest(w)
    ensures Frugal(vm.state, vm.trap, ExecElement(w, vm, op, a))
  {
  }

  lemma SlotFrugal(w: World, vm: Vm, op: byte, a: byte)
    requires Modest(w)
    ensures Frugal(vm.state, vm.trap, ExecSlot(w, vm, op, a))
  {
  }

  lemma MoveFrugal(w: World, vm: Vm, op: byte, a: byte, b: byte)
    requires Modest(w)
    ensures Frugal(vm.state, vm.trap, ExecMove(w, vm, op, a, b))
  {
  }

  lemma BuildFrugal(w: World, vm: Vm, op: byte, a: byte)
    requires Modest(w)
    ensures Frugal(vm.state, vm.trap, ExecBuild(w, vm, op, a))
  {
  }

  lemma ArithFrugal(w: World, vm: Vm, op: byte)
    requires Modest(w)
    ensures Frugal(vm.state, vm.trap, ExecArith(w, vm, op))
  {
  }

  lemma InstrFrugal(w: World, vm: Vm)
    requires Modest(w)
    ensures Frugal(vm.state, vm.trap, Instr(w, vm))
  {
    var o, op, a, b := Decoded(w, vm);
    if o != Bad {
      ExecFrugal(w, vm, op, a, b);
    }
  }

  lemma ExecFrugal(w: World, vm: Vm, op: byte, a: byte, b: byte)
    requires Modest(w)
    ensures Frugal(vm.state, vm.trap, Exec(w, vm, op, a, b))
  {
    if op <= OP_ATPUT { ElementFrugal(w, vm, op, a); }
    else if op == OP_A_SLOT || op == OP_SLOT_A { SlotFrugal(w, vm, op, a); }
    else if OP_PUSH <= op <= OP_SWAP { }
    else if OP_RET <= op <= OP_APPLY { CallFrugal(w, vm, op, a); }
    else if op >= OP_NOT { ArithFrugal(w, vm, op); }
    else if op >= OP_JUMP { }
    else if op >= OP_VECTOR { BuildFrugal(w, vm, op, a); }
    else { MoveFrugal(w, vm, op, a, b); }
  }

  // ---- The bound ----

  // One turn of the loop uses up some of the potential, or the thread dies.
  lemma TurnCosts(w: World, vm: Vm)
    requires Modest(w) && vm.state > 0
    ensures var o := Tick(w, vm);
            Goes(o) ==> o.vm.state == DYING || (o.vm.state > 0 && Potential(o.vm) < Potential(vm))
  {
    var c := Charge(w, vm);
    if Goes(c) {
      InstrFrugal(w, c.vm);
      if vm.state == 1 {
        RaiseFrugal(w, vm.(state := DEFAULT_QUOTA), SymVal("quota-expired"), Null);
      }
    }
  }

  // The states of a thread before each turn it gets.  Between turns the
  // scheduler may put anything in its accumulator.
  predicate Life(w: World, vms: seq<Vm>, accs: seq<Value>)
    requires |accs| == |vms|
  {
    |vms| <= 1 ||
    (var o := Tick(w, vms[0].(acc := accs[0]));
     vms[0].state != DYING && Goes(o) && o.vm == vms[1] && Life(w, vms[1..], accs[1..]))
  }

  // A thread that starts with quota q and never renews handler or quota gets
  // at most q + 15000 turns, whatever its code, its exceptions and the way it
  // is scheduled; q if it has no handler.
  lemma {:induction false} QuotaBound(w: World, vms: seq<Vm>, accs: seq<Value>, q: int)
    requires |accs| == |vms| && Modest(w) && Life(w, vms, accs) && vms != [] && vms[0].state == q > 0
    ensures |vms| - 1 <= q + if vms[0].trap.Null? then 0 else DEFAULT_QUOTA
    decreases |vms|
  {
    if |vms| > 1 {
      TurnCosts(w, vms[0].(acc := accs[0]));
      if vms[1].state != DYING {
        QuotaBound(w, vms[1..], accs[1..], vms[1].state);
      }
    }
  }

  // With an executable four-argument closure as handler, running out of quota
  // is not the end: the handler is entered, on an empty stack, with a fresh
  // quota and no handler of its own.
  lemma ExpiryWarnsOnce(w: World, vm: Vm)
    requires vm.state == 1 && vm.trap.Ref? && IsClosure(vm.heap, vm.trap)
    requires var m := vm.heap[vm.trap.a].meth; w.canRun(m.flags, m.owner, vm.effuid) && m.argc == 4
    ensures Charge(w, vm).Raised?
    ensures var v := Charge(w, vm).vm;
            v.state == DEFAULT_QUOTA && v.trap == Null && v.code == vm.heap[vm.trap.a].meth.code && v.ip == 0
              && v.stack == []
  {
  }

  // ---- What a turn costs ----

  // A turn takes one off a quota that is left, and a thread without limit
  // stays without.
  lemma TurnTakesOne(w: World, vm: Vm)
    ensures vm.state > 1 ==> Tick(w, vm) == Instr(w, vm.(state := vm.state - 1))
    ensures vm.state <= 0 ==> Tick(w, vm) == Instr(w, vm)
  {
  }

  // A slice ends early exactly when the thread is dying or its accumulator says
  // `yield'.
  lemma SliceEnds(tick: Vm -> Out, n: nat, vm: Vm)
    ensures vm.state == 0 || vm.acc == Single(3) ==> Turns(tick, n, vm) == Run(vm)
    ensures vm.state != 0 && vm.acc != Single(3) && n > 0 ==>
              Turns(tick, n, vm) == if tick(vm).Run? then Turns(tick, n - 1, tick(vm).vm) else tick(vm)
  {
  }

  // After `n` turns in which nothing was raised, a thread that can go on has
  // used exactly that much of its quota.
  lemma {:induction false} QuotaLasts(w: World, tick: Vm -> Out, n: nat, vm: Vm, v: Vm)
    requires Modest(w) && Ticks(w, tick) && Turns(tick, n, vm) == Run(v) && Runnable(v)
    ensures vm.state > n ==> v.state == vm.state - n
    ensures vm.state < 0 ==> v.state == vm.state
    decreases n
  {
    if n > 0 && Runnable(vm) && (vm.state > n || vm.state < 0) {
      TurnTakesOne(w, vm);
      assert tick(vm) == Tick(w, vm);
      var c := if vm.state > 1 then vm.(state := vm.state - 1) else vm;
      InstrFrugal(w, c);
      if tick(vm).vm.state == DYING {
        Stopped(tick, n - 1, tick(vm).vm, v);
      } else {
        QuotaLasts(w, tick, n - 1, tick(vm).vm, v);
      }
    }
  }

  lemma Stopped(tick: Vm -> Out, n: nat, vm: Vm, v: Vm)
    requires !Runnable(vm) && Turns(tick, n, vm) == Run(v)
    ensures v == vm
  {
  }
}
