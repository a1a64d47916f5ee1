// The bytecode interpreter as a function on machine states: one instruction,
// one turn of the interpreter loop, and runs of both.
module Machine {
  import opened Bytes
  import opened Values

  const OP_AT: byte := 0x00
  const OP_ATPUT: byte := 0x01
  const OP_A_LOCL: byte := 0x10
  const OP_A_GLOB: byte := 0x11
  const OP_A_SLOT: byte := 0x12
  const OP_A_LITL: byte := 0x13
  const OP_A_SELF: byte := 0x14
  const OP_A_FRAM: byte := 0x15
  const OP_LOCL_A: byte := 0x16
  const OP_GLOB_A: byte := 0x17
  const OP_SLOT_A: byte := 0x18
  const OP_FRAM_A: byte := 0x19
  const OP_PUSH: byte := 0x1A
  const OP_POP: byte := 0x1B
  const OP_SWAP: byte := 0x1C
  const OP_VECTOR: byte := 0x20
  const OP_ENTER_SCOPE: byte := 0x21
  const OP_LEAVE_SCOPE: byte := 0x22
  const OP_MAKE_VECTOR: byte := 0x23
  const OP_CLOSURE: byte := 0x31
  const OP_METHOD_CLOSURE: byte := 0x32
  const OP_RET: byte := 0x33
  const OP_CALL: byte := 0x34
  const OP_CALL_AS: byte := 0x35
  const OP_APPLY: byte := 0x36
  const OP_JUMP: byte := 0x40
  const OP_JUMP_TRUE: byte := 0x41
  const OP_JUMP_FALSE: byte := 0x42
  const OP_NOT: byte := 0x50
  const OP_EQ: byte := 0x51
  const OP_NE: byte := 0x52
  const OP_GT: byte := 0x53
  const OP_LT: byte := 0x54
  const OP_GE: byte := 0x55
  const OP_LE: byte := 0x56
  const OP_NEG: byte := 0x60
  const OP_BNOT: byte := 0x61
  const OP_BOR: byte := 0x62
  const OP_BAND: byte := 0x63
  const OP_PLUS: byte := 0x64
  const OP_MINUS: byte := 0x65
  const OP_STAR: byte := 0x66
  const OP_SLASH: byte := 0x67
  const OP_PERCENT: byte := 0x68

  // Instruction length in bytes; 0 for a byte that is no opcode.
  function Len(op: byte): nat {
    if op in {OP_A_LOCL, OP_LOCL_A, OP_JUMP, OP_JUMP_TRUE, OP_JUMP_FALSE} then 3
    else if op in {OP_AT, OP_ATPUT, OP_A_GLOB, OP_A_SLOT, OP_A_LITL, OP_GLOB_A, OP_SLOT_A,
                   OP_VECTOR, OP_ENTER_SCOPE, OP_MAKE_VECTOR, OP_METHOD_CLOSURE, OP_CALL, OP_CALL_AS} then 2
    else if OP_A_SELF <= op <= OP_A_FRAM || OP_FRAM_A <= op <= OP_SWAP || op == OP_LEAVE_SCOPE ||
            op in {OP_CLOSURE, OP_RET, OP_APPLY} || OP_NOT <= op <= OP_LE || OP_NEG <= op <= OP_PERCENT then 1
    else 0
  }

  // What the primitives, method lookup, slots and permission bits answer.
  // Permissions look at a method's flags and owner and the effective user.
  datatype PrimOut =
    | PrimDone(acc: Value, heap: Heap, globals: map<Sym, Value>, trap: Value, uid: Value, effuid: Value, state: int)
    | PrimRaises(exc: Value, arg: Value, result: Value)

  datatype SlotRead = SlotValue(v: Value) | ReadDenied | NoSlot
  datatype SlotWrite = SlotWritten(heap: Heap) | WriteDenied | NoTarget

  datatype World = World(
    privileged: Value -> bool,
    canRun: (nat, Value, Value) -> bool,
    canCapture: (nat, Value, Value) -> bool,
    findMethod: (Heap, nat, Sym) -> Option<Method>,
    slotGet: (Heap, nat, Sym, Value) -> SlotRead,
    slotSet: (Heap, nat, Sym, Value, Value) -> SlotWrite,
    primArgc: nat -> Option<int>,
    prim: (nat, Vm, nat) -> PrimOut)

  const CALL_CC: nat := 0x0200F

  // Run: keep going.  Raised: keep going, an exception was raised.  Halt: the
  // outermost frame returned.  Bad: the C code reads memory it does not own,
  // stops the process, or recurses without end.
  datatype Out = Run(vm: Vm) | Raised(vm: Vm) | Halt(vm: Vm) | Bad

  // ---- Stack and frames ----

  function Push(vm: Vm, v: Value): Vm {
    if |vm.stack| >= STACK_LENGTH then vm.(stack := [v], state := DYING)
    else vm.(stack := vm.stack + [v])
  }

  function Top(vm: Vm): Value
    requires vm.stack != []
  {
    vm.stack[|vm.stack| - 1]
  }

  function Drop(vm: Vm, n: nat): Vm
    requires n <= |vm.stack|
  {
    vm.(stack := vm.stack[..|vm.stack| - n])
  }

  function SavedFrame(vm: Vm): Frame {
    Frame(vm.code, vm.ip, vm.self, vm.lits, vm.env, vm.frame, vm.meth, vm.effuid)
  }

  function Restore(vm: Vm, f: Frame): Vm
    requires f.Frame?
  {
    vm.(code := f.code, ip := f.ip, self := f.self, lits := f.lits, env := f.env,
        frame := f.link, meth := f.meth, effuid := f.effuid)
  }

  // A new activation of `m` whose environment is the argument vector.
  function Enter(vm: Vm, m: Method, argv: nat, self: Value): Vm
    requires argv < |vm.heap| && vm.heap[argv].Vec? && vm.heap[argv].elems != []
  {
    vm.(frame := SavedFrame(vm), env := Ref(argv),
        heap := vm.heap[argv := Vec(vm.heap[argv].elems[0 := m.env])],
        lits := m.lits, code := m.code, self := self, ip := 0, meth := MethodVal(m),
        effuid := if Setuid(m) then m.owner else vm.effuid)
  }

  predicate ArgcFits(primArgc: int, argc: int) {
    if primArgc >= 0 then argc == primArgc else argc >= -primArgc
  }

  function FinishPrim(vm: Vm, o: PrimOut): Vm
    requires o.PrimDone?
  {
    vm.(acc := o.acc, heap := o.heap, globals := o.globals, trap := o.trap, uid := o.uid,
        effuid := o.effuid, state := o.state)
  }

  // ---- Exceptions ----

  // The machine on entry to the handler: the argument vector and the
  // continuation are allocated, the stack is empty.
  function RaiseState(vm: Vm, exc: Value, arg: Value): Vm {
    var f := SavedFrame(vm);
    var n := |vm.heap|;
    vm.(frame := f, stack := [],
        heap := vm.heap + [Vec([Null, exc, arg, Ref(n + 1), vm.acc]), Cont(f, vm.stack)])
  }

  // The handler is called with four arguments.
  function Handled(w: World, vm: Vm, handler: Cell, argv: nat): Out
    requires argv < |vm.heap| && vm.heap[argv].Vec? && vm.heap[argv].elems != []
  {
    match handler
    case Closure(m, self) =>
      if w.canRun(m.flags, m.owner, vm.effuid) && m.argc == 4
      then Raised(Enter(vm, m, argv, self).(frame := NoFrame))
      else Bad
    case Prim(num) =>
      if num == CALL_CC || w.primArgc(num).None? || !ArgcFits(w.primArgc(num).value, 4) then Bad
      else
        var o := w.prim(num, vm, argv);
        if o.PrimRaises? then Bad else Raised(FinishPrim(vm, o).(frame := NoFrame))
    case _ => Bad
  }

  function Raise(w: World, vm: Vm, exc: Value, arg: Value): Out {
    if vm.trap.Null? then Raised(vm.(state := DYING))
    else if !(vm.trap.Ref? && vm.trap.a < |vm.heap|) then Bad
    else Handled(w, RaiseState(vm, exc, arg), vm.heap[vm.trap.a], |vm.heap|)
  }

  function RaiseName(w: World, vm: Vm, name: Sym, arg: Value): Out {
    Raise(w, vm, SymVal(name), arg)
  }

  function TypeError(w: World, vm: Vm, v: Value): Out {
    RaiseName(w, vm, "vm-runtime-type-error", v)
  }

  // ---- Application ----

  function ApplyMethod(w: World, vm: Vm, m: Method, self: Value, argv: Value): Out {
    if !w.canRun(m.flags, m.owner, vm.effuid) then RaiseName(w, vm, "no-permission", m.name)
    else if !IsVec(vm.heap, argv) then Bad
    else if |vm.heap[argv.a].elems| - 1 != m.argc then RaiseName(w, vm, "wrong-argc", MethodVal(m))
    else Run(Enter(vm, m, argv.a, self))
  }

  // call/cc: the closure is entered first, then the continuation is taken
  // from the new frame and stored as its only argument.
  function CallCC(w: World, vm: Vm, f: Value): Out {
    if !IsClosure(vm.heap, f) then
      match RaiseName(w, vm, "type-error", f) {
        case Raised(v) => Raised(v.(acc := UNDEFINED))
        case o => o
      }
    else
      var av := |vm.heap|;
      var cell := vm.heap[f.a];
      match ApplyMethod(w, vm.(heap := vm.heap + [Vec([Null, Null])]), cell.meth, cell.self, Ref(av)) {
        case Run(v) =>
          if !(av < |v.heap| && v.heap[av].Vec? && |v.heap[av].elems| == 2) then Bad
          else Run(v.(heap := v.heap[av := Vec(v.heap[av].elems[1 := Ref(|v.heap|)])] + [Cont(v.frame, v.stack)]))
        case o => o
      }
  }

  function ApplyPrim(w: World, vm: Vm, num: nat, f: Value, argv: Value): Out {
    if w.primArgc(num).None? then RaiseName(w, vm, "invalid-primitive", Num(num))
    else if !IsVec(vm.heap, argv) then Bad
    else
      var elems := vm.heap[argv.a].elems;
      if !ArgcFits(w.primArgc(num).value, |elems| - 1) then RaiseName(w, vm, "wrong-argc", f)
      else if num == CALL_CC then (if |elems| < 2 then Bad else CallCC(w, vm, elems[1]))
      else
        match w.prim(num, vm, argv.a)
        case PrimRaises(exc, arg, result) =>
          (match Raise(w, vm, exc, arg) {
             case Raised(v) => Raised(v.(acc := result))
             case o => o
           })
        case o => Run(FinishPrim(vm, o))
  }

  function ApplyCont(vm: Vm, frame: Frame, stack: seq<Value>, argv: Value): Out {
    if frame.NoFrame? || |stack| > STACK_LENGTH || !IsVec(vm.heap, argv) || |vm.heap[argv.a].elems| < 2 then Bad
    else Run(Restore(vm, frame).(stack := stack, acc := vm.heap[argv.a].elems[1]))
  }

  function Apply(w: World, vm: Vm, f: Value, argv: Value): Out {
    match f
    case Ref(a) =>
      if a >= |vm.heap| then Bad
      else (match vm.heap[a]
            case Prim(num) => ApplyPrim(w, vm, num, f, argv)
            case Closure(m, self) => ApplyMethod(w, vm, m, self, argv)
            case Cont(frame, stack) => ApplyCont(vm, frame, stack, argv)
            case _ => Bad)
    case _ => RaiseName(w, vm, "invalid-callable", f)
  }

  // ---- Instruction groups ----

  // The value `i` environment links up.
  function EnvUp(h: Heap, env: Value, i: nat): Option<Value>
    decreases i
  {
    if i == 0 then Some(env)
    else if IsVec(h, env) && h[env.a].elems != [] then EnvUp(h, h[env.a].elems[0], i - 1)
    else None
  }

  // Address of the environment vector `i` links up, when it has offset `o`.
  function Local(h: Heap, env: Value, i: nat, o: nat): Option<nat> {
    match EnvUp(h, env, i)
    case Some(v) => if IsVec(h, v) && o + 1 < |h[v.a].elems| then Some(v.a) else None
    case None => None
  }

  // The length field of a boxed value.
  function BoxLength(h: Heap, v: Value): Option<nat> {
    match v
    case Ref(a) =>
      if a >= |h| then None
      else (match h[a]
            case Vec(es) => Some(|es|)
            case BVec(bs) => Some(|bs|)
            case Object => Some(0)
            case Closure(_, _) => Some(2)
            case Prim(_) => Some(2)
            case Cont(_, _) => Some(2))
    case SymVal(_) => Some(4)
    case MethodVal(_) => Some(8)
    case FrameVal(_) => Some(8)
    case _ => None
  }

  function ExecElement(w: World, vm: Vm, op: byte, a: byte): Out {
    if op == OP_AT then
      match BoxLength(vm.heap, vm.acc)
      case None => Bad
      case Some(n) =>
        if a >= n then RaiseName(w, vm, "range-check-error", vm.acc)
        else if !IsVec(vm.heap, vm.acc) then TypeError(w, vm, vm.acc)
        else Run(vm.(acc := vm.heap[vm.acc.a].elems[a], ip := vm.ip + 2))
    else if vm.stack == [] then Bad
    else
      var hold := Top(vm);
      match BoxLength(vm.heap, hold)
      case None => Bad
      case Some(n) =>
        if a >= n then RaiseName(w, vm, "range-check-error", hold)
        else if !IsVec(vm.heap, hold) then TypeError(w, vm, hold)
        else Run(vm.(heap := vm.heap[hold.a := Vec(vm.heap[hold.a].elems[a := vm.acc])], ip := vm.ip + 2))
  }

  function ExecSlot(w: World, vm: Vm, op: byte, a: byte): Out {
    if a >= |vm.lits| || !vm.lits[a].SymVal? then Bad
    else
      var name := vm.lits[a];
      if op == OP_A_SLOT then
        if !IsObject(vm.heap, vm.acc) then TypeError(w, vm, vm.acc)
        else
          match w.slotGet(vm.heap, vm.acc.a, name.s, vm.effuid)
          case SlotValue(v) => Run(vm.(acc := v, ip := vm.ip + 2))
          case ReadDenied => RaiseName(w, vm, "no-permission", name)
          case NoSlot => RaiseName(w, vm, "slot-not-found", name)
      else if vm.stack == [] then Bad
      else
        var target := Top(vm);
        var vm1 := Drop(vm, 1);
        if !IsObject(vm.heap, target) then TypeError(w, vm1, target)
        else
          match w.slotSet(vm.heap, target.a, name.s, vm.acc, vm.effuid)
          case SlotWritten(h) => Run(vm1.(heap := h, ip := vm.ip + 2))
          case WriteDenied => RaiseName(w, vm1, "no-permission", name)
          case NoTarget => RaiseName(w, vm1, "slot-not-found", name)
  }

  function ExecMove(w: World, vm: Vm, op: byte, a: byte, b: byte): Out {
    if op == OP_A_LOCL then
      match Local(vm.heap, vm.env, a, b)
      case None => Bad
      case Some(f) => Run(vm.(acc := vm.heap[f].elems[b + 1], ip := vm.ip + 3))
    else if op == OP_LOCL_A then
      match Local(vm.heap, vm.env, a, b)
      case None => Bad
      case Some(f) => Run(vm.(heap := vm.heap[f := Vec(vm.heap[f].elems[b + 1 := vm.acc])], ip := vm.ip + 3))
    else if op == OP_A_GLOB then
      if a < |vm.lits| && vm.lits[a].SymVal?
      then Run(vm.(acc := Global(vm.globals, vm.lits[a].s), ip := vm.ip + 2))
      else Bad
    else if op == OP_GLOB_A then
      if !w.privileged(vm.effuid) then RaiseName(w, vm, "no-permission", SymVal("setting-global-value"))
      else if a < |vm.lits| && vm.lits[a].SymVal?
      then Run(vm.(globals := vm.globals[vm.lits[a].s := vm.acc], ip := vm.ip + 2))
      else Bad
    else if op == OP_A_LITL then
      if a < |vm.lits| then Run(vm.(acc := vm.lits[a], ip := vm.ip + 2)) else Bad
    else if op == OP_A_SELF then Run(vm.(acc := vm.self, ip := vm.ip + 1))
    else if op == OP_A_FRAM then
      Run(vm.(acc := if vm.frame.NoFrame? then Null else FrameVal(vm.frame), ip := vm.ip + 1))
    else if op == OP_FRAM_A then
      if !w.privileged(vm.effuid) then RaiseName(w, vm, "no-permission", SymVal("restoring-vm-frame-pointer"))
      else if !vm.acc.FrameVal? then TypeError(w, vm, vm.acc)
      else Run(vm.(frame := vm.acc.f, ip := vm.ip + 1))
    else Bad
  }

  function ExecStack(vm: Vm, op: byte): Out {
    if op == OP_PUSH then Run(Push(vm, vm.acc).(ip := vm.ip + 1))
    else if vm.stack == [] then Bad
    else if op == OP_POP then Run(Drop(vm, 1).(acc := Top(vm), ip := vm.ip + 1))
    else Run(Drop(vm, 1).(stack := vm.stack[..|vm.stack| - 1] + [vm.acc], acc := Top(vm), ip := vm.ip + 1))
  }

  function Nulls(n: nat): seq<Value> {
    seq(n, i => Null)
  }

  function ExecBuild(w: World, vm: Vm, op: byte, a: byte): Out {
    if op == OP_VECTOR then
      var (h, v) := NewVector(vm.heap, Nulls(a));
      Run(vm.(heap := h, acc := v, ip := vm.ip + 2))
    else if op == OP_ENTER_SCOPE then
      Run(vm.(heap := vm.heap + [Vec([vm.env] + Nulls(a))], env := Ref(|vm.heap|), ip := vm.ip + 2))
    else if op == OP_LEAVE_SCOPE then
      if IsVec(vm.heap, vm.env) && vm.heap[vm.env.a].elems != []
      then Run(vm.(env := vm.heap[vm.env.a].elems[0], ip := vm.ip + 1))
      else Bad
    else if op == OP_MAKE_VECTOR then
      if a > |vm.stack| then Bad
      else
        var (h, v) := NewVector(vm.heap, vm.stack[|vm.stack| - a..]);
        Run(Drop(vm, a).(heap := h, acc := v, ip := vm.ip + 2))
    else if op == OP_CLOSURE then
      if vm.acc.MethodVal?
      then Run(vm.(heap := vm.heap + [Closure(vm.acc.m.(env := vm.env, owner := vm.effuid), vm.self)],
                   acc := Ref(|vm.heap|), ip := vm.ip + 1))
      else Bad
    else if op == OP_METHOD_CLOSURE then
      if a >= |vm.lits| || !vm.lits[a].SymVal? then Bad
      else if !IsObject(vm.heap, vm.acc) then TypeError(w, vm, vm.acc)
      else
        match w.findMethod(vm.heap, vm.acc.a, vm.lits[a].s)
        case None => RaiseName(w, vm, "method-not-found", vm.lits[a])
        case Some(m) =>
          if !w.canCapture(m.flags, m.owner, vm.effuid) then RaiseName(w, vm, "no-permission", vm.lits[a])
          else Run(vm.(heap := vm.heap + [Closure(m, vm.acc)], acc := Ref(|vm.heap|), ip := vm.ip + 2))
    else Bad
  }

  function SendMethod(w: World, vm: Vm, op: byte, name: Value, m: Method): Out {
    if !w.canRun(m.flags, m.owner, vm.effuid) then RaiseName(w, vm, "no-permission", name)
    else if vm.stack == [] || !IsVec(vm.heap, Top(vm)) then Bad
    else
      var argv := Top(vm);
      var vm1 := Drop(vm, 1);
      if |vm.heap[argv.a].elems| - 1 != m.argc then RaiseName(w, vm1, "wrong-argc", name)
      else Run(Enter(vm1.(ip := vm.ip + 2), m, argv.a, if op == OP_CALL_AS then vm.self else vm.acc))
  }

  function ExecSend(w: World, vm: Vm, op: byte, a: byte): Out {
    if a >= |vm.lits| || !vm.lits[a].SymVal? then Bad
    else
      var name := vm.lits[a];
      if (op == OP_CALL_AS && vm.self.Null?) || !IsBoxed(vm.acc) then RaiseName(w, vm, "null-call-error", name)
      else if !IsObject(vm.heap, vm.acc) then TypeError(w, vm, vm.acc)
      else
        match w.findMethod(vm.heap, vm.acc.a, name.s)
        case None => RaiseName(w, vm, "method-not-found", name)
        case Some(m) => SendMethod(w, vm, op, name, m)
  }

  function ExecCall(w: World, vm: Vm, op: byte, a: byte): Out {
    if op == OP_RET then
      if vm.frame.NoFrame? then Halt(vm.(state := DYING))
      else
        var vm1 := Restore(vm, vm.frame);
        if vm1.code != [] then Run(vm1) else Halt(vm1.(state := DYING))
    else if op == OP_APPLY then
      if vm.stack == [] then Bad
      else Apply(w, Drop(vm, 1).(ip := vm.ip + 1), vm.acc, Top(vm))
    else ExecSend(w, vm, op, a)
  }

  lemma Applied(w: World, vm: Vm, a: byte) returns (o: Out)
    requires vm.stack != []
    ensures o == ExecCall(w, vm, OP_APPLY, a) && o == Apply(w, Drop(vm, 1).(ip := vm.ip + 1), vm.acc, Top(vm))
  {
    o := Apply(w, Drop(vm, 1).(ip := vm.ip + 1), vm.acc, Top(vm));
  }

  function ExecJump(vm: Vm, op: byte, a: byte, b: byte): Out {
    var taken := op == OP_JUMP || (op == OP_JUMP_TRUE && vm.acc != FALSE) || (op == OP_JUMP_FALSE && vm.acc == FALSE);
    Run(vm.(ip := vm.ip + 3 + if taken then Signed16(a, b) else 0))
  }

  // ---- Numbers ----

  // What remains of a number after tagging: sixty-two bits, signed.
  function Wrap62(x: int): (r: int)
    ensures -P62 / 2 <= r < P62 / 2
  {
    (x + P62 / 2) % P62 - P62 / 2
  }

  function Bool(b: bool): Value {
    if b then TRUE else FALSE
  }

  // C division and remainder truncate toward zero.
  function TruncDiv(x: int, y: int): int
    requires y != 0
  {
    if x >= 0 then x / y else -(-x / y)
  }

  function TruncMod(x: int, y: int): int
    requires y != 0
  {
    x - y * TruncDiv(x, y)
  }

  // All bits of the number are equal.
  predicate Uniform(x: int) {
    x == 0 || x == -1
  }

  function BitAnd(x: int, y: int): int
    decreases if x < 0 then -1 - x else x, if y < 0 then -1 - y else y
  {
    if Uniform(x) && Uniform(y) then (if x < 0 && y < 0 then -1 else 0)
    else 2 * BitAnd(x / 2, y / 2) + (if x % 2 == 1 && y % 2 == 1 then 1 else 0)
  }

  function BitOr(x: int, y: int): int
    decreases if x < 0 then -1 - x else x, if y < 0 then -1 - y else y
  {
    if Uniform(x) && Uniform(y) then (if x < 0 || y < 0 then -1 else 0)
    else 2 * BitOr(x / 2, y / 2) + (if x % 2 == 1 || y % 2 == 1 then 1 else 0)
  }

  // `x op y` on numbers, for the operators that demand two of them.
  function Arith(op: byte, x: int, y: int): Option<Value> {
    if op == OP_GT then Some(Bool(x > y))
    else if op == OP_LT then Some(Bool(x < y))
    else if op == OP_GE then Some(Bool(x >= y))
    else if op == OP_LE then Some(Bool(x <= y))
    else if op == OP_BOR then Some(Num(BitOr(x, y)))
    else if op == OP_BAND then Some(Num(BitAnd(x, y)))
    else if op == OP_MINUS then Some(Num(Wrap62(x - y)))
    else if op == OP_STAR then Some(Num(Wrap62(x * y)))
    else if op == OP_SLASH && y != 0 then Some(Num(Wrap62(TruncDiv(x, y))))
    else if op == OP_PERCENT && y != 0 then Some(Num(Wrap62(TruncMod(x, y))))
    else None
  }

  function ExecPlus(w: World, vm: Vm): Out
    requires vm.stack != []
  {
    var x, y := Top(vm), vm.acc;
    if x.Num? && y.Num? then Run(Drop(vm, 1).(acc := Num(Wrap62(x.n + y.n)), ip := vm.ip + 1))
    else if IsBVec(vm.heap, x) && IsBVec(vm.heap, y) then
      Run(Drop(vm, 1).(heap := vm.heap + [BVec(vm.heap[x.a].bytes + vm.heap[y.a].bytes)],
                       acc := Ref(|vm.heap|), ip := vm.ip + 1))
    else if IsVec(vm.heap, x) && IsVec(vm.heap, y) then
      var (h, v) := NewVector(vm.heap, vm.heap[x.a].elems + vm.heap[y.a].elems);
      Run(Drop(vm, 1).(heap := h, acc := v, ip := vm.ip + 1))
    else TypeError(w, vm, vm.acc)
  }

  function ExecArith(w: World, vm: Vm, op: byte): Out {
    if op == OP_NOT then Run(vm.(acc := Bool(vm.acc == FALSE), ip := vm.ip + 1))
    else if vm.stack == [] then Bad
    else if op == OP_EQ then Run(Drop(vm, 1).(acc := Bool(vm.acc == Top(vm)), ip := vm.ip + 1))
    else if op == OP_NE then Run(Drop(vm, 1).(acc := Bool(vm.acc != Top(vm)), ip := vm.ip + 1))
    else if op == OP_PLUS then ExecPlus(w, vm)
    else if !vm.acc.Num? || !Top(vm).Num? then TypeError(w, vm, vm.acc)
    else if op == OP_NEG then Run(vm.(acc := Num(Wrap62(-vm.acc.n)), ip := vm.ip + 1))
    else if op == OP_BNOT then Run(vm.(acc := Num(-vm.acc.n - 1), ip := vm.ip + 1))
    else
      match Arith(op, Top(vm).n, vm.acc.n)
      case Some(v) => Run(Drop(vm, 1).(acc := v, ip := vm.ip + 1))
      case None =>
        // Division by zero: the handler is entered, then ip is advanced.
        match RaiseName(w, vm, "divide-by-zero", Null)
        case Raised(v) => Raised(v.(ip := v.ip + 1))
        case o => o
  }

  // ---- One instruction ----

  function Exec(w: World, vm: Vm, op: byte, a: byte, b: byte): Out {
    if op <= OP_ATPUT then ExecElement(w, vm, op, a)
    else if op == OP_A_SLOT || op == OP_SLOT_A then ExecSlot(w, vm, op, a)
    else if OP_PUSH <= op <= OP_SWAP then ExecStack(vm, op)
    else if OP_RET <= op <= OP_APPLY then ExecCall(w, vm, op, a)
    else if op >= OP_NOT then ExecArith(w, vm, op)
    else if op >= OP_JUMP then ExecJump(vm, op, a, b)
    else if op >= OP_VECTOR then ExecBuild(w, vm, op, a)
    else ExecMove(w, vm, op, a, b)
  }

  function Instr(w: World, vm: Vm): Out {
    if !(0 <= vm.ip < |vm.code|) then Bad
    else
      var op := vm.code[vm.ip];
      if Len(op) == 0 || vm.ip + Len(op) > |vm.code| then Bad
      else Exec(w, vm, op, if Len(op) >= 2 then vm.code[vm.ip + 1] else 0,
                           if Len(op) >= 3 then vm.code[vm.ip + 2] else 0)
  }

  // The instruction byte that is next, if any.
  function Op(vm: Vm): byte {
    if 0 <= vm.ip < |vm.code| then vm.code[vm.ip] else 0
  }

  // What is executed, if a whole instruction is there.
  lemma Decoded(w: World, vm: Vm) returns (o: Out, op: byte, a: byte, b: byte)
    ensures o == Instr(w, vm) && op == Op(vm) && (o == Bad || (Len(op) > 0 && o == Exec(w, vm, op, a, b)))
  {
    o, op, a, b := Instr(w, vm), Op(vm), 0, 0;
    if 0 <= vm.ip < |vm.code| && vm.ip + Len(op) <= |vm.code| {
      if Len(op) >= 2 {
        a := vm.code[vm.ip + 1];
      }
      if Len(op) >= 3 {
        b := vm.code[vm.ip + 2];
      }
    }
  }

  // `step` executes one instruction of the machine in world `w`.
  ghost predicate Drives(w: World, step: Vm -> Out) {
    forall vm {:trigger Instr(w, vm)} :: step(vm) == Instr(w, vm)
  }

  // `n` instructions, none of which raises an exception.
  function Steps(step: Vm -> Out, n: nat, vm: Vm): Out {
    if n == 0 then Run(vm)
    else match step(vm)
         case Run(v) => Steps(step, n - 1, v)
         case o => o
  }

  lemma {:induction false} StepsAdd(step: Vm -> Out, m: nat, n: nat, vm: Vm, mid: Vm)
    requires Steps(step, m, vm) == Run(mid)
    ensures Steps(step, m + n, vm) == Steps(step, n, mid)
  {
    if m > 0 {
      StepsAdd(step, m - 1, n, step(vm).vm, mid);
    }
  }

  // ---- The interpreter loop ----

  // Charge the quota; on expiry, warn the handler once.
  function Charge(w: World, vm: Vm): Out {
    if vm.state <= 0 then Run(vm)
    else if vm.state > 1 then Run(vm.(state := vm.state - 1))
    else
      match RaiseName(w, vm.(state := DEFAULT_QUOTA), "quota-expired", Null)
      case Raised(v) => Raised(v.(trap := Null))
      case o => o
  }

  function AfterRaise(o: Out): Out {
    if o.Run? then Raised(o.vm) else o
  }

  function Tick(w: World, vm: Vm): Out {
    match Charge(w, vm)
    case Run(v) => Instr(w, v)
    case Raised(v) => AfterRaise(Instr(w, v))
    case o => o
  }

  predicate Runnable(vm: Vm) {
    vm.state != DYING && vm.acc != YIELD
  }

  // `tick` makes one turn of the loop in world `w`.
  ghost predicate Ticks(w: World, tick: Vm -> Out) {
    forall vm {:trigger Tick(w, vm)} :: tick(vm) == Tick(w, vm)
  }

  // At most `n` turns of the interpreter loop, up to the first exception.
  function Turns(tick: Vm -> Out, n: nat, vm: Vm): Out {
    if n == 0 || !Runnable(vm) then Run(vm)
    else match tick(vm)
         case Run(v) => Turns(tick, n - 1, v)
         case o => o
  }
}
