// The forms that stand for calls of library functions, with their parts
// evaluated directly.
module Library {
  import opened Bytes
  import opened Values
  import opened Machine
  import opened Syntax
  import opened Scoping
  import opened Emission
  import opened Limits
  import opened Semantics
  import opened Agreement
  import opened Execution
  import opened Returns
  import opened Correctness
  import opened Activations
  import opened Keeping
  import opened Requests

  // The global `name` is to be applied to `args`, which go to the vector at
  // `argv`; `st` is the state the last part has led to.
  datatype Request = Request(name: Sym, argv: nat, args: seq<Value>, st: St)

  // A vector of arguments, of which some are known.
  function WithVector(st: St, elems: seq<Value>): St {
    st.(heap := st.heap + [SVec(elems)])
  }

  function Filled(st: St, argv: nat, elems: seq<Value>): St
    requires argv < |st.heap|
  {
    st.(heap := st.heap[argv := SVec(elems)])
  }

  // a[b]: the vector is made once `a` has its value.
  function IndexRequest(w: World, fuel: nat, room: nat, a: Expr, b: Expr, s: Scopes, me: Me, st: St): Option<Request> {
    match Eval(w, fuel, room, a, s, me, st)
    case Val(x, st1) =>
      if room == 0 then None
      else (match Eval(w, fuel, room - 1, b, After(a, s), me, WithVector(st1, [Null, x, Null]))
            case Val(y, st2) => Some(Request("element-ref", |st1.heap|, [x, y], st2))
            case _ => None)
    case _ => None
  }

  // a[b] = c
  function SetRequest(w: World, fuel: nat, room: nat, a: Expr, b: Expr, c: Expr, s: Scopes, me: Me, st: St)
    : Option<Request>
  {
    match Eval(w, fuel, room, a, s, me, st)
    case Val(x, st1) => if room == 0 then None else SetRequestFrom(w, fuel, room - 1, x, b, c, After(a, s), me, st1)
    case _ => None
  }

  function SetRequestFrom(w: World, fuel: nat, room: nat, x: Value, b: Expr, c: Expr, s: Scopes, me: Me, st: St)
    : Option<Request>
  {
    match Eval(w, fuel, room, b, s, me, WithVector(st, [Null, x, Null, Null]))
    case Val(y, st1) =>
      if |st1.heap| <= |st.heap| then None
      else (match Eval(w, fuel, room, c, After(b, s), me, Filled(st1, |st.heap|, [Null, x, y, Null]))
            case Val(z, st2) => Some(Request("element-set", |st.heap|, [x, y, z], st2))
            case _ => None)
    case _ => None
  }

  // define (a) x = b: the vector is there first.
  function DefSlotRequest(w: World, fuel: nat, room: nat, a: Expr, x: Sym, b: Expr, s: Scopes, me: Me, st: St)
    : Option<Request>
  {
    if room == 0 then None
    else match Eval(w, fuel, room - 1, a, s, me, WithVector(st, Nulls(4)))
         case Val(o, st1) =>
           if |st1.heap| <= |st.heap| then None
           else (match Eval(w, fuel, room - 1, b, After(a, s), me, Filled(st1, |st.heap|, [Null, o, SymVal(x), Null]))
                 case Val(v, st2) => Some(Request("add-slot", |st.heap|, [o, SymVal(x), v], st2))
                 case _ => None)
         case _ => None
  }

  // define method (a) x (params) b: a function for the current user.
  function DefMethodRequest(w: World, fuel: nat, room: nat, k: FormF, b: Expr, s: Scopes, me: Me, st: St)
    : Option<Request>
    requires k.DefMethod?
  {
    if room == 0 then None
    else match Eval(w, fuel, room - 1, k.a, s, me, WithVector(st, Nulls(4)))
         case Val(o, st1) =>
           var f := SFunction(k.params, b, After(k.a, s), st1.env, me.self, PERMS_MASK, me.effuid);
           Some(Request("add-method", |st.heap|, [o, SymVal(k.x), Alloc(st1, f).1], Alloc(st1, f).0))
         case _ => None
  }

  // define x = a, outside all scopes.
  function DefineRequest(w: World, fuel: nat, room: nat, x: Sym, a: Expr, me: Me, st: St): Option<Request> {
    if room == 0 then None
    else match Eval(w, fuel, room - 1, a, [], me, WithVector(st, Nulls(3)))
         case Val(v, st1) => Some(Request("define-global", |st.heap|, [SymVal(x), v], st1))
         case _ => None
  }

  // bind-cc (x) b
  function BindRequest(room: nat, x: Sym, b: Expr, s: Scopes, me: Me, st: St): Option<Request> {
    if room == 0 then None
    else
      var st1 := WithVector(st, Nulls(2));
      var f := SFunction([x], b, s, st.env, me.self, PERMS_MASK, me.effuid);
      Some(Request("call/cc", |st.heap|, [Alloc(st1, f).1], Alloc(st1, f).0))
  }

  // What a form asks for, if its parts have values.
  function RequestOf(w: World, fuel: nat, room: nat, e: Expr, s: Scopes, me: Me, st: St): Option<Request> {
    match e
    case Two(Index, a, b) => IndexRequest(w, fuel, room, a, b, s, me, st)
    case Two(DefSlot(x), a, b) => DefSlotRequest(w, fuel, room, a, x, b, s, me, st)
    case Three(IndexSet, a, b, c) => SetRequest(w, fuel, room, a, b, c, s, me, st)
    case One(Define(x), a) => if s == [] then DefineRequest(w, fuel, room, x, a, me, st) else None
    case Fun(DefMethod(a, x, params), b) => DefMethodRequest(w, fuel, room, e.kf, b, s, me, st)
    case Fun(BindCC(x), b) => BindRequest(room, x, b, s, me, st)
    case _ => None
  }

  // ---- Parts ----

  // A part has a value; the vectors there were are still there.
  lemma PartRuns(w: World, step: Vm -> Out, fuel: nat, e: Expr, s: Scopes, lits: seq<Value>, me: Me, st: St, vm: Vm)
    returns (n: nat, vm2: Vm)
    requires Drives(w, step) && Context(e, s, me, st, vm) && Loaded(vm, 0, Emit(e, s, lits))
    requires Eval(w, fuel, Room(vm), e, s, me, st).Val?
    ensures var r := Eval(w, fuel, Room(vm), e, s, me, st);
            && Computes(step, vm, n, vm2, |Emit(e, s, lits).code|) && vm2.acc == r.v && Agree(me, r.st, vm2)
            && Ext(st.heap, r.st.heap) && Kept(st.heap, r.st.heap, -1)
  {
    n, vm2 := Sim(w, step, fuel, e, s, lits, me, st, vm);
    EvalKeeps(w, fuel, Room(vm), e, s, me, st);
  }

  lemma VectorKept(h: SHeap, k: SHeap, vm: Vm, vm2: Vm, a: nat)
    requires HeapAgrees(h, vm.heap) && HeapAgrees(k, vm2.heap) && Kept(h, k, -1) && a < |h| && h[a].SVec?
    ensures Requests.Keeps(vm, vm2, a) && vm2.heap[a] == Vec(h[a].elems)
  {
    HeapDef(h, vm.heap);
    HeapDef(k, vm2.heap);
    assert CellAgrees(h[a], vm.heap[a]) && CellAgrees(k[a], vm2.heap[a]);
  }

  lemma VectorAgrees(me: Me, st: St, vm: Vm, vm2: Vm, elems: seq<Value>)
    requires Agree(me, st, vm)
    requires vm2 == vm.(acc := vm2.acc, stack := vm2.stack, ip := vm2.ip, heap := vm.heap + [Vec(elems)])
    ensures Agree(me, WithVector(st, elems), vm2) && Ext(st.heap, WithVector(st, elems).heap)
  {
    AllocAgrees(st.heap, vm.heap, SVec(elems), Vec(elems));
  }

  lemma FilledAgrees(me: Me, st: St, vm: Vm, vm2: Vm, argv: nat, elems: seq<Value>)
    requires Agree(me, st, vm) && argv < |st.heap| && st.heap[argv].SVec? && argv != ZERO_VECTOR
    requires vm2 == vm.(acc := vm2.acc, stack := vm2.stack, ip := vm2.ip, heap := vm.heap[argv := Vec(elems)])
    ensures Agree(me, Filled(st, argv, elems), vm2) && Ext(st.heap, Filled(st, argv, elems).heap)
  {
    UpdateAgrees(st.heap, vm.heap, argv, SVec(elems), Vec(elems));
  }

  // Everything but the code for a part, `t` being the scopes after the whole.
  lemma PartContext(e: Expr, s: Scopes, t: Scopes, me: Me, st: St, vm: Vm)
    requires ReturnSafe(e, s == []) && Fits(e, s) && ChainOk(st.heap, st.env, t) && Extends(After(e, s), t)
    requires Agree(me, st, vm) && Sized(vm)
    ensures Context(e, s, me, st, vm)
  {
    ChainPrefix(st.heap, st.env, After(e, s), t);
  }

  // A part evaluated while the vector `argv` waits on the stack.
  lemma WaitingPart(w: World, step: Vm -> Out, fuel: nat, e: Expr, s: Scopes, t: Scopes, lits: seq<Value>, me: Me,
                    st: St, vm: Vm, argv: nat, r: Res) returns (n: nat, vm2: Vm)
    requires Drives(w, step) && ReturnSafe(e, s == []) && Fits(e, s) && ChainOk(st.heap, st.env, t)
    requires Extends(After(e, s), t) && Agree(me, st, vm) && Sized(vm) && Loaded(vm, 0, Emit(e, s, lits))
    requires argv < |st.heap| && st.heap[argv].SVec? && r == Eval(w, fuel, Room(vm), e, s, me, st) && r.Val?
    ensures Computes(step, vm, n, vm2, |Emit(e, s, lits).code|) && vm2.acc == r.v && Agree(me, r.st, vm2)
    ensures Requests.Keeps(vm, vm2, argv) && ChainOk(r.st.heap, r.st.env, t)
    ensures argv < |r.st.heap| && r.st.heap[argv] == st.heap[argv]
  {
    PartContext(e, s, t, me, st, vm);
    n, vm2 := PartRuns(w, step, fuel, e, s, lits, me, st, vm);
    VectorKept(st.heap, r.st.heap, vm, vm2, argv);
    ChainOn(st, r.st, t);
  }

  // ---- a[b] ----

  lemma IndexContext(e: Expr, s: Scopes, lits: seq<Value>, me: Me, st: St, vm: Vm, em: Emitted, r1: Emitted,
                     r2: Emitted)
    requires e.Two? && e.k2.Index? && Context(e, s, me, st, vm) && em == Emit(e, s, lits) && Loaded(vm, 0, em)
    requires r1 == Emit(e.a, s, lits) && r2 == Emit(e.b, After(e.a, s), r1.lits)
    ensures Context(e.a, s, me, st, vm) && Loaded(vm, 0, r1) && Loaded(vm, |r1.code| + 6, r2)
    ensures ReturnSafe(e.b, After(e.a, s) == []) && Fits(e.b, After(e.a, s))
    ensures ChainOk(st.heap, st.env, After(e.b, After(e.a, s)))
  {
    Static(e, s);
    NoReturnIsSafe(e.b, After(e.a, s) == []);
    ChainPrefix(st.heap, st.env, After(e.a, s), After(e, s));
    AccessPieces(e, s, lits, em, vm.code, vm.ip, r1, Mid2(Index, r1.lits), r2, Post2(Index, r2.lits));
  }

  // The first argument is put into a new vector.
  lemma VectorWith(me: Me, st: St, t: Scopes, a: Vm, argc: nat, elems: seq<Value>, st0: St)
    requires Agree(me, st, a) && 0 < argc && elems == Nulls(argc + 1)[1 := a.acc]
    requires ChainOk(st0.heap, st0.env, t) && Ext(st0.heap, st.heap) && st0.env == st.env
    ensures Agree(me, WithVector(st, elems), OpenedWith(a, argc)) && |st.heap| == |a.heap| > 0
    ensures ChainOk(WithVector(st, elems).heap, st.env, t)
  {
    VectorAgrees(me, st, a, OpenedWith(a, argc), elems);
    ChainOn(st0, WithVector(st, elems), t);
    HeapDef(st.heap, a.heap);
  }

  lemma IndexRequested(w: World, step: Vm -> Out, fuel: nat, e: Expr, s: Scopes, lits: seq<Value>, me: Me, st: St,
                       vm: Vm, em: Emitted, q: Request) returns (n: nat, last: Vm)
    requires Drives(w, step) && e.Two? && e.k2.Index? && Context(e, s, me, st, vm)
    requires em == Emit(e, s, lits) && Loaded(vm, 0, em)
    requires IndexRequest(w, fuel, Room(vm), e.a, e.b, s, me, st) == Some(q)
    ensures Asks(step, vm, n, last, |em.code|, q.name, q.argv, q.args) && Agree(me, q.st, last)
    ensures 0 < q.argv < |q.st.heap| && q.st.heap[q.argv].SVec?
  {
    var r1, s1 := Emit(e.a, s, lits), After(e.a, s);
    var r2 := Emit(e.b, s1, r1.lits);
    IndexContext(e, s, lits, me, st, vm, em, r1, r2);
    var n1, a, n2, b := IndexParts(w, step, fuel, e.a, e.b, s, lits, me, st, vm, r1, r2, q);
    n := IndexAsks(w, step, e, s, lits, vm, em, r1, n1, a, r2, n2, b);
    last := b;
  }

  lemma IndexParts(w: World, step: Vm -> Out, fuel: nat, a: Expr, b: Expr, s: Scopes, lits: seq<Value>, me: Me, st: St,
                   vm: Vm, r1: Emitted, r2: Emitted, q: Request) returns (n1: nat, va: Vm, n2: nat, vb: Vm)
    requires Drives(w, step) && r1 == Emit(a, s, lits) && r2 == Emit(b, After(a, s), r1.lits)
    requires Context(a, s, me, st, vm) && Loaded(vm, 0, r1) && Loaded(vm, |r1.code| + 6, r2)
    requires ReturnSafe(b, After(a, s) == []) && Fits(b, After(a, s))
    requires ChainOk(st.heap, st.env, After(b, After(a, s)))
    requires IndexRequest(w, fuel, Room(vm), a, b, s, me, st) == Some(q)
    ensures Computes(step, vm, n1, va, |r1.code|)
    ensures Computes(step, OpenedWith(va, 2), n2, vb, |r2.code|) && Requests.Keeps(OpenedWith(va, 2), vb, |va.heap|)
    ensures q == Request("element-ref", |va.heap|, [va.acc, vb.acc], q.st) && Agree(me, q.st, vb)
    ensures 0 < q.argv < |q.st.heap| && q.st.heap[q.argv].SVec?
  {
    n1, va := PartRuns(w, step, fuel, a, s, lits, me, st, vm);
    var x, s1 := Eval(w, fuel, Room(vm), a, s, me, st), After(a, s);
    var c, st2 := OpenedWith(va, 2), WithVector(x.st, [Null, x.v, Null]);
    VectorWith(me, x.st, After(b, s1), va, 2, [Null, x.v, Null], st);
    n2, vb := WaitingPart(w, step, fuel, b, s1, After(b, s1), r1.lits, me, st2, c, |va.heap|,
                          Eval(w, fuel, Room(c), b, s1, me, st2));
  }

  // ---- a[b] = c ----

  lemma SetContext(e: Expr, s: Scopes, lits: seq<Value>, me: Me, st: St, vm: Vm, em: Emitted, r1: Emitted, r2: Emitted,
                   r3: Emitted)
    requires e.Three? && e.k3.IndexSet? && Context(e, s, me, st, vm) && em == Emit(e, s, lits) && Loaded(vm, 0, em)
    requires r1 == Emit(e.a, s, lits) && r2 == Emit(e.b, After(e.a, s), r1.lits)
    requires r3 == Emit(e.c, After(e.b, After(e.a, s)), r2.lits)
    ensures Context(e.a, s, me, st, vm) && Loaded(vm, 0, r1) && Loaded(vm, |r1.code| + 6, r2)
    ensures Loaded(vm, |r1.code| + 8 + |r2.code|, r3)
    ensures ReturnSafe(e.b, After(e.a, s) == []) && Fits(e.b, After(e.a, s))
    ensures ReturnSafe(e.c, After(e.b, After(e.a, s)) == []) && Fits(e.c, After(e.b, After(e.a, s)))
    ensures ChainOk(st.heap, st.env, After(e.c, After(e.b, After(e.a, s))))
  {
    Static(e, s);
    NoReturnIsSafe(e.b, After(e.a, s) == []);
    NoReturnIsSafe(e.c, After(e.b, After(e.a, s)) == []);
    ChainPrefix(st.heap, st.env, After(e.a, s), After(e, s));
    var g := CallGlobal("element-set", r3.lits);
    SetEmitted(e, s, lits, r1, r2, r3, g);
    AtSplit3(vm.code, vm.ip, r1.code + PrepareWithFirst(3) + r2.code + AtPut(2), r3.code, AtPut(3) + g.code);
    AtSplit4(vm.code, vm.ip, r1.code, PrepareWithFirst(3), r2.code, AtPut(2));
  }

  // The vector is stored into.
  lemma VectorFilled(me: Me, st: St, t: Scopes, b: Vm, b2: Vm, argv: nat, elems: seq<Value>)
    requires Agree(me, st, b) && ChainOk(st.heap, st.env, t) && argv < |st.heap| && st.heap[argv].SVec?
    requires argv != ZERO_VECTOR && argv < |b.heap|
    requires b2 == b.(acc := b2.acc, ip := b2.ip, heap := b.heap[argv := Vec(elems)])
    ensures Agree(me, Filled(st, argv, elems), b2) && ChainOk(Filled(st, argv, elems).heap, st.env, t)
  {
    FilledAgrees(me, st, b, b2, argv, elems);
    ChainOn(st, Filled(st, argv, elems), t);
  }

  // From the value of `a` on; `t` are the scopes after the whole, `y` and `z`
  // what index and element come to.
  lemma SetRequestedFrom(w: World, step: Vm -> Out, fuel: nat, b: Expr, c: Expr, s: Scopes, t: Scopes, me: Me, st: St,
                         va: Vm, r2: Emitted, r3: Emitted, lits: seq<Value>, y: Res, z: Res)
    returns (n2: nat, vb: Vm, n3: nat, vc: Vm)
    requires Drives(w, step) && r2 == Emit(b, s, lits) && r3 == Emit(c, After(b, s), r2.lits)
    requires ReturnSafe(b, s == []) && Fits(b, s) && ReturnSafe(c, After(b, s) == []) && Fits(c, After(b, s))
    requires t == After(c, After(b, s)) && Sized(va) && |va.stack| < STACK_LENGTH && |st.heap| == |va.heap| > 0
    requires Agree(me, WithVector(st, [Null, va.acc, Null, Null]), OpenedWith(va, 3))
    requires ChainOk(WithVector(st, [Null, va.acc, Null, Null]).heap, st.env, t)
    requires Loaded(OpenedWith(va, 3), 0, r2) && Loaded(va, 8 + |r2.code|, r3)
    requires y == Eval(w, fuel, Room(va) - 1, b, s, me, WithVector(st, [Null, va.acc, Null, Null])) && y.Val?
    requires |va.heap| < |y.st.heap| && z.Val?
    requires z == Eval(w, fuel, Room(va) - 1, c, After(b, s), me, Filled(y.st, |va.heap|, [Null, va.acc, y.v, Null]))
    ensures Computes(step, OpenedWith(va, 3), n2, vb, |r2.code|) && Requests.Keeps(OpenedWith(va, 3), vb, |va.heap|)
    ensures Computes(step, Put(vb, |va.heap|, 2), n3, vc, |r3.code|)
    ensures Requests.Keeps(Put(vb, |va.heap|, 2), vc, |va.heap|)
    ensures vb.acc == y.v && vc.acc == z.v && Agree(me, z.st, vc)
    ensures |va.heap| < |z.st.heap| && z.st.heap[|va.heap|].SVec?
  {
    n2, vb := SetSecond(w, step, fuel, b, s, t, me, st, va, r2, lits, y);
    n3, vc := WaitingPart(w, step, fuel, c, After(b, s), t, r2.lits, me,
                          Filled(y.st, |va.heap|, [Null, va.acc, y.v, Null]), Put(vb, |va.heap|, 2), |va.heap|, z);
  }

  lemma SetSecond(w: World, step: Vm -> Out, fuel: nat, b: Expr, s: Scopes, t: Scopes, me: Me, st: St, va: Vm,
                  r2: Emitted, lits: seq<Value>, y: Res) returns (n2: nat, vb: Vm)
    requires Drives(w, step) && r2 == Emit(b, s, lits) && ReturnSafe(b, s == []) && Fits(b, s)
    requires Extends(After(b, s), t) && Sized(va) && |va.stack| < STACK_LENGTH && |st.heap| == |va.heap| > 0
    requires Agree(me, WithVector(st, [Null, va.acc, Null, Null]), OpenedWith(va, 3))
    requires ChainOk(WithVector(st, [Null, va.acc, Null, Null]).heap, st.env, t) && Loaded(OpenedWith(va, 3), 0, r2)
    requires y == Eval(w, fuel, Room(va) - 1, b, s, me, WithVector(st, [Null, va.acc, Null, Null])) && y.Val?
    ensures Computes(step, OpenedWith(va, 3), n2, vb, |r2.code|) && Requests.Keeps(OpenedWith(va, 3), vb, |va.heap|)
    ensures |va.heap| < |y.st.heap| && y.st.heap[|va.heap|].SVec? && vb.acc == y.v
    ensures var st2 := Filled(y.st, |va.heap|, [Null, va.acc, y.v, Null]);
            Agree(me, st2, Put(vb, |va.heap|, 2)) && ChainOk(st2.heap, st2.env, t)
  {
    var v := |va.heap|;
    n2, vb := WaitingPart(w, step, fuel, b, s, t, lits, me, WithVector(st, [Null, va.acc, Null, Null]),
                          OpenedWith(va, 3), v, y);
    var elems := [Null, va.acc, y.v, Null];
    assert Nulls(4)[1 := va.acc][2 := y.v] == elems;
    VectorFilled(me, y.st, t, vb, Put(vb, v, 2), v, elems);
  }

  // All three parts.
  lemma SetParts(w: World, step: Vm -> Out, fuel: nat, a: Expr, b: Expr, c: Expr, s: Scopes, t: Scopes, me: Me, st: St,
                 vm: Vm, lits: seq<Value>, r1: Emitted, r2: Emitted, r3: Emitted, q: Request)
    returns (n1: nat, va: Vm, n2: nat, vb: Vm, n3: nat, vc: Vm)
    requires Drives(w, step) && r1 == Emit(a, s, lits) && r2 == Emit(b, After(a, s), r1.lits)
    requires r3 == Emit(c, After(b, After(a, s)), r2.lits) && Context(a, s, me, st, vm)
    requires ReturnSafe(b, After(a, s) == []) && Fits(b, After(a, s))
    requires ReturnSafe(c, After(b, After(a, s)) == []) && Fits(c, After(b, After(a, s)))
    requires t == After(c, After(b, After(a, s))) && ChainOk(st.heap, st.env, t)
    requires Loaded(vm, 0, r1) && Loaded(vm, |r1.code| + 6, r2) && Loaded(vm, |r1.code| + 8 + |r2.code|, r3)
    requires SetRequest(w, fuel, Room(vm), a, b, c, s, me, st) == Some(q)
    ensures Computes(step, vm, n1, va, |r1.code|)
    ensures Computes(step, OpenedWith(va, 3), n2, vb, |r2.code|) && Requests.Keeps(OpenedWith(va, 3), vb, |va.heap|)
    ensures Computes(step, Put(vb, |va.heap|, 2), n3, vc, |r3.code|)
    ensures Requests.Keeps(Put(vb, |va.heap|, 2), vc, |va.heap|)
    ensures q == Request("element-set", |va.heap|, [va.acc, vb.acc, vc.acc], q.st) && Agree(me, q.st, vc)
    ensures 0 < q.argv < |q.st.heap| && q.st.heap[q.argv].SVec?
  {
    var x := Eval(w, fuel, Room(vm), a, s, me, st);
    n1, va := SetFirst(w, step, fuel, a, s, t, me, st, vm, lits, r1, r2, r3, x);
    var s1, st1 := After(a, s), WithVector(x.st, [Null, x.v, Null, Null]);
    var y := Eval(w, fuel, Room(vm) - 1, b, s1, me, st1);
    var z := Eval(w, fuel, Room(vm) - 1, c, After(b, s1), me, Filled(y.st, |va.heap|, [Null, x.v, y.v, Null]));
    n2, vb, n3, vc := SetRequestedFrom(w, step, fuel, b, c, s1, t, me, x.st, va, r2, r3, r1.lits, y, z);
  }

  lemma SetFirst(w: World, step: Vm -> Out, fuel: nat, a: Expr, s: Scopes, t: Scopes, me: Me, st: St, vm: Vm,
                 lits: seq<Value>, r1: Emitted, r2: Emitted, r3: Emitted, x: Res) returns (n: nat, va: Vm)
    requires Drives(w, step) && r1 == Emit(a, s, lits) && Context(a, s, me, st, vm) && ChainOk(st.heap, st.env, t)
    requires Loaded(vm, 0, r1) && Loaded(vm, |r1.code| + 6, r2) && Loaded(vm, |r1.code| + 8 + |r2.code|, r3)
    requires x == Eval(w, fuel, Room(vm), a, s, me, st) && x.Val?
    ensures Computes(step, vm, n, va, |r1.code|) && va.acc == x.v && |x.st.heap| == |va.heap| > 0
    ensures Agree(me, WithVector(x.st, [Null, va.acc, Null, Null]), OpenedWith(va, 3))
    ensures ChainOk(WithVector(x.st, [Null, va.acc, Null, Null]).heap, x.st.env, t)
    ensures Loaded(OpenedWith(va, 3), 0, r2) && Loaded(va, 8 + |r2.code|, r3) && Sized(va)
  {
    n, va := PartRuns(w, step, fuel, a, s, lits, me, st, vm);
    assert Nulls(4)[1 := va.acc] == [Null, x.v, Null, Null];
    VectorWith(me, x.st, t, va, 3, [Null, x.v, Null, Null], st);
  }

  lemma SetRequested(w: World, step: Vm -> Out, fuel: nat, e: Expr, s: Scopes, lits: seq<Value>, me: Me, st: St,
                     vm: Vm, em: Emitted, q: Request) returns (n: nat, last: Vm)
    requires Drives(w, step) && e.Three? && e.k3.IndexSet? && Context(e, s, me, st, vm)
    requires em == Emit(e, s, lits) && Loaded(vm, 0, em)
    requires SetRequest(w, fuel, Room(vm), e.a, e.b, e.c, s, me, st) == Some(q)
    ensures Asks(step, vm, n, last, |em.code|, q.name, q.argv, q.args) && Agree(me, q.st, last)
    ensures 0 < q.argv < |q.st.heap| && q.st.heap[q.argv].SVec?
  {
    var s1 := After(e.a, s);
    var r1, s2 := Emit(e.a, s, lits), After(e.b, s1);
    var r2 := Emit(e.b, s1, r1.lits);
    var r3 := Emit(e.c, s2, r2.lits);
    SetContext(e, s, lits, me, st, vm, em, r1, r2, r3);
    var n1, a, n2, b, n3, c :=
      SetParts(w, step, fuel, e.a, e.b, e.c, s, After(e.c, s2), me, st, vm, lits, r1, r2, r3, q);
    n := IndexSetAsks(w, step, e, s, lits, vm, em, r1, n1, a, r2, n2, b, r3, n3, c);
    last := c;
  }

  // ---- define (a) x = b, define method (a) x ----

  // A new vector with nothing in it.
  lemma VectorNew(me: Me, st: St, t: Scopes, vm: Vm, argc: nat)
    requires Agree(me, st, vm) && ChainOk(st.heap, st.env, t)
    ensures Agree(me, WithVector(st, Nulls(argc + 1)), Opened(vm, argc)) && |st.heap| == |vm.heap| > 0
    ensures ChainOk(WithVector(st, Nulls(argc + 1)).heap, st.env, t)
  {
    VectorAgrees(me, st, vm, Opened(vm, argc), Nulls(argc + 1));
    ChainOn(st, WithVector(st, Nulls(argc + 1)), t);
    HeapDef(st.heap, vm.heap);
  }

  // The object is computed in front of the new vector.
  lemma ObjectRuns(w: World, step: Vm -> Out, fuel: nat, a: Expr, s: Scopes, t: Scopes, lits: seq<Value>, me: Me,
                   st: St, vm: Vm, argc: nat, o: Res) returns (n: nat, va: Vm)
    requires Drives(w, step) && NoReturn(a) && Fits(a, s) && ChainOk(st.heap, st.env, t) && Extends(After(a, s), t)
    requires Agree(me, st, vm) && Sized(vm) && Room(vm) > 0 && Loaded(vm, 3, Emit(a, s, lits))
    requires o == Eval(w, fuel, Room(vm) - 1, a, s, me, WithVector(st, Nulls(argc + 1))) && o.Val?
    ensures Computes(step, Opened(vm, argc), n, va, |Emit(a, s, lits).code|) && va.acc == o.v
    ensures Requests.Keeps(Opened(vm, argc), va, |vm.heap|) && Agree(me, o.st, va) && ChainOk(o.st.heap, o.st.env, t)
    ensures 0 < |st.heap| == |vm.heap| < |o.st.heap| && o.st.heap[|vm.heap|] == SVec(Nulls(argc + 1))
  {
    NoReturnIsSafe(a, s == []);
    VectorNew(me, st, t, vm, argc);
    n, va := WaitingPart(w, step, fuel, a, s, t, lits, me, WithVector(st, Nulls(argc + 1)), Opened(vm, argc), |vm.heap|,
                         o);
  }

  // Object and name are in the vector.
  lemma AddressedAgrees(me: Me, st: St, t: Scopes, a: Vm, v: nat, x: Sym)
    requires Agree(me, st, a) && ChainOk(st.heap, st.env, t) && 0 < v < |st.heap| && v < |a.heap|
    requires st.heap[v].SVec? && a.heap[v] == Vec(Nulls(4))
    ensures var elems := [Null, a.acc, SymVal(x), Null];
            Agree(me, Filled(st, v, elems), Addressed(a, v, x)) && ChainOk(Filled(st, v, elems).heap, st.env, t)
  {
    var elems := [Null, a.acc, SymVal(x), Null];
    assert Nulls(4)[1 := a.acc][2 := SymVal(x)] == elems;
    Overwritten(a.heap, v, Vec(Nulls(4)[1 := a.acc]), Vec([]), Vec(elems));
    VectorFilled(me, st, t, a, Addressed(a, v, x), v, elems);
  }

  lemma DefSlotContext(e: Expr, s: Scopes, lits: seq<Value>, me: Me, st: St, vm: Vm, em: Emitted, r1: Emitted,
                       l: Emitted, r2: Emitted)
    requires e.Two? && e.k2.DefSlot? && Context(e, s, me, st, vm) && em == Emit(e, s, lits) && Loaded(vm, 0, em)
    requires r1 == Emit(e.a, s, lits) && l == LitOp(OP_A_LITL, SymVal(e.k2.x), r1.lits)
    requires r2 == Emit(e.b, After(e.a, s), l.lits)
    ensures NoReturn(e.a) && Fits(e.a, s) && Loaded(vm, 3, r1) && Loaded(vm, |r1.code| + 9, r2)
    ensures ReturnSafe(e.b, After(e.a, s) == []) && Fits(e.b, After(e.a, s))
    ensures ChainOk(st.heap, st.env, After(e.b, After(e.a, s)))
  {
    Static(e, s);
    NoReturnIsSafe(e.b, After(e.a, s) == []);
    var first, last := PrepareCall(3) + r1.code + (AtPut(1) + l.code + AtPut(2)), CallGlobal("add-slot", r2.lits);
    DefSlotEmitted(e, s, lits, r1, l, r2, last);
    AtSplit3(vm.code, vm.ip, first, r2.code, AtPut(3) + last.code);
    AtSplit3(vm.code, vm.ip, PrepareCall(3), r1.code, AtPut(1) + l.code + AtPut(2));
  }

  // The parts of a slot definition, `t` the scopes after it, `o` and `y` what
  // they come to.
  lemma DefSlotParts(w: World, step: Vm -> Out, fuel: nat, a: Expr, x: Sym, b: Expr, s: Scopes, t: Scopes, me: Me,
                     st: St, vm: Vm, lits: seq<Value>, r1: Emitted, l: Emitted, r2: Emitted, o: Res, y: Res)
    returns (n1: nat, va: Vm, n2: nat, vb: Vm)
    requires Drives(w, step) && r1 == Emit(a, s, lits) && l == LitOp(OP_A_LITL, SymVal(x), r1.lits)
    requires r2 == Emit(b, After(a, s), l.lits) && NoReturn(a) && Fits(a, s) && ReturnSafe(b, After(a, s) == [])
    requires Fits(b, After(a, s)) && t == After(b, After(a, s)) && ChainOk(st.heap, st.env, t) && Agree(me, st, vm)
    requires Sized(vm) && Loaded(vm, 3, r1) && Loaded(vm, |r1.code| + 9, r2) && Room(vm) > 0
    requires o == Eval(w, fuel, Room(vm) - 1, a, s, me, WithVector(st, Nulls(4))) && o.Val?
    requires |vm.heap| < |o.st.heap| && y.Val?
    requires y == Eval(w, fuel, Room(vm) - 1, b, After(a, s), me, Filled(o.st, |vm.heap|, [Null, o.v, SymVal(x), Null]))
    ensures Computes(step, Opened(vm, 3), n1, va, |r1.code|) && Requests.Keeps(Opened(vm, 3), va, |vm.heap|)
    ensures Computes(step, Addressed(va, |vm.heap|, x), n2, vb, |r2.code|)
    ensures Requests.Keeps(Addressed(va, |vm.heap|, x), vb, |vm.heap|)
    ensures va.acc == o.v && vb.acc == y.v && Agree(me, y.st, vb)
    ensures 0 < |vm.heap| < |y.st.heap| && y.st.heap[|vm.heap|].SVec?
  {
    n1, va := DefSlotFirst(w, step, fuel, a, x, s, t, me, st, vm, lits, o);
    n2, vb := WaitingPart(w, step, fuel, b, After(a, s), t, l.lits, me,
                          Filled(o.st, |vm.heap|, [Null, o.v, SymVal(x), Null]), Addressed(va, |vm.heap|, x),
                          |vm.heap|, y);
  }

  lemma DefSlotFirst(w: World, step: Vm -> Out, fuel: nat, a: Expr, x: Sym, s: Scopes, t: Scopes, me: Me, st: St,
                     vm: Vm, lits: seq<Value>, o: Res) returns (n: nat, va: Vm)
    requires Drives(w, step) && NoReturn(a) && Fits(a, s) && ChainOk(st.heap, st.env, t) && Extends(After(a, s), t)
    requires Agree(me, st, vm) && Sized(vm) && Room(vm) > 0 && Loaded(vm, 3, Emit(a, s, lits))
    requires o == Eval(w, fuel, Room(vm) - 1, a, s, me, WithVector(st, Nulls(4))) && o.Val?
    ensures Computes(step, Opened(vm, 3), n, va, |Emit(a, s, lits).code|) && va.acc == o.v
    ensures Requests.Keeps(Opened(vm, 3), va, |vm.heap|)
    ensures 0 < |st.heap| == |vm.heap| < |o.st.heap| && o.st.heap[|vm.heap|].SVec?
    ensures var st2 := Filled(o.st, |vm.heap|, [Null, o.v, SymVal(x), Null]);
            Agree(me, st2, Addressed(va, |vm.heap|, x)) && ChainOk(st2.heap, st2.env, t)
  {
    n, va := ObjectRuns(w, step, fuel, a, s, t, lits, me, st, vm, 3, o);
    AddressedAgrees(me, o.st, t, va, |vm.heap|, x);
  }

  lemma DefSlotRequested(w: World, step: Vm -> Out, fuel: nat, e: Expr, s: Scopes, lits: seq<Value>, me: Me, st: St,
                         vm: Vm, em: Emitted, q: Request) returns (n: nat, last: Vm)
    requires Drives(w, step) && e.Two? && e.k2.DefSlot? && Context(e, s, me, st, vm)
    requires em == Emit(e, s, lits) && Loaded(vm, 0, em)
    requires DefSlotRequest(w, fuel, Room(vm), e.a, e.k2.x, e.b, s, me, st) == Some(q)
    ensures Asks(step, vm, n, last, |em.code|, q.name, q.argv, q.args) && Agree(me, q.st, last)
    ensures 0 < q.argv < |q.st.heap| && q.st.heap[q.argv].SVec?
  {
    var r1, s1 := Emit(e.a, s, lits), After(e.a, s);
    var l := LitOp(OP_A_LITL, SymVal(e.k2.x), r1.lits);
    var r2 := Emit(e.b, s1, l.lits);
    DefSlotContext(e, s, lits, me, st, vm, em, r1, l, r2);
    HeapDef(st.heap, vm.heap);
    var o := Eval(w, fuel, Room(vm) - 1, e.a, s, me, WithVector(st, Nulls(4)));
    var y := Eval(w, fuel, Room(vm) - 1, e.b, s1, me, Filled(o.st, |vm.heap|, [Null, o.v, SymVal(e.k2.x), Null]));
    var n1, a, n2, b :=
      DefSlotParts(w, step, fuel, e.a, e.k2.x, e.b, s, After(e.b, s1), me, st, vm, lits, r1, l, r2, o, y);
    n := DefSlotAsks(w, step, e, s, lits, vm, em, r1, n1, a, l, r2, n2, b);
    last := b;
  }

  // A function value and the closure made for it.
  lemma ClosedAgrees(me: Me, st: St, a: Vm, params: seq<Sym>, b: Expr, s: Scopes, m: Method, f: SCell)
    requires Agree(me, st, a) && ChainOk(st.heap, st.env, s) && BlockFits(params, b, s)
    requires m == EmitTemplate(params, b, s) && f == SFunction(params, b, s, st.env, me.self, PERMS_MASK, me.effuid)
    ensures Agree(me, Alloc(st, f).0, Closed(a, m)) && Alloc(st, f).1 == Ref(|a.heap|)
  {
    AllocAgrees(st.heap, a.heap, f, Closure(m.(env := a.env, owner := a.effuid), a.self));
  }

  lemma DefMethodContext(e: Expr, s: Scopes, lits: seq<Value>, me: Me, st: St, vm: Vm, em: Emitted, r1: Emitted)
    requires e.Fun? && e.kf.DefMethod? && Context(e, s, me, st, vm) && em == Emit(e, s, lits) && Loaded(vm, 0, em)
    requires r1 == Emit(e.kf.a, s, lits)
    ensures NoReturn(e.kf.a) && Fits(e.kf.a, s) && Loaded(vm, 3, r1)
    ensures BlockFits(e.kf.params, e.b, After(e.kf.a, s)) && ChainOk(st.heap, st.env, After(e.kf.a, s))
  {
    Static(e, s);
    var l, m := LitOp(OP_A_LITL, SymVal(e.kf.x), r1.lits), EmitTemplate(e.kf.params, e.b, After(e.kf.a, s));
    var f := CloseOver(m, l.lits);
    var g := CallGlobal("add-method", f.lits);
    DefMethodEmitted(e, s, lits, r1, l, m, g);
    var first := PrepareCall(3) + r1.code + (AtPut(1) + l.code + AtPut(2));
    AtSplit3(vm.code, vm.ip, first, f.code, AtPut(3) + g.code);
    AtSplit3(vm.code, vm.ip, PrepareCall(3), r1.code, AtPut(1) + l.code + AtPut(2));
  }

  lemma DefMethodRequested(w: World, step: Vm -> Out, fuel: nat, e: Expr, s: Scopes, lits: seq<Value>, me: Me, st: St,
                           vm: Vm, em: Emitted, q: Request) returns (n: nat, last: Vm)
    requires Drives(w, step) && e.Fun? && e.kf.DefMethod? && Context(e, s, me, st, vm)
    requires em == Emit(e, s, lits) && Loaded(vm, 0, em)
    requires DefMethodRequest(w, fuel, Room(vm), e.kf, e.b, s, me, st) == Some(q)
    ensures Asks(step, vm, n, last, |em.code|, q.name, q.argv, q.args) && Agree(me, q.st, last)
    ensures 0 < q.argv < |q.st.heap| && q.st.heap[q.argv].SVec?
  {
    var k, t := e.kf, After(e.kf.a, s);
    var r1, m := Emit(k.a, s, lits), EmitTemplate(k.params, e.b, t);
    DefMethodContext(e, s, lits, me, st, vm, em, r1);
    var o := Eval(w, fuel, Room(vm) - 1, k.a, s, me, WithVector(st, Nulls(4)));
    var n1, a := ObjectRuns(w, step, fuel, k.a, s, t, lits, me, st, vm, 3, o);
    ClosedAgrees(me, o.st, a, k.params, e.b, t, m,
                 SFunction(k.params, e.b, t, o.st.env, me.self, PERMS_MASK, me.effuid));
    n := DefMethodAsks(w, step, e, s, lits, vm, em, r1, n1, a, m);
    last := Closed(a, m);
  }

  // ---- define x = a, bind-cc (x) b ----

  lemma DefineContext(e: Expr, lits: seq<Value>, me: Me, st: St, vm: Vm, em: Emitted, r: Emitted)
    requires e.One? && e.k1.Define? && Context(e, [], me, st, vm) && em == Emit(e, [], lits) && Loaded(vm, 0, em)
    requires r == Emit(e.a, [], lits)
    ensures NoReturn(e.a) && Fits(e.a, []) && Loaded(vm, 3, r) && ChainOk(st.heap, st.env, After(e.a, []))
  {
    Static(e, []);
    assert em == EmitForm(e, [], lits) == EmitOne(e, [], lits);
    AtSplit3(vm.code, vm.ip, PrepareCall(2), r.code, Post1(e.k1, [], After(e, []), r.lits).code);
  }

  lemma DefineRequested(w: World, step: Vm -> Out, fuel: nat, e: Expr, lits: seq<Value>, me: Me, st: St, vm: Vm,
                        em: Emitted, q: Request) returns (n: nat, last: Vm)
    requires Drives(w, step) && e.One? && e.k1.Define? && Context(e, [], me, st, vm)
    requires em == Emit(e, [], lits) && Loaded(vm, 0, em)
    requires DefineRequest(w, fuel, Room(vm), e.k1.x, e.a, me, st) == Some(q)
    ensures Asks(step, vm, n, last, |em.code|, q.name, q.argv, q.args) && Agree(me, q.st, last)
    ensures 0 < q.argv < |q.st.heap| && q.st.heap[q.argv].SVec?
  {
    var r, o := Emit(e.a, [], lits), Eval(w, fuel, Room(vm) - 1, e.a, [], me, WithVector(st, Nulls(3)));
    DefineContext(e, lits, me, st, vm, em, r);
    var n1: nat;
    n1, last := ObjectRuns(w, step, fuel, e.a, [], After(e.a, []), lits, me, st, vm, 2, o);
    n := DefineAsks(w, step, e, lits, vm, em, r, n1, last);
  }

  lemma BindRequested(w: World, step: Vm -> Out, e: Expr, s: Scopes, lits: seq<Value>, me: Me, st: St, vm: Vm,
                      em: Emitted, q: Request) returns (n: nat, last: Vm)
    requires Drives(w, step) && e.Fun? && e.kf.BindCC? && Context(e, s, me, st, vm)
    requires em == Emit(e, s, lits) && Loaded(vm, 0, em)
    requires BindRequest(Room(vm), e.kf.x, e.b, s, me, st) == Some(q)
    ensures Asks(step, vm, n, last, |em.code|, q.name, q.argv, q.args) && Agree(me, q.st, last)
    ensures 0 < q.argv < |q.st.heap| && q.st.heap[q.argv].SVec?
  {
    Static(e, s);
    var x, st1, m := e.kf.x, WithVector(st, Nulls(2)), EmitTemplate([e.kf.x], e.b, s);
    VectorNew(me, st, s, vm, 1);
    ClosedAgrees(me, st1, Opened(vm, 1), [x], e.b, s, m,
                 SFunction([x], e.b, s, st.env, me.self, PERMS_MASK, me.effuid));
    n := BindCCAsks(w, step, e, s, lits, vm, em, m);
    last := Closed(Opened(vm, 1), m);
  }

  // ---- All of them ----

  lemma Requested(w: World, step: Vm -> Out, fuel: nat, e: Expr, s: Scopes, lits: seq<Value>, me: Me, st: St, vm: Vm,
                  em: Emitted, q: Request) returns (n: nat, last: Vm)
    requires Drives(w, step) && Context(e, s, me, st, vm) && em == Emit(e, s, lits) && Loaded(vm, 0, em)
    requires RequestOf(w, fuel, Room(vm), e, s, me, st) == Some(q)
    ensures Asks(step, vm, n, last, |em.code|, q.name, q.argv, q.args) && Agree(me, q.st, last)
    ensures 0 < q.argv < |q.st.heap| && q.st.heap[q.argv].SVec?
  {
    match e
    case Two(Index, _, _) => n, last := IndexRequested(w, step, fuel, e, s, lits, me, st, vm, em, q);
    case Two(DefSlot(_), _, _) => n, last := DefSlotRequested(w, step, fuel, e, s, lits, me, st, vm, em, q);
    case Three(IndexSet, _, _, _) => n, last := SetRequested(w, step, fuel, e, s, lits, me, st, vm, em, q);
    case One(Define(_), _) => n, last := DefineRequested(w, step, fuel, e, lits, me, st, vm, em, q);
    case Fun(DefMethod(_, _, _), _) => n, last := DefMethodRequested(w, step, fuel, e, s, lits, me, st, vm, em, q);
    case Fun(BindCC(_), _) => n, last := BindRequested(w, step, e, s, lits, me, st, vm, em, q);
  }

  // Where direct evaluation of the parts leads to a request, the emitted bytes
  // lead to the application of the global of that name, to those arguments in
  // that order, in an agreeing state.
  lemma RequestCorrect(w: World, fuel: nat, e: Expr, s: Scopes, lits: seq<Value>, me: Me, st: St, vm: Vm, q: Request)
    requires Context(e, s, me, st, vm) && Loaded(vm, 0, Emit(e, s, lits))
    requires RequestOf(w, fuel, Room(vm), e, s, me, st) == Some(q)
    ensures exists n: nat, last: Vm ::
              && Asks(Stepper(w), vm, n, last, |Emit(e, s, lits).code|, q.name, q.argv, q.args)
              && q.argv < |q.st.heap| && Agree(me, Filled(q.st, q.argv, [Null] + q.args),
                                               Asked(vm, last, |Emit(e, s, lits).code|, q.name, q.argv, q.args))
  {
    var n, last := Requested(w, Stepper(w), fuel, e, s, lits, me, st, vm, Emit(e, s, lits), q);
    FilledAgrees(me, q.st, last, Asked(vm, last, |Emit(e, s, lits).code|, q.name, q.argv, q.args), q.argv,
                 [Null] + q.args);
  }

  // If the global is a function whose call has a value, that is the value of
  // the whole form.
  lemma LibraryCorrect(w: World, fuel: nat, fuel2: nat, e: Expr, s: Scopes, lits: seq<Value>, me: Me, st: St, vm: Vm,
                       q: Request, v: Value, st2: St)
    requires Context(e, s, me, st, vm) && Loaded(vm, 0, Emit(e, s, lits))
    requires RequestOf(w, fuel, Room(vm), e, s, me, st) == Some(q) && q.argv < |q.st.heap|
    requires Invoke(w, fuel2, Room(vm), Global(q.st.globals, q.name), q.argv, me,
                    Filled(q.st, q.argv, [Null] + q.args)) == Val(v, st2)
    ensures exists n: nat, vm2: Vm ::
              && Goes(Stepper(w), vm, n, vm2)
              && Arrives(vm, vm2, v, |Emit(e, s, lits).code|)
              && Agree(me, st2, vm2)
  {
    var n, last := Requested(w, Stepper(w), fuel, e, s, lits, me, st, vm, Emit(e, s, lits), q);
    var n2, vm2 := Answered(w, Stepper(w), fuel2, me, vm, n, last, |Emit(e, s, lits).code|, q, v, st2);
  }

  lemma Answered(w: World, step: Vm -> Out, fuel: nat, me: Me, vm: Vm, n: nat, last: Vm, len: nat, q: Request, v: Value,
                 st2: St) returns (m: nat, vm2: Vm)
    requires Drives(w, step) && Asks(step, vm, n, last, len, q.name, q.argv, q.args) && Agree(me, q.st, last)
    requires 0 < q.argv < |q.st.heap| && q.st.heap[q.argv].SVec? && |vm.stack| < STACK_LENGTH
    requires Invoke(w, fuel, Room(vm), Global(q.st.globals, q.name), q.argv, me,
                    Filled(q.st, q.argv, [Null] + q.args)) == Val(v, st2)
    ensures Goes(step, vm, m, vm2) && Arrives(vm, vm2, v, len) && Agree(me, st2, vm2)
  {
    var c, st1 := Asked(vm, last, len, q.name, q.argv, q.args), Filled(q.st, q.argv, [Null] + q.args);
    FilledAgrees(me, q.st, last, c, q.argv, [Null] + q.args);
    m, vm2 := SimInvoke(w, step, fuel, c.acc, q.argv, me, st1, c, vm.stack);
    Then(step, vm, n, c, m, vm2);
    m := n + m;
  }

  // ---- Slots, methods and messages ----

  // a.x and a:x: the slot or method is taken from the part's value.
  lemma MemberCorrect(w: World, fuel: nat, e: Expr, s: Scopes, lits: seq<Value>, me: Me, st: St, vm: Vm, v: Value,
                      st2: St)
    requires e.One? && (e.k1.SlotGet? || e.k1.MethodRef?)
    requires Context(e, s, me, st, vm) && Loaded(vm, 0, Emit(e, s, lits))
    requires Eval(w, fuel, Room(vm), e.a, s, me, st) == Val(v, st2)
    ensures exists n: nat, vm2: Vm ::
              && Goes(Stepper(w), vm, n, vm2) && Agree(me, st2, vm2)
              && vm2 == vm.(acc := v, ip := vm.ip + |Emit(e, s, lits).code| - 2, heap := vm2.heap,
                            globals := vm2.globals)
              && Named(vm2, if e.k1.SlotGet? then OP_A_SLOT else OP_METHOD_CLOSURE, e.k1.x)
  {
    MemberContext(e, s, lits, me, st, vm);
    var n, vm2 := PartRuns(w, Stepper(w), fuel, e.a, s, lits, me, st, vm);
    MemberRead(e, s, lits, Stepper(w), vm, Emit(e, s, lits), Emit(e.a, s, lits), n, vm2);
  }

  lemma MemberContext(e: Expr, s: Scopes, lits: seq<Value>, me: Me, st: St, vm: Vm)
    requires e.One? && (e.k1.SlotGet? || e.k1.MethodRef?)
    requires Context(e, s, me, st, vm) && Loaded(vm, 0, Emit(e, s, lits))
    ensures Context(e.a, s, me, st, vm) && Loaded(vm, 0, Emit(e.a, s, lits))
    ensures |Emit(e, s, lits).code| == |Emit(e.a, s, lits).code| + 2
  {
    Static(e, s);
    assert Emit(e, s, lits) == EmitForm(e, s, lits) == EmitOne(e, s, lits);
    LayoutOne(e, s, lits, vm.code, vm.ip);
  }

  // a.x = b: the slot of the first part's value is to be set to the second's.
  lemma SlotSetCorrect(w: World, fuel: nat, e: Expr, s: Scopes, lits: seq<Value>, me: Me, st: St, vm: Vm, x: Value,
                       st1: St, y: Value, st2: St)
    requires e.Two? && e.k2.SlotSet? && Context(e, s, me, st, vm) && Loaded(vm, 0, Emit(e, s, lits))
    requires Eval(w, fuel, Room(vm), e.a, s, me, st) == Val(x, st1) && Room(vm) > 0
    requires Eval(w, fuel, Room(vm) - 1, e.b, After(e.a, s), me, st1) == Val(y, st2)
    ensures exists n: nat, vm2: Vm ::
              && Goes(Stepper(w), vm, n, vm2) && Agree(me, st2, vm2) && Named(vm2, OP_SLOT_A, e.k2.x)
              && vm2 == vm.(acc := y, stack := vm.stack + [x], ip := vm.ip + |Emit(e, s, lits).code| - 2,
                            heap := vm2.heap, globals := vm2.globals)
  {
    var em, r1, s1 := Emit(e, s, lits), Emit(e.a, s, lits), After(e.a, s);
    var r2 := Emit(e.b, s1, r1.lits);
    SlotContext(e, s, lits, me, st, vm, em, r1, r2);
    var n1, a, n2, b := SlotParts(w, Stepper(w), fuel, e.a, e.b, s, lits, me, st, vm, r1, r2, st1);
    Requests.SlotWritten(w, Stepper(w), e, s, lits, vm, em, r1, n1, a, r2, n2, b);
  }

  lemma SlotParts(w: World, step: Vm -> Out, fuel: nat, e: Expr, f: Expr, s: Scopes, lits: seq<Value>, me: Me, st: St,
                  vm: Vm, r1: Emitted, r2: Emitted, st1: St) returns (n1: nat, a: Vm, n2: nat, b: Vm)
    requires Drives(w, step) && Context(e, s, me, st, vm) && r1 == Emit(e, s, lits) && Loaded(vm, 0, r1) && Room(vm) > 0
    requires r2 == Emit(f, After(e, s), r1.lits) && Loaded(vm, |r1.code| + 1, r2)
    requires ReturnSafe(f, After(e, s) == []) && Fits(f, After(e, s))
    requires ChainOk(st.heap, st.env, After(f, After(e, s)))
    requires Eval(w, fuel, Room(vm), e, s, me, st).Val? && st1 == Eval(w, fuel, Room(vm), e, s, me, st).st
    requires Eval(w, fuel, Room(vm) - 1, f, After(e, s), me, st1).Val?
    ensures Computes(step, vm, n1, a, |r1.code|) && a.acc == Eval(w, fuel, Room(vm), e, s, me, st).v
    ensures Computes(step, Pushed(a), n2, b, |r2.code|)
    ensures var q := Eval(w, fuel, Room(vm) - 1, f, After(e, s), me, st1); b.acc == q.v && Agree(me, q.st, b)
  {
    n1, a := PartRuns(w, step, fuel, e, s, lits, me, st, vm);
    ChainOn(st, st1, After(f, After(e, s)));
    PartContext(f, After(e, s), After(f, After(e, s)), me, st1, Pushed(a));
    n2, b := PartRuns(w, step, fuel, f, After(e, s), r1.lits, me, st1, Pushed(a));
  }

  lemma SlotContext(e: Expr, s: Scopes, lits: seq<Value>, me: Me, st: St, vm: Vm, em: Emitted, r1: Emitted, r2: Emitted)
    requires e.Two? && e.k2.SlotSet? && Context(e, s, me, st, vm) && em == Emit(e, s, lits) && Loaded(vm, 0, em)
    requires r1 == Emit(e.a, s, lits) && r2 == Emit(e.b, After(e.a, s), r1.lits)
    ensures Context(e.a, s, me, st, vm) && Loaded(vm, 0, r1) && Loaded(vm, |r1.code| + 1, r2)
    ensures ReturnSafe(e.b, After(e.a, s) == []) && Fits(e.b, After(e.a, s))
    ensures ChainOk(st.heap, st.env, After(e.b, After(e.a, s)))
  {
    Static(e, s);
    NoReturnIsSafe(e.b, After(e.a, s) == []);
    ChainPrefix(st.heap, st.env, After(e.a, s), After(e, s));
    AccessPieces(e, s, lits, em, vm.code, vm.ip, r1, Mid2(e.k2, r1.lits), r2, Post2(e.k2, r2.lits));
  }

  // a:x(es) and as(a):x(es): the message goes to the value of `a`, with what
  // direct evaluation leaves in the argument vector.
  lemma SendCorrect(w: World, fuel: nat, e: Expr, s: Scopes, lits: seq<Value>, me: Me, st: St, vm: Vm, o: Value,
                    st1: St, st2: St)
    requires e.Headed? && e.kh.Send? && Context(e, s, me, st, vm) && Loaded(vm, 0, Emit(e, s, lits)) && Room(vm) >= 2
    requires Eval(w, fuel, Room(vm), e.a, s, me, st) == Val(o, st1)
    requires EvalArgs(w, fuel, Room(vm) - 2, e.es, 1, |st1.heap|, After(e.a, s), me, NewArgs(st1, Count(e.es))) ==
             Val(Null, st2)
    ensures exists n: nat, vm2: Vm ::
              && Goes(Stepper(w), vm, n, vm2) && Agree(me, st2, vm2)
              && Named(vm2, if e.kh.asSelf then OP_CALL_AS else OP_CALL, e.kh.x)
              && vm2 == vm.(acc := o, stack := vm.stack + [Ref(|st1.heap|)],
                            ip := vm.ip + |Emit(e, s, lits).code| - 2, heap := vm2.heap, globals := vm2.globals)
  {
    var em, r, s1 := Emit(e, s, lits), Emit(e.a, s, lits), After(e.a, s);
    var args, op := EmitArgs(e.es, 1, s1, r.lits), if e.kh.asSelf then OP_CALL_AS else OP_CALL;
    HeadedPieces(e, s, lits, vm, em, r, args, LitOp(op, SymVal(e.kh.x), args.lits));
    HeadContext(e, s, me, st, vm);
    var n, vm2 := SendParts(w, Stepper(w), fuel, e.a, e.es, s, lits, me, st, vm, r, args, |em.code| - 2, op, e.kh.x,
                            st1, Val(Null, st2));
  }

  lemma SendParts(w: World, step: Vm -> Out, fuel: nat, e: Expr, es: Exprs, s: Scopes, lits: seq<Value>, me: Me, st: St,
                  vm: Vm, r: Emitted, args: Emitted, off: nat, op: byte, x: Sym, st1: St, q: Res)
    returns (n: nat, vm2: Vm)
    requires Drives(w, step) && Context(e, s, me, st, vm) && r == Emit(e, s, lits) && Loaded(vm, 0, r) && Room(vm) >= 2
    requires args == EmitArgs(es, 1, After(e, s), r.lits) && Loaded(vm, |r.code| + 4, args)
    requires CalleeCode(vm, |r.code|, Count(es), |args.code|) == Some(off)
    requires Loaded(vm, off, LitOp(op, SymVal(x), args.lits)) && ChainOk(st.heap, st.env, AfterAll(es, After(e, s)))
    requires FitsAll(es, After(e, s)) && NoReturns(es) && Count(es) < 255
    requires Eval(w, fuel, Room(vm), e, s, me, st).Val? && st1 == Eval(w, fuel, Room(vm), e, s, me, st).st
    requires q == EvalArgs(w, fuel, Room(vm) - 2, es, 1, |st1.heap|, After(e, s), me, NewArgs(st1, Count(es))) && q.Val?
    ensures Goes(step, vm, n, vm2) && Agree(me, q.st, vm2) && Named(vm2, op, x)
    ensures vm2 == vm.(acc := Eval(w, fuel, Room(vm), e, s, me, st).v, stack := vm.stack + [Ref(|st1.heap|)],
                       ip := vm.ip + off, heap := vm2.heap, globals := vm2.globals)
  {
    var n1, a := PartRuns(w, step, fuel, e, s, lits, me, st, vm);
    ChainOn(st, st1, AfterAll(es, After(e, s)));
    n, vm2 := SendRun(w, step, fuel, es, After(e, s), r.lits, me, st1, vm, n1, a, |r.code|, args, off, op, x, q);
  }

  // Behind the part in front.
  lemma SendRun(w: World, step: Vm -> Out, fuel: nat, es: Exprs, s: Scopes, lits: seq<Value>, me: Me, st: St, vm: Vm,
                n1: nat, a: Vm, len: nat, args: Emitted, off: nat, op: byte, x: Sym, r: Res) returns (n: nat, vm2: Vm)
    requires Drives(w, step) && Agree(me, st, a) && Sized(vm) && Room(vm) >= 2 && args == EmitArgs(es, 1, s, lits)
    requires CalleeCode(vm, len, Count(es), |args.code|) == Some(off) && Loaded(vm, len + 4, args)
    requires Loaded(vm, off, LitOp(op, SymVal(x), args.lits)) && Computes(step, vm, n1, a, len)
    requires ChainOk(st.heap, st.env, AfterAll(es, s)) && FitsAll(es, s) && NoReturns(es) && Count(es) < 255
    requires r == EvalArgs(w, fuel, Room(vm) - 2, es, 1, |st.heap|, s, me, NewArgs(st, Count(es))) && r.Val?
    ensures Goes(step, vm, n, vm2) && Agree(me, r.st, vm2) && Named(vm2, op, x)
    ensures vm2 == vm.(acc := a.acc, stack := vm.stack + [Ref(|st.heap|)], ip := vm.ip + off, heap := vm2.heap,
                       globals := vm2.globals)
  {
    n, vm2 := ArgumentsRun(w, step, fuel, es, s, lits, me, st, a, args, r);
    NamesIt(vm, vm2, off, op, x, args.lits);
    Then(step, vm, n1, a, n, vm2);
    n := n1 + n;
  }

  // From the value in front: pushed, arguments, and both fetched.
  lemma ArgumentsRun(w: World, step: Vm -> Out, fuel: nat, es: Exprs, s: Scopes, lits: seq<Value>, me: Me, st: St,
                     a: Vm, args: Emitted, r: Res) returns (n: nat, vm2: Vm)
    requires Drives(w, step) && Agree(me, st, a) && Sized(a) && Room(a) >= 2 && args == EmitArgs(es, 1, s, lits)
    requires At(a.code, a.ip, [OP_PUSH]) && At(a.code, a.ip + 1, PrepareCall(Count(es))) && Loaded(a, 4, args)
    requires At(a.code, a.ip + 4 + |args.code|, FETCH_CALLEE)
    requires ChainOk(st.heap, st.env, AfterAll(es, s)) && FitsAll(es, s) && NoReturns(es) && Count(es) < 255
    requires r == EvalArgs(w, fuel, Room(a) - 2, es, 1, |st.heap|, s, me, NewArgs(st, Count(es))) && r.Val?
    ensures Goes(step, a, n, vm2) && Agree(me, r.st, vm2)
    ensures vm2 == a.(stack := a.stack + [Ref(|st.heap|)], ip := a.ip + 6 + |args.code|, heap := vm2.heap,
                      globals := vm2.globals)
  {
    DoPush(w, step, a);
    var a1 := Pushed(a);
    Once(step, a, a1);
    var c: Vm;
    n, c := SimArguments(w, step, fuel, es, s, lits, me, st, a1);
    assert c.stack == a.stack + [a.acc, Ref(|st.heap|)];
    DoFetchCallee(w, step, c, a.stack, a.acc, Ref(|st.heap|));
    vm2 := c.(acc := a.acc, stack := a.stack + [Ref(|st.heap|)], ip := c.ip + 2);
    Then(step, a, 1, a1, n, c);
    Then(step, a, 1 + n, c, 2, vm2);
    n := n + 3;
  }
}
