// What the forms ask for whose work is done elsewhere: by a function of the
// library, by the slots of an object, or by a method.  Their parts may be any
// expressions, whatever these call.
module Requests {
  import opened Bytes
  import opened Values
  import opened Machine
  import opened Syntax
  import opened Scoping
  import opened Emission
  import opened Limits
  import opened Execution
  import opened Correctness
  import opened Activations

  // A part has run: its value is in the accumulator, `len` bytes further on.
  ghost predicate Computes(step: Vm -> Out, vm: Vm, n: nat, vm2: Vm, len: nat) {
    Goes(step, vm, n, vm2) && Arrives(vm, vm2, vm2.acc, len)
  }

  // The vector at `a` has not been touched.
  predicate Keeps(vm: Vm, vm2: Vm, a: nat) {
    a < |vm.heap| && a < |vm2.heap| && vm2.heap[a] == vm.heap[a]
  }

  // The global `name` in the accumulator, the arguments in a vector on top of
  // the stack; heap and globals are otherwise those of `last`, where the last
  // part has come to.
  function Asked(vm: Vm, last: Vm, len: nat, name: Sym, argv: nat, args: seq<Value>): Vm
    requires argv < |last.heap|
  {
    vm.(acc := Global(last.globals, name), stack := vm.stack + [Ref(argv)], ip := vm.ip + len - 1,
        heap := last.heap[argv := Vec([Null] + args)], globals := last.globals)
  }

  predicate SameActivation(vm: Vm, vm2: Vm) {
    vm2 == vm.(acc := vm2.acc, stack := vm2.stack, ip := vm2.ip, heap := vm2.heap, globals := vm2.globals)
  }

  // The machine gets from `vm` to the last of `len` bytes, where that global
  // is to be applied.
  ghost predicate Asks(step: Vm -> Out, vm: Vm, n: nat, last: Vm, len: nat, name: Sym, argv: nat, args: seq<Value>) {
    && argv < |last.heap| && Goes(step, vm, n, Asked(vm, last, len, name, argv, args)) && SameActivation(vm, last)
    && At(vm.code, vm.ip + len - 1, [OP_APPLY])
  }

  // ---- Filling an argument vector ----

  // From `vm`, `off` bytes on, the vector `argv` with these elements has been
  // pushed.
  predicate Filling(vm: Vm, vm1: Vm, off: nat, argv: nat, elems: seq<Value>) {
    && vm1 == vm.(acc := vm1.acc, stack := vm.stack + [Ref(argv)], ip := vm.ip + off, heap := vm1.heap,
                  globals := vm1.globals)
    && argv < |vm1.heap| && vm1.heap[argv] == Vec(elems)
  }

  // A new vector is pushed.
  function Opened(vm: Vm, argc: nat): Vm {
    vm.(heap := vm.heap + [Vec(Nulls(argc + 1))], acc := Ref(|vm.heap|), stack := vm.stack + [Ref(|vm.heap|)],
        ip := vm.ip + 3)
  }

  // The same with the accumulator as the first argument.
  function OpenedWith(vm: Vm, argc: nat): Vm
    requires argc > 0
  {
    vm.(heap := vm.heap + [Vec(Nulls(argc + 1)[1 := vm.acc])], stack := vm.stack + [Ref(|vm.heap|)], ip := vm.ip + 6)
  }

  // The accumulator becomes element `k`.
  function Put(vm: Vm, argv: nat, k: nat): Vm
    requires argv < |vm.heap| && vm.heap[argv].Vec? && k < |vm.heap[argv].elems|
  {
    vm.(heap := vm.heap[argv := Vec(vm.heap[argv].elems[k := vm.acc])], ip := vm.ip + 2)
  }

  function Given(vm: Vm, v: Value): Vm {
    vm.(acc := v, ip := vm.ip + 2)
  }

  lemma Opens(w: World, step: Vm -> Out, vm: Vm, argc: nat)
    requires Drives(w, step) && At(vm.code, vm.ip, PrepareCall(argc)) && argc < 255 && |vm.stack| < STACK_LENGTH
    ensures Goes(step, vm, 2, Opened(vm, argc)) && Filling(vm, Opened(vm, argc), 3, |vm.heap|, Nulls(argc + 1))
  {
    assert PrepareCall(argc) == [OP_VECTOR, B(argc + 1)] + [OP_PUSH];
    AtSplit(vm.code, vm.ip, [OP_VECTOR, B(argc + 1)], [OP_PUSH]);
    DoVector(w, step, vm, argc + 1);
    var vm1 := vm.(heap := vm.heap + [Vec(Nulls(argc + 1))], acc := Ref(|vm.heap|), ip := vm.ip + 2);
    DoPush(w, step, vm1);
    Once(step, vm, vm1);
    ThenOnce(step, vm, 1, vm1, Opened(vm, argc));
  }

  // PUSH, VECTOR, SWAP, ATPUT 1.
  lemma OpensWith(w: World, step: Vm -> Out, vm: Vm, argc: nat)
    requires Drives(w, step) && At(vm.code, vm.ip, PrepareWithFirst(argc)) && 0 < argc < 255
    requires |vm.stack| < STACK_LENGTH
    ensures Goes(step, vm, 4, OpenedWith(vm, argc))
    ensures Filling(vm, OpenedWith(vm, argc), 6, |vm.heap|, Nulls(argc + 1)[1 := vm.acc])
  {
    var v, a := [OP_VECTOR, B(argc + 1)], |vm.heap|;
    assert PrepareWithFirst(argc) == [OP_PUSH] + v + [OP_SWAP] + AtPut(1);
    AtSplit4(vm.code, vm.ip, [OP_PUSH], v, [OP_SWAP], AtPut(1));
    DoPush(w, step, vm);
    var vm1 := vm.(stack := vm.stack + [vm.acc], ip := vm.ip + 1);
    DoVector(w, step, vm1, argc + 1);
    var vm2 := vm1.(heap := vm.heap + [Vec(Nulls(argc + 1))], acc := Ref(a), ip := vm.ip + 3);
    DoSwap(w, step, vm2, vm.stack, vm.acc);
    var vm3 := vm2.(acc := vm.acc, stack := vm.stack + [Ref(a)], ip := vm.ip + 4);
    DoAtPut(w, step, vm3, vm.stack, a, 1);
    assert vm3.heap[a := Vec(Nulls(argc + 1)[1 := vm.acc])] == vm.heap + [Vec(Nulls(argc + 1)[1 := vm.acc])];
    Once(step, vm, vm1);
    ThenOnce(step, vm, 1, vm1, vm2);
    ThenOnce(step, vm, 2, vm2, vm3);
    ThenOnce(step, vm, 3, vm3, OpenedWith(vm, argc));
  }

  lemma DoSwap(w: World, step: Vm -> Out, vm: Vm, base: seq<Value>, x: Value)
    requires Drives(w, step) && At(vm.code, vm.ip, [OP_SWAP]) && vm.stack == base + [x]
    ensures step(vm) == Run(vm.(acc := x, stack := base + [vm.acc], ip := vm.ip + 1))
  {
    Fetch1(w, step, vm, OP_SWAP);
    assert vm.stack[..|vm.stack| - 1] == base;
  }

  // A part runs while the vector waits on the stack.
  lemma FillOn(step: Vm -> Out, vm: Vm, vm1: Vm, n: nat, vm2: Vm, off: nat, len: nat, argv: nat, elems: seq<Value>)
    requires Filling(vm, vm1, off, argv, elems) && Computes(step, vm1, n, vm2, len) && Keeps(vm1, vm2, argv)
    ensures Filling(vm, vm2, off + len, argv, elems)
  {
  }

  lemma Puts(w: World, step: Vm -> Out, vm: Vm, vm1: Vm, off: nat, argv: nat, elems: seq<Value>, k: nat)
    requires Drives(w, step) && Filling(vm, vm1, off, argv, elems) && At(vm1.code, vm1.ip, AtPut(k)) && k < 256
    requires k < |elems|
    ensures Goes(step, vm1, 1, Put(vm1, argv, k))
    ensures Filling(vm, Put(vm1, argv, k), off + 2, argv, elems[k := vm1.acc])
  {
    DoAtPut(w, step, vm1, vm.stack, argv, k);
    Once(step, vm1, Put(vm1, argv, k));
  }

  lemma Gives(w: World, step: Vm -> Out, vm: Vm, vm1: Vm, off: nat, argv: nat, elems: seq<Value>, v: Value,
              lits: seq<Value>)
    requires Drives(w, step) && Filling(vm, vm1, off, argv, elems) && Sized(vm1)
    requires Loaded(vm1, 0, LitOp(OP_A_LITL, v, lits))
    ensures Goes(step, vm1, 1, Given(vm1, v)) && Filling(vm, Given(vm1, v), off + 2, argv, elems)
  {
    var (i, lits') := GetLit(lits, v);
    DoLiteral(w, step, vm1, i);
    Once(step, vm1, Given(vm1, v));
  }

  // What follows the last argument: it is stored, the global named and applied.
  predicate Ends(vm: Vm, off: int, k: nat, name: Sym, lits: seq<Value>) {
    At(vm.code, vm.ip + off, AtPut(k) + CallGlobal(name, lits).code) && CallGlobal(name, lits).lits <= vm.lits
  }

  lemma NamesGlobal(w: World, step: Vm -> Out, vm: Vm, x: Sym, lits: seq<Value>)
    requires Drives(w, step) && Loaded(vm, 0, CallGlobal(x, lits)) && |vm.lits| <= MAX_LITS
    ensures step(vm) == Run(vm.(acc := Global(vm.globals, x), ip := vm.ip + 2))
    ensures At(vm.code, vm.ip + 2, [OP_APPLY])
  {
    var (i, lits') := GetLit(lits, SymVal(x));
    AtSplit(vm.code, vm.ip, [OP_A_GLOB, B(i)], [OP_APPLY]);
    DoGlobal(w, step, vm, i);
  }

  lemma LastStored(w: World, step: Vm -> Out, vm: Vm, b: Vm, off: nat, argv: nat, elems: seq<Value>, k: nat, name: Sym,
                   lits: seq<Value>, args: seq<Value>)
    requires Drives(w, step) && Sized(b) && Filling(vm, b, off, argv, elems) && k < |elems| && k < 256
    requires Ends(vm, off, k, name, lits) && elems[k := b.acc] == [Null] + args
    ensures Goes(step, b, 2, Asked(vm, b, off + 5, name, argv, args)) && At(vm.code, vm.ip + off + 4, [OP_APPLY])
  {
    AtSplit(b.code, b.ip, AtPut(k), CallGlobal(name, lits).code);
    Puts(w, step, vm, b, off, argv, elems, k);
    var c := Put(b, argv, k);
    NamesGlobal(w, step, c, name, lits);
    ThenOnce(step, b, 1, c, Asked(vm, b, off + 5, name, argv, args));
  }

  // The last argument is computed as well.
  lemma LastPart(w: World, step: Vm -> Out, vm: Vm, c: Vm, off: nat, argv: nat, elems: seq<Value>, n: nat, b: Vm,
                 len: nat, k: nat, name: Sym, lits: seq<Value>, args: seq<Value>)
    requires Drives(w, step) && Sized(c) && Filling(vm, c, off, argv, elems) && k < |elems| && k < 256
    requires Computes(step, c, n, b, len) && Keeps(c, b, argv)
    requires Ends(vm, off + len, k, name, lits) && elems[k := b.acc] == [Null] + args
    ensures Goes(step, c, n + 2, Asked(vm, b, off + len + 5, name, argv, args))
    ensures At(vm.code, vm.ip + off + len + 4, [OP_APPLY])
  {
    FillOn(step, vm, c, n, b, off, len, argv, elems);
    LastStored(w, step, vm, b, off + len, argv, elems, k, name, lits, args);
    Then(step, c, n, b, 2, Asked(vm, b, off + len + 5, name, argv, args));
  }

  // ---- a[b], a[b] = c ----

  // Where the pieces of a slot or element form stand.
  lemma AccessPieces(e: Expr, s: Scopes, lits: seq<Value>, em: Emitted, code: seq<byte>, p: int, r1: Emitted,
                     mid: Emitted, r2: Emitted, post: Emitted)
    requires e.Two? && IsAccess(e.k2) && em == Emit(e, s, lits) && At(code, p, em.code)
    requires r1 == Emit(e.a, s, lits) && mid == Mid2(e.k2, r1.lits)
    requires r2 == Emit(e.b, After(e.a, s), mid.lits) && post == Post2(e.k2, r2.lits)
    ensures Five(code, p, Pre2(e.k2), r1.code, mid.code, r2.code, post.code) == Some(|em.code|) && post.lits == em.lits
  {
    AccessEmitted(e, s, lits, r1, mid, r2, post);
    AtSplit5(code, p, em.code, Pre2(e.k2), r1.code, mid.code, r2.code, post.code);
  }

  lemma AccessEmitted(e: Expr, s: Scopes, lits: seq<Value>, r1: Emitted, mid: Emitted, r2: Emitted, post: Emitted)
    requires e.Two? && IsAccess(e.k2) && r1 == Emit(e.a, s, lits) && mid == Mid2(e.k2, r1.lits)
    requires r2 == Emit(e.b, After(e.a, s), mid.lits) && post == Post2(e.k2, r2.lits)
    ensures Emit(e, s, lits) == Emitted(Pre2(e.k2) + r1.code + mid.code + r2.code + post.code, post.lits)
  {
    assert Emit(e, s, lits) == EmitForm(e, s, lits) == EmitTwo(e, s, lits);
    assert EmitTwo(e, s, lits) == EmitAccess(e, s, lits);
  }

  // Five pieces stand one behind the other; their length.
  function Five(code: seq<byte>, p: int, a: seq<byte>, b: seq<byte>, c: seq<byte>, d: seq<byte>, e: seq<byte>)
    : Option<nat>
  {
    if && At(code, p, a) && At(code, p + |a|, b) && At(code, p + |a| + |b|, c)
       && At(code, p + |a| + |b| + |c|, d) && At(code, p + |a| + |b| + |c| + |d|, e)
    then Some(|a| + |b| + |c| + |d| + |e|)
    else None
  }

  lemma AtSplit5(code: seq<byte>, p: int, whole: seq<byte>, a: seq<byte>, b: seq<byte>, c: seq<byte>, d: seq<byte>,
                 e: seq<byte>)
    requires At(code, p, whole) && whole == a + b + c + d + e
    ensures Five(code, p, a, b, c, d, e) == Some(|whole|)
  {
    AtSplit(code, p, a + b + c + d, e);
    AtSplit4(code, p, a, b, c, d);
  }

  // The length of the whole, if the code around the parts stands there.
  function IndexCode(vm: Vm, len1: nat, len2: nat, lits: seq<Value>): Option<nat> {
    if At(vm.code, vm.ip + len1, PrepareWithFirst(2)) && Ends(vm, len1 + 6 + len2, 2, "element-ref", lits)
    then Some(len1 + 11 + len2)
    else None
  }

  lemma IndexPieces(e: Expr, s: Scopes, lits: seq<Value>, vm: Vm, em: Emitted, r1: Emitted, r2: Emitted)
    requires e.Two? && e.k2.Index? && r1 == Emit(e.a, s, lits) && r2 == Emit(e.b, After(e.a, s), r1.lits)
    requires em == Emit(e, s, lits) && Loaded(vm, 0, em)
    ensures IndexCode(vm, |r1.code|, |r2.code|, r2.lits) == Some(|em.code|)
  {
    AccessPieces(e, s, lits, em, vm.code, vm.ip, r1, Mid2(Index, r1.lits), r2, Post2(Index, r2.lits));
    IndexStands(vm, |em.code|, r1.code, r2.code, r2.lits);
  }

  lemma IndexStands(vm: Vm, len: nat, c: seq<byte>, d: seq<byte>, lits: seq<Value>)
    requires Post2(Index, lits).lits <= vm.lits
    requires Five(vm.code, vm.ip, Pre2(Index), c, PrepareWithFirst(2), d, Post2(Index, lits).code) == Some(len)
    ensures IndexCode(vm, |c|, |d|, lits) == Some(len)
  {
  }

  lemma IndexRuns(w: World, step: Vm -> Out, vm: Vm, len1: nat, n1: nat, a: Vm, len2: nat, n2: nat, b: Vm,
                  lits: seq<Value>, len: nat) returns (n: nat)
    requires Drives(w, step) && Sized(vm) && |vm.stack| < STACK_LENGTH && IndexCode(vm, len1, len2, lits) == Some(len)
    requires Computes(step, vm, n1, a, len1)
    requires Computes(step, OpenedWith(a, 2), n2, b, len2) && Keeps(OpenedWith(a, 2), b, |a.heap|)
    ensures Asks(step, vm, n, b, len, "element-ref", |a.heap|, [a.acc, b.acc])
  {
    var v, c := |a.heap|, OpenedWith(a, 2);
    OpensWith(w, step, a, 2);
    LastPart(w, step, vm, c, len1 + 6, v, Nulls(3)[1 := a.acc], n2, b, len2, 2, "element-ref", lits, [a.acc, b.acc]);
    Then(step, vm, n1, a, 4, c);
    Then(step, vm, n1 + 4, c, n2 + 2, Asked(vm, b, len, "element-ref", v, [a.acc, b.acc]));
    n := n1 + 6 + n2;
  }

  // `element-ref' is asked for with vector and index, in this order.
  lemma IndexAsks(w: World, step: Vm -> Out, e: Expr, s: Scopes, lits: seq<Value>, vm: Vm, em: Emitted, r1: Emitted,
                  n1: nat, a: Vm, r2: Emitted, n2: nat, b: Vm) returns (n: nat)
    requires e.Two? && e.k2.Index? && r1 == Emit(e.a, s, lits) && r2 == Emit(e.b, After(e.a, s), r1.lits)
    requires em == Emit(e, s, lits) && Loaded(vm, 0, em)
    requires Drives(w, step) && Sized(vm) && |vm.stack| < STACK_LENGTH
    requires Computes(step, vm, n1, a, |r1.code|)
    requires Computes(step, OpenedWith(a, 2), n2, b, |r2.code|) && Keeps(OpenedWith(a, 2), b, |a.heap|)
    ensures Asks(step, vm, n, b, |em.code|, "element-ref", |a.heap|, [a.acc, b.acc])
  {
    IndexPieces(e, s, lits, vm, em, r1, r2);
    n := IndexRuns(w, step, vm, |r1.code|, n1, a, |r2.code|, n2, b, r2.lits, |em.code|);
  }

  function SetCode(vm: Vm, len1: nat, len2: nat, len3: nat, lits: seq<Value>): Option<nat> {
    if && At(vm.code, vm.ip + len1, PrepareWithFirst(3)) && At(vm.code, vm.ip + len1 + 6 + len2, AtPut(2))
       && Ends(vm, len1 + 8 + len2 + len3, 3, "element-set", lits)
    then Some(len1 + 13 + len2 + len3)
    else None
  }

  lemma SetEmitted(e: Expr, s: Scopes, lits: seq<Value>, r1: Emitted, r2: Emitted, r3: Emitted, g: Emitted)
    requires e.Three? && e.k3.IndexSet? && r1 == Emit(e.a, s, lits) && r2 == Emit(e.b, After(e.a, s), r1.lits)
    requires r3 == Emit(e.c, After(e.b, After(e.a, s)), r2.lits) && g == CallGlobal("element-set", r3.lits)
    ensures Emit(e, s, lits) == Emitted(r1.code + PrepareWithFirst(3) + r2.code + AtPut(2) + r3.code +
                                        (AtPut(3) + g.code), g.lits)
  {
    assert Emit(e, s, lits) == EmitForm(e, s, lits) == EmitThree(e, s, lits);
  }

  lemma SetPieces(e: Expr, s: Scopes, lits: seq<Value>, vm: Vm, em: Emitted, r1: Emitted, r2: Emitted, r3: Emitted)
    requires e.Three? && e.k3.IndexSet? && r1 == Emit(e.a, s, lits) && r2 == Emit(e.b, After(e.a, s), r1.lits)
    requires r3 == Emit(e.c, After(e.b, After(e.a, s)), r2.lits) && em == Emit(e, s, lits) && Loaded(vm, 0, em)
    ensures SetCode(vm, |r1.code|, |r2.code|, |r3.code|, r3.lits) == Some(|em.code|)
  {
    var g := CallGlobal("element-set", r3.lits);
    SetEmitted(e, s, lits, r1, r2, r3, g);
    SetStands(vm, em, r1.code, PrepareWithFirst(3), r2.code, AtPut(2), r3.code, AtPut(3) + g.code, r3.lits);
  }

  lemma SetStands(vm: Vm, em: Emitted, a: seq<byte>, b: seq<byte>, c: seq<byte>, d: seq<byte>, e: seq<byte>,
                  f: seq<byte>, lits: seq<Value>)
    requires Loaded(vm, 0, em) && em.code == a + b + c + d + e + f && b == PrepareWithFirst(3) && d == AtPut(2)
    requires f == AtPut(3) + CallGlobal("element-set", lits).code && CallGlobal("element-set", lits).lits == em.lits
    ensures SetCode(vm, |a|, |c|, |e|, lits) == Some(|em.code|)
  {
    AtSplit6(vm.code, vm.ip, a, b, c, d, e, f);
  }

  lemma AtSplit6(code: seq<byte>, p: int, a: seq<byte>, b: seq<byte>, c: seq<byte>, d: seq<byte>, e: seq<byte>,
                 f: seq<byte>)
    requires At(code, p, a + b + c + d + e + f)
    ensures At(code, p + |a|, b) && At(code, p + |a| + |b| + |c|, d)
    ensures At(code, p + |a| + |b| + |c| + |d| + |e|, f)
  {
    var most := a + b + c + d;
    AtSplit3(code, p, most, e, f);
    AtSplit4(code, p, a, b, c, d);
  }

  // Vector and index are stored, the new element is to be computed.
  lemma SetRunsTo(w: World, step: Vm -> Out, a: Vm, n2: nat, b: Vm, len2: nat)
    requires Drives(w, step) && |a.stack| < STACK_LENGTH && At(a.code, a.ip, PrepareWithFirst(3))
    requires At(a.code, a.ip + 6 + len2, AtPut(2))
    requires Computes(step, OpenedWith(a, 3), n2, b, len2) && Keeps(OpenedWith(a, 3), b, |a.heap|)
    ensures Goes(step, a, n2 + 5, Put(b, |a.heap|, 2))
    ensures Filling(a, Put(b, |a.heap|, 2), 8 + len2, |a.heap|, Nulls(4)[1 := a.acc][2 := b.acc])
  {
    var v, c, elems := |a.heap|, OpenedWith(a, 3), Nulls(4)[1 := a.acc];
    OpensWith(w, step, a, 3);
    FillOn(step, a, c, n2, b, 6, len2, v, elems);
    Puts(w, step, a, b, 6 + len2, v, elems, 2);
    Then(step, a, 4, c, n2, b);
    Then(step, a, n2 + 4, b, 1, Put(b, v, 2));
  }

  lemma SetRunsBehind(w: World, step: Vm -> Out, vm: Vm, len1: nat, n1: nat, a: Vm, len2: nat, n2: nat, b: Vm)
    requires Drives(w, step) && |vm.stack| < STACK_LENGTH && At(vm.code, vm.ip + len1, PrepareWithFirst(3))
    requires At(vm.code, vm.ip + len1 + 6 + len2, AtPut(2)) && Computes(step, vm, n1, a, len1)
    requires Computes(step, OpenedWith(a, 3), n2, b, len2) && Keeps(OpenedWith(a, 3), b, |a.heap|)
    ensures Goes(step, vm, n1 + n2 + 5, Put(b, |a.heap|, 2))
    ensures Filling(vm, Put(b, |a.heap|, 2), len1 + 8 + len2, |a.heap|, Nulls(4)[1 := a.acc][2 := b.acc])
  {
    SetRunsTo(w, step, a, n2, b, len2);
    Then(step, vm, n1, a, n2 + 5, Put(b, |a.heap|, 2));
  }

  lemma SetRuns(w: World, step: Vm -> Out, vm: Vm, len1: nat, n1: nat, a: Vm, len2: nat, n2: nat, b: Vm, len3: nat,
                n3: nat, c: Vm, lits: seq<Value>, len: nat) returns (n: nat)
    requires Drives(w, step) && Sized(vm) && |vm.stack| < STACK_LENGTH
    requires SetCode(vm, len1, len2, len3, lits) == Some(len) && Computes(step, vm, n1, a, len1)
    requires Computes(step, OpenedWith(a, 3), n2, b, len2) && Keeps(OpenedWith(a, 3), b, |a.heap|)
    requires Computes(step, Put(b, |a.heap|, 2), n3, c, len3) && Keeps(Put(b, |a.heap|, 2), c, |a.heap|)
    ensures Asks(step, vm, n, c, len, "element-set", |a.heap|, [a.acc, b.acc, c.acc])
  {
    SetRunsBehind(w, step, vm, len1, n1, a, len2, n2, b);
    var v, b1, elems := |a.heap|, Put(b, |a.heap|, 2), Nulls(4)[1 := a.acc][2 := b.acc];
    LastPart(w, step, vm, b1, len1 + 8 + len2, v, elems, n3, c, len3, 3, "element-set", lits, [a.acc, b.acc, c.acc]);
    Then(step, vm, n1 + n2 + 5, b1, n3 + 2, Asked(vm, c, len, "element-set", v, [a.acc, b.acc, c.acc]));
    n := n1 + n2 + 7 + n3;
  }

  // `element-set' is asked for with vector, index and the new element.
  lemma IndexSetAsks(w: World, step: Vm -> Out, e: Expr, s: Scopes, lits: seq<Value>, vm: Vm, em: Emitted, r1: Emitted,
                     n1: nat, a: Vm, r2: Emitted, n2: nat, b: Vm, r3: Emitted, n3: nat, c: Vm) returns (n: nat)
    requires e.Three? && e.k3.IndexSet? && r1 == Emit(e.a, s, lits) && r2 == Emit(e.b, After(e.a, s), r1.lits)
    requires r3 == Emit(e.c, After(e.b, After(e.a, s)), r2.lits) && em == Emit(e, s, lits) && Loaded(vm, 0, em)
    requires Drives(w, step) && Sized(vm) && |vm.stack| < STACK_LENGTH
    requires Computes(step, vm, n1, a, |r1.code|)
    requires Computes(step, OpenedWith(a, 3), n2, b, |r2.code|) && Keeps(OpenedWith(a, 3), b, |a.heap|)
    requires Computes(step, Put(b, |a.heap|, 2), n3, c, |r3.code|) && Keeps(Put(b, |a.heap|, 2), c, |a.heap|)
    ensures Asks(step, vm, n, c, |em.code|, "element-set", |a.heap|, [a.acc, b.acc, c.acc])
  {
    SetPieces(e, s, lits, vm, em, r1, r2, r3);
    n := SetRuns(w, step, vm, |r1.code|, n1, a, |r2.code|, n2, b, |r3.code|, n3, c, r3.lits, |em.code|);
  }

  // ---- a.x, a.x = b, a:x ----

  lemma NamesIt(vm: Vm, vm2: Vm, off: nat, op: byte, x: Sym, lits: seq<Value>)
    requires Sized(vm) && Loaded(vm, off, LitOp(op, SymVal(x), lits))
    requires vm2.code == vm.code && vm2.lits == vm.lits && vm2.ip == vm.ip + off
    ensures Named(vm2, op, x)
  {
    var (i, lits') := GetLit(lits, SymVal(x));
    assert [op, B(i)][1..] == [B(i)];
    AtDef(vm.code, vm.ip + off, [op, B(i)]);
    AtDef(vm.code, vm.ip + off + 1, [B(i)]);
  }

  // The slot, or the method, is taken from the part's value.
  lemma MemberRead(e: Expr, s: Scopes, lits: seq<Value>, step: Vm -> Out, vm: Vm, em: Emitted, r: Emitted, n: nat,
                   a: Vm)
    requires e.One? && (e.k1.SlotGet? || e.k1.MethodRef?) && r == Emit(e.a, s, lits)
    requires em == Emit(e, s, lits) && Loaded(vm, 0, em) && Sized(vm)
    requires Computes(step, vm, n, a, |r.code|)
    ensures Named(a, if e.k1.SlotGet? then OP_A_SLOT else OP_METHOD_CLOSURE, e.k1.x) && a.ip + 2 == vm.ip + |em.code|
  {
    assert em == EmitForm(e, s, lits) == EmitOne(e, s, lits);
    LayoutOne(e, s, lits, vm.code, vm.ip);
    NamesIt(vm, a, |r.code|, if e.k1.SlotGet? then OP_A_SLOT else OP_METHOD_CLOSURE, e.k1.x, r.lits);
  }

  // The operator is next behind its operand.
  lemma UnaryNext(e: Expr, s: Scopes, lits: seq<Value>, step: Vm -> Out, vm: Vm, em: Emitted, r: Emitted, n: nat, a: Vm)
    requires e.One? && e.k1.Unary? && r == Emit(e.a, s, lits) && em == Emit(e, s, lits) && Loaded(vm, 0, em)
    requires Computes(step, vm, n, a, |r.code|)
    ensures At(a.code, a.ip, [e.k1.op]) && a.ip + 1 == vm.ip + |em.code|
  {
    assert em == EmitForm(e, s, lits) == EmitOne(e, s, lits);
    LayoutOne(e, s, lits, vm.code, vm.ip);
  }

  function Pushed(vm: Vm): Vm {
    vm.(stack := vm.stack + [vm.acc], ip := vm.ip + 1)
  }

  lemma SlotPieces(e: Expr, s: Scopes, lits: seq<Value>, vm: Vm, em: Emitted, r1: Emitted, r2: Emitted, post: Emitted)
    requires e.Two? && e.k2.SlotSet? && r1 == Emit(e.a, s, lits) && r2 == Emit(e.b, After(e.a, s), r1.lits)
    requires em == Emit(e, s, lits) && Loaded(vm, 0, em) && post == LitOp(OP_SLOT_A, SymVal(e.k2.x), r2.lits)
    ensures At(vm.code, vm.ip + |r1.code|, [OP_PUSH]) && Loaded(vm, |r1.code| + 1 + |r2.code|, post)
    ensures |em.code| == |r1.code| + 3 + |r2.code|
  {
    AccessPieces(e, s, lits, em, vm.code, vm.ip, r1, Mid2(e.k2, r1.lits), r2, post);
  }

  lemma SlotRuns(w: World, step: Vm -> Out, vm: Vm, len1: nat, n1: nat, a: Vm, len2: nat, n2: nat, b: Vm, x: Sym,
                 lits: seq<Value>)
    requires Drives(w, step) && Sized(vm) && |vm.stack| < STACK_LENGTH && At(vm.code, vm.ip + len1, [OP_PUSH])
    requires Loaded(vm, len1 + 1 + len2, LitOp(OP_SLOT_A, SymVal(x), lits))
    requires Computes(step, vm, n1, a, len1) && Computes(step, Pushed(a), n2, b, len2)
    ensures Goes(step, vm, n1 + 1 + n2, b) && Named(b, OP_SLOT_A, x)
    ensures b == vm.(acc := b.acc, stack := vm.stack + [a.acc], ip := vm.ip + len1 + 1 + len2, heap := b.heap,
                     globals := b.globals)
  {
    NamesIt(vm, b, len1 + 1 + len2, OP_SLOT_A, x, lits);
    DoPush(w, step, a);
    ThenOnce(step, vm, n1, a, Pushed(a));
    Then(step, vm, n1 + 1, Pushed(a), n2, b);
  }

  // The first part's value waits on the stack, the second's is in the
  // accumulator when the slot is written.
  lemma SlotWritten(w: World, step: Vm -> Out, e: Expr, s: Scopes, lits: seq<Value>, vm: Vm, em: Emitted, r1: Emitted,
                    n1: nat, a: Vm, r2: Emitted, n2: nat, b: Vm)
    requires e.Two? && e.k2.SlotSet? && r1 == Emit(e.a, s, lits) && r2 == Emit(e.b, After(e.a, s), r1.lits)
    requires em == Emit(e, s, lits) && Loaded(vm, 0, em)
    requires Drives(w, step) && Sized(vm) && |vm.stack| < STACK_LENGTH
    requires Computes(step, vm, n1, a, |r1.code|) && Computes(step, Pushed(a), n2, b, |r2.code|)
    ensures Goes(step, vm, n1 + 1 + n2, b) && Named(b, OP_SLOT_A, e.k2.x)
    ensures b == vm.(acc := b.acc, stack := vm.stack + [a.acc], ip := vm.ip + |em.code| - 2, heap := b.heap,
                     globals := b.globals)
  {
    SlotPieces(e, s, lits, vm, em, r1, r2, LitOp(OP_SLOT_A, SymVal(e.k2.x), r2.lits));
    SlotRuns(w, step, vm, |r1.code|, n1, a, |r2.code|, n2, b, e.k2.x, r2.lits);
  }

  // ---- define (a) x = b, define method (a) x, define x = a, bind-cc ----

  // The first argument is computed in front of a waiting vector.
  lemma FirstPart(w: World, step: Vm -> Out, argc: nat, vm: Vm, n: nat, a: Vm, len: nat)
    requires Drives(w, step) && At(vm.code, vm.ip, PrepareCall(argc)) && argc < 255 && |vm.stack| < STACK_LENGTH
    requires Computes(step, Opened(vm, argc), n, a, len) && Keeps(Opened(vm, argc), a, |vm.heap|)
    ensures Goes(step, vm, n + 2, a) && Filling(vm, a, 3 + len, |vm.heap|, Nulls(argc + 1))
  {
    Opens(w, step, vm, argc);
    FillOn(step, vm, Opened(vm, argc), n, a, 3, len, |vm.heap|, Nulls(argc + 1));
    Then(step, vm, 2, Opened(vm, argc), n, a);
  }

  // The object and the name become the first two arguments.
  function Addressed(vm: Vm, argv: nat, x: Sym): Vm
    requires argv < |vm.heap| && vm.heap[argv].Vec? && 2 < |vm.heap[argv].elems|
  {
    Put(Given(Put(vm, argv, 1), SymVal(x)), argv, 2)
  }

  lemma Addresses(w: World, step: Vm -> Out, vm: Vm, a: Vm, off: nat, argv: nat, elems: seq<Value>, x: Sym,
                  lits: seq<Value>)
    requires Drives(w, step) && Filling(vm, a, off, argv, elems) && 2 < |elems| && Sized(a)
    requires At(a.code, a.ip, AtPut(1)) && Loaded(a, 2, LitOp(OP_A_LITL, SymVal(x), lits))
    requires At(a.code, a.ip + 4, AtPut(2))
    ensures Goes(step, a, 3, Addressed(a, argv, x))
    ensures Filling(vm, Addressed(a, argv, x), off + 6, argv, elems[1 := a.acc][2 := SymVal(x)])
  {
    Puts(w, step, vm, a, off, argv, elems, 1);
    var a1 := Put(a, argv, 1);
    Gives(w, step, vm, a1, off + 2, argv, elems[1 := a.acc], SymVal(x), lits);
    var a2 := Given(a1, SymVal(x));
    Puts(w, step, vm, a2, off + 4, argv, elems[1 := a.acc], 2);
    Then(step, a, 1, a1, 1, a2);
    Then(step, a, 2, a2, 1, Addressed(a, argv, x));
  }

  // The code in front of a definition's third argument; the length up to there.
  function AddressCode(vm: Vm, len: nat, x: Sym, lits: seq<Value>): Option<nat> {
    if && At(vm.code, vm.ip, PrepareCall(3)) && At(vm.code, vm.ip + 3 + len, AtPut(1))
       && Loaded(vm, len + 5, LitOp(OP_A_LITL, SymVal(x), lits)) && At(vm.code, vm.ip + 7 + len, AtPut(2))
    then Some(len + 9)
    else None
  }

  lemma AddressRuns(w: World, step: Vm -> Out, vm: Vm, n: nat, a: Vm, len: nat, x: Sym, lits: seq<Value>, off: nat)
    requires Drives(w, step) && Sized(vm) && |vm.stack| < STACK_LENGTH && AddressCode(vm, len, x, lits) == Some(off)
    requires Computes(step, Opened(vm, 3), n, a, len) && Keeps(Opened(vm, 3), a, |vm.heap|)
    ensures Goes(step, vm, n + 5, Addressed(a, |vm.heap|, x))
    ensures Filling(vm, Addressed(a, |vm.heap|, x), off, |vm.heap|, Nulls(4)[1 := a.acc][2 := SymVal(x)])
  {
    FirstPart(w, step, 3, vm, n, a, len);
    Addresses(w, step, vm, a, 3 + len, |vm.heap|, Nulls(4), x, lits);
    Then(step, vm, n + 2, a, 3, Addressed(a, |vm.heap|, x));
  }

  // The pieces in front of the third argument, `l` the one that loads the name.
  lemma AddressPieces(vm: Vm, c: seq<byte>, x: Sym, lits: seq<Value>, l: Emitted)
    requires l == LitOp(OP_A_LITL, SymVal(x), lits) && l.lits <= vm.lits
    requires At(vm.code, vm.ip, PrepareCall(3) + c + (AtPut(1) + l.code + AtPut(2)))
    ensures AddressCode(vm, |c|, x, lits) == Some(|c| + 9)
  {
    AtSplit3(vm.code, vm.ip, PrepareCall(3), c, AtPut(1) + l.code + AtPut(2));
    AtSplit3(vm.code, vm.ip + 3 + |c|, AtPut(1), l.code, AtPut(2));
  }

  lemma DefSlotEmitted(e: Expr, s: Scopes, lits: seq<Value>, r1: Emitted, l: Emitted, r2: Emitted, g: Emitted)
    requires e.Two? && e.k2.DefSlot? && r1 == Emit(e.a, s, lits) && l == LitOp(OP_A_LITL, SymVal(e.k2.x), r1.lits)
    requires r2 == Emit(e.b, After(e.a, s), l.lits) && g == CallGlobal("add-slot", r2.lits)
    ensures Emit(e, s, lits) == Emitted(PrepareCall(3) + r1.code + (AtPut(1) + l.code + AtPut(2)) + r2.code +
                                        (AtPut(3) + g.code), g.lits)
  {
    var mid := Emitted(AtPut(1) + l.code + AtPut(2), l.lits);
    AccessEmitted(e, s, lits, r1, mid, r2, Post2(e.k2, r2.lits));
  }

  lemma DefSlotPieces(e: Expr, s: Scopes, lits: seq<Value>, vm: Vm, em: Emitted, r1: Emitted, l: Emitted, r2: Emitted)
    requires e.Two? && e.k2.DefSlot? && r1 == Emit(e.a, s, lits) && l == LitOp(OP_A_LITL, SymVal(e.k2.x), r1.lits)
    requires r2 == Emit(e.b, After(e.a, s), l.lits) && em == Emit(e, s, lits) && Loaded(vm, 0, em)
    ensures AddressCode(vm, |r1.code|, e.k2.x, r1.lits) == Some(|r1.code| + 9)
    ensures Ends(vm, |r1.code| + 9 + |r2.code|, 3, "add-slot", r2.lits) && |em.code| == |r1.code| + 14 + |r2.code|
  {
    var first, last := PrepareCall(3) + r1.code + (AtPut(1) + l.code + AtPut(2)), CallGlobal("add-slot", r2.lits);
    DefSlotEmitted(e, s, lits, r1, l, r2, last);
    AtSplit3(vm.code, vm.ip, first, r2.code, AtPut(3) + last.code);
    AddressPieces(vm, r1.code, e.k2.x, r1.lits, l);
  }

  lemma DefSlotRuns(w: World, step: Vm -> Out, vm: Vm, n1: nat, a: Vm, len1: nat, x: Sym, mid: seq<Value>, n2: nat,
                    b: Vm, len2: nat, lits: seq<Value>) returns (n: nat)
    requires Drives(w, step) && Sized(vm) && |vm.stack| < STACK_LENGTH
    requires AddressCode(vm, len1, x, mid) == Some(len1 + 9) && Ends(vm, len1 + 9 + len2, 3, "add-slot", lits)
    requires Computes(step, Opened(vm, 3), n1, a, len1) && Keeps(Opened(vm, 3), a, |vm.heap|)
    requires Computes(step, Addressed(a, |vm.heap|, x), n2, b, len2)
    requires Keeps(Addressed(a, |vm.heap|, x), b, |vm.heap|)
    ensures Asks(step, vm, n, b, len1 + 14 + len2, "add-slot", |vm.heap|, [a.acc, SymVal(x), b.acc])
  {
    var v, args := |vm.heap|, [a.acc, SymVal(x), b.acc];
    var c := Addressed(a, v, x);
    AddressRuns(w, step, vm, n1, a, len1, x, mid, len1 + 9);
    LastPart(w, step, vm, c, len1 + 9, v, Nulls(4)[1 := a.acc][2 := SymVal(x)], n2, b, len2, 3, "add-slot", lits, args);
    Then(step, vm, n1 + 5, c, n2 + 2, Asked(vm, b, len1 + 14 + len2, "add-slot", v, args));
    n := n1 + 7 + n2;
  }

  // `add-slot' is asked for with the object, the slot's name and its value.
  lemma DefSlotAsks(w: World, step: Vm -> Out, e: Expr, s: Scopes, lits: seq<Value>, vm: Vm, em: Emitted, r1: Emitted,
                    n1: nat, a: Vm, l: Emitted, r2: Emitted, n2: nat, b: Vm) returns (n: nat)
    requires e.Two? && e.k2.DefSlot? && r1 == Emit(e.a, s, lits) && l == LitOp(OP_A_LITL, SymVal(e.k2.x), r1.lits)
    requires r2 == Emit(e.b, After(e.a, s), l.lits) && em == Emit(e, s, lits) && Loaded(vm, 0, em)
    requires Drives(w, step) && Sized(vm) && |vm.stack| < STACK_LENGTH
    requires Computes(step, Opened(vm, 3), n1, a, |r1.code|) && Keeps(Opened(vm, 3), a, |vm.heap|)
    requires Computes(step, Addressed(a, |vm.heap|, e.k2.x), n2, b, |r2.code|)
    requires Keeps(Addressed(a, |vm.heap|, e.k2.x), b, |vm.heap|)
    ensures Asks(step, vm, n, b, |em.code|, "add-slot", |vm.heap|, [a.acc, SymVal(e.k2.x), b.acc])
  {
    DefSlotPieces(e, s, lits, vm, em, r1, l, r2);
    n := DefSlotRuns(w, step, vm, n1, a, |r1.code|, e.k2.x, r1.lits, n2, b, |r2.code|, r2.lits);
  }

  // A template becomes a closure over the current environment.
  function Closed(vm: Vm, m: Method): Vm {
    vm.(heap := vm.heap + [Closure(m.(env := vm.env, owner := vm.effuid), vm.self)], acc := Ref(|vm.heap|),
        ip := vm.ip + 3)
  }

  // Making the closure leaves the waiting vector alone.
  lemma Closes(w: World, step: Vm -> Out, vm: Vm, m: Method, lits: seq<Value>, argv: nat)
    requires Drives(w, step) && Sized(vm) && Loaded(vm, 0, CloseOver(m, lits)) && argv < |vm.heap|
    ensures Computes(step, vm, 2, Closed(vm, m), 3) && Keeps(vm, Closed(vm, m), argv)
  {
    assert CloseOver(m, lits).code == [OP_A_LITL, B(|lits|)] + [OP_CLOSURE];
    AtSplit(vm.code, vm.ip, [OP_A_LITL, B(|lits|)], [OP_CLOSURE]);
    DoLiteral(w, step, vm, |lits|);
    DoClosure(w, step, Given(vm, MethodVal(m)), m);
    Once(step, vm, Given(vm, MethodVal(m)));
    ThenOnce(step, vm, 1, Given(vm, MethodVal(m)), Closed(vm, m));
  }

  // The closure is made, stored as argument `k` and the global named.
  predicate ClosesAndEnds(vm: Vm, off: nat, m: Method, lits: seq<Value>, k: nat, name: Sym) {
    Loaded(vm, off, CloseOver(m, lits)) && Ends(vm, off + 3, k, name, CloseOver(m, lits).lits)
  }

  lemma LastClosed(w: World, step: Vm -> Out, vm: Vm, c: Vm, off: nat, argv: nat, elems: seq<Value>, m: Method,
                   lits: seq<Value>, k: nat, name: Sym, args: seq<Value>)
    requires Drives(w, step) && Sized(c) && Filling(vm, c, off, argv, elems) && k < |elems| && k < 256
    requires ClosesAndEnds(vm, off, m, lits, k, name) && elems[k := Ref(|c.heap|)] == [Null] + args
    ensures Goes(step, c, 4, Asked(vm, Closed(c, m), off + 8, name, argv, args))
    ensures At(vm.code, vm.ip + off + 7, [OP_APPLY])
  {
    Closes(w, step, c, m, lits, argv);
    LastPart(w, step, vm, c, off, argv, elems, 2, Closed(c, m), 3, k, name, CloseOver(m, lits).lits, args);
  }

  lemma DefMethodEmitted(e: Expr, s: Scopes, lits: seq<Value>, r1: Emitted, l: Emitted, m: Method, g: Emitted)
    requires e.Fun? && e.kf.DefMethod? && r1 == Emit(e.kf.a, s, lits) && l == LitOp(OP_A_LITL, SymVal(e.kf.x), r1.lits)
    requires m == EmitTemplate(e.kf.params, e.b, After(e.kf.a, s))
    requires g == CallGlobal("add-method", CloseOver(m, l.lits).lits)
    ensures Emit(e, s, lits) == Emitted(PrepareCall(3) + r1.code + (AtPut(1) + l.code + AtPut(2)) +
                                        CloseOver(m, l.lits).code + (AtPut(3) + g.code), g.lits)
  {
    assert Emit(e, s, lits) == EmitForm(e, s, lits) == EmitFun(e, s, lits);
    SevenJoined(PrepareCall(3) + r1.code, AtPut(1), l.code, AtPut(2), CloseOver(m, l.lits).code, AtPut(3), g.code);
  }

  lemma SevenJoined(a: seq<byte>, b: seq<byte>, c: seq<byte>, d: seq<byte>, e: seq<byte>, f: seq<byte>, g: seq<byte>)
    ensures a + b + c + d + e + f + g == a + (b + c + d) + e + (f + g)
  {
    assert a + b + c + d == a + (b + c + d);
  }

  lemma DefMethodPieces(e: Expr, s: Scopes, lits: seq<Value>, vm: Vm, em: Emitted, r1: Emitted, l: Emitted, m: Method)
    requires e.Fun? && e.kf.DefMethod? && r1 == Emit(e.kf.a, s, lits) && l == LitOp(OP_A_LITL, SymVal(e.kf.x), r1.lits)
    requires m == EmitTemplate(e.kf.params, e.b, After(e.kf.a, s)) && em == Emit(e, s, lits) && Loaded(vm, 0, em)
    ensures AddressCode(vm, |r1.code|, e.kf.x, r1.lits) == Some(|r1.code| + 9)
    ensures ClosesAndEnds(vm, |r1.code| + 9, m, l.lits, 3, "add-method") && |em.code| == |r1.code| + 17
  {
    var f := CloseOver(m, l.lits);
    var g := CallGlobal("add-method", f.lits);
    DefMethodEmitted(e, s, lits, r1, l, m, g);
    AtSplit3(vm.code, vm.ip, PrepareCall(3) + r1.code + (AtPut(1) + l.code + AtPut(2)), f.code, AtPut(3) + g.code);
    AddressPieces(vm, r1.code, e.kf.x, r1.lits, l);
  }

  lemma DefMethodRuns(w: World, step: Vm -> Out, vm: Vm, n1: nat, a: Vm, len: nat, x: Sym, m: Method,
                      mid: seq<Value>, lits: seq<Value>) returns (n: nat)
    requires Drives(w, step) && Sized(vm) && |vm.stack| < STACK_LENGTH && AddressCode(vm, len, x, mid) == Some(len + 9)
    requires ClosesAndEnds(vm, len + 9, m, lits, 3, "add-method")
    requires Computes(step, Opened(vm, 3), n1, a, len) && Keeps(Opened(vm, 3), a, |vm.heap|)
    ensures Asks(step, vm, n, Closed(a, m), len + 17, "add-method", |vm.heap|, [a.acc, SymVal(x), Ref(|a.heap|)])
  {
    var v, args := |vm.heap|, [a.acc, SymVal(x), Ref(|a.heap|)];
    var c := Addressed(a, v, x);
    AddressRuns(w, step, vm, n1, a, len, x, mid, len + 9);
    LastMethod(w, step, vm, a, len, v, x, m, lits, args);
    Then(step, vm, n1 + 5, c, 4, Asked(vm, Closed(a, m), len + 17, "add-method", v, args));
    n := n1 + 9;
  }

  lemma LastMethod(w: World, step: Vm -> Out, vm: Vm, a: Vm, len: nat, v: nat, x: Sym, m: Method, lits: seq<Value>,
                   args: seq<Value>)
    requires Drives(w, step) && Sized(a) && v < |a.heap| && a.heap[v].Vec? && 2 < |a.heap[v].elems|
    requires var elems := Nulls(4)[1 := a.acc][2 := SymVal(x)];
             Filling(vm, Addressed(a, v, x), len + 9, v, elems) && elems[3 := Ref(|a.heap|)] == [Null] + args
    requires ClosesAndEnds(vm, len + 9, m, lits, 3, "add-method")
    ensures Goes(step, Addressed(a, v, x), 4, Asked(vm, Closed(a, m), len + 17, "add-method", v, args))
    ensures At(vm.code, vm.ip + len + 16, [OP_APPLY])
  {
    var elems := Nulls(4)[1 := a.acc][2 := SymVal(x)];
    LastClosed(w, step, vm, Addressed(a, v, x), len + 9, v, elems, m, lits, 3, "add-method", args);
    SameRequest(vm, a, v, x, m, len + 17, args);
  }

  // What was in the vector before does not matter.
  lemma SameRequest(vm: Vm, a: Vm, v: nat, x: Sym, m: Method, len: nat, args: seq<Value>)
    requires v < |a.heap| && a.heap[v].Vec? && 2 < |a.heap[v].elems|
    ensures Asked(vm, Closed(Addressed(a, v, x), m), len, "add-method", v, args) ==
            Asked(vm, Closed(a, m), len, "add-method", v, args)
  {
    var c := Addressed(a, v, x);
    Overwritten(a.heap, v, c.heap[v], Closed(a, m).heap[|a.heap|], Vec([Null] + args));
  }

  lemma Overwritten(h: Heap, a: nat, c: Cell, d: Cell, e: Cell)
    requires a < |h|
    ensures (h[a := c] + [d])[a := e] == (h + [d])[a := e] && h[a := c][a := e] == h[a := e]
  {
  }

  // `add-method' is asked for with the object, the method's name and a closure
  // of its body: made here, and for the current user.
  lemma DefMethodAsks(w: World, step: Vm -> Out, e: Expr, s: Scopes, lits: seq<Value>, vm: Vm, em: Emitted, r1: Emitted,
                      n1: nat, a: Vm, m: Method) returns (n: nat)
    requires e.Fun? && e.kf.DefMethod? && r1 == Emit(e.kf.a, s, lits) && em == Emit(e, s, lits) && Loaded(vm, 0, em)
    requires m == EmitTemplate(e.kf.params, e.b, After(e.kf.a, s))
    requires Drives(w, step) && Sized(vm) && |vm.stack| < STACK_LENGTH
    requires Computes(step, Opened(vm, 3), n1, a, |r1.code|) && Keeps(Opened(vm, 3), a, |vm.heap|)
    ensures Asks(step, vm, n, Closed(a, m), |em.code|, "add-method", |vm.heap|,
                 [a.acc, SymVal(e.kf.x), Ref(|a.heap|)])
  {
    var l := LitOp(OP_A_LITL, SymVal(e.kf.x), r1.lits);
    DefMethodPieces(e, s, lits, vm, em, r1, l, m);
    n := DefMethodRuns(w, step, vm, n1, a, |r1.code|, e.kf.x, m, r1.lits, l.lits);
  }

  lemma BindCCPieces(e: Expr, s: Scopes, lits: seq<Value>, vm: Vm, em: Emitted, m: Method)
    requires e.Fun? && e.kf.BindCC? && m == EmitTemplate([e.kf.x], e.b, s)
    requires em == Emit(e, s, lits) && Loaded(vm, 0, em)
    ensures At(vm.code, vm.ip, PrepareCall(1)) && ClosesAndEnds(vm, 3, m, lits, 1, "call/cc") && |em.code| == 11
  {
    assert em == EmitForm(e, s, lits) == EmitFun(e, s, lits);
    var f := CloseOver(m, lits);
    var g := CallGlobal("call/cc", f.lits);
    assert em.code == PrepareCall(1) + f.code + (AtPut(1) + g.code);
    AtSplit3(vm.code, vm.ip, PrepareCall(1), f.code, AtPut(1) + g.code);
  }

  // `call/cc' is asked for with a closure of the body, whose one parameter is
  // the name bound.
  lemma BindCCAsks(w: World, step: Vm -> Out, e: Expr, s: Scopes, lits: seq<Value>, vm: Vm, em: Emitted, m: Method)
    returns (n: nat)
    requires e.Fun? && e.kf.BindCC? && m == EmitTemplate([e.kf.x], e.b, s)
    requires em == Emit(e, s, lits) && Loaded(vm, 0, em)
    requires Drives(w, step) && Sized(vm) && |vm.stack| < STACK_LENGTH
    ensures Asks(step, vm, n, Closed(Opened(vm, 1), m), |em.code|, "call/cc", |vm.heap|, [Ref(|vm.heap| + 1)])
  {
    var c, args := Opened(vm, 1), [Ref(|vm.heap| + 1)];
    BindCCPieces(e, s, lits, vm, em, m);
    Opens(w, step, vm, 1);
    LastClosed(w, step, vm, c, 3, |vm.heap|, Nulls(2), m, lits, 1, "call/cc", args);
    Then(step, vm, 2, c, 4, Asked(vm, Closed(c, m), 11, "call/cc", |vm.heap|, args));
    n := 6;
  }

  function DefineCode(vm: Vm, len: nat, x: Sym, mid: seq<Value>, lits: seq<Value>): Option<nat> {
    if && At(vm.code, vm.ip, PrepareCall(2)) && At(vm.code, vm.ip + 3 + len, AtPut(2))
       && Loaded(vm, 5 + len, LitOp(OP_A_LITL, SymVal(x), mid)) && Ends(vm, 7 + len, 1, "define-global", lits)
    then Some(len + 12)
    else None
  }

  lemma DefineEmitted(e: Expr, lits: seq<Value>, r: Emitted, l: Emitted, g: Emitted)
    requires e.One? && e.k1.Define? && r == Emit(e.a, [], lits) && l == LitOp(OP_A_LITL, SymVal(e.k1.x), r.lits)
    requires g == CallGlobal("define-global", l.lits)
    ensures Emit(e, [], lits) ==
            Emitted(PrepareCall(2) + r.code + AtPut(2) + l.code + (AtPut(1) + g.code), g.lits)
  {
    assert Emit(e, [], lits) == EmitForm(e, [], lits) == EmitOne(e, [], lits);
    assert AtPut(2) + l.code + AtPut(1) + g.code == AtPut(2) + l.code + (AtPut(1) + g.code);
    assert PrepareCall(2) + r.code + (AtPut(2) + l.code + (AtPut(1) + g.code)) ==
           PrepareCall(2) + r.code + AtPut(2) + l.code + (AtPut(1) + g.code);
  }

  lemma DefinePieces(e: Expr, lits: seq<Value>, vm: Vm, em: Emitted, r: Emitted, l: Emitted)
    requires e.One? && e.k1.Define? && r == Emit(e.a, [], lits) && l == LitOp(OP_A_LITL, SymVal(e.k1.x), r.lits)
    requires em == Emit(e, [], lits) && Loaded(vm, 0, em)
    ensures DefineCode(vm, |r.code|, e.k1.x, r.lits, l.lits) == Some(|em.code|)
  {
    var g := CallGlobal("define-global", l.lits);
    DefineEmitted(e, lits, r, l, g);
    DefineStands(vm, em, r.code, e.k1.x, r.lits, l, g);
  }

  lemma DefineStands(vm: Vm, em: Emitted, c: seq<byte>, x: Sym, mid: seq<Value>, l: Emitted, g: Emitted)
    requires Loaded(vm, 0, em) && em == Emitted(PrepareCall(2) + c + AtPut(2) + l.code + (AtPut(1) + g.code), g.lits)
    requires l == LitOp(OP_A_LITL, SymVal(x), mid) && g == CallGlobal("define-global", l.lits)
    ensures DefineCode(vm, |c|, x, mid, l.lits) == Some(|em.code|)
  {
    AtSplit5(vm.code, vm.ip, em.code, PrepareCall(2), c, AtPut(2), l.code, AtPut(1) + g.code);
  }

  lemma DefineRuns(w: World, step: Vm -> Out, vm: Vm, n1: nat, a: Vm, len: nat, x: Sym, mid: seq<Value>,
                   lits: seq<Value>, total: nat) returns (n: nat)
    requires Drives(w, step) && Sized(vm) && |vm.stack| < STACK_LENGTH
    requires DefineCode(vm, len, x, mid, lits) == Some(total)
    requires Computes(step, Opened(vm, 2), n1, a, len) && Keeps(Opened(vm, 2), a, |vm.heap|)
    ensures Asks(step, vm, n, a, total, "define-global", |vm.heap|, [SymVal(x), a.acc])
  {
    var v, args := |vm.heap|, [SymVal(x), a.acc];
    FirstPart(w, step, 2, vm, n1, a, len);
    Puts(w, step, vm, a, 3 + len, v, Nulls(3), 2);
    var a1, elems := Put(a, v, 2), Nulls(3)[2 := a.acc];
    Gives(w, step, vm, a1, 5 + len, v, elems, SymVal(x), mid);
    var b := Given(a1, SymVal(x));
    LastStored(w, step, vm, b, 7 + len, v, elems, 1, "define-global", lits, args);
    Then(step, vm, n1 + 2, a, 1, a1);
    Then(step, vm, n1 + 3, a1, 1, b);
    Then(step, vm, n1 + 4, b, 2, Asked(vm, b, total, "define-global", v, args));
    Overwritten(a.heap, v, a1.heap[v], a1.heap[v], Vec([Null] + args));
    n := n1 + 6;
  }

  // Outside all scopes, `define-global' is asked for with name and value.
  lemma DefineAsks(w: World, step: Vm -> Out, e: Expr, lits: seq<Value>, vm: Vm, em: Emitted, r: Emitted, n1: nat,
                   a: Vm) returns (n: nat)
    requires e.One? && e.k1.Define? && r == Emit(e.a, [], lits) && em == Emit(e, [], lits) && Loaded(vm, 0, em)
    requires Drives(w, step) && Sized(vm) && |vm.stack| < STACK_LENGTH
    requires Computes(step, Opened(vm, 2), n1, a, |r.code|) && Keeps(Opened(vm, 2), a, |vm.heap|)
    ensures Asks(step, vm, n, a, |em.code|, "define-global", |vm.heap|, [SymVal(e.k1.x), a.acc])
  {
    var l := LitOp(OP_A_LITL, SymVal(e.k1.x), r.lits);
    DefinePieces(e, lits, vm, em, r, l);
    n := DefineRuns(w, step, vm, n1, a, |r.code|, e.k1.x, r.lits, l.lits, |em.code|);
  }

  // ---- f(es), a:x(es), as(a):x(es) ----

  // A part has taken `n` instructions to `end`.
  datatype Part = Part(n: nat, end: Vm)

  // The arguments are computed one after the other, each stored from index `k`
  // on before the next.
  ghost predicate ComputeAll(step: Vm -> Out, es: Exprs, k: nat, s: Scopes, lits: seq<Value>, vm: Vm, argv: nat,
                             parts: seq<Part>)
    decreases es
  {
    match es
    case Nil => parts == []
    case Cons(e, tl) =>
      && parts != []
      && Computes(step, vm, parts[0].n, parts[0].end, |Emit(e, s, lits).code|) && Keeps(vm, parts[0].end, argv)
      && parts[0].end.heap[argv].Vec? && k < |parts[0].end.heap[argv].elems|
      && ComputeAll(step, tl, k + 1, After(e, s), Emit(e, s, lits).lits, Put(parts[0].end, argv, k), argv, parts[1..])
  }

  function Results(parts: seq<Part>): seq<Value> {
    if parts == [] then [] else [parts[0].end.acc] + Results(parts[1..])
  }

  lemma ArgStored(w: World, step: Vm -> Out, vm: Vm, vm1: Vm, off: nat, argv: nat, elems: seq<Value>, k: nat, n: nat,
                  a: Vm, len: nat)
    requires Drives(w, step) && Filling(vm, vm1, off, argv, elems) && k < |elems| && k < 256
    requires Computes(step, vm1, n, a, len) && Keeps(vm1, a, argv) && At(a.code, a.ip, AtPut(k))
    ensures Goes(step, vm1, n + 1, Put(a, argv, k))
    ensures Filling(vm, Put(a, argv, k), off + len + 2, argv, elems[k := a.acc])
  {
    FillOn(step, vm, vm1, n, a, off, len, argv, elems);
    Puts(w, step, vm, a, off + len, argv, elems, k);
    Then(step, vm1, n, a, 1, Put(a, argv, k));
  }

  lemma ArgsCode(es: Exprs, k: nat, s: Scopes, lits: seq<Value>, vm: Vm, r: Emitted, more: Emitted)
    requires es.Cons? && r == Emit(es.head, s, lits) && more == EmitArgs(es.tail, k + 1, After(es.head, s), r.lits)
    requires Loaded(vm, 0, EmitArgs(es, k, s, lits))
    ensures At(vm.code, vm.ip + |r.code|, AtPut(k)) && Loaded(vm, |r.code| + 2, more)
    ensures |EmitArgs(es, k, s, lits).code| == |r.code| + 2 + |more.code|
  {
    AtSplit3(vm.code, vm.ip, r.code, AtPut(k), more.code);
  }

  lemma ResultsMore(elems: seq<Value>, k: nat, parts: seq<Part>)
    requires k < |elems| && parts != []
    ensures elems[k := parts[0].end.acc][..k + 1] + Results(parts[1..]) == elems[..k] + Results(parts)
    ensures |Results(parts)| == 1 + |Results(parts[1..])|
  {
  }

  // They end up in the vector in order.
  lemma {:induction false} ArgsStored(w: World, step: Vm -> Out, es: Exprs, k: nat, s: Scopes, lits: seq<Value>, vm: Vm,
                                      vm1: Vm, off: nat, argv: nat, elems: seq<Value>, parts: seq<Part>)
    returns (n: nat, vm2: Vm)
    requires Drives(w, step) && Filling(vm, vm1, off, argv, elems) && |elems| == k + Count(es) <= 256
    requires Loaded(vm1, 0, EmitArgs(es, k, s, lits)) && ComputeAll(step, es, k, s, lits, vm1, argv, parts)
    ensures Goes(step, vm1, n, vm2) && |Results(parts)| == Count(es)
    ensures Filling(vm, vm2, off + |EmitArgs(es, k, s, lits).code|, argv, elems[..k] + Results(parts))
    decreases es
  {
    if es.Nil? {
      n, vm2 := 0, vm1;
      assert elems[..k] + [] == elems;
    } else {
      var r := Emit(es.head, s, lits);
      var more := EmitArgs(es.tail, k + 1, After(es.head, s), r.lits);
      ArgsCode(es, k, s, lits, vm1, r, more);
      var n1, a := parts[0].n, parts[0].end;
      ArgStored(w, step, vm, vm1, off, argv, elems, k, n1, a, |r.code|);
      n, vm2 := ArgsStored(w, step, es.tail, k + 1, After(es.head, s), r.lits, vm, Put(a, argv, k), off + |r.code| + 2,
                           argv, elems[k := a.acc], parts[1..]);
      Then(step, vm1, n1 + 1, Put(a, argv, k), n, vm2);
      n := n1 + 1 + n;
      ResultsMore(elems, k, parts);
    }
  }

  // Around the part in front and the arguments; the length up to what applies
  // or sends.
  function CalleeCode(vm: Vm, len: nat, argc: nat, more: nat): Option<nat> {
    if && At(vm.code, vm.ip + len, [OP_PUSH]) && At(vm.code, vm.ip + len + 1, PrepareCall(argc))
       && At(vm.code, vm.ip + len + 4 + more, FETCH_CALLEE)
    then Some(len + 6 + more)
    else None
  }

  lemma HeadedEmitted(e: Expr, s: Scopes, lits: seq<Value>, r: Emitted, args: Emitted)
    requires e.Headed? && r == Emit(e.a, s, lits) && args == EmitArgs(e.es, 1, After(e.a, s), r.lits)
    ensures Emit(e, s, lits) == Emitted(r.code + [OP_PUSH] + PrepareCall(Count(e.es)) + args.code +
                                        PostH(e.kh, args.lits).code, PostH(e.kh, args.lits).lits)
  {
    assert Emit(e, s, lits) == EmitForm(e, s, lits) == EmitHeaded(e, s, lits);
  }

  lemma HeadedPieces(e: Expr, s: Scopes, lits: seq<Value>, vm: Vm, em: Emitted, r: Emitted, args: Emitted, l: Emitted)
    requires e.Headed? && r == Emit(e.a, s, lits) && args == EmitArgs(e.es, 1, After(e.a, s), r.lits)
    requires PostH(e.kh, args.lits) == Emitted(FETCH_CALLEE + l.code, l.lits)
    requires em == Emit(e, s, lits) && Loaded(vm, 0, em)
    ensures CalleeCode(vm, |r.code|, Count(e.es), |args.code|) == Some(|em.code| - |l.code|)
    ensures Loaded(vm, 0, r) && Loaded(vm, |r.code| + 4, args) && Loaded(vm, |em.code| - |l.code|, l)
  {
    HeadedEmitted(e, s, lits, r, args);
    var c4 := r.code + [OP_PUSH] + PrepareCall(Count(e.es)) + args.code;
    AtSplit(vm.code, vm.ip, c4, FETCH_CALLEE + l.code);
    AtSplit4(vm.code, vm.ip, r.code, [OP_PUSH], PrepareCall(Count(e.es)), args.code);
    AtSplit(vm.code, vm.ip + |c4|, FETCH_CALLEE, l.code);
  }

  // `off` bytes on, `f` is in the accumulator and its arguments are in the
  // vector on top of the stack.
  predicate Ready(vm: Vm, vm2: Vm, off: int, f: Value, argv: nat, args: seq<Value>) {
    && vm2 == vm.(acc := f, stack := vm.stack + [Ref(argv)], ip := vm.ip + off, heap := vm2.heap,
                  globals := vm2.globals)
    && argv < |vm2.heap| && vm2.heap[argv] == Vec([Null] + args)
  }

  // From the value of the part in front on.
  lemma Readies(w: World, step: Vm -> Out, es: Exprs, s: Scopes, lits: seq<Value>, a: Vm, args: Emitted,
                parts: seq<Part>) returns (n: nat, c: Vm)
    requires Drives(w, step) && Count(es) < 255 && |a.stack| + 2 <= STACK_LENGTH && args == EmitArgs(es, 1, s, lits)
    requires At(a.code, a.ip, [OP_PUSH]) && At(a.code, a.ip + 1, PrepareCall(Count(es))) && Loaded(a, 4, args)
    requires ComputeAll(step, es, 1, s, lits, Opened(Pushed(a), Count(es)), |a.heap|, parts)
    ensures Goes(step, a, n, c) && Filling(Pushed(a), c, 3 + |args.code|, |a.heap|, [Null] + Results(parts))
    ensures |Results(parts)| == Count(es)
  {
    DoPush(w, step, a);
    n, c := CallFilled(w, step, es, s, lits, Pushed(a), args, parts);
    Once(step, a, Pushed(a));
    Then(step, a, 1, Pushed(a), n, c);
    n := n + 1;
  }

  lemma ReadiesBehind(w: World, step: Vm -> Out, es: Exprs, s: Scopes, lits: seq<Value>, vm: Vm, n1: nat, a: Vm,
                      len: nat, args: Emitted, parts: seq<Part>, off: nat) returns (n: nat, vm2: Vm)
    requires Drives(w, step) && Count(es) < 255 && |vm.stack| + 2 <= STACK_LENGTH && args == EmitArgs(es, 1, s, lits)
    requires CalleeCode(vm, len, Count(es), |args.code|) == Some(off) && Loaded(vm, len + 4, args)
    requires Computes(step, vm, n1, a, len)
    requires ComputeAll(step, es, 1, s, lits, Opened(Pushed(a), Count(es)), |a.heap|, parts)
    ensures Goes(step, vm, n, vm2) && Ready(vm, vm2, off, a.acc, |a.heap|, Results(parts))
    ensures |Results(parts)| == Count(es)
  {
    var c: Vm;
    CalleeBehind(vm, a, len, Count(es), args);
    n, c := Readies(w, step, es, s, lits, a, args, parts);
    vm2 := Fetches(w, step, vm, len, a, c, 4 + |args.code|, |a.heap|, Results(parts));
    Then(step, vm, n1, a, n, c);
    Then(step, vm, n1 + n, c, 2, vm2);
    n := n1 + n + 2;
  }

  // Seen from where the part in front has come to.
  lemma CalleeBehind(vm: Vm, a: Vm, len: nat, argc: nat, args: Emitted)
    requires CalleeCode(vm, len, argc, |args.code|).Some? && Loaded(vm, len + 4, args) && Arrives(vm, a, a.acc, len)
    ensures At(a.code, a.ip, [OP_PUSH]) && At(a.code, a.ip + 1, PrepareCall(argc)) && Loaded(a, 4, args)
    ensures At(vm.code, vm.ip + len + 4 + |args.code|, FETCH_CALLEE)
    ensures CalleeCode(vm, len, argc, |args.code|) == Some(len + 6 + |args.code|)
  {
    AtMoved(vm, a, len, 1, PrepareCall(argc));
    AtMoved(vm, a, len, 4, args.code);
  }

  // Callee and arguments are fetched from the stack.
  lemma Fetches(w: World, step: Vm -> Out, vm: Vm, len: nat, a: Vm, c: Vm, off: nat, argv: nat, args: seq<Value>)
    returns (vm2: Vm)
    requires Drives(w, step) && Arrives(vm, a, a.acc, len) && off > 0
    requires Filling(Pushed(a), c, off - 1, argv, [Null] + args) && At(vm.code, vm.ip + len + off, FETCH_CALLEE)
    ensures Goes(step, c, 2, vm2) && Ready(vm, vm2, len + off + 2, a.acc, argv, args)
  {
    assert c.stack == vm.stack + [a.acc, Ref(argv)];
    DoFetchCallee(w, step, c, vm.stack, a.acc, Ref(argv));
    vm2 := c.(acc := a.acc, stack := vm.stack + [Ref(argv)], ip := c.ip + 2);
  }

  lemma SendRuns(w: World, step: Vm -> Out, es: Exprs, s: Scopes, lits: seq<Value>, vm: Vm, n1: nat, a: Vm, len: nat,
                 args: Emitted, parts: seq<Part>, off: nat, op: byte, x: Sym) returns (n: nat, vm2: Vm)
    requires Drives(w, step) && Count(es) < 255 && |vm.stack| + 2 <= STACK_LENGTH && args == EmitArgs(es, 1, s, lits)
    requires CalleeCode(vm, len, Count(es), |args.code|) == Some(off) && Loaded(vm, len + 4, args)
    requires Loaded(vm, off, LitOp(op, SymVal(x), args.lits)) && Sized(vm) && Computes(step, vm, n1, a, len)
    requires ComputeAll(step, es, 1, s, lits, Opened(Pushed(a), Count(es)), |a.heap|, parts)
    ensures Goes(step, vm, n, vm2) && Ready(vm, vm2, off, a.acc, |a.heap|, Results(parts)) && Named(vm2, op, x)
    ensures |Results(parts)| == Count(es)
  {
    n, vm2 := ReadiesBehind(w, step, es, s, lits, vm, n1, a, len, args, parts, off);
    NamesIt(vm, vm2, off, op, x, args.lits);
  }

  lemma SendPieces(e: Expr, s: Scopes, lits: seq<Value>, vm: Vm, em: Emitted, r: Emitted, args: Emitted, op: byte,
                   l: Emitted)
    requires e.Headed? && e.kh.Send? && r == Emit(e.a, s, lits) && args == EmitArgs(e.es, 1, After(e.a, s), r.lits)
    requires em == Emit(e, s, lits) && Loaded(vm, 0, em) && op == (if e.kh.asSelf then OP_CALL_AS else OP_CALL)
    requires l == LitOp(op, SymVal(e.kh.x), args.lits)
    ensures CalleeCode(vm, |r.code|, Count(e.es), |args.code|) == Some(|em.code| - 2)
    ensures Loaded(vm, |r.code| + 4, args) && Loaded(vm, |em.code| - 2, l)
  {
    HeadedPieces(e, s, lits, vm, em, r, args, l);
  }

  // A message is sent to the value of the part in front, with the arguments in
  // order.
  lemma SendAsks(w: World, step: Vm -> Out, e: Expr, s: Scopes, lits: seq<Value>, vm: Vm, em: Emitted, r: Emitted,
                 n1: nat, a: Vm, args: Emitted, parts: seq<Part>, op: byte) returns (n: nat, vm2: Vm)
    requires e.Headed? && e.kh.Send? && r == Emit(e.a, s, lits) && args == EmitArgs(e.es, 1, After(e.a, s), r.lits)
    requires em == Emit(e, s, lits) && Loaded(vm, 0, em) && op == (if e.kh.asSelf then OP_CALL_AS else OP_CALL)
    requires Drives(w, step) && Sized(vm) && |vm.stack| + 2 <= STACK_LENGTH && Count(e.es) < 255
    requires Computes(step, vm, n1, a, |r.code|)
    requires ComputeAll(step, e.es, 1, After(e.a, s), r.lits, Opened(Pushed(a), Count(e.es)), |a.heap|, parts)
    ensures Goes(step, vm, n, vm2) && Ready(vm, vm2, |em.code| - 2, a.acc, |a.heap|, Results(parts))
    ensures Named(vm2, op, e.kh.x) && |Results(parts)| == Count(e.es)
  {
    SendPieces(e, s, lits, vm, em, r, args, op, LitOp(op, SymVal(e.kh.x), args.lits));
    n, vm2 := SendRuns(w, step, e.es, After(e.a, s), r.lits, vm, n1, a, |r.code|, args, parts, |em.code| - 2, op,
                       e.kh.x);
  }

  lemma ApplyPieces(e: Expr, s: Scopes, lits: seq<Value>, vm: Vm, em: Emitted, r: Emitted, args: Emitted)
    requires e.Headed? && e.kh.Apply? && r == Emit(e.a, s, lits) && args == EmitArgs(e.es, 1, After(e.a, s), r.lits)
    requires em == Emit(e, s, lits) && Loaded(vm, 0, em)
    ensures CalleeCode(vm, |r.code|, Count(e.es), |args.code|) == Some(|em.code| - 1)
    ensures Loaded(vm, |r.code| + 4, args) && At(vm.code, vm.ip + |em.code| - 1, [OP_APPLY])
  {
    HeadedPieces(e, s, lits, vm, em, r, args, Emitted([OP_APPLY], args.lits));
  }

  lemma ApplyRuns(w: World, step: Vm -> Out, es: Exprs, s: Scopes, lits: seq<Value>, vm: Vm, n1: nat, a: Vm, len: nat,
                  args: Emitted, parts: seq<Part>, off: nat) returns (n: nat, vm2: Vm)
    requires Drives(w, step) && Count(es) < 255 && |vm.stack| + 2 <= STACK_LENGTH && args == EmitArgs(es, 1, s, lits)
    requires CalleeCode(vm, len, Count(es), |args.code|) == Some(off) && Loaded(vm, len + 4, args)
    requires At(vm.code, vm.ip + off, [OP_APPLY]) && Computes(step, vm, n1, a, len)
    requires ComputeAll(step, es, 1, s, lits, Opened(Pushed(a), Count(es)), |a.heap|, parts)
    ensures Goes(step, vm, n, vm2) && Ready(vm, vm2, off, a.acc, |a.heap|, Results(parts))
    ensures At(vm2.code, vm2.ip, [OP_APPLY]) && |Results(parts)| == Count(es)
  {
    n, vm2 := ReadiesBehind(w, step, es, s, lits, vm, n1, a, len, args, parts, off);
  }

  // The value of the part in front is applied to the arguments in order.
  lemma ApplyAsks(w: World, step: Vm -> Out, e: Expr, s: Scopes, lits: seq<Value>, vm: Vm, em: Emitted, r: Emitted,
                  n1: nat, a: Vm, args: Emitted, parts: seq<Part>) returns (n: nat, vm2: Vm)
    requires e.Headed? && e.kh.Apply? && r == Emit(e.a, s, lits) && args == EmitArgs(e.es, 1, After(e.a, s), r.lits)
    requires em == Emit(e, s, lits) && Loaded(vm, 0, em)
    requires Drives(w, step) && Sized(vm) && |vm.stack| + 2 <= STACK_LENGTH && Count(e.es) < 255
    requires Computes(step, vm, n1, a, |r.code|)
    requires ComputeAll(step, e.es, 1, After(e.a, s), r.lits, Opened(Pushed(a), Count(e.es)), |a.heap|, parts)
    ensures Goes(step, vm, n, vm2) && Ready(vm, vm2, |em.code| - 1, a.acc, |a.heap|, Results(parts))
    ensures At(vm2.code, vm2.ip, [OP_APPLY]) && |Results(parts)| == Count(e.es)
  {
    ApplyPieces(e, s, lits, vm, em, r, args);
    n, vm2 := ApplyRuns(w, step, e.es, After(e.a, s), r.lits, vm, n1, a, |r.code|, args, parts, |em.code| - 1);
  }

  lemma CallPieces(e: Expr, s: Scopes, lits: seq<Value>, vm: Vm, em: Emitted, args: Emitted, g: Emitted)
    requires e.Many? && e.kn.Call? && args == EmitArgs(e.es, 1, s, lits) && Lookup(AfterAll(e.es, s), e.kn.x).None?
    requires em == Emit(e, s, lits) && Loaded(vm, 0, em) && g == CallGlobal(e.kn.x, args.lits)
    ensures At(vm.code, vm.ip, PrepareCall(Count(e.es))) && Loaded(vm, 3, args) && |em.code| == 6 + |args.code|
    ensures Loaded(vm, 3 + |args.code|, g)
  {
    CallEmitted(e, s, lits, args, g);
    AtSplit3(vm.code, vm.ip, PrepareCall(Count(e.es)), args.code, g.code);
  }

  lemma CallEmitted(e: Expr, s: Scopes, lits: seq<Value>, args: Emitted, g: Emitted)
    requires e.Many? && e.kn.Call? && args == EmitArgs(e.es, 1, s, lits) && Lookup(AfterAll(e.es, s), e.kn.x).None?
    requires g == CallGlobal(e.kn.x, args.lits)
    ensures Emit(e, s, lits) == Emitted(PrepareCall(Count(e.es)) + args.code + g.code, g.lits)
  {
    assert Emit(e, s, lits) == EmitForm(e, s, lits) == EmitMany(e.kn, e.es, s, lits);
    var l := LitOp(OP_A_GLOB, SymVal(e.kn.x), args.lits);
    assert PrepareCall(Count(e.es)) + args.code + l.code + [OP_APPLY] ==
           PrepareCall(Count(e.es)) + args.code + (l.code + [OP_APPLY]);
  }

  // Of a name in no scope, the global is applied to the arguments in order.
  lemma CallAsks(w: World, step: Vm -> Out, e: Expr, s: Scopes, lits: seq<Value>, vm: Vm, em: Emitted, args: Emitted,
                 parts: seq<Part>) returns (n: nat, last: Vm)
    requires e.Many? && e.kn.Call? && args == EmitArgs(e.es, 1, s, lits) && Lookup(AfterAll(e.es, s), e.kn.x).None?
    requires em == Emit(e, s, lits) && Loaded(vm, 0, em)
    requires Drives(w, step) && Sized(vm) && |vm.stack| < STACK_LENGTH && Count(e.es) < 255
    requires ComputeAll(step, e.es, 1, s, lits, Opened(vm, Count(e.es)), |vm.heap|, parts)
    ensures Asks(step, vm, n, last, |em.code|, e.kn.x, |vm.heap|, Results(parts)) && |Results(parts)| == Count(e.es)
  {
    CallPieces(e, s, lits, vm, em, args, CallGlobal(e.kn.x, args.lits));
    n, last := CallRuns(w, step, e.kn.x, e.es, s, lits, vm, args, parts);
  }

  lemma CallRuns(w: World, step: Vm -> Out, x: Sym, es: Exprs, s: Scopes, lits: seq<Value>, vm: Vm, args: Emitted,
                 parts: seq<Part>) returns (n: nat, last: Vm)
    requires Drives(w, step) && Sized(vm) && |vm.stack| < STACK_LENGTH && Count(es) < 255
    requires args == EmitArgs(es, 1, s, lits) && At(vm.code, vm.ip, PrepareCall(Count(es))) && Loaded(vm, 3, args)
    requires Loaded(vm, 3 + |args.code|, CallGlobal(x, args.lits))
    requires ComputeAll(step, es, 1, s, lits, Opened(vm, Count(es)), |vm.heap|, parts)
    ensures Asks(step, vm, n, last, 6 + |args.code|, x, |vm.heap|, Results(parts)) && |Results(parts)| == Count(es)
  {
    n, last := CallFilled(w, step, es, s, lits, vm, args, parts);
    NamesGlobal(w, step, last, x, args.lits);
    Untouched(last.heap, |vm.heap|, Vec([Null] + Results(parts)));
    ThenOnce(step, vm, n, last, Asked(vm, last, 6 + |args.code|, x, |vm.heap|, Results(parts)));
    n := n + 1;
  }

  lemma Untouched(h: Heap, a: nat, c: Cell)
    requires a < |h| && h[a] == c
    ensures h[a := c] == h
  {
  }

  lemma CallFilled(w: World, step: Vm -> Out, es: Exprs, s: Scopes, lits: seq<Value>, vm: Vm, args: Emitted,
                   parts: seq<Part>) returns (n: nat, last: Vm)
    requires Drives(w, step) && |vm.stack| < STACK_LENGTH && Count(es) < 255
    requires args == EmitArgs(es, 1, s, lits) && At(vm.code, vm.ip, PrepareCall(Count(es))) && Loaded(vm, 3, args)
    requires ComputeAll(step, es, 1, s, lits, Opened(vm, Count(es)), |vm.heap|, parts)
    ensures Goes(step, vm, n, last) && |Results(parts)| == Count(es)
    ensures Filling(vm, last, 3 + |args.code|, |vm.heap|, [Null] + Results(parts))
  {
    Opens(w, step, vm, Count(es));
    n, last := ArgsStored(w, step, es, 1, s, lits, vm, Opened(vm, Count(es)), 3, |vm.heap|, Nulls(Count(es) + 1),
                          parts);
    assert Nulls(Count(es) + 1)[..1] == [Null];
    Then(step, vm, 2, Opened(vm, Count(es)), n, last);
    n := n + 2;
  }
}
