// Run-time values, heap cells and the register file of the virtual machine.
module Values {
  import opened Bytes

  datatype Option<+T> = None | Some(value: T)

  // A symbol is its name: interning is taken as given.
  type Sym = string

  datatype Value =
    | Null
    | Num(n: int)
    | Single(k: nat)
    | Ref(a: nat)
    | SymVal(s: Sym)
    | MethodVal(m: Method)
    | FrameVal(f: Frame)

  const TRUE := Single(0)
  const FALSE := Single(1)
  const UNDEFINED := Single(2)
  const YIELD := Single(3)

  // A method object.  The compiler's templates are methods without owner and
  // environment; the empty code block stands for a null code pointer.
  datatype Method = Method(name: Value, flags: nat, code: seq<byte>, owner: Value,
                           lits: seq<Value>, env: Value, argc: nat)

  const PERMS_MASK: nat := 0xFFF
  const SETUID: nat := 0x2000

  function Template(argc: nat, code: seq<byte>, lits: seq<Value>): Method {
    Method(SymVal("anonymous-method"), PERMS_MASK, code, Null, lits, Null, argc)
  }

  predicate Setuid(m: Method) {
    (m.flags / SETUID) % 2 == 1
  }

  // A saved register set; frames are never changed once filled.
  datatype Frame =
    | NoFrame
    | Frame(code: seq<byte>, ip: int, self: Value, lits: seq<Value>, env: Value,
            link: Frame, meth: Value, effuid: Value)

  datatype Cell =
    | Vec(elems: seq<Value>)
    | BVec(bytes: seq<byte>)
    | Object
    | Closure(meth: Method, self: Value)
    | Prim(num: nat)
    | Cont(frame: Frame, stack: seq<Value>)

  type Heap = seq<Cell>

  // The one vector of length zero, allocated statically.
  const ZERO_VECTOR: nat := 0

  // newvector_noinit: a fresh cell, or the shared empty vector.
  function NewVector(h: Heap, elems: seq<Value>): (r: (Heap, Value)) {
    if elems == [] then (h, Ref(ZERO_VECTOR)) else (h + [Vec(elems)], Ref(|h|))
  }

  predicate IsVec(h: Heap, v: Value) {
    v.Ref? && v.a < |h| && h[v.a].Vec?
  }

  predicate IsObject(h: Heap, v: Value) {
    v.Ref? && v.a < |h| && h[v.a].Object?
  }

  predicate IsBVec(h: Heap, v: Value) {
    v.Ref? && v.a < |h| && h[v.a].BVec?
  }

  predicate IsClosure(h: Heap, v: Value) {
    v.Ref? && v.a < |h| && h[v.a].Closure?
  }

  // Not null and not tagged.
  predicate IsBoxed(v: Value) {
    !v.Null? && !v.Num? && !v.Single?
  }

  // Registers.  `stack` is the live part of the stack vector, bottom first.
  datatype Vm = Vm(acc: Value, code: seq<byte>, ip: int, env: Value, lits: seq<Value>, self: Value,
                   stack: seq<Value>, frame: Frame, meth: Value, trap: Value, uid: Value, effuid: Value,
                   state: int, heap: Heap, globals: map<Sym, Value>)

  const STACK_LENGTH: nat := 1024
  const DYING := 0
  const DEFAULT_QUOTA := 15000

  function Global(g: map<Sym, Value>, s: Sym): Value {
    if s in g then g[s] else UNDEFINED
  }
}
