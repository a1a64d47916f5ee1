// Stack discipline and jump targets of everything the compiler emits.
module Discipline {
  import opened Bytes
  import opened Values
  import opened Machine
  import opened Syntax
  import opened Scoping
  import opened Emission
  import opened Limits
  import opened Heights

  // No literal vector has more elements than its length byte can say.
  predicate VectorsFit(e: Expr)
    decreases e
  {
    match e
    case Lit(_) => true
    case This => true
    case Var(_) => true
    case One(_, a) => VectorsFit(a)
    case Two(_, a, b) => VectorsFit(a) && VectorsFit(b)
    case Three(_, a, b, c) => VectorsFit(a) && VectorsFit(b) && VectorsFit(c)
    case Many(k, es) => AllVectorsFit(es) && (k.VecLit? ==> Count(es) < 256)
    case Headed(_, a, es) => VectorsFit(a) && AllVectorsFit(es)
    case Fun(k, _) => k.DefMethod? ==> VectorsFit(k.a)
  }

  predicate AllVectorsFit(es: Exprs)
    decreases es
  {
    match es
    case Nil => true
    case Cons(e, tl) => VectorsFit(e) && AllVectorsFit(tl)
  }

  // ---- Stretches without jumps out ----

  // From height `h` to `k`, with returns at the heights `rets`.
  predicate Piece(code: seq<byte>, h: int, k: int, rets: seq<int>) {
    Good(code, h, k, map[]) && ReturnHeights(code, h) == rets
  }

  lemma Join(a: seq<byte>, b: seq<byte>, h: int, m: int, k: int, ra: seq<int>, rb: seq<int>)
    requires Piece(a, h, m, ra) && Piece(b, m, k, rb)
    ensures Piece(a + b, h, k, ra + rb)
  {
    Compose(a, b, h, m, k, map[], map[], map[]);
  }

  // The same, where one part does not return.
  lemma JoinPlain(a: seq<byte>, b: seq<byte>, h: int, m: int, k: int, r: seq<int>)
    requires Piece(a, h, m, r) && Piece(b, m, k, [])
    ensures Piece(a + b, h, k, r)
  {
    Join(a, b, h, m, k, r, []);
    assert r + [] == r;
  }

  lemma JoinAfter(a: seq<byte>, b: seq<byte>, h: int, m: int, k: int, r: seq<int>)
    requires Piece(a, h, m, []) && Piece(b, m, k, r)
    ensures Piece(a + b, h, k, r)
  {
    Join(a, b, h, m, k, [], r);
    assert [] + r == r;
  }

  // One instruction on its own.
  lemma Alone(bs: seq<byte>, h: int, exits: map<int, int>)
    requires bs != [] && |bs| == Len(bs[0]) && InstrOk(bs, h, exits, 0, h)
    ensures Good(bs, h, h + Delta(bs[0], Operand(bs)), exits)
    ensures ReturnHeights(bs, h) == if bs[0] == OP_RET then [h] else []
  {
    assert Whole(bs) && Rest(bs) == [] && bs[0..] == bs;
    Unfold(bs, |bs|, h);
    Unfold([], 0, Next(bs, h));
    forall i {:trigger HeightAt(bs, i, h)} | 0 <= i < |bs| && HeightAt(bs, i, h).Some?
      ensures InstrOk(bs, h, exits, i, HeightAt(bs, i, h).value)
    {
      Unfold(bs, i, h);
    }
    Unfold(bs, 0, h);
    AllOkIntro(bs, h, exits, 0, h);
  }

  // An instruction that neither jumps nor returns.
  lemma Single(bs: seq<byte>, h: int)
    requires bs != [] && |bs| == Len(bs[0]) && Emittable(bs[0]) && !IsJump(bs[0]) && bs[0] != OP_RET
    requires 0 <= Needs(bs[0], Operand(bs)) <= h
    ensures Piece(bs, h, h + Delta(bs[0], Operand(bs)), [])
  {
    assert bs[0..] == bs;
    Alone(bs, h, map[]);
  }

  lemma ReturnPiece(h: nat)
    ensures Piece([OP_RET], h, h, [h])
  {
    Alone([OP_RET], h, map[]);
  }

  // A jump over `disp` bytes: its target is an exit of this stretch.
  lemma JumpPiece(op: byte, disp: int, h: nat)
    requires IsJump(op) && -0x8000 <= disp < 0x8000
    ensures Good(JumpOp(op, disp), h, h, map[3 + disp := h]) && ReturnHeights(JumpOp(op, disp), h) == []
  {
    Be16Decodes(disp);
    Alone(JumpOp(op, disp), h, map[3 + disp := h]);
  }

  // ---- The shapes that jump ----

  // A jump over a jump: falls through, or leaves `n` bytes on.
  lemma HopShape(op: byte, n: nat, h: nat)
    requires IsJump(op) && n < 0x8000
    ensures var code := JumpOp(op, 3) + JumpOp(OP_JUMP, n);
            Good(code, h, h, map[6 + n := h]) && ReturnHeights(code, h) == []
  {
    JumpPiece(op, 3, h);
    JumpPiece(OP_JUMP, n, h);
    Compose(JumpOp(op, 3), JumpOp(OP_JUMP, n), h, h, h, map[6 := h], map[3 + n := h], map[6 + n := h]);
  }

  lemma Regroup(a: seq<byte>, x: seq<byte>, y: seq<byte>, z: seq<byte>, b: seq<byte>)
    ensures a + (x + y + z) + b == a + x + y + z + b
  {
  }

  // a; skip the second jump or take it; b.
  lemma ShortShape(a: seq<byte>, op: byte, b: seq<byte>, h: nat)
    requires Good(a, h, h, map[]) && Good(b, h, h, map[]) && IsJump(op) && |b| < 0x8000
    ensures var code := a + JumpOp(op, 3) + JumpOp(OP_JUMP, |b|) + b;
            Piece(code, h, h, ReturnHeights(a, h) + ReturnHeights(b, h))
  {
    HopShape(op, |b|, h);
    assert JumpOp(op, 3) + [] == JumpOp(op, 3);
    PastShape(a, JumpOp(op, 3), [], JumpOp(OP_JUMP, |b|), b, h);
    assert ReturnHeights(a, h) + [] == ReturnHeights(a, h);
    assert a + JumpOp(op, 3) + [] == a + JumpOp(op, 3);
  }

  // A jump to `to`, counted from its own first byte.
  lemma Jumping(op: byte, disp: int, to: int, h: nat) returns (j: seq<byte>)
    requires IsJump(op) && -0x8000 <= disp < 0x8000 && to == 3 + disp
    ensures j == JumpOp(op, disp) && |j| == 3 && Good(j, h, h, map[to := h]) && ReturnHeights(j, h) == []
  {
    JumpPiece(op, disp, h);
    j := JumpOp(op, disp);
  }

  // a; leave or enter b; back to a.
  lemma LoopShape(a: seq<byte>, b: seq<byte>, h: nat) returns (code: seq<byte>)
    requires Good(a, h, h, map[]) && Good(b, h, h, map[]) && |a| + |b| + 6 < 0x8000
    ensures code == a + JumpOp(OP_JUMP_FALSE, |b| + 3) + b + JumpOp(OP_JUMP, -(|a| + |b| + 6))
    ensures Piece(code, h, h, ReturnHeights(a, h) + ReturnHeights(b, h))
  {
    var n := |a| + |b| + 6;
    var j1 := Jumping(OP_JUMP_FALSE, |b| + 3, |b| + 6, h);
    var j2 := Jumping(OP_JUMP, -n, 3 - n, h);
    var g := LoopFront(a, j1, b, h, |b| + 6, n);
    LoopBack(g, j2, h, n, 3 - n);
    assert ReturnHeights(a, h) + ReturnHeights(b, h) + [] == ReturnHeights(a, h) + ReturnHeights(b, h);
    code := g + j2;
  }

  lemma LoopFront(a: seq<byte>, j1: seq<byte>, b: seq<byte>, h: nat, to: int, n: int) returns (g: seq<byte>)
    requires Good(a, h, h, map[]) && Good(b, h, h, map[])
    requires |j1| == 3 && Good(j1, h, h, map[to := h]) && ReturnHeights(j1, h) == []
    requires to == |b| + 6 && n == |a| + |b| + 6
    ensures g == a + j1 + b && |g| == |a| + |b| + 3
    ensures Good(g, h, h, map[n := h]) && ReturnHeights(g, h) == ReturnHeights(a, h) + ReturnHeights(b, h)
  {
    Compose(a, j1, h, h, h, map[], map[to := h], map[n := h]);
    Compose(a + j1, b, h, h, h, map[n := h], map[], map[n := h]);
    assert ReturnHeights(a, h) + [] == ReturnHeights(a, h);
    g := a + j1 + b;
  }

  // The jump back to the beginning.
  lemma LoopBack(g: seq<byte>, j2: seq<byte>, h: nat, n: int, back: int)
    requires |j2| == 3 && Good(j2, h, h, map[back := h]) && ReturnHeights(j2, h) == []
    requires Good(g, h, h, map[n := h]) && n == |g| + 3 && back == -|g|
    ensures Good(g + j2, h, h, map[]) && ReturnHeights(g + j2, h) == ReturnHeights(g, h) + []
  {
    Unfold(g, 0, h);
    Compose(g, j2, h, h, h, map[n := h], map[back := h], map[]);
  }

  // Skip b, or run it and leave `n` bytes on.
  lemma GuardShape(b: seq<byte>, n: nat, h: nat)
    requires Good(b, h, h, map[]) && |b| + 3 < 0x8000 && n < 0x8000
    ensures var code := JumpOp(OP_JUMP_FALSE, |b| + 3) + b + JumpOp(OP_JUMP, n);
            Good(code, h, h, map[|b| + 6 + n := h]) && ReturnHeights(code, h) == ReturnHeights(b, h)
  {
    var j1, j2 := JumpOp(OP_JUMP_FALSE, |b| + 3), JumpOp(OP_JUMP, n);
    JumpPiece(OP_JUMP_FALSE, |b| + 3, h);
    JumpPiece(OP_JUMP, n, h);
    Compose(j1, b, h, h, h, map[|b| + 6 := h], map[], map[|b| + 6 := h]);
    Compose(j1 + b, j2, h, h, h, map[|b| + 6 := h], map[3 + n := h], map[|b| + 6 + n := h]);
    assert [] + ReturnHeights(b, h) + [] == ReturnHeights(b, h);
  }

  lemma Guard(b: seq<byte>, n: nat, h: nat) returns (j1: seq<byte>, j2: seq<byte>, g: seq<byte>, out: map<int, int>)
    requires Good(b, h, h, map[]) && |b| + 3 < 0x8000 && n < 0x8000
    ensures j1 == JumpOp(OP_JUMP_FALSE, |b| + 3) && j2 == JumpOp(OP_JUMP, n)
    ensures g == j1 + b + j2 && |g| == |b| + 6 && out == map[|b| + 6 + n := h]
    ensures Good(g, h, h, out) && ReturnHeights(g, h) == ReturnHeights(b, h)
  {
    j1, j2, out := JumpOp(OP_JUMP_FALSE, |b| + 3), JumpOp(OP_JUMP, n), map[|b| + 6 + n := h];
    g := j1 + b + j2;
    GuardShape(b, n, h);
  }

  // a; x y z, which together may leave past c; c.
  lemma PastShape(a: seq<byte>, x: seq<byte>, y: seq<byte>, z: seq<byte>, c: seq<byte>, h: nat)
    requires var g := x + y + z;
             Good(a, h, h, map[]) && Good(g, h, h, map[|g| + |c| := h]) && Good(c, h, h, map[])
    ensures Piece(a + x + y + z + c, h, h, ReturnHeights(a, h) + ReturnHeights(x + y + z, h) + ReturnHeights(c, h))
  {
    var g := x + y + z;
    var n := |a| + |g| + |c|;
    Compose(a, g, h, h, h, map[], map[|g| + |c| := h], map[n := h]);
    Compose(a + g, c, h, h, h, map[n := h], map[], map[]);
    Regroup(a, x, y, z, c);
  }

  // a; b or c.
  lemma ChoiceShape(a: seq<byte>, b: seq<byte>, c: seq<byte>, h: nat) returns (code: seq<byte>)
    requires Good(a, h, h, map[]) && Good(b, h, h, map[]) && Good(c, h, h, map[])
    requires |b| + 3 < 0x8000 && |c| < 0x8000
    ensures code == a + JumpOp(OP_JUMP_FALSE, |b| + 3) + b + JumpOp(OP_JUMP, |c|) + c
    ensures Piece(code, h, h, ReturnHeights(a, h) + ReturnHeights(b, h) + ReturnHeights(c, h))
  {
    var j1, j2, g, out := Guard(b, |c|, h);
    ChoiceJoin(a, j1, b, j2, c, h, g, out);
    code := a + j1 + b + j2 + c;
  }

  lemma ChoiceJoin(a: seq<byte>, j1: seq<byte>, b: seq<byte>, j2: seq<byte>, c: seq<byte>, h: nat,
                   g: seq<byte>, out: map<int, int>)
    requires Good(a, h, h, map[]) && Good(c, h, h, map[])
    requires g == j1 + b + j2 && |g| == |b| + 6 && out == map[|b| + 6 + |c| := h]
    requires Good(g, h, h, out) && ReturnHeights(g, h) == ReturnHeights(b, h)
    ensures Piece(a + j1 + b + j2 + c, h, h, ReturnHeights(a, h) + ReturnHeights(b, h) + ReturnHeights(c, h))
  {
    PastShape(a, j1, b, j2, c, h);
  }

  // ---- Fixed sequences ----

  // An instruction with a literal operand.
  lemma LitPiece(op: byte, v: Value, lits: seq<Value>, h: nat)
    requires Len(op) == 2 && Emittable(op) && op != OP_MAKE_VECTOR && Needs(op, 0) <= h
    ensures Piece(LitOp(op, v, lits).code, h, h + Delta(op, 0), [])
  {
    Single(LitOp(op, v, lits).code, h);
  }

  lemma AccessPiece(local: byte, global: byte, x: Sym, s: Scopes, lits: seq<Value>, h: nat)
    requires (local == OP_A_LOCL && global == OP_A_GLOB) || (local == OP_LOCL_A && global == OP_GLOB_A)
    ensures Piece(Access(local, global, x, s, lits).code, h, h, [])
  {
    Single(Access(local, global, x, s, lits).code, h);
  }

  lemma CallGlobalPiece(x: Sym, lits: seq<Value>, h: nat)
    requires h > 0
    ensures Piece(CallGlobal(x, lits).code, h, h - 1, [])
  {
    LitPiece(OP_A_GLOB, SymVal(x), lits, h);
    Single([OP_APPLY], h);
    Join(LitOp(OP_A_GLOB, SymVal(x), lits).code, [OP_APPLY], h, h, h - 1, [], []);
  }

  lemma PreparePiece(argc: nat, h: nat)
    ensures Piece(PrepareCall(argc), h, h + 1, [])
  {
    Single([OP_VECTOR, B(argc + 1)], h);
    Single([OP_PUSH], h);
    Join([OP_VECTOR, B(argc + 1)], [OP_PUSH], h, h, h + 1, [], []);
    assert [OP_VECTOR, B(argc + 1)] + [OP_PUSH] == PrepareCall(argc);
  }

  lemma AtPutPiece(k: nat, h: nat)
    requires h > 0
    ensures Piece(AtPut(k), h, h, [])
  {
    Single(AtPut(k), h);
  }

  lemma WithFirstPiece(argc: nat, h: nat)
    ensures Piece(PrepareWithFirst(argc), h, h + 1, [])
  {
    var v := [OP_VECTOR, B(argc + 1)];
    Single([OP_PUSH], h);
    Single(v, h + 1);
    Single([OP_SWAP], h + 1);
    AtPutPiece(1, h + 1);
    Join([OP_PUSH], v, h, h + 1, h + 1, [], []);
    Join([OP_PUSH] + v, [OP_SWAP], h, h + 1, h + 1, [], []);
    Join([OP_PUSH] + v + [OP_SWAP], AtPut(1), h, h + 1, h + 1, [], []);
    assert [OP_PUSH] + v + [OP_SWAP] + AtPut(1) == PrepareWithFirst(argc);
  }

  lemma FetchPiece(h: nat)
    requires h > 1
    ensures Piece(FETCH_CALLEE, h, h - 1, [])
  {
    Single([OP_POP], h);
    Single([OP_SWAP], h - 1);
    Join([OP_POP], [OP_SWAP], h, h - 1, h - 1, [], []);
    assert [OP_POP] + [OP_SWAP] == FETCH_CALLEE;
  }

  lemma ClosePiece(m: Method, lits: seq<Value>, h: nat)
    ensures Piece(CloseOver(m, lits).code, h, h, [])
  {
    var l := [OP_A_LITL, B(|lits|)];
    Single(l, h);
    Single([OP_CLOSURE], h);
    Join(l, [OP_CLOSURE], h, h, h, [], []);
    assert l + [OP_CLOSURE] == CloseOver(m, lits).code;
  }

  // ---- Everything the compiler emits ----

  // Where the returns of an expression that starts at height `h` stand: none,
  // or all with nothing pending.
  predicate ReturnsOk(rets: seq<int>, h: int, none: bool, safe: bool) {
    && (forall x | x in rets :: x >= h)
    && (rets == [] <==> none)
    && ((forall x | x in rets :: x == h) <==> safe)
  }

  // Returns of a part that starts higher: harmless only if there are none.
  lemma Lifted(rets: seq<int>, h: int, d: nat, none: bool, safe: bool)
    requires ReturnsOk(rets, h + d, none, safe)
    ensures ReturnsOk(rets, h, none, if d > 0 then none else safe)
  {
    if d > 0 && rets != [] {
      assert rets[0] in rets;
    }
  }

  lemma Both(r1: seq<int>, r2: seq<int>, h: int, n1: bool, s1: bool, n2: bool, s2: bool)
    requires ReturnsOk(r1, h, n1, s1) && ReturnsOk(r2, h, n2, s2)
    ensures ReturnsOk(r1 + r2, h, n1 && n2, s1 && s2)
  {
    forall x | x in r1 || x in r2
      ensures x in r1 + r2
    {
    }
  }

  // Code that leaves the stack as high as it was, returns as described.
  predicate Level(code: seq<byte>, h: int, none: bool, safe: bool) {
    Good(code, h, h, map[]) && ReturnsOk(ReturnHeights(code, h), h, none, safe)
  }

  // For every expression and every starting height: all jumps land on
  // instruction starts of equal height inside the code, nothing below the
  // starting height is popped, the code falls through at the height it
  // started with, and its returns stand at that height exactly when every
  // `return` is where nothing is pending.
  lemma {:induction false} EmittedLevel(e: Expr, s: Scopes, lits: seq<Value>, h: nat)
    requires |Emit(e, s, lits).code| < MAX_CODE && VectorsFit(e)
    ensures Level(Emit(e, s, lits).code, h, NoReturn(e), ReturnSafe(e, s == []))
    decreases e, 2
  {
    assert Emit(e, s, lits) == EmitForm(e, s, lits);
    assert ReturnSafe(e, s == []) == ReturnSafeForm(e, s == []);
    match e
    case Lit(v) => LitPiece(OP_A_LITL, v, lits, h);
    case This => Single([OP_A_SELF], h);
    case Var(x) => AccessPiece(OP_A_LOCL, OP_A_GLOB, x, s, lits, h);
    case One(_, _) => OneLevel(e, s, lits, h);
    case Two(_, _, _) => TwoLevel(e, s, lits, h);
    case Three(_, _, _, _) => ThreeLevel(e, s, lits, h);
    case Many(k, es) => ManyLevel(k, es, s, lits, h);
    case Headed(_, _, _) => HeadedLevel(e, s, lits, h);
    case Fun(_, _) => FunLevel(e, s, lits, h);
  }

  lemma {:induction false} OneLevel(e: Expr, s: Scopes, lits: seq<Value>, h: nat)
    requires e.One? && |EmitOne(e, s, lits).code| < MAX_CODE && VectorsFit(e)
    ensures Level(EmitOne(e, s, lits).code, h, NoReturn(e), ReturnSafeForm(e, s == []))
    decreases e, 1
  {
    var k, r := e.k1, Emit(e.a, Before1(e.k1, s), lits);
    var pre, post := Pre1(k, s), Post1(k, s, After(e, s), r.lits);
    var m := if k.Define? && s == [] then h + 1 else h;
    PrePiece(k, s, h);
    EmittedLevel(e.a, Before1(k, s), lits, m);
    PostPiece(k, s, After(e, s), r.lits, m);
    var rets, last := ReturnHeights(r.code, m), if k.Return? then [h] else [];
    Join(pre, r.code, h, m, m, [], rets);
    Join(pre + r.code, post.code, h, m, h, [] + rets, last);
    assert [] + rets == rets;
    var safe := ReturnSafe(e.a, s == []);
    Lifted(rets, h, m - h, NoReturn(e.a), safe);
    Both(rets, last, h, NoReturn(e.a), if m > h then NoReturn(e.a) else safe, !k.Return?, true);
  }

  lemma PrePiece(k: Form1, s: Scopes, h: nat)
    ensures Piece(Pre1(k, s), h, if k.Define? && s == [] then h + 1 else h, [])
  {
    Nothing(h);
    PreparePiece(2, h);
  }

  lemma Nothing(h: int)
    ensures Piece([], h, h, [])
  {
    Unfold([], 0, h);
    AllOkIntro([], h, map[], 0, h);
  }

  lemma PostPiece(k: Form1, s: Scopes, t: Scopes, lits: seq<Value>, m: nat)
    requires k.Define? && s == [] ==> m > 0
    ensures Piece(Post1(k, s, t, lits).code, m,
                  if k.Define? && s == [] then m - 1 else m, if k.Return? then [m] else [])
  {
    match k
    case Assign(x) => AccessPiece(OP_LOCL_A, OP_GLOB_A, x, t, lits, m);
    case Unary(op) => Single([op], m);
    case MethodRef(x) => LitPiece(OP_METHOD_CLOSURE, SymVal(x), lits, m);
    case SlotGet(x) => LitPiece(OP_A_SLOT, SymVal(x), lits, m);
    case Return => ReturnPiece(m);
    case Define(x) =>
      if s == [] {
        var n := LitOp(OP_A_LITL, SymVal(x), lits);
        NamedPiece(2, x, 1, lits, m);
        CallGlobalPiece("define-global", n.lits, m);
        Join(AtPut(2) + n.code + AtPut(1), CallGlobal("define-global", n.lits).code, m, m, m - 1, [], []);
      } else {
        Single([OP_LOCL_A, B(0), B(Find(Declare(s, x)[0], x).value)], m);
      }
  }

  // A name stored between two other arguments.
  lemma NamedPiece(i: nat, x: Sym, j: nat, lits: seq<Value>, h: nat)
    requires h > 0
    ensures Piece(AtPut(i) + LitOp(OP_A_LITL, SymVal(x), lits).code + AtPut(j), h, h, [])
  {
    var n := LitOp(OP_A_LITL, SymVal(x), lits).code;
    AtPutPiece(i, h);
    LitPiece(OP_A_LITL, SymVal(x), lits, h);
    AtPutPiece(j, h);
    Join(AtPut(i), n, h, h, h, [], []);
    Join(AtPut(i) + n, AtPut(j), h, h, h, [], []);
  }

  lemma {:induction false} TwoLevel(e: Expr, s: Scopes, lits: seq<Value>, h: nat)
    requires e.Two? && |EmitTwo(e, s, lits).code| < MAX_CODE && VectorsFit(e)
    ensures Level(EmitTwo(e, s, lits).code, h, NoReturn(e), ReturnSafeForm(e, s == []))
    decreases e, 1
  {
    if IsAccess(e.k2) {
      AccessLevel(e, s, lits, h);
    } else if e.k2.Binary? {
      BinaryLevel(e, s, lits, h);
    } else {
      JumpingLevel(e, s, lits, h);
    }
  }

  lemma {:induction false} BinaryLevel(e: Expr, s: Scopes, lits: seq<Value>, h: nat)
    requires e.Two? && e.k2.Binary? && |EmitBinary(e, s, lits).code| < MAX_CODE && VectorsFit(e)
    ensures Level(EmitBinary(e, s, lits).code, h, NoReturn(e), ReturnSafeForm(e, s == []))
    decreases e, 0
  {
    var r1 := Emit(e.a, s, lits);
    var r2 := Emit(e.b, After(e.a, s), r1.lits);
    EmittedLevel(e.a, s, lits, h);
    EmittedLevel(e.b, After(e.a, s), r1.lits, h + 1);
    Lifted(ReturnHeights(r2.code, h + 1), h, 1, NoReturn(e.b), ReturnSafe(e.b, s == []));
    Both(ReturnHeights(r1.code, h), ReturnHeights(r2.code, h + 1), h, NoReturn(e.a), ReturnSafe(e.a, s == []),
         NoReturn(e.b), NoReturn(e.b));
    BinaryShape(r1.code, e.k2.op, r2.code, h);
  }

  // Loops and short-circuit operators: both parts start at the same height.
  lemma {:induction false} JumpingLevel(e: Expr, s: Scopes, lits: seq<Value>, h: nat)
    requires e.Two? && !IsAccess(e.k2) && !e.k2.Binary? && |EmitTwo(e, s, lits).code| < MAX_CODE && VectorsFit(e)
    ensures Level(EmitTwo(e, s, lits).code, h, NoReturn(e), ReturnSafeForm(e, s == []))
    decreases e, 0
  {
    var r1 := Emit(e.a, s, lits);
    var r2 := Emit(e.b, After(e.a, s), r1.lits);
    EmittedLevel(e.a, s, lits, h);
    EmittedLevel(e.b, After(e.a, s), r1.lits, h);
    Both(ReturnHeights(r1.code, h), ReturnHeights(r2.code, h), h, NoReturn(e.a), ReturnSafe(e.a, s == []),
         NoReturn(e.b), ReturnSafe(e.b, s == []));
    if e.k2.While? {
      var code := LoopShape(r1.code, r2.code, h);
    } else {
      ShortShape(r1.code, ShortOp(e.k2), r2.code, h);
    }
  }

  lemma {:induction false} AccessLevel(e: Expr, s: Scopes, lits: seq<Value>, h: nat)
    requires e.Two? && IsAccess(e.k2) && |EmitAccess(e, s, lits).code| < MAX_CODE && VectorsFit(e)
    ensures Level(EmitAccess(e, s, lits).code, h, NoReturn(e), ReturnSafeForm(e, s == []))
    decreases e, 0
  {
    var k, d := e.k2, if e.k2.DefSlot? then 1 else 0;
    var r1 := Emit(e.a, s, lits);
    var mid := Mid2(k, r1.lits);
    var r2 := Emit(e.b, After(e.a, s), mid.lits);
    var post := Post2(k, r2.lits);
    EmittedLevel(e.a, s, lits, h + d);
    EmittedLevel(e.b, After(e.a, s), mid.lits, h + 1);
    var ra, rb := ReturnHeights(r1.code, h + d), ReturnHeights(r2.code, h + 1);
    AccessPieces(k, r1.lits, r2.lits, h);
    AccessJoined(Pre2(k), r1.code, mid.code, r2.code, post.code, h, h + d, ra, rb);
    AccessReturns(e, s == [], h, ra, rb);
  }

  lemma AccessJoined(pre: seq<byte>, a: seq<byte>, mid: seq<byte>, b: seq<byte>, post: seq<byte>, h: nat, m: nat,
                     ra: seq<int>, rb: seq<int>)
    requires Piece(pre, h, m, []) && Piece(a, m, m, ra) && Piece(mid, m, h + 1, [])
    requires Piece(b, h + 1, h + 1, rb) && Piece(post, h + 1, h, [])
    ensures Piece(pre + a + mid + b + post, h, h, ra + rb)
  {
    Join(pre, a, h, m, m, [], ra);
    assert [] + ra == ra;
    JoinPlain(pre + a, mid, h, m, h + 1, ra);
    Join(pre + a + mid, b, h, h + 1, h + 1, ra, rb);
    JoinPlain(pre + a + mid + b, post, h, h + 1, h, ra + rb);
  }

  lemma AccessReturns(e: Expr, top: bool, h: nat, ra: seq<int>, rb: seq<int>)
    requires e.Two? && IsAccess(e.k2)
    requires ReturnsOk(ra, if e.k2.DefSlot? then h + 1 else h, NoReturn(e.a), ReturnSafe(e.a, top))
    requires ReturnsOk(rb, h + 1, NoReturn(e.b), ReturnSafe(e.b, top))
    ensures ReturnsOk(ra + rb, h, NoReturn(e), ReturnSafeForm(e, top))
  {
    var d := if e.k2.DefSlot? then 1 else 0;
    var sa := if d > 0 then NoReturn(e.a) else ReturnSafe(e.a, top);
    Lifted(ra, h, d, NoReturn(e.a), ReturnSafe(e.a, top));
    Lifted(rb, h, 1, NoReturn(e.b), ReturnSafe(e.b, top));
    Both(ra, rb, h, NoReturn(e.a), sa, NoReturn(e.b), NoReturn(e.b));
  }

  lemma AccessPieces(k: Form2, l1: seq<Value>, l2: seq<Value>, h: nat)
    requires IsAccess(k)
    ensures var d := if k.DefSlot? then 1 else 0;
            && Piece(Pre2(k), h, h + d, [])
            && Piece(Mid2(k, l1).code, h + d, h + 1, [])
            && Piece(Post2(k, l2).code, h + 1, h, [])
  {
    Nothing(h);
    match k
    case SlotSet(x) =>
      Single([OP_PUSH], h);
      LitPiece(OP_SLOT_A, SymVal(x), l2, h + 1);
    case Index =>
      WithFirstPiece(2, h);
      LastPiece(2, "element-ref", l2, h + 1);
    case DefSlot(x) =>
      PreparePiece(3, h);
      NamedPiece(1, x, 2, l1, h + 1);
      LastPiece(3, "add-slot", l2, h + 1);
  }

  // The last argument is stored and a global applied.
  lemma LastPiece(k: nat, x: Sym, lits: seq<Value>, h: nat)
    requires h > 0
    ensures Piece(AtPut(k) + CallGlobal(x, lits).code, h, h - 1, [])
  {
    AtPutPiece(k, h);
    CallGlobalPiece(x, lits, h);
    Join(AtPut(k), CallGlobal(x, lits).code, h, h, h - 1, [], []);
  }

  lemma {:induction false} ThreeLevel(e: Expr, s: Scopes, lits: seq<Value>, h: nat)
    requires e.Three? && |EmitThree(e, s, lits).code| < MAX_CODE && VectorsFit(e)
    ensures Level(EmitThree(e, s, lits).code, h, NoReturn(e), ReturnSafeForm(e, s == []))
    decreases e, 1
  {
    var r1 := Emit(e.a, s, lits);
    var r2 := Emit(e.b, After(e.a, s), r1.lits);
    var r3 := Emit(e.c, After(e.b, After(e.a, s)), r2.lits);
    var d := if e.k3.If? then 0 else 1;
    EmittedLevel(e.a, s, lits, h);
    EmittedLevel(e.b, After(e.a, s), r1.lits, h + d);
    EmittedLevel(e.c, After(e.b, After(e.a, s)), r2.lits, h + d);
    var ra, rb, rc := ReturnHeights(r1.code, h), ReturnHeights(r2.code, h + d), ReturnHeights(r3.code, h + d);
    if e.k3.If? {
      var code := ChoiceShape(r1.code, r2.code, r3.code, h);
      var c := r1.code + First3(If, |r2.code|) + r2.code + Second3(If, |r3.code|) + r3.code;
      assert c + [] == c;
    } else {
      ElementSetShape(r1.code, r2.code, r3.code, r3.lits, h);
    }
    ThreeReturns(e, s == [], h, ra, rb, rc);
  }

  lemma ThreeReturns(e: Expr, top: bool, h: nat, ra: seq<int>, rb: seq<int>, rc: seq<int>)
    requires e.Three?
    requires ReturnsOk(ra, h, NoReturn(e.a), ReturnSafe(e.a, top))
    requires var d := if e.k3.If? then 0 else 1;
             ReturnsOk(rb, h + d, NoReturn(e.b), ReturnSafe(e.b, top))
               && ReturnsOk(rc, h + d, NoReturn(e.c), ReturnSafe(e.c, top))
    ensures ReturnsOk(ra + rb + rc, h, NoReturn(e), ReturnSafeForm(e, top))
  {
    var d := if e.k3.If? then 0 else 1;
    var sa := ReturnSafe(e.a, top);
    var sb := if d > 0 then NoReturn(e.b) else ReturnSafe(e.b, top);
    var sc := if d > 0 then NoReturn(e.c) else ReturnSafe(e.c, top);
    Lifted(rb, h, d, NoReturn(e.b), ReturnSafe(e.b, top));
    Lifted(rc, h, d, NoReturn(e.c), ReturnSafe(e.c, top));
    Both(ra, rb, h, NoReturn(e.a), sa, NoReturn(e.b), sb);
    Both(ra + rb, rc, h, NoReturn(e.a) && NoReturn(e.b), sa && sb, NoReturn(e.c), sc);
  }

  lemma ElementSetShape(a: seq<byte>, b: seq<byte>, c: seq<byte>, lits: seq<Value>, h: nat)
    requires Good(a, h, h, map[]) && Good(b, h + 1, h + 1, map[]) && Good(c, h + 1, h + 1, map[])
    ensures Piece(a + PrepareWithFirst(3) + b + AtPut(2) + c + Post3(IndexSet, lits).code, h, h,
                  ReturnHeights(a, h) + ReturnHeights(b, h + 1) + ReturnHeights(c, h + 1))
  {
    var ra, rb, rc := ReturnHeights(a, h), ReturnHeights(b, h + 1), ReturnHeights(c, h + 1);
    var p := PrepareWithFirst(3);
    WithFirstPiece(3, h);
    AtPutPiece(2, h + 1);
    LastPiece(3, "element-set", lits, h + 1);
    JoinPlain(a, p, h, h, h + 1, ra);
    Join(a + p, b, h, h + 1, h + 1, ra, rb);
    JoinPlain(a + p + b, AtPut(2), h, h + 1, h + 1, ra + rb);
    Join(a + p + b + AtPut(2), c, h, h + 1, h + 1, ra + rb, rc);
    JoinPlain(a + p + b + AtPut(2) + c, Post3(IndexSet, lits).code, h, h + 1, h, ra + rb + rc);
  }

  lemma {:induction false} ManyLevel(k: FormN, es: Exprs, s: Scopes, lits: seq<Value>, h: nat)
    requires |EmitMany(k, es, s, lits).code| < MAX_CODE && VectorsFit(Many(k, es))
    ensures Level(EmitMany(k, es, s, lits).code, h, NoReturn(Many(k, es)), ReturnSafeForm(Many(k, es), s == []))
    decreases es, 3
  {
    match k
    case Block => BlockLevel(es, s, lits, h);
    case VecLit => VectorLevel(es, s, lits, h);
    case Call(x) => CallLevel(x, es, s, lits, h);
  }

  lemma {:induction false} BlockLevel(es: Exprs, s: Scopes, lits: seq<Value>, h: nat)
    requires |EmitMany(Block, es, s, lits).code| < MAX_CODE && AllVectorsFit(es)
    ensures Level(EmitMany(Block, es, s, lits).code, h, NoReturns(es), ReturnsSafe(es))
    decreases es, 2
  {
    if es.Nil? {
      LitPiece(OP_A_LITL, UNDEFINED, lits, h);
    } else {
      var open := [OP_ENTER_SCOPE, B(|BlockNames(es, s)|)];
      var r := EmitAll(es, [[]] + s, lits);
      SequenceLevel(es, [[]] + s, lits, h);
      Single(open, h);
      Single([OP_LEAVE_SCOPE], h);
      var rets := ReturnHeights(r.code, h);
      Join(open, r.code, h, h, h, [], rets);
      Join(open + r.code, [OP_LEAVE_SCOPE], h, h, h, [] + rets, []);
      assert [] + rets + [] == rets;
    }
  }

  lemma {:induction false} SequenceLevel(es: Exprs, s: Scopes, lits: seq<Value>, h: nat)
    requires |EmitAll(es, s, lits).code| < MAX_CODE && AllVectorsFit(es) && s != []
    ensures Level(EmitAll(es, s, lits).code, h, NoReturns(es), ReturnsSafe(es))
    decreases es, 0
  {
    Nothing(h);
    if es.Cons? {
      var r1 := Emit(es.head, s, lits);
      var r2 := EmitAll(es.tail, After(es.head, s), r1.lits);
      EmittedLevel(es.head, s, lits, h);
      SequenceLevel(es.tail, After(es.head, s), r1.lits, h);
      Join(r1.code, r2.code, h, h, h, ReturnHeights(r1.code, h), ReturnHeights(r2.code, h));
      Both(ReturnHeights(r1.code, h), ReturnHeights(r2.code, h), h, NoReturn(es.head), ReturnSafe(es.head, false),
           NoReturns(es.tail), ReturnsSafe(es.tail));
    }
  }

  lemma {:induction false} VectorLevel(es: Exprs, s: Scopes, lits: seq<Value>, h: nat)
    requires |EmitMany(VecLit, es, s, lits).code| < MAX_CODE && AllVectorsFit(es) && Count(es) < 256
    ensures Level(EmitMany(VecLit, es, s, lits).code, h, NoReturns(es),
                  es.Nil? || (ReturnSafe(es.head, s == []) && NoReturns(es.tail)))
    decreases es, 2
  {
    if es.Nil? {
      LitPiece(OP_A_LITL, Ref(ZERO_VECTOR), lits, h);
    } else {
      var r := EmitPushed(es, s, lits);
      var make := [OP_MAKE_VECTOR, B(Count(es))];
      PushedLevel(es, s, lits, h);
      Single(make, h + Count(es));
      Join(r.code, make, h, h + Count(es), h, ReturnHeights(r.code, h), []);
      assert ReturnHeights(r.code, h) + [] == ReturnHeights(r.code, h);
    }
  }

  // Each element stays on the stack while the next is evaluated.
  lemma {:induction false} PushedLevel(es: Exprs, s: Scopes, lits: seq<Value>, h: nat)
    requires |EmitPushed(es, s, lits).code| < MAX_CODE && AllVectorsFit(es)
    ensures Good(EmitPushed(es, s, lits).code, h, h + Count(es), map[])
    ensures ReturnsOk(ReturnHeights(EmitPushed(es, s, lits).code, h), h, NoReturns(es),
                      es.Nil? || (ReturnSafe(es.head, s == []) && NoReturns(es.tail)))
    decreases es, 0
  {
    Nothing(h);
    if es.Cons? {
      var r1 := Emit(es.head, s, lits);
      var r2 := EmitPushed(es.tail, After(es.head, s), r1.lits);
      EmittedLevel(es.head, s, lits, h);
      PushedLevel(es.tail, After(es.head, s), r1.lits, h + 1);
      Single([OP_PUSH], h);
      var ra, rb := ReturnHeights(r1.code, h), ReturnHeights(r2.code, h + 1);
      Join(r1.code, [OP_PUSH], h, h, h + 1, ra, []);
      Join(r1.code + [OP_PUSH], r2.code, h, h + 1, h + Count(es), ra + [], rb);
      assert ra + [] + rb == ra + rb;
      PushedReturns(es, s == [], h, ra, rb,
                    es.tail.Nil? || (ReturnSafe(es.tail.head, s == []) && NoReturns(es.tail.tail)));
    }
  }

  lemma PushedReturns(es: Exprs, top: bool, h: nat, ra: seq<int>, rb: seq<int>, safe: bool)
    requires es.Cons? && ReturnsOk(ra, h, NoReturn(es.head), ReturnSafe(es.head, top))
    requires ReturnsOk(rb, h + 1, NoReturns(es.tail), safe)
    ensures ReturnsOk(ra + rb, h, NoReturns(es), ReturnSafe(es.head, top) && NoReturns(es.tail))
  {
    Lifted(rb, h, 1, NoReturns(es.tail), safe);
    Both(ra, rb, h, NoReturn(es.head), ReturnSafe(es.head, top), NoReturns(es.tail), NoReturns(es.tail));
  }

  // Arguments are evaluated above their vector.
  lemma {:induction false} ArgumentsLevel(es: Exprs, k: nat, s: Scopes, lits: seq<Value>, base: nat, h: nat)
    requires |EmitArgs(es, k, s, lits).code| < MAX_CODE && AllVectorsFit(es) && base < h
    ensures Good(EmitArgs(es, k, s, lits).code, h, h, map[])
    ensures ReturnsOk(ReturnHeights(EmitArgs(es, k, s, lits).code, h), base, NoReturns(es), NoReturns(es))
    decreases es, 0
  {
    Nothing(h);
    if es.Cons? {
      var r1 := Emit(es.head, s, lits);
      var r2 := EmitArgs(es.tail, k + 1, After(es.head, s), r1.lits);
      EmittedLevel(es.head, s, lits, h);
      ArgumentsLevel(es.tail, k + 1, After(es.head, s), r1.lits, base, h);
      AtPutPiece(k, h);
      var ra, rb := ReturnHeights(r1.code, h), ReturnHeights(r2.code, h);
      Join(r1.code, AtPut(k), h, h, h, ra, []);
      Join(r1.code + AtPut(k), r2.code, h, h, h, ra + [], rb);
      assert ra + [] + rb == ra + rb;
      Lifted(ra, base, h - base, NoReturn(es.head), ReturnSafe(es.head, s == []));
      Both(ra, rb, base, NoReturn(es.head), NoReturn(es.head), NoReturns(es.tail), NoReturns(es.tail));
    }
  }

  lemma {:induction false} CallLevel(x: Sym, es: Exprs, s: Scopes, lits: seq<Value>, h: nat)
    requires |EmitMany(Call(x), es, s, lits).code| < MAX_CODE && AllVectorsFit(es)
    ensures Level(EmitMany(Call(x), es, s, lits).code, h, NoReturns(es), NoReturns(es))
    decreases es, 2
  {
    var p, r1 := PrepareCall(Count(es)), EmitArgs(es, 1, s, lits);
    var r2 := VarRef(x, AfterAll(es, s), r1.lits);
    PreparePiece(Count(es), h);
    ArgumentsLevel(es, 1, s, lits, h, h + 1);
    AccessPiece(OP_A_LOCL, OP_A_GLOB, x, AfterAll(es, s), r1.lits, h + 1);
    Single([OP_APPLY], h + 1);
    var rets := ReturnHeights(r1.code, h + 1);
    Join(p, r1.code, h, h + 1, h + 1, [], rets);
    Join(p + r1.code, r2.code, h, h + 1, h + 1, [] + rets, []);
    Join(p + r1.code + r2.code, [OP_APPLY], h, h + 1, h, [] + rets + [], []);
    assert [] + rets + [] + [] == rets;
  }

  lemma {:induction false} HeadedLevel(e: Expr, s: Scopes, lits: seq<Value>, h: nat)
    requires e.Headed? && |EmitHeaded(e, s, lits).code| < MAX_CODE && VectorsFit(e)
    ensures Level(EmitHeaded(e, s, lits).code, h, NoReturn(e), ReturnSafeForm(e, s == []))
    decreases e, 1
  {
    var r1 := Emit(e.a, s, lits);
    var r2 := EmitArgs(e.es, 1, After(e.a, s), r1.lits);
    var post := PostH(e.kh, r2.lits);
    EmittedLevel(e.a, s, lits, h);
    ArgumentsLevel(e.es, 1, After(e.a, s), r1.lits, h, h + 2);
    FinishPiece(e.kh, r2.lits, h);
    HeadedShape(r1.code, Count(e.es), r2.code, post.code, h);
    Both(ReturnHeights(r1.code, h), ReturnHeights(r2.code, h + 2), h, NoReturn(e.a), ReturnSafe(e.a, s == []),
         NoReturns(e.es), NoReturns(e.es));
  }

  lemma FinishPiece(k: FormH, lits: seq<Value>, h: nat)
    ensures Piece(PostH(k, lits).code, h + 2, h, [])
  {
    FetchPiece(h + 2);
    match k
    case Apply =>
      Single([OP_APPLY], h + 1);
      Join(FETCH_CALLEE, [OP_APPLY], h + 2, h + 1, h, [], []);
    case Send(x, asSelf) =>
      var op := if asSelf then OP_CALL_AS else OP_CALL;
      LitPiece(op, SymVal(x), lits, h + 1);
      Join(FETCH_CALLEE, LitOp(op, SymVal(x), lits).code, h + 2, h + 1, h, [], []);
  }

  lemma HeadedShape(a: seq<byte>, argc: nat, b: seq<byte>, post: seq<byte>, h: nat)
    requires Good(a, h, h, map[]) && Good(b, h + 2, h + 2, map[]) && Piece(post, h + 2, h, [])
    ensures Piece(a + [OP_PUSH] + PrepareCall(argc) + b + post, h, h, ReturnHeights(a, h) + ReturnHeights(b, h + 2))
  {
    var ra, rb, p := ReturnHeights(a, h), ReturnHeights(b, h + 2), PrepareCall(argc);
    Single([OP_PUSH], h);
    PreparePiece(argc, h + 1);
    Join(a, [OP_PUSH], h, h, h + 1, ra, []);
    Join(a + [OP_PUSH], p, h, h + 1, h + 2, ra + [], []);
    Join(a + [OP_PUSH] + p, b, h, h + 2, h + 2, ra + [] + [], rb);
    Join(a + [OP_PUSH] + p + b, post, h, h + 2, h, ra + [] + [] + rb, []);
    assert ra + [] + [] + rb + [] == ra + rb;
  }

  lemma {:induction false} FunLevel(e: Expr, s: Scopes, lits: seq<Value>, h: nat)
    requires e.Fun? && |EmitFun(e, s, lits).code| < MAX_CODE && VectorsFit(e)
    ensures Level(EmitFun(e, s, lits).code, h, NoReturn(e), ReturnSafeForm(e, s == []))
    decreases e, 1
  {
    match e.kf
    case Lambda(params) => ClosePiece(EmitTemplate(params, e.b, s), lits, h);
    case BindCC(x) =>
      var p, r := PrepareCall(1), CloseOver(EmitTemplate([x], e.b, s), lits);
      PreparePiece(1, h);
      ClosePiece(EmitTemplate([x], e.b, s), lits, h + 1);
      AtPutPiece(1, h + 1);
      CallGlobalPiece("call/cc", r.lits, h + 1);
      Join(p, r.code, h, h + 1, h + 1, [], []);
      Join(p + r.code, AtPut(1), h, h + 1, h + 1, [], []);
      Join(p + r.code + AtPut(1), CallGlobal("call/cc", r.lits).code, h, h + 1, h, [], []);
    case DefMethod(_, _, _) => MethodLevel(e, s, lits, h);
  }

  lemma {:induction false} MethodLevel(e: Expr, s: Scopes, lits: seq<Value>, h: nat)
    requires e.Fun? && e.kf.DefMethod? && |EmitFun(e, s, lits).code| < MAX_CODE && VectorsFit(e)
    ensures Level(EmitFun(e, s, lits).code, h, NoReturn(e), NoReturn(e.kf.a))
    decreases e, 0
  {
    var r1 := Emit(e.kf.a, s, lits);
    var r2 := LitOp(OP_A_LITL, SymVal(e.kf.x), r1.lits);
    var m := EmitTemplate(e.kf.params, e.b, After(e.kf.a, s));
    var r3 := CloseOver(m, r2.lits);
    var r4 := CallGlobal("add-method", r3.lits);
    EmittedLevel(e.kf.a, s, lits, h + 1);
    ClosePiece(m, r2.lits, h + 1);
    LitPiece(OP_A_LITL, SymVal(e.kf.x), r1.lits, h + 1);
    CallGlobalPiece("add-method", r3.lits, h + 1);
    Lifted(ReturnHeights(r1.code, h + 1), h, 1, NoReturn(e.kf.a), ReturnSafe(e.kf.a, s == []));
    MethodShape(r1.code, r2.code, r3.code, r4.code, h);
  }

  lemma MethodShape(a: seq<byte>, b: seq<byte>, c: seq<byte>, d: seq<byte>, h: nat)
    requires Good(a, h + 1, h + 1, map[]) && Piece(b, h + 1, h + 1, []) && Piece(c, h + 1, h + 1, [])
             && Piece(d, h + 1, h, [])
    ensures Piece(PrepareCall(3) + a + AtPut(1) + b + AtPut(2) + c + AtPut(3) + d, h, h, ReturnHeights(a, h + 1))
  {
    var p, r := PrepareCall(3), ReturnHeights(a, h + 1);
    PreparePiece(3, h);
    AtPutPiece(1, h + 1);
    AtPutPiece(2, h + 1);
    AtPutPiece(3, h + 1);
    JoinAfter(p, a, h, h + 1, h + 1, r);
    JoinPlain(p + a, AtPut(1), h, h + 1, h + 1, r);
    JoinPlain(p + a + AtPut(1), b, h, h + 1, h + 1, r);
    JoinPlain(p + a + AtPut(1) + b, AtPut(2), h, h + 1, h + 1, r);
    JoinPlain(p + a + AtPut(1) + b + AtPut(2), c, h, h + 1, h + 1, r);
    JoinPlain(p + a + AtPut(1) + b + AtPut(2) + c, AtPut(3), h, h + 1, h + 1, r);
    JoinPlain(p + a + AtPut(1) + b + AtPut(2) + c + AtPut(3), d, h, h + 1, h, r);
  }

  lemma BinaryShape(a: seq<byte>, op: BinaryOp, b: seq<byte>, h: nat)
    requires Good(a, h, h, map[]) && Good(b, h + 1, h + 1, map[])
    ensures Piece(a + [OP_PUSH] + b + [op], h, h, ReturnHeights(a, h) + ReturnHeights(b, h + 1))
  {
    var ra, rb := ReturnHeights(a, h), ReturnHeights(b, h + 1);
    Single([OP_PUSH], h);
    Single([op], h + 1);
    Join(a, [OP_PUSH], h, h, h + 1, ra, []);
    Join(a + [OP_PUSH], b, h, h + 1, h + 1, ra + [], rb);
    Join(a + [OP_PUSH] + b, [op], h, h + 1, h, ra + [] + rb, []);
    assert ra + [] + rb + [] == ra + rb;
  }
}
