// The compiler itself: one pass over an expression, appending to a growing
// byte buffer and patching operands and jump distances once they are known.
module Compiler {
  import opened Bytes
  import opened Values
  import opened Machine
  import opened Syntax
  import opened Scoping
  import opened Emission
  import opened Limits

  // ---- The code buffer ----

  class Buffer {
    var text: array<byte>
    var pos: nat
    ghost var contents: seq<byte>

    ghost predicate Valid()
      reads this, text
    {
      && |contents| == pos <= text.Length
      && forall i {:trigger text[i]} | 0 <= i < pos :: text[i] == contents[i]
    }

    constructor (length: nat)
      ensures Valid() && contents == [] && fresh(text)
    {
      text := new byte[length];
      pos := 0;
      contents := [];
    }

    method Append(ch: byte)
      requires Valid()
      modifies this, text
      ensures Valid() && contents == old(contents) + [ch]
      ensures text == old(text) || fresh(text)
    {
      if pos >= text.Length {
        var longer := new byte[text.Length + 128];
        forall i | 0 <= i < text.Length {
          longer[i] := text[i];
        }
        text := longer;
      }
      text[pos] := ch;
      pos := pos + 1;
      contents := contents + [ch];
    }

    method Bytes() returns (bs: seq<byte>)
      requires Valid()
      ensures bs == contents
    {
      bs := text[..pos];
    }

    method Patch(o: nat, ch: byte)
      requires Valid() && o < pos
      modifies `contents, text
      ensures Valid() && contents == old(contents)[o := ch]
    {
      text[o] := ch;
      contents := contents[o := ch];
    }
  }

  // ---- What the compiler rejects, and what it silently gets wrong ----

  // No block, here or in a function body, binds more than 255 names.
  predicate Compiles(e: Expr, s: Scopes)
    decreases e, 1
  {
    CompilesForm(e, s)
  }

  predicate CompilesForm(e: Expr, s: Scopes)
    decreases e, 0
  {
    match e
    case Lit(_) => true
    case This => true
    case Var(_) => true
    case One(k, a) => Compiles(a, Before1(k, s))
    case Two(_, a, b) => Compiles(a, s) && Compiles(b, After(a, s))
    case Three(_, a, b, c) => Compiles(a, s) && Compiles(b, After(a, s)) && Compiles(c, After(b, After(a, s)))
    case Many(k, es) =>
      if k.Block? then CompileAll(es, [[]] + s) && (es.Nil? || |BlockNames(es, s)| <= 255) else CompileAll(es, s)
    case Headed(_, a, es) => Compiles(a, s) && CompileAll(es, After(a, s))
    case Fun(k, b) => (k.DefMethod? ==> Compiles(k.a, s)) && Compiles(b, [Params(k)] + After(e, s))
  }

  predicate CompileAll(es: Exprs, s: Scopes)
    decreases es, 0
  {
    match es
    case Nil => true
    case Cons(e, tl) => Compiles(e, s) && CompileAll(tl, After(e, s))
  }

  // Every function body inside fits the sixteen bits in which positions to be
  // patched are kept.
  predicate Short(e: Expr, s: Scopes)
    decreases e, 1
  {
    ShortForm(e, s)
  }

  predicate ShortForm(e: Expr, s: Scopes)
    decreases e, 0
  {
    match e
    case Lit(_) => true
    case This => true
    case Var(_) => true
    case One(k, a) => Short(a, Before1(k, s))
    case Two(_, a, b) => Short(a, s) && Short(b, After(a, s))
    case Three(_, a, b, c) => Short(a, s) && Short(b, After(a, s)) && Short(c, After(b, After(a, s)))
    case Many(k, es) => ShortAll(es, if k.Block? then [[]] + s else s)
    case Headed(_, a, es) => Short(a, s) && ShortAll(es, After(a, s))
    case Fun(k, b) => (k.DefMethod? ==> Short(k.a, s)) && ShortBody(Params(k), b, After(e, s))
  }

  predicate ShortBody(params: seq<Sym>, b: Expr, s: Scopes)
    decreases b, 2
  {
    |Emit(b, [params] + s, []).code| <= P16 && Short(b, [params] + s)
  }

  predicate ShortAll(es: Exprs, s: Scopes)
    decreases es, 0
  {
    match es
    case Nil => true
    case Cons(e, tl) => Short(e, s) && ShortAll(tl, After(e, s))
  }

  // ---- The compiler ----

  // What has been appended to `t` so far, one piece more.
  ghost function Joined(t: seq<byte>, c: seq<byte>, d: seq<byte>): (r: seq<byte>)
    ensures r == c + d && t + r == t + c + d
  {
    c + d
  }

  lemma ArgsAdvance(t: seq<byte>, es: Exprs, k: nat, s: Scopes, lits: seq<Value>, whole: seq<byte>)
    requires es.Cons? && t + EmitArgs(es, k, s, lits).code == whole
    ensures var r := Emit(es.head, s, lits);
            var more := EmitArgs(es.tail, k + 1, After(es.head, s), r.lits);
            t + r.code + AtPut(k) + more.code == whole && more.lits == EmitArgs(es, k, s, lits).lits
  {
    var r := Emit(es.head, s, lits);
    var more := EmitArgs(es.tail, k + 1, After(es.head, s), r.lits);
    LongJoined(t, r.code, AtPut(k), more.code);
  }

  lemma PushedAdvance(t: seq<byte>, es: Exprs, s: Scopes, lits: seq<Value>, whole: seq<byte>)
    requires es.Cons? && t + EmitPushed(es, s, lits).code == whole
    ensures var r := Emit(es.head, s, lits);
            var more := EmitPushed(es.tail, After(es.head, s), r.lits);
            t + r.code + [OP_PUSH] + more.code == whole && more.lits == EmitPushed(es, s, lits).lits
  {
    var r := Emit(es.head, s, lits);
    LongJoined(t, r.code, [OP_PUSH], EmitPushed(es.tail, After(es.head, s), r.lits).code);
  }

  lemma LongJoined(t: seq<byte>, a: seq<byte>, b: seq<byte>, c: seq<byte>)
    ensures t + a + b + c == t + (a + b + c)
  {
  }

  lemma BindJoined(t: seq<byte>, a: seq<byte>, b: seq<byte>)
    ensures t + PrepareCall(1) + a + AtPut(1) + b == t + (PrepareCall(1) + a + AtPut(1) + b)
  {
  }

  lemma LoopJoined(t: seq<byte>, a: seq<byte>, b: seq<byte>, c: seq<byte>, d: seq<byte>)
    ensures t + a + b + c + d == t + (a + b + c + d)
  {
  }

  lemma JoinedRight(t: seq<byte>, c: seq<byte>, d: seq<byte>)
    ensures t + c + d == t + (c + d)
  {
  }


  class Code {
    var buf: Buffer
    var scopes: Scopes
    var lits: seq<Value>

    ghost predicate Valid()
      reads this, buf, buf.text
    {
      buf.Valid()
    }

    ghost function Text(): seq<byte>
      reads this, buf
    {
      buf.contents
    }

    constructor ()
      ensures Valid() && Text() == [] && scopes == [] && lits == [] && fresh(buf) && fresh(buf.text)
    {
      buf := new Buffer(0);
      scopes, lits := [], [];
    }

    // ---- Scopes and literals ----

    method AddScope()
      modifies `scopes
      ensures scopes == [[]] + old(scopes)
    {
      scopes := [[]] + scopes;
    }

    method DelScope()
      requires scopes != []
      modifies `scopes
      ensures scopes == old(scopes)[1..]
    {
      scopes := scopes[1..];
    }

    method Bind(name: Sym) returns (offset: nat)
      requires scopes != []
      modifies `scopes
      ensures scopes == AddBinding(old(scopes), name) && offset == |scopes[0]| - 1
    {
      scopes := [scopes[0] + [name]] + scopes[1..];
      offset := |scopes[0]| - 1;
    }

    // The innermost scope with the name, and its first place there.
    method Resolve(name: Sym) returns (p: Option<Place>)
      ensures p == Lookup(scopes, name)
    {
      var frame := 0;
      while frame < |scopes|
        invariant frame <= |scopes|
        invariant Lookup(scopes, name) == Outwards(frame, Lookup(scopes[frame..], name))
      {
        var i := Search(scopes[frame], name);
        if i.Some? {
          return Some(Place(frame, i.value));
        }
        LookupRest(scopes, frame, name);
        frame := frame + 1;
      }
      p := None;
    }

    // The index of a literal, which is added when the pool lacks it.
    method LitIndex(v: Value) returns (index: nat)
      modifies `lits
      ensures (index, lits) == GetLit(old(lits), v)
    {
      var i := Search(lits, v);
      if i.Some? {
        return i.value;
      }
      index := |lits|;
      lits := lits + [v];
    }

    // ---- Emitting ----

    // The buffer is the same, though its array may have been replaced.
    twostate predicate Kept()
      reads this, buf, buf.text
    {
      Valid() && buf == old(buf) && (buf.text == old(buf.text) || fresh(buf.text))
    }

    // `em` was appended; the names in scope are now `s`.
    twostate predicate Done(em: Emitted, s: Scopes)
      reads this, buf
    {
      Text() == old(Text()) + em.code && lits == em.lits && scopes == s
    }

    // Sixteen-bit positions reach what is appended for `n` more bytes.
    ghost predicate Addressable(n: nat)
      reads this, buf
    {
      |Text()| + n <= P16
    }

    method Gen(n: int)
      requires Valid()
      modifies buf, buf.text
      ensures Kept() && Text() == old(Text()) + [B(n)]
    {
      buf.Append(B(n));
    }

    method Gen16(w: int)
      requires Valid()
      modifies buf, buf.text
      ensures Kept() && Text() == old(Text()) + Be16(w)
    {
      Gen(w / 256);
      Gen(w);
    }

    method GenLit(op: byte, v: Value)
      requires Valid()
      modifies `lits, buf, buf.text
      ensures Kept() && Done(LitOp(op, v, old(lits)), scopes)
    {
      Gen(op);
      var i := LitIndex(v);
      Gen(i);
    }

    method GenJump(op: byte) returns (at: nat)
      requires Valid() && Addressable(3)
      modifies buf, buf.text
      ensures Kept() && Text() == old(Text()) + [op, 0, 0] && at == |old(Text())| + 1
    {
      Gen(op);
      at := buf.pos % P16;
      Gen16(0);
    }

    // The jump at the end of `pre` leads to the current position, past `post`.
    method JumpHereFrom(at: nat, ghost pre: seq<byte>, ghost op: byte, ghost post: seq<byte>)
      requires Valid() && Text() == pre + [op, 0, 0] + post && at == |pre| + 1
      modifies buf`contents, buf.text
      ensures Kept() && Text() == pre + JumpOp(op, |post|) + post
    {
      var w := Be16(buf.pos - at - 2);
      buf.Patch(at, w[0]);
      buf.Patch(at + 1, w[1]);
    }

    // The operand byte after `pre` is filled in.
    method PatchByte(at: nat, n: int, ghost pre: seq<byte>, ghost hole: byte, ghost post: seq<byte>)
      requires Valid() && Text() == pre + [hole] + post && at == |pre|
      modifies buf`contents, buf.text
      ensures Kept() && Text() == pre + [B(n)] + post
    {
      buf.Patch(at, B(n));
    }

    method GenPrepare(argc: nat)
      requires Valid()
      modifies buf, buf.text
      ensures Kept() && Text() == old(Text()) + PrepareCall(argc)
    {
      Gen(OP_VECTOR);
      Gen(argc + 1);
      Gen(OP_PUSH);
    }

    method GenAtPut(k: nat)
      requires Valid()
      modifies buf, buf.text
      ensures Kept() && Text() == old(Text()) + AtPut(k)
    {
      Gen(OP_ATPUT);
      Gen(k);
    }

    method GenAccess(local: byte, global: byte, x: Sym)
      requires Valid()
      modifies `lits, buf, buf.text
      ensures Kept() && Done(Access(local, global, x, scopes, old(lits)), old(scopes))
    {
      var p := Resolve(x);
      if p.Some? {
        Gen(local);
        Gen(p.value.frame);
        Gen(p.value.offset);
      } else {
        GenLit(global, SymVal(x));
      }
    }

    method GenCallGlobal(x: Sym)
      requires Valid()
      modifies `lits, buf, buf.text
      ensures Kept() && Done(CallGlobal(x, old(lits)), scopes)
    {
      GenLit(OP_A_GLOB, SymVal(x));
      Gen(OP_APPLY);
    }

    // A template is a new object: no entry of the pool equals it.
    method GenClosure(m: Method)
      requires Valid()
      modifies `lits, buf, buf.text
      ensures Kept() && Done(CloseOver(m, old(lits)), scopes)
    {
      Gen(OP_A_LITL);
      Gen(|lits|);
      lits := lits + [MethodVal(m)];
      Gen(OP_CLOSURE);
    }

    // ---- Expressions ----

    method Expr(e: Expr) returns (ok: bool)
      requires Valid() && Short(e, scopes) && Addressable(|Emit(e, scopes, lits).code|)
      modifies this, buf, buf.text
      ensures Kept() && ok == Compiles(e, old(scopes))
      ensures ok ==> Done(Emit(e, old(scopes), old(lits)), After(e, old(scopes)))
      decreases e, 3
    {
      assert Emit(e, scopes, lits) == EmitForm(e, scopes, lits) && After(e, scopes) == AfterForm(e, scopes);
      assert Short(e, scopes) == ShortForm(e, scopes) && Compiles(e, scopes) == CompilesForm(e, scopes);
      match e
      case Lit(v) =>
        GenLit(OP_A_LITL, v);
        ok := true;
      case This =>
        Gen(OP_A_SELF);
        ok := true;
      case Var(x) =>
        GenAccess(OP_A_LOCL, OP_A_GLOB, x);
        ok := true;
      case One(_, _) => ok := OnePart(e);
      case Two(_, _, _) => ok := TwoParts(e);
      case Three(_, _, _, _) => ok := ThreeParts(e);
      case Many(k, es) => ok := ManyParts(k, es);
      case Headed(_, _, _) => ok := WithHead(e);
      case Fun(_, _) => ok := Function(e);
    }

    method OnePart(e: Expr) returns (ok: bool)
      requires e.One?
      requires Valid() && ShortForm(e, scopes) && Addressable(|EmitOne(e, scopes, lits).code|)
      modifies this, buf, buf.text
      ensures Kept() && ok == CompilesForm(e, old(scopes))
      ensures ok ==> Done(EmitOne(e, old(scopes), old(lits)), AfterForm(e, old(scopes)))
      decreases e, 2
    {
      ghost var t, s, c := Text(), scopes, Pre1(e.k1, scopes);
      var outside := scopes == [];
      var offset := 0;
      if e.k1.Define? {
        if outside {
          GenPrepare(2);
        } else {
          offset := Declaration(e.k1.x);
        }
      }
      assert Text() == t + c;
      ghost var r := Emit(e.a, scopes, lits);
      ok := Expr(e.a);
      if ok {
        c := Joined(t, c, r.code);
        r := Post1(e.k1, s, scopes, lits);
        FinishOne(e.k1, s, outside, offset);
        c := Joined(t, c, r.code);
      }
    }

    // A local definition binds its name before the initialiser is read.
    method Declaration(x: Sym) returns (offset: nat)
      requires scopes != []
      modifies `scopes
      ensures scopes == Declare(old(scopes), x) && Find(scopes[0], x) == Some(offset)
    {
      var p := Resolve(x);
      if p.None? || p.value.frame != 0 {
        offset := Bind(x);
      } else {
        offset := p.value.offset;
      }
    }

    method FinishOne(k: Form1, ghost s: Scopes, outside: bool, offset: nat)
      requires Valid() && outside == (s == [])
      requires k.Define? && !outside ==> Find(Declare(s, k.x)[0], k.x) == Some(offset)
      modifies `lits, buf, buf.text
      ensures Kept() && Done(Post1(k, s, scopes, old(lits)), old(scopes))
    {
      match k
      case Assign(x) => GenAccess(OP_LOCL_A, OP_GLOB_A, x);
      case Unary(op) => Gen(op);
      case MethodRef(x) => GenLit(OP_METHOD_CLOSURE, SymVal(x));
      case SlotGet(x) => GenLit(OP_A_SLOT, SymVal(x));
      case Return => Gen(OP_RET);
      case Define(x) =>
        if outside {
          FinishGlobal(x);
        } else {
          Gen(OP_LOCL_A);
          Gen(0);
          Gen(offset);
        }
    }

    method FinishGlobal(x: Sym)
      requires Valid()
      modifies `lits, buf, buf.text
      ensures Kept() && Done(Post1(Define(x), [], [], old(lits)), old(scopes))
    {
      GenAtPut(2);
      GenLit(OP_A_LITL, SymVal(x));
      GenAtPut(1);
      GenCallGlobal("define-global");
    }

    method TwoParts(e: Expr) returns (ok: bool)
      requires e.Two?
      requires Valid() && ShortForm(e, scopes) && Addressable(|EmitTwo(e, scopes, lits).code|)
      modifies this, buf, buf.text
      ensures Kept() && ok == CompilesForm(e, old(scopes))
      ensures ok ==> Done(EmitTwo(e, old(scopes), old(lits)), AfterForm(e, old(scopes)))
      decreases e, 2
    {
      match e.k2
      case Binary(_) => ok := BinaryOperator(e);
      case And => ok := ShortCircuit(e);
      case Or => ok := ShortCircuit(e);
      case While => ok := Loop(e);
      case _ => ok := AccessParts(e);
    }

    method BinaryOperator(e: Expr) returns (ok: bool)
      requires e.Two? && e.k2.Binary?
      requires Valid() && ShortForm(e, scopes) && Addressable(|EmitBinary(e, scopes, lits).code|)
      modifies this, buf, buf.text
      ensures Kept() && ok == CompilesForm(e, old(scopes))
      ensures ok ==> Done(EmitBinary(e, old(scopes), old(lits)), AfterForm(e, old(scopes)))
      decreases e, 1
    {
      ok := Expr(e.a);
      if ok {
        Gen(OP_PUSH);
        ok := Expr(e.b);
        if ok {
          Gen(e.k2.op);
        }
      }
    }

    // The first jump goes over the second, which is patched at the end.
    method ShortCircuit(e: Expr) returns (ok: bool)
      requires e.Two? && (e.k2.And? || e.k2.Or?)
      requires Valid() && ShortForm(e, scopes) && Addressable(|EmitShort(e, scopes, lits).code|)
      modifies this, buf, buf.text
      ensures Kept() && ok == CompilesForm(e, old(scopes))
      ensures ok ==> Done(EmitShort(e, old(scopes), old(lits)), AfterForm(e, old(scopes)))
      decreases e, 1
    {
      ghost var t, c := Text(), Emit(e.a, scopes, lits).code;
      ok := Expr(e.a);
      if ok {
        var end := TwoJumps(ShortOp(e.k2));
        c := Joined(t, c, JumpOp(ShortOp(e.k2), 3));
        ghost var r := Emit(e.b, scopes, lits);
        ok := Expr(e.b);
        if ok {
          JumpHereFrom(end, t + c, OP_JUMP, r.code);
          c := Joined(t, Joined(t, c, JumpOp(OP_JUMP, |r.code|)), r.code);
        }
      }
    }

    method TwoJumps(op: byte) returns (end: nat)
      requires Valid() && Addressable(6)
      modifies buf, buf.text
      ensures Kept() && Text() == old(Text()) + JumpOp(op, 3) + [OP_JUMP, 0, 0] && end == |Text()| - 2
    {
      ghost var t := Text();
      var next := GenJump(op);
      end := GenJump(OP_JUMP);
      JumpHereFrom(next, t, op, [OP_JUMP, 0, 0]);
    }

    method Loop(e: Expr) returns (ok: bool)
      requires e.Two? && e.k2.While?
      requires Valid() && ShortForm(e, scopes) && Addressable(|EmitWhile(e, scopes, lits).code|)
      modifies this, buf, buf.text
      ensures Kept() && ok == CompilesForm(e, old(scopes))
      ensures ok ==> Done(EmitWhile(e, old(scopes), old(lits)), AfterForm(e, old(scopes)))
      decreases e, 1
    {
      var start := buf.pos % P16;
      ghost var t, c := Text(), Emit(e.a, scopes, lits).code;
      ok := Expr(e.a);
      if ok {
        ok := LoopBody(e.b, start, t, c);
      }
    }

    // Behind the condition `c`, which starts at `start`: the exit jump, the
    // body, and the jump back.
    method LoopBody(b: Expr, start: nat, ghost t: seq<byte>, ghost c: seq<byte>) returns (ok: bool)
      requires Valid() && Short(b, scopes) && Addressable(|Emit(b, scopes, lits).code| + 6)
      requires Text() == t + c && start == |t|
      modifies this, buf, buf.text
      ensures Kept() && ok == Compiles(b, old(scopes))
      ensures ok ==> var r := Emit(b, old(scopes), old(lits));
                     && Text() == t + (c + JumpOp(OP_JUMP_FALSE, |r.code| + 3) + r.code +
                                       JumpOp(OP_JUMP, -(|c| + |r.code| + 6)))
                     && lits == r.lits && scopes == After(b, old(scopes))
      decreases b, 4
    {
      ghost var r := Emit(b, scopes, lits);
      var end := GenJump(OP_JUMP_FALSE);
      ok := Expr(b);
      if ok {
        CloseLoop(start, end, t, c, r.code);
      }
    }

    method CloseLoop(start: nat, end: nat, ghost t: seq<byte>, ghost c: seq<byte>, ghost d: seq<byte>)
      requires Valid() && Addressable(3) && Text() == t + c + [OP_JUMP_FALSE, 0, 0] + d
      requires start == |t| && end == |t| + |c| + 1
      modifies buf, buf.text
      ensures Kept()
      ensures Text() == t + (c + JumpOp(OP_JUMP_FALSE, |d| + 3) + d + JumpOp(OP_JUMP, -(|c| + |d| + 6)))
    {
      ghost var back := JumpOp(OP_JUMP, -(|c| + |d| + 6));
      GenJumpTo(OP_JUMP, start);
      ExitHere(end, t + c, d, back);
      LoopJoined(t, c, JumpOp(OP_JUMP_FALSE, |d| + 3), d, back);
    }

    // A conditional jump behind `t` leads over code `c` and a jump.
    method ExitHere(at: nat, ghost t: seq<byte>, ghost c: seq<byte>, ghost jump: seq<byte>)
      requires Valid() && Text() == t + [OP_JUMP_FALSE, 0, 0] + c + jump && |jump| == 3 && at == |t| + 1
      modifies buf`contents, buf.text
      ensures Kept() && Text() == t + JumpOp(OP_JUMP_FALSE, |c| + 3) + c + jump
    {
      JoinedRight(t + [OP_JUMP_FALSE, 0, 0], c, jump);
      JumpHereFrom(at, t, OP_JUMP_FALSE, c + jump);
      JoinedRight(t + JumpOp(OP_JUMP_FALSE, |c| + 3), c, jump);
    }

    method GenJumpTo(op: byte, target: nat)
      requires Valid() && Addressable(3)
      modifies buf, buf.text
      ensures Kept() && Text() == old(Text()) + JumpOp(op, target - |old(Text())| - 3)
    {
      var at := GenJump(op);
      var w := Be16(target - buf.pos);
      buf.Patch(at, w[0]);
      buf.Patch(at + 1, w[1]);
    }

    method AccessParts(e: Expr) returns (ok: bool)
      requires e.Two? && IsAccess(e.k2)
      requires Valid() && ShortForm(e, scopes) && Addressable(|EmitAccess(e, scopes, lits).code|)
      modifies this, buf, buf.text
      ensures Kept() && ok == CompilesForm(e, old(scopes))
      ensures ok ==> Done(EmitAccess(e, old(scopes), old(lits)), AfterForm(e, old(scopes)))
      decreases e, 1
    {
      ghost var t, c := Text(), Pre2(e.k2);
      if e.k2.DefSlot? {
        GenPrepare(3);
      }
      assert Text() == t + c;
      ghost var r := Emit(e.a, scopes, lits);
      ok := Expr(e.a);
      if ok {
        c := Joined(t, c, r.code);
        ok := SecondAccess(e.k2, e.b, t, c);
      }
    }

    // The part after `[` or `=` of such a form, behind code `c`.
    method SecondAccess(k: Form2, b: Expr, ghost t: seq<byte>, ghost c: seq<byte>) returns (ok: bool)
      requires Valid() && IsAccess(k) && Short(b, scopes) && Text() == t + c
      requires var m := Mid2(k, lits); Addressable(|m.code| + |Emit(b, scopes, m.lits).code|)
      modifies this, buf, buf.text
      ensures Kept() && ok == Compiles(b, old(scopes))
      ensures ok ==> var m := Mid2(k, old(lits));
                     var r := Emit(b, old(scopes), m.lits);
                     var p := Post2(k, r.lits);
                     Text() == t + (c + m.code + r.code + p.code) && lits == p.lits && scopes == After(b, old(scopes))
      decreases b, 5
    {
      ghost var r, d := Mid2(k, lits), c;
      BetweenAccess(k);
      d := Joined(t, d, r.code);
      r := Emit(b, scopes, lits);
      ok := Expr(b);
      if ok {
        d := Joined(t, d, r.code);
        r := Post2(k, lits);
        FinishAccess(k);
        d := Joined(t, d, r.code);
      }
    }

    method BetweenAccess(k: Form2)
      requires Valid() && IsAccess(k)
      modifies `lits, buf, buf.text
      ensures Kept() && Done(Mid2(k, old(lits)), scopes)
    {
      match k
      case SlotSet(_) => Gen(OP_PUSH);
      case Index => var _ := GenWithFirst();
      case DefSlot(x) =>
        GenAtPut(1);
        GenLit(OP_A_LITL, SymVal(x));
        GenAtPut(2);
    }

    // The vector gets room for two arguments; its length byte stands at `at`.
    method GenWithFirst() returns (at: nat)
      requires Valid()
      modifies buf, buf.text
      ensures Kept() && Text() == old(Text()) + PrepareWithFirst(2)
      ensures at == (|old(Text())| + 2) % P16
    {
      Gen(OP_PUSH);
      Gen(OP_VECTOR);
      at := buf.pos % P16;
      Gen(3);
      Gen(OP_SWAP);
      GenAtPut(1);
    }

    method FinishAccess(k: Form2)
      requires Valid() && IsAccess(k)
      modifies `lits, buf, buf.text
      ensures Kept() && Done(Post2(k, old(lits)), scopes)
    {
      match k
      case SlotSet(x) => GenLit(OP_SLOT_A, SymVal(x));
      case Index =>
        GenAtPut(2);
        GenCallGlobal("element-ref");
      case DefSlot(_) =>
        GenAtPut(3);
        GenCallGlobal("add-slot");
    }

    method ThreeParts(e: Expr) returns (ok: bool)
      requires e.Three?
      requires Valid() && ShortForm(e, scopes) && Addressable(|EmitThree(e, scopes, lits).code|)
      modifies this, buf, buf.text
      ensures Kept() && ok == CompilesForm(e, old(scopes))
      ensures ok ==> Done(EmitThree(e, old(scopes), old(lits)), AfterForm(e, old(scopes)))
      decreases e, 2
    {
      if e.k3.If? {
        ok := Conditional(e);
      } else {
        ok := ElementSet(e);
      }
    }

    method Conditional(e: Expr) returns (ok: bool)
      requires e.Three? && e.k3.If?
      requires Valid() && ShortForm(e, scopes) && Addressable(|EmitThree(e, scopes, lits).code|)
      modifies this, buf, buf.text
      ensures Kept() && ok == CompilesForm(e, old(scopes))
      ensures ok ==> Done(EmitThree(e, old(scopes), old(lits)), AfterForm(e, old(scopes)))
      decreases e, 1
    {
      ghost var t, c := Text(), Emit(e.a, scopes, lits).code;
      ok := Expr(e.a);
      if ok {
        ghost var r := Emit(e.b, scopes, lits);
        var end;
        ok, end := Consequent(e.b, |Emit(e.c, After(e.b, scopes), r.lits).code|);
        if ok {
          c := Joined(t, Joined(t, c, JumpOp(OP_JUMP_FALSE, |r.code| + 3)), r.code);
          r := Emit(e.c, scopes, lits);
          ok := Expr(e.c);
          if ok {
            JumpHereFrom(end, t + c, OP_JUMP, r.code);
            c := Joined(t, Joined(t, c, JumpOp(OP_JUMP, |r.code|)), r.code);
            assert c + [] == c;
          }
        }
      }
    }

    // The first branch and the jump past the second, still to be patched.
    method Consequent(b: Expr, ghost n: nat) returns (ok: bool, end: nat)
      requires Valid() && Short(b, scopes) && Addressable(|Emit(b, scopes, lits).code| + n + 6)
      modifies this, buf, buf.text
      ensures Kept() && ok == Compiles(b, old(scopes))
      ensures ok ==> var r := Emit(b, old(scopes), old(lits));
                     && Text() == old(Text()) + JumpOp(OP_JUMP_FALSE, |r.code| + 3) + r.code + [OP_JUMP, 0, 0]
                     && lits == r.lits && scopes == After(b, old(scopes)) && end == |Text()| - 2
      decreases b, 4
    {
      ghost var t, r := Text(), Emit(b, scopes, lits);
      var otherwise := GenJump(OP_JUMP_FALSE);
      ok := Expr(b);
      if ok {
        end := GenJump(OP_JUMP);
        ExitHere(otherwise, t, r.code, [OP_JUMP, 0, 0]);
      } else {
        end := 0;
      }
    }

    // An index expression turns out to be assigned to: the length of the
    // argument vector is patched.
    method ElementSet(e: Expr) returns (ok: bool)
      requires e.Three? && e.k3.IndexSet?
      requires Valid() && ShortForm(e, scopes) && Addressable(|EmitThree(e, scopes, lits).code|)
      modifies this, buf, buf.text
      ensures Kept() && ok == CompilesForm(e, old(scopes))
      ensures ok ==> Done(EmitThree(e, old(scopes), old(lits)), AfterForm(e, old(scopes)))
      decreases e, 1
    {
      ghost var t, c := Text(), Emit(e.a, scopes, lits).code;
      ok := Expr(e.a);
      if ok {
        ghost var r := Emit(e.b, scopes, lits);
        ok := IndexOperand(e.b);
        if ok {
          c := Joined(t, Joined(t, Joined(t, c, PrepareWithFirst(3)), r.code), AtPut(2));
          r := Emit(e.c, scopes, lits);
          ok := Expr(e.c);
          if ok {
            c := Joined(t, c, r.code);
            r := Post3(e.k3, lits);
            FinishElementSet(e.k3);
            c := Joined(t, c, r.code);
          }
        }
      }
    }

    method FinishElementSet(k: Form3)
      requires Valid() && k.IndexSet?
      modifies `lits, buf, buf.text
      ensures Kept() && Done(Post3(k, old(lits)), scopes)
    {
      GenAtPut(3);
      GenCallGlobal("element-set");
    }

    method IndexOperand(b: Expr) returns (ok: bool)
      requires Valid() && Short(b, scopes) && Addressable(|Emit(b, scopes, lits).code| + 8)
      modifies this, buf, buf.text
      ensures Kept() && ok == Compiles(b, old(scopes))
      ensures ok ==> var r := Emit(b, old(scopes), old(lits));
                     && Text() == old(Text()) + PrepareWithFirst(3) + r.code + AtPut(2)
                     && lits == r.lits && scopes == After(b, old(scopes))
      decreases b, 4
    {
      ghost var t, r := Text(), Emit(b, scopes, lits);
      var at := GenWithFirst();
      ok := Expr(b);
      if ok {
        GenAtPut(2);
        Lengthen(at, t, r.code);
      }
    }

    method Lengthen(at: nat, ghost t: seq<byte>, ghost c: seq<byte>)
      requires Valid() && Text() == t + PrepareWithFirst(2) + c + AtPut(2) && at == |t| + 2
      modifies buf`contents, buf.text
      ensures Kept() && Text() == t + PrepareWithFirst(3) + c + AtPut(2)
    {
      ghost var after := [OP_SWAP, OP_ATPUT, 1] + c + AtPut(2);
      assert Text() == t + [OP_PUSH, OP_VECTOR] + [3] + after;
      PatchByte(at, 4, t + [OP_PUSH, OP_VECTOR], 3, after);
    }

    method WithHead(e: Expr) returns (ok: bool)
      requires e.Headed?
      requires Valid() && ShortForm(e, scopes) && Addressable(|EmitHeaded(e, scopes, lits).code|)
      modifies this, buf, buf.text
      ensures Kept() && ok == CompilesForm(e, old(scopes))
      ensures ok ==> Done(EmitHeaded(e, old(scopes), old(lits)), AfterForm(e, old(scopes)))
      decreases e, 2
    {
      ghost var t, c := Text(), Emit(e.a, scopes, lits).code;
      ok := Expr(e.a);
      if ok {
        Gen(OP_PUSH);
        ghost var r := EmitArgs(e.es, 1, scopes, lits);
        ok := Arguments(e.es);
        if ok {
          c := Joined(t, c, [OP_PUSH]);
          JoinedRight(t + c, PrepareCall(Count(e.es)), r.code);
          c := Joined(t, Joined(t, c, PrepareCall(Count(e.es))), r.code);
          r := PostH(e.kh, lits);
          FinishCall(e.kh);
          c := Joined(t, c, r.code);
        }
      }
    }

    method FinishCall(k: FormH)
      requires Valid()
      modifies `lits, buf, buf.text
      ensures Kept() && Done(PostH(k, old(lits)), scopes)
    {
      Gen(OP_POP);
      Gen(OP_SWAP);
      match k
      case Apply => Gen(OP_APPLY);
      case Send(x, asSelf) => GenLit(if asSelf then OP_CALL_AS else OP_CALL, SymVal(x));
    }

    // An argument vector whose length is patched once all arguments are read.
    method Arguments(es: Exprs) returns (ok: bool)
      requires Valid() && ShortAll(es, scopes) && Addressable(|EmitArgs(es, 1, scopes, lits).code| + 3)
      modifies this, buf, buf.text
      ensures Kept() && ok == CompileAll(es, old(scopes))
      ensures ok ==> var r := EmitArgs(es, 1, old(scopes), old(lits));
                     Done(Emitted(PrepareCall(Count(es)) + r.code, r.lits), AfterAll(es, old(scopes)))
      decreases es, 2
    {
      ghost var t, r := Text(), EmitArgs(es, 1, scopes, lits);
      var at := GenVector();
      var argc;
      ok, argc := ArgumentList(es);
      if ok {
        FillLength(at, argc, t, r.code);
      }
    }

    method GenVector() returns (at: nat)
      requires Valid() && Addressable(3)
      modifies buf, buf.text
      ensures Kept() && Text() == old(Text()) + [OP_VECTOR, 0, OP_PUSH] && at == |old(Text())| + 1
    {
      Gen(OP_VECTOR);
      at := buf.pos % P16;
      Gen(0);
      Gen(OP_PUSH);
    }

    method Argument(e: Expr, k: nat) returns (ok: bool)
      requires Valid() && Short(e, scopes) && Addressable(|Emit(e, scopes, lits).code|)
      modifies this, buf, buf.text
      ensures Kept() && ok == Compiles(e, old(scopes))
      ensures var r := Emit(e, old(scopes), old(lits));
              ok ==> Text() == old(Text()) + r.code + AtPut(k) && lits == r.lits && scopes == After(e, old(scopes))
      decreases e, 7
    {
      ok := Expr(e);
      if ok {
        GenAtPut(k);
      }
    }

    method ArgumentList(es: Exprs) returns (ok: bool, argc: nat)
      requires Valid() && ShortAll(es, scopes) && Addressable(|EmitArgs(es, 1, scopes, lits).code|)
      modifies this, buf, buf.text
      ensures Kept() && ok == CompileAll(es, old(scopes))
      ensures ok ==> argc == Count(es) && Done(EmitArgs(es, 1, old(scopes), old(lits)), AfterAll(es, old(scopes)))
      decreases es, 1
    {
      ghost var t, s, l := Text(), scopes, lits;
      var rest := es;
      argc := 0;
      while rest.Cons?
        invariant Kept() && (rest == es || rest < es)
        invariant argc + Count(rest) == Count(es)
        invariant CompileAll(rest, scopes) == CompileAll(es, s) && ShortAll(rest, scopes)
        invariant AfterAll(rest, scopes) == AfterAll(es, s)
        invariant EmitArgs(rest, argc + 1, scopes, lits).lits == EmitArgs(es, 1, s, l).lits
        invariant Text() + EmitArgs(rest, argc + 1, scopes, lits).code == t + EmitArgs(es, 1, s, l).code
        decreases rest
      {
        ok := NextArgument(rest, argc + 1, t + EmitArgs(es, 1, s, l).code);
        if !ok {
          return;
        }
        argc := argc + 1;
        rest := rest.tail;
      }
      assert Text() + [] == Text();
      ok := true;
    }

    // The first of the arguments that are left; `whole` is the code with all.
    method NextArgument(es: Exprs, k: nat, ghost whole: seq<byte>) returns (ok: bool)
      requires Valid() && es.Cons? && ShortAll(es, scopes)
      requires Text() + EmitArgs(es, k, scopes, lits).code == whole && |whole| <= P16
      modifies this, buf, buf.text
      ensures Kept() && (!ok ==> !CompileAll(es, old(scopes)))
      ensures ok ==> && CompileAll(es.tail, scopes) == CompileAll(es, old(scopes)) && ShortAll(es.tail, scopes)
                     && AfterAll(es.tail, scopes) == AfterAll(es, old(scopes))
                     && EmitArgs(es.tail, k + 1, scopes, lits).lits == EmitArgs(es, k, old(scopes), old(lits)).lits
                     && Text() + EmitArgs(es.tail, k + 1, scopes, lits).code == whole
      decreases es, 0
    {
      ArgsAdvance(Text(), es, k, scopes, lits, whole);
      ok := Argument(es.head, k);
    }

    method FillLength(at: nat, argc: nat, ghost t: seq<byte>, ghost c: seq<byte>)
      requires Valid() && Text() == t + [OP_VECTOR, 0, OP_PUSH] + c && at == |t| + 1
      modifies buf`contents, buf.text
      ensures Kept() && Text() == t + (PrepareCall(argc) + c)
    {
      assert Text() == t + [OP_VECTOR] + [0] + ([OP_PUSH] + c);
      PatchByte(at, argc + 1, t + [OP_VECTOR], 0, [OP_PUSH] + c);
    }

    method ManyParts(k: FormN, es: Exprs) returns (ok: bool)
      requires Valid() && ShortForm(Many(k, es), scopes) && Addressable(|EmitMany(k, es, scopes, lits).code|)
      modifies this, buf, buf.text
      ensures Kept() && ok == CompilesForm(Many(k, es), old(scopes))
      ensures ok ==> Done(EmitMany(k, es, old(scopes), old(lits)), AfterForm(Many(k, es), old(scopes)))
      decreases es, 3
    {
      match k
      case Block => ok := Braces(es);
      case VecLit => ok := VectorLiteral(es);
      case Call(x) => ok := CallByName(x, es);
    }

    method CallByName(x: Sym, es: Exprs) returns (ok: bool)
      requires Valid() && ShortAll(es, scopes) && Addressable(|EmitMany(Call(x), es, scopes, lits).code|)
      modifies this, buf, buf.text
      ensures Kept() && ok == CompileAll(es, old(scopes))
      ensures ok ==> Done(EmitMany(Call(x), es, old(scopes), old(lits)), AfterAll(es, old(scopes)))
      decreases es, 3, 0
    {
      ghost var t, r := Text(), EmitArgs(es, 1, scopes, lits);
      ghost var c := PrepareCall(Count(es)) + r.code;
      ok := Arguments(es);
      if ok {
        r := VarRef(x, scopes, lits);
        GenAccess(OP_A_LOCL, OP_A_GLOB, x);
        Gen(OP_APPLY);
        c := Joined(t, Joined(t, c, r.code), [OP_APPLY]);
      }
    }

    method Braces(es: Exprs) returns (ok: bool)
      requires Valid() && ShortAll(es, [[]] + scopes) && Addressable(|EmitMany(Block, es, scopes, lits).code|)
      modifies this, buf, buf.text
      ensures Kept() && ok == CompilesForm(Many(Block, es), old(scopes))
      ensures ok ==> Done(EmitMany(Block, es, old(scopes), old(lits)), old(scopes))
      decreases es, 2
    {
      if es.Nil? {
        GenLit(OP_A_LITL, UNDEFINED);
        return true;
      }
      ghost var t := Text();
      AddScope();
      Gen(OP_ENTER_SCOPE);
      var at := buf.pos % P16;
      Gen(0);
      ghost var r := EmitAll(es, scopes, lits);
      ok := Sequence(es);
      if ok {
        if |scopes[0]| > 255 {
          return false;
        }
        CloseScope(at, |scopes[0]|, t, r.code);
        DelScope();
      }
    }

    // Code `c` behind `t` stands in a scope of `n` names.
    method CloseScope(at: nat, n: nat, ghost t: seq<byte>, ghost c: seq<byte>)
      requires Valid() && Text() == t + [OP_ENTER_SCOPE] + [0] + c && at == |t| + 1
      modifies buf, buf.text
      ensures Kept() && Text() == t + ([OP_ENTER_SCOPE, B(n)] + c + [OP_LEAVE_SCOPE])
    {
      PatchByte(at, n, t + [OP_ENTER_SCOPE], 0, c);
      Gen(OP_LEAVE_SCOPE);
      LongJoined(t, [OP_ENTER_SCOPE, B(n)], c, [OP_LEAVE_SCOPE]);
      assert t + [OP_ENTER_SCOPE, B(n)] == t + [OP_ENTER_SCOPE] + [B(n)];
    }

    method Sequence(es: Exprs) returns (ok: bool)
      requires Valid() && ShortAll(es, scopes) && Addressable(|EmitAll(es, scopes, lits).code|)
      modifies this, buf, buf.text
      ensures Kept() && ok == CompileAll(es, old(scopes))
      ensures ok ==> Done(EmitAll(es, old(scopes), old(lits)), AfterAll(es, old(scopes)))
      decreases es, 1
    {
      ghost var t, s, l := Text(), scopes, lits;
      var rest := es;
      while rest.Cons?
        invariant Kept() && (rest == es || rest < es)
        invariant CompileAll(rest, scopes) == CompileAll(es, s) && ShortAll(rest, scopes)
        invariant AfterAll(rest, scopes) == AfterAll(es, s)
        invariant EmitAll(rest, scopes, lits).lits == EmitAll(es, s, l).lits
        invariant Text() + EmitAll(rest, scopes, lits).code == t + EmitAll(es, s, l).code
        decreases rest
      {
        ok := Expr(rest.head);
        if !ok {
          return;
        }
        rest := rest.tail;
      }
      ok := true;
    }

    method VectorLiteral(es: Exprs) returns (ok: bool)
      requires Valid() && ShortAll(es, scopes) && Addressable(|EmitMany(VecLit, es, scopes, lits).code|)
      modifies this, buf, buf.text
      ensures Kept() && ok == CompileAll(es, old(scopes))
      ensures ok ==> Done(EmitMany(VecLit, es, old(scopes), old(lits)), AfterAll(es, old(scopes)))
      decreases es, 2
    {
      if es.Nil? {
        GenLit(OP_A_LITL, Ref(ZERO_VECTOR));
        return true;
      }
      ghost var t, r := Text(), EmitPushed(es, scopes, lits);
      var n;
      ok, n := Elements(es);
      if ok {
        Gen(OP_MAKE_VECTOR);
        Gen(n);
        JoinedRight(t, r.code, [OP_MAKE_VECTOR, B(n)]);
      }
    }

    method Elements(es: Exprs) returns (ok: bool, n: nat)
      requires Valid() && ShortAll(es, scopes) && Addressable(|EmitPushed(es, scopes, lits).code|)
      modifies this, buf, buf.text
      ensures Kept() && ok == CompileAll(es, old(scopes))
      ensures ok ==> n == Count(es) && Done(EmitPushed(es, old(scopes), old(lits)), AfterAll(es, old(scopes)))
      decreases es, 1
    {
      ghost var t, s, l := Text(), scopes, lits;
      var rest := es;
      n := 0;
      while rest.Cons?
        invariant Kept() && (rest == es || rest < es) && n + Count(rest) == Count(es)
        invariant CompileAll(rest, scopes) == CompileAll(es, s) && ShortAll(rest, scopes)
        invariant AfterAll(rest, scopes) == AfterAll(es, s)
        invariant EmitPushed(rest, scopes, lits).lits == EmitPushed(es, s, l).lits
        invariant Text() + EmitPushed(rest, scopes, lits).code == t + EmitPushed(es, s, l).code
        decreases rest
      {
        ok := NextElement(rest, t + EmitPushed(es, s, l).code);
        if !ok {
          return;
        }
        n := n + 1;
        rest := rest.tail;
      }
      assert Text() + [] == Text();
      ok := true;
    }

    // The first of the elements that are left; `whole` is the code with all.
    method NextElement(es: Exprs, ghost whole: seq<byte>) returns (ok: bool)
      requires Valid() && es.Cons? && ShortAll(es, scopes)
      requires Text() + EmitPushed(es, scopes, lits).code == whole && |whole| <= P16
      modifies this, buf, buf.text
      ensures Kept() && (!ok ==> !CompileAll(es, old(scopes)))
      ensures ok ==> && CompileAll(es.tail, scopes) == CompileAll(es, old(scopes)) && ShortAll(es.tail, scopes)
                     && AfterAll(es.tail, scopes) == AfterAll(es, old(scopes))
                     && EmitPushed(es.tail, scopes, lits).lits == EmitPushed(es, old(scopes), old(lits)).lits
                     && Text() + EmitPushed(es.tail, scopes, lits).code == whole
      decreases es, 0
    {
      PushedAdvance(Text(), es, scopes, lits, whole);
      ok := Expr(es.head);
      if ok {
        Gen(OP_PUSH);
      }
    }

    method Function(e: Expr) returns (ok: bool)
      requires e.Fun?
      requires Valid() && ShortForm(e, scopes) && Addressable(|EmitFun(e, scopes, lits).code|)
      modifies this, buf, buf.text
      ensures Kept() && ok == CompilesForm(e, old(scopes))
      ensures ok ==> Done(EmitFun(e, old(scopes), old(lits)), AfterForm(e, old(scopes)))
      decreases e, 2
    {
      assert After(e, scopes) == AfterForm(e, scopes);
      match e.kf
      case Lambda(params) => ok := Closure(params, e.b);
      case BindCC(x) => ok := BindContinuation(x, e.b);
      case DefMethod(_, _, _) => ok := MethodDefinition(e);
    }

    method BindContinuation(x: Sym, b: Expr) returns (ok: bool)
      requires Valid() && ShortBody([x], b, scopes)
      modifies this, buf, buf.text
      ensures Kept() && ok == Compiles(b, [[x]] + old(scopes))
      ensures ok ==> Done(EmitFun(Fun(BindCC(x), b), old(scopes), old(lits)), old(scopes))
      decreases b, 7
    {
      ghost var t, s, l := Text(), scopes, lits;
      GenPrepare(1);
      ok := Closure([x], b);
      if ok {
        ghost var r := CloseOver(EmitTemplate([x], b, s), l);
        GenAtPut(1);
        GenCallGlobal("call/cc");
        BindJoined(t, r.code, CallGlobal("call/cc", r.lits).code);
      }
    }

    method MethodDefinition(e: Expr) returns (ok: bool)
      requires e.Fun? && e.kf.DefMethod?
      requires Valid() && ShortForm(e, scopes) && Addressable(|EmitFun(e, scopes, lits).code|)
      modifies this, buf, buf.text
      ensures Kept() && ok == CompilesForm(e, old(scopes))
      ensures ok ==> Done(EmitFun(e, old(scopes), old(lits)), AfterForm(e, old(scopes)))
      decreases e, 1
    {
      assert After(e, scopes) == AfterForm(e, scopes);
      ghost var t, c := Text(), PrepareCall(3);
      GenPrepare(3);
      ghost var r := Emit(e.kf.a, scopes, lits);
      ok := Expr(e.kf.a);
      if ok {
        c := Joined(t, c, r.code);
        r := LitOp(OP_A_LITL, SymVal(e.kf.x), lits);
        MethodName(e.kf.x, t, c);
        ok := FinishMethod(e.kf.params, e.b, t, c + AtPut(1) + r.code + AtPut(2));
      }
    }

    method MethodName(x: Sym, ghost t: seq<byte>, ghost c: seq<byte>)
      requires Valid() && Text() == t + c
      modifies `lits, buf, buf.text
      ensures Kept()
      ensures var r := LitOp(OP_A_LITL, SymVal(x), old(lits));
              Text() == t + (c + AtPut(1) + r.code + AtPut(2)) && lits == r.lits
    {
      ghost var r := LitOp(OP_A_LITL, SymVal(x), lits);
      GenAtPut(1);
      GenLit(OP_A_LITL, SymVal(x));
      GenAtPut(2);
      ghost var c2 := Joined(t, Joined(t, Joined(t, c, AtPut(1)), r.code), AtPut(2));
    }

    method FinishMethod(params: seq<Sym>, b: Expr, ghost t: seq<byte>, ghost c: seq<byte>) returns (ok: bool)
      requires Valid() && ShortBody(params, b, scopes) && Text() == t + c
      modifies this, buf, buf.text
      ensures Kept() && ok == Compiles(b, [params] + old(scopes))
      ensures ok ==> var r3 := CloseOver(EmitTemplate(params, b, old(scopes)), old(lits));
                     var r4 := CallGlobal("add-method", r3.lits);
                     Text() == t + (c + r3.code + AtPut(3) + r4.code) && lits == r4.lits && scopes == old(scopes)
      decreases b, 7
    {
      ghost var r3 := CloseOver(EmitTemplate(params, b, scopes), lits);
      ok := Closure(params, b);
      if ok {
        GenAtPut(3);
        GenCallGlobal("add-method");
        ghost var c2 := Joined(t, Joined(t, c, r3.code), AtPut(3));
        c2 := Joined(t, c2, CallGlobal("add-method", r3.lits).code);
      }
    }

    // A function: its parameters are a scope, its body a template of its own.
    method Closure(params: seq<Sym>, b: Expr) returns (ok: bool)
      requires Valid() && ShortBody(params, b, scopes)
      modifies this, buf, buf.text
      ensures Kept() && ok == Compiles(b, [params] + old(scopes))
      ensures ok ==> Done(CloseOver(EmitTemplate(params, b, old(scopes)), old(lits)), old(scopes))
      decreases b, 6
    {
      AddScope();
      for i := 0 to |params|
        invariant Kept() && Text() == old(Text()) && lits == old(lits)
        invariant scopes == [params[..i]] + old(scopes)
      {
        assert params[..i + 1] == params[..i] + [params[i]];
        var _ := Bind(params[i]);
      }
      assert params[..|params|] == params;
      var m := Body(|params|, b);
      ok := m.Some?;
      if ok {
        DelScope();
        GenClosure(m.value);
      }
    }

    // Buffer and literal pool are set aside while a function body is compiled.
    method Body(argc: nat, b: Expr) returns (m: Option<Method>)
      requires Valid() && Short(b, scopes) && |Emit(b, scopes, []).code| <= P16
      modifies this
      ensures Kept() && Text() == old(Text()) && lits == old(lits)
      ensures m.Some? == Compiles(b, old(scopes))
      ensures m.Some? ==> var r := Emit(b, old(scopes), []);
                          m.value == Template(argc, r.code + [OP_RET], r.lits) && scopes == After(b, old(scopes))
      decreases b, 5
    {
      var outerBuf, outerLits := buf, lits;
      buf := new Buffer(0);
      lits := [];
      m := OwnTemplate(argc, b);
      buf, lits := outerBuf, outerLits;
    }

    // The same in a buffer and a pool of its own.
    method OwnTemplate(argc: nat, b: Expr) returns (m: Option<Method>)
      requires Valid() && Text() == [] && lits == [] && Short(b, scopes) && |Emit(b, scopes, []).code| <= P16
      modifies this, buf, buf.text
      ensures Kept() && m.Some? == Compiles(b, old(scopes))
      ensures m.Some? ==> var r := Emit(b, old(scopes), []);
                          m.value == Template(argc, r.code + [OP_RET], r.lits) && scopes == After(b, old(scopes))
      decreases b, 4
    {
      var ok := Expr(b);
      if !ok {
        return None;
      }
      Gen(OP_RET);
      var text := buf.Bytes();
      m := Some(Template(argc, text, lits));
    }
  }

  // One expression at top level, compiled to a template without arguments.
  method Parse(e: Expr) returns (t: Option<Method>)
    requires Short(e, []) && |Emit(e, [], []).code| <= P16
    ensures t.Some? == Compiles(e, [])
    ensures t.Some? ==> t.value == Program(e)
  {
    var code := new Code();
    t := code.Body(0, e);
  }

  function Program(e: Expr): Method {
    var r := Emit(e, [], []);
    Template(0, r.code + [OP_RET], r.lits)
  }

  // Code within the limits is neither rejected nor patched in the wrong place.
  lemma {:induction false} FitsCompiles(e: Expr, s: Scopes)
    requires Fits(e, s)
    ensures Compiles(e, s) && Short(e, s)
    decreases e
  {
    assert FitsForm(e, s);
    match e
    case Lit(_) =>
    case This =>
    case Var(_) =>
    case One(k, a) => FitsCompiles(a, Before1(k, s));
    case Two(_, a, b) =>
      FitsCompiles(a, s);
      FitsCompiles(b, After(a, s));
    case Three(_, a, b, c) =>
      FitsCompiles(a, s);
      FitsCompiles(b, After(a, s));
      FitsCompiles(c, After(b, After(a, s)));
    case Many(k, es) => FitsCompilesAll(es, if k.Block? then [[]] + s else s);
    case Headed(_, a, es) =>
      FitsCompiles(a, s);
      FitsCompilesAll(es, After(a, s));
    case Fun(k, b) =>
      if k.DefMethod? { FitsCompiles(k.a, s); }
      var t := After(e, s);
      assert BlockFits(Params(k), b, t);
      FitsCompiles(b, [Params(k)] + t);
      assert ShortBody(Params(k), b, t);
  }

  lemma {:induction false} FitsCompilesAll(es: Exprs, s: Scopes)
    requires FitsAll(es, s)
    ensures CompileAll(es, s) && ShortAll(es, s)
    decreases es
  {
    if es.Cons? {
      FitsCompiles(es.head, s);
      FitsCompilesAll(es.tail, After(es.head, s));
    }
  }

  // The first place of `x` in a list.
  method Search<T(==)>(list: seq<T>, x: T) returns (r: Option<nat>)
    ensures r == Find(list, x)
  {
    var i := 0;
    while i < |list|
      invariant i <= |list|
      invariant Find(list, x) == Further(i, Find(list[i..], x))
    {
      if list[i] == x {
        return Some(i);
      }
      assert list[i..][1..] == list[i + 1..];
      i := i + 1;
    }
    r := None;
  }

  lemma LookupRest(s: Scopes, frame: nat, x: Sym)
    requires frame < |s| && Find(s[frame], x).None?
    ensures Lookup(s[frame..], x) == Outwards(1, Lookup(s[frame + 1..], x))
  {
    assert s[frame..][1..] == s[frame + 1..];
  }

  function Further(i: nat, r: Option<nat>): Option<nat> {
    if r.Some? then Some(r.value + i) else None
  }

  function Outwards(i: nat, r: Option<Place>): Option<Place> {
    if r.Some? then Some(Place(r.value.frame + i, r.value.offset)) else None
  }
}
