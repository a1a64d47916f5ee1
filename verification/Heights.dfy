// Stack heights read off code by one sweep over its instructions, and what it
// takes for a stretch of code to respect them.
module Heights {
  import opened Bytes
  import opened Values
  import opened Machine

  // ---- The effect of one instruction ----

  // How many operands an instruction takes from the stack.
  function Pops(op: byte, a: byte): nat {
    if op == OP_MAKE_VECTOR then a
    else if op == OP_POP || op == OP_SLOT_A || OP_CALL <= op <= OP_APPLY || OP_EQ <= op <= OP_LE ||
            OP_BOR <= op <= OP_PERCENT then 1
    else 0
  }

  // How many it needs to find there.
  function Needs(op: byte, a: byte): nat {
    if op == OP_SWAP || op == OP_ATPUT then 1 else Pops(op, a)
  }

  function Delta(op: byte, a: byte): int {
    if op == OP_PUSH then 1 else 0 - Pops(op, a)
  }

  predicate IsJump(op: byte) {
    OP_JUMP <= op <= OP_JUMP_FALSE
  }

  // The compiler never emits the frame register's instructions.
  predicate Emittable(op: byte) {
    Len(op) > 0 && op != OP_A_FRAM && op != OP_FRAM_A
  }

  function Operand(code: seq<byte>): byte {
    if |code| > 1 then code[1] else 0
  }

  // The first instruction of `code` is whole.
  predicate Whole(code: seq<byte>) {
    code != [] && 0 < Len(code[0]) <= |code|
  }

  // ---- The sweep ----

  // The stack height at position `i` when it is `h` at position 0; None where
  // no instruction starts.
  function HeightAt(code: seq<byte>, i: int, h: int): Option<int>
    decreases |code|, 2
  {
    Sweep(code, i, h)
  }

  function Sweep(code: seq<byte>, i: int, h: int): Option<int>
    decreases |code|, 1
  {
    SweepFrom(code, i, h)
  }

  function SweepFrom(code: seq<byte>, i: int, h: int): Option<int>
    decreases |code|, 0
  {
    if i == 0 then Some(h)
    else if !Whole(code) || i < Len(code[0]) then None
    else HeightAt(Rest(code), i - Len(code[0]), Next(code, h))
  }

  // The heights at which the instructions that return stand, in order.
  function ReturnHeights(code: seq<byte>, h: int): seq<int>
    decreases |code|, 2
  {
    Returns(code, h)
  }

  function Returns(code: seq<byte>, h: int): seq<int>
    decreases |code|, 1
  {
    ReturnsFrom(code, h)
  }

  function ReturnsFrom(code: seq<byte>, h: int): seq<int>
    decreases |code|, 0
  {
    if !Whole(code) then []
    else (if code[0] == OP_RET then [h] else []) + ReturnHeights(Rest(code), Next(code, h))
  }

  // What follows the first instruction, and the height there.
  function Rest(code: seq<byte>): (r: seq<byte>)
    requires Whole(code)
    ensures |r| == |code| - Len(code[0])
  {
    code[Len(code[0])..]
  }

  function Next(code: seq<byte>, h: int): int
    requires Whole(code)
  {
    h + Delta(code[0], Operand(code))
  }

  // The definitions, for where they are needed.
  lemma Unfold(code: seq<byte>, i: int, h: int)
    ensures HeightAt(code, i, h) == SweepFrom(code, i, h)
    ensures ReturnHeights(code, h) == ReturnsFrom(code, h)
  {
    assert Sweep(code, i, h) == SweepFrom(code, i, h);
    assert Returns(code, h) == ReturnsFrom(code, h);
  }

  // ---- Well-formed stretches of code ----

  // Position `t` is one past the code or an instruction start of height `x`,
  // or an exit where that height is expected.
  predicate Lands(code: seq<byte>, h: int, exits: map<int, int>, t: int, x: int) {
    (0 <= t <= |code| && HeightAt(code, t, h) == Some(x)) || (t in exits && exits[t] == x)
  }

  predicate InstrOk(code: seq<byte>, h: int, exits: map<int, int>, i: nat, x: int)
    requires i < |code|
  {
    var op := code[i];
    && Emittable(op) && i + Len(op) <= |code|
    && Needs(op, Operand(code[i..])) <= x
    && (IsJump(op) ==> Lands(code, h, exits, i + 3 + Signed16(code[i + 1], code[i + 2]), x))
  }

  // From height `h` the code falls through at height `k`; no instruction
  // takes more than is there, and every jump finds the height it leaves with,
  // inside the code or at one of the exits.
  predicate Good(code: seq<byte>, h: int, k: int, exits: map<int, int>) {
    HeightAt(code, |code|, h) == Some(k) && AllOk(code, h, exits, 0, h)
  }

  // Every instruction from position `i` on, where the height is `x`.
  predicate AllOk(code: seq<byte>, h: int, exits: map<int, int>, i: nat, x: int)
    requires i <= |code|
    decreases |code| - i, 2
  {
    OkFrom(code, h, exits, i, x)
  }

  predicate OkFrom(code: seq<byte>, h: int, exits: map<int, int>, i: nat, x: int)
    requires i <= |code|
    decreases |code| - i, 1
  {
    OkAndRest(code, h, exits, i, x)
  }

  predicate OkAndRest(code: seq<byte>, h: int, exits: map<int, int>, i: nat, x: int)
    requires i <= |code|
    decreases |code| - i, 0
  {
    i == |code| ||
    (InstrOk(code, h, exits, i, x) &&
     AllOk(code, h, exits, i + Len(code[i]), x + Delta(code[i], Operand(code[i..]))))
  }

  // An instruction start is followed by another, or by the end.
  lemma {:induction false} NextHeight(code: seq<byte>, i: nat, h: int)
    requires i < |code| && HeightAt(code, i, h).Some? && Whole(code[i..])
    ensures HeightAt(code, i + Len(code[i]), h) ==
            Some(HeightAt(code, i, h).value + Delta(code[i], Operand(code[i..])))
    decreases |code|
  {
    var j := i + Len(code[i]);
    Unfold(code, i, h);
    Unfold(code, j, h);
    if i == 0 {
      assert code[0..] == code;
      Unfold(Rest(code), 0, Next(code, h));
    } else {
      var n := Len(code[0]);
      assert Rest(code)[i - n..] == code[i..];
      NextHeight(Rest(code), i - n, Next(code, h));
    }
  }

  lemma {:induction false} OkAt(code: seq<byte>, h: int, exits: map<int, int>, i: nat, x: int, j: nat)
    requires i <= j < |code| && AllOk(code, h, exits, i, x)
    requires HeightAt(code, i, h) == Some(x) && HeightAt(code, j, h).Some?
    ensures InstrOk(code, h, exits, j, HeightAt(code, j, h).value)
    decreases j - i
  {
    assert OkAndRest(code, h, exits, i, x) by { assert OkFrom(code, h, exits, i, x); }
    if i < j {
      NextHeight(code, i, h);
      NoStartInside(code, i, h, j);
      OkAt(code, h, exits, i + Len(code[i]), x + Delta(code[i], Operand(code[i..])), j);
    }
  }

  // Between one start and the next there is none.
  lemma {:induction false} NoStartInside(code: seq<byte>, i: nat, h: int, j: nat)
    requires i < j && i < |code| && HeightAt(code, i, h).Some? && Whole(code[i..]) && HeightAt(code, j, h).Some?
    ensures i + Len(code[i]) <= j
    decreases |code|
  {
    Unfold(code, i, h);
    Unfold(code, j, h);
    if i == 0 {
      assert code[0..] == code;
    } else {
      var n := Len(code[0]);
      assert Rest(code)[i - n..] == code[i..];
      NoStartInside(Rest(code), i - n, Next(code, h), j - n);
    }
  }

  lemma {:induction false} AllOkIntro(code: seq<byte>, h: int, exits: map<int, int>, i: nat, x: int)
    requires i <= |code| && HeightAt(code, i, h) == Some(x)
    requires forall j {:trigger HeightAt(code, j, h)} | 0 <= j < |code| && HeightAt(code, j, h).Some? ::
               InstrOk(code, h, exits, j, HeightAt(code, j, h).value)
    ensures AllOk(code, h, exits, i, x)
    decreases |code| - i
  {
    if i < |code| {
      NextHeight(code, i, h);
      AllOkIntro(code, h, exits, i + Len(code[i]), x + Delta(code[i], Operand(code[i..])));
    }
    assert OkFrom(code, h, exits, i, x) == OkAndRest(code, h, exits, i, x);
  }

  // What a good stretch says of one of its instructions.
  lemma GoodAt(code: seq<byte>, h: int, k: int, exits: map<int, int>, i: nat)
    requires Good(code, h, k, exits) && i < |code| && HeightAt(code, i, h).Some?
    ensures InstrOk(code, h, exits, i, HeightAt(code, i, h).value)
  {
    Unfold(code, 0, h);
    OkAt(code, h, exits, 0, h, i);
  }

  // ---- Concatenation ----

  lemma {:induction false} SweepAppend(a: seq<byte>, b: seq<byte>, h: int, m: int, i: int)
    requires HeightAt(a, |a|, h) == Some(m) && 0 <= i <= |a| + |b|
    ensures HeightAt(a + b, i, h) == if i < |a| then HeightAt(a, i, h) else HeightAt(b, i - |a|, m)
    decreases |a|
  {
    Unfold(a, |a|, h);
    Unfold(a, i, h);
    Unfold(a + b, i, h);
    if a == [] {
      assert a + b == b;
    } else if i > 0 {
      FirstOfBoth(a, b, h);
      if i >= Len(a[0]) {
        SweepAppend(Rest(a), b, Next(a, h), m, i - Len(a[0]));
      }
    }
  }

  lemma FirstOfBoth(a: seq<byte>, b: seq<byte>, h: int)
    requires Whole(a)
    ensures Whole(a + b) && (a + b)[0] == a[0] && Rest(a + b) == Rest(a) + b && Next(a + b, h) == Next(a, h)
  {
    assert Len(a[0]) >= 2 ==> Operand(a + b) == Operand(a);
    assert Len(a[0]) < 2 ==> Pops(a[0], Operand(a + b)) == Pops(a[0], Operand(a));
  }

  lemma {:induction false} ReturnsAppend(a: seq<byte>, b: seq<byte>, h: int, m: int)
    requires HeightAt(a, |a|, h) == Some(m)
    ensures ReturnHeights(a + b, h) == ReturnHeights(a, h) + ReturnHeights(b, m)
    decreases |a|
  {
    Unfold(a, |a|, h);
    Unfold(a + b, 0, h);
    if a == [] {
      assert a + b == b;
    } else {
      FirstOfBoth(a, b, h);
      ReturnsAppend(Rest(a), b, Next(a, h), m);
    }
  }

  // Exits of the first part lead into the second part or are exits of both.
  predicate Forward(exits: map<int, int>, off: int, b: seq<byte>, m: int, out: map<int, int>) {
    forall t | t in exits ::
      || (0 <= t - off <= |b| && HeightAt(b, t - off, m) == Some(exits[t]))
      || (t in out && out[t] == exits[t])
  }

  // Exits of the second part lead back into the first or are exits of both.
  predicate Backward(exits: map<int, int>, a: seq<byte>, h: int, out: map<int, int>) {
    forall t | t in exits ::
      || (0 <= t + |a| <= |a| && HeightAt(a, t + |a|, h) == Some(exits[t]))
      || (t + |a| in out && out[t + |a|] == exits[t])
  }

  lemma LandsFirst(a: seq<byte>, b: seq<byte>, h: int, m: int, t: int, x: int,
                   exits: map<int, int>, out: map<int, int>)
    requires HeightAt(a, |a|, h) == Some(m) && Forward(exits, |a|, b, m, out)
    requires Lands(a, h, exits, t, x)
    ensures Lands(a + b, h, out, t, x)
  {
    Unfold(b, 0, m);
    if 0 <= t <= |a| + |b| {
      SweepAppend(a, b, h, m, t);
    }
  }

  lemma LandsSecond(a: seq<byte>, b: seq<byte>, h: int, m: int, t: int, x: int,
                    exits: map<int, int>, out: map<int, int>)
    requires HeightAt(a, |a|, h) == Some(m) && Backward(exits, a, h, out)
    requires Lands(b, m, exits, t, x)
    ensures Lands(a + b, h, out, |a| + t, x)
  {
    Unfold(b, 0, m);
    if 0 <= |a| + t <= |a| + |b| {
      SweepAppend(a, b, h, m, |a| + t);
    }
  }

  lemma Compose(a: seq<byte>, b: seq<byte>, h: int, m: int, k: int,
                ea: map<int, int>, eb: map<int, int>, out: map<int, int>)
    requires Good(a, h, m, ea) && Good(b, m, k, eb)
    requires Forward(ea, |a|, b, m, out) && Backward(eb, a, h, out)
    ensures Good(a + b, h, k, out)
    ensures ReturnHeights(a + b, h) == ReturnHeights(a, h) + ReturnHeights(b, m)
  {
    ReturnsAppend(a, b, h, m);
    SweepAppend(a, b, h, m, |a + b|);
    forall i {:trigger HeightAt(a + b, i, h)} | 0 <= i < |a + b| && HeightAt(a + b, i, h).Some?
      ensures InstrOk(a + b, h, out, i, HeightAt(a + b, i, h).value)
    {
      SweepAppend(a, b, h, m, i);
      if i < |a| {
        GoodAt(a, h, m, ea, i);
        ComposeFirst(a, b, h, m, i, ea, out);
      } else {
        GoodAt(b, m, k, eb, i - |a|);
        ComposeSecond(a, b, h, m, i - |a|, eb, out);
      }
    }
    Unfold(a + b, 0, h);
    AllOkIntro(a + b, h, out, 0, h);
  }

  lemma ComposeFirst(a: seq<byte>, b: seq<byte>, h: int, m: int, i: nat, ea: map<int, int>, out: map<int, int>)
    requires HeightAt(a, |a|, h) == Some(m) && Forward(ea, |a|, b, m, out)
    requires i < |a| && HeightAt(a, i, h).Some? && InstrOk(a, h, ea, i, HeightAt(a, i, h).value)
    ensures InstrOk(a + b, h, out, i, HeightAt(a, i, h).value)
  {
    var x := HeightAt(a, i, h).value;
    var op := a[i];
    assert Len(op) >= 2 ==> Operand(a[i..]) == a[i + 1] == Operand((a + b)[i..]);
    if IsJump(op) {
      LandsFirst(a, b, h, m, i + 3 + Signed16(a[i + 1], a[i + 2]), x, ea, out);
    }
  }

  lemma ComposeSecond(a: seq<byte>, b: seq<byte>, h: int, m: int, j: nat, eb: map<int, int>, out: map<int, int>)
    requires HeightAt(a, |a|, h) == Some(m) && Backward(eb, a, h, out)
    requires j < |b| && HeightAt(b, j, m).Some? && InstrOk(b, m, eb, j, HeightAt(b, j, m).value)
    ensures InstrOk(a + b, h, out, |a| + j, HeightAt(b, j, m).value)
  {
    var x := HeightAt(b, j, m).value;
    assert (a + b)[|a| + j..] == b[j..];
    var op := b[j];
    if IsJump(op) {
      LandsSecond(a, b, h, m, j + 3 + Signed16(b[j + 1], b[j + 2]), x, eb, out);
    }
  }
}
