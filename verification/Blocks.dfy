// Finished blocks of code, and the methods and values that hold them.
module Blocks {
  import opened Bytes
  import opened Values
  import opened Machine
  import opened Syntax
  import opened Scoping
  import opened Emission
  import opened Limits
  import opened Heights
  import opened Discipline

  function Body(code: seq<byte>): seq<byte>
    requires code != []
  {
    code[..|code| - 1]
  }

  // A body that respects the stack from height 0 and returns at height 0,
  // then a return.
  predicate GoodBlock(code: seq<byte>) {
    && code != [] && code[|code| - 1] == OP_RET
    && Good(Body(code), 0, 0, map[])
    && forall x | x in ReturnHeights(Body(code), 0) :: x == 0
  }

  // An instruction of the block starts at `ip`, at height `x`.
  predicate Positioned(code: seq<byte>, ip: int, x: int) {
    GoodBlock(code) && 0 <= ip < |code| && HeightAt(code, ip, 0) == Some(x) && 0 <= x
  }

  lemma BlockHeights(code: seq<byte>, i: int)
    requires GoodBlock(code) && 0 <= i < |code|
    ensures HeightAt(code, i, 0) == HeightAt(Body(code), i, 0)
    ensures i == |code| - 1 ==> HeightAt(code, i, 0) == Some(0)
  {
    assert Body(code) + [OP_RET] == code;
    SweepAppend(Body(code), [OP_RET], 0, 0, i);
    Unfold([OP_RET], 0, 0);
  }

  lemma Entry(code: seq<byte>)
    requires GoodBlock(code)
    ensures Positioned(code, 0, 0)
  {
    Unfold(code, 0, 0);
  }

  // Where a block stands, a whole instruction is next and finds its operands.
  lemma Fetchable(code: seq<byte>, ip: int, x: int)
    requires Positioned(code, ip, x)
    ensures Emittable(code[ip]) && ip + Len(code[ip]) <= |code| && Whole(code[ip..])
    ensures Needs(code[ip], Operand(code[ip..])) <= x
    ensures ip == |code| - 1 ==> x == 0
  {
    BlockHeights(code, ip);
    var body := Body(code);
    if ip < |body| {
      GoodAt(body, 0, 0, map[], ip);
      assert Len(code[ip]) >= 2 ==> Operand(body[ip..]) == Operand(code[ip..]);
    }
  }

  // The next instruction stays in the block.
  lemma FallsThrough(code: seq<byte>, ip: int, x: int)
    requires Positioned(code, ip, x) && ip < |code| - 1
    ensures Whole(code[ip..]) && Positioned(code, ip + Len(code[ip]), x + Delta(code[ip], Operand(code[ip..])))
  {
    Fetchable(code, ip, x);
    var body := Body(code);
    BlockHeights(code, ip);
    GoodAt(body, 0, 0, map[], ip);
    NextHeight(code, ip, 0);
    assert ip + Len(code[ip]) <= |body|;
  }

  // So does a jump.
  lemma JumpsInside(code: seq<byte>, ip: int, x: int)
    requires Positioned(code, ip, x) && IsJump(code[ip])
    ensures ip + 2 < |code| && Positioned(code, ip + 3 + Signed16(code[ip + 1], code[ip + 2]), x)
  {
    Fetchable(code, ip, x);
    var body := Body(code);
    BlockHeights(code, ip);
    GoodAt(body, 0, 0, map[], ip);
    var t := ip + 3 + Signed16(code[ip + 1], code[ip + 2]);
    assert Lands(body, 0, map[], t, x);
    BlockHeights(code, t);
  }

  // Returns stand at height 0.
  lemma ReturnsLevel(code: seq<byte>, ip: int, x: int)
    requires Positioned(code, ip, x) && code[ip] == OP_RET
    ensures x == 0
  {
    BlockHeights(code, ip);
    if ip < |code| - 1 {
      Fetchable(code, ip, x);
      ReturnCounted(Body(code), ip, 0);
    }
  }

  lemma {:induction false} ReturnCounted(code: seq<byte>, i: nat, h: int)
    requires i < |code| && HeightAt(code, i, h).Some? && code[i] == OP_RET
    ensures HeightAt(code, i, h).value in ReturnHeights(code, h)
    decreases |code|
  {
    Unfold(code, i, h);
    if i > 0 {
      ReturnCounted(Rest(code), i - Len(code[0]), Next(code, h));
    }
  }
}
