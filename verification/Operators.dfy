// What the operator instructions compute, in terms of integers, bits and the
// relations they are named after.
module Operators {
  import opened Bytes
  import opened Values
  import opened Machine

  // Numbers are what is left of a word beside its tag: sixty-two bits, signed.
  predicate Fits62(n: int) {
    -0x2000_0000_0000_0000 <= n < 0x2000_0000_0000_0000
  }

  // `z` is the number with the low sixty-two bits of `n`.
  predicate Low62(z: int, n: int) {
    Fits62(z) && (z - n) % 0x4000_0000_0000_0000 == 0
  }

  lemma OneLow62(z: int, n: int)
    requires Low62(z, n) && Fits62(n)
    ensures z == n
  {
  }

  lemma WrapsLow(n: int)
    ensures Low62(Wrap62(n), n)
  {
  }

  // The operator `op` is next, `x` was pushed and `y` is in the accumulator.
  predicate Ready(vm: Vm, op: byte, x: Value, y: Value) {
    && 0 <= vm.ip < |vm.code| && vm.code[vm.ip] == op
    && vm.stack != [] && vm.stack[|vm.stack| - 1] == x && vm.acc == y
  }

  // The operand is gone, the result in the accumulator, all else as it was.
  predicate Gives(w: World, vm: Vm, v: Value)
    requires vm.stack != []
  {
    Instr(w, vm) == Run(vm.(stack := vm.stack[..|vm.stack| - 1], acc := v, ip := vm.ip + 1))
  }

  // ---- Sums, differences, products ----

  lemma Sums(w: World, vm: Vm, op: byte, x: int, y: int) returns (z: int)
    requires (op == OP_PLUS || op == OP_MINUS || op == OP_STAR) && Ready(vm, op, Num(x), Num(y))
    ensures Gives(w, vm, Num(z))
    ensures op == OP_PLUS ==> Low62(z, x + y) && (Fits62(x + y) ==> z == x + y)
    ensures op == OP_MINUS ==> Low62(z, x - y) && (Fits62(x - y) ==> z == x - y)
    ensures op == OP_STAR ==> Low62(z, x * y) && (Fits62(x * y) ==> z == x * y)
  {
    var n := if op == OP_PLUS then x + y else if op == OP_MINUS then x - y else x * y;
    z := Wrap62(n);
    WrapsLow(n);
    if Fits62(n) {
      OneLow62(z, n);
    }
  }

  // Strings and vectors are put one behind the other.
  lemma Concatenates(w: World, vm: Vm, x: nat, y: nat)
    requires Ready(vm, OP_PLUS, Ref(x), Ref(y)) && x < |vm.heap| && y < |vm.heap|
    ensures vm.heap[x].BVec? && vm.heap[y].BVec? ==>
              Instr(w, vm) == Run(vm.(stack := vm.stack[..|vm.stack| - 1], acc := Ref(|vm.heap|), ip := vm.ip + 1,
                                      heap := vm.heap + [BVec(vm.heap[x].bytes + vm.heap[y].bytes)]))
    ensures vm.heap[x].Vec? && vm.heap[y].Vec? && (vm.heap[x].elems != [] || vm.heap[y].elems != []) ==>
              Instr(w, vm) == Run(vm.(stack := vm.stack[..|vm.stack| - 1], acc := Ref(|vm.heap|), ip := vm.ip + 1,
                                      heap := vm.heap + [Vec(vm.heap[x].elems + vm.heap[y].elems)]))
    ensures vm.heap[x] == Vec([]) && vm.heap[y] == Vec([]) ==> Gives(w, vm, Ref(ZERO_VECTOR))
  {
  }

  // ---- Comparisons ----

  predicate Relation(op: byte, x: int, y: int) {
    (op == OP_GT && x > y) || (op == OP_LT && x < y) || (op == OP_GE && x >= y) || (op == OP_LE && x <= y)
  }

  lemma Compares(w: World, vm: Vm, op: byte, x: int, y: int)
    requires OP_GT <= op <= OP_LE && Ready(vm, op, Num(x), Num(y))
    ensures Gives(w, vm, if Relation(op, x, y) then TRUE else FALSE)
    ensures TRUE != FALSE
  {
  }

  lemma Equals(w: World, vm: Vm, op: byte, x: Value, y: Value)
    requires (op == OP_EQ || op == OP_NE) && Ready(vm, op, x, y)
    ensures Gives(w, vm, if (x == y) == (op == OP_EQ) then TRUE else FALSE)
  {
  }

  lemma Negates(w: World, vm: Vm)
    requires 0 <= vm.ip < |vm.code| && vm.code[vm.ip] == OP_NOT
    ensures Instr(w, vm) == Run(vm.(acc := if vm.acc == FALSE then TRUE else FALSE, ip := vm.ip + 1))
  {
  }

  // ---- Quotients and remainders ----

  // `q` is the quotient cut off toward zero, `r` what remains: it is smaller
  // than the divisor and has the dividend's sign, or is zero.
  predicate Divides(x: int, y: int, q: int, r: int) {
    x == q * y + r && -Abs(y) < r < Abs(y) && (r > 0 ==> x > 0) && (r < 0 ==> x < 0)
  }

  function Abs(n: int): int {
    if n < 0 then -n else n
  }

  lemma Quotients(x: int, y: int) returns (q: int, r: int)
    requires y != 0
    ensures Divides(x, y, q, r) && q == TruncDiv(x, y)
  {
    if x >= 0 {
      q, r := Euclid(x, y);
    } else {
      var p, s := Euclid(-x, y);
      q, r := -p, -s;
      assert (-p) * y == -(p * y);
    }
  }

  lemma Euclid(n: nat, y: int) returns (q: int, r: int)
    requires y != 0
    ensures n == q * y + r && 0 <= r < Abs(y) && q == n / y && (r > 0 ==> n > 0)
  {
    q, r := n / y, n % y;
    if n == 0 {
      NothingLeft(q, y, r);
    }
  }

  lemma NothingLeft(q: int, y: int, r: int)
    requires q * y + r == 0 && 0 <= r < Abs(y)
    ensures r == 0
  {
    if q > 0 {
      SmallProduct(q, y);
    } else if q < 0 {
      assert (-q) * y == -(q * y);
      SmallProduct(-q, y);
    }
  }

  lemma OneQuotient(x: int, y: int, q: int, r: int, p: int, s: int)
    requires Divides(x, y, q, r) && Divides(x, y, p, s)
    ensures p == q && s == r
  {
    assert (q - p) * y == s - r;
    if q > p {
      SmallProduct(q - p, y);
    } else if q < p {
      assert (p - q) * y == r - s;
      SmallProduct(p - q, y);
    }
  }

  lemma SmallProduct(n: int, y: int)
    requires n > 0
    ensures n * y >= y > 0 || n * y <= y <= 0
  {
  }

  lemma Truncated(x: int, y: int, q: int, r: int)
    requires y != 0 && Divides(x, y, q, r)
    ensures TruncDiv(x, y) == q && TruncMod(x, y) == r
  {
    var p, s := Quotients(x, y);
    OneQuotient(x, y, q, r, p, s);
    assert x - y * q == r;
  }

  lemma Quotient(w: World, vm: Vm, x: int, y: int, q: int, r: int) returns (z: int)
    requires Ready(vm, OP_SLASH, Num(x), Num(y)) && y != 0 && Divides(x, y, q, r)
    ensures Gives(w, vm, Num(z)) && Low62(z, q) && (Fits62(q) ==> z == q)
  {
    Truncated(x, y, q, r);
    z := Wrap62(q);
    WrapsLow(q);
  }

  lemma Remainder(w: World, vm: Vm, x: int, y: int, q: int, r: int) returns (z: int)
    requires Ready(vm, OP_PERCENT, Num(x), Num(y)) && y != 0 && Divides(x, y, q, r)
    ensures Gives(w, vm, Num(z)) && Low62(z, r) && (Fits62(y) ==> z == r)
  {
    Truncated(x, y, q, r);
    z := Wrap62(r);
    WrapsLow(r);
  }

  // ---- Bits ----

  // Bit `i` of the two's complement form.
  predicate Bit(n: int, i: nat)
    decreases i
  {
    if i == 0 then n % 2 == 1 else Bit(n / 2, i - 1)
  }

  function Power(k: nat): int {
    if k == 0 then 1 else 2 * Power(k - 1)
  }

  predicate Within(n: int, k: nat) {
    -Power(k) <= n < Power(k)
  }

  lemma {:induction false} AndBits(x: int, y: int, i: nat)
    ensures Bit(BitAnd(x, y), i) == (Bit(x, i) && Bit(y, i))
    decreases i
  {
    if i > 0 {
      AndBits(x / 2, y / 2, i - 1);
      assert BitAnd(x, y) / 2 == BitAnd(x / 2, y / 2);
    }
  }

  lemma {:induction false} OrBits(x: int, y: int, i: nat)
    ensures Bit(BitOr(x, y), i) == (Bit(x, i) || Bit(y, i))
    decreases i
  {
    if i > 0 {
      OrBits(x / 2, y / 2, i - 1);
      assert BitOr(x, y) / 2 == BitOr(x / 2, y / 2);
    }
  }

  lemma {:induction false} NotBits(x: int, i: nat)
    ensures Bit(-x - 1, i) == !Bit(x, i)
    decreases i
  {
    if i > 0 {
      assert (-x - 1) / 2 == -(x / 2) - 1;
      NotBits(x / 2, i - 1);
    }
  }

  // The result needs no more bits than the operands.
  lemma {:induction false} StaysWithin(x: int, y: int, k: nat)
    requires Within(x, k) && Within(y, k)
    ensures Within(BitAnd(x, y), k) && Within(BitOr(x, y), k)
    decreases k
  {
    if k > 0 {
      StaysWithin(x / 2, y / 2, k - 1);
    }
  }

  lemma Powers()
    ensures Power(61) == 0x2000_0000_0000_0000
  {
    assert Power(5) == 32;
    Eight(5);
    Eight(13);
    Eight(21);
    Eight(29);
    Eight(37);
    Eight(45);
    Eight(53);
  }

  lemma Eight(k: nat)
    ensures Power(k + 8) == 256 * Power(k)
  {
    assert Power(k + 4) == 2 * Power(k + 3) == 4 * Power(k + 2) == 8 * Power(k + 1) == 16 * Power(k);
    assert Power(k + 8) == 2 * Power(k + 7) == 4 * Power(k + 6) == 8 * Power(k + 5) == 16 * Power(k + 4);
  }

  // `&` and `|` work on each bit of both numbers.
  lemma BitsCombined(w: World, vm: Vm, op: byte, x: int, y: int) returns (z: int)
    requires (op == OP_BAND || op == OP_BOR) && Ready(vm, op, Num(x), Num(y))
    ensures Gives(w, vm, Num(z)) && (Fits62(x) && Fits62(y) ==> Fits62(z))
    ensures forall i: nat :: Bit(z, i) == if op == OP_BAND then Bit(x, i) && Bit(y, i) else Bit(x, i) || Bit(y, i)
  {
    z := if op == OP_BAND then BitAnd(x, y) else BitOr(x, y);
    Powers();
    if Fits62(x) && Fits62(y) {
      StaysWithin(x, y, 61);
    }
    forall i: nat
      ensures Bit(z, i) == if op == OP_BAND then Bit(x, i) && Bit(y, i) else Bit(x, i) || Bit(y, i)
    {
      AndBits(x, y, i);
      OrBits(x, y, i);
    }
  }

  // Negation and complement leave the stack alone, though they look at it.
  lemma Unary(w: World, vm: Vm, op: byte, x: int, y: int) returns (z: int)
    requires (op == OP_NEG || op == OP_BNOT) && Ready(vm, op, Num(x), Num(y)) && Fits62(y)
    ensures Instr(w, vm) == Run(vm.(acc := Num(z), ip := vm.ip + 1)) && Fits62(z)
    ensures op == OP_NEG ==> Low62(z, -y) && (Fits62(-y) ==> z == -y)
    ensures op == OP_BNOT ==> forall i: nat :: Bit(z, i) == !Bit(y, i)
  {
    if op == OP_NEG {
      z := Wrap62(-y);
      WrapsLow(-y);
    } else {
      z := -y - 1;
      forall i: nat
        ensures Bit(z, i) == !Bit(y, i)
      {
        NotBits(y, i);
      }
    }
  }
}
