// The bounds the compiler does not check: operand bytes, jump distances, the
// literal pool, and locals defined outside braces.
module Limits {
  import opened Bytes
  import opened Values
  import opened Machine
  import opened Syntax
  import opened Scoping
  import opened Emission

  const MAX_CODE := 0x8000
  const MAX_LITS := 256

  predicate PlaceFits(s: Scopes, x: Sym) {
    var p := Lookup(s, x);
    p.Some? ==> p.value.frame < 256 && p.value.offset < 256
  }

  // A finished block: jumps reach, the literal pool is addressable, and no
  // local is defined outside braces.
  predicate BlockFits(params: seq<Sym>, b: Expr, s: Scopes)
    decreases b, 2
  {
    var s1 := [params] + s;
    var r := Emit(b, s1, []);
    && |r.code| + 1 < MAX_CODE
    && |r.lits| <= MAX_LITS
    && After(b, s1) == s1
    && ReturnSafe(b, false)
    && Fits(b, s1)
  }

  // Every operand of the code for `e` fits its byte.
  predicate Fits(e: Expr, s: Scopes)
    decreases e, 1
  {
    FitsForm(e, s)
  }

  predicate FitsForm(e: Expr, s: Scopes)
    decreases e, 0
  {
    match e
    case Lit(_) => true
    case This => true
    case Var(x) => PlaceFits(s, x)
    case One(k, a) =>
      && Fits(a, Before1(k, s))
      && (k.Assign? ==> PlaceFits(After(e, s), k.x))
      && (k.Define? ==> PlaceFits(Before1(k, s), k.x))
    case Two(_, a, b) => Fits(a, s) && Fits(b, After(a, s))
    case Three(_, a, b, c) => Fits(a, s) && Fits(b, After(a, s)) && Fits(c, After(b, After(a, s)))
    case Many(k, es) =>
      (match k
       case Block => FitsAll(es, [[]] + s) && |BlockNames(es, s)| < 256
       case VecLit => FitsAll(es, s) && Count(es) < 256
       case Call(x) => FitsAll(es, s) && Count(es) < 255 && PlaceFits(AfterAll(es, s), x))
    case Headed(_, a, es) => Fits(a, s) && FitsAll(es, After(a, s)) && Count(es) < 255
    case Fun(k, b) => (k.DefMethod? ==> Fits(k.a, s)) && BlockFits(Params(k), b, After(e, s))
  }

  predicate FitsAll(es: Exprs, s: Scopes)
    decreases es, 0
  {
    match es
    case Nil => true
    case Cons(e, tl) => Fits(e, s) && FitsAll(tl, After(e, s))
  }
}
