// Names in scope, in parse order, and where `return` may stand.
module Scoping {
  import opened Values
  import opened Syntax

  // Scopes innermost first; each is the list of names bound so far.
  type Scopes = seq<seq<Sym>>

  function Find<T(==)>(s: seq<T>, x: T): (r: Option<nat>)
    ensures r.Some? ==> r.value < |s| && s[r.value] == x && x !in s[..r.value]
    ensures r.None? ==> x !in s
  {
    if s == [] then None
    else if s[0] == x then Some(0)
    else
      assert s == [s[0]] + s[1..];
      match Find(s[1..], x)
      case None => None
      case Some(i) => assert s[..i + 1] == [s[0]] + s[1..][..i]; Some(i + 1)
  }

  datatype Place = Place(frame: nat, offset: nat)

  function Lookup(scopes: Scopes, x: Sym): (r: Option<Place>)
    ensures r.Some? ==> r.value.frame < |scopes| && r.value.offset < |scopes[r.value.frame]|
  {
    if scopes == [] then None
    else match Find(scopes[0], x)
         case Some(i) => Some(Place(0, i))
         case None =>
           match Lookup(scopes[1..], x)
           case None => None
           case Some(p) => Some(Place(p.frame + 1, p.offset))
  }

  // The innermost scope that has the name, and its first place there.
  lemma {:induction false} LookupInnermost(scopes: Scopes, x: Sym)
    ensures match Lookup(scopes, x)
            case None => forall i | 0 <= i < |scopes| :: x !in scopes[i]
            case Some(p) =>
              && scopes[p.frame][p.offset] == x && x !in scopes[p.frame][..p.offset]
              && forall i | 0 <= i < p.frame :: x !in scopes[i]
  {
    if scopes != [] && Find(scopes[0], x).None? {
      LookupInnermost(scopes[1..], x);
    }
  }

  function AddBinding(scopes: Scopes, x: Sym): Scopes
    requires scopes != []
  {
    [scopes[0] + [x]] + scopes[1..]
  }

  // Scopes after `define x`: the name is bound unless this scope has it.
  function Declare(scopes: Scopes, x: Sym): (r: Scopes)
    requires scopes != []
    ensures |r| == |scopes| && scopes[0] <= r[0] && r[1..] == scopes[1..]
    ensures x in r[0]
  {
    match Find(scopes[0], x)
    case Some(_) => scopes
    case None => AddBinding(scopes, x)
  }

  // ---- Names in scope after an expression ----

  predicate Extends(s: Scopes, t: Scopes) {
    |s| == |t| && (s != [] ==> s[0] <= t[0] && s[1..] == t[1..])
  }

  // Scopes in which the subexpression of a one-part form is compiled: a local
  // name is bound before its initialiser is read.
  function Before1(k: Form1, s: Scopes): (r: Scopes)
    ensures Extends(s, r)
  {
    if k.Define? && s != [] then Declare(s, k.x) else s
  }

  function After(e: Expr, s: Scopes): (r: Scopes)
    ensures Extends(s, r)
    decreases e, 1
  {
    AfterForm(e, s)
  }

  function AfterForm(e: Expr, s: Scopes): (r: Scopes)
    ensures Extends(s, r)
    decreases e, 0
  {
    match e
    case Lit(_) => s
    case This => s
    case Var(_) => s
    case One(k, a) => After(a, Before1(k, s))
    case Two(_, a, b) => After(b, After(a, s))
    case Three(_, a, b, c) => After(c, After(b, After(a, s)))
    case Many(k, es) => if k.Block? then s else AfterAll(es, s)
    case Headed(_, a, es) => AfterAll(es, After(a, s))
    case Fun(k, _) => if k.DefMethod? then After(k.a, s) else s
  }

  function AfterAll(es: Exprs, s: Scopes): (r: Scopes)
    ensures Extends(s, r)
    decreases es
  {
    match es
    case Nil => s
    case Cons(e, tl) => AfterAll(tl, After(e, s))
  }

  // The names a block has bound by its closing brace.
  function BlockNames(es: Exprs, s: Scopes): seq<Sym> {
    AfterAll(es, [[]] + s)[0]
  }

  // The names an expression defines in its own scope: not those of blocks and
  // function bodies inside it.
  function Defines(e: Expr): set<Sym>
    decreases e
  {
    match e
    case Lit(_) => {}
    case This => {}
    case Var(_) => {}
    case One(k, a) => Defines(a) + if k.Define? then {k.x} else {}
    case Two(_, a, b) => Defines(a) + Defines(b)
    case Three(_, a, b, c) => Defines(a) + Defines(b) + Defines(c)
    case Many(k, es) => if k.Block? then {} else DefinesAll(es)
    case Headed(_, a, es) => Defines(a) + DefinesAll(es)
    case Fun(k, _) => if k.DefMethod? then Defines(k.a) else {}
  }

  function DefinesAll(es: Exprs): set<Sym>
    decreases es
  {
    match es
    case Nil => {}
    case Cons(e, tl) => Defines(e) + DefinesAll(tl)
  }

  // In scope behind an expression are the names before it and those it
  // defines, each once if it was once before.
  lemma {:induction false} BoundExactly(e: Expr, s: Scopes, x: Sym)
    requires s != []
    ensures After(e, s) != [] && (x in After(e, s)[0] <==> x in s[0] || x in Defines(e))
    ensures multiset(s[0])[x] <= 1 ==> multiset(After(e, s)[0])[x] <= 1
    decreases e
  {
    assert After(e, s) == AfterForm(e, s);
    match e
    case One(k, a) =>
      Declared(s, if k.Define? then k.x else x, x);
      BoundExactly(a, Before1(k, s), x);
    case Two(_, a, b) =>
      BoundExactly(a, s, x);
      BoundExactly(b, After(a, s), x);
    case Three(_, a, b, c) =>
      BoundExactly(a, s, x);
      BoundExactly(b, After(a, s), x);
      BoundExactly(c, After(b, After(a, s)), x);
    case Many(k, es) => if !k.Block? { AllBoundExactly(es, s, x); }
    case Headed(_, a, es) =>
      BoundExactly(a, s, x);
      AllBoundExactly(es, After(a, s), x);
    case Fun(k, _) => if k.DefMethod? { BoundExactly(k.a, s, x); }
    case _ =>
  }

  lemma {:induction false} AllBoundExactly(es: Exprs, s: Scopes, x: Sym)
    requires s != []
    ensures AfterAll(es, s) != [] && (x in AfterAll(es, s)[0] <==> x in s[0] || x in DefinesAll(es))
    ensures multiset(s[0])[x] <= 1 ==> multiset(AfterAll(es, s)[0])[x] <= 1
    decreases es
  {
    if es.Cons? {
      BoundExactly(es.head, s, x);
      AllBoundExactly(es.tail, After(es.head, s), x);
    }
  }

  lemma Declared(s: Scopes, y: Sym, x: Sym)
    requires s != []
    ensures x in Declare(s, y)[0] <==> x in s[0] || x == y
    ensures multiset(s[0])[x] <= 1 ==> multiset(Declare(s, y)[0])[x] <= 1
  {
  }

  // ---- Where `return` stands ----

  // No `return` in this block of code.  Function bodies are blocks of their own.
  predicate NoReturn(e: Expr)
    decreases e
  {
    match e
    case Lit(_) => true
    case This => true
    case Var(_) => true
    case One(k, a) => !k.Return? && NoReturn(a)
    case Two(_, a, b) => NoReturn(a) && NoReturn(b)
    case Three(_, a, b, c) => NoReturn(a) && NoReturn(b) && NoReturn(c)
    case Many(_, es) => NoReturns(es)
    case Headed(_, a, es) => NoReturn(a) && NoReturns(es)
    case Fun(k, _) => k.DefMethod? ==> NoReturn(k.a)
  }

  predicate NoReturns(es: Exprs)
    decreases es
  {
    match es
    case Nil => true
    case Cons(e, tl) => NoReturn(e) && NoReturns(tl)
  }

  // Every `return` stands where nothing is pending on the stack.  `top` says
  // that no scope is open, so that `define` is a call.
  predicate ReturnSafe(e: Expr, top: bool)
    decreases e, 1
  {
    ReturnSafeForm(e, top)
  }

  predicate ReturnSafeForm(e: Expr, top: bool)
    decreases e, 0
  {
    match e
    case Lit(_) => true
    case This => true
    case Var(_) => true
    case One(k, a) => if k.Define? && top then NoReturn(a) else ReturnSafe(a, top)
    case Two(k, a, b) =>
      && (if k.DefSlot? then NoReturn(a) else ReturnSafe(a, top))
      && (if k.And? || k.Or? || k.While? then ReturnSafe(b, top) else NoReturn(b))
    case Three(k, a, b, c) =>
      && ReturnSafe(a, top)
      && (if k.If? then ReturnSafe(b, top) && ReturnSafe(c, top) else NoReturn(b) && NoReturn(c))
    case Many(k, es) =>
      (match k
       case Block => ReturnsSafe(es)
       case VecLit => es.Nil? || (ReturnSafe(es.head, top) && NoReturns(es.tail))
       case Call(_) => NoReturns(es))
    case Headed(_, a, es) => ReturnSafe(a, top) && NoReturns(es)
    case Fun(k, _) => k.DefMethod? ==> NoReturn(k.a)
  }

  // Expressions inside braces: a scope is open.
  predicate ReturnsSafe(es: Exprs)
    decreases es
  {
    match es
    case Nil => true
    case Cons(e, tl) => ReturnSafe(e, false) && ReturnsSafe(tl)
  }
}
