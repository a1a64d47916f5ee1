// How a state of direct evaluation and a machine state correspond: same
// addresses, scopes laid out as environment vectors, functions compiled.
module Agreement {
  import opened Bytes
  import opened Values
  import opened Machine
  import opened Syntax
  import opened Scoping
  import opened Emission
  import opened Limits
  import opened Semantics

  // Slot 0 links to the enclosing scope; slot i + 1 holds name i, of which
  // only the first occurrence counts.
  predicate SlotsAgree(names: seq<Sym>, vals: map<Sym, Value>, slots: seq<Value>) {
    && |slots| == |names| + 1
    && forall i | 0 <= i < |names| && names[i] !in names[..i] :: slots[i + 1] == Lookup1(vals, names[i])
  }

  predicate FunctionAgrees(fn: SCell, c: Cell)
    requires fn.SFunction?
  {
    && c == Closure(EmitTemplate(fn.params, fn.body, fn.scopes).(env := fn.env, flags := fn.flags, owner := fn.owner),
                    fn.self)
    && BlockFits(fn.params, fn.body, fn.scopes)
  }

  predicate CellAgrees(s: SCell, c: Cell) {
    match s
    case SVec(elems) => c == Vec(elems)
    case SBytes(bytes) => c == BVec(bytes)
    case SScope(parent, names, vals) => c.Vec? && SlotsAgree(names, vals, c.elems) && c.elems[0] == parent
    case SFunction(_, _, _, _, _, _, _) => FunctionAgrees(s, c)
    case SOther(cell) => c == cell
  }

  // The run-time scopes from `env` outwards have at least the names of `s`.
  // The definition stands behind two more layers, so that a proof that only
  // passes the fact on does not unfold the recursion; ChainDef opens it.
  predicate ChainOk(h: SHeap, env: Value, s: Scopes)
    decreases |s|, 2
  {
    ChainFirst(h, env, s)
  }

  predicate ChainFirst(h: SHeap, env: Value, s: Scopes)
    decreases |s|, 1
  {
    ChainEach(h, env, s)
  }

  predicate ChainEach(h: SHeap, env: Value, s: Scopes)
    decreases |s|, 0
  {
    s == [] || (IsScope(h, env) && s[0] <= h[env.a].names && ChainOk(h, h[env.a].parent, s[1..]))
  }

  // The definition, for where it is needed.
  lemma ChainDef(h: SHeap, env: Value, s: Scopes)
    ensures ChainOk(h, env, s) == ChainEach(h, env, s)
  {
    assert ChainFirst(h, env, s) == ChainEach(h, env, s);
  }

  predicate ChainsOk(h: SHeap) {
    forall a {:trigger ChainOk(h, h[a].env, h[a].scopes)} | 0 <= a < |h| && h[a].SFunction? ::
      ChainOk(h, h[a].env, h[a].scopes)
  }

  predicate CellsAgree(sh: SHeap, vh: Heap) {
    && |sh| == |vh|
    && |sh| > 0 && sh[ZERO_VECTOR] == SVec([])
    && (forall a {:trigger CellAgrees(sh[a], vh[a])} | 0 <= a < |sh| :: CellAgrees(sh[a], vh[a]))
    && ChainsOk(sh)
  }

  // Cell by cell, the heaps agree and functions have their scopes.
  predicate HeapAgrees(sh: SHeap, vh: Heap) {
    |sh| == |vh| && AgreeUpTo(sh, vh, |sh|)
  }

  // In layers for the same reason; HeapDef opens it.
  predicate AgreeUpTo(sh: SHeap, vh: Heap, n: nat)
    requires n <= |sh| == |vh|
    decreases n, 2
  {
    AgreeFirst(sh, vh, n)
  }

  predicate AgreeFirst(sh: SHeap, vh: Heap, n: nat)
    requires n <= |sh| == |vh|
    decreases n, 1
  {
    AgreeEach(sh, vh, n)
  }

  predicate AgreeEach(sh: SHeap, vh: Heap, n: nat)
    requires n <= |sh| == |vh|
    decreases n, 0
  {
    if n == 0 then |sh| > 0 && sh[ZERO_VECTOR] == SVec([])
    else AgreeUpTo(sh, vh, n - 1) && AgreesAt(sh, vh, n - 1)
  }

  predicate AgreesAt(sh: SHeap, vh: Heap, a: nat)
    requires a < |sh| == |vh|
  {
    CellAgrees(sh[a], vh[a]) && (sh[a].SFunction? ==> ChainOk(sh, sh[a].env, sh[a].scopes))
  }

  lemma {:induction false} UpToAgrees(sh: SHeap, vh: Heap, n: nat)
    requires n <= |sh| == |vh|
    ensures AgreeUpTo(sh, vh, n) <==>
            |sh| > 0 && sh[ZERO_VECTOR] == SVec([]) && forall a | 0 <= a < n :: AgreesAt(sh, vh, a)
    decreases n
  {
    assert AgreeFirst(sh, vh, n) == AgreeEach(sh, vh, n);
    if n > 0 {
      UpToAgrees(sh, vh, n - 1);
      assert (forall a | 0 <= a < n :: AgreesAt(sh, vh, a)) <==>
             AgreesAt(sh, vh, n - 1) && forall a | 0 <= a < n - 1 :: AgreesAt(sh, vh, a);
    }
  }

  // All cells at once, for where they are looked at.
  lemma HeapDef(sh: SHeap, vh: Heap)
    ensures HeapAgrees(sh, vh) <==> CellsAgree(sh, vh)
  {
    if |sh| == |vh| {
      UpToAgrees(sh, vh, |sh|);
      if HeapAgrees(sh, vh) {
        forall a | 0 <= a < |sh|
          ensures CellAgrees(sh[a], vh[a]) && (sh[a].SFunction? ==> ChainOk(sh, sh[a].env, sh[a].scopes))
        {
          assert AgreesAt(sh, vh, a);
        }
      }
      if CellsAgree(sh, vh) {
        forall a | 0 <= a < |sh|
          ensures AgreesAt(sh, vh, a)
        {
          assert CellAgrees(sh[a], vh[a]);
        }
      }
    }
  }

  predicate Agree(me: Me, st: St, vm: Vm) {
    && st.env == vm.env
    && st.globals == vm.globals
    && me == Me(vm.self, vm.effuid)
    && HeapAgrees(st.heap, vm.heap)
  }

  // Scopes keep their place: names and parent never change.
  predicate Ext(h: SHeap, k: SHeap) {
    && |h| <= |k|
    && forall a | 0 <= a < |h| && h[a].SScope? :: k[a].SScope? && k[a].parent == h[a].parent && k[a].names == h[a].names
  }

  lemma {:induction false} ChainExt(h: SHeap, k: SHeap, env: Value, s: Scopes)
    requires Ext(h, k) && ChainOk(h, env, s)
    ensures ChainOk(k, env, s)
    decreases |s|
  {
    ChainDef(h, env, s);
    ChainDef(k, env, s);
    if s != [] {
      ChainExt(h, k, h[env.a].parent, s[1..]);
    }
  }

  // A chain good for more names is good for fewer.
  lemma ChainPrefix(h: SHeap, env: Value, s: Scopes, t: Scopes)
    requires Extends(s, t) && ChainOk(h, env, t)
    ensures ChainOk(h, env, s)
  {
    ChainDef(h, env, t);
    ChainDef(h, env, s);
  }

  // A heap change that keeps scopes in place and adds no unchained function.
  lemma ChainsExt(h: SHeap, k: SHeap)
    requires Ext(h, k) && ChainsOk(h)
    requires forall a | 0 <= a < |k| && k[a].SFunction? ::
               (a < |h| && k[a] == h[a]) || ChainOk(h, k[a].env, k[a].scopes)
    ensures ChainsOk(k)
  {
    forall a | 0 <= a < |k| && k[a].SFunction?
      ensures ChainOk(k, k[a].env, k[a].scopes)
    {
      ChainExt(h, k, k[a].env, k[a].scopes);
    }
  }

  // ---- Heap changes that keep agreement ----

  lemma AllocAgrees(sh: SHeap, vh: Heap, s: SCell, c: Cell)
    requires HeapAgrees(sh, vh) && CellAgrees(s, c)
    requires s.SFunction? ==> ChainOk(sh, s.env, s.scopes)
    ensures HeapAgrees(sh + [s], vh + [c]) && Ext(sh, sh + [s])
  {
    HeapDef(sh, vh);
    HeapDef(sh + [s], vh + [c]);
    ChainsExt(sh, sh + [s]);
  }

  lemma UpdateAgrees(sh: SHeap, vh: Heap, a: nat, s: SCell, c: Cell)
    requires HeapAgrees(sh, vh) && a < |sh| && CellAgrees(s, c)
    requires !s.SFunction? && (a == ZERO_VECTOR ==> s == sh[a])
    requires sh[a].SScope? ==> s.SScope? && s.parent == sh[a].parent && s.names == sh[a].names
    ensures HeapAgrees(sh[a := s], vh[a := c]) && Ext(sh, sh[a := s])
  {
    HeapDef(sh, vh);
    HeapDef(sh[a := s], vh[a := c]);
    ChainsExt(sh, sh[a := s]);
  }

  // ---- Variables ----

  // Walking links in the machine follows the parents of the scopes.
  lemma {:induction false} UpAgrees(sh: SHeap, vh: Heap, env: Value, s: Scopes, i: nat)
    requires HeapAgrees(sh, vh) && ChainOk(sh, env, s) && i < |s|
    ensures ScopeUp(sh, env, i).Some?
    ensures var a := ScopeUp(sh, env, i).value;
            && EnvUp(vh, env, i) == Some(Ref(a))
            && a < |sh| && sh[a].SScope? && s[i] <= sh[a].names
            && CellAgrees(sh[a], vh[a])
    decreases i
  {
    ChainDef(sh, env, s);
    HeapDef(sh, vh);
    assert CellAgrees(sh[env.a], vh[env.a]);
    if i > 0 {
      UpAgrees(sh, vh, sh[env.a].parent, s[1..], i - 1);
    }
  }

  lemma {:induction false} LookupFinds(s: Scopes, x: Sym)
    requires Lookup(s, x).Some?
    ensures var p := Lookup(s, x).value;
            Find(s[p.frame], x) == Some(p.offset)
    decreases s
  {
    if Find(s[0], x).None? {
      LookupFinds(s[1..], x);
    }
  }

  // The first occurrence in a prefix is the first occurrence.
  lemma PrefixFind(s: seq<Sym>, t: seq<Sym>, x: Sym)
    requires s <= t && Find(s, x).Some?
    ensures var i := Find(s, x).value;
            i < |t| && t[i] == x && t[i] !in t[..i]
  {
    var i := Find(s, x).value;
    assert t[..i] == s[..i];
  }

  // Storing under a name and storing in its slot agree.
  lemma StoreAgrees(names: seq<Sym>, vals: map<Sym, Value>, slots: seq<Value>, i: nat, v: Value)
    requires SlotsAgree(names, vals, slots) && i < |names| && names[i] !in names[..i]
    ensures SlotsAgree(names, vals[names[i] := v], slots[i + 1 := v])
  {
    forall j | 0 <= j < |names| && names[j] !in names[..j]
      ensures slots[i + 1 := v][j + 1] == Lookup1(vals[names[i] := v], names[j])
    {
    }
  }

  // Where the machine finds a local, and that it holds the same value.
  lemma LocalAgrees(sh: SHeap, vh: Heap, env: Value, s: Scopes, x: Sym)
    requires HeapAgrees(sh, vh) && ChainOk(sh, env, s) && Lookup(s, x).Some?
    ensures var p := Lookup(s, x).value;
            && ScopeUp(sh, env, p.frame).Some?
            && var a := ScopeUp(sh, env, p.frame).value;
            && a < |sh| && sh[a].SScope?
            && Local(vh, env, p.frame, p.offset) == Some(a)
            && p.offset < |sh[a].names| && sh[a].names[p.offset] == x && x !in sh[a].names[..p.offset]
            && vh[a].Vec? && SlotsAgree(sh[a].names, sh[a].vals, vh[a].elems)
  {
    var p := Lookup(s, x).value;
    UpAgrees(sh, vh, env, s, p.frame);
    HeapDef(sh, vh);
    LookupFinds(s, x);
    PrefixFind(s[p.frame], sh[ScopeUp(sh, env, p.frame).value].names, x);
  }

  lemma WriteAgrees(sh: SHeap, vh: Heap, a: nat, i: nat, v: Value)
    requires HeapAgrees(sh, vh) && a < |sh| && sh[a].SScope? && i < |sh[a].names| && vh[a].Vec?
    requires sh[a].names[i] !in sh[a].names[..i]
    ensures i + 1 < |vh[a].elems|
    ensures var k := sh[a := sh[a].(vals := sh[a].vals[sh[a].names[i] := v])];
            HeapAgrees(k, vh[a := Vec(vh[a].elems[i + 1 := v])]) && Ext(sh, k)
  {
    HeapDef(sh, vh);
    assert CellAgrees(sh[a], vh[a]);
    StoreAgrees(sh[a].names, sh[a].vals, vh[a].elems, i, v);
    UpdateAgrees(sh, vh, a, sh[a].(vals := sh[a].vals[sh[a].names[i] := v]), Vec(vh[a].elems[i + 1 := v]));
  }

  // ---- Scopes of blocks and calls ----

  lemma FreshSlots(names: seq<Sym>, parent: Value)
    ensures CellAgrees(SScope(parent, names, map[]), Vec([parent] + Nulls(|names|)))
  {
  }

  lemma {:induction false} ParamSlots(params: seq<Sym>, args: seq<Value>, i: nat)
    requires |params| == |args| && i < |params| && params[i] !in params[..i]
    ensures Lookup1(BindParams(params, args), params[i]) == args[i]
    decreases params
  {
    if i > 0 {
      assert params[..i][0] == params[0];
      assert params[1..][..i - 1] == params[1..i];
      ParamSlots(params[1..], args[1..], i - 1);
    }
  }

  // Linking an argument vector to a closure's environment makes it the scope
  // of the parameters.
  lemma CallSlots(fn: SCell, elems: seq<Value>)
    requires fn.SFunction? && elems != [] && |elems| - 1 == |fn.params|
    ensures CellAgrees(SScope(fn.env, fn.params, BindParams(fn.params, elems[1..])), Vec(elems[0 := fn.env]))
  {
    forall i | 0 <= i < |fn.params| && fn.params[i] !in fn.params[..i]
      ensures elems[0 := fn.env][i + 1] == Lookup1(BindParams(fn.params, elems[1..]), fn.params[i])
    {
      ParamSlots(fn.params, elems[1..], i);
    }
  }
}
