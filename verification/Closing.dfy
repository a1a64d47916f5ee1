// What the isomorphism of a checkpoint says of single objects: which are
// saved, what becomes of their fields, and that connections come back closed.
module Closing {
  import opened Values
  import opened Graphs
  import opened Checkpoints
  import Paths

  // A field of the object leads to `b`; of a connection none counts.
  predicate Leads(x: Node, b: nat) {
    match x
    case Plain(_, _, fields) => Ptr(b) in fields
    case Raw(_) => false
    case Typed(kind, _, elems) => kind != T_CONNECTION && Ptr(b) in elems
    case Elems(elems) => Ptr(b) in elems
  }

  ghost function Edge(h: Graph): (nat, nat) -> bool {
    (a: nat, b: nat) => a in h && Leads(h[a], b)
  }

  lemma LeadsWithin(x: Node, c: set<nat>)
    ensures Within(Kids(x), c) <==> forall b | Leads(x, b) :: b in c
  {
    if Within(Kids(x), c) {
      forall b | Leads(x, b)
        ensures b in c
      {
        var i :| 0 <= i < |Kids(x)| && Kids(x)[i] == Ptr(b);
      }
    }
    if forall b | Leads(x, b) :: b in c {
      forall i | 0 <= i < |Kids(x)| && Kids(x)[i].Ptr?
        ensures Kids(x)[i].a in c
      {
        assert Leads(x, Kids(x)[i].a);
      }
    }
  }

  lemma ClosedByEdges(h: Graph, c: set<nat>)
    requires c <= h.Keys
    ensures Closed(h, c) <==> Paths.ClosedUnder(Edge(h), c)
  {
    forall a | a in c
      ensures Within(Kids(h[a]), c) <==> forall b | Leads(h[a], b) :: b in c
    {
      LeadsWithin(h[a], c);
    }
    if Paths.ClosedUnder(Edge(h), c) {
      forall a | a in c
        ensures Within(Kids(h[a]), c)
      {
        forall b | Leads(h[a], b)
          ensures b in c
        {
          assert Edge(h)(a, b);
        }
      }
    }
  }

  // Saved is what paths from the roots reach, and a path ends at a connection:
  // what only connections point to is not saved.
  lemma SavedIsReachable(h: Graph, roots: seq<Val>, f: map<nat, nat>, vs: seq<Val>, g: Store, a: nat)
    requires Isomorphic(h, roots, f, vs, g)
    ensures a in f <==> Paths.Reachable(Edge(h), Paths.Targets(roots), a)
  {
    var c := f.Keys;
    Paths.TargetsWithin(roots, c);
    ClosedByEdges(h, c);
    forall d: set<nat> | Paths.Targets(roots) <= d <= c && Paths.ClosedUnder(Edge(h), d)
      ensures c <= d
    {
      Paths.TargetsWithin(roots, d);
      ClosedByEdges(h, d);
    }
    Paths.LeastIsReachable(Edge(h), Paths.Targets(roots), c);
  }

  // An object to which at most connections point is left behind.
  lemma LeftBehind(h: Graph, roots: seq<Val>, f: map<nat, nat>, vs: seq<Val>, g: Store, a: nat)
    requires Isomorphic(h, roots, f, vs, g) && a !in Paths.Targets(roots)
    requires forall b | b in h && !(h[b].Typed? && h[b].kind == T_CONNECTION) :: !Leads(h[b], a)
    ensures a !in f
  {
    var c := f.Keys - {a};
    Paths.TargetsWithin(roots, f.Keys);
    Paths.TargetsWithin(roots, c);
    forall b | b in c
      ensures Within(Kids(h[b]), c)
    {
      LeadsWithin(h[b], f.Keys);
      LeadsWithin(h[b], c);
    }
    assert Closed(h, c);
  }

  // Pointers follow the correspondence, numbers keep thirty-two bits.
  predicate SameField(v: Val, u: Val, f: map<nat, nat>) {
    match v
    case Nothing => u == Nothing
    case Int(n) => u.Int? && (u.n - n) % 0x1_0000_0000 == 0 && -0x8000_0000 <= u.n < 0x8000_0000
    case Singleton(k) => u == Singleton(k % 256)
    case Ptr(a) => a in f && u == Ptr(f[a])
  }

  predicate SameFields(vs: seq<Val>, us: seq<Val>, f: map<nat, nat>) {
    |us| == |vs| && forall i | 0 <= i < |vs| :: SameField(vs[i], us[i], f)
  }

  lemma FieldsFollow(vs: seq<Val>, us: seq<Val>, f: map<nat, nat>)
    requires Mapped(vs, us, f) && Within(vs, f.Keys)
    ensures SameFields(vs, us, f)
  {
    forall i | 0 <= i < |vs|
      ensures SameField(vs[i], us[i], f)
    {
      assert us[i] == Follow(vs[i], f);
    }
  }

  // Every connection comes back closed, with nothing in its four slots; every
  // other object with its flags and each field in its place.
  lemma ConnectionsClosed(h: Graph, roots: seq<Val>, f: map<nat, nat>, vs: seq<Val>, g: Store, a: nat)
    requires Sound(h) && Isomorphic(h, roots, f, vs, g) && a in f
    ensures a in h && f[a] < |g|
    ensures match h[a]
            case Plain(flags, fin, fields) =>
              && g[f[a]].Plain? && g[f[a]].flags == flags && g[f[a]].finalize == fin
              && SameFields(fields, g[f[a]].fields, f)
            case Raw(bytes) => g[f[a]] == Raw(bytes)
            case Typed(kind, fin, elems) =>
              && g[f[a]].Typed? && g[f[a]].kind == kind && g[f[a]].finalize == fin
              && if kind == T_CONNECTION then g[f[a]].elems == [Nothing, Nothing, Nothing, Nothing]
                 else SameFields(elems, g[f[a]].elems, f)
            case Elems(elems) => g[f[a]].Elems? && SameFields(elems, g[f[a]].elems, f)
  {
    var x, y := h[a], g[f[a]];
    assert NodeMapped(x, y, f) && Within(Kids(x), f.Keys);
    match x
    case Plain(_, _, fields) => FieldsFollow(fields, y.fields, f);
    case Raw(_) =>
    case Typed(kind, _, elems) => if kind != T_CONNECTION { FieldsFollow(elems, y.elems, f); }
    case Elems(elems) => FieldsFollow(elems, y.elems, f);
  }
}
