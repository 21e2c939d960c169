/** Inheritance between credential types: paths, ancestors, and the measures behind the closure loop. */
module CredentialGraph {
  import opened Wrappers

  /** The known credential types. `None` stands for a type without `extends`. */
  type Catalog = map<string, Option<seq<string>>>

  function Parents(g: Catalog, t: string): seq<string> {
    if t in g && g[t].Some? then g[t].value else []
  }

  ghost predicate IsPath(g: Catalog, path: seq<string>) {
    |path| >= 2 && forall i :: 0 <= i < |path| - 1 ==> path[i + 1] in Parents(g, path[i])
  }

  /** A path from `a` to `b` whose inner nodes all occur in `inner`. */
  ghost predicate IsPathVia(g: Catalog, a: string, b: string, inner: seq<string>, path: seq<string>) {
    && IsPath(g, path) && path[0] == a && path[|path| - 1] == b
    && forall i :: 0 < i < |path| - 1 ==> path[i] in inner
  }

  ghost predicate Via(g: Catalog, a: string, b: string, inner: seq<string>) {
    exists path :: IsPathVia(g, a, b, inner, path)
  }

  ghost predicate Connects(g: Catalog, a: string, b: string, path: seq<string>) {
    IsPath(g, path) && path[0] == a && path[|path| - 1] == b
  }

  /** `b` is a proper ancestor of `a`. */
  ghost predicate Reaches(g: Catalog, a: string, b: string) {
    exists path :: Connects(g, a, b, path)
  }

  ghost predicate Acyclic(g: Catalog) {
    forall t :: !Reaches(g, t, t)
  }

  lemma ParentReaches(g: Catalog, a: string, b: string)
    requires b in Parents(g, a)
    ensures Reaches(g, a, b) && Via(g, a, b, [])
  {
    assert Connects(g, a, b, [a, b]) && IsPathVia(g, a, b, [], [a, b]);
  }

  lemma Join(g: Catalog, p: seq<string>, q: seq<string>)
    requires IsPath(g, p) && IsPath(g, q) && p[|p| - 1] == q[0]
    ensures IsPath(g, p + q[1..])
  {
    var r := p + q[1..];
    forall i | 0 <= i < |r| - 1 ensures r[i + 1] in Parents(g, r[i]) {
      if i >= |p| - 1 {
        assert r[i] == q[i - (|p| - 1)] && r[i + 1] == q[i + 1 - (|p| - 1)];
      }
    }
  }

  lemma ReachesTransitive(g: Catalog, a: string, b: string, c: string)
    requires Reaches(g, a, b) && Reaches(g, b, c)
    ensures Reaches(g, a, c)
  {
    var p :| Connects(g, a, b, p);
    var q :| Connects(g, b, c, q);
    Join(g, p, q);
    assert Connects(g, a, c, p + q[1..]);
  }

  lemma ViaTransitive(g: Catalog, a: string, b: string, c: string, s: seq<string>, t: seq<string>, inner: seq<string>)
    requires Via(g, a, b, s) && Via(g, b, c, t)
    requires b in inner && (forall x :: x in s ==> x in inner) && (forall x :: x in t ==> x in inner)
    ensures Via(g, a, c, inner)
  {
    var p :| IsPathVia(g, a, b, s, p);
    var q :| IsPathVia(g, b, c, t, q);
    Join(g, p, q);
    var r := p + q[1..];
    forall i | 0 < i < |r| - 1 ensures r[i] in inner {
      if i >= |p| - 1 {
        assert r[i] == q[i - (|p| - 1)];
      }
    }
    assert IsPathVia(g, a, c, inner, r);
  }

  /** The first edge of a path. */
  lemma ReachesFirst(g: Catalog, a: string, b: string) returns (p: string)
    requires Reaches(g, a, b)
    ensures p in Parents(g, a) && (p == b || Reaches(g, p, b))
  {
    var path :| Connects(g, a, b, path);
    p := path[1];
    if |path| > 2 {
      assert Connects(g, p, b, path[1..]);
    }
  }

  // ---------------------------------------------------------------- ancestor sets

  ghost function ParentNames(g: Catalog): set<string> {
    set t, i | t in g && 0 <= i < |Parents(g, t)| :: Parents(g, t)[i]
  }

  ghost function Ancestors(g: Catalog, t: string): set<string> {
    set x | x in ParentNames(g) && Reaches(g, t, x)
  }

  lemma InAncestors(g: Catalog, t: string, x: string)
    ensures x in Ancestors(g, t) <==> Reaches(g, t, x)
  {
    if Reaches(g, t, x) {
      var path :| Connects(g, t, x, path);
      var u := path[|path| - 2];
      assert path[|path| - 2 + 1] in Parents(g, u);
      var i :| 0 <= i < |Parents(g, u)| && Parents(g, u)[i] == x;
      assert x in ParentNames(g);
    }
  }

  /** How many ancestors a type has: strictly fewer for each ancestor of an acyclic catalog. */
  ghost function Height(g: Catalog, t: string): nat {
    |Ancestors(g, t)|
  }

  lemma HeightDecreases(g: Catalog, t: string, x: string)
    requires Acyclic(g) && Reaches(g, t, x)
    ensures Height(g, x) < Height(g, t)
  {
    forall y | y in Ancestors(g, x) ensures y in Ancestors(g, t) {
      InAncestors(g, x, y);
      ReachesTransitive(g, t, x, y);
      InAncestors(g, t, y);
    }
    InAncestors(g, t, x);
    InAncestors(g, x, x);
    SmallerSet(Ancestors(g, x), Ancestors(g, t), x);
  }

  lemma SmallerSet(a: set<string>, b: set<string>, x: string)
    requires a <= b && x in b && x !in a
    ensures |a| < |b|
  {
    assert b == (b - a) + a;
    assert x in b - a;
  }

  // ---------------------------------------------------------------- the weight of pending types

  /** A bound on the number of parents of any type. */
  ghost function Width(g: Catalog): (w: nat)
    ensures forall t :: |Parents(g, t)| <= w
    decreases |g.Keys|
  {
    if g.Keys == {} then 0
    else
      var t :| t in g;
      var rest := g - {t};
      assert |rest.Keys| < |g.Keys| by { assert rest.Keys == g.Keys - {t}; }
      assert forall u :: u != t ==> Parents(rest, u) == Parents(g, u);
      if |Parents(g, t)| > Width(rest) then |Parents(g, t)| else Width(rest)
  }

  /** Weight of a pending type with `h` ancestors: one visit, plus everything the visit can push. */
  ghost function Weight(width: nat, h: nat): (w: nat)
    ensures w >= 1
  {
    if h == 0 then 1 else 1 + width * Weight(width, h - 1) * Weight(width, h - 1)
  }

  lemma {:induction false} WeightMonotone(width: nat, a: nat, b: nat)
    requires a <= b
    ensures Weight(width, a) <= Weight(width, b)
    decreases b
  {
    if a < b {
      WeightMonotone(width, a, b - 1);
      StepUp(width, Weight(width, b - 1), b);
    }
  }

  lemma StepUp(width: nat, w: nat, b: nat)
    requires b > 0 && w == Weight(width, b - 1)
    ensures w <= Weight(width, b)
  {
    if width == 0 {
      assert b - 1 > 0 ==> width * Weight(width, b - 2) * Weight(width, b - 2) == 0;
    } else {
      assert width * w * w >= w by { MulGrows(width, w); }
    }
  }

  lemma MulGrows(width: nat, w: nat)
    requires width >= 1 && w >= 1
    ensures width * w * w >= w
  {
    assert width * w >= w;
    assert (width * w) * w >= w;
  }

  ghost function Mass(g: Catalog, pending: seq<string>): nat {
    if pending == [] then 0 else Weight(Width(g), Height(g, pending[0])) + Mass(g, pending[1..])
  }

  lemma {:induction false} MassConcat(g: Catalog, a: seq<string>, b: seq<string>)
    ensures Mass(g, a + b) == Mass(g, a) + Mass(g, b)
    decreases |a|
  {
    if a == [] {
      assert a + b == b;
    } else {
      MassConcat(g, a[1..], b);
      assert (a + b)[1..] == a[1..] + b;
    }
  }

  lemma {:induction false} MassBound(g: Catalog, pending: seq<string>, h: nat)
    requires forall x :: x in pending ==> Height(g, x) <= h
    ensures Mass(g, pending) <= |pending| * Weight(Width(g), h)
    decreases |pending|
  {
    if pending != [] {
      WeightMonotone(Width(g), Height(g, pending[0]), h);
      MassBound(g, pending[1..], h);
      OneMore(|pending|, Weight(Width(g), h));
    }
  }

  lemma OneMore(n: nat, w: nat)
    requires n > 0
    ensures n * w == w + (n - 1) * w
  {
  }

  lemma MulMonotone(a: nat, b: nat, c: nat)
    requires a <= b
    ensures a * c <= b * c
  {
  }

  /** At most this many names are listed for a type with `h` ancestors. */
  ghost function ListBound(g: Catalog, h: nat): nat {
    if h == 0 then 0 else Width(g) * Weight(Width(g), h - 1)
  }

  /** What visiting `x` pushes weighs less than `x`. */
  lemma PushedIsLighter(g: Catalog, x: string, pushed: seq<string>)
    requires Acyclic(g) && (forall y :: y in pushed ==> Reaches(g, x, y)) && |pushed| <= ListBound(g, Height(g, x))
    ensures Mass(g, pushed) < Weight(Width(g), Height(g, x))
  {
    if pushed != [] {
      HeightDecreases(g, x, pushed[0]);
      var h := Height(g, x) - 1;
      forall y | y in pushed ensures Height(g, y) <= h {
        HeightDecreases(g, x, y);
      }
      MassBound(g, pushed, h);
      OutweighsList(Width(g), h, |pushed|);
    }
  }

  lemma OutweighsList(width: nat, h: nat, n: nat)
    requires n <= width * Weight(width, h)
    ensures n * Weight(width, h) < Weight(width, h + 1)
  {
    MulMonotone(n, width * Weight(width, h), Weight(width, h));
  }
}
