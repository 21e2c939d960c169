/** CredentialTypes.getParentTypes: a closure computed by a loop over the array it grows. */
module CredentialTypes {
  import opened CredentialGraph

  /** All proper ancestors and nothing else, with repetitions; each one listed after the inner nodes of some
    * inheritance path that leads to it. */
  ghost predicate ListsAncestors(g: Catalog, t: string, names: seq<string>) {
    && (forall x :: x in names <==> Reaches(g, t, x))
    && (forall j :: 0 <= j < |names| ==> Via(g, t, names[j], names[..j]))
  }

  /** The listing while the loop is at index `i`. */
  ghost predicate Growing(g: Catalog, t: string, names: seq<string>, i: nat)
    requires i <= |names|
  {
    && (forall x :: x in Parents(g, t) ==> x in names)
    && (forall x :: x in names ==> Reaches(g, t, x))
    && (forall j :: 0 <= j < |names| ==> Via(g, t, names[j], names[..j]))
    && (forall j, x :: 0 <= j < i && Reaches(g, names[j], x) ==> x in names)
  }

  method GetParentTypes(g: Catalog, typeName: string) returns (names: seq<string>)
    requires Acyclic(g)
    ensures ListsAncestors(g, typeName, names)
    ensures |names| <= ListBound(g, Height(g, typeName))
    decreases Height(g, typeName)
  {
    var extendsArr := Parents(g, typeName);
    if |extendsArr| == 0 {
      NoParents(g, typeName);
      return [];
    }
    names := extendsArr;
    var i := 0;
    StartLoop(g, typeName);
    while i < |names|
      invariant i <= |names| && Growing(g, typeName, names, i)
      invariant i + Mass(g, names[i..]) <= ListBound(g, Height(g, typeName))
      decreases Mass(g, names[i..])
    {
      HeightDecreases(g, typeName, names[i]);
      var pushed := GetParentTypes(g, names[i]);
      Visit(g, typeName, names, i, pushed);
      Lighter(g, names, i, pushed);
      names := names + pushed;
      i := i + 1;
    }
    Complete(g, typeName, names);
  }

  lemma NoParents(g: Catalog, t: string)
    requires Parents(g, t) == []
    ensures ListsAncestors(g, t, [])
  {
    forall x ensures !Reaches(g, t, x) {
      if Reaches(g, t, x) {
        var p := ReachesFirst(g, t, x);
      }
    }
  }

  lemma StartLoop(g: Catalog, t: string)
    requires Acyclic(g) && Parents(g, t) != []
    ensures Growing(g, t, Parents(g, t), 0) && Mass(g, Parents(g, t)[0..]) <= ListBound(g, Height(g, t))
  {
    assert Parents(g, t)[0..] == Parents(g, t);
    var names := Parents(g, t);
    forall j | 0 <= j < |names| ensures Reaches(g, t, names[j]) && Via(g, t, names[j], names[..j]) {
      ParentReaches(g, t, names[j]);
      var path :| IsPathVia(g, t, names[j], [], path);
      assert IsPathVia(g, t, names[j], names[..j], path);
    }
    HeightDecreases(g, t, names[0]);
    var h := Height(g, t) - 1;
    forall x | x in names ensures Height(g, x) <= h {
      HeightDecreases(g, t, x);
    }
    MassBound(g, names, h);
    MulMonotone(|names|, Width(g), Weight(Width(g), h));
  }

  /** One visit makes the pending part of the array lighter. */
  lemma Lighter(g: Catalog, names: seq<string>, i: nat, pushed: seq<string>)
    requires Acyclic(g) && i < |names| && ListsAncestors(g, names[i], pushed)
             && |pushed| <= ListBound(g, Height(g, names[i]))
    ensures Mass(g, (names + pushed)[i + 1..]) < Mass(g, names[i..])
  {
    PushedIsLighter(g, names[i], pushed);
    MassConcat(g, names[i + 1..], pushed);
    assert (names + pushed)[i + 1..] == names[i + 1..] + pushed;
    assert names[i..][1..] == names[i + 1..];
  }

  /** Pushing the ancestors of the visited type keeps the listing in discovery order. */
  lemma Visit(g: Catalog, t: string, names: seq<string>, i: nat, pushed: seq<string>)
    requires i < |names| && ListsAncestors(g, names[i], pushed) && Growing(g, t, names, i)
    ensures Growing(g, t, names + pushed, i + 1)
  {
    var all := names + pushed;
    forall x | x in pushed ensures Reaches(g, t, x) {
      ReachesTransitive(g, t, names[i], x);
    }
    forall j | 0 <= j < |all| ensures Via(g, t, all[j], all[..j]) {
      PushedVia(g, t, names, i, pushed, j);
    }
  }

  lemma PushedVia(g: Catalog, t: string, names: seq<string>, i: nat, pushed: seq<string>, j: nat)
    requires i < |names| && ListsAncestors(g, names[i], pushed) && Growing(g, t, names, i) && j < |names + pushed|
    ensures Via(g, t, (names + pushed)[j], (names + pushed)[..j])
  {
    var all := names + pushed;
    if j < |names| {
      assert all[..j] == names[..j];
    } else {
      var k := j - |names|;
      assert all[..j] == names + pushed[..k];
      assert names[i] in all[..j];
      ViaTransitive(g, t, names[i], pushed[k], names[..i], pushed[..k], all[..j]);
    }
  }

  lemma Complete(g: Catalog, t: string, names: seq<string>)
    requires Growing(g, t, names, |names|)
    ensures ListsAncestors(g, t, names)
  {
    forall x | Reaches(g, t, x) ensures x in names {
      var p := ReachesFirst(g, t, x);
      if p != x {
        var j :| 0 <= j < |names| && names[j] == p;
      }
    }
  }
}
