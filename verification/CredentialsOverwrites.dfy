/** CredentialsOverwrites: an order-dependent, memoised resolver whose observable answer is the plain
  * nearest-definition rule, and the overwriting of empty credential fields. */
module CredentialsOverwrites {
  import opened Wrappers
  import opened CredentialGraph
  import CredentialTypes

  /** A field value; two scalars are equal when they are the same scalar. */
  datatype Value = Undefined | Null | Text(text: string) | Number(number: int) | Flag(flag: bool)

  type Fields = map<string, Value>
  type Overwrites = map<string, Fields>

  predicate Defines(data: Overwrites, t: string, f: string) {
    t in data && f in data[t]
  }

  // ---------------------------------------------------------------- the specification

  /** `v` is what `raw` says about field `f` of type `t`: the type's own value, or else what it says about
    * some parent. */
  ghost predicate Sourced(g: Catalog, raw: Overwrites, t: string, f: string, v: Value)
    requires Acyclic(g)
    decreases Height(g, t)
  {
    if Defines(raw, t, f) then raw[t][f] == v
    else exists i :: 0 <= i < |Parents(g, t)| && (Below(g, t, i); Sourced(g, raw, Parents(g, t)[i], f, v))
  }

  lemma Below(g: Catalog, t: string, i: nat)
    requires Acyclic(g) && i < |Parents(g, t)|
    ensures Height(g, Parents(g, t)[i]) < Height(g, t)
  {
    ParentReaches(g, t, Parents(g, t)[i]);
    HeightDecreases(g, t, Parents(g, t)[i]);
  }

  ghost predicate SingleInheritance(g: Catalog) {
    forall t :: |Parents(g, t)| <= 1
  }

  /** On a chain of single parents: the value at the nearest type that defines the field. */
  ghost function Nearest(g: Catalog, raw: Overwrites, t: string, f: string): Option<Value>
    requires Acyclic(g) && SingleInheritance(g)
    decreases Height(g, t)
  {
    if Defines(raw, t, f) then Some(raw[t][f])
    else if |Parents(g, t)| == 0 then None
    else
      Below(g, t, 0);
      Nearest(g, raw, Parents(g, t)[0], f)
  }

  lemma {:induction false} SourcedIsNearest(g: Catalog, raw: Overwrites, t: string, f: string, v: Value)
    requires Acyclic(g) && SingleInheritance(g)
    ensures Sourced(g, raw, t, f, v) <==> Nearest(g, raw, t, f) == Some(v)
    decreases Height(g, t)
  {
    if !Defines(raw, t, f) && |Parents(g, t)| == 1 {
      Below(g, t, 0);
      SourcedIsNearest(g, raw, Parents(g, t)[0], f, v);
      assert Sourced(g, raw, t, f, v) <==> Sourced(g, raw, Parents(g, t)[0], f, v);
    }
  }

  /** The type or one of its ancestors defines the field. */
  ghost predicate Inherits(g: Catalog, data: Overwrites, t: string, f: string) {
    Defines(data, t, f) || exists u :: Reaches(g, t, u) && Defines(data, u, f)
  }

  /** What stored overwrites may be: the raw ones, each possibly completed with what it inherits. */
  ghost predicate Resolves(g: Catalog, raw: Overwrites, data: Overwrites)
    requires Acyclic(g)
  {
    && data.Keys == raw.Keys
    && (forall t, f :: Defines(raw, t, f) ==> Defines(data, t, f))
    && (forall t, f :: Defines(data, t, f) ==> Sourced(g, raw, t, f, data[t][f]))
  }

  /** What `raw` and the current data allow as the resolved overwrites of a type. */
  ghost predicate ResolvedFields(g: Catalog, raw: Overwrites, data: Overwrites, t: string, fields: Fields)
    requires Acyclic(g)
  {
    && (forall f :: Defines(data, t, f) ==> f in fields)
    && (forall f :: f in fields ==> Sourced(g, raw, t, f, fields[f]))
  }

  lemma StoredResolves(g: Catalog, raw: Overwrites, data: Overwrites, t: string, fields: Fields)
    requires Acyclic(g) && Resolves(g, raw, data) && t in data && ResolvedFields(g, raw, data, t, fields)
    ensures Resolves(g, raw, data[t := fields])
  {
    var r := data[t := fields];
    forall u, f | Defines(raw, u, f) ensures Defines(r, u, f) {
      assert Defines(data, u, f);
    }
    forall u, f | Defines(r, u, f) ensures Sourced(g, raw, u, f, r[u][f]) {
      assert u != t ==> Defines(data, u, f);
    }
  }

  /** A value sourced at the end of a path is sourced at its start if no node before the end defines the
    * field. */
  lemma {:induction false} SourcedAlong(g: Catalog, raw: Overwrites, path: seq<string>, f: string, v: Value)
    requires Acyclic(g) && IsPath(g, path) && Sourced(g, raw, path[|path| - 1], f, v)
    requires forall i :: 0 <= i < |path| - 1 ==> !Defines(raw, path[i], f)
    ensures Sourced(g, raw, path[0], f, v)
    decreases |path|
  {
    assert path[0 + 1] in Parents(g, path[0]);
    var i :| 0 <= i < |Parents(g, path[0])| && Parents(g, path[0])[i] == path[1];
    if |path| > 2 {
      SourcedAlong(g, raw, path[1..], f, v);
    }
    assert Sourced(g, raw, Parents(g, path[0])[i], f, v);
  }

  lemma {:induction false} SourcedInherits(g: Catalog, raw: Overwrites, t: string, f: string, v: Value)
    requires Acyclic(g) && Sourced(g, raw, t, f, v)
    ensures Inherits(g, raw, t, f)
    decreases Height(g, t)
  {
    if !Defines(raw, t, f) {
      var i :| 0 <= i < |Parents(g, t)| && Sourced(g, raw, Parents(g, t)[i], f, v);
      var p := Parents(g, t)[i];
      Below(g, t, i);
      ParentReaches(g, t, p);
      SourcedInherits(g, raw, p, f, v);
      if !Defines(raw, p, f) {
        var u :| Reaches(g, p, u) && Defines(raw, u, f);
        ReachesTransitive(g, t, p, u);
      }
    }
  }

  // ---------------------------------------------------------------- the merge in `get`

  /** Object.assign over the list from its last type to its first: the first definition in the list wins. */
  function Merged(data: Overwrites, names: seq<string>): Fields {
    if names == [] then map[]
    else Merged(data, names[1..]) + (if names[0] in data then data[names[0]] else map[])
  }

  lemma {:induction false} MergedFirst(data: Overwrites, names: seq<string>, f: string) returns (j: nat)
    ensures f in Merged(data, names) <==> exists i :: 0 <= i < |names| && Defines(data, names[i], f)
    ensures f in Merged(data, names) ==>
              && j < |names| && Defines(data, names[j], f) && Merged(data, names)[f] == data[names[j]][f]
              && forall i :: 0 <= i < j ==> !Defines(data, names[i], f)
    decreases |names|
  {
    j := 0;
    if names != [] && !Defines(data, names[0], f) {
      var k := MergedFirst(data, names[1..], f);
      j := k + 1;
      if exists i :: 0 <= i < |names| && Defines(data, names[i], f) {
        var i :| 0 <= i < |names| && Defines(data, names[i], f);
        assert names[1..][i - 1] == names[i];
      }
      if f in Merged(data, names) {
        assert names[j] == names[1..][k];
        forall i | 0 <= i < j ensures !Defines(data, names[i], f) {
          assert i > 0 ==> names[i] == names[1..][i - 1];
        }
      }
    }
  }

  /** The answer `get` owes for a type: exactly the fields the type or an ancestor defines, each with a
    * nearest value. */
  ghost predicate Answers(g: Catalog, raw: Overwrites, t: string, fields: Fields)
    requires Acyclic(g)
  {
    && (forall f :: f in fields <==> Inherits(g, raw, t, f))
    && (forall f :: f in fields ==> Sourced(g, raw, t, f, fields[f]))
  }

  lemma MergedAnswers(g: Catalog, raw: Overwrites, data: Overwrites, t: string, names: seq<string>)
    requires Acyclic(g) && Resolves(g, raw, data) && CredentialTypes.ListsAncestors(g, t, names)
    ensures Answers(g, raw, t, Merged(data, [t] + names))
  {
    forall f ensures f in Merged(data, [t] + names) <==> Inherits(g, raw, t, f)
      ensures f in Merged(data, [t] + names) ==> Sourced(g, raw, t, f, Merged(data, [t] + names)[f])
    {
      MergedField(g, raw, data, t, names, f);
    }
  }

  lemma MergedField(g: Catalog, raw: Overwrites, data: Overwrites, t: string, names: seq<string>, f: string)
    requires Acyclic(g) && Resolves(g, raw, data) && CredentialTypes.ListsAncestors(g, t, names)
    ensures f in Merged(data, [t] + names) <==> Inherits(g, raw, t, f)
    ensures f in Merged(data, [t] + names) ==> Sourced(g, raw, t, f, Merged(data, [t] + names)[f])
  {
    var all := [t] + names;
    var j := MergedFirst(data, all, f);
    if f in Merged(data, all) {
      var v := data[all[j]][f];
      if j > 0 {
        assert all[j] == names[j - 1];
        assert Via(g, t, names[j - 1], names[..j - 1]);
        var path :| IsPathVia(g, t, names[j - 1], names[..j - 1], path);
        forall i | 0 <= i < |path| - 1 ensures !Defines(raw, path[i], f) {
          if i == 0 {
            assert path[0] == all[0];
          } else {
            var k :| 0 <= k < j - 1 && names[..j - 1][k] == path[i];
            assert all[k + 1] == path[i];
          }
        }
        SourcedAlong(g, raw, path, f, v);
      }
      SourcedInherits(g, raw, t, f, v);
    }
    if Inherits(g, raw, t, f) {
      if Defines(raw, t, f) {
        assert Defines(data, all[0], f);
      } else {
        var u :| Reaches(g, t, u) && Defines(raw, u, f);
        assert u in names;
        var k :| 0 <= k < |names| && names[k] == u;
        assert Defines(data, all[k + 1], f);
      }
    }
  }

  // ---------------------------------------------------------------- what resolving reaches

  /** A chain of known types from `path[0]` upwards, none of them marked as resolved. */
  ghost predicate IsOpenPath(g: Catalog, marked: seq<string>, path: seq<string>) {
    && path != []
    && (forall i :: 0 <= i < |path| ==> path[i] in g && path[i] !in marked)
    && (forall i :: 0 <= i < |path| - 1 ==> path[i + 1] in Parents(g, path[i]))
  }

  ghost predicate OpenVia(g: Catalog, marked: seq<string>, a: string, b: string, path: seq<string>) {
    IsOpenPath(g, marked, path) && path[0] == a && path[|path| - 1] == b
  }

  /** `b` is `a` or an ancestor of it, with nothing unknown and nothing marked on some way up. */
  ghost predicate Open(g: Catalog, marked: seq<string>, a: string, b: string) {
    exists path :: OpenVia(g, marked, a, b, path)
  }

  lemma OpenSelf(g: Catalog, marked: seq<string>, t: string)
    requires t in g && t !in marked
    ensures Open(g, marked, t, t)
  {
    assert OpenVia(g, marked, t, t, [t]);
  }

  lemma OpenParent(g: Catalog, marked: seq<string>, t: string, p: string, u: string)
    requires t in g && t !in marked && p in Parents(g, t) && Open(g, marked, p, u)
    ensures Open(g, marked, t, u)
  {
    var path :| OpenVia(g, marked, p, u, path);
    assert OpenVia(g, marked, t, u, [t] + path);
  }

  /** A way up starts at the type itself or goes on from one of its parents. */
  lemma OpenFirst(g: Catalog, marked: seq<string>, t: string, u: string)
    requires Open(g, marked, t, u)
    ensures t in g && t !in marked
    ensures t == u || exists i :: 0 <= i < |Parents(g, t)| && Open(g, marked, Parents(g, t)[i], u)
  {
    var path :| OpenVia(g, marked, t, u, path);
    if |path| > 1 {
      assert path[0 + 1] in Parents(g, path[0]);
      var i :| 0 <= i < |Parents(g, t)| && Parents(g, t)[i] == path[1];
      assert OpenVia(g, marked, path[1], u, path[1..]);
    }
  }

  lemma OpenFewer(g: Catalog, marked: seq<string>, more: seq<string>, a: string, b: string)
    requires Open(g, more, a, b) && forall v :: v in marked ==> v in more
    ensures Open(g, marked, a, b)
  {
    var path :| OpenVia(g, more, a, b, path);
    assert OpenVia(g, marked, a, b, path);
  }

  lemma OpenJoin(g: Catalog, marked: seq<string>, a: string, b: string, c: string)
    requires Open(g, marked, a, b) && Open(g, marked, b, c)
    ensures Open(g, marked, a, c)
  {
    var p :| OpenVia(g, marked, a, b, p);
    var q :| OpenVia(g, marked, b, c, q);
    var r := p + q[1..];
    forall i | 0 <= i < |r| - 1 ensures r[i + 1] in Parents(g, r[i]) {
      if i >= |p| - 1 {
        assert r[i] == q[i - (|p| - 1)] && r[i + 1] == q[i + 1 - (|p| - 1)];
      }
    }
    assert OpenVia(g, marked, a, c, r);
  }

  /** With more types marked, a way up stays open or passes a newly marked type. */
  lemma OpenOrMarked(g: Catalog, marked: seq<string>, more: seq<string>, a: string, b: string)
    requires Open(g, marked, a, b)
    ensures Open(g, more, a, b)
            || exists v :: v in more && v !in marked && Open(g, marked, a, v) && Open(g, marked, v, b)
  {
    var path :| OpenVia(g, marked, a, b, path);
    if exists i :: 0 <= i < |path| && path[i] in more {
      var i :| 0 <= i < |path| && path[i] in more;
      assert OpenVia(g, marked, a, path[i], path[..i + 1]);
      assert OpenVia(g, marked, path[i], b, path[i..]);
    } else {
      assert OpenVia(g, more, a, b, path);
    }
  }

  /** The fields include all that `t` or an open ancestor of it defines. */
  ghost predicate Complete(g: Catalog, marked: seq<string>, data: Overwrites, t: string, fields: Fields) {
    forall u, f :: Open(g, marked, t, u) && Defines(data, u, f) ==> f in fields
  }

  /** What the loop over the parents has done: the types it marked are open from `t`, and what these and the
    * parents dealt with can reach is in. */
  ghost predicate Collecting(g: Catalog, before: seq<string>, now: seq<string>, data: Overwrites, t: string,
        n: nat, fields: Fields)
    requires n <= |Parents(g, t)|
  {
    && (forall v :: v in before ==> v in now)
    && (forall v :: v in now && v !in before ==> Open(g, before, t, v) && Complete(g, before, data, v, fields))
    && (forall i :: 0 <= i < n ==> Complete(g, before, data, Parents(g, t)[i], fields))
  }

  lemma CollectOne(g: Catalog, before: seq<string>, now: seq<string>, next: seq<string>, data: Overwrites,
        t: string, n: nat, fields: Fields, inherited: Option<Fields>)
    requires t in g && t !in before && n < |Parents(g, t)| && Collecting(g, before, now, data, t, n, fields)
    requires var p := Parents(g, t)[n];
             && (forall v :: v in now ==> v in next)
             && (forall v :: v in next && v !in now ==> Open(g, now, p, v))
             && (forall u, f :: Open(g, now, p, u) && Defines(data, u, f) ==> inherited.Some? && f in inherited.value)
    ensures Collecting(g, before, next, data, t, n + 1,
                       if inherited.Some? then fields + inherited.value else fields)
  {
    var p, all := Parents(g, t)[n], if inherited.Some? then fields + inherited.value else fields;
    forall v | Open(g, now, p, v) ensures Complete(g, before, data, v, all) {
      forall u, f | Open(g, before, v, u) && Defines(data, u, f) ensures f in all {
        OpenOrMarked(g, before, now, v, u);
        if Open(g, now, v, u) {
          OpenJoin(g, now, p, v, u);
        } else {
          var w :| w in now && w !in before && Open(g, before, v, w) && Open(g, before, w, u);
          assert Complete(g, before, data, w, fields);
        }
      }
    }
    forall v | v in next && v !in before ensures Open(g, before, t, v) && Complete(g, before, data, v, all) {
      if v !in now {
        OpenFewer(g, before, now, p, v);
        OpenParent(g, before, t, p, v);
      }
    }
    ParentCollected(g, before, now, data, p, fields, all);
  }

  lemma ParentCollected(g: Catalog, before: seq<string>, now: seq<string>, data: Overwrites, p: string,
        fields: Fields, all: Fields)
    requires forall v :: v in now && v !in before ==> Complete(g, before, data, v, fields)
    requires forall f :: f in fields ==> f in all
    requires forall v :: Open(g, now, p, v) ==> Complete(g, before, data, v, all)
    requires forall u, f :: Open(g, now, p, u) && Defines(data, u, f) ==> f in all
    ensures Complete(g, before, data, p, all)
  {
    forall u, f | Open(g, before, p, u) && Defines(data, u, f) ensures f in all {
      OpenOrMarked(g, before, now, p, u);
      if !Open(g, now, p, u) {
        var w :| w in now && w !in before && Open(g, before, p, w) && Open(g, before, w, u);
        assert Complete(g, before, data, w, fields);
      }
    }
  }

  lemma Collected(g: Catalog, before: seq<string>, now: seq<string>, data: Overwrites, t: string, fields: Fields,
        all: Fields)
    requires t in g && t !in before && Collecting(g, before, now, data, t, |Parents(g, t)|, fields)
    requires forall f :: f in all <==> f in fields || Defines(data, t, f)
    ensures Complete(g, before, data, t, all)
    ensures forall v :: v in now + [t] && v !in before ==> Open(g, before, t, v)
  {
    OpenSelf(g, before, t);
    forall u, f | Open(g, before, t, u) && Defines(data, u, f) ensures f in all {
      OpenFirst(g, before, t, u);
    }
  }

  // ---------------------------------------------------------------- the service

  class CredentialsOverwrites {
    const catalog: Catalog
    var overwriteData: Overwrites
    var resolvedTypes: seq<string>

    constructor (catalog: Catalog)
      ensures this.catalog == catalog && overwriteData == map[] && resolvedTypes == []
    {
      this.catalog, overwriteData, resolvedTypes := catalog, map[], [];
    }

    /** Replaces the overwrites. The loop may take the types in any order, and resolving one of them marks
      * its parents as resolved before their own turn. A type whose lineage no other overwritten type shares is
      * stored with every field it inherits, and whatever the order, some type is. */
    method SetPlainData(raw: Overwrites)
      requires Acyclic(catalog)
      modifies this
      ensures Resolves(catalog, raw, overwriteData)
      ensures forall t :: t in raw && Apart(catalog, raw, t) ==> Complete(catalog, [], raw, t, overwriteData[t])
      ensures raw != map[] ==> exists t :: t in raw && Complete(catalog, [], raw, t, overwriteData[t])
    {
      resolvedTypes := [];
      overwriteData := raw;
      var types := raw.Keys;
      RawResolves(catalog, raw);
      while types != {}
        invariant types <= raw.Keys && Resolves(catalog, raw, overwriteData)
        invariant Loading(catalog, raw, types, resolvedTypes, overwriteData)
        decreases |types|
      {
        var t :| t in types;
        ghost var marked, data := resolvedTypes, overwriteData;
        var overwrites := GetOverwrites(raw, t);
        if overwrites.Some? && |overwrites.value| > 0 {
          StoredResolves(catalog, raw, overwriteData, t, overwrites.value);
          overwriteData := overwriteData[t := overwrites.value];
        }
        LoadOne(catalog, raw, types, marked, resolvedTypes, data, overwriteData, t, overwrites);
        types := types - {t};
      }
    }

    /** `result` has every field that the type or an ancestor defines, as long as some way up to that ancestor
      * meets no unknown type and none that was marked before; and the types it marks are such ancestors. */
    method GetOverwrites(ghost raw: Overwrites, t: string) returns (result: Option<Fields>)
      requires Acyclic(catalog) && Resolves(catalog, raw, overwriteData)
      modifies this`resolvedTypes
      ensures result.Some? ==> ResolvedFields(catalog, raw, overwriteData, t, result.value)
      ensures forall u, f :: Open(catalog, old(resolvedTypes), t, u) && Defines(overwriteData, u, f) ==>
                result.Some? && f in result.value
      ensures forall v :: v in old(resolvedTypes) ==> v in resolvedTypes
      ensures forall v :: v in resolvedTypes && v !in old(resolvedTypes) ==> Open(catalog, old(resolvedTypes), t, v)
      decreases Height(catalog, t)
    {
      ghost var before := resolvedTypes;
      forall u | Open(catalog, before, t, u)
        ensures t in catalog && t !in before
        ensures t == u || exists i :: 0 <= i < |Parents(catalog, t)| && Open(catalog, before, Parents(catalog, t)[i], u)
      {
        OpenFirst(catalog, before, t, u);
      }
      if t in resolvedTypes {
        return if t in overwriteData then Some(overwriteData[t]) else None;
      }
      if t !in catalog {
        return None;
      }
      OpenSelf(catalog, before, t);
      if catalog[t].None? {
        resolvedTypes := resolvedTypes + [t];
        return if t in overwriteData then Some(overwriteData[t]) else None;
      }
      var overwrites: Fields := map[];
      var parents := catalog[t].value;
      for i := 0 to |parents|
        invariant forall f :: f in overwrites && !Defines(raw, t, f) ==> Sourced(catalog, raw, t, f, overwrites[f])
        invariant Collecting(catalog, before, resolvedTypes, overwriteData, t, i, overwrites)
      {
        Below(catalog, t, i);
        ghost var now := resolvedTypes;
        var inherited := GetOverwrites(raw, parents[i]);
        CollectOne(catalog, before, now, resolvedTypes, overwriteData, t, i, overwrites, inherited);
        if inherited.Some? {
          forall f | f in inherited.value && !Defines(raw, t, f)
            ensures Sourced(catalog, raw, t, f, inherited.value[f])
          {
            assert Sourced(catalog, raw, Parents(catalog, t)[i], f, inherited.value[f]);
          }
          overwrites := overwrites + inherited.value;
        }
      }
      ghost var inherited := overwrites;
      if t in overwriteData {
        overwrites := overwrites + overwriteData[t];
      }
      Collected(catalog, before, resolvedTypes, overwriteData, t, inherited, overwrites);
      resolvedTypes := resolvedTypes + [t];
      return Some(overwrites);
    }

    /** After SetPlainData(raw), whatever order it took. */
    method Get(ghost raw: Overwrites, name: string) returns (fields: Fields)
      requires Acyclic(catalog) && Resolves(catalog, raw, overwriteData)
      ensures Answers(catalog, raw, name, fields)
    {
      var parentTypes := CredentialTypes.GetParentTypes(catalog, name);
      fields := map[];
      var names := [name] + parentTypes;
      var i := |names|;
      while i > 0
        invariant 0 <= i <= |names| && fields == Merged(overwriteData, names[i..])
      {
        i := i - 1;
        assert names[i..][1..] == names[i + 1..];
        if names[i] in overwriteData {
          fields := fields + overwriteData[names[i]];
        }
      }
      assert names[0..] == names;
      MergedAnswers(catalog, raw, overwriteData, name, parentTypes);
    }

    /** Fills the empty fields of a credential from the overwrites in force; for a type on the skip list, only
      * if the user has set none of them to something else. */
    method ApplyOverwrite(ghost raw: Overwrites, skipTypes: seq<string>, t: string, data: Fields)
      returns (result: Fields, overwrites: Fields)
      requires Acyclic(catalog) && Resolves(catalog, raw, overwriteData)
      ensures Answers(catalog, raw, t, overwrites)
      ensures t !in skipTypes || !SetByUser(overwrites, data) ==> FilledIn(overwrites, data, result)
      ensures t in skipTypes && SetByUser(overwrites, data) ==> result == data
      ensures result == Applied(t in skipTypes, overwrites, data)
    {
      overwrites := Get(raw, t);
      AppliedFillsIn(t in skipTypes, overwrites, data);
      if t in skipTypes {
        var customized := AnyCustomized(overwrites, data);
        if customized {
          return data, overwrites;
        }
      }
      result := FillEmpty(overwrites, data);
    }
  }

  method AnyCustomized(overwrites: Fields, data: Fields) returns (customized: bool)
    ensures customized <==> Customized(overwrites, data)
  {
    var keys := overwrites.Keys;
    while keys != {}
      invariant keys <= overwrites.Keys
      invariant forall k :: k in overwrites && k !in keys ==> !CustomField(overwrites, data, k)
      decreases |keys|
    {
      var key :| key in keys;
      if CustomField(overwrites, data, key) {
        return true;
      }
      keys := keys - {key};
    }
    return false;
  }

  /** The credential with the overwritten keys in `done` dealt with. */
  function FilledOn(done: set<string>, overwrites: Fields, data: Fields): Fields
    requires done <= overwrites.Keys
  {
    map k | k in data.Keys + done :: if k in done && Empty(At(data, k)) then overwrites[k] else At(data, k)
  }

  lemma FilledOneMore(done: set<string>, overwrites: Fields, data: Fields, key: string)
    requires done <= overwrites.Keys && key in overwrites && key !in done
    ensures var before := FilledOn(done, overwrites, data);
            FilledOn(done + {key}, overwrites, data) ==
            if Empty(At(before, key)) then before[key := overwrites[key]] else before
  {
    var before := FilledOn(done, overwrites, data);
    assert At(before, key) == At(data, key);
    assert !Empty(At(data, key)) ==> key in data;
  }

  method FillEmpty(overwrites: Fields, data: Fields) returns (result: Fields)
    ensures result == Filled(overwrites, data)
  {
    result := data;
    var keys := overwrites.Keys;
    ghost var done: set<string> := {};
    while keys != {}
      invariant done <= overwrites.Keys && keys <= overwrites.Keys
      invariant forall k :: k in overwrites ==> (k in done <==> k !in keys)
      invariant result == FilledOn(done, overwrites, data)
      decreases |keys|
    {
      var key :| key in keys;
      FilledOneMore(done, overwrites, data, key);
      if Empty(At(result, key)) {
        result := result[key := overwrites[key]];
      }
      keys, done := keys - {key}, done + {key};
    }
    assert done == overwrites.Keys;
  }

  // ---------------------------------------------------------------- what loading stores

  /** No other overwritten type has a known ancestor, or itself, in common with `t`. */
  ghost predicate Apart(g: Catalog, raw: Overwrites, t: string) {
    forall s, v :: s in raw && s != t && Open(g, [], s, v) ==> !Open(g, [], t, v)
  }

  /** While types are still to be resolved: what is marked was reached from a type that is done; a type that is
    * apart and done is stored complete; and so is the first one done. */
  ghost predicate Loading(g: Catalog, raw: Overwrites, types: set<string>, marked: seq<string>, data: Overwrites) {
    && data.Keys == raw.Keys && types <= raw.Keys
    && (forall v :: v in marked ==> exists s :: s in raw && s !in types && Open(g, [], s, v))
    && (forall t :: t in raw && t !in types && Apart(g, raw, t) ==> Complete(g, [], raw, t, data[t]))
    && (types != raw.Keys ==> exists t :: t in raw && t !in types && Complete(g, [], raw, t, data[t]))
  }

  /** A type with nothing marked above it is stored complete. */
  lemma StoredComplete(g: Catalog, raw: Overwrites, marked: seq<string>, data: Overwrites, t: string,
        overwrites: Option<Fields>, stored: Fields)
    requires Acyclic(g) && Resolves(g, raw, data) && t in data
    requires forall u, f :: Open(g, marked, t, u) && Defines(data, u, f) ==> overwrites.Some? && f in overwrites.value
    requires stored == if overwrites.Some? && |overwrites.value| > 0 then overwrites.value else data[t]
    requires forall v :: v in marked ==> !Open(g, [], t, v)
    ensures Complete(g, [], raw, t, stored)
  {
    forall u, f | Open(g, [], t, u) && Defines(raw, u, f) ensures f in stored {
      OpenOrMarked(g, [], marked, t, u);
      assert Defines(data, u, f);
      assert f in overwrites.value;
    }
  }

  lemma LoadOne(g: Catalog, raw: Overwrites, types: set<string>, marked: seq<string>, now: seq<string>,
        data: Overwrites, after: Overwrites, t: string, overwrites: Option<Fields>)
    requires Acyclic(g) && Resolves(g, raw, data) && t in types && Loading(g, raw, types, marked, data)
    requires forall u, f :: Open(g, marked, t, u) && Defines(data, u, f) ==> overwrites.Some? && f in overwrites.value
    requires forall v :: v in now && v !in marked ==> Open(g, marked, t, v)
    requires after == if overwrites.Some? && |overwrites.value| > 0 then data[t := overwrites.value] else data
    ensures Loading(g, raw, types - {t}, now, after)
  {
    forall v | v in now ensures exists s :: s in raw && s !in types - {t} && Open(g, [], s, v) {
      if v !in marked {
        OpenFewer(g, [], marked, t, v);
      }
    }
    if Apart(g, raw, t) || types == raw.Keys {
      forall v | v in marked ensures !Open(g, [], t, v) {
        var s :| s in raw && s !in types && Open(g, [], s, v);
      }
      StoredComplete(g, raw, marked, data, t, overwrites, after[t]);
    }
    if types != raw.Keys {
      var first :| first in raw && first !in types && Complete(g, [], raw, first, data[first]);
      assert after[first] == data[first];
    }
  }

  lemma RawResolves(g: Catalog, raw: Overwrites)
    requires Acyclic(g)
    ensures Resolves(g, raw, raw)
  {
  }

  // ---------------------------------------------------------------- what callers see

  /** On single-inheritance catalogs the answer is determined field by field by the nearest definition, so
    * it depends on no order, on no early mark and on no earlier data. */
  lemma AnswersNearest(g: Catalog, raw: Overwrites, t: string, fields: Fields)
    requires Acyclic(g) && SingleInheritance(g) && Answers(g, raw, t, fields)
    ensures forall f :: f in fields <==> Nearest(g, raw, t, f).Some?
    ensures forall f :: f in fields ==> Nearest(g, raw, t, f) == Some(fields[f])
  {
    forall f ensures f in fields <==> Nearest(g, raw, t, f).Some?
      ensures f in fields ==> Nearest(g, raw, t, f) == Some(fields[f])
    {
      if f in fields {
        SourcedIsNearest(g, raw, t, f, fields[f]);
      } else if Nearest(g, raw, t, f).Some? {
        SourcedIsNearest(g, raw, t, f, Nearest(g, raw, t, f).value);
        SourcedInherits(g, raw, t, f, Nearest(g, raw, t, f).value);
      }
    }
  }

  lemma AnswerUnique(g: Catalog, raw: Overwrites, t: string, a: Fields, b: Fields)
    requires Acyclic(g) && SingleInheritance(g) && Answers(g, raw, t, a) && Answers(g, raw, t, b)
    ensures a == b
  {
    AnswersNearest(g, raw, t, a);
    AnswersNearest(g, raw, t, b);
  }

  lemma {:induction false} SourcedThrough(g: Catalog, raw: Overwrites, data: Overwrites, t: string, f: string, v: Value)
    requires Acyclic(g) && Resolves(g, raw, data) && Sourced(g, data, t, f, v)
    ensures Sourced(g, raw, t, f, v)
    decreases Height(g, t)
  {
    if !Defines(data, t, f) {
      var i :| 0 <= i < |Parents(g, t)| && Sourced(g, data, Parents(g, t)[i], f, v);
      Below(g, t, i);
      SourcedThrough(g, raw, data, Parents(g, t)[i], f, v);
    }
  }

  /** Saving happens after resolving, so what is stored and reloaded is the resolved data. Reloading it
    * changes no answer: an answer for the saved data is an answer for the original data. */
  lemma ReloadKeepsAnswers(g: Catalog, raw: Overwrites, saved: Overwrites, t: string, fields: Fields)
    requires Acyclic(g) && Resolves(g, raw, saved) && Answers(g, saved, t, fields)
    ensures Answers(g, raw, t, fields)
  {
    forall f ensures Inherits(g, saved, t, f) <==> Inherits(g, raw, t, f) {
      if Inherits(g, saved, t, f) {
        assert f in fields;
        SourcedThrough(g, raw, saved, t, f, fields[f]);
        SourcedInherits(g, raw, t, f, fields[f]);
      }
      if Inherits(g, raw, t, f) && !Defines(raw, t, f) {
        var u :| Reaches(g, t, u) && Defines(raw, u, f);
        assert Defines(saved, u, f);
      }
    }
    forall f | f in fields ensures Sourced(g, raw, t, f, fields[f]) {
      SourcedThrough(g, raw, saved, t, f, fields[f]);
    }
  }

  // ---------------------------------------------------------------- applying overwrites

  function At(data: Fields, key: string): Value {
    if key in data then data[key] else Undefined
  }

  predicate Empty(v: Value) {
    v == Undefined || v == Null || v == Text("")
  }

  /** The stored value of an overwritten field was set by the user. */
  predicate CustomField(overwrites: Fields, data: Fields, key: string)
    requires key in overwrites
  {
    !Empty(At(data, key)) && At(data, key) != overwrites[key]
  }

  predicate Customized(overwrites: Fields, data: Fields) {
    exists k :: k in overwrites && CustomField(overwrites, data, k)
  }

  function Filled(overwrites: Fields, data: Fields): Fields {
    map k | k in data.Keys + overwrites.Keys ::
      if k in overwrites && Empty(At(data, k)) then overwrites[k] else At(data, k)
  }

  function Applied(skip: bool, overwrites: Fields, data: Fields): Fields {
    if skip && Customized(overwrites, data) then data else Filled(overwrites, data)
  }

  /** The user has given an overwritten field a value of its own. */
  ghost predicate SetByUser(overwrites: Fields, data: Fields) {
    exists k :: k in overwrites && k in data && data[k] !in {Undefined, Null, Text("")} && data[k] != overwrites[k]
  }

  /** The overwritten fields that were absent, null or empty have the overwrites' values, and nothing else has
    * changed. */
  ghost predicate FilledIn(overwrites: Fields, data: Fields, result: Fields) {
    && result.Keys == data.Keys + overwrites.Keys
    && (forall k :: k in overwrites && (k !in data || data[k] in {Undefined, Null, Text("")}) ==>
          k in result && result[k] == overwrites[k])
    && (forall k :: k in data && (k !in overwrites || data[k] !in {Undefined, Null, Text("")}) ==>
          k in result && result[k] == data[k])
  }

  lemma AppliedFillsIn(skip: bool, overwrites: Fields, data: Fields)
    ensures !skip || !SetByUser(overwrites, data) ==> FilledIn(overwrites, data, Applied(skip, overwrites, data))
    ensures skip && SetByUser(overwrites, data) ==> Applied(skip, overwrites, data) == data
  {
    assert Customized(overwrites, data) <==> SetByUser(overwrites, data) by {
      if Customized(overwrites, data) {
        var k :| k in overwrites && CustomField(overwrites, data, k);
        assert k in data;
      }
      if SetByUser(overwrites, data) {
        var k :| k in overwrites && k in data && data[k] !in {Undefined, Null, Text("")} && data[k] != overwrites[k];
        assert CustomField(overwrites, data, k);
      }
    }
  }

  lemma FilledAt(overwrites: Fields, data: Fields, k: string)
    ensures At(Filled(overwrites, data), k) ==
            if k in overwrites && Empty(At(data, k)) then overwrites[k] else At(data, k)
  {
  }

  /** Applying twice is applying once. */
  lemma AppliedIdempotent(skip: bool, overwrites: Fields, data: Fields)
    ensures Applied(skip, overwrites, Applied(skip, overwrites, data)) == Applied(skip, overwrites, data)
  {
    if !(skip && Customized(overwrites, data)) {
      var once := Filled(overwrites, data);
      forall k | k in once ensures At(Filled(overwrites, once), k) == At(once, k) {
        FilledAt(overwrites, data, k);
        FilledAt(overwrites, once, k);
      }
      assert Filled(overwrites, once) == once;
      if skip {
        forall k | k in overwrites ensures !CustomField(overwrites, once, k) {
          FilledAt(overwrites, data, k);
        }
      }
    }
  }

  /** A stored value that is not empty is never changed, and no field is lost. */
  lemma AppliedKeepsValues(skip: bool, overwrites: Fields, data: Fields, k: string)
    requires k in data
    ensures k in Applied(skip, overwrites, data)
    ensures !Empty(data[k]) ==> Applied(skip, overwrites, data)[k] == data[k]
  {
  }

  /** For a type on the skip list it is all or nothing: a customized credential comes back as it is, any
    * other one agrees with the overwrites on every overwritten key and with the input elsewhere. */
  lemma SkipIsAllOrNothing(overwrites: Fields, data: Fields)
    ensures var r := Applied(true, overwrites, data);
            if Customized(overwrites, data) then r == data
            else forall k :: k in r.Keys + overwrites.Keys ==>
                   k in r && r[k] == if k in overwrites then overwrites[k] else At(data, k)
  {
    if !Customized(overwrites, data) {
      forall k | k in overwrites ensures !CustomField(overwrites, data, k) {
      }
    }
  }
}
