/**
 * The dirty-resource filter that builds a project patch: every resource is
 * walked, each own `__dirty` key whose value is `true` is deleted at any
 * depth, and only the resources in which such a key was found are kept.
 * The walk inspects every entry of a property list; on the objects
 * JavaScript builds, whose lists never repeat a key (`UniqueKeys`), that is
 * every own property once.
 */
module Patch {
  import opened JsValue
  import opened ResourceTypes

  /** An own property `__dirty` whose value is exactly `true`. */
  predicate DirtyPair(p: (string, Value)) {
    p.0 == "__dirty" && p.1 == Bool(true)
  }

  /** Whether a dirty mark occurs anywhere inside `v`. */
  predicate HasDirty(v: Value)
    decreases v, 1, 0
  {
    match v
    case Obj(ps) => DirtyIn(v, |ps|)
    case Arr(xs) => exists i | 0 <= i < |xs| :: HasDirty(xs[i])
    case _ => false
  }

  /** A dirty mark among the first `n` properties of the object `o`, or below them. */
  predicate DirtyIn(o: Value, n: nat)
    requires o.Obj? && n <= |o.props|
    decreases o, 0, n
  {
    n > 0 && (DirtyIn(o, n - 1) || DirtyPair(o.props[n - 1]) || HasDirty(o.props[n - 1].1))
  }

  /** `v` with every dirty mark deleted, at every depth. */
  function Clean(v: Value): Value
    decreases v, 1, 0
  {
    match v
    case Obj(ps) => Obj(CleanProps(v, |ps|))
    case Arr(xs) => Arr(seq(|xs|, i requires 0 <= i < |xs| => Clean(xs[i])))
    case _ => v
  }

  /** The first `n` properties of the object `o`, cleaned. */
  function CleanProps(o: Value, n: nat): Props
    requires o.Obj? && n <= |o.props|
    decreases o, 0, n
  {
    if n == 0 then []
    else if DirtyPair(o.props[n - 1]) then CleanProps(o, n - 1)
    else CleanProps(o, n - 1) + [(o.props[n - 1].0, Clean(o.props[n - 1].1))]
  }

  /**
   * `deepClean` together with the `foundDirty` flag it sets: walks the own
   * properties (or the elements) of `v` in order, drops each dirty mark and
   * cleans every other value.
   */
  method DeepClean(v: Value) returns (r: Value, found: bool)
    ensures r == Clean(v)
    ensures found == HasDirty(v)
    decreases v
  {
    match v
    case Obj(ps) =>
      var kept: Props := [];
      found := false;
      var i := 0;
      while i < |ps|
        invariant 0 <= i <= |ps|
        invariant kept == CleanProps(v, i)
        invariant found == DirtyIn(v, i)
      {
        if DirtyPair(ps[i]) {
          found := true;
        } else {
          var child, childFound := DeepClean(ps[i].1);
          kept := kept + [(ps[i].0, child)];
          found := found || childFound;
        }
        i := i + 1;
      }
      r := Obj(kept);
    case Arr(xs) =>
      var elems: seq<Value> := [];
      found := false;
      var i := 0;
      while i < |xs|
        invariant 0 <= i <= |xs|
        invariant elems == seq(i, j requires 0 <= j < i => Clean(xs[j]))
        invariant found <==> exists j | 0 <= j < i :: HasDirty(xs[j])
      {
        var child, childFound := DeepClean(xs[i]);
        elems := elems + [child];
        found := found || childFound;
        i := i + 1;
      }
      r := Arr(elems);
    case _ =>
      r, found := v, false;
  }

  /** `stripDirtyResource`: the cleaned resource when it held a dirty mark, else `undefined`. */
  function StripDirtyResource(v: Value): (r: Value)
    ensures r == Undefined <==> !HasDirty(v)
    ensures r != Undefined ==> r == Clean(v) && !HasDirty(r)
  {
    if HasDirty(v) then
      NoDirtyAfterClean(v);
      Clean(v)
    else Undefined
  }

  /** `arr.map(stripDirtyResource).filter(identity)` */
  function StripDirtyResources(arr: seq<Value>): seq<Value> {
    if arr == [] then []
    else
      var r := StripDirtyResource(arr[0]);
      (if Truthy(r) then [r] else []) + StripDirtyResources(arr[1..])
  }

  /** The resources that held a dirty mark, cleaned, in input order. */
  function DirtyOnly(arr: seq<Value>): seq<Value> {
    if arr == [] then []
    else (if HasDirty(arr[0]) then [Clean(arr[0])] else []) + DirtyOnly(arr[1..])
  }

  /** The patch sent to the project store. */
  datatype ResourcesPatch = ResourcesPatch(data: ProjectResources, paths: seq<string>)

  /** `buildCompressedProjectResourcesPatch` */
  function BuildPatch(res: ProjectResources): (p: ResourcesPatch)
    ensures p.paths == []
    ensures p.data.variables == res.variables && p.data.engineFieldValues == res.engineFieldValues
    ensures p.data.settings == res.settings && p.data.metadata == res.metadata
  {
    ResourcesPatch(
      ProjectResources(
        StripDirtyResources(res.scenes),
        StripDirtyResources(res.scripts),
        StripDirtyResources(res.sprites),
        StripDirtyResources(res.backgrounds),
        StripDirtyResources(res.emotes),
        StripDirtyResources(res.avatars),
        StripDirtyResources(res.fonts),
        StripDirtyResources(res.tilesets),
        StripDirtyResources(res.sounds),
        StripDirtyResources(res.music),
        StripDirtyResources(res.palettes),
        res.variables,
        res.engineFieldValues,
        res.settings,
        res.metadata),
      [])
  }

  // ---------------------------------------------------------------------
  // Properties of cleaning
  // ---------------------------------------------------------------------

  /** No dirty mark survives cleaning, at any depth. */
  lemma {:induction false} NoDirtyAfterClean(v: Value)
    ensures !HasDirty(Clean(v))
    decreases v, 1, 0
  {
    match v
    case Obj(ps) =>
      NoDirtyAfterCleanProps(v, |ps|);
    case Arr(xs) =>
      forall i | 0 <= i < |xs| ensures !HasDirty(Clean(v).elems[i]) {
        NoDirtyAfterClean(xs[i]);
      }
    case _ =>
  }

  lemma {:induction false} NoDirtyAfterCleanProps(o: Value, n: nat)
    requires o.Obj? && n <= |o.props|
    ensures !DirtyIn(Obj(CleanProps(o, n)), |CleanProps(o, n)|)
    decreases o, 0, n
  {
    if n > 0 {
      var init := CleanProps(o, n - 1);
      NoDirtyAfterCleanProps(o, n - 1);
      if !DirtyPair(o.props[n - 1]) {
        var p := o.props[n - 1];
        var r := init + [(p.0, Clean(p.1))];
        NoDirtyAfterClean(p.1);
        DirtyInPrefix(init, r, |init|);
      }
    }
  }

  /** `DirtyIn` only looks at the first `n` properties. */
  lemma {:induction false} DirtyInPrefix(a: Props, b: Props, n: nat)
    requires n <= |a| && n <= |b| && a[..n] == b[..n]
    ensures DirtyIn(Obj(a), n) == DirtyIn(Obj(b), n)
    decreases n
  {
    if n > 0 {
      assert a[n - 1] == a[..n][n - 1] == b[..n][n - 1] == b[n - 1];
      assert a[..n - 1] == a[..n][..n - 1];
      assert b[..n - 1] == b[..n][..n - 1];
      DirtyInPrefix(a, b, n - 1);
    }
  }

  /** A value without dirty marks is left exactly as it is. */
  lemma {:induction false} CleanIdentity(v: Value)
    requires !HasDirty(v)
    ensures Clean(v) == v
    decreases v, 1, 0
  {
    match v
    case Obj(ps) =>
      CleanPropsIdentity(v, |ps|);
    case Arr(xs) =>
      forall i | 0 <= i < |xs| ensures Clean(xs[i]) == xs[i] {
        CleanIdentity(xs[i]);
      }
    case _ =>
  }

  lemma {:induction false} CleanPropsIdentity(o: Value, n: nat)
    requires o.Obj? && n <= |o.props| && !DirtyIn(o, n)
    ensures CleanProps(o, n) == o.props[..n]
    decreases o, 0, n
  {
    if n > 0 {
      CleanPropsIdentity(o, n - 1);
      CleanIdentity(o.props[n - 1].1);
      assert o.props[..n] == o.props[..n - 1] + [o.props[n - 1]];
    }
  }

  /**
   * Cleaning keeps every key but the deleted marks: a key other than
   * `__dirty` stays, with its value cleaned, and a `__dirty` whose value is
   * not `true` stays too.
   */
  lemma {:induction false} CleanKeepsProperty(o: Value, n: nat, k: string)
    requires o.Obj? && n <= |o.props|
    requires k != "__dirty" || Get(o.props[..n], k) != Bool(true)
    ensures HasKey(CleanProps(o, n), k) <==> HasKey(o.props[..n], k)
    ensures Get(CleanProps(o, n), k) == Clean(Get(o.props[..n], k))
    decreases n
  {
    var ps := o.props[..n];
    if n > 0 {
      var p := o.props[n - 1];
      assert ps[..n - 1] == o.props[..n - 1];
      assert Keys(ps) == Keys(o.props[..n - 1]) + [p.0];
      if p.0 == k {
        // the last occurrence of `k` decides, and it is not a mark
        assert !DirtyPair(p);
        GetAppend(CleanProps(o, n - 1), p.0, Clean(p.1), k);
        KeysSet(CleanProps(o, n - 1), p.0, Clean(p.1));
        assert Keys(CleanProps(o, n)) == Keys(CleanProps(o, n - 1)) + [k];
      } else {
        assert Get(ps, k) == Get(o.props[..n - 1], k);
        CleanKeepsProperty(o, n - 1, k);
        if !DirtyPair(p) {
          GetAppend(CleanProps(o, n - 1), p.0, Clean(p.1), k);
          assert Keys(CleanProps(o, n)) == Keys(CleanProps(o, n - 1)) + [p.0];
        }
      }
    }
  }

  /** The same law for the whole object: only the dirty marks go. */
  lemma CleanGet(v: Value, k: string)
    requires v.Obj? && (k != "__dirty" || Get(v.props, k) != Bool(true))
    ensures HasKey(Clean(v).props, k) <==> HasKey(v.props, k)
    ensures Get(Clean(v).props, k) == Clean(Get(v.props, k))
  {
    assert v.props[..|v.props|] == v.props;
    CleanKeepsProperty(v, |v.props|, k);
  }

  /** Stripping an already stripped resource finds nothing more: the second pass yields `undefined`. */
  lemma StripTwice(v: Value)
    ensures StripDirtyResource(StripDirtyResource(v)) == Undefined
  {
    if HasDirty(v) {
      NoDirtyAfterClean(v);
    }
  }

  /** The filter keeps exactly the dirty resources, cleaned, in their order. */
  lemma {:induction false} StripDirtyResourcesKeepsDirty(arr: seq<Value>)
    ensures StripDirtyResources(arr) == DirtyOnly(arr)
    ensures |StripDirtyResources(arr)| <= |arr|
    ensures forall r | r in StripDirtyResources(arr) :: !HasDirty(r)
  {
    if arr != [] {
      StripDirtyResourcesKeepsDirty(arr[1..]);
      if HasDirty(arr[0]) {
        NoDirtyAfterClean(arr[0]);
        assert Clean(arr[0]).Obj? || Clean(arr[0]).Arr?;
      }
    }
  }

  /** Each kept resource was a dirty input, and each dirty input is kept. */
  lemma {:induction false} DirtyOnlyMembers(arr: seq<Value>, v: Value)
    ensures v in DirtyOnly(arr) <==> exists x | x in arr :: HasDirty(x) && Clean(x) == v
  {
    if arr != [] {
      DirtyOnlyMembers(arr[1..], v);
      assert arr == [arr[0]] + arr[1..];
      if v in DirtyOnly(arr) && !(v in DirtyOnly(arr[1..])) {
        assert HasDirty(arr[0]) && Clean(arr[0]) == v;
      }
      if exists x | x in arr :: HasDirty(x) && Clean(x) == v {
        var x :| x in arr && HasDirty(x) && Clean(x) == v;
        if x != arr[0] {
          assert x in arr[1..];
        }
      }
    }
  }

  // ---------------------------------------------------------------------
  // Marked resources
  // ---------------------------------------------------------------------

  lemma {:induction false} DirtyInFromGet(o: Value, n: nat)
    requires o.Obj? && n <= |o.props| && Get(o.props[..n], "__dirty") == Bool(true)
    ensures DirtyIn(o, n)
    decreases n
  {
    var ps := o.props[..n];
    if ps[n - 1].0 == "__dirty" {
      assert DirtyPair(o.props[n - 1]);
    } else {
      assert ps[..n - 1] == o.props[..n - 1];
      DirtyInFromGet(o, n - 1);
    }
  }

  /** An object whose own `__dirty` is `true` is dirty. */
  lemma MarkedIsDirty(v: Value)
    requires v.Obj? && Get(v.props, "__dirty") == Bool(true)
    ensures HasDirty(v)
  {
    assert v.props[..|v.props|] == v.props;
    DirtyInFromGet(v, |v.props|);
  }

  /** When every resource is dirty, the filter keeps all of them, cleaned, in order. */
  lemma {:induction false} AllDirtyKept(arr: seq<Value>)
    requires forall x | x in arr :: HasDirty(x)
    ensures StripDirtyResources(arr) == seq(|arr|, i requires 0 <= i < |arr| => Clean(arr[i]))
  {
    StripDirtyResourcesKeepsDirty(arr);
    if arr != [] {
      assert arr[0] in arr;
      assert forall x | x in arr[1..] :: x in arr;
      AllDirtyKept(arr[1..]);
      StripDirtyResourcesKeepsDirty(arr[1..]);
    }
  }
}
