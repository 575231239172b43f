/**
 * `loadProject`: reads a project for the editor.  The stored project
 * document is migrated, every discovered asset is merged with its stored
 * entry (see `LoadProjectAssets`), entities without an id get a fresh one,
 * the built-in palettes are backfilled, and the per-entity resource files
 * found under `project/` are linked into scene, actor, trigger, script,
 * background and variable resources.
 */
module LoadProjectData {
  import opened JsValue
  import opened Text
  import opened Paths
  import opened Sorting
  import opened ResourceTypes
  import opened LoadProjectResources
  import opened LoadProjectAssets

  // ---------------------------------------------------------------------
  // Entity ids
  // ---------------------------------------------------------------------

  /** `addMissingEntityId(entity)`: an entity without a (truthy) id gets `{...entity, id: uuid()}`. */
  function AddMissingEntityId(entity: Value, freshId: string): Value {
    if !Truthy(Prop(entity, "id")) then Obj(Set(SpreadSource(entity), "id", Str(freshId)))
    else entity
  }

  /**
   * An entity with an id is returned as it is; one without gets the fresh
   * id and keeps every other named field.
   */
  lemma AddMissingEntityIdFields(entity: Value, freshId: string, k: string)
    requires !IndexLike(k)
    ensures Truthy(Prop(entity, "id")) ==> AddMissingEntityId(entity, freshId) == entity
    ensures !Truthy(Prop(entity, "id")) ==> Prop(AddMissingEntityId(entity, freshId), "id") == Str(freshId)
    ensures k != "id" ==> Prop(AddMissingEntityId(entity, freshId), k) == Prop(entity, k)
  {
    GetSet(SpreadSource(entity), "id", Str(freshId), k);
    GetSet(SpreadSource(entity), "id", Str(freshId), "id");
    SpreadSourceNamed(entity, k);
  }

  /** With a non-empty fresh id the result always has an id, so a second pass changes nothing. */
  lemma AddMissingEntityIdIdempotent(entity: Value, freshId: string, again: string)
    requires freshId != ""
    ensures Truthy(Prop(AddMissingEntityId(entity, freshId), "id"))
    ensures AddMissingEntityId(AddMissingEntityId(entity, freshId), again) == AddMissingEntityId(entity, freshId)
  {
    GetSet(SpreadSource(entity), "id", Str(freshId), "id");
  }

  /** `list.map(addMissingEntityId)`; the `i`-th call of `uuid()` is site `EntityId(name, outer, i)`. */
  function FixEntities(list: seq<Value>, uuid: UuidSite -> string, name: string, outer: nat): (fixed: seq<Value>)
    ensures |fixed| == |list|
  {
    seq(|list|, i requires 0 <= i < |list| => AddMissingEntityId(list[i], uuid(EntityId(name, outer, i))))
  }

  /** Every entity of a fixed list has an id, as long as `uuid()` never returns the empty string. */
  lemma FixedEntitiesHaveIds(list: seq<Value>, uuid: UuidSite -> string, name: string, outer: nat)
    requires forall site :: uuid(site) != ""
    ensures forall i | 0 <= i < |list| :: Truthy(Prop(FixEntities(list, uuid, name, outer)[i], "id"))
  {
    forall i | 0 <= i < |list| ensures Truthy(Prop(FixEntities(list, uuid, name, outer)[i], "id")) {
      AddMissingEntityIdIdempotent(list[i], uuid(EntityId(name, outer, i)), "");
    }
  }

  /** `{...scene, actors: scene.actors.map(addMissingEntityId), triggers: ...}` for the `index`-th scene. */
  function FixScene(scene: Value, uuid: UuidSite -> string, index: nat): Value
    requires SceneShaped(scene)
  {
    var actors := FixEntities(Prop(scene, "actors").elems, uuid, "scenes.actors", index);
    var triggers := FixEntities(Prop(scene, "triggers").elems, uuid, "scenes.triggers", index);
    Obj(Set(Set(SpreadSource(scene), "actors", Arr(actors)), "triggers", Arr(triggers)))
  }

  /** The stored scenes with ids added to their actors and triggers. */
  function FixScenes(scenes: seq<Value>, uuid: UuidSite -> string): (fixed: seq<Value>)
    requires forall i | 0 <= i < |scenes| :: SceneShaped(scenes[i])
    ensures |fixed| == |scenes|
  {
    seq(|scenes|, i requires 0 <= i < |scenes| => FixScene(scenes[i], uuid, i))
  }

  /**
   * A fixed scene keeps every field but its actors and triggers, which are
   * the stored ones with missing ids added.
   */
  lemma FixedScene(scene: Value, uuid: UuidSite -> string, index: nat, k: string)
    requires SceneShaped(scene) && !IndexLike(k)
    ensures var r := FixScene(scene, uuid, index);
      && Prop(r, "actors") == Arr(FixEntities(Prop(scene, "actors").elems, uuid, "scenes.actors", index))
      && Prop(r, "triggers") == Arr(FixEntities(Prop(scene, "triggers").elems, uuid, "scenes.triggers", index))
      && (k != "actors" && k != "triggers" ==> Prop(r, k) == Prop(scene, k))
  {
    var actors := Arr(FixEntities(Prop(scene, "actors").elems, uuid, "scenes.actors", index));
    var triggers := Arr(FixEntities(Prop(scene, "triggers").elems, uuid, "scenes.triggers", index));
    var base := Set(SpreadSource(scene), "actors", actors);
    GetSet(base, "triggers", triggers, "actors");
    GetSet(base, "triggers", triggers, "triggers");
    GetSet(base, "triggers", triggers, k);
    GetSet(SpreadSource(scene), "actors", actors, "actors");
    GetSet(SpreadSource(scene), "actors", actors, k);
    SpreadSourceNamed(scene, k);
  }

  // ---------------------------------------------------------------------
  // Palettes
  // ---------------------------------------------------------------------

  /** A palette entry of the built-in catalogue: id, name and four colours. */
  type PaletteEntry = (string, string, string, string, string, string)

  /** The palette object `{id, name, colors}` of a catalogue entry. */
  function Palette(e: PaletteEntry): Value {
    Obj([("id", Str(e.0)), ("name", Str(e.1)), ("colors", Arr([Str(e.2), Str(e.3), Str(e.4), Str(e.5)]))])
  }

  /** The eight built-in palettes every project carries. */
  const DefaultPaletteTable: seq<PaletteEntry> := [
    ("default-bg-1", "Default BG 1", "F8E8C8", "D89048", "A82820", "301850"),
    ("default-bg-2", "Default BG 2", "E0F8A0", "78C838", "488818", "081800"),
    ("default-bg-3", "Default BG 3", "F8D8A8", "E0A878", "785888", "002030"),
    ("default-bg-4", "Default BG 4", "B8D0D0", "D880D8", "8000A0", "380000"),
    ("default-bg-5", "Default BG 5", "F8F8B8", "90C8C8", "486878", "082048"),
    ("default-bg-6", "Default BG 6", "F8D8B0", "78C078", "688840", "583820"),
    ("default-sprite", "Default Sprites", "F8F0E0", "D88078", "B05010", "000000"),
    ("default-ui", "Default UI", "F8F8B8", "90C8C8", "486878", "082048")
  ]

  const DefaultPalettes: seq<Value> :=
    seq(|DefaultPaletteTable|, i requires 0 <= i < |DefaultPaletteTable| => Palette(DefaultPaletteTable[i]))

  /** A catalogue palette's fields. */
  lemma PaletteFields(e: PaletteEntry)
    ensures Prop(Palette(e), "id") == Str(e.0)
    ensures Prop(Palette(e), "name") == Str(e.1)
    ensures Prop(Palette(e), "colors") == Arr([Str(e.2), Str(e.3), Str(e.4), Str(e.5)])
  {
    var ps := Palette(e).props;
    GetLast(ps, 0);
    GetLast(ps, 1);
    GetLast(ps, 2);
  }

  /** The ids of a list of palettes, in order. */
  function IdsOf(ps: seq<Value>): (ids: seq<Value>)
    ensures |ids| == |ps|
  {
    seq(|ps|, i requires 0 <= i < |ps| => Prop(ps[i], "id"))
  }

  /** `ps.find(p => p.id === id)`, as a position: the first palette with that id, or -1. */
  function FindById(ps: seq<Value>, id: Value): (j: int)
    ensures -1 <= j < |ps|
    ensures j >= 0 ==> Prop(ps[j], "id") == id
    ensures forall k | 0 <= k < |ps| && (j < 0 || k < j) :: Prop(ps[k], "id") != id
    decreases |ps|
  {
    if ps == [] then -1
    else if Prop(ps[0], "id") == id then 0
    else
      var j := FindById(ps[1..], id);
      assert forall k | 1 <= k < |ps| :: ps[1..][k - 1] == ps[k];
      if j < 0 then -1 else j + 1
  }

  /** `FindById` looks only at the ids. */
  lemma FindByIdOfIds(a: seq<Value>, b: seq<Value>, id: Value)
    requires IdsOf(a) == IdsOf(b)
    ensures FindById(a, id) == FindById(b, id)
  {
    var i, j := FindById(a, id), FindById(b, id);
    assert forall k | 0 <= k < |a| :: Prop(a[k], "id") == IdsOf(a)[k] == IdsOf(b)[k] == Prop(b[k], "id");
  }

  /** `{...p, defaultName: def.name, defaultColors: def.colors}`, or the same two assignments on `p`. */
  function WithDefaults(p: Value, def: Value): Value {
    Obj(Set(Set(SpreadSource(p), "defaultName", Prop(def, "name")), "defaultColors", Prop(def, "colors")))
  }

  /** Marking a palette with its defaults keeps its id and every other named field. */
  lemma WithDefaultsFields(p: Value, def: Value, k: string)
    requires !IndexLike(k)
    ensures Prop(WithDefaults(p, def), "defaultName") == Prop(def, "name")
    ensures Prop(WithDefaults(p, def), "defaultColors") == Prop(def, "colors")
    ensures k != "defaultName" && k != "defaultColors" ==> Prop(WithDefaults(p, def), k) == Prop(p, k)
  {
    var base := Set(SpreadSource(p), "defaultName", Prop(def, "name"));
    GetSet(base, "defaultColors", Prop(def, "colors"), "defaultName");
    GetSet(base, "defaultColors", Prop(def, "colors"), "defaultColors");
    GetSet(base, "defaultColors", Prop(def, "colors"), k);
    GetSet(SpreadSource(p), "defaultName", Prop(def, "name"), "defaultName");
    GetSet(SpreadSource(p), "defaultName", Prop(def, "name"), k);
    SpreadSourceNamed(p, k);
  }

  /** One turn of the backfill loop: mark the first palette with the default's id, or push the default. */
  function BackfillStep(ps: seq<Value>, def: Value): seq<Value> {
    var j := FindById(ps, Prop(def, "id"));
    if j >= 0 then ps[j := WithDefaults(ps[j], def)] else ps + [WithDefaults(def, def)]
  }

  /** The palettes after backfilling `defs` in order. */
  function Backfilled(ps: seq<Value>, defs: seq<Value>): seq<Value>
    decreases |defs|
  {
    if defs == [] then ps
    else BackfillStep(Backfilled(ps, defs[..|defs| - 1]), defs[|defs| - 1])
  }

  lemma BackfilledSnoc(ps: seq<Value>, defs: seq<Value>, i: nat)
    requires i < |defs|
    ensures Backfilled(ps, defs[..i + 1]) == BackfillStep(Backfilled(ps, defs[..i]), defs[i])
  {
    assert defs[..i + 1][..i] == defs[..i];
  }

  /** The `for` loop over the default palettes. */
  method BackfillPalettes(palettes: seq<Value>) returns (fixed: seq<Value>)
    ensures fixed == Backfilled(palettes, DefaultPalettes)
  {
    fixed := palettes;
    for i := 0 to |DefaultPalettes|
      invariant fixed == Backfilled(palettes, DefaultPalettes[..i])
    {
      var defaultPalette := DefaultPalettes[i];
      var existing := FindById(fixed, Prop(defaultPalette, "id"));
      BackfilledSnoc(palettes, DefaultPalettes, i);
      if existing >= 0 {
        fixed := fixed[existing := WithDefaults(fixed[existing], defaultPalette)];
      } else {
        fixed := fixed + [WithDefaults(defaultPalette, defaultPalette)];
      }
    }
    assert DefaultPalettes[..|DefaultPalettes|] == DefaultPalettes;
  }

  lemma IdsOfUpdate(ps: seq<Value>, j: nat, x: Value)
    requires j < |ps| && Prop(x, "id") == Prop(ps[j], "id")
    ensures IdsOf(ps[j := x]) == IdsOf(ps)
  {
    assert forall k | 0 <= k < |ps| :: IdsOf(ps[j := x])[k] == IdsOf(ps)[k];
  }

  lemma IdsOfAppend(ps: seq<Value>, x: Value)
    ensures IdsOf(ps + [x]) == IdsOf(ps) + [Prop(x, "id")]
  {
    assert forall k | 0 <= k < |ps| :: IdsOf(ps + [x])[k] == IdsOf(ps)[k];
  }

  /** A step keeps the ids in place and appends the default's id exactly when it was missing. */
  lemma BackfillStepIds(ps: seq<Value>, def: Value)
    ensures IdsOf(BackfillStep(ps, def))
         == if FindById(ps, Prop(def, "id")) >= 0 then IdsOf(ps) else IdsOf(ps) + [Prop(def, "id")]
  {
    var j := FindById(ps, Prop(def, "id"));
    if j >= 0 {
      WithDefaultsFields(ps[j], def, "id");
      IdsOfUpdate(ps, j, WithDefaults(ps[j], def));
    } else {
      WithDefaultsFields(def, def, "id");
      IdsOfAppend(ps, WithDefaults(def, def));
    }
  }

  /** The backfill seen through the ids alone: a default id not yet present is appended. */
  function BackfilledIds(ids: seq<Value>, defIds: seq<Value>): seq<Value>
    decreases |defIds|
  {
    if defIds == [] then ids
    else
      var prev := BackfilledIds(ids, defIds[..|defIds| - 1]);
      if defIds[|defIds| - 1] in prev then prev else prev + [defIds[|defIds| - 1]]
  }

  /** The search finds a palette exactly when the id is among the ids. */
  lemma FindByIdIn(ps: seq<Value>, id: Value)
    ensures FindById(ps, id) >= 0 <==> id in IdsOf(ps)
  {
    var j := FindById(ps, id);
    if j >= 0 {
      assert IdsOf(ps)[j] == id;
    } else {
      assert forall m | 0 <= m < |ps| :: IdsOf(ps)[m] != id;
    }
  }

  /** A step, seen through the ids: the default's id is appended when it is not yet present. */
  lemma BackfillStepIdsIn(ps: seq<Value>, def: Value)
    ensures IdsOf(BackfillStep(ps, def))
         == if Prop(def, "id") in IdsOf(ps) then IdsOf(ps) else IdsOf(ps) + [Prop(def, "id")]
  {
    BackfillStepIds(ps, def);
    FindByIdIn(ps, Prop(def, "id"));
  }

  lemma IdsOfPrefix(ps: seq<Value>, n: nat)
    requires n <= |ps|
    ensures IdsOf(ps[..n]) == IdsOf(ps)[..n]
  {
    assert forall m | 0 <= m < n :: IdsOf(ps[..n])[m] == IdsOf(ps)[m];
  }

  /** The ids after the backfill are the ids backfilled with the defaults' ids. */
  lemma {:induction false} BackfilledIdsAgree(ps: seq<Value>, defs: seq<Value>)
    ensures IdsOf(Backfilled(ps, defs)) == BackfilledIds(IdsOf(ps), IdsOf(defs))
    decreases |defs|
  {
    if defs != [] {
      var n := |defs| - 1;
      BackfilledIdsAgree(ps, defs[..n]);
      IdsOfPrefix(defs, n);
      BackfillStepIdsIn(Backfilled(ps, defs[..n]), defs[n]);
    }
  }

  /** Backfilling ids keeps the given ids as a prefix. */
  lemma {:induction false} BackfilledIdsPrefix(ids: seq<Value>, defIds: seq<Value>)
    ensures |BackfilledIds(ids, defIds)| >= |ids|
    ensures BackfilledIds(ids, defIds)[..|ids|] == ids
    decreases |defIds|
  {
    if defIds != [] {
      var prev := BackfilledIds(ids, defIds[..|defIds| - 1]);
      BackfilledIdsPrefix(ids, defIds[..|defIds| - 1]);
      assert BackfilledIds(ids, defIds)[..|prev|] == prev;
      assert BackfilledIds(ids, defIds)[..|ids|] == prev[..|ids|];
    }
  }

  /** Backfilling ids makes default id `k` present. */
  lemma {:induction false} BackfilledIdsHas(ids: seq<Value>, defIds: seq<Value>, k: nat)
    requires k < |defIds|
    ensures defIds[k] in BackfilledIds(ids, defIds)
    decreases |defIds|
  {
    var n := |defIds| - 1;
    var prev := BackfilledIds(ids, defIds[..n]);
    if k < n {
      assert defIds[..n][k] == defIds[k];
      BackfilledIdsHas(ids, defIds[..n], k);
      assert BackfilledIds(ids, defIds)[..|prev|] == prev;
    } else if defIds[n] !in prev {
      assert BackfilledIds(ids, defIds)[|prev|] == defIds[n];
    }
  }

  /** Backfilling ids adds nothing but default ids. */
  lemma {:induction false} BackfilledIdsFrom(ids: seq<Value>, defIds: seq<Value>, x: Value)
    requires x in BackfilledIds(ids, defIds)
    ensures x in ids || x in defIds
    decreases |defIds|
  {
    if defIds != [] {
      var n := |defIds| - 1;
      var prev := BackfilledIds(ids, defIds[..n]);
      if x in prev {
        BackfilledIdsFrom(ids, defIds[..n], x);
        if x in defIds[..n] {
          var k :| 0 <= k < n && defIds[..n][k] == x;
          assert defIds[k] == x;
        }
      } else {
        assert x == defIds[n];
      }
    }
  }

  /** After the backfill the stored palettes keep their positions and ids. */
  lemma BackfilledKeepsIds(ps: seq<Value>, defs: seq<Value>)
    ensures |Backfilled(ps, defs)| >= |ps|
    ensures IdsOf(Backfilled(ps, defs))[..|ps|] == IdsOf(ps)
  {
    BackfilledIdsAgree(ps, defs);
    BackfilledIdsPrefix(IdsOf(ps), IdsOf(defs));
  }

  /** After the backfill every default's id is present. */
  lemma BackfilledHasDefaults(ps: seq<Value>, defs: seq<Value>)
    ensures forall k | 0 <= k < |defs| :: Prop(defs[k], "id") in IdsOf(Backfilled(ps, defs))
  {
    BackfilledIdsAgree(ps, defs);
    forall k | 0 <= k < |defs| ensures Prop(defs[k], "id") in IdsOf(Backfilled(ps, defs)) {
      BackfilledIdsHas(IdsOf(ps), IdsOf(defs), k);
    }
  }

  /** Every id after the backfill is a stored palette's or a default's. */
  lemma BackfilledIdsOrigin(ps: seq<Value>, defs: seq<Value>)
    ensures forall x | x in IdsOf(Backfilled(ps, defs)) :: x in IdsOf(ps) || x in IdsOf(defs)
  {
    BackfilledIdsAgree(ps, defs);
    forall x | x in IdsOf(Backfilled(ps, defs)) ensures x in IdsOf(ps) || x in IdsOf(defs) {
      BackfilledIdsFrom(IdsOf(ps), IdsOf(defs), x);
    }
  }

  /** No two palettes of the list share an id. */
  predicate DistinctIds(ps: seq<Value>) {
    forall i, j | 0 <= i < j < |ps| :: Prop(ps[i], "id") != Prop(ps[j], "id")
  }

  /** The built-in palettes have distinct ids. */
  lemma DefaultPalettesDistinct()
    ensures DistinctIds(DefaultPalettes)
  {
    var t := DefaultPaletteTable;
    assert forall a, b | 0 <= a < b < |t| :: t[a].0 != t[b].0;
    forall a | 0 <= a < |t| ensures Prop(DefaultPalettes[a], "id") == Str(t[a].0) {
      PaletteFields(t[a]);
    }
  }

  /** A search over a longer list whose ids extend the shorter one's finds the same first match. */
  lemma FindByIdExtended(a: seq<Value>, b: seq<Value>, id: Value)
    requires |a| <= |b| && IdsOf(b)[..|a|] == IdsOf(a) && FindById(a, id) >= 0
    ensures FindById(b, id) == FindById(a, id)
  {
    assert forall m | 0 <= m < |a| :: Prop(b[m], "id") == IdsOf(b)[m] == IdsOf(a)[m] == Prop(a[m], "id");
  }

  /** Stored palettes keep every named field other than the two the backfill writes. */
  lemma {:induction false} BackfilledKeepsFields(ps: seq<Value>, defs: seq<Value>, i: nat, k: string)
    requires i < |ps| && !IndexLike(k) && k != "defaultName" && k != "defaultColors"
    ensures i < |Backfilled(ps, defs)| && Prop(Backfilled(ps, defs)[i], k) == Prop(ps[i], k)
    decreases |defs|
  {
    if defs != [] {
      var n := |defs| - 1;
      var prev := Backfilled(ps, defs[..n]);
      BackfilledKeepsFields(ps, defs[..n], i, k);
      var j := FindById(prev, Prop(defs[n], "id"));
      if j == i {
        WithDefaultsFields(prev[i], defs[n], k);
      }
    }
  }

  /**
   * With distinct default ids, the first stored palette carrying a
   * default's id ends up with that default's name and colours as its
   * `defaultName` and `defaultColors`.
   */
  lemma {:induction false} BackfilledMarksStored(ps: seq<Value>, defs: seq<Value>, k: nat)
    requires DistinctIds(defs) && k < |defs| && FindById(ps, Prop(defs[k], "id")) >= 0
    ensures var j := FindById(ps, Prop(defs[k], "id"));
      && j < |Backfilled(ps, defs)|
      && Prop(Backfilled(ps, defs)[j], "defaultName") == Prop(defs[k], "name")
      && Prop(Backfilled(ps, defs)[j], "defaultColors") == Prop(defs[k], "colors")
    decreases |defs|
  {
    var n := |defs| - 1;
    var prev := Backfilled(ps, defs[..n]);
    var j := FindById(ps, Prop(defs[k], "id"));
    BackfilledKeepsIds(ps, defs[..n]);
    if k == n {
      FindByIdExtended(ps, prev, Prop(defs[k], "id"));
      WithDefaultsFields(prev[j], defs[n], "id");
    } else {
      assert defs[..n][k] == defs[k];
      DistinctIdsPrefix(defs, n);
      BackfilledMarksStored(ps, defs[..n], k);
      var j' := FindById(prev, Prop(defs[n], "id"));
      if j' >= 0 {
        assert IdsOf(prev)[j] == IdsOf(ps)[j];
        assert Prop(defs[k], "id") != Prop(defs[n], "id");
        assert j' != j;
      }
    }
  }

  /** Each palette marked with itself, as a missing default is pushed. */
  function SelfMarked(defs: seq<Value>): (ps: seq<Value>)
    ensures |ps| == |defs|
  {
    Map(defs, SelfMark)
  }

  function SelfMark(p: Value): Value {
    WithDefaults(p, p)
  }

  /** `xs.map(f)` */
  function Map<T, U>(xs: seq<T>, f: T -> U): (ys: seq<U>)
    ensures |ys| == |xs|
  {
    seq(|xs|, i requires 0 <= i < |xs| => f(xs[i]))
  }

  lemma MapSnoc<T, U>(xs: seq<T>, f: T -> U)
    requires xs != []
    ensures Map(xs, f) == Map(xs[..|xs| - 1], f) + [f(xs[|xs| - 1])]
  {
    var n := |xs| - 1;
    assert forall a | 0 <= a < n :: Map(xs, f)[a] == Map(xs[..n], f)[a];
  }

  lemma DistinctIdsPrefix(defs: seq<Value>, n: nat)
    requires DistinctIds(defs) && n <= |defs|
    ensures DistinctIds(defs[..n])
  {
    forall a, b | 0 <= a < b < n ensures Prop(defs[..n][a], "id") != Prop(defs[..n][b], "id") {
      assert defs[..n][a] == defs[a] && defs[..n][b] == defs[b];
    }
  }

  /** The last default's id is not among the earlier defaults, marked. */
  lemma SelfMarkedMisses(defs: seq<Value>)
    requires DistinctIds(defs) && defs != []
    ensures FindById(SelfMarked(defs[..|defs| - 1]), Prop(defs[|defs| - 1], "id")) == -1
  {
    var n := |defs| - 1;
    var prev := SelfMarked(defs[..n]);
    forall a | 0 <= a < n ensures Prop(prev[a], "id") != Prop(defs[n], "id") {
      assert defs[..n][a] == defs[a];
      assert prev[a] == SelfMark(defs[a]);
      WithDefaultsFields(defs[a], defs[a], "id");
    }
  }

  /** A step that finds no palette with the default's id pushes the default, marked with itself. */
  lemma BackfillStepMiss(ps: seq<Value>, def: Value)
    requires FindById(ps, Prop(def, "id")) == -1
    ensures BackfillStep(ps, def) == ps + [WithDefaults(def, def)]
  {
  }

  lemma SelfMarkedSnoc(defs: seq<Value>)
    requires defs != []
    ensures SelfMarked(defs) == SelfMarked(defs[..|defs| - 1]) + [WithDefaults(defs[|defs| - 1], defs[|defs| - 1])]
  {
    MapSnoc(defs, SelfMark);
  }

  /** With no stored palettes and distinct ids, the backfill yields the defaults in order, each marked with itself. */
  lemma {:induction false} BackfilledFromNothing(defs: seq<Value>)
    requires DistinctIds(defs)
    ensures Backfilled([], defs) == SelfMarked(defs)
    decreases |defs|
  {
    if defs != [] {
      var n := |defs| - 1;
      DistinctIdsPrefix(defs, n);
      BackfilledFromNothing(defs[..n]);
      SelfMarkedMisses(defs);
      BackfillStepMiss(SelfMarked(defs[..n]), defs[n]);
      SelfMarkedSnoc(defs);
    }
  }

  /** A project without stored palettes gets exactly the eight built-in palettes, in catalogue order. */
  lemma DefaultPalettesOnly()
    ensures Backfilled([], DefaultPalettes) == SelfMarked(DefaultPalettes)
  {
    DefaultPalettesDistinct();
    BackfilledFromNothing(DefaultPalettes);
  }

  // ---------------------------------------------------------------------
  // Resources linked from the files under `project/`
  // ---------------------------------------------------------------------

  /** A row as `loadProject` reads it: the path the scan returned, the document's `_resourceType`, the document. */
  function FileRow(file: string, doc: Value): Row {
    Row(file, Prop(doc, "_resourceType"), doc)
  }

  /** The rows of the files found, in the order of the scan. */
  function FileRows(files: seq<(string, Value)>): (rows: seq<Row>)
    ensures |rows| == |files|
  {
    seq(|files|, i requires 0 <= i < |files| => FileRow(files[i].0, files[i].1))
  }

  /** The rows the relative-path test places inside `dir`, in order. */
  function RowsInside(rows: seq<Row>, dir: string): (inside: seq<Row>)
    ensures |inside| <= |rows|
  {
    Filter(rows, (r: Row) => RelativelyInside(dir, r.path))
  }

  /** `xs.filter(keep)` */
  function Filter<T>(xs: seq<T>, keep: T -> bool): (ys: seq<T>)
    ensures |ys| <= |xs|
    decreases |xs|
  {
    if xs == [] then []
    else
      var n := |xs| - 1;
      Filter(xs[..n], keep) + (if keep(xs[n]) then [xs[n]] else [])
  }

  /** A filter keeps exactly the elements that pass its test. */
  lemma {:induction false} FilterIff<T>(xs: seq<T>, keep: T -> bool, x: T)
    ensures x in Filter(xs, keep) <==> x in xs && keep(x)
    decreases |xs|
  {
    if xs != [] {
      var n := |xs| - 1;
      FilterIff(xs[..n], keep, x);
      assert xs == xs[..n] + [xs[n]];
    }
  }

  /** The filter keeps exactly the rows that pass the relative-path test. */
  lemma RowsInsideIff(rows: seq<Row>, dir: string, r: Row)
    ensures r in RowsInside(rows, dir) <==> r in rows && RelativelyInside(dir, r.path)
  {
    FilterIff(rows, (r: Row) => RelativelyInside(dir, r.path), r);
  }

  /** `rows.filter(inside dir).map(row => row.data.id)` */
  function ChildIds(rows: seq<Row>, dir: string): seq<Value> {
    IdsOf(Data(RowsInside(rows, dir)))
  }

  /** A scene lists exactly the ids of the rows that pass the relative-path test for its folder. */
  lemma ChildIdsIff(rows: seq<Row>, dir: string, v: Value)
    ensures v in ChildIds(rows, dir) <==> exists r | r in rows :: RelativelyInside(dir, r.path) && Prop(r.data, "id") == v
  {
    var inside := RowsInside(rows, dir);
    if v in ChildIds(rows, dir) {
      var i :| 0 <= i < |inside| && ChildIds(rows, dir)[i] == v;
      RowsInsideIff(rows, dir, inside[i]);
    }
    if exists r | r in rows :: RelativelyInside(dir, r.path) && Prop(r.data, "id") == v {
      var r :| r in rows && RelativelyInside(dir, r.path) && Prop(r.data, "id") == v;
      RowsInsideIff(rows, dir, r);
      var i :| 0 <= i < |inside| && inside[i] == r;
      assert ChildIds(rows, dir)[i] == v;
    }
  }

  /**
   * A scene resource: `addMissingEntityId({...row.data, actors, triggers})`
   * where the lists are the ids of the actor and trigger rows inside the
   * scene folder's `actors` and `triggers` folders.
   */
  function SceneResource(row: Row, actorRows: seq<Row>, triggerRows: seq<Row>, freshId: string): Value {
    var sceneDir := Dirname(row.path);
    var actors := Arr(ChildIds(actorRows, JoinDir(sceneDir, "actors")));
    var triggers := Arr(ChildIds(triggerRows, JoinDir(sceneDir, "triggers")));
    AddMissingEntityId(Obj(Set(Set(SpreadSource(row.data), "actors", actors), "triggers", triggers)), freshId)
  }

  /**
   * A scene resource carries the linked actor and trigger ids, the
   * document's id (or the fresh one when it has none) and every other named
   * field of the document.
   */
  lemma SceneResourceFields(row: Row, actorRows: seq<Row>, triggerRows: seq<Row>, freshId: string, k: string)
    requires !IndexLike(k)
    ensures var r := SceneResource(row, actorRows, triggerRows, freshId);
      && Prop(r, "actors") == Arr(ChildIds(actorRows, JoinDir(Dirname(row.path), "actors")))
      && Prop(r, "triggers") == Arr(ChildIds(triggerRows, JoinDir(Dirname(row.path), "triggers")))
      && Prop(r, "id") == (if Truthy(Prop(row.data, "id")) then Prop(row.data, "id") else Str(freshId))
      && (k != "actors" && k != "triggers" && k != "id" ==> Prop(r, k) == Prop(row.data, k))
  {
    var sceneDir := Dirname(row.path);
    var actors := Arr(ChildIds(actorRows, JoinDir(sceneDir, "actors")));
    var triggers := Arr(ChildIds(triggerRows, JoinDir(sceneDir, "triggers")));
    var s1 := Set(SpreadSource(row.data), "actors", actors);
    var base := Obj(Set(s1, "triggers", triggers));
    GetSet(s1, "triggers", triggers, "actors");
    GetSet(s1, "triggers", triggers, "triggers");
    GetSet(s1, "triggers", triggers, "id");
    GetSet(s1, "triggers", triggers, k);
    GetSet(SpreadSource(row.data), "actors", actors, "actors");
    GetSet(SpreadSource(row.data), "actors", actors, "id");
    GetSet(SpreadSource(row.data), "actors", actors, k);
    SpreadSourceNamed(row.data, "id");
    SpreadSourceNamed(row.data, k);
    AddMissingEntityIdFields(base, freshId, "actors");
    AddMissingEntityIdFields(base, freshId, "triggers");
    AddMissingEntityIdFields(base, freshId, k);
  }

  /** The scene resources, one per scene row, in load order. */
  function SceneResources(sceneRows: seq<Row>, actorRows: seq<Row>, triggerRows: seq<Row>, uuid: UuidSite -> string)
    : (scenes: seq<Value>)
    ensures |scenes| == |sceneRows|
  {
    seq(|sceneRows|, i requires 0 <= i < |sceneRows| =>
      SceneResource(sceneRows[i], actorRows, triggerRows, uuid(EntityId("sceneResources", 0, i))))
  }

  // ---------------------------------------------------------------------
  // Background resources
  // ---------------------------------------------------------------------

  /** The key `indexResourceByFilename` files a row under. */
  function RowFilename(r: Row): string {
    ToAssetFilename(r.data)
  }

  /** `indexResourceByFilename(rows)[toAssetFilename(bg)]?.data`: the last stored resource for the file. */
  function StoredBackground(rows: seq<Row>, bg: Value): Value {
    var j := LastKeyIndex(rows, RowFilename, ToAssetFilename(bg));
    if j < 0 then Undefined else rows[j].data
  }

  /** The lookup finds the data of the last row for the file, and `undefined` when no row is for it. */
  lemma StoredBackgroundLast(rows: seq<Row>, bg: Value)
    ensures (forall i | 0 <= i < |rows| :: RowFilename(rows[i]) != ToAssetFilename(bg)) ==> StoredBackground(rows, bg) == Undefined
    ensures forall i | 0 <= i < |rows| && RowFilename(rows[i]) == ToAssetFilename(bg)
                       && (forall j | i < j < |rows| :: RowFilename(rows[j]) != ToAssetFilename(bg)) ::
              StoredBackground(rows, bg) == rows[i].data
  {
    forall i | 0 <= i < |rows| && RowFilename(rows[i]) == ToAssetFilename(bg)
               && (forall j | i < j < |rows| :: RowFilename(rows[j]) != ToAssetFilename(bg))
      ensures StoredBackground(rows, bg) == rows[i].data
    {
      LastKeyIndexIs(rows, RowFilename, ToAssetFilename(bg), i);
    }
  }

  /** `{_resourceType: "background", ...background}` */
  function TaggedBackground(bg: Value): Props {
    Spread([("_resourceType", Str("background"))], bg)
  }

  /** The background resource built from one discovered background and its stored resource. */
  function BackgroundResource(bg: Value, prev: Value): Value {
    var fields := TaggedBackground(bg);
    if Truthy(prev) then
      Obj(Set(Set(Set(Set(fields, "id", Prop(prev, "id")), "symbol", StoredSymbol(bg, prev)),
                  "tileColors", Defined(Prop(prev, "tileColors"), Str(""))),
              "autoColor", Defined(Prop(prev, "autoColor"), Bool(false))))
    else Obj(Set(fields, "tileColors", Str("")))
  }

  /** One background resource per discovered background, in discovery order. */
  function BackgroundResources(backgrounds: seq<Value>, rows: seq<Row>): (resources: seq<Value>)
    ensures |resources| == |backgrounds|
  {
    seq(|backgrounds|, i requires 0 <= i < |backgrounds| =>
      BackgroundResource(backgrounds[i], StoredBackground(rows, backgrounds[i])))
  }

  /** The tag is the background's own `_resourceType` when it has one; every other field is the background's. */
  lemma TaggedBackgroundGet(bg: Value, k: string)
    requires bg.Obj?
    ensures Get(TaggedBackground(bg), k) ==
              if k == "_resourceType" && !HasKey(bg.props, k) then Str("background") else Prop(bg, k)
  {
    SpreadGet([("_resourceType", Str("background"))], bg, k);
    if !HasKey(bg.props, k) { GetMissing(bg.props, k); }
  }

  lemma MatchedBackgroundFields(bg: Value, prev: Value, k: string)
    requires bg.Obj? && Truthy(prev)
    ensures var r := BackgroundResource(bg, prev);
      && Prop(r, "_resourceType") == Get(TaggedBackground(bg), "_resourceType")
      && Prop(r, "id") == Prop(prev, "id")
      && Prop(r, "symbol") == Defined(Prop(prev, "symbol"), Prop(bg, "symbol"))
      && Prop(r, "tileColors") == Defined(Prop(prev, "tileColors"), Str(""))
      && Prop(r, "autoColor") == Defined(Prop(prev, "autoColor"), Bool(false))
      && (k != "_resourceType" && k != "id" && k != "symbol" && k != "tileColors" && k != "autoColor" ==>
            Prop(r, k) == Get(TaggedBackground(bg), k))
  {
    var fields := TaggedBackground(bg);
    var a, b, c, d := Prop(prev, "id"), StoredSymbol(bg, prev),
      Defined(Prop(prev, "tileColors"), Str("")), Defined(Prop(prev, "autoColor"), Bool(false));
    GetSet4(fields, "id", a, "symbol", b, "tileColors", c, "autoColor", d, "_resourceType");
    GetSet4(fields, "id", a, "symbol", b, "tileColors", c, "autoColor", d, "id");
    GetSet4(fields, "id", a, "symbol", b, "tileColors", c, "autoColor", d, "symbol");
    GetSet4(fields, "id", a, "symbol", b, "tileColors", c, "autoColor", d, "tileColors");
    GetSet4(fields, "id", a, "symbol", b, "tileColors", c, "autoColor", d, "autoColor");
    GetSet4(fields, "id", a, "symbol", b, "tileColors", c, "autoColor", d, k);
  }

  lemma UnmatchedBackgroundFields(bg: Value, prev: Value, k: string)
    requires bg.Obj? && !Truthy(prev)
    ensures var r := BackgroundResource(bg, prev);
      && Prop(r, "tileColors") == Str("")
      && (k != "tileColors" ==> Prop(r, k) == Get(TaggedBackground(bg), k))
  {
    GetSet(TaggedBackground(bg), "tileColors", Str(""), "tileColors");
    GetSet(TaggedBackground(bg), "tileColors", Str(""), k);
  }

  /**
   * A background resource is tagged `"background"` unless the discovered
   * background carries its own type; a stored match supplies the id, and
   * the symbol, tile colours and auto-colour flag when it defines them
   * (else the background's symbol, `""` and `false`); an unmatched one gets
   * `""` tile colours.  Every other field is the discovered background's.
   */
  lemma BackgroundResourceFields(bg: Value, prev: Value, k: string)
    requires bg.Obj?
    ensures var r := BackgroundResource(bg, prev);
      && Prop(r, "_resourceType") == (if HasKey(bg.props, "_resourceType") then Prop(bg, "_resourceType") else Str("background"))
      && (Truthy(prev) ==>
            && Prop(r, "id") == Prop(prev, "id")
            && Prop(r, "symbol") == Defined(Prop(prev, "symbol"), Prop(bg, "symbol"))
            && Prop(r, "tileColors") == Defined(Prop(prev, "tileColors"), Str(""))
            && Prop(r, "autoColor") == Defined(Prop(prev, "autoColor"), Bool(false)))
      && (!Truthy(prev) ==>
            Prop(r, "id") == Prop(bg, "id") && Prop(r, "symbol") == Prop(bg, "symbol")
            && Prop(r, "tileColors") == Str(""))
      && (k != "_resourceType" && k != "id" && k != "symbol" && k != "tileColors" && k != "autoColor" ==>
            Prop(r, k) == Prop(bg, k))
  {
    TaggedBackgroundGet(bg, "_resourceType");
    TaggedBackgroundGet(bg, k);
    if Truthy(prev) {
      MatchedBackgroundFields(bg, prev, k);
    } else {
      TaggedBackgroundGet(bg, "id");
      TaggedBackgroundGet(bg, "symbol");
      UnmatchedBackgroundFields(bg, prev, "_resourceType");
      UnmatchedBackgroundFields(bg, prev, "id");
      UnmatchedBackgroundFields(bg, prev, "symbol");
      UnmatchedBackgroundFields(bg, prev, k);
    }
  }

  // ---------------------------------------------------------------------
  // The loaded project
  // ---------------------------------------------------------------------

  /** What the asset scanners found under the project root, per kind. */
  datatype Discovered = Discovered(
    backgrounds: seq<Value>, sprites: seq<Value>, music: seq<Value>, sounds: seq<Value>,
    fonts: seq<Value>, avatars: seq<Value>, emotes: seq<Value>, tilesets: seq<Value>)

  /** The resource record `loadProject` returns. */
  datatype LoadedResources = LoadedResources(
    scenes: seq<Value>, actors: seq<Value>, triggers: seq<Value>, scripts: seq<Value>,
    backgrounds: seq<Value>, variables: Value)

  datatype LoadProjectResult = LoadProjectResult(
    data: Value, resources: LoadedResources, modifiedSpriteIds: seq<Value>, isMigrated: bool,
    scriptEventDefs: Value, engineFields: Value, sceneTypes: Value)

  /** `(v || []).map(...)` does not throw: the value is falsy or an array. */
  predicate Listed(v: Value) {
    !Truthy(v) || v.Arr?
  }

  /** The stored entries of one kind, `json[key] || []`. */
  function Stored(json: Value, key: string): seq<Value> {
    Elems(Prop(json, key))
  }

  /** The stored assets of one kind, as `keyBy(json[key] || [], ...)` visits them. */
  function StoredAssets(json: Value, key: string): seq<Value> {
    Collection(Prop(json, key))
  }

  /** `addMissingEntityId` reads `entity.id` of each entity: none may be `null` or `undefined`. */
  predicate EntitiesPresent(list: seq<Value>) {
    forall i | 0 <= i < |list| :: !Nullish(list[i])
  }

  /** Every stored scene has actor and trigger arrays, and none of their entities is nullish. */
  predicate ScenesShaped(scenes: seq<Value>) {
    forall i | 0 <= i < |scenes| ::
      && SceneShaped(scenes[i])
      && EntitiesPresent(Prop(scenes[i], "actors").elems)
      && EntitiesPresent(Prop(scenes[i], "triggers").elems)
  }

  /**
   * The stored document can be fixed without a throw: it is not nullish,
   * and its scenes, custom events and palettes map.
   */
  predicate Fixable(json: Value) {
    && !Nullish(json)
    && Listed(Prop(json, "scenes")) && ScenesShaped(Stored(json, "scenes"))
    && Listed(Prop(json, "customEvents")) && EntitiesPresent(Stored(json, "customEvents"))
    && Listed(Prop(json, "palettes")) && EntitiesPresent(Stored(json, "palettes"))
  }

  /**
   * The asset merges complete: every discovered asset and every stored
   * entry `keyBy` visits has a string file name, and the stored states of
   * every matched sprite can be mapped.
   */
  predicate AssetsKeyable(json: Value, found: Discovered) {
    && KeyableAll(found.backgrounds) && KeyableAll(StoredAssets(json, "backgrounds"))
    && KeyableAll(found.sprites) && KeyableAll(StoredAssets(json, "spriteSheets"))
    && KeyableAll(found.music) && KeyableAll(StoredAssets(json, "music"))
    && KeyableAll(found.sounds) && KeyableAll(StoredAssets(json, "sounds"))
    && KeyableAll(found.fonts) && KeyableAll(StoredAssets(json, "fonts"))
    && KeyableAll(found.avatars) && KeyableAll(StoredAssets(json, "avatars"))
    && KeyableAll(found.emotes) && KeyableAll(StoredAssets(json, "emotes"))
    && KeyableAll(found.tilesets) && KeyableAll(StoredAssets(json, "tilesets"))
    && SpritesMappable(found.sprites, Matches(found.sprites, StoredAssets(json, "spriteSheets")))
  }

  /**
   * Every resource document can be read, the project document destructured
   * (it is not nullish), the migrated document fixed and its assets merged
   * without a throw.
   */
  predicate Loadable(files: seq<(string, Value)>, originalJson: Value, json: Value, found: Discovered) {
    Readable(files) && !Nullish(originalJson) && Fixable(json) && AssetsKeyable(json, found)
  }

  /** Sorting each merged asset list by name completes. */
  predicate ListsSortable(f: FixedLists) {
    && NamesSortable(f.backgrounds) && NamesSortable(f.spriteSheets) && NamesSortable(f.music)
    && NamesSortable(f.sounds) && NamesSortable(f.fonts) && NamesSortable(f.avatars)
    && NamesSortable(f.emotes) && NamesSortable(f.tilesets)
  }

  /** The stored states of every matched sprite can be mapped. */
  predicate SpritesMappable(sprites: seq<Value>, olds: seq<Value>) {
    forall i | 0 <= i < |olds| :: StatesMappable(OldData(olds[i]))
  }

  /** The version or release changed in the migration (`!==` on the two fields). */
  predicate IsMigrated(originalJson: Value, json: Value) {
    Prop(json, "_version") != Prop(originalJson, "_version") || Prop(json, "_release") != Prop(originalJson, "_release")
  }

  /** The lists that replace the stored ones in the project data. */
  datatype FixedLists = FixedLists(
    backgrounds: seq<Value>, spriteSheets: seq<Value>, music: seq<Value>, sounds: seq<Value>,
    fonts: seq<Value>, avatars: seq<Value>, emotes: seq<Value>, tilesets: seq<Value>,
    scenes: seq<Value>, customEvents: seq<Value>, palettes: seq<Value>, engineFieldValues: Value)

  /** What `FixAssets` computes: the merged assets sorted by name. */
  function Fixed(rule: MergeRule, assets: seq<Value>, stored: seq<Value>): seq<Value> {
    InsertionSort(MergeAll(rule, assets, Matches(assets, stored)), SortByName)
  }

  function FixedListsOf(json: Value, found: Discovered, uuid: UuidSite -> string): FixedLists
    requires Fixable(json)
  {
    FixedLists(
      Fixed(BackgroundRule, found.backgrounds, StoredAssets(json, "backgrounds")),
      InsertionSort(MergedSprites(found.sprites, Matches(found.sprites, StoredAssets(json, "spriteSheets")), uuid), SortByName),
      Fixed(MusicRule, found.music, StoredAssets(json, "music")),
      Fixed(SymbolRule, found.sounds, StoredAssets(json, "sounds")),
      Fixed(SymbolRule, found.fonts, StoredAssets(json, "fonts")),
      Fixed(IdRule, found.avatars, StoredAssets(json, "avatars")),
      Fixed(SymbolRule, found.emotes, StoredAssets(json, "emotes")),
      Fixed(SymbolRule, found.tilesets, StoredAssets(json, "tilesets")),
      FixScenes(Stored(json, "scenes"), uuid),
      FixEntities(Stored(json, "customEvents"), uuid, "customEvents", 0),
      Backfilled(FixEntities(Stored(json, "palettes"), uuid, "palettes", 0), DefaultPalettes),
      Or(Prop(json, "engineFieldValues"), Arr([])))
  }

  /** The keys the project data overrides, in the order of the object literal. */
  const DataKeys: seq<string> := ["backgrounds", "spriteSheets", "music", "sounds", "fonts", "avatars",
    "emotes", "tilesets", "scenes", "customEvents", "palettes", "engineFieldValues"]

  function DataOverrides(f: FixedLists): Props {
    [("backgrounds", Arr(f.backgrounds)), ("spriteSheets", Arr(f.spriteSheets)), ("music", Arr(f.music)),
     ("sounds", Arr(f.sounds)), ("fonts", Arr(f.fonts)), ("avatars", Arr(f.avatars)), ("emotes", Arr(f.emotes)),
     ("tilesets", Arr(f.tilesets)), ("scenes", Arr(f.scenes)), ("customEvents", Arr(f.customEvents)),
     ("palettes", Arr(f.palettes)), ("engineFieldValues", f.engineFieldValues)]
  }

  /** `{...json, backgrounds: ..., ..., engineFieldValues: ...}` */
  function ProjectData(json: Value, f: FixedLists): Value {
    Obj(SetAll(SpreadSource(json), DataOverrides(f)))
  }

  /**
   * The resource lists built from the rows.  Keying the background rows or
   * the discovered backgrounds throws when one has no string file name, and
   * reading the first `variables` row throws when there is none.
   */
  function Resources(rows: seq<Row>, found: Discovered, uuid: UuidSite -> string): Result<LoadedResources> {
    var variables := GroupBy(rows, TypeKey, "variables");
    if !KeyableAll(Data(GroupBy(rows, TypeKey, "background"))) || !KeyableAll(found.backgrounds) then Failure("filename")
    else if variables == [] then Failure("variables")
    else
      var actorRows := GroupBy(rows, TypeKey, "actor");
      var triggerRows := GroupBy(rows, TypeKey, "trigger");
      Success(LoadedResources(
        SceneResources(GroupBy(rows, TypeKey, "scene"), actorRows, triggerRows, uuid),
        FixEntities(Data(actorRows), uuid, "actorResources", 0),
        FixEntities(Data(triggerRows), uuid, "triggerResources", 0),
        FixEntities(Data(GroupBy(rows, TypeKey, "script")), uuid, "scriptResources", 0),
        BackgroundResources(found.backgrounds, GroupBy(rows, TypeKey, "background")),
        variables[0].data))
  }

  /** The returned record, once the lists are fixed and the resources linked. */
  function Assembled(originalJson: Value, json: Value, fixed: FixedLists, modifiedSpriteIds: seq<Value>,
                     linked: Result<LoadedResources>, scriptEventDefs: Value, engineFields: Value, sceneTypes: Value)
    : Result<LoadProjectResult>
  {
    match linked
    case Failure(e) => Failure(e)
    case Success(resources) =>
      Success(LoadProjectResult(ProjectData(json, fixed), resources, modifiedSpriteIds,
        IsMigrated(originalJson, json), scriptEventDefs, engineFields, sceneTypes))
  }

  /**
   * What `loadProject` returns for the scanned resource files, the stored
   * project document, the migration, the discovered assets and the loaded
   * engine descriptions; a throw is a `Failure`.
   */
  function Loaded(files: seq<(string, Value)>, originalJson: Value, migrate: Value -> Value, found: Discovered,
                  scriptEventDefs: Value, engineFields: Value, sceneTypes: Value, uuid: UuidSite -> string)
    : Result<LoadProjectResult>
  {
    var json := migrate(originalJson);
    if !Loadable(files, originalJson, json, found) then Failure("load")
    else
      var fixed := FixedListsOf(json, found, uuid);
      if !ListsSortable(fixed) then Failure("name")
      else Assembled(originalJson, json, fixed,
        ModifiedSpriteIds(found.sprites, Matches(found.sprites, StoredAssets(json, "spriteSheets"))),
        Resources(FileRows(files), found, uuid), scriptEventDefs, engineFields, sceneTypes)
  }

  /** The merges and fixes of the stored lists, in the order `loadProject` runs them. */
  method FixProjectLists(json: Value, found: Discovered, uuid: UuidSite -> string)
    returns (fixed: FixedLists, modifiedSpriteIds: seq<Value>)
    requires Fixable(json)
    ensures fixed == FixedListsOf(json, found, uuid)
    ensures modifiedSpriteIds == ModifiedSpriteIds(found.sprites, Matches(found.sprites, StoredAssets(json, "spriteSheets")))
  {
    var fixedBackgroundIds := FixAssets(BackgroundRule, found.backgrounds, StoredAssets(json, "backgrounds"));
    var fixedSpriteIds;
    fixedSpriteIds, modifiedSpriteIds := FixSprites(found.sprites, StoredAssets(json, "spriteSheets"), uuid);
    var fixedMusicIds := FixAssets(MusicRule, found.music, StoredAssets(json, "music"));
    var fixedSoundIds := FixAssets(SymbolRule, found.sounds, StoredAssets(json, "sounds"));
    var fixedFontIds := FixAssets(SymbolRule, found.fonts, StoredAssets(json, "fonts"));
    var fixedAvatarIds := FixAssets(IdRule, found.avatars, StoredAssets(json, "avatars"));
    var fixedEmoteIds := FixAssets(SymbolRule, found.emotes, StoredAssets(json, "emotes"));
    var fixedTilesetIds := FixAssets(SymbolRule, found.tilesets, StoredAssets(json, "tilesets"));
    var fixedScenes := FixScenes(Stored(json, "scenes"), uuid);
    var fixedCustomEvents := FixEntities(Stored(json, "customEvents"), uuid, "customEvents", 0);
    var fixedPalettes := BackfillPalettes(FixEntities(Stored(json, "palettes"), uuid, "palettes", 0));
    var fixedEngineFieldValues := Or(Prop(json, "engineFieldValues"), Arr([]));
    fixed := FixedLists(fixedBackgroundIds, fixedSpriteIds, fixedMusicIds, fixedSoundIds, fixedFontIds,
      fixedAvatarIds, fixedEmoteIds, fixedTilesetIds, fixedScenes, fixedCustomEvents, fixedPalettes,
      fixedEngineFieldValues);
  }

  /** `loadProject(projectPath)`, with the file system, the loaders and `uuid()` as parameters. */
  method LoadProject(files: seq<(string, Value)>, originalJson: Value, migrate: Value -> Value, found: Discovered,
                     scriptEventDefs: Value, engineFields: Value, sceneTypes: Value, uuid: UuidSite -> string)
    returns (r: Result<LoadProjectResult>)
    ensures r == Loaded(files, originalJson, migrate, found, scriptEventDefs, engineFields, sceneTypes, uuid)
  {
    var json := migrate(originalJson);
    if !Loadable(files, originalJson, json, found) {
      return Failure("load");
    }
    var fixed, modifiedSpriteIds := FixProjectLists(json, found, uuid);
    if !ListsSortable(fixed) {
      return Failure("name");
    }
    var linked := Resources(FileRows(files), found, uuid);
    LoadedAssembles(files, originalJson, migrate, found, scriptEventDefs, engineFields, sceneTypes, uuid);
    r := Assembled(originalJson, json, fixed, modifiedSpriteIds, linked, scriptEventDefs, engineFields, sceneTypes);
  }

  // ---------------------------------------------------------------------
  // Properties of the loaded project
  // ---------------------------------------------------------------------

  /** An overridden key of the project data holds the fixed value. */
  lemma ProjectDataOverride(json: Value, f: FixedLists, i: nat)
    requires i < |DataKeys|
    ensures Prop(ProjectData(json, f), DataKeys[i]) == DataOverrides(f)[i].1
  {
    var src := DataOverrides(f);
    assert forall j | 0 <= j < |src| :: src[j].0 == DataKeys[j];
    GetOverride(SpreadSource(json), src, i);
  }

  /** Every other named key of the project data is the stored document's. */
  lemma ProjectDataKeeps(json: Value, f: FixedLists, k: string)
    requires !IndexLike(k) && k !in DataKeys
    ensures Prop(ProjectData(json, f), k) == Prop(json, k)
  {
    var src := DataOverrides(f);
    assert forall j | 0 <= j < |src| :: src[j].0 == DataKeys[j];
    GetNotOverridden(SpreadSource(json), src, k);
    SpreadSourceNamed(json, k);
  }

  /** A successful load is the project data of the fixed lists, the linked resources and the two flags. */
  lemma LoadedParts(files: seq<(string, Value)>, originalJson: Value, migrate: Value -> Value, found: Discovered,
                    scriptEventDefs: Value, engineFields: Value, sceneTypes: Value, uuid: UuidSite -> string)
    requires Loaded(files, originalJson, migrate, found, scriptEventDefs, engineFields, sceneTypes, uuid).Success?
    ensures var json := migrate(originalJson);
      var res := Loaded(files, originalJson, migrate, found, scriptEventDefs, engineFields, sceneTypes, uuid).value;
      && Readable(files) && !Nullish(originalJson) && Fixable(json) && AssetsKeyable(json, found)
      && ListsSortable(FixedListsOf(json, found, uuid))
      && res.data == ProjectData(json, FixedListsOf(json, found, uuid))
      && Resources(FileRows(files), found, uuid) == Success(res.resources)
      && res.modifiedSpriteIds == ModifiedSpriteIds(found.sprites, Matches(found.sprites, StoredAssets(json, "spriteSheets")))
      && res.isMigrated == IsMigrated(originalJson, json)
  {
  }

  /**
   * The resource lists can be built exactly when every background row and
   * every discovered background has a string file name and some row has
   * type `variables`.
   */
  lemma ResourcesFailIff(rows: seq<Row>, found: Discovered, uuid: UuidSite -> string)
    ensures Resources(rows, found, uuid).Failure? <==>
              || (exists r | r in rows :: TypeKey(r) == "background" && !Keyable(r.data))
              || !KeyableAll(found.backgrounds)
              || forall r | r in rows :: TypeKey(r) != "variables"
  {
    GroupByEmpty(rows, TypeKey, "variables");
    var g := GroupBy(rows, TypeKey, "background");
    if exists r | r in rows :: TypeKey(r) == "background" && !Keyable(r.data) {
      var r :| r in rows && TypeKey(r) == "background" && !Keyable(r.data);
      GroupByIff(rows, TypeKey, "background", r);
      var i :| 0 <= i < |g| && g[i] == r;
      assert Data(g)[i] == r.data;
    }
    if !KeyableAll(Data(g)) {
      var i :| 0 <= i < |g| && !Keyable(Data(g)[i]);
      GroupByIff(rows, TypeKey, "background", g[i]);
    }
  }

  /** The type key of each file's row is its document's `_resourceType`, as text. */
  lemma FileRowTypes(files: seq<(string, Value)>)
    ensures forall i | 0 <= i < |files| :: TypeKey(FileRows(files)[i]) == ToText(Prop(files[i].1, "_resourceType"))
    ensures (forall r | r in FileRows(files) :: TypeKey(r) != "variables")
       <==> forall i | 0 <= i < |files| :: ToText(Prop(files[i].1, "_resourceType")) != "variables"
  {
    var rows := FileRows(files);
    if forall i | 0 <= i < |files| :: ToText(Prop(files[i].1, "_resourceType")) != "variables" {
      forall r | r in rows ensures TypeKey(r) != "variables" {
        var i :| 0 <= i < |rows| && rows[i] == r;
      }
    }
  }

  /**
   * The load fails exactly when a resource document is `null`, the project
   * document is nullish, the migrated document cannot be fixed, an asset
   * merge throws, a merged asset list cannot be sorted by name, a background
   * resource file has no string file name, or no resource file has type
   * `variables`.
   */
  lemma LoadedFailsIff(files: seq<(string, Value)>, originalJson: Value, migrate: Value -> Value, found: Discovered,
                       scriptEventDefs: Value, engineFields: Value, sceneTypes: Value, uuid: UuidSite -> string)
    ensures Loaded(files, originalJson, migrate, found, scriptEventDefs, engineFields, sceneTypes, uuid).Failure? <==>
              || (exists i | 0 <= i < |files| :: files[i].1 == Null)
              || Nullish(originalJson)
              || !Fixable(migrate(originalJson))
              || !AssetsKeyable(migrate(originalJson), found)
              || !ListsSortable(FixedListsOf(migrate(originalJson), found, uuid))
              || (exists i | 0 <= i < |files| ::
                    ToText(Prop(files[i].1, "_resourceType")) == "background" && !Keyable(files[i].1))
              || forall i | 0 <= i < |files| :: ToText(Prop(files[i].1, "_resourceType")) != "variables"
  {
    LoadedFails(files, originalJson, migrate, found, scriptEventDefs, engineFields, sceneTypes, uuid);
    ResourcesFailIff(FileRows(files), found, uuid);
    FileRowTypes(files);
    FileRowBackgrounds(files);
  }

  /** The load fails when the guard does, the sort by name throws or the resources cannot be linked. */
  lemma LoadedFails(files: seq<(string, Value)>, originalJson: Value, migrate: Value -> Value, found: Discovered,
                    scriptEventDefs: Value, engineFields: Value, sceneTypes: Value, uuid: UuidSite -> string)
    ensures Loaded(files, originalJson, migrate, found, scriptEventDefs, engineFields, sceneTypes, uuid).Failure? <==>
              || !Loadable(files, originalJson, migrate(originalJson), found)
              || !ListsSortable(FixedListsOf(migrate(originalJson), found, uuid))
              || Resources(FileRows(files), found, uuid).Failure?
  {
    var json := migrate(originalJson);
    if Loadable(files, originalJson, json, found) {
      var fixed := FixedListsOf(json, found, uuid);
      if ListsSortable(fixed) {
        LoadedAssembles(files, originalJson, migrate, found, scriptEventDefs, engineFields, sceneTypes, uuid);
      }
    }
  }

  /** A load that passes its guards is the assembly of the fixed lists and the linked resources. */
  lemma LoadedAssembles(files: seq<(string, Value)>, originalJson: Value, migrate: Value -> Value, found: Discovered,
                        scriptEventDefs: Value, engineFields: Value, sceneTypes: Value, uuid: UuidSite -> string)
    requires Loadable(files, originalJson, migrate(originalJson), found)
    requires ListsSortable(FixedListsOf(migrate(originalJson), found, uuid))
    ensures var json := migrate(originalJson);
      Loaded(files, originalJson, migrate, found, scriptEventDefs, engineFields, sceneTypes, uuid)
        == Assembled(originalJson, json, FixedListsOf(json, found, uuid),
             ModifiedSpriteIds(found.sprites, Matches(found.sprites, StoredAssets(json, "spriteSheets"))),
             Resources(FileRows(files), found, uuid), scriptEventDefs, engineFields, sceneTypes)
  {
  }

  /** A background row with no string file name is the row of such a resource file. */
  lemma FileRowBackgrounds(files: seq<(string, Value)>)
    ensures (exists r | r in FileRows(files) :: TypeKey(r) == "background" && !Keyable(r.data))
       <==> exists i | 0 <= i < |files| :: ToText(Prop(files[i].1, "_resourceType")) == "background" && !Keyable(files[i].1)
  {
    var rows := FileRows(files);
    FileRowTypes(files);
    if exists r | r in rows :: TypeKey(r) == "background" && !Keyable(r.data) {
      var r :| r in rows && TypeKey(r) == "background" && !Keyable(r.data);
      var i :| 0 <= i < |rows| && rows[i] == r;
      assert ToText(Prop(files[i].1, "_resourceType")) == "background" && !Keyable(files[i].1);
    }
    if exists i | 0 <= i < |files| :: ToText(Prop(files[i].1, "_resourceType")) == "background" && !Keyable(files[i].1) {
      var i :| 0 <= i < |files| && ToText(Prop(files[i].1, "_resourceType")) == "background" && !Keyable(files[i].1);
      assert rows[i] in rows;
    }
  }

  /** A list of merged assets, one per discovered asset, in ascending order of upper-cased name. */
  predicate SortedAssets(v: Value, discovered: seq<Value>) {
    v.Arr? && |v.elems| == |discovered| && NamesAscend(v.elems)
  }

  lemma FixedSorted(rule: MergeRule, assets: seq<Value>, stored: seq<Value>)
    ensures SortedAssets(Arr(Fixed(rule, assets, stored)), assets)
  {
    FixedAssets(rule, assets, stored);
  }

  /** The fixed asset lists hold one merged entry per discovered asset, sorted by name. */
  lemma FixedListsSorted(json: Value, found: Discovered, uuid: UuidSite -> string)
    requires Fixable(json)
    ensures var f := FixedListsOf(json, found, uuid);
      && SortedAssets(Arr(f.backgrounds), found.backgrounds) && SortedAssets(Arr(f.spriteSheets), found.sprites)
      && SortedAssets(Arr(f.music), found.music) && SortedAssets(Arr(f.sounds), found.sounds)
      && SortedAssets(Arr(f.fonts), found.fonts) && SortedAssets(Arr(f.avatars), found.avatars)
      && SortedAssets(Arr(f.emotes), found.emotes) && SortedAssets(Arr(f.tilesets), found.tilesets)
  {
    FixedSorted(BackgroundRule, found.backgrounds, StoredAssets(json, "backgrounds"));
    FixedSorted(MusicRule, found.music, StoredAssets(json, "music"));
    FixedSorted(SymbolRule, found.sounds, StoredAssets(json, "sounds"));
    FixedSorted(SymbolRule, found.fonts, StoredAssets(json, "fonts"));
    FixedSorted(IdRule, found.avatars, StoredAssets(json, "avatars"));
    FixedSorted(SymbolRule, found.emotes, StoredAssets(json, "emotes"));
    FixedSorted(SymbolRule, found.tilesets, StoredAssets(json, "tilesets"));
    var merged := MergedSprites(found.sprites, Matches(found.sprites, StoredAssets(json, "spriteSheets")), uuid);
    SortedByName(merged);
    SortPermutes(merged, SortByName);
    assert |multiset(InsertionSort(merged, SortByName))| == |multiset(merged)|;
  }

  /** The project data carries the fixed asset lists under their keys. */
  lemma ProjectDataAssets(json: Value, f: FixedLists)
    ensures && Prop(ProjectData(json, f), "backgrounds") == Arr(f.backgrounds)
            && Prop(ProjectData(json, f), "spriteSheets") == Arr(f.spriteSheets)
            && Prop(ProjectData(json, f), "music") == Arr(f.music)
            && Prop(ProjectData(json, f), "sounds") == Arr(f.sounds)
            && Prop(ProjectData(json, f), "fonts") == Arr(f.fonts)
            && Prop(ProjectData(json, f), "avatars") == Arr(f.avatars)
            && Prop(ProjectData(json, f), "emotes") == Arr(f.emotes)
            && Prop(ProjectData(json, f), "tilesets") == Arr(f.tilesets)
            && Prop(ProjectData(json, f), "palettes") == Arr(f.palettes)
  {
    ProjectDataOverride(json, f, 0);
    ProjectDataOverride(json, f, 1);
    ProjectDataOverride(json, f, 2);
    ProjectDataOverride(json, f, 3);
    ProjectDataOverride(json, f, 4);
    ProjectDataOverride(json, f, 5);
    ProjectDataOverride(json, f, 6);
    ProjectDataOverride(json, f, 7);
    ProjectDataOverride(json, f, 10);
  }

  /** Every asset list of the loaded data holds one merged entry per discovered asset, sorted by name. */
  lemma LoadedAssetsSorted(files: seq<(string, Value)>, originalJson: Value, migrate: Value -> Value, found: Discovered,
                           scriptEventDefs: Value, engineFields: Value, sceneTypes: Value, uuid: UuidSite -> string)
    requires Loaded(files, originalJson, migrate, found, scriptEventDefs, engineFields, sceneTypes, uuid).Success?
    ensures var d := Loaded(files, originalJson, migrate, found, scriptEventDefs, engineFields, sceneTypes, uuid).value.data;
      && SortedAssets(Prop(d, "backgrounds"), found.backgrounds)
      && SortedAssets(Prop(d, "spriteSheets"), found.sprites)
      && SortedAssets(Prop(d, "music"), found.music)
      && SortedAssets(Prop(d, "sounds"), found.sounds)
      && SortedAssets(Prop(d, "fonts"), found.fonts)
      && SortedAssets(Prop(d, "avatars"), found.avatars)
      && SortedAssets(Prop(d, "emotes"), found.emotes)
      && SortedAssets(Prop(d, "tilesets"), found.tilesets)
  {
    var json := migrate(originalJson);
    LoadedParts(files, originalJson, migrate, found, scriptEventDefs, engineFields, sceneTypes, uuid);
    FixedListsSorted(json, found, uuid);
    ProjectDataAssets(json, FixedListsOf(json, found, uuid));
  }

  /**
   * The loaded palettes keep the stored palettes (with ids added) first, in
   * place and with their ids, and hold every built-in palette's id.
   */
  lemma LoadedPalettes(files: seq<(string, Value)>, originalJson: Value, migrate: Value -> Value, found: Discovered,
                       scriptEventDefs: Value, engineFields: Value, sceneTypes: Value, uuid: UuidSite -> string)
    requires Loaded(files, originalJson, migrate, found, scriptEventDefs, engineFields, sceneTypes, uuid).Success?
    ensures var json := migrate(originalJson);
      var d := Loaded(files, originalJson, migrate, found, scriptEventDefs, engineFields, sceneTypes, uuid).value.data;
      var stored := FixEntities(Stored(json, "palettes"), uuid, "palettes", 0);
      && Prop(d, "palettes").Arr?
      && |Prop(d, "palettes").elems| >= |stored|
      && IdsOf(Prop(d, "palettes").elems)[..|stored|] == IdsOf(stored)
      && forall k | 0 <= k < |DefaultPalettes| :: Prop(DefaultPalettes[k], "id") in IdsOf(Prop(d, "palettes").elems)
  {
    var json := migrate(originalJson);
    LoadedParts(files, originalJson, migrate, found, scriptEventDefs, engineFields, sceneTypes, uuid);
    ProjectDataAssets(json, FixedListsOf(json, found, uuid));
    var stored := FixEntities(Stored(json, "palettes"), uuid, "palettes", 0);
    BackfilledKeepsIds(stored, DefaultPalettes);
    BackfilledHasDefaults(stored, DefaultPalettes);
  }

  /** Every named field the load does not rewrite is the migrated document's. */
  lemma LoadedKeeps(files: seq<(string, Value)>, originalJson: Value, migrate: Value -> Value, found: Discovered,
                    scriptEventDefs: Value, engineFields: Value, sceneTypes: Value, uuid: UuidSite -> string, k: string)
    requires Loaded(files, originalJson, migrate, found, scriptEventDefs, engineFields, sceneTypes, uuid).Success?
    requires !IndexLike(k) && k !in DataKeys
    ensures Prop(Loaded(files, originalJson, migrate, found, scriptEventDefs, engineFields, sceneTypes, uuid).value.data, k)
         == Prop(migrate(originalJson), k)
  {
    var json := migrate(originalJson);
    ProjectDataKeeps(json, FixedListsOf(json, found, uuid), k);
  }

  /**
   * A loaded project reports a sprite id for rebuilding exactly when some
   * discovered sprite has no usable stored match; `isMigrated` says whether
   * the migration changed the version or release.
   */
  lemma LoadedFlags(files: seq<(string, Value)>, originalJson: Value, migrate: Value -> Value, found: Discovered,
                    scriptEventDefs: Value, engineFields: Value, sceneTypes: Value, uuid: UuidSite -> string, v: Value)
    requires Loaded(files, originalJson, migrate, found, scriptEventDefs, engineFields, sceneTypes, uuid).Success?
    ensures var json := migrate(originalJson);
      var res := Loaded(files, originalJson, migrate, found, scriptEventDefs, engineFields, sceneTypes, uuid).value;
      var olds := Matches(found.sprites, StoredAssets(json, "spriteSheets"));
      && (v in res.modifiedSpriteIds <==>
            exists i | 0 <= i < |found.sprites| :: NeedsRebuild(olds[i]) && v == SpriteId(found.sprites[i], olds[i]))
      && (res.isMigrated <==>
            Prop(json, "_version") != Prop(originalJson, "_version") || Prop(json, "_release") != Prop(originalJson, "_release"))
  {
    var json := migrate(originalJson);
    ModifiedSpriteIdsIff(found.sprites, Matches(found.sprites, StoredAssets(json, "spriteSheets")), v);
  }

  /**
   * The linked resources: the variables are the document of the first
   * `variables` row; there is one scene resource per scene row and one
   * background resource per discovered background.
   */
  lemma ResourceLists(rows: seq<Row>, found: Discovered, uuid: UuidSite -> string)
    requires Resources(rows, found, uuid).Success?
    ensures var res := Resources(rows, found, uuid).value;
      && (exists i | 0 <= i < |rows| :: TypeKey(rows[i]) == "variables" && res.variables == rows[i].data
           && forall j | 0 <= j < i :: TypeKey(rows[j]) != "variables")
      && |res.scenes| == |GroupBy(rows, TypeKey, "scene")|
      && |res.backgrounds| == |found.backgrounds|
  {
    FirstOfGroup(rows, TypeKey, "variables");
  }
}
