/**
 * Turning a migrated single-file project into project resources: every
 * resource is tagged with its type and marked dirty, actors and triggers
 * are numbered by their position in their scene, and the project-wide
 * values are wrapped into their own resources.
 */
module MigrateLegacyProject {
  import opened JsValue
  import opened ResourceTypes
  import opened Patch

  /**
   * The project as `migrateProject` returns it (that migration is not part
   * of this model): the entity lists and the project-wide values.
   */
  datatype MigratedProject = MigratedProject(
    scenes: seq<Value>,
    customEvents: seq<Value>,
    spriteSheets: seq<Value>,
    backgrounds: seq<Value>,
    emotes: seq<Value>,
    avatars: seq<Value>,
    tilesets: seq<Value>,
    fonts: seq<Value>,
    sounds: seq<Value>,
    music: seq<Value>,
    palettes: seq<Value>,
    variables: Value,
    engineFieldValues: Value,
    settings: Value,
    name: Value,
    author: Value,
    notes: Value,
    version: Value,
    release: Value)

  /** `encodeResource(type)(data)`: `{_resourceType: type, ...data, __dirty: true}`. */
  function EncodeResource(resourceType: string, data: Value): (r: Value)
    ensures r.Obj? && Get(r.props, "__dirty") == Bool(true)
  {
    var ps := Spread([("_resourceType", Str(resourceType))], data);
    GetSet(ps, "__dirty", Bool(true), "__dirty");
    Obj(Set(ps, "__dirty", Bool(true)))
  }

  /**
   * Every named key of the data keeps its value; `_resourceType` is the
   * given type unless the data carries its own.
   */
  lemma EncodeResourceGet(resourceType: string, data: Value, k: string)
    requires !IndexLike(k) && k != "__dirty"
    ensures Prop(EncodeResource(resourceType, data), k) ==
              if Has(data, k) then Prop(data, k)
              else if k == "_resourceType" then Str(resourceType)
              else Undefined
  {
    var base := [("_resourceType", Str(resourceType))];
    var ps := Spread(base, data);
    GetSet(ps, "__dirty", Bool(true), k);
    SpreadSourceNamed(data, k);
    GetSetAll(base, SpreadSource(data), k);
    assert base[..0] == [];
  }

  /** The type tag: the given type unless the data carries its own. */
  lemma EncodeResourceType(resourceType: string, data: Value)
    ensures Prop(EncodeResource(resourceType, data), "_resourceType") ==
              if Has(data, "_resourceType") then Prop(data, "_resourceType") else Str(resourceType)
  {
    EncodeResourceGet(resourceType, data, "_resourceType");
  }

  /** Every encoded resource is dirty, so the patch filter keeps it. */
  lemma EncodedIsDirty(resourceType: string, data: Value)
    ensures HasDirty(EncodeResource(resourceType, data))
    ensures StripDirtyResource(EncodeResource(resourceType, data)) == Clean(EncodeResource(resourceType, data))
  {
    MarkedIsDirty(EncodeResource(resourceType, data));
  }

  /** `xs.map((x, i) => encode({...x, _index: i}))`: every child, `null` included, numbered by its position. */
  function Numbered(xs: seq<Value>, resourceType: string): (r: seq<Value>)
    ensures |r| == |xs|
  {
    seq(|xs|, i requires 0 <= i < |xs| => EncodeResource(resourceType, Obj(Set(SpreadSource(xs[i]), "_index", Num(i)))))
  }

  /** The `i`-th child has `_index` equal to `i` and the child's type, whatever the child held. */
  lemma NumberedChild(xs: seq<Value>, resourceType: string, i: nat)
    requires i < |xs|
    ensures Prop(Numbered(xs, resourceType)[i], "_index") == Num(i)
    ensures Prop(Numbered(xs, resourceType)[i], "_resourceType") ==
              if Has(xs[i], "_resourceType") then Prop(xs[i], "_resourceType") else Str(resourceType)
    ensures Prop(Numbered(xs, resourceType)[i], "__dirty") == Bool(true)
  {
    var child := Obj(Set(SpreadSource(xs[i]), "_index", Num(i)));
    EncodeResourceGet(resourceType, child, "_index");
    EncodeResourceType(resourceType, child);
    GetSet(SpreadSource(xs[i]), "_index", Num(i), "_index");
    KeysSet(SpreadSource(xs[i]), "_index", Num(i));
    GetSet(SpreadSource(xs[i]), "_index", Num(i), "_resourceType");
    KeysSet(SpreadSource(xs[i]), "_index", Num(i));
    SpreadSourceNamed(xs[i], "_resourceType");
  }

  /** `{...scene, actors, triggers}` before it is encoded. */
  function SceneWithChildren(scene: Value): Props
    requires SceneShaped(scene)
  {
    var actors := Numbered(Prop(scene, "actors").elems, "actor");
    var triggers := Numbered(Prop(scene, "triggers").elems, "trigger");
    Set(Set(SpreadSource(scene), "actors", Arr(actors)), "triggers", Arr(triggers))
  }

  /** The scene record before compression: `{...scene, actors, triggers}` with numbered children. */
  function SceneRecord(scene: Value): (r: Value)
    requires SceneShaped(scene)
    ensures r.Obj? && Get(r.props, "__dirty") == Bool(true)
  {
    EncodeResource("scene", Obj(SceneWithChildren(scene)))
  }

  lemma SceneWithChildrenGet(scene: Value, k: string)
    requires SceneShaped(scene)
    ensures Get(SceneWithChildren(scene), k) ==
              if k == "triggers" then Arr(Numbered(Prop(scene, "triggers").elems, "trigger"))
              else if k == "actors" then Arr(Numbered(Prop(scene, "actors").elems, "actor"))
              else Get(SpreadSource(scene), k)
    ensures HasKey(SceneWithChildren(scene), k) <==> k == "actors" || k == "triggers" || HasKey(SpreadSource(scene), k)
  {
    var actors := Numbered(Prop(scene, "actors").elems, "actor");
    var triggers := Numbered(Prop(scene, "triggers").elems, "trigger");
    var a := Set(SpreadSource(scene), "actors", Arr(actors));
    KeysSet(a, "triggers", Arr(triggers));
    KeysSet(SpreadSource(scene), "actors", Arr(actors));
    GetSet(a, "triggers", Arr(triggers), k);
    GetSet(SpreadSource(scene), "actors", Arr(actors), k);
  }

  /** The scene's children are replaced by their numbered encodings. */
  lemma SceneRecordChildren(scene: Value)
    requires SceneShaped(scene)
    ensures Prop(SceneRecord(scene), "actors") == Arr(Numbered(Prop(scene, "actors").elems, "actor"))
    ensures Prop(SceneRecord(scene), "triggers") == Arr(Numbered(Prop(scene, "triggers").elems, "trigger"))
  {
    var b := SceneWithChildren(scene);
    assert SceneRecord(scene) == EncodeResource("scene", Obj(b));
    SceneWithChildrenGet(scene, "actors");
    SceneWithChildrenGet(scene, "triggers");
    EncodeResourceGet("scene", Obj(b), "actors");
    EncodeResourceGet("scene", Obj(b), "triggers");
  }

  /** The scene is tagged `"scene"` unless it carries its own tag. */
  lemma SceneRecordType(scene: Value)
    requires SceneShaped(scene)
    ensures Prop(SceneRecord(scene), "_resourceType") ==
              if Has(scene, "_resourceType") then Prop(scene, "_resourceType") else Str("scene")
  {
    var b := SceneWithChildren(scene);
    assert SceneRecord(scene) == EncodeResource("scene", Obj(b));
    SceneWithChildrenGet(scene, "_resourceType");
    EncodeResourceGet("scene", Obj(b), "_resourceType");
    SpreadSourceNamed(scene, "_resourceType");
  }

  /** `list.map(encodeResource(type))` */
  function EncodeAll(xs: seq<Value>, resourceType: string): (r: seq<Value>)
    ensures |r| == |xs|
  {
    seq(|xs|, i requires 0 <= i < |xs| => EncodeResource(resourceType, xs[i]))
  }

  /**
   * The `i`-th element of an encoded list is the `i`-th input, tagged and
   * marked dirty: each named key keeps its value.
   */
  lemma EncodeAllAt(xs: seq<Value>, resourceType: string, i: nat, k: string)
    requires i < |xs| && !IndexLike(k) && k != "__dirty"
    ensures Prop(EncodeAll(xs, resourceType)[i], "__dirty") == Bool(true)
    ensures Prop(EncodeAll(xs, resourceType)[i], k) ==
              if Has(xs[i], k) then Prop(xs[i], k)
              else if k == "_resourceType" then Str(resourceType)
              else Undefined
  {
    EncodeResourceGet(resourceType, xs[i], k);
  }

  /** Every element of an encoded list survives the patch filter, cleaned, in order. */
  lemma EncodedListSurvives(xs: seq<Value>, resourceType: string)
    ensures |StripDirtyResources(EncodeAll(xs, resourceType))| == |xs|
    ensures forall i | 0 <= i < |xs| ::
              StripDirtyResources(EncodeAll(xs, resourceType))[i] == Clean(EncodeResource(resourceType, xs[i]))
  {
    var encoded := EncodeAll(xs, resourceType);
    forall x | x in encoded ensures HasDirty(x) {
      var i :| 0 <= i < |encoded| && encoded[i] == x;
      EncodedIsDirty(resourceType, xs[i]);
    }
    AllDirtyKept(encoded);
  }

  /** `migrateLegacyProject`, with the two compressors (not part of this model) as parameters. */
  function Migrate(m: MigratedProject, compressScene: Value -> Value, compressBackground: Value -> Value)
    : (r: ProjectResources)
    requires forall s | s in m.scenes :: SceneShaped(s)
    ensures |r.scenes| == |m.scenes| && |r.backgrounds| == |m.backgrounds|
    ensures forall i | 0 <= i < |m.scenes| :: r.scenes[i] == compressScene(SceneRecord(m.scenes[i]))
    ensures forall i | 0 <= i < |m.backgrounds| ::
              r.backgrounds[i] == compressBackground(EncodeResource("background", m.backgrounds[i]))
  {
    ProjectResources(
      seq(|m.scenes|, i requires 0 <= i < |m.scenes| => assert m.scenes[i] in m.scenes; compressScene(SceneRecord(m.scenes[i]))),
      EncodeAll(m.customEvents, "script"),
      EncodeAll(m.spriteSheets, "sprite"),
      seq(|m.backgrounds|, i requires 0 <= i < |m.backgrounds| => compressBackground(EncodeResource("background", m.backgrounds[i]))),
      EncodeAll(m.emotes, "emote"),
      EncodeAll(m.avatars, "avatar"),
      EncodeAll(m.fonts, "font"),
      EncodeAll(m.tilesets, "tileset"),
      EncodeAll(m.sounds, "sound"),
      EncodeAll(m.music, "music"),
      EncodeAll(m.palettes, "palette"),
      Obj([("_resourceType", Str("variables")), ("variables", m.variables)]),
      Obj([("_resourceType", Str("engineFieldValues")), ("engineFieldValues", m.engineFieldValues)]),
      Obj(Spread([("_resourceType", Str("settings"))], m.settings)),
      Obj([("_resourceType", Str("project")), ("name", m.name), ("author", m.author), ("notes", m.notes),
           ("_version", m.version), ("_release", m.release)]))
  }

  /**
   * The settings resource is the migrated settings tagged `"settings"`
   * unless they carry their own tag; every other named key is copied.
   */
  lemma MigrateSettings(m: MigratedProject, compressScene: Value -> Value, compressBackground: Value -> Value, k: string)
    requires forall s | s in m.scenes :: SceneShaped(s)
    requires !IndexLike(k)
    ensures Prop(Migrate(m, compressScene, compressBackground).settings, k) ==
              if Has(m.settings, k) then Prop(m.settings, k)
              else if k == "_resourceType" then Str("settings")
              else Undefined
  {
    var base := [("_resourceType", Str("settings"))];
    SpreadSourceNamed(m.settings, k);
    GetSetAll(base, SpreadSource(m.settings), k);
    assert base[..0] == [];
  }

  /** The metadata copies the project's name, author, notes, version and release, tagged `"project"`. */
  lemma MigrateMetadata(m: MigratedProject, compressScene: Value -> Value, compressBackground: Value -> Value)
    requires forall s | s in m.scenes :: SceneShaped(s)
    ensures var meta := Migrate(m, compressScene, compressBackground).metadata;
            && Prop(meta, "_resourceType") == Str("project")
            && Prop(meta, "name") == m.name && Prop(meta, "author") == m.author && Prop(meta, "notes") == m.notes
            && Prop(meta, "_version") == m.version && Prop(meta, "_release") == m.release
  {
    var meta := Migrate(m, compressScene, compressBackground).metadata.props;
    GetLast(meta, 0);
    GetLast(meta, 1);
    GetLast(meta, 2);
    GetLast(meta, 3);
    GetLast(meta, 4);
    GetLast(meta, 5);
  }

  /** The variables and the engine field values are wrapped in resources of their own type. */
  lemma MigrateWrappers(m: MigratedProject, compressScene: Value -> Value, compressBackground: Value -> Value)
    requires forall s | s in m.scenes :: SceneShaped(s)
    ensures var r := Migrate(m, compressScene, compressBackground);
            && Prop(r.variables, "_resourceType") == Str("variables") && Prop(r.variables, "variables") == m.variables
            && Prop(r.engineFieldValues, "_resourceType") == Str("engineFieldValues")
            && Prop(r.engineFieldValues, "engineFieldValues") == m.engineFieldValues
  {
    var r := Migrate(m, compressScene, compressBackground);
    GetLast(r.variables.props, 0);
    GetLast(r.variables.props, 1);
    GetLast(r.engineFieldValues.props, 0);
    GetLast(r.engineFieldValues.props, 1);
  }

  /**
   * Every resource of the plain lists (all but scenes and backgrounds, which
   * go through the compressors) is dirty, so the patch built from a
   * migrated project keeps each of those lists whole.
   */
  lemma MigratedListsSurvivePatch(m: MigratedProject, compressScene: Value -> Value, compressBackground: Value -> Value)
    requires forall s | s in m.scenes :: SceneShaped(s)
    ensures var p := BuildPatch(Migrate(m, compressScene, compressBackground)).data;
            && |p.scripts| == |m.customEvents| && |p.sprites| == |m.spriteSheets|
            && |p.emotes| == |m.emotes| && |p.avatars| == |m.avatars|
            && |p.tilesets| == |m.tilesets| && |p.fonts| == |m.fonts|
            && |p.sounds| == |m.sounds| && |p.music| == |m.music| && |p.palettes| == |m.palettes|
  {
    EncodedListSurvives(m.customEvents, "script");
    EncodedListSurvives(m.spriteSheets, "sprite");
    EncodedListSurvives(m.emotes, "emote");
    EncodedListSurvives(m.avatars, "avatar");
    EncodedListSurvives(m.tilesets, "tileset");
    EncodedListSurvives(m.fonts, "font");
    EncodedListSurvives(m.sounds, "sound");
    EncodedListSurvives(m.music, "music");
    EncodedListSurvives(m.palettes, "palette");
  }
}
