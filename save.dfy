/**
 * The export buffer: every project resource turned into one file entry
 * `{path, checksum, data}` under the `project` folder.  Scenes come first,
 * each preceded by its actors and triggers, then the asset lists, then the
 * two settings files, the variables and the engine field values.
 */
module Save {
  import opened JsValue
  import opened Json
  import opened Text
  import opened Paths
  import opened ResourceTypes

  /** The properties left after destructuring `id`, `__dirty` and `__type` out of `data`. */
  function Rest(data: Props): Props {
    Remove(Remove(Remove(data, "id"), "__dirty"), "__type")
  }

  /** The object literal `{_resourceType: resourceType, id, ...rest}`, before it becomes text. */
  function Layout(resourceType: string, data: Props): Props {
    SetAll([("_resourceType", Str(resourceType)), ("id", Get(data, "id"))], Rest(data))
  }

  /**
   * `encodeResource(resourceType, data)`: `id` is taken out and put back
   * second, after `_resourceType`; `__dirty` and `__type` are dropped; the
   * rest follows in its own order.  The text is kept as the JSON value it
   * denotes.
   */
  function EncodeResource(resourceType: string, data: Props): (r: Value)
    ensures r.Obj?
  {
    ToJson(Obj(Layout(resourceType, data)))
  }

  /** Keys that `encodeResource` removes. */
  predicate Internal(k: string) {
    k == "__dirty" || k == "__type"
  }

  lemma RestGet(data: Props, k: string)
    ensures HasKey(Rest(data), k) <==> k != "id" && !Internal(k) && HasKey(data, k)
    ensures Get(Rest(data), k) == if k == "id" || Internal(k) then Undefined else Get(data, k)
  {
    var r1 := Remove(data, "id");
    var r2 := Remove(r1, "__dirty");
    GetRemove(data, "id", k);
    GetRemove(r1, "__dirty", k);
    GetRemove(r2, "__type", k);
  }

  /** The literal's keys are distinct; a key of `data` overrides only `_resourceType`. */
  lemma LayoutGet(resourceType: string, data: Props, k: string)
    ensures UniqueKeys(Layout(resourceType, data))
    ensures Internal(k) ==> !HasKey(Layout(resourceType, data), k)
    ensures Get(Layout(resourceType, data), k) ==
              if k == "_resourceType" then
                (if HasKey(data, k) then Get(data, k) else Str(resourceType))
              else if Internal(k) then Undefined
              else Get(data, k)
  {
    var base := [("_resourceType", Str(resourceType)), ("id", Get(data, "id"))];
    var rest := Rest(data);
    assert Keys(base) == ["_resourceType", "id"];
    var first := base[..1];
    assert first == [("_resourceType", Str(resourceType))] && first[..0] == [];
    assert Get(first[..0], k) == Undefined;
    assert Get(first, k) == if k == "_resourceType" then Str(resourceType) else Undefined;
    assert Get(base, k) == if k == "id" then Get(data, "id") else Get(first, k);
    UniqueKeysSetAll(base, rest);
    GetSetAll(base, rest, k);
    KeysSetAll(base, rest, k);
    RestGet(data, k);
    if !HasKey(data, k) {
      GetMissing(data, k);
    }
  }

  /**
   * Every property but the removed ones is written with its own value when
   * that value is defined; the removed ones never are; `_resourceType` is
   * the data's own when it has one, else the given type.
   */
  lemma EncodeResourceGet(resourceType: string, data: Props, k: string)
    ensures Internal(k) ==> !HasKey(EncodeResource(resourceType, data).props, k)
    ensures !Internal(k) && k != "_resourceType" ==>
              (HasKey(EncodeResource(resourceType, data).props, k) <==> Get(data, k) != Undefined)
              && Get(EncodeResource(resourceType, data).props, k) == ToJson(Get(data, k))
    ensures Get(EncodeResource(resourceType, data).props, "_resourceType") ==
              ToJson(if HasKey(data, "_resourceType") then Get(data, "_resourceType") else Str(resourceType))
  {
    LayoutGet(resourceType, data, k);
    LayoutGet(resourceType, data, "_resourceType");
    JsonGet(Obj(Layout(resourceType, data)), k);
    JsonGet(Obj(Layout(resourceType, data)), "_resourceType");
  }

  /** `_resourceType` is written first and `id` second whenever they are defined. */
  lemma EncodeResourceOrder(resourceType: string, data: Props)
    requires !HasKey(data, "_resourceType") || Get(data, "_resourceType") != Undefined
    ensures |EncodeResource(resourceType, data).props| >= 1
    ensures EncodeResource(resourceType, data).props[0].0 == "_resourceType"
    ensures Get(data, "id") != Undefined ==>
              |EncodeResource(resourceType, data).props| >= 2 && EncodeResource(resourceType, data).props[1].0 == "id"
  {
    var base := [("_resourceType", Str(resourceType)), ("id", Get(data, "id"))];
    var obj := Layout(resourceType, data);
    SetAllKeepsPositions(base, Rest(data));
    LayoutGet(resourceType, data, "_resourceType");
    LayoutGet(resourceType, data, "id");
    GetUnique(obj, 0);
    GetUnique(obj, 1);
    if Get(data, "id") != Undefined {
      JsonKeepsLeading(Obj(obj), 2, |obj|);
    } else {
      JsonKeepsLeading(Obj(obj), 1, |obj|);
    }
  }

  // ---------------------------------------------------------------------
  // File entries
  // ---------------------------------------------------------------------

  /** One file to write: where, the checksum of its text, and the text. */
  datatype WriteFile = WriteFile(path: string, checksum: string, data: Value)

  /**
   * The file-name rules of the resource path helpers, which are not part of
   * this model: the scene folder and scene file of the scene at an index,
   * the actor and trigger files inside a scene folder, and the files of
   * assets, palettes and scripts.
   */
  datatype PathRules = PathRules(
    sceneFolder: (Value, nat) -> string,
    sceneResource: (Value, nat) -> string,
    actorResource: (string, Value, nat) -> string,
    triggerResource: (string, Value, nat) -> string,
    assetResource: Value -> string,
    paletteResource: (Value, nat) -> string,
    scriptResource: (Value, nat) -> string)

  /** `writeResource`: the entry pushed for one resource; `hash` is the MD5 digest of the text. */
  function Entry(filename: string, resourceType: string, resource: Props, hash: Value -> string): WriteFile {
    var data := EncodeResource(resourceType, resource);
    WriteFile(Join("project", filename), hash(data), data)
  }

  /** The children that are written: the truthy ones, in order. */
  function Present(xs: seq<Value>): (r: seq<Value>)
    ensures |r| <= |xs|
  {
    if xs == [] then []
    else (if Truthy(xs[0]) then [xs[0]] else []) + Present(xs[1..])
  }

  /** The entry for the `i`-th written child, whose `_index` is `i`. */
  function ChildEntry(folder: string, child: Value, i: nat, resourceType: string,
                      path: (string, Value, nat) -> string, hash: Value -> string): WriteFile
  {
    Entry(path(folder, child, i), resourceType, Set(SpreadSource(child), "_index", Num(i)), hash)
  }

  /**
   * The entries of a scene's actors (or triggers): each truthy child gets
   * `_index` equal to the number of children written before it.
   */
  function ChildEntries(folder: string, xs: seq<Value>, resourceType: string,
                        path: (string, Value, nat) -> string, hash: Value -> string): seq<WriteFile>
    decreases |xs|
  {
    if xs == [] then []
    else
      var before := ChildEntries(folder, xs[..|xs| - 1], resourceType, path, hash);
      var x := xs[|xs| - 1];
      if Truthy(x) then
        before + [ChildEntry(folder, x, |before|, resourceType, path, hash)]
      else before
  }

  /** The scene's own record, with its children and tile colours taken out. */
  function SceneFields(scene: Value): Props {
    Set(Set(Set(SpreadSource(scene), "actors", Undefined), "triggers", Undefined), "tileColors", Undefined)
  }

  /** The entries of the scene at index `i`: its actors, its triggers, then itself. */
  function OneScene(scene: Value, i: nat, rules: PathRules, hash: Value -> string): seq<WriteFile>
    requires SceneShaped(scene)
  {
    var folder := rules.sceneFolder(scene, i);
    ChildEntries(folder, Prop(scene, "actors").elems, "actor", rules.actorResource, hash)
    + ChildEntries(folder, Prop(scene, "triggers").elems, "trigger", rules.triggerResource, hash)
    + [Entry(rules.sceneResource(scene, i), "scene", SceneFields(scene), hash)]
  }

  function SceneEntries(scenes: seq<Value>, rules: PathRules, hash: Value -> string): seq<WriteFile>
    requires forall s | s in scenes :: SceneShaped(s)
    decreases |scenes|
  {
    if scenes == [] then []
    else
      var n := |scenes| - 1;
      SceneEntries(scenes[..n], rules, hash) + OneScene(scenes[n], n, rules, hash)
  }

  /** One entry per element of a list, in order; `path` receives the element and its index. */
  function ListEntries(xs: seq<Value>, resourceType: string, path: (Value, nat) -> string,
                       hash: Value -> string): (es: seq<WriteFile>)
    ensures |es| == |xs|
    decreases |xs|
  {
    if xs == [] then []
    else
      var n := |xs| - 1;
      ListEntries(xs[..n], resourceType, path, hash) + [Entry(path(xs[n], n), resourceType, SpreadSource(xs[n]), hash)]
  }

  /** The keys kept out of `settings.gbsres` and written to `user_settings.gbsres`. */
  predicate UserSetting(k: string) {
    k == "worldScrollX" || k == "worldScrollY" || k == "zoom"
  }

  function SettingsFields(settings: Value): Props {
    Set(Set(Set(SpreadSource(settings), "worldScrollX", Undefined), "worldScrollY", Undefined), "zoom", Undefined)
  }

  function UserSettingsFields(settings: Value): Props {
    [("worldScrollX", Prop(settings, "worldScrollX")),
     ("worldScrollY", Prop(settings, "worldScrollY")),
     ("zoom", Prop(settings, "zoom"))]
  }

  /** The four single files written last. */
  function SingletonEntries(res: ProjectResources, hash: Value -> string): seq<WriteFile> {
    [Entry("settings.gbsres", "settings", SettingsFields(res.settings), hash),
     Entry("user_settings.gbsres", "settings", UserSettingsFields(res.settings), hash),
     Entry("variables.gbsres", "variables", SpreadSource(res.variables), hash),
     Entry("engine_field_values.gbsres", "engineFieldValues", SpreadSource(res.engineFieldValues), hash)]
  }

  /** The file of an asset list element, which does not depend on its index. */
  function AssetPath(rules: PathRules): (Value, nat) -> string {
    (v: Value, i: nat) => rules.assetResource(v)
  }

  /** The entries of the asset lists, palettes and scripts, in the order they are written. */
  function AssetEntries(res: ProjectResources, rules: PathRules, hash: Value -> string): seq<WriteFile> {
    var asset := AssetPath(rules);
    ListEntries(res.backgrounds, "background", asset, hash)
    + ListEntries(res.sprites, "sprite", asset, hash)
    + ListEntries(res.palettes, "palette", rules.paletteResource, hash)
    + ListEntries(res.scripts, "script", rules.scriptResource, hash)
    + ListEntries(res.music, "music", asset, hash)
    + ListEntries(res.sounds, "sound", asset, hash)
    + ListEntries(res.emotes, "emote", asset, hash)
    + ListEntries(res.avatars, "avatar", asset, hash)
    + ListEntries(res.tilesets, "tileset", asset, hash)
    + ListEntries(res.fonts, "font", asset, hash)
  }

  /** What `buildResourceExportBuffer` returns. */
  function ExportBuffer(res: ProjectResources, rules: PathRules, hash: Value -> string): seq<WriteFile>
    requires forall s | s in res.scenes :: SceneShaped(s)
  {
    SceneEntries(res.scenes, rules, hash) + AssetEntries(res, rules, hash) + SingletonEntries(res, hash)
  }

  lemma ConcatAssoc<T>(a: seq<T>, b: seq<T>, c: seq<T>)
    ensures a + b + c == a + (b + c)
  {
  }

  // ---------------------------------------------------------------------
  // The buffer builder
  // ---------------------------------------------------------------------

  /** The loop over one scene's actors (or triggers), counting only the children it writes. */
  method WriteChildren(buffer: seq<WriteFile>, folder: string, xs: seq<Value>, resourceType: string,
                       path: (string, Value, nat) -> string, hash: Value -> string)
    returns (out: seq<WriteFile>)
    ensures out == buffer + ChildEntries(folder, xs, resourceType, path, hash)
  {
    out := buffer;
    if |xs| > 0 {
      var index := 0;
      var i := 0;
      while i < |xs|
        invariant 0 <= i <= |xs|
        invariant out == buffer + ChildEntries(folder, xs[..i], resourceType, path, hash)
        invariant index == |ChildEntries(folder, xs[..i], resourceType, path, hash)|
      {
        var x := xs[i];
        assert xs[..i + 1][..i] == xs[..i];
        if Truthy(x) {
          out := out + [ChildEntry(folder, x, index, resourceType, path, hash)];
          index := index + 1;
        }
        i := i + 1;
      }
      assert xs[..|xs|] == xs;
    }
  }

  lemma ListEntriesSnoc(xs: seq<Value>, resourceType: string, path: (Value, nat) -> string, hash: Value -> string, i: nat)
    requires i < |xs|
    ensures ListEntries(xs[..i + 1], resourceType, path, hash)
         == ListEntries(xs[..i], resourceType, path, hash) + [Entry(path(xs[i], i), resourceType, SpreadSource(xs[i]), hash)]
  {
    assert xs[..i + 1][..i] == xs[..i];
  }

  /** One of the per-kind loops over a resource list. */
  method WriteList(buffer: seq<WriteFile>, xs: seq<Value>, resourceType: string,
                   path: (Value, nat) -> string, hash: Value -> string)
    returns (out: seq<WriteFile>)
    ensures out == buffer + ListEntries(xs, resourceType, path, hash)
  {
    out := buffer;
    var index := 0;
    while index < |xs|
      invariant 0 <= index <= |xs|
      invariant out == buffer + ListEntries(xs[..index], resourceType, path, hash)
    {
      ListEntriesSnoc(xs, resourceType, path, hash, index);
      out := out + [Entry(path(xs[index], index), resourceType, SpreadSource(xs[index]), hash)];
      index := index + 1;
    }
    assert xs[..|xs|] == xs;
  }

  /** One pass of the scene loop: the scene's actors, then its triggers, then the scene. */
  method WriteScene(buffer: seq<WriteFile>, scene: Value, sceneIndex: nat, rules: PathRules, hash: Value -> string)
    returns (out: seq<WriteFile>)
    requires SceneShaped(scene)
    ensures out == buffer + OneScene(scene, sceneIndex, rules, hash)
  {
    var sceneFolder := rules.sceneFolder(scene, sceneIndex);
    var sceneFilename := rules.sceneResource(scene, sceneIndex);
    var actors := WriteChildren([], sceneFolder, Prop(scene, "actors").elems, "actor", rules.actorResource, hash);
    assert actors == ChildEntries(sceneFolder, Prop(scene, "actors").elems, "actor", rules.actorResource, hash);
    var children := WriteChildren(actors, sceneFolder, Prop(scene, "triggers").elems, "trigger", rules.triggerResource, hash);
    out := buffer + (children + [Entry(sceneFilename, "scene", SceneFields(scene), hash)]);
  }

  /** The scene list is built one scene at a time, from the front. */
  lemma SceneEntriesSnoc(scenes: seq<Value>, i: nat, rules: PathRules, hash: Value -> string)
    requires i < |scenes| && forall s | s in scenes :: SceneShaped(s)
    ensures forall s | s in scenes[..i] :: SceneShaped(s)
    ensures SceneShaped(scenes[i])
    ensures SceneEntries(scenes[..i + 1], rules, hash) ==
              SceneEntries(scenes[..i], rules, hash) + OneScene(scenes[i], i, rules, hash)
  {
    assert scenes[..i + 1][..i] == scenes[..i];
    assert scenes[i] in scenes;
    assert forall s | s in scenes[..i + 1] :: s in scenes;
  }

  /** The loop over the scenes. */
  method WriteScenes(scenes: seq<Value>, rules: PathRules, hash: Value -> string)
    returns (writeBuffer: seq<WriteFile>)
    requires forall s | s in scenes :: SceneShaped(s)
    ensures writeBuffer == SceneEntries(scenes, rules, hash)
  {
    writeBuffer := [];
    var sceneIndex := 0;
    while sceneIndex < |scenes|
      invariant 0 <= sceneIndex <= |scenes|
      invariant forall s | s in scenes[..sceneIndex] :: SceneShaped(s)
      invariant writeBuffer == SceneEntries(scenes[..sceneIndex], rules, hash)
    {
      SceneEntriesSnoc(scenes, sceneIndex, rules, hash);
      writeBuffer := WriteScene(writeBuffer, scenes[sceneIndex], sceneIndex, rules, hash);
      sceneIndex := sceneIndex + 1;
    }
    assert scenes[..|scenes|] == scenes;
  }

  /** The loops over the asset lists, palettes and scripts. */
  method WriteAssets(buffer: seq<WriteFile>, res: ProjectResources, rules: PathRules, hash: Value -> string)
    returns (out: seq<WriteFile>)
    ensures out == buffer + AssetEntries(res, rules, hash)
  {
    var asset := AssetPath(rules);
    var lists := WriteList([], res.backgrounds, "background", asset, hash);
    assert lists == ListEntries(res.backgrounds, "background", asset, hash);
    lists := WriteList(lists, res.sprites, "sprite", asset, hash);
    lists := WriteList(lists, res.palettes, "palette", rules.paletteResource, hash);
    lists := WriteList(lists, res.scripts, "script", rules.scriptResource, hash);
    lists := WriteList(lists, res.music, "music", asset, hash);
    lists := WriteList(lists, res.sounds, "sound", asset, hash);
    lists := WriteList(lists, res.emotes, "emote", asset, hash);
    lists := WriteList(lists, res.avatars, "avatar", asset, hash);
    lists := WriteList(lists, res.tilesets, "tileset", asset, hash);
    lists := WriteList(lists, res.fonts, "font", asset, hash);
    out := buffer + lists;
  }

  /** `buildResourceExportBuffer` */
  method BuildResourceExportBuffer(res: ProjectResources, rules: PathRules, hash: Value -> string)
    returns (writeBuffer: seq<WriteFile>)
    requires forall s | s in res.scenes :: SceneShaped(s)
    ensures writeBuffer == ExportBuffer(res, rules, hash)
  {
    writeBuffer := WriteScenes(res.scenes, rules, hash);
    writeBuffer := WriteAssets(writeBuffer, res, rules, hash);
    writeBuffer := writeBuffer + SingletonEntries(res, hash);
  }

  // ---------------------------------------------------------------------
  // Properties of the buffer
  // ---------------------------------------------------------------------

  lemma {:induction false} PresentSnoc(xs: seq<Value>, x: Value)
    ensures Present(xs + [x]) == Present(xs) + (if Truthy(x) then [x] else [])
    decreases |xs|
  {
    if xs != [] {
      assert (xs + [x])[1..] == xs[1..] + [x];
      PresentSnoc(xs[1..], x);
    }
  }

  lemma {:induction false} ChildEntriesCount(folder: string, xs: seq<Value>, resourceType: string,
                                             path: (string, Value, nat) -> string, hash: Value -> string)
    ensures |ChildEntries(folder, xs, resourceType, path, hash)| == |Present(xs)|
    decreases |xs|
  {
    if xs != [] {
      var n := |xs| - 1;
      ChildEntriesCount(folder, xs[..n], resourceType, path, hash);
      PresentSnoc(xs[..n], xs[n]);
      assert xs[..n] + [xs[n]] == xs;
      assert |Present(xs)| == |Present(xs[..n])| + if Truthy(xs[n]) then 1 else 0;
    }
  }

  /** The `i`-th truthy child is written as the `i`-th entry, numbered `i`. */
  lemma {:induction false} ChildEntryAt(folder: string, xs: seq<Value>, resourceType: string,
                                        path: (string, Value, nat) -> string, hash: Value -> string, i: nat)
    requires i < |Present(xs)|
    ensures |ChildEntries(folder, xs, resourceType, path, hash)| == |Present(xs)|
    ensures ChildEntries(folder, xs, resourceType, path, hash)[i] ==
              ChildEntry(folder, Present(xs)[i], i, resourceType, path, hash)
    decreases |xs|
  {
    var n := |xs| - 1;
    ChildEntriesCount(folder, xs, resourceType, path, hash);
    ChildEntriesCount(folder, xs[..n], resourceType, path, hash);
    PresentSnoc(xs[..n], xs[n]);
    assert xs[..n] + [xs[n]] == xs;
    var ps := Present(xs[..n]);
    var before := ChildEntries(folder, xs[..n], resourceType, path, hash);
    if i < |ps| {
      ChildEntryAt(folder, xs[..n], resourceType, path, hash, i);
      assert ChildEntries(folder, xs, resourceType, path, hash)[i] == before[i];
      assert Present(xs)[i] == ps[i];
    } else {
      assert Truthy(xs[n]) && i == |before|;
      assert ChildEntries(folder, xs, resourceType, path, hash) == before + [ChildEntry(folder, xs[n], i, resourceType, path, hash)];
      assert Present(xs)[i] == xs[n];
    }
  }

  /**
   * Only truthy children are written, and the `i`-th of them is numbered
   * `i`: its `_index` counts the children written before it.
   */
  lemma ChildEntriesIndexed(folder: string, xs: seq<Value>, resourceType: string,
                            path: (string, Value, nat) -> string, hash: Value -> string)
    ensures |ChildEntries(folder, xs, resourceType, path, hash)| == |Present(xs)|
    ensures forall i | 0 <= i < |Present(xs)| ::
              ChildEntries(folder, xs, resourceType, path, hash)[i] ==
                ChildEntry(folder, Present(xs)[i], i, resourceType, path, hash)
  {
    ChildEntriesCount(folder, xs, resourceType, path, hash);
    forall i | 0 <= i < |Present(xs)|
      ensures ChildEntries(folder, xs, resourceType, path, hash)[i] ==
                ChildEntry(folder, Present(xs)[i], i, resourceType, path, hash)
    {
      ChildEntryAt(folder, xs, resourceType, path, hash, i);
    }
  }

  /** A written actor or trigger carries its `_index` in the file. */
  lemma IndexWritten(resourceType: string, child: Props, i: nat)
    ensures Get(EncodeResource(resourceType, Set(child, "_index", Num(i))).props, "_index") == Num(i)
  {
    EncodeResourceGet(resourceType, Set(child, "_index", Num(i)), "_index");
    GetSet(child, "_index", Num(i), "_index");
  }

  /** The number of entries one scene produces: itself and its written children. */
  function SceneSize(scene: Value): nat
    requires SceneShaped(scene)
  {
    1 + |Present(Prop(scene, "actors").elems)| + |Present(Prop(scene, "triggers").elems)|
  }

  /** The number of entries a list of scenes produces. */
  function SceneWrites(scenes: seq<Value>): nat
    requires forall s | s in scenes :: SceneShaped(s)
    decreases |scenes|
  {
    if scenes == [] then 0
    else
      var n := |scenes| - 1;
      assert scenes[n] in scenes;
      SceneWrites(scenes[..n]) + SceneSize(scenes[n])
  }

  lemma OneSceneLength(scene: Value, i: nat, rules: PathRules, hash: Value -> string)
    requires SceneShaped(scene)
    ensures |OneScene(scene, i, rules, hash)| == SceneSize(scene)
  {
    var folder := rules.sceneFolder(scene, i);
    ChildEntriesCount(folder, Prop(scene, "actors").elems, "actor", rules.actorResource, hash);
    ChildEntriesCount(folder, Prop(scene, "triggers").elems, "trigger", rules.triggerResource, hash);
  }

  lemma {:induction false} SceneEntriesLength(scenes: seq<Value>, rules: PathRules, hash: Value -> string)
    requires forall s | s in scenes :: SceneShaped(s)
    ensures |SceneEntries(scenes, rules, hash)| == SceneWrites(scenes)
    decreases |scenes|
  {
    if scenes != [] {
      var n := |scenes| - 1;
      assert scenes[n] in scenes;
      SceneEntriesLength(scenes[..n], rules, hash);
      OneSceneLength(scenes[n], n, rules, hash);
    }
  }

  /** Element `i` of a list is written as entry `i`, under the path chosen for it and its index. */
  lemma {:induction false} ListEntryAt(xs: seq<Value>, resourceType: string, path: (Value, nat) -> string,
                                       hash: Value -> string, i: nat)
    requires i < |xs|
    ensures |ListEntries(xs, resourceType, path, hash)| == |xs|
    ensures ListEntries(xs, resourceType, path, hash)[i] == Entry(path(xs[i], i), resourceType, SpreadSource(xs[i]), hash)
    decreases |xs|
  {
    var n := |xs| - 1;
    if i < n {
      ListEntryAt(xs[..n], resourceType, path, hash, i);
      assert xs[..n][i] == xs[i];
    }
  }

  lemma ListEntriesLength(xs: seq<Value>, resourceType: string, path: (Value, nat) -> string,
                          hash: Value -> string)
    ensures |ListEntries(xs, resourceType, path, hash)| == |xs|
    ensures forall i | 0 <= i < |xs| ::
              ListEntries(xs, resourceType, path, hash)[i] == Entry(path(xs[i], i), resourceType, SpreadSource(xs[i]), hash)
  {
    forall i | 0 <= i < |xs|
      ensures ListEntries(xs, resourceType, path, hash)[i] == Entry(path(xs[i], i), resourceType, SpreadSource(xs[i]), hash)
    {
      ListEntryAt(xs, resourceType, path, hash, i);
    }
  }

  lemma AssetEntriesLength(res: ProjectResources, rules: PathRules, hash: Value -> string)
    ensures |AssetEntries(res, rules, hash)| ==
              |res.backgrounds| + |res.sprites| + |res.palettes| + |res.scripts|
              + |res.music| + |res.sounds| + |res.emotes| + |res.avatars| + |res.tilesets| + |res.fonts|
  {
    var asset := AssetPath(rules);
    ListEntriesLength(res.backgrounds, "background", asset, hash);
    ListEntriesLength(res.sprites, "sprite", asset, hash);
    ListEntriesLength(res.palettes, "palette", rules.paletteResource, hash);
    ListEntriesLength(res.scripts, "script", rules.scriptResource, hash);
    ListEntriesLength(res.music, "music", asset, hash);
    ListEntriesLength(res.sounds, "sound", asset, hash);
    ListEntriesLength(res.emotes, "emote", asset, hash);
    ListEntriesLength(res.avatars, "avatar", asset, hash);
    ListEntriesLength(res.tilesets, "tileset", asset, hash);
    ListEntriesLength(res.fonts, "font", asset, hash);
  }

  /**
   * One entry per scene, per written actor and trigger and per list
   * element, plus the four single files; the metadata is not among them.
   */
  lemma ExportBufferLength(res: ProjectResources, rules: PathRules, hash: Value -> string)
    requires forall s | s in res.scenes :: SceneShaped(s)
    ensures |ExportBuffer(res, rules, hash)| ==
              SceneWrites(res.scenes) + |res.backgrounds| + |res.sprites| + |res.palettes| + |res.scripts|
              + |res.music| + |res.sounds| + |res.emotes| + |res.avatars| + |res.tilesets| + |res.fonts| + 4
  {
    SceneEntriesLength(res.scenes, rules, hash);
    AssetEntriesLength(res, rules, hash);
  }

  /** The buffer does not depend on the metadata: it is never written here. */
  lemma ExportBufferIgnoresMetadata(res: ProjectResources, rules: PathRules, hash: Value -> string, m: Value)
    requires forall s | s in res.scenes :: SceneShaped(s)
    ensures ExportBuffer(res.(metadata := m), rules, hash) == ExportBuffer(res, rules, hash)
  {
  }

  /** An entry lies under `project/` and carries the hash of exactly its own text. */
  predicate Stored(e: WriteFile, hash: Value -> string) {
    e.checksum == hash(e.data) && StartsWith(e.path, "project/")
  }

  lemma {:induction false} ChildEntriesStored(folder: string, xs: seq<Value>, resourceType: string,
                                              path: (string, Value, nat) -> string, hash: Value -> string)
    ensures forall e | e in ChildEntries(folder, xs, resourceType, path, hash) :: Stored(e, hash)
    decreases |xs|
  {
    if xs != [] {
      var before := ChildEntries(folder, xs[..|xs| - 1], resourceType, path, hash);
      var x := xs[|xs| - 1];
      ChildEntriesStored(folder, xs[..|xs| - 1], resourceType, path, hash);
      EntryStored(path(folder, x, |before|), resourceType, Set(SpreadSource(x), "_index", Num(|before|)), hash);
    }
  }

  lemma {:induction false} SceneEntriesStored(scenes: seq<Value>, rules: PathRules, hash: Value -> string)
    requires forall s | s in scenes :: SceneShaped(s)
    ensures forall e | e in SceneEntries(scenes, rules, hash) :: Stored(e, hash)
    decreases |scenes|
  {
    if scenes != [] {
      var n := |scenes| - 1;
      var s := scenes[n];
      assert s in scenes;
      SceneEntriesStored(scenes[..n], rules, hash);
      var folder := rules.sceneFolder(s, n);
      ChildEntriesStored(folder, Prop(s, "actors").elems, "actor", rules.actorResource, hash);
      ChildEntriesStored(folder, Prop(s, "triggers").elems, "trigger", rules.triggerResource, hash);
      EntryStored(rules.sceneResource(s, n), "scene", SceneFields(s), hash);
    }
  }

  lemma {:induction false} ListEntriesStored(xs: seq<Value>, resourceType: string, path: (Value, nat) -> string,
                                             hash: Value -> string)
    ensures forall e | e in ListEntries(xs, resourceType, path, hash) :: Stored(e, hash)
    decreases |xs|
  {
    if xs != [] {
      var n := |xs| - 1;
      ListEntriesStored(xs[..n], resourceType, path, hash);
      EntryStored(path(xs[n], n), resourceType, SpreadSource(xs[n]), hash);
    }
  }

  lemma AssetEntriesStored(res: ProjectResources, rules: PathRules, hash: Value -> string)
    ensures forall e | e in AssetEntries(res, rules, hash) :: Stored(e, hash)
  {
    var asset := AssetPath(rules);
    ListEntriesStored(res.backgrounds, "background", asset, hash);
    ListEntriesStored(res.sprites, "sprite", asset, hash);
    ListEntriesStored(res.palettes, "palette", rules.paletteResource, hash);
    ListEntriesStored(res.scripts, "script", rules.scriptResource, hash);
    ListEntriesStored(res.music, "music", asset, hash);
    ListEntriesStored(res.sounds, "sound", asset, hash);
    ListEntriesStored(res.emotes, "emote", asset, hash);
    ListEntriesStored(res.avatars, "avatar", asset, hash);
    ListEntriesStored(res.tilesets, "tileset", asset, hash);
    ListEntriesStored(res.fonts, "font", asset, hash);
  }

  lemma EntryStored(filename: string, resourceType: string, resource: Props, hash: Value -> string)
    ensures Stored(Entry(filename, resourceType, resource, hash), hash)
  {
    assert Join("project", filename)[..8] == "project/";
  }

  lemma SingletonEntriesStored(res: ProjectResources, hash: Value -> string)
    ensures forall e | e in SingletonEntries(res, hash) :: Stored(e, hash)
  {
    var main := SettingsFields(res.settings);
    var user := UserSettingsFields(res.settings);
    var vars := SpreadSource(res.variables);
    var fields := SpreadSource(res.engineFieldValues);
    EntryStored("settings.gbsres", "settings", main, hash);
    EntryStored("user_settings.gbsres", "settings", user, hash);
    EntryStored("variables.gbsres", "variables", vars, hash);
    EntryStored("engine_field_values.gbsres", "engineFieldValues", fields, hash);
  }

  /** Every entry of the buffer lies under `project/` and carries the hash of exactly its own text. */
  lemma ExportBufferChecksums(res: ProjectResources, rules: PathRules, hash: Value -> string)
    requires forall s | s in res.scenes :: SceneShaped(s)
    ensures forall e | e in ExportBuffer(res, rules, hash) :: e.checksum == hash(e.data) && StartsWith(e.path, "project/")
  {
    var scenes := SceneEntries(res.scenes, rules, hash);
    var assets := AssetEntries(res, rules, hash);
    var singles := SingletonEntries(res, hash);
    SceneEntriesStored(res.scenes, rules, hash);
    AssetEntriesStored(res, rules, hash);
    SingletonEntriesStored(res, hash);
    assert ExportBuffer(res, rules, hash) == scenes + assets + singles;
    forall e | e in scenes + assets + singles ensures Stored(e, hash) {
      if e in scenes {
      } else if e in assets {
      } else {
        assert e in singles;
      }
    }
  }

  lemma SceneFieldsGet(scene: Value, k: string)
    ensures Get(SceneFields(scene), k) ==
              if k == "actors" || k == "triggers" || k == "tileColors" then Undefined else Get(SpreadSource(scene), k)
  {
    var ps := SpreadSource(scene);
    var a := Set(ps, "actors", Undefined);
    var b := Set(a, "triggers", Undefined);
    GetSet(b, "tileColors", Undefined, k);
    GetSet(a, "triggers", Undefined, k);
    GetSet(ps, "actors", Undefined, k);
  }

  /** The scene's own file comes after its children and holds neither them nor its tile colours. */
  lemma SceneEntryLast(scene: Value, i: nat, rules: PathRules, hash: Value -> string)
    requires SceneShaped(scene)
    ensures var es := OneScene(scene, i, rules, hash);
            var last := es[|es| - 1];
            last.path == Join("project", rules.sceneResource(scene, i))
            && !HasKey(last.data.props, "actors") && !HasKey(last.data.props, "triggers")
            && !HasKey(last.data.props, "tileColors")
  {
    SceneFieldsGet(scene, "actors");
    SceneFieldsGet(scene, "triggers");
    SceneFieldsGet(scene, "tileColors");
    EncodeResourceGet("scene", SceneFields(scene), "actors");
    EncodeResourceGet("scene", SceneFields(scene), "triggers");
    EncodeResourceGet("scene", SceneFields(scene), "tileColors");
  }

  lemma SettingsFieldsGet(settings: Value, k: string)
    ensures Get(SettingsFields(settings), k) == if UserSetting(k) then Undefined else Get(SpreadSource(settings), k)
    ensures Get(UserSettingsFields(settings), k) == if UserSetting(k) then Prop(settings, k) else Undefined
  {
    var ps := SpreadSource(settings);
    var a := Set(ps, "worldScrollX", Undefined);
    var b := Set(a, "worldScrollY", Undefined);
    GetSet(b, "zoom", Undefined, k);
    GetSet(a, "worldScrollY", Undefined, k);
    GetSet(ps, "worldScrollX", Undefined, k);
    var u := UserSettingsFields(settings);
    assert u[..2][..1][..0] == [];
    assert Get(u[..2][..1], k) == if k == "worldScrollX" then Prop(settings, k) else Get(u[..2][..1][..0], k);
    assert Get(u[..2], k) == if k == "worldScrollY" then Prop(settings, k) else Get(u[..2][..1], k);
  }

  /** `user_settings.gbsres` holds the three user settings that are defined, and `settings.gbsres` none of them. */
  lemma UserSettingsSplit(settings: Value, k: string)
    requires settings.Obj? && UserSetting(k)
    ensures !HasKey(EncodeResource("settings", SettingsFields(settings)).props, k)
    ensures HasKey(EncodeResource("settings", UserSettingsFields(settings)).props, k) <==> Get(settings.props, k) != Undefined
    ensures Get(EncodeResource("settings", UserSettingsFields(settings)).props, k) == ToJson(Get(settings.props, k))
  {
    SettingsFieldsGet(settings, k);
    EncodeResourceGet("settings", SettingsFields(settings), k);
    EncodeResourceGet("settings", UserSettingsFields(settings), k);
  }

  /**
   * `settings.gbsres` holds every other defined setting with its value, and
   * `user_settings.gbsres` none of them (besides its own `_resourceType`).
   */
  lemma MainSettingsSplit(settings: Value, k: string)
    requires settings.Obj? && !UserSetting(k)
    requires !Internal(k) && k != "_resourceType"
    ensures !HasKey(EncodeResource("settings", UserSettingsFields(settings)).props, k)
    ensures HasKey(EncodeResource("settings", SettingsFields(settings)).props, k) <==> Get(settings.props, k) != Undefined
    ensures Get(EncodeResource("settings", SettingsFields(settings)).props, k) == ToJson(Get(settings.props, k))
  {
    SettingsFieldsGet(settings, k);
    EncodeResourceGet("settings", SettingsFields(settings), k);
    EncodeResourceGet("settings", UserSettingsFields(settings), k);
  }
}
