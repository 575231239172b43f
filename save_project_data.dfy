/**
 * `saveProjectData`: the project written back as one file per resource under
 * the `project` folder beside the project file.  Every resource becomes a
 * buffered write whose file name is a slug of the resource's name followed
 * by `__` and its id; the buffer is flushed, the project file itself is
 * written last through the backup writer, and the files found on disk that
 * were not written again are only reported, never deleted.
 */
module SaveProjectData {
  import opened JsValue
  import opened Text
  import opened Paths
  import opened ResourceTypes
  import Save

  // ---------------------------------------------------------------------
  // File names
  // ---------------------------------------------------------------------

  /** `<stem>__<id>`: the name ends with a double underscore and the id. */
  predicate IdSuffixed(r: string, id: string) {
    |r| >= |id| + 2 && r[|r| - |id| - 2..] == "__" + id
  }

  /** The part of an id-suffixed name before `__<id>`. */
  function Stem(r: string, id: string): string
    requires IdSuffixed(r, id)
  {
    r[..|r| - |id| - 2]
  }

  lemma StemSuffix(stem: string, id: string)
    ensures IdSuffixed(stem + "__" + id, id)
    ensures Stem(stem + "__" + id, id) == stem
  {
    var r := stem + "__" + id;
    assert r[|stem|..] == "__" + id;
    assert r[..|stem|] == stem;
  }

  /**
   * `entityToFilePath(entity, nameOverride)`: the override when it is not
   * empty, else the entity's name, passed through `strip` (the invalid path
   * character filter), lower-cased, with every run of whitespace turned into
   * one `_`; then `__` and the id as a template literal writes it.
   */
  function EntityToFilePath(entity: Value, nameOverride: string, strip: Value -> string): string {
    var name := Or(Str(nameOverride), Prop(entity, "name"));
    UnderscoreWhitespace(ToLower(strip(name))) + "__" + ToText(Prop(entity, "id"))
  }

  /** The file name is a slug without whitespace, then `__` and the id. */
  lemma EntityToFilePathShape(entity: Value, nameOverride: string, strip: Value -> string)
    ensures IdSuffixed(EntityToFilePath(entity, nameOverride, strip), ToText(Prop(entity, "id")))
    ensures NoWhitespace(Stem(EntityToFilePath(entity, nameOverride, strip), ToText(Prop(entity, "id"))))
  {
    var slug := ToLower(strip(Or(Str(nameOverride), Prop(entity, "name"))));
    UnderscoreWhitespaceClean(slug);
    StemSuffix(UnderscoreWhitespace(slug), ToText(Prop(entity, "id")));
  }

  /**
   * `actorToFileName` and `triggerToFileName`, which differ only in the
   * helper that names the child: as above, but `/` and `\` also become `_`.
   */
  function ChildToFileName(child: Value, index: nat, childName: (Value, nat) -> string,
                           strip: Value -> string): string
  {
    var slug := SeparatorsToUnderscores(ToLower(strip(Str(childName(child, index)))));
    UnderscoreWhitespace(slug) + "__" + ToText(Prop(child, "id"))
  }

  /** The name part of an actor or trigger file holds neither whitespace nor a path separator. */
  lemma ChildToFileNameShape(child: Value, index: nat, childName: (Value, nat) -> string,
                             strip: Value -> string)
    ensures IdSuffixed(ChildToFileName(child, index, childName, strip), ToText(Prop(child, "id")))
    ensures NoWhitespace(Stem(ChildToFileName(child, index, childName, strip), ToText(Prop(child, "id"))))
    ensures NoSeparator(Stem(ChildToFileName(child, index, childName, strip), ToText(Prop(child, "id"))))
  {
    var slug := SeparatorsToUnderscores(ToLower(strip(Str(childName(child, index)))));
    UnderscoreWhitespaceClean(slug);
    UnderscoreWhitespaceKeepsNoSeparator(slug);
    StemSuffix(UnderscoreWhitespace(slug), ToText(Prop(child, "id")));
  }

  predicate NoUnderscore(id: string) {
    forall i | 0 <= i < |id| :: id[i] != '_'
  }

  /** The text after the last `_` of a name. */
  function IdOf(r: string): string {
    r[LastIndexOf(r, "_") + 1..]
  }

  /** An id without underscores is read back from any name it suffixes. */
  lemma IdOfSuffixed(r: string, id: string)
    requires IdSuffixed(r, id) && NoUnderscore(id)
    ensures IdOf(r) == id
  {
    var p := |r| - |id| - 1;
    var tail := r[|r| - |id| - 2..];
    assert r[p] == tail[1] == '_';
    assert r[p..p + 1] == "_";
    assert OccursAt(r, "_", p);
    var k := LastIndexOf(r, "_");
    assert r[k..k + 1] == "_";
    assert r[k] == '_';
    assert forall j | p < j < |r| :: r[j] == tail[j - p + 1] == id[j - p - 1];
    assert k == p;
    assert r[p + 1..] == tail[2..] == id;
  }

  /**
   * Resources whose ids differ get different file names, so no write of a
   * save replaces another, whatever the names (for ids without `_`, such as
   * the UUIDs the editor generates).
   */
  lemma DistinctIdsDistinctNames(a: string, b: string, idA: string, idB: string)
    requires IdSuffixed(a, idA) && NoUnderscore(idA)
    requires IdSuffixed(b, idB) && NoUnderscore(idB)
    requires idA != idB
    ensures a != b
  {
    IdOfSuffixed(a, idA);
    IdOfSuffixed(b, idB);
  }

  // ---------------------------------------------------------------------
  // The resources written, in order
  // ---------------------------------------------------------------------

  /** One `writeResource(filename, resourceType, resource)` call; `filename` is relative to the `project` folder. */
  datatype Request = Request(filename: string, resourceType: string, resource: Props)

  /**
   * The naming helpers, which are not part of this model: the display names
   * of scenes, actors, triggers, palettes and scripts at an index, and the
   * invalid path character filter.
   */
  datatype NameRules = NameRules(
    sceneName: (Value, nat) -> string,
    actorName: (Value, nat) -> string,
    triggerName: (Value, nat) -> string,
    paletteName: (Value, nat) -> string,
    customEventName: (Value, nat) -> string,
    strip: Value -> string)

  /** The file name of a list element at an index: `entityToFilePath` with the list's name override. */
  function ListFile(nameOverride: (Value, nat) -> string, strip: Value -> string): (Value, nat) -> string {
    (x: Value, i: nat) => EntityToFilePath(x, nameOverride(x, i), strip)
  }

  /** Lists whose files are named after the entity's own name. */
  function NoOverride(): (Value, nat) -> string {
    (x: Value, i: nat) => ""
  }

  /** The file name of an actor or trigger at its written index. */
  function ChildFile(childName: (Value, nat) -> string, strip: Value -> string): (Value, nat) -> string {
    (x: Value, i: nat) => ChildToFileName(x, i, childName, strip)
  }

  /** The write of the `i`-th written child, whose `_index` is `i`. */
  function ChildRequest(folder: string, child: Value, i: nat, resourceType: string,
                        file: (Value, nat) -> string): Request
  {
    Request(Join(folder, file(child, i) + ".gbsres"), resourceType, Set(SpreadSource(child), "_index", Num(i)))
  }

  /** The writes of a scene's actors (or triggers): only truthy children, each numbered by the writes before it. */
  function ChildRequests(folder: string, xs: seq<Value>, resourceType: string,
                         file: (Value, nat) -> string): seq<Request>
    decreases |xs|
  {
    if xs == [] then []
    else
      var n := |xs| - 1;
      var before := ChildRequests(folder, xs[..n], resourceType, file);
      if Truthy(xs[n]) then before + [ChildRequest(folder, xs[n], |before|, resourceType, file)]
      else before
  }

  /** `scenes/<entityToFilePath(scene, sceneName(scene, i))>` */
  function SceneFolder(scene: Value, i: nat, names: NameRules): string {
    Join("scenes", EntityToFilePath(scene, names.sceneName(scene, i), names.strip))
  }

  /** The writes of the scene at index `i`: its actors, its triggers, then `scene.gbsres`. */
  function OneScene(scene: Value, i: nat, names: NameRules): seq<Request>
    requires SceneShaped(scene)
  {
    var folder := SceneFolder(scene, i, names);
    ChildRequests(Join(folder, "actors"), Prop(scene, "actors").elems, "actor", ChildFile(names.actorName, names.strip))
    + ChildRequests(Join(folder, "triggers"), Prop(scene, "triggers").elems, "trigger", ChildFile(names.triggerName, names.strip))
    + [Request(Join(folder, "scene.gbsres"), "scene", Save.SceneFields(scene))]
  }

  function SceneRequests(scenes: seq<Value>, names: NameRules): seq<Request>
    requires forall s | s in scenes :: SceneShaped(s)
    decreases |scenes|
  {
    if scenes == [] then []
    else
      var n := |scenes| - 1;
      assert scenes[n] in scenes;
      SceneRequests(scenes[..n], names) + OneScene(scenes[n], n, names)
  }

  /** One write per element of a list, into `folder`. */
  function ListRequests(xs: seq<Value>, folder: string, resourceType: string,
                        file: (Value, nat) -> string): seq<Request>
    decreases |xs|
  {
    if xs == [] then []
    else
      var n := |xs| - 1;
      ListRequests(xs[..n], folder, resourceType, file)
      + [Request(Join(folder, file(xs[n], n) + ".gbsres"), resourceType, SpreadSource(xs[n]))]
  }

  /** The writes of the graphics lists, the palettes and the scripts, in the order of the loops. */
  function GraphicsRequests(res: ProjectResources, names: NameRules): seq<Request> {
    var plain := ListFile(NoOverride(), names.strip);
    ListRequests(res.backgrounds, "backgrounds", "background", plain)
    + ListRequests(res.sprites, "sprites", "sprite", plain)
    + ListRequests(res.palettes, "palettes", "palette", ListFile(names.paletteName, names.strip))
    + ListRequests(res.scripts, "scripts", "script", ListFile(names.customEventName, names.strip))
  }

  /** The writes of the remaining lists, in the order of the loops. */
  function MediaRequests(res: ProjectResources, names: NameRules): seq<Request> {
    var plain := ListFile(NoOverride(), names.strip);
    ListRequests(res.music, "music", "music", plain)
    + ListRequests(res.sounds, "sounds", "sound", plain)
    + ListRequests(res.emotes, "emotes", "emote", plain)
    + ListRequests(res.avatars, "avatars", "avatar", plain)
    + ListRequests(res.tilesets, "tilesets", "tileset", plain)
    + ListRequests(res.fonts, "fonts", "font", plain)
  }

  /** The writes of the lists. */
  function AssetRequests(res: ProjectResources, names: NameRules): seq<Request> {
    GraphicsRequests(res, names) + MediaRequests(res, names)
  }

  /** The two settings files, the variables and the engine field values. */
  function SingletonRequests(res: ProjectResources): seq<Request> {
    [Request("settings.gbsres", "settings", Save.SettingsFields(res.settings)),
     Request("user_settings.gbsres", "settings", Save.UserSettingsFields(res.settings)),
     Request("variables.gbsres", "variables", SpreadSource(res.variables)),
     Request("engine_field_values.gbsres", "engineFieldValues", SpreadSource(res.engineFieldValues))]
  }

  /** Every `writeResource` call of a save, in order. */
  function SaveRequests(res: ProjectResources, names: NameRules): seq<Request>
    requires forall s | s in res.scenes :: SceneShaped(s)
  {
    SceneRequests(res.scenes, names) + AssetRequests(res, names) + SingletonRequests(res)
  }

  // ---------------------------------------------------------------------
  // Effects
  // ---------------------------------------------------------------------

  /** An element of `writeBuffer`: a file and its text (kept as the value it denotes); no checksum. */
  datatype BufferedWrite = BufferedWrite(path: string, data: Value)

  /** The file-system calls a save makes, in order. */
  datatype FsOp =
    | EnsureDir(dir: string)
    | WriteFile(path: string, data: Value)
    | WriteWithBackup(path: string, data: Value)
    | Remove(path: string)

  /** The buffer entry of one write: the file under the parts folder, and the encoded resource. */
  function Buffered(partsFolder: string, r: Request): BufferedWrite {
    BufferedWrite(Join(partsFolder, r.filename), Save.EncodeResource(r.resourceType, r.resource))
  }

  function BufferOf(partsFolder: string, rs: seq<Request>): seq<BufferedWrite>
    decreases |rs|
  {
    if rs == [] then [] else BufferOf(partsFolder, rs[..|rs| - 1]) + [Buffered(partsFolder, rs[|rs| - 1])]
  }

  /** The file names added to `newResourcePaths`. */
  function Filenames(rs: seq<Request>): set<string>
    decreases |rs|
  {
    if rs == [] then {} else Filenames(rs[..|rs| - 1]) + {rs[|rs| - 1].filename}
  }

  /** The directories ensured: one per write, before it is buffered. */
  function DirOps(buffer: seq<BufferedWrite>): (ops: seq<FsOp>)
    ensures |ops| == |buffer|
    decreases |buffer|
  {
    if buffer == [] then []
    else DirOps(buffer[..|buffer| - 1]) + [EnsureDir(Dirname(buffer[|buffer| - 1].path))]
  }

  /** The flush: one file write per buffered entry. */
  function WriteOps(buffer: seq<BufferedWrite>): (ops: seq<FsOp>)
    ensures |ops| == |buffer|
    decreases |buffer|
  {
    if buffer == [] then []
    else WriteOps(buffer[..|buffer| - 1]) + [WriteFile(buffer[|buffer| - 1].path, buffer[|buffer| - 1].data)]
  }

  /** `path.join(path.dirname(projectPath), "project")` */
  function PartsFolder(projectPath: string): string {
    JoinDir(Dirname(projectPath), "project")
  }

  /** The project file itself, written through the backup writer. */
  function ProjectWrite(projectPath: string, metadata: Value): FsOp {
    WriteWithBackup(projectPath, Save.EncodeResource("project", SpreadSource(metadata)))
  }

  /** `Array.from(new Set(xs))`: each path once, at its first occurrence. */
  function Distinct(xs: seq<string>): (r: seq<string>)
    ensures forall x :: x in r <==> x in xs
    ensures forall i, j | 0 <= i < j < |r| :: r[i] != r[j]
    decreases |xs|
  {
    if xs == [] then []
    else
      var n := |xs| - 1;
      var init := Distinct(xs[..n]);
      assert xs == xs[..n] + [xs[n]];
      if xs[n] in xs[..n] then init else init + [xs[n]]
  }

  /** `existingResourcePaths`: the scanned files, relative to the parts folder. */
  function ExistingPaths(partsFolder: string, scanned: seq<string>): seq<string> {
    Distinct(seq(|scanned|, i requires 0 <= i < |scanned| => Relative(partsFolder, scanned[i])))
  }

  /** `resourceDiff`: the existing paths this save did not write, in their order. */
  function Orphans(existing: seq<string>, written: set<string>): (r: seq<string>)
    ensures forall p :: p in r <==> p in existing && p !in written
    ensures (forall i, j | 0 <= i < j < |existing| :: existing[i] != existing[j]) ==>
              forall i, j | 0 <= i < j < |r| :: r[i] != r[j]
    decreases |existing|
  {
    if existing == [] then []
    else
      var n := |existing| - 1;
      var init := Orphans(existing[..n], written);
      assert existing == existing[..n] + [existing[n]];
      if existing[n] in written then init else init + [existing[n]]
  }

  // ---------------------------------------------------------------------
  // The save
  // ---------------------------------------------------------------------

  /** The loop over one scene's actors (or triggers), counting only the children it writes. */
  method WriteChildren(calls: seq<Request>, folder: string, xs: seq<Value>, resourceType: string,
                       file: (Value, nat) -> string)
    returns (out: seq<Request>)
    ensures out == calls + ChildRequests(folder, xs, resourceType, file)
  {
    out := calls;
    if |xs| > 0 {
      var index := 0;
      var i := 0;
      while i < |xs|
        invariant 0 <= i <= |xs|
        invariant out == calls + ChildRequests(folder, xs[..i], resourceType, file)
        invariant index == |ChildRequests(folder, xs[..i], resourceType, file)|
      {
        var x := xs[i];
        assert xs[..i + 1][..i] == xs[..i];
        if Truthy(x) {
          var childFilename := Join(folder, file(x, index) + ".gbsres");
          out := out + [Request(childFilename, resourceType, Set(SpreadSource(x), "_index", Num(index)))];
          index := index + 1;
        }
        i := i + 1;
      }
      assert xs[..|xs|] == xs;
    }
  }

  /** One pass of the scene loop: the scene's actors, then its triggers, then the scene. */
  method WriteScene(calls: seq<Request>, scene: Value, sceneIndex: nat, names: NameRules)
    returns (out: seq<Request>)
    requires SceneShaped(scene)
    ensures out == calls + OneScene(scene, sceneIndex, names)
  {
    var sceneFolder := Join("scenes", EntityToFilePath(scene, names.sceneName(scene, sceneIndex), names.strip));
    var actorsFolder := Join(sceneFolder, "actors");
    var triggersFolder := Join(sceneFolder, "triggers");
    var sceneFilename := Join(sceneFolder, "scene.gbsres");
    var children := WriteChildren([], actorsFolder, Prop(scene, "actors").elems, "actor", ChildFile(names.actorName, names.strip));
    children := WriteChildren(children, triggersFolder, Prop(scene, "triggers").elems, "trigger", ChildFile(names.triggerName, names.strip));
    out := calls + (children + [Request(sceneFilename, "scene", Save.SceneFields(scene))]);
  }

  /** The loop over the scenes. */
  method WriteScenes(scenes: seq<Value>, names: NameRules) returns (calls: seq<Request>)
    requires forall s | s in scenes :: SceneShaped(s)
    ensures calls == SceneRequests(scenes, names)
  {
    calls := [];
    var sceneIndex := 0;
    while sceneIndex < |scenes|
      invariant 0 <= sceneIndex <= |scenes|
      invariant forall s | s in scenes[..sceneIndex] :: SceneShaped(s)
      invariant calls == SceneRequests(scenes[..sceneIndex], names)
    {
      SceneRequestsSnoc(scenes, sceneIndex, names);
      calls := WriteScene(calls, scenes[sceneIndex], sceneIndex, names);
      sceneIndex := sceneIndex + 1;
    }
    assert scenes[..|scenes|] == scenes;
  }

  /** One of the loops over a list. */
  method WriteList(calls: seq<Request>, xs: seq<Value>, folder: string, resourceType: string,
                   file: (Value, nat) -> string)
    returns (out: seq<Request>)
    ensures out == calls + ListRequests(xs, folder, resourceType, file)
  {
    out := calls;
    var index := 0;
    while index < |xs|
      invariant 0 <= index <= |xs|
      invariant out == calls + ListRequests(xs[..index], folder, resourceType, file)
    {
      assert xs[..index + 1][..index] == xs[..index];
      var filename := Join(folder, file(xs[index], index) + ".gbsres");
      out := out + [Request(filename, resourceType, SpreadSource(xs[index]))];
      index := index + 1;
    }
    assert xs[..|xs|] == xs;
  }

  /** The loops over the graphics lists, the palettes and the scripts. */
  method WriteGraphics(res: ProjectResources, names: NameRules) returns (out: seq<Request>)
    ensures out == GraphicsRequests(res, names)
  {
    var plain := ListFile(NoOverride(), names.strip);
    out := WriteList([], res.backgrounds, "backgrounds", "background", plain);
    out := WriteList(out, res.sprites, "sprites", "sprite", plain);
    out := WriteList(out, res.palettes, "palettes", "palette", ListFile(names.paletteName, names.strip));
    out := WriteList(out, res.scripts, "scripts", "script", ListFile(names.customEventName, names.strip));
    assert [] + ListRequests(res.backgrounds, "backgrounds", "background", plain)
      == ListRequests(res.backgrounds, "backgrounds", "background", plain);
  }

  /** The loops over the remaining lists. */
  method WriteMedia(res: ProjectResources, names: NameRules) returns (out: seq<Request>)
    ensures out == MediaRequests(res, names)
  {
    var plain := ListFile(NoOverride(), names.strip);
    out := WriteList([], res.music, "music", "music", plain);
    out := WriteList(out, res.sounds, "sounds", "sound", plain);
    out := WriteList(out, res.emotes, "emotes", "emote", plain);
    out := WriteList(out, res.avatars, "avatars", "avatar", plain);
    out := WriteList(out, res.tilesets, "tilesets", "tileset", plain);
    out := WriteList(out, res.fonts, "fonts", "font", plain);
    assert [] + ListRequests(res.music, "music", "music", plain) == ListRequests(res.music, "music", "music", plain);
  }

  /**
   * The effect of each `writeResource` call, in call order: its file name is
   * added to `newResourcePaths`, the directory of its file is ensured and one
   * entry is pushed onto `writeBuffer`.
   */
  method WriteResources(partsFolder: string, calls: seq<Request>)
    returns (writeBuffer: seq<BufferedWrite>, newResourcePaths: set<string>, ops: seq<FsOp>)
    ensures writeBuffer == BufferOf(partsFolder, calls)
    ensures newResourcePaths == Filenames(calls)
    ensures ops == DirOps(writeBuffer)
  {
    writeBuffer, newResourcePaths, ops := [], {}, [];
    var i := 0;
    while i < |calls|
      invariant 0 <= i <= |calls|
      invariant writeBuffer == BufferOf(partsFolder, calls[..i])
      invariant newResourcePaths == Filenames(calls[..i])
      invariant ops == DirOps(writeBuffer)
    {
      assert calls[..i + 1][..i] == calls[..i];
      var call := calls[i];
      newResourcePaths := newResourcePaths + {call.filename};
      var filePath := Join(partsFolder, call.filename);
      ops := ops + [EnsureDir(Dirname(filePath))];
      ghost var before := writeBuffer;
      writeBuffer := writeBuffer + [BufferedWrite(filePath, Save.EncodeResource(call.resourceType, call.resource))];
      assert writeBuffer[..|writeBuffer| - 1] == before;
      i := i + 1;
    }
    assert calls[..|calls|] == calls;
  }

  /** The flush of the write buffer: one file write per entry, in order. */
  method Flush(writeBuffer: seq<BufferedWrite>, ops: seq<FsOp>) returns (out: seq<FsOp>)
    ensures out == ops + WriteOps(writeBuffer)
  {
    out := ops;
    var i := 0;
    while i < |writeBuffer|
      invariant 0 <= i <= |writeBuffer|
      invariant out == ops + WriteOps(writeBuffer[..i])
    {
      assert writeBuffer[..i + 1][..i] == writeBuffer[..i];
      out := out + [WriteFile(writeBuffer[i].path, writeBuffer[i].data)];
      i := i + 1;
    }
    assert writeBuffer[..|writeBuffer|] == writeBuffer;
  }

  /**
   * `saveProjectData(projectPath, patch)` on the patch's resources: the
   * buffered writes, the file-system calls in order, and the orphans, the
   * files found under the parts folder (`scanned`, the glob's result) that
   * this save did not write.
   */
  method SaveProjectData(projectPath: string, res: ProjectResources, scanned: seq<string>, names: NameRules)
    returns (writeBuffer: seq<BufferedWrite>, ops: seq<FsOp>, orphans: seq<string>)
    requires forall s | s in res.scenes :: SceneShaped(s)
    ensures writeBuffer == BufferOf(PartsFolder(projectPath), SaveRequests(res, names))
    ensures ops == DirOps(writeBuffer) + WriteOps(writeBuffer) + [ProjectWrite(projectPath, res.metadata)]
    ensures orphans == Orphans(ExistingPaths(PartsFolder(projectPath), scanned), Filenames(SaveRequests(res, names)))
  {
    var projectFolder := Dirname(projectPath);
    var projectPartsFolder := JoinDir(projectFolder, "project");
    var existingResourcePaths := ExistingPaths(projectPartsFolder, scanned);
    var calls := WriteScenes(res.scenes, names);
    var graphics := WriteGraphics(res, names);
    var media := WriteMedia(res, names);
    calls := calls + (graphics + media);
    calls := calls + SingletonRequests(res);
    var newResourcePaths;
    writeBuffer, newResourcePaths, ops := WriteResources(projectPartsFolder, calls);
    ops := Flush(writeBuffer, ops);
    ops := ops + [ProjectWrite(projectPath, res.metadata)];
    orphans := Orphans(existingResourcePaths, newResourcePaths);
    // the loop over the orphans only reports each one: their removal is disabled
  }

  // ---------------------------------------------------------------------
  // Properties
  // ---------------------------------------------------------------------

  /** The scene list is built one scene at a time, from the front. */
  lemma SceneRequestsSnoc(scenes: seq<Value>, i: nat, names: NameRules)
    requires i < |scenes| && forall s | s in scenes :: SceneShaped(s)
    ensures forall s | s in scenes[..i + 1] :: SceneShaped(s)
    ensures SceneShaped(scenes[i])
    ensures SceneRequests(scenes[..i + 1], names) == SceneRequests(scenes[..i], names) + OneScene(scenes[i], i, names)
  {
    assert scenes[..i + 1][..i] == scenes[..i];
    assert scenes[i] in scenes;
    assert forall s | s in scenes[..i + 1] :: s in scenes;
  }

  /**
   * Only truthy children are written, and the `i`-th of them is numbered
   * `i`: its `_index` counts the children written before it.
   */
  lemma {:induction false} ChildRequestsIndexed(folder: string, xs: seq<Value>, resourceType: string,
                                                file: (Value, nat) -> string)
    ensures |ChildRequests(folder, xs, resourceType, file)| == |Save.Present(xs)|
    ensures forall i | 0 <= i < |Save.Present(xs)| ::
              ChildRequests(folder, xs, resourceType, file)[i] ==
                ChildRequest(folder, Save.Present(xs)[i], i, resourceType, file)
    decreases |xs|
  {
    if xs != [] {
      var n := |xs| - 1;
      ChildRequestsIndexed(folder, xs[..n], resourceType, file);
      Save.PresentSnoc(xs[..n], xs[n]);
      assert xs[..n] + [xs[n]] == xs;
      var ps := Save.Present(xs[..n]);
      var before := ChildRequests(folder, xs[..n], resourceType, file);
      var rs := ChildRequests(folder, xs, resourceType, file);
      if Truthy(xs[n]) {
        assert rs == before + [ChildRequest(folder, xs[n], |ps|, resourceType, file)];
        assert Save.Present(xs) == ps + [xs[n]];
      } else {
        assert rs == before && Save.Present(xs) == ps;
      }
      forall i | 0 <= i < |Save.Present(xs)|
        ensures rs[i] == ChildRequest(folder, Save.Present(xs)[i], i, resourceType, file)
      {
        if i < |ps| {
          assert rs[i] == before[i] && Save.Present(xs)[i] == ps[i];
        }
      }
    }
  }

  lemma PlainFile(stem: string, id: string)
    requires NoSeparator(stem) && NoSeparator(id)
    ensures NoSeparator(stem + "__" + id + ".gbsres")
  {
    var f := stem + "__" + id + ".gbsres";
    forall i | 0 <= i < |f| ensures f[i] != '/' && f[i] != '\\' {
      if i < |stem| {
        assert f[i] == stem[i];
      } else if i < |stem| + 2 {
        assert f[i] == '_';
      } else if i < |stem| + 2 + |id| {
        assert f[i] == id[i - |stem| - 2];
      } else {
        assert f[i] == ".gbsres"[i - |stem| - 2 - |id|];
      }
    }
  }

  /** A child whose id holds no separator gets a plain file name. */
  lemma ChildFileIsPlain(child: Value, index: nat, childName: (Value, nat) -> string, strip: Value -> string)
    requires NoSeparator(ToText(Prop(child, "id")))
    ensures NoSeparator(ChildToFileName(child, index, childName, strip) + ".gbsres")
  {
    var r := ChildToFileName(child, index, childName, strip);
    var id := ToText(Prop(child, "id"));
    ChildToFileNameShape(child, index, childName, strip);
    assert r == Stem(r, id) + "__" + id;
    PlainFile(Stem(r, id), id);
  }

  /**
   * Every actor (or trigger) file lies directly in its folder, when the
   * children's ids hold no path separator.
   */
  lemma {:induction false} ChildRequestsLayout(folder: string, xs: seq<Value>, resourceType: string,
                                               childName: (Value, nat) -> string, strip: Value -> string)
    requires folder != [] && folder[|folder| - 1] != '/'
    requires forall x | x in xs && Truthy(x) :: NoSeparator(ToText(Prop(x, "id")))
    ensures forall r | r in ChildRequests(folder, xs, resourceType, ChildFile(childName, strip)) ::
              Dirname(r.filename) == folder && r.resourceType == resourceType
    decreases |xs|
  {
    if xs != [] {
      var n := |xs| - 1;
      var file := ChildFile(childName, strip);
      var before := ChildRequests(folder, xs[..n], resourceType, file);
      assert forall x | x in xs[..n] :: x in xs;
      ChildRequestsLayout(folder, xs[..n], resourceType, childName, strip);
      if Truthy(xs[n]) {
        assert xs[n] in xs;
        ChildFileIsPlain(xs[n], |before|, childName, strip);
        DirnameOfJoin(folder, ChildToFileName(xs[n], |before|, childName, strip) + ".gbsres");
      }
    }
  }

  /**
   * The layout of a scene: its actors in `<scene folder>/actors`, its
   * triggers in `<scene folder>/triggers`, and `scene.gbsres` last, in the
   * scene folder, when the children's ids hold no path separator.
   */
  lemma SceneLayout(scene: Value, i: nat, names: NameRules)
    requires SceneShaped(scene)
    requires forall x | x in Prop(scene, "actors").elems && Truthy(x) :: NoSeparator(ToText(Prop(x, "id")))
    requires forall x | x in Prop(scene, "triggers").elems && Truthy(x) :: NoSeparator(ToText(Prop(x, "id")))
    ensures forall r | r in OneScene(scene, i, names) && r.resourceType == "actor" ::
              Dirname(r.filename) == Join(SceneFolder(scene, i, names), "actors")
    ensures forall r | r in OneScene(scene, i, names) && r.resourceType == "trigger" ::
              Dirname(r.filename) == Join(SceneFolder(scene, i, names), "triggers")
    ensures OneScene(scene, i, names)[|OneScene(scene, i, names)| - 1].filename ==
              Join(SceneFolder(scene, i, names), "scene.gbsres")
  {
    var folder := SceneFolder(scene, i, names);
    ChildRequestsLayout(Join(folder, "actors"), Prop(scene, "actors").elems, "actor", names.actorName, names.strip);
    ChildRequestsLayout(Join(folder, "triggers"), Prop(scene, "triggers").elems, "trigger", names.triggerName, names.strip);
  }

  /** The buffer holds one entry per write, in call order. */
  lemma {:induction false} BufferOfIndexed(partsFolder: string, rs: seq<Request>)
    ensures |BufferOf(partsFolder, rs)| == |rs|
    ensures forall i | 0 <= i < |rs| :: BufferOf(partsFolder, rs)[i] == Buffered(partsFolder, rs[i])
    decreases |rs|
  {
    if rs != [] {
      BufferOfIndexed(partsFolder, rs[..|rs| - 1]);
    }
  }

  /** `newResourcePaths` holds exactly the file names written. */
  lemma {:induction false} FilenamesIff(rs: seq<Request>, f: string)
    ensures f in Filenames(rs) <==> exists i | 0 <= i < |rs| :: rs[i].filename == f
    decreases |rs|
  {
    if rs != [] {
      var n := |rs| - 1;
      FilenamesIff(rs[..n], f);
      if f in Filenames(rs[..n]) {
        var i :| 0 <= i < n && rs[..n][i].filename == f;
        assert rs[i].filename == f;
      }
      if exists i | 0 <= i < |rs| :: rs[i].filename == f {
        var i :| 0 <= i < |rs| && rs[i].filename == f;
        if i < n {
          assert rs[..n][i].filename == f;
        }
      }
    }
  }

  /** No file written by the save is reported as an orphan. */
  lemma WrittenNotOrphan(existing: seq<string>, rs: seq<Request>, i: nat)
    requires i < |rs|
    ensures rs[i].filename !in Orphans(existing, Filenames(rs))
  {
    FilenamesIff(rs, rs[i].filename);
  }

  lemma {:induction false} DirOpAt(buffer: seq<BufferedWrite>, i: nat)
    requires i < |buffer|
    ensures DirOps(buffer)[i] == EnsureDir(Dirname(buffer[i].path))
    decreases |buffer|
  {
    var n := |buffer| - 1;
    if i < n {
      DirOpAt(buffer[..n], i);
      assert buffer[..n][i] == buffer[i];
    }
  }

  lemma {:induction false} WriteOpAt(buffer: seq<BufferedWrite>, i: nat)
    requires i < |buffer|
    ensures WriteOps(buffer)[i] == WriteFile(buffer[i].path, buffer[i].data)
    decreases |buffer|
  {
    var n := |buffer| - 1;
    if i < n {
      WriteOpAt(buffer[..n], i);
      assert buffer[..n][i] == buffer[i];
    }
  }

  /** The `k`-th file-system call of a save that ends with the call `last`. */
  lemma SaveOpAt(buffer: seq<BufferedWrite>, last: FsOp, k: nat)
    requires k <= 2 * |buffer|
    ensures (DirOps(buffer) + WriteOps(buffer) + [last])[k] ==
              if k < |buffer| then EnsureDir(Dirname(buffer[k].path))
              else if k < 2 * |buffer| then WriteFile(buffer[k - |buffer|].path, buffer[k - |buffer|].data)
              else last
  {
    var ops := DirOps(buffer) + WriteOps(buffer) + [last];
    if k < |buffer| {
      DirOpAt(buffer, k);
      assert ops[k] == DirOps(buffer)[k];
    } else if k < 2 * |buffer| {
      WriteOpAt(buffer, k - |buffer|);
      assert ops[k] == WriteOps(buffer)[k - |buffer|];
    }
  }

  /** Directory calls, then file writes, then `last`, with nothing removed when `last` removes nothing. */
  lemma OpsOrder(buffer: seq<BufferedWrite>, last: FsOp)
    requires !last.Remove?
    ensures var ops := DirOps(buffer) + WriteOps(buffer) + [last];
      && |ops| == 2 * |buffer| + 1
      && (forall i | 0 <= i < |buffer| ::
            ops[i] == EnsureDir(Dirname(buffer[i].path))
            && ops[|buffer| + i] == WriteFile(buffer[i].path, buffer[i].data))
      && ops[2 * |buffer|] == last
      && forall op | op in ops :: !op.Remove?
  {
    var ops := DirOps(buffer) + WriteOps(buffer) + [last];
    forall i | 0 <= i < |buffer|
      ensures ops[i] == EnsureDir(Dirname(buffer[i].path))
      ensures ops[|buffer| + i] == WriteFile(buffer[i].path, buffer[i].data)
    {
      SaveOpAt(buffer, last, i);
      SaveOpAt(buffer, last, |buffer| + i);
    }
    forall op | op in ops ensures !op.Remove? {
      var k :| 0 <= k < |ops| && ops[k] == op;
      SaveOpAt(buffer, last, k);
    }
  }

  /**
   * The order of a save's file-system calls: the directory of every
   * buffered file is ensured, then every file is written, then the project
   * file; nothing is removed.
   */
  lemma SaveOpsOrder(buffer: seq<BufferedWrite>, projectPath: string, metadata: Value)
    ensures var ops := DirOps(buffer) + WriteOps(buffer) + [ProjectWrite(projectPath, metadata)];
      && |ops| == 2 * |buffer| + 1
      && (forall i | 0 <= i < |buffer| ::
            ops[i] == EnsureDir(Dirname(buffer[i].path))
            && ops[|buffer| + i] == WriteFile(buffer[i].path, buffer[i].data))
      && ops[2 * |buffer|] == ProjectWrite(projectPath, metadata)
      && forall op | op in ops :: !op.Remove?
  {
    OpsOrder(buffer, ProjectWrite(projectPath, metadata));
  }
}
