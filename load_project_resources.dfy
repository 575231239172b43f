/**
 * `loadProjectResources`: the `.gbsres` files under the project folder,
 * read as rows of (path relative to the project root, `_resourceType`,
 * document), grouped by type into the resource record.  Actors and
 * triggers are sorted by `_index` and attached to the scene whose folder
 * holds them; the settings fragments are folded over the defaults.
 */
module LoadProjectResources {
  import opened JsValue
  import opened Text
  import opened Paths
  import opened Sorting
  import opened ResourceTypes

  /** A loaded resource file: its path relative to the project root, its `_resourceType`, its document. */
  datatype Row = Row(path: string, resourceType: Value, data: Value)

  /** `resourceData._resourceType` throws on a file whose JSON is `null`; every other document can be read. */
  predicate Readable(files: seq<(string, Value)>) {
    forall i | 0 <= i < |files| :: files[i].1 != Null
  }

  /** The row of one file read from disk, on a POSIX system (where splitting on `path.sep` and joining with `/` changes nothing). */
  function ReadRow(projectRoot: string, file: string, doc: Value): Row {
    Row(Relative(projectRoot, file), Prop(doc, "_resourceType"), doc)
  }

  /** The rows of the files found, in the order of the scan. */
  function ReadRows(projectRoot: string, files: seq<(string, Value)>): (rows: seq<Row>)
    ensures |rows| == |files|
  {
    seq(|files|, i requires 0 <= i < |files| => ReadRow(projectRoot, files[i].0, files[i].1))
  }

  /**
   * A file below the project root is keyed by its components below the
   * root, joined with `/`; its type is its document's `_resourceType`.
   */
  lemma ReadRowBelowRoot(projectRoot: string, file: string, doc: Value)
    requires Inside(projectRoot, file)
    ensures ReadRow(projectRoot, file, doc).path == JoinAll(Components(file)[|Components(projectRoot)|..])
    ensures ReadRow(projectRoot, file, doc).resourceType == Prop(doc, "_resourceType")
  {
    RelativeBelow(projectRoot, file);
  }

  // ---------------------------------------------------------------------
  // Grouping
  // ---------------------------------------------------------------------

  /** The key `groupBy(rows, "type")` files a row under: its type as a property name. */
  function TypeKey(r: Row): string {
    ToText(r.resourceType)
  }

  /** `groupBy(rows, key)[k] ?? []`: the rows whose key is `k`, in their order. */
  function GroupBy(rows: seq<Row>, key: Row -> string, k: string): (g: seq<Row>)
    ensures |g| <= |rows|
    decreases |rows|
  {
    if rows == [] then []
    else
      var n := |rows| - 1;
      GroupBy(rows[..n], key, k) + (if key(rows[n]) == k then [rows[n]] else [])
  }

  /** A group holds exactly the rows with its key. */
  lemma {:induction false} GroupByIff(rows: seq<Row>, key: Row -> string, k: string, r: Row)
    ensures r in GroupBy(rows, key, k) <==> r in rows && key(r) == k
    decreases |rows|
  {
    if rows != [] {
      var n := |rows| - 1;
      GroupByIff(rows[..n], key, k, r);
      assert rows == rows[..n] + [rows[n]];
    }
  }

  /** A row whose key is not `k` leaves group `k` as it was. */
  lemma GroupByIgnores(rows: seq<Row>, key: Row -> string, k: string, r: Row)
    requires key(r) != k
    ensures GroupBy(rows + [r], key, k) == GroupBy(rows, key, k)
  {
    assert (rows + [r])[..|rows|] == rows;
  }

  /** `arr?.map(extractData) ?? []` */
  function Data(rows: seq<Row>): (vs: seq<Value>)
    ensures |vs| == |rows|
    ensures forall i | 0 <= i < |rows| :: vs[i] == rows[i].data
  {
    seq(|rows|, i requires 0 <= i < |rows| => rows[i].data)
  }

  // ---------------------------------------------------------------------
  // Ordering by `_index`
  // ---------------------------------------------------------------------

  /**
   * `ToPrimitive(v, number)` on a value read from JSON: an array or an
   * object becomes its string form (`valueOf` returns the object itself, so
   * `toString` decides); every other value is already primitive.
   */
  function ToPrimitive(v: Value): (p: Value)
    ensures !p.Arr? && !p.Obj?
    ensures p.Str? <==> v.Str? || v.Arr? || v.Obj?
  {
    if v.Arr? || v.Obj? then Str(ToText(v)) else v
  }

  /**
   * The primitives whose `ToNumber` the model computes: `null`, the
   * booleans and the numbers.  `undefined` converts to `NaN`; a string goes
   * through string parsing, which is not modelled.
   */
  predicate HasNumber(v: Value) {
    v.Null? || v.Bool? || v.Num?
  }

  /** `ToNumber(v)`: `null` is 0, `false` and `true` are 0 and 1, a number is itself. */
  function NumberOf(v: Value): int
    requires HasNumber(v)
  {
    match v
    case Null => 0
    case Bool(b) => if b then 1 else 0
    case Num(n) => n
  }

  /**
   * JavaScript's `<` on two `_index` values: both sides become primitives;
   * two strings compare by code units; otherwise both sides are converted
   * with `ToNumber`, and a `NaN` side makes the comparison false.
   */
  predicate IndexLess(x: Value, y: Value) {
    var px := ToPrimitive(x);
    var py := ToPrimitive(y);
    if px.Str? && py.Str? then Less(px.s, py.s)
    else HasNumber(px) && HasNumber(py) && NumberOf(px) < NumberOf(py)
  }

  /** `sortByIndex` */
  function SortByIndex(a: Row, b: Row): (r: int)
    ensures r == -1 || r == 0 || r == 1
  {
    var x := Prop(a.data, "_index");
    var y := Prop(b.data, "_index");
    if IndexLess(x, y) then -1 else if IndexLess(y, x) then 1 else 0
  }

  /** The comparator is antisymmetric on every pair of rows. */
  lemma SortByIndexAntisymmetric(a: Row, b: Row)
    ensures SortByIndex(a, b) < 0 <==> SortByIndex(b, a) > 0
    ensures SortByIndex(a, b) == 0 <==> SortByIndex(b, a) == 0
  {
    var x := ToPrimitive(Prop(a.data, "_index"));
    var y := ToPrimitive(Prop(b.data, "_index"));
    if x.Str? && y.Str? {
      LessAsymmetric(x.s, y.s);
      LessAsymmetric(y.s, x.s);
    }
  }

  /** An `_index` that is a string, an array or an object is compared by its string form. */
  predicate TextualIndex(r: Row) {
    var x := Prop(r.data, "_index");
    x.Str? || x.Arr? || x.Obj?
  }

  /**
   * On strings, arrays and objects `sortByIndex` orders by `String(_index)`:
   * `"a"` against `{}` compares `"a"` with `"[object Object]"`, and `[1]`
   * against `[2]` compares `"1"` with `"2"`.
   */
  lemma SortByIndexTextual(a: Row, b: Row)
    requires TextualIndex(a) && TextualIndex(b)
    ensures SortByIndex(a, b) < 0 <==> Less(ToText(Prop(a.data, "_index")), ToText(Prop(b.data, "_index")))
    ensures SortByIndex(a, b) > 0 <==> Less(ToText(Prop(b.data, "_index")), ToText(Prop(a.data, "_index")))
  {
    LessAsymmetric(ToText(Prop(a.data, "_index")), ToText(Prop(b.data, "_index")));
  }

  predicate NumericIndex(r: Row) {
    Prop(r.data, "_index").Num?
  }

  /** On rows with numeric `_index`, `sortByIndex` orders by that number. */
  lemma SortByIndexNumeric(a: Row, b: Row)
    requires NumericIndex(a) && NumericIndex(b)
    ensures SortByIndex(a, b) <= 0 <==> Prop(a.data, "_index").n <= Prop(b.data, "_index").n
    ensures SortByIndex(a, b) < 0 <==> Prop(a.data, "_index").n < Prop(b.data, "_index").n
  {
  }

  /** On rows with numeric `_index`, `sortByIndex` is a consistent comparator. */
  lemma SortByIndexConsistent(rows: seq<Row>)
    requires forall r | r in rows :: NumericIndex(r)
    ensures ConsistentOn(SortByIndex, rows)
  {
    forall a, b | a in rows && b in rows
      ensures SortByIndex(a, b) < 0 <==> SortByIndex(b, a) > 0
    {
      SortByIndexNumeric(a, b);
      SortByIndexNumeric(b, a);
    }
    forall a, b, c | a in rows && b in rows && c in rows && SortByIndex(a, b) <= 0 && SortByIndex(b, c) <= 0
      ensures SortByIndex(a, c) <= 0
    {
      SortByIndexNumeric(a, b);
      SortByIndexNumeric(b, c);
      SortByIndexNumeric(a, c);
    }
  }

  /** `(resourcesLookup[type] ?? []).sort(sortByIndex)`, in place on the group's array. */
  method SortRows(group: seq<Row>) returns (sorted: seq<Row>)
    ensures sorted == InsertionSort(group, SortByIndex)
  {
    var a := new Row[|group|](i requires 0 <= i < |group| => group[i]);
    assert a[..] == group;
    SortInPlace(a, SortByIndex);
    sorted := a[..];
  }

  /** `a` comes no later than `b` by a numeric `_index`. */
  predicate IndexAtMost(a: Row, b: Row) {
    IndexNoGreater(a.data, b.data)
  }

  /** A sequence in comparator order, of rows with numeric `_index`, ascends by that index. */
  lemma SortedByIndexAscends(s: seq<Row>)
    requires forall r | r in s :: NumericIndex(r)
    requires SortedBy(SortByIndex, s)
    ensures RowsAscending(s)
  {
    forall i, j | 0 <= i < j < |s| ensures IndexAtMost(s[i], s[j]) {
      assert SortByIndex(s[i], s[j]) <= 0;
      SortByIndexNumeric(s[i], s[j]);
    }
  }

  /** The sorted rows are the group's rows, ascending by a numeric `_index`. */
  lemma SortedRowsAscend(group: seq<Row>)
    requires forall r | r in group :: NumericIndex(r)
    ensures multiset(InsertionSort(group, SortByIndex)) == multiset(group)
    ensures RowsAscending(InsertionSort(group, SortByIndex))
  {
    var s := InsertionSort(group, SortByIndex);
    SortPermutes(group, SortByIndex);
    SortByIndexConsistent(group);
    SortSorted(group, SortByIndex);
    forall r | r in s ensures NumericIndex(r) {
      assert r in multiset(group);
    }
    SortedByIndexAscends(s);
  }

  // ---------------------------------------------------------------------
  // Scenes
  // ---------------------------------------------------------------------

  /** `path.substring(0, path.lastIndexOf(subFolder))`: the folder of the scene owning a child file. */
  function SceneKey(path: string, subFolder: string): string
    requires subFolder != []
  {
    SubstringTo(path, LastIndexOf(path, subFolder))
  }

  function ActorKey(r: Row): string {
    SceneKey(r.path, "/actors/")
  }

  function TriggerKey(r: Row): string {
    SceneKey(r.path, "/triggers/")
  }

  /** `{...row.data, actors, triggers}`, the children being those keyed by the scene's folder. */
  function AssembleScene(row: Row, actors: seq<Row>, triggers: seq<Row>): Value {
    var sceneDir := Dirname(row.path);
    Obj(Set(Set(SpreadSource(row.data), "actors", Arr(Data(GroupBy(actors, ActorKey, sceneDir)))),
            "triggers", Arr(Data(GroupBy(triggers, TriggerKey, sceneDir)))))
  }

  function Scenes(sceneRows: seq<Row>, actors: seq<Row>, triggers: seq<Row>): (scenes: seq<Value>)
    ensures |scenes| == |sceneRows|
  {
    seq(|sceneRows|, i requires 0 <= i < |sceneRows| => AssembleScene(sceneRows[i], actors, triggers))
  }

  /** The last `/actors/` (or `/triggers/`) of a child's path is the one right after the scene folder. */
  lemma SavedChildPattern(folder: string, sub: string, file: string)
    requires sub == "actors" || sub == "triggers"
    requires file != [] && NoSeparator(file)
    ensures LastIndexOf(Join(Join(folder, sub), file), "/" + sub + "/") == |folder|
  {
    var p := Join(Join(folder, sub), file);
    var pat := "/" + sub + "/";
    assert p == folder + pat + file;
    assert p[|folder|..|folder| + |pat|] == pat;
    assert OccursAt(p, pat, |folder|);
    var k := LastIndexOf(p, pat);
    assert forall j | |folder| + |pat| <= j < |p| :: p[j] == file[j - |folder| - |pat|];
    assert OccursAt(p, pat, k);
    assert p[k + |pat| - 1] == pat[|pat| - 1];
  }

  /**
   * A child saved as `<folder>/actors/<file>` (or `triggers`) is keyed by
   * `<folder>`, which is the directory of `<folder>/scene.gbsres`: a saved
   * scene gets its own children back.
   */
  lemma SavedChildKey(folder: string, sub: string, file: string)
    requires sub == "actors" || sub == "triggers"
    requires folder != [] && folder[|folder| - 1] != '/'
    requires file != [] && NoSeparator(file)
    ensures SceneKey(Join(Join(folder, sub), file), "/" + sub + "/") == folder
    ensures Dirname(Join(folder, "scene.gbsres")) == folder
  {
    SavedChildPattern(folder, sub, file);
    assert Join(Join(folder, sub), file)[..|folder|] == folder;
    DirnameOfJoin(folder, "scene.gbsres");
  }

  /** The data of a group are exactly the data of the rows with its key. */
  lemma DataOfGroup(rows: seq<Row>, key: Row -> string, k: string, v: Value)
    ensures v in Data(GroupBy(rows, key, k)) <==> exists r | r in rows :: key(r) == k && r.data == v
  {
    var g := GroupBy(rows, key, k);
    if v in Data(g) {
      var i :| 0 <= i < |g| && Data(g)[i] == v;
      GroupByIff(rows, key, k, g[i]);
    }
    if exists r | r in rows :: key(r) == k && r.data == v {
      var r :| r in rows && key(r) == k && r.data == v;
      GroupByIff(rows, key, k, r);
      var i :| 0 <= i < |g| && g[i] == r;
      assert Data(g)[i] == v;
    }
  }

  /**
   * The children of an assembled scene are exactly the data of the rows
   * keyed by the scene's directory, in the order of the sorted rows.
   */
  lemma SceneChildren(row: Row, actors: seq<Row>, triggers: seq<Row>, v: Value)
    ensures var scene := AssembleScene(row, actors, triggers);
      && Prop(scene, "actors") == Arr(Data(GroupBy(actors, ActorKey, Dirname(row.path))))
      && Prop(scene, "triggers") == Arr(Data(GroupBy(triggers, TriggerKey, Dirname(row.path))))
      && (v in Prop(scene, "actors").elems <==>
            exists a | a in actors :: ActorKey(a) == Dirname(row.path) && a.data == v)
      && (v in Prop(scene, "triggers").elems <==>
            exists t | t in triggers :: TriggerKey(t) == Dirname(row.path) && t.data == v)
  {
    var dir := Dirname(row.path);
    var base := Set(SpreadSource(row.data), "actors", Arr(Data(GroupBy(actors, ActorKey, dir))));
    GetSet(base, "triggers", Arr(Data(GroupBy(triggers, TriggerKey, dir))), "actors");
    GetSet(SpreadSource(row.data), "actors", Arr(Data(GroupBy(actors, ActorKey, dir))), "actors");
    GetSet(base, "triggers", Arr(Data(GroupBy(triggers, TriggerKey, dir))), "triggers");
    DataOfGroup(actors, ActorKey, dir, v);
    DataOfGroup(triggers, TriggerKey, dir, v);
  }

  /** Every other property of an assembled scene is the scene document's own. */
  lemma SceneKeepsFields(row: Row, actors: seq<Row>, triggers: seq<Row>, k: string)
    requires row.data.Obj? && k != "actors" && k != "triggers"
    ensures Prop(AssembleScene(row, actors, triggers), k) == Prop(row.data, k)
  {
    var dir := Dirname(row.path);
    var base := Set(SpreadSource(row.data), "actors", Arr(Data(GroupBy(actors, ActorKey, dir))));
    GetSet(base, "triggers", Arr(Data(GroupBy(triggers, TriggerKey, dir))), k);
    GetSet(SpreadSource(row.data), "actors", Arr(Data(GroupBy(actors, ActorKey, dir))), k);
  }

  // ---------------------------------------------------------------------
  // Settings
  // ---------------------------------------------------------------------

  /** `{_resourceType: "settings", ...defaultProjectSettings}` */
  function SettingsBase(defaults: Value): Props {
    Spread([("_resourceType", Str("settings"))], defaults)
  }

  /** The `reduce` of the settings rows: each step is `{...memo, ...resource.data}`. */
  function FoldSettings(memo: Props, fragments: seq<Row>): Props
    decreases |fragments|
  {
    if fragments == [] then memo
    else FoldSettings(Spread(Spread([], Obj(memo)), fragments[0].data), fragments[1..])
  }

  /** One step of the fold: the fragment's own properties win. */
  lemma SettingsStep(memo: Props, fragment: Value, k: string)
    ensures Get(Spread(Spread([], Obj(memo)), fragment), k) ==
              if HasKey(SpreadSource(fragment), k) then Get(SpreadSource(fragment), k) else Get(memo, k)
  {
    GetSetAll(Spread([], Obj(memo)), SpreadSource(fragment), k);
    GetSetAll([], memo, k);
    if !HasKey(memo, k) {
      GetMissing(memo, k);
    }
  }

  /** A key no fragment carries keeps its value from the defaults. */
  lemma {:induction false} SettingsUntouched(memo: Props, fragments: seq<Row>, k: string)
    requires forall f | f in fragments :: !HasKey(SpreadSource(f.data), k)
    ensures Get(FoldSettings(memo, fragments), k) == Get(memo, k)
    decreases |fragments|
  {
    if fragments != [] {
      SettingsStep(memo, fragments[0].data, k);
      assert fragments[0] in fragments;
      assert forall f | f in fragments[1..] :: f in fragments;
      SettingsUntouched(Spread(Spread([], Obj(memo)), fragments[0].data), fragments[1..], k);
    }
  }

  /** The last fragment carrying a key decides its value. */
  lemma {:induction false} SettingsLastWins(memo: Props, fragments: seq<Row>, i: nat, k: string)
    requires i < |fragments| && HasKey(SpreadSource(fragments[i].data), k)
    requires forall j | i < j < |fragments| :: !HasKey(SpreadSource(fragments[j].data), k)
    ensures Get(FoldSettings(memo, fragments), k) == Get(SpreadSource(fragments[i].data), k)
    decreases |fragments|
  {
    var memo' := Spread(Spread([], Obj(memo)), fragments[0].data);
    SettingsStep(memo, fragments[0].data, k);
    if i == 0 {
      forall f | f in fragments[1..] ensures !HasKey(SpreadSource(f.data), k) {
        var j :| 0 <= j < |fragments[1..]| && fragments[1..][j] == f;
        assert fragments[j + 1] == f;
      }
      SettingsUntouched(memo', fragments[1..], k);
    } else {
      SettingsLastWins(memo', fragments[1..], i - 1, k);
    }
  }

  // ---------------------------------------------------------------------
  // The loaded record
  // ---------------------------------------------------------------------

  /** `groupBy(resources, "type")`, read at the types the record uses. */
  datatype Groups = Groups(
    scenes: seq<Row>, actors: seq<Row>, triggers: seq<Row>, scripts: seq<Row>, sprites: seq<Row>,
    backgrounds: seq<Row>, emotes: seq<Row>, avatars: seq<Row>, fonts: seq<Row>, tilesets: seq<Row>,
    sounds: seq<Row>, music: seq<Row>, palettes: seq<Row>, variables: seq<Row>,
    engineFieldValues: seq<Row>, settings: seq<Row>)

  function GroupByType(rows: seq<Row>): Groups {
    Groups(
      GroupBy(rows, TypeKey, "scene"), GroupBy(rows, TypeKey, "actor"), GroupBy(rows, TypeKey, "trigger"),
      GroupBy(rows, TypeKey, "script"), GroupBy(rows, TypeKey, "sprite"), GroupBy(rows, TypeKey, "background"),
      GroupBy(rows, TypeKey, "emote"), GroupBy(rows, TypeKey, "avatar"), GroupBy(rows, TypeKey, "font"),
      GroupBy(rows, TypeKey, "tileset"), GroupBy(rows, TypeKey, "sound"), GroupBy(rows, TypeKey, "music"),
      GroupBy(rows, TypeKey, "palette"), GroupBy(rows, TypeKey, "variables"),
      GroupBy(rows, TypeKey, "engineFieldValues"), GroupBy(rows, TypeKey, "settings"))
  }

  /** The record built from the groups, given the actor and trigger rows in the order the sort leaves them. */
  function Assemble(g: Groups, actors: seq<Row>, triggers: seq<Row>, metadata: Value, defaults: Value)
    : Result<ProjectResources>
  {
    if g.variables == [] then Failure("variables")
    else if g.engineFieldValues == [] then Failure("engineFieldValues")
    else
      Success(ProjectResources(
        scenes := Scenes(g.scenes, actors, triggers),
        scripts := Data(g.scripts),
        sprites := Data(g.sprites),
        backgrounds := Data(g.backgrounds),
        emotes := Data(g.emotes),
        avatars := Data(g.avatars),
        fonts := Data(g.fonts),
        tilesets := Data(g.tilesets),
        sounds := Data(g.sounds),
        music := Data(g.music),
        palettes := Data(g.palettes),
        variables := g.variables[0].data,
        engineFieldValues := g.engineFieldValues[0].data,
        settings := Obj(FoldSettings(SettingsBase(defaults), g.settings)),
        metadata := metadata))
  }

  /** The record the rows load into: actors and triggers sorted by `_index`. */
  function Load(rows: seq<Row>, metadata: Value, defaults: Value): Result<ProjectResources> {
    var g := GroupByType(rows);
    Assemble(g, InsertionSort(g.actors, SortByIndex), InsertionSort(g.triggers, SortByIndex), metadata, defaults)
  }

  /** What loading the files gives: a `null` document throws while it is read, else the rows load. */
  function LoadFiles(projectRoot: string, files: seq<(string, Value)>, metadata: Value, defaults: Value)
    : Result<ProjectResources>
  {
    if !Readable(files) then Failure("null resource") else Load(ReadRows(projectRoot, files), metadata, defaults)
  }

  /**
   * `loadProjectResources(projectRoot, metadataResource)` on the files the
   * scan found (`files`: each path with its parsed document) and the
   * default project settings.  Reading a `null` document, or index 0 of an
   * empty `variables` or `engineFieldValues` group, throws; that is the
   * failure.
   */
  method LoadProjectResources(projectRoot: string, files: seq<(string, Value)>, metadata: Value, defaults: Value)
    returns (r: Result<ProjectResources>)
    ensures r == LoadFiles(projectRoot, files, metadata, defaults)
  {
    if !Readable(files) {
      return Failure("null resource");
    }
    var resources := ReadRows(projectRoot, files);
    var resourcesLookup := GroupByType(resources);
    var actors := SortRows(resourcesLookup.actors);
    var triggers := SortRows(resourcesLookup.triggers);
    r := Assemble(resourcesLookup, actors, triggers, metadata, defaults);
  }

  /** The names of the groups the record reads. */
  predicate KnownType(t: string) {
    t == "scene" || t == "actor" || t == "trigger" || t == "script" || t == "sprite" || t == "background"
    || t == "emote" || t == "avatar" || t == "font" || t == "tileset" || t == "sound" || t == "music"
    || t == "palette" || t == "variables" || t == "engineFieldValues" || t == "settings"
  }

  /** A group is empty exactly when no row has its key. */
  lemma GroupByEmpty(rows: seq<Row>, key: Row -> string, k: string)
    ensures GroupBy(rows, key, k) == [] <==> forall r | r in rows :: key(r) != k
  {
    var g := GroupBy(rows, key, k);
    forall r | r in rows ensures r in g <==> key(r) == k {
      GroupByIff(rows, key, k, r);
    }
    if g != [] {
      GroupByIff(rows, key, k, g[0]);
    }
  }

  /** The load fails exactly when there is no variables row or no engine field values row. */
  lemma LoadFailsIff(rows: seq<Row>, metadata: Value, defaults: Value)
    ensures Load(rows, metadata, defaults).Failure? <==>
              (forall r | r in rows :: TypeKey(r) != "variables")
              || (forall r | r in rows :: TypeKey(r) != "engineFieldValues")
  {
    var g := GroupByType(rows);
    assert Load(rows, metadata, defaults).Failure? <==> g.variables == [] || g.engineFieldValues == [];
    GroupByEmpty(rows, TypeKey, "variables");
    GroupByEmpty(rows, TypeKey, "engineFieldValues");
  }

  /** No row of the files has type `t` exactly when no file's `_resourceType` reads as `t`. */
  lemma ReadRowsTypes(projectRoot: string, files: seq<(string, Value)>, t: string)
    ensures (forall r | r in ReadRows(projectRoot, files) :: TypeKey(r) != t)
        <==> forall i | 0 <= i < |files| :: ToText(Prop(files[i].1, "_resourceType")) != t
  {
    var rows := ReadRows(projectRoot, files);
    if forall i | 0 <= i < |files| :: ToText(Prop(files[i].1, "_resourceType")) != t {
      forall r | r in rows ensures TypeKey(r) != t {
        var i :| 0 <= i < |rows| && rows[i] == r;
      }
    } else {
      var i :| 0 <= i < |files| && ToText(Prop(files[i].1, "_resourceType")) == t;
      assert rows[i] in rows && TypeKey(rows[i]) == t;
    }
  }

  /**
   * Loading the files fails exactly when one of them holds `null`, or none
   * has type `variables`, or none has type `engineFieldValues`.
   */
  lemma LoadFilesFailsIff(projectRoot: string, files: seq<(string, Value)>, metadata: Value, defaults: Value)
    ensures LoadFiles(projectRoot, files, metadata, defaults).Failure? <==>
              (exists i | 0 <= i < |files| :: files[i].1 == Null)
              || (forall i | 0 <= i < |files| :: ToText(Prop(files[i].1, "_resourceType")) != "variables")
              || (forall i | 0 <= i < |files| :: ToText(Prop(files[i].1, "_resourceType")) != "engineFieldValues")
  {
    LoadFilesFails(projectRoot, files, metadata, defaults);
    LoadFailsIff(ReadRows(projectRoot, files), metadata, defaults);
    ReadRowsTypes(projectRoot, files, "variables");
    ReadRowsTypes(projectRoot, files, "engineFieldValues");
  }

  /** Loading the files fails when a document is `null` or loading their rows fails. */
  lemma LoadFilesFails(projectRoot: string, files: seq<(string, Value)>, metadata: Value, defaults: Value)
    ensures LoadFiles(projectRoot, files, metadata, defaults).Failure? <==>
              !Readable(files) || Load(ReadRows(projectRoot, files), metadata, defaults).Failure?
  {
  }

  /** The singletons come from the first row of their type, and the metadata passes through. */
  lemma LoadSingletons(rows: seq<Row>, metadata: Value, defaults: Value)
    requires Load(rows, metadata, defaults).Success?
    ensures var res := Load(rows, metadata, defaults).value;
      && (exists i | 0 <= i < |rows| :: TypeKey(rows[i]) == "variables" && res.variables == rows[i].data
           && forall j | 0 <= j < i :: TypeKey(rows[j]) != "variables")
      && (exists i | 0 <= i < |rows| :: TypeKey(rows[i]) == "engineFieldValues" && res.engineFieldValues == rows[i].data
           && forall j | 0 <= j < i :: TypeKey(rows[j]) != "engineFieldValues")
      && res.metadata == metadata
  {
    FirstOfGroup(rows, TypeKey, "variables");
    FirstOfGroup(rows, TypeKey, "engineFieldValues");
  }

  /** The head of a non-empty group is the first row with its key. */
  lemma {:induction false} FirstOfGroup(rows: seq<Row>, key: Row -> string, k: string)
    requires GroupBy(rows, key, k) != []
    ensures exists i | 0 <= i < |rows| :: rows[i] == GroupBy(rows, key, k)[0] && key(rows[i]) == k
              && forall j | 0 <= j < i :: key(rows[j]) != k
    decreases |rows|
  {
    var n := |rows| - 1;
    var init := GroupBy(rows[..n], key, k);
    if init != [] {
      FirstOfGroup(rows[..n], key, k);
      var i :| 0 <= i < n && rows[..n][i] == init[0] && key(rows[..n][i]) == k
               && forall j | 0 <= j < i :: key(rows[..n][j]) != k;
      assert rows[i] == GroupBy(rows, key, k)[0];
      assert forall j | 0 <= j < i :: rows[j] == rows[..n][j];
    } else {
      forall j | 0 <= j < n ensures key(rows[j]) != k {
        GroupByIff(rows[..n], key, k, rows[j]);
        assert rows[j] in rows[..n];
      }
    }
  }

  /** A row of a type the record does not read changes nothing. */
  lemma LoadIgnoresUnknown(rows: seq<Row>, r: Row, metadata: Value, defaults: Value)
    requires !KnownType(TypeKey(r))
    ensures Load(rows + [r], metadata, defaults) == Load(rows, metadata, defaults)
  {
    assert (rows + [r])[..|rows|] == rows;
    assert GroupByType(rows + [r]) == GroupByType(rows);
  }

  /** Each list is the data of its type's rows, in load order. */
  lemma LoadListsByType(rows: seq<Row>, metadata: Value, defaults: Value, v: Value)
    requires Load(rows, metadata, defaults).Success?
    ensures var res := Load(rows, metadata, defaults).value;
      && (v in res.scripts <==> exists r | r in rows :: TypeKey(r) == "script" && r.data == v)
      && (v in res.sprites <==> exists r | r in rows :: TypeKey(r) == "sprite" && r.data == v)
      && (v in res.palettes <==> exists r | r in rows :: TypeKey(r) == "palette" && r.data == v)
      && (v in res.backgrounds <==> exists r | r in rows :: TypeKey(r) == "background" && r.data == v)
      && (v in res.emotes <==> exists r | r in rows :: TypeKey(r) == "emote" && r.data == v)
      && (v in res.avatars <==> exists r | r in rows :: TypeKey(r) == "avatar" && r.data == v)
      && (v in res.tilesets <==> exists r | r in rows :: TypeKey(r) == "tileset" && r.data == v)
      && (v in res.fonts <==> exists r | r in rows :: TypeKey(r) == "font" && r.data == v)
      && (v in res.sounds <==> exists r | r in rows :: TypeKey(r) == "sound" && r.data == v)
      && (v in res.music <==> exists r | r in rows :: TypeKey(r) == "music" && r.data == v)
  {
    DataOfGroup(rows, TypeKey, "script", v);
    DataOfGroup(rows, TypeKey, "sprite", v);
    DataOfGroup(rows, TypeKey, "palette", v);
    DataOfGroup(rows, TypeKey, "background", v);
    DataOfGroup(rows, TypeKey, "emote", v);
    DataOfGroup(rows, TypeKey, "avatar", v);
    DataOfGroup(rows, TypeKey, "tileset", v);
    DataOfGroup(rows, TypeKey, "font", v);
    DataOfGroup(rows, TypeKey, "sound", v);
    DataOfGroup(rows, TypeKey, "music", v);
  }

  /** Folding the fragments over a base: the last fragment carrying a key wins, else the base's value. */
  lemma FoldSettingsGet(base: Props, fragments: seq<Row>, k: string)
    ensures (forall f | f in fragments :: !HasKey(SpreadSource(f.data), k)) ==>
              Get(FoldSettings(base, fragments), k) == Get(base, k)
    ensures forall i | 0 <= i < |fragments| && HasKey(SpreadSource(fragments[i].data), k)
              && (forall j | i < j < |fragments| :: !HasKey(SpreadSource(fragments[j].data), k)) ::
              Get(FoldSettings(base, fragments), k) == Get(SpreadSource(fragments[i].data), k)
  {
    if forall f | f in fragments :: !HasKey(SpreadSource(f.data), k) {
      SettingsUntouched(base, fragments, k);
    }
    forall i | 0 <= i < |fragments| && HasKey(SpreadSource(fragments[i].data), k)
        && (forall j | i < j < |fragments| :: !HasKey(SpreadSource(fragments[j].data), k))
      ensures Get(FoldSettings(base, fragments), k) == Get(SpreadSource(fragments[i].data), k)
    {
      SettingsLastWins(base, fragments, i, k);
    }
  }

  /** The loaded settings are the settings fragments, in load order, folded over the defaults. */
  lemma LoadedSettings(rows: seq<Row>, metadata: Value, defaults: Value)
    requires Load(rows, metadata, defaults).Success?
    ensures Load(rows, metadata, defaults).value.settings
         == Obj(FoldSettings(SettingsBase(defaults), GroupBy(rows, TypeKey, "settings")))
  {
  }

  /** The settings: the last fragment carrying a key wins, else the defaults (with `_resourceType` first). */
  lemma LoadSettings(rows: seq<Row>, metadata: Value, defaults: Value, k: string)
    requires Load(rows, metadata, defaults).Success?
    ensures var settings := Load(rows, metadata, defaults).value.settings;
      var fragments := GroupBy(rows, TypeKey, "settings");
      && ((forall f | f in fragments :: !HasKey(SpreadSource(f.data), k)) ==>
            Prop(settings, k) == Get(SettingsBase(defaults), k))
      && (forall i | 0 <= i < |fragments| && HasKey(SpreadSource(fragments[i].data), k)
            && (forall j | i < j < |fragments| :: !HasKey(SpreadSource(fragments[j].data), k)) ::
            Prop(settings, k) == Get(SpreadSource(fragments[i].data), k))
  {
    LoadedSettings(rows, metadata, defaults);
    FoldSettingsGet(SettingsBase(defaults), GroupBy(rows, TypeKey, "settings"), k);
  }

  /** The `_index` values of a list of documents ascend. */
  predicate IndexAscending(vs: seq<Value>) {
    forall i, j | 0 <= i < j < |vs| :: IndexNoGreater(vs[i], vs[j])
  }

  /** `x._index <= y._index`, both numbers. */
  predicate IndexNoGreater(x: Value, y: Value) {
    Prop(x, "_index").Num? && Prop(y, "_index").Num? && Prop(x, "_index").n <= Prop(y, "_index").n
  }

  predicate RowsAscending(s: seq<Row>) {
    forall i, j | 0 <= i < j < |s| :: IndexAtMost(s[i], s[j])
  }

  /** Grouping keeps the order of the rows, so a group of ascending rows ascends. */
  lemma {:induction false} GroupByAscends(s: seq<Row>, key: Row -> string, k: string)
    requires RowsAscending(s)
    ensures RowsAscending(GroupBy(s, key, k))
    decreases |s|
  {
    if s != [] {
      var n := |s| - 1;
      assert RowsAscending(s[..n]);
      GroupByAscends(s[..n], key, k);
      var g := GroupBy(s[..n], key, k);
      if key(s[n]) == k {
        var g' := g + [s[n]];
        forall i | 0 <= i < |g| ensures IndexAtMost(g[i], s[n]) {
          GroupByIff(s[..n], key, k, g[i]);
          var m :| 0 <= m < n && s[..n][m] == g[i];
          assert s[m] == g[i];
        }
        forall i, j | 0 <= i < j < |g'| ensures IndexAtMost(g'[i], g'[j]) {
          if j < |g| {
            assert g'[i] == g[i] && g'[j] == g[j];
          } else {
            assert g'[i] == g[i] && g'[j] == s[n];
          }
        }
      }
    }
  }

  /** The documents of ascending rows ascend by `_index`. */
  lemma DataAscends(s: seq<Row>)
    requires RowsAscending(s)
    ensures IndexAscending(Data(s))
  {
    var d := Data(s);
    forall i, j | 0 <= i < j < |d| ensures IndexNoGreater(d[i], d[j]) {
      assert IndexAtMost(s[i], s[j]);
      assert d[i] == s[i].data && d[j] == s[j].data;
    }
  }

  /**
   * Each loaded scene gets exactly the actors and triggers stored under its
   * folder, in ascending `_index` order when every such row has a numeric
   * `_index`.
   */
  lemma LoadSceneChildren(rows: seq<Row>, metadata: Value, defaults: Value, i: nat, v: Value)
    requires Load(rows, metadata, defaults).Success?
    requires i < |GroupByType(rows).scenes|
    ensures |Load(rows, metadata, defaults).value.scenes| == |GroupByType(rows).scenes|
    ensures var scene := Load(rows, metadata, defaults).value.scenes[i];
      var dir := Dirname(GroupByType(rows).scenes[i].path);
      && Prop(scene, "actors").Arr? && Prop(scene, "triggers").Arr?
      && (v in Prop(scene, "actors").elems <==>
            exists a | a in rows :: TypeKey(a) == "actor" && ActorKey(a) == dir && a.data == v)
      && (v in Prop(scene, "triggers").elems <==>
            exists t | t in rows :: TypeKey(t) == "trigger" && TriggerKey(t) == dir && t.data == v)
      && ((forall a | a in rows && TypeKey(a) == "actor" :: NumericIndex(a)) ==>
            IndexAscending(Prop(scene, "actors").elems))
  {
    var g := GroupByType(rows);
    var row := g.scenes[i];
    var dir := Dirname(row.path);
    var actors := InsertionSort(g.actors, SortByIndex);
    var triggers := InsertionSort(g.triggers, SortByIndex);
    assert Load(rows, metadata, defaults).value.scenes[i] == AssembleScene(row, actors, triggers);
    SceneChildren(row, actors, triggers, v);
    SortPermutes(g.actors, SortByIndex);
    SortPermutes(g.triggers, SortByIndex);
    forall a | a in actors ensures a in rows && TypeKey(a) == "actor" {
      assert a in multiset(g.actors);
      GroupByIff(rows, TypeKey, "actor", a);
    }
    forall a | a in rows && TypeKey(a) == "actor" ensures a in actors {
      GroupByIff(rows, TypeKey, "actor", a);
      assert a in multiset(actors);
    }
    forall t | t in triggers ensures t in rows && TypeKey(t) == "trigger" {
      assert t in multiset(g.triggers);
      GroupByIff(rows, TypeKey, "trigger", t);
    }
    forall t | t in rows && TypeKey(t) == "trigger" ensures t in triggers {
      GroupByIff(rows, TypeKey, "trigger", t);
      assert t in multiset(triggers);
    }
    if forall a | a in rows && TypeKey(a) == "actor" :: NumericIndex(a) {
      forall a | a in g.actors ensures NumericIndex(a) {
        GroupByIff(rows, TypeKey, "actor", a);
      }
      SortedRowsAscend(g.actors);
      GroupByAscends(actors, ActorKey, dir);
      DataAscends(GroupBy(actors, ActorKey, dir));
    }
  }
}
