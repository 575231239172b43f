/**
 * The asset half of `loadProject`: every asset the scan discovered is
 * matched by file name to the entry the project file stored for it, which
 * carries its id, symbol and editor settings forward; each merged list is
 * then sorted by name.  Sprites also get their animation states normalised
 * and are reported when their tiles must be rebuilt.
 */
module LoadProjectAssets {
  import opened JsValue
  import opened Text
  import opened Sorting

  /**
   * The call sites of `uuid()`, which returns a fresh identifier each time:
   * the model names each call by where it happens.
   */
  datatype UuidSite =
    | StateId(sprite: nat)
    | AnimationId(sprite: nat, state: nat, slot: nat)
    | FrameId(sprite: nat, state: nat, slot: nat)
    | EntityId(list: string, outer: nat, inner: nat)

  // ---------------------------------------------------------------------
  // Matching by file name
  // ---------------------------------------------------------------------

  /** The plugin folder an asset's key starts with: `${plugin}/` when set, else nothing. */
  function PluginPrefix(elem: Value): string {
    if Truthy(Prop(elem, "plugin")) then ToText(Prop(elem, "plugin")) + "/" else ""
  }

  /** `toAssetFilename(elem)`: the plugin folder when set, then the file name with `/` separators. */
  function ToAssetFilename(elem: Value): string {
    PluginPrefix(elem) + BackslashesToSlashes(ToText(Prop(elem, "filename")))
  }

  /**
   * `toAssetFilename(elem)` does not throw: `elem.filename.replace` needs a
   * string file name (and on `null` or `undefined`, `elem.plugin` already
   * throws; those have no file name either).
   */
  predicate Keyable(elem: Value) {
    Prop(elem, "filename").Str?
  }

  /** `toAssetFilename(elem)` with its exception: a failure when the file name is not a string. */
  function AssetFilename(elem: Value): Result<string> {
    if Keyable(elem) then Success(ToAssetFilename(elem)) else Failure("filename")
  }

  /**
   * `toAssetFilename` throws exactly when the file name is not a string.
   * Otherwise the key is the plugin folder (when set) followed by the file
   * name, in which every `\` has become `/`.
   */
  lemma ToAssetFilenameShape(elem: Value)
    ensures AssetFilename(elem).Failure? <==> !Prop(elem, "filename").Str?
    ensures AssetFilename(elem).Success? ==>
      var prefix := PluginPrefix(elem);
      var name := Prop(elem, "filename").s;
      var key := AssetFilename(elem).value;
      && |key| == |prefix| + |name|
      && key[..|prefix|] == prefix
      && forall i | |prefix| <= i < |key| :: key[i] != '\\' && (name[i - |prefix|] != '\\' ==> key[i] == name[i - |prefix|])
  {
    if Keyable(elem) {
      var prefix := PluginPrefix(elem);
      var name := Prop(elem, "filename").s;
      var unix := BackslashesToSlashes(name);
      assert ToAssetFilename(elem) == prefix + unix;
      forall i | |prefix| <= i < |prefix| + |unix|
        ensures (prefix + unix)[i] != '\\' && (name[i - |prefix|] != '\\' ==> (prefix + unix)[i] == name[i - |prefix|])
      {
        assert (prefix + unix)[i] == unix[i - |prefix|];
      }
    }
  }

  /** Two assets whose file names differ only in the separators used share a key. */
  lemma ToAssetFilenameSeparatorBlind(a: Value, b: Value)
    requires Prop(a, "plugin") == Prop(b, "plugin")
    requires var x := ToText(Prop(a, "filename")); var y := ToText(Prop(b, "filename"));
      |x| == |y| && forall i | 0 <= i < |x| :: x[i] == y[i] || (x[i] in "/\\" && y[i] in "/\\")
    ensures ToAssetFilename(a) == ToAssetFilename(b)
  {
    var x := ToText(Prop(a, "filename"));
    var y := ToText(Prop(b, "filename"));
    assert BackslashesToSlashes(x) == BackslashesToSlashes(y);
  }

  /**
   * The position `keyBy` takes the entry for key `k` from: the last element
   * whose key is `k`, or -1 when there is none.
   */
  function LastKeyIndex<T>(arr: seq<T>, key: T -> string, k: string): (r: int)
    ensures -1 <= r < |arr|
    ensures r >= 0 ==> key(arr[r]) == k
    ensures forall j | r < j < |arr| :: key(arr[j]) != k
    decreases |arr|
  {
    if arr == [] then -1
    else if key(arr[|arr| - 1]) == k then |arr| - 1
    else LastKeyIndex(arr[..|arr| - 1], key, k)
  }

  /** The index found is the last one whose key matches. */
  lemma LastKeyIndexIs<T>(arr: seq<T>, key: T -> string, k: string, i: nat)
    requires i < |arr| && key(arr[i]) == k
    requires forall j | i < j < |arr| :: key(arr[j]) != k
    ensures LastKeyIndex(arr, key, k) == i
  {
  }

  /** `indexByFilename(arr)[filename]`: the last element with that key, `undefined` when none has it. */
  function IndexByFilename(arr: seq<Value>, filename: string): Value {
    var i := LastKeyIndex(arr, ToAssetFilename, filename);
    if i < 0 then Undefined else arr[i]
  }

  /**
   * The elements lodash `keyBy` visits in `stored || []`: an array's
   * elements, an object's property values, a string's characters, and
   * nothing for `undefined`, `null`, a number or a boolean.
   */
  function Collection(v: Value): (elems: seq<Value>)
    ensures v.Arr? ==> elems == v.elems
    ensures !Truthy(v) ==> elems == []
  {
    match v
    case Arr(elems) => elems
    case Obj(props) => seq(|props|, i requires 0 <= i < |props| => props[i].1)
    case Str(s) => seq(|s|, i requires 0 <= i < |s| => Str([s[i]]))
    case _ => []
  }

  /** `toAssetFilename` throws on none of the elements: `keyBy` or a `map` over them completes. */
  predicate KeyableAll(elems: seq<Value>) {
    forall i | 0 <= i < |elems| :: Keyable(elems[i])
  }

  /** The lookup finds the last element with the key, and `undefined` when no element has it. */
  lemma IndexByFilenameLast(arr: seq<Value>, filename: string)
    ensures (forall i | 0 <= i < |arr| :: ToAssetFilename(arr[i]) != filename) ==> IndexByFilename(arr, filename) == Undefined
    ensures forall i | 0 <= i < |arr| && ToAssetFilename(arr[i]) == filename
                       && (forall j | i < j < |arr| :: ToAssetFilename(arr[j]) != filename) ::
              IndexByFilename(arr, filename) == arr[i]
  {
    forall i | 0 <= i < |arr| && ToAssetFilename(arr[i]) == filename
               && (forall j | i < j < |arr| :: ToAssetFilename(arr[j]) != filename)
      ensures IndexByFilename(arr, filename) == arr[i]
    {
      LastKeyIndexIs(arr, ToAssetFilename, filename, i);
    }
  }

  /** The stored entry each discovered asset is matched with. */
  function Matches(assets: seq<Value>, stored: seq<Value>): (olds: seq<Value>)
    ensures |olds| == |assets|
  {
    seq(|assets|, i requires 0 <= i < |assets| => IndexByFilename(stored, ToAssetFilename(assets[i])))
  }

  // ---------------------------------------------------------------------
  // Ordering by name
  // ---------------------------------------------------------------------

  /**
   * `.sort(sortByName)` completes on `xs`: with two or more entries the sort
   * compares every entry at least once, and `name.toUpperCase()` throws on
   * a name that is not a string.
   */
  predicate NamesSortable(xs: seq<Value>) {
    |xs| < 2 || forall i | 0 <= i < |xs| :: Prop(xs[i], "name").Str?
  }

  /** The name `sortByName` compares; a name that is not a string never reaches it in a completed sort. */
  function UpperName(v: Value): string {
    ToUpper(ToText(Prop(v, "name")))
  }

  /** `sortByName`: names compared after `toUpperCase`. */
  function SortByName(a: Value, b: Value): (r: int)
    ensures r == -1 || r == 0 || r == 1
    ensures r < 0 <==> Less(UpperName(a), UpperName(b))
    ensures r > 0 <==> Less(UpperName(b), UpperName(a))
    ensures r == 0 <==> UpperName(a) == UpperName(b)
  {
    var aName := UpperName(a);
    var bName := UpperName(b);
    LessIrreflexive(aName);
    LessTotal(aName, bName);
    LessAsymmetric(aName, bName);
    if Less(aName, bName) then -1 else if Less(bName, aName) then 1 else 0
  }

  /** `sortByName` is a consistent comparator on any list. */
  lemma SortByNameConsistent(s: seq<Value>)
    ensures ConsistentOn(SortByName, s)
  {
    forall a, b | a in s && b in s ensures SortByName(a, b) < 0 <==> SortByName(b, a) > 0 {
      LessAsymmetric(UpperName(a), UpperName(b));
    }
    forall a, b, c | a in s && b in s && c in s && SortByName(a, b) <= 0 && SortByName(b, c) <= 0
      ensures SortByName(a, c) <= 0
    {
      var x, y, z := UpperName(a), UpperName(b), UpperName(c);
      LessTotal(x, y);
      LessTotal(y, z);
      if Less(x, y) && Less(y, z) {
        LessTransitive(x, y, z);
      }
      LessAsymmetric(x, z);
    }
  }

  /** `.sort(sortByName)`, in place on the freshly mapped array. */
  method SortByNameInPlace(merged: seq<Value>) returns (sorted: seq<Value>)
    ensures sorted == InsertionSort(merged, SortByName)
  {
    var a := new Value[|merged|](i requires 0 <= i < |merged| => merged[i]);
    assert a[..] == merged;
    SortInPlace(a, SortByName);
    sorted := a[..];
  }

  /** No entry's upper-cased name is below an earlier one's. */
  predicate NamesAscend(s: seq<Value>) {
    forall i, j | 0 <= i < j < |s| :: !Less(UpperName(s[j]), UpperName(s[i]))
  }

  /** A list sorted by name has ascending names. */
  lemma SortedByName(merged: seq<Value>)
    ensures NamesAscend(InsertionSort(merged, SortByName))
  {
    var s := InsertionSort(merged, SortByName);
    SortByNameConsistent(merged);
    SortSorted(merged, SortByName);
    forall i, j | 0 <= i < j < |s| ensures !Less(UpperName(s[j]), UpperName(s[i])) {
      assert SortByName(s[i], s[j]) <= 0;
    }
  }

  // ---------------------------------------------------------------------
  // The merges
  // ---------------------------------------------------------------------

  /** Which fields a list carries forward from its stored entry. */
  datatype MergeRule =
    | BackgroundRule   // id, symbol, tileColors, autoColor
    | MusicRule        // id, symbol, a copy of the settings
    | SymbolRule       // id, symbol: sounds, fonts, emotes, tilesets
    | IdRule           // id: avatars

  /** `prev.symbol !== undefined ? prev.symbol : asset.symbol` */
  function StoredSymbol(asset: Value, prev: Value): Value {
    Defined(Prop(prev, "symbol"), Prop(asset, "symbol"))
  }

  /** The merge of one discovered asset with its stored entry (`prev`, `Undefined` when none). */
  function Merge(rule: MergeRule, asset: Value, prev: Value): Value {
    var fields := SpreadSource(asset);
    match rule
    case BackgroundRule =>
      if Truthy(prev) then
        Obj(Set(Set(Set(Set(fields, "id", Prop(prev, "id")), "symbol", StoredSymbol(asset, prev)),
                    "tileColors", Defined(Prop(prev, "tileColors"), Arr([]))),
                "autoColor", Defined(Prop(prev, "autoColor"), Bool(false))))
      else Obj(Set(fields, "tileColors", Arr([])))
    case MusicRule =>
      if Truthy(prev) then
        Obj(Set(Set(Set(fields, "id", Prop(prev, "id")), "symbol", StoredSymbol(asset, prev)),
                "settings", Obj(Spread([], Prop(prev, "settings")))))
      else asset
    case SymbolRule =>
      if Truthy(prev) then Obj(Set(Set(fields, "id", Prop(prev, "id")), "symbol", StoredSymbol(asset, prev)))
      else asset
    case IdRule =>
      if Truthy(prev) then Obj(Set(fields, "id", Prop(prev, "id")))
      else asset
  }

  /** Each discovered asset merged with the stored entry it was matched with. */
  function MergeAll(rule: MergeRule, assets: seq<Value>, olds: seq<Value>): (merged: seq<Value>)
    requires |olds| == |assets|
    ensures |merged| == |assets|
  {
    seq(|assets|, i requires 0 <= i < |assets| => Merge(rule, assets[i], olds[i]))
  }

  /** One `assets.map(merge).sort(sortByName)` against the stored list. */
  method FixAssets(rule: MergeRule, assets: seq<Value>, stored: seq<Value>) returns (fixed: seq<Value>)
    ensures fixed == InsertionSort(MergeAll(rule, assets, Matches(assets, stored)), SortByName)
  {
    var merged := MergeAll(rule, assets, Matches(assets, stored));
    fixed := SortByNameInPlace(merged);
  }

  /** The value a defined stored field wins with, else the fallback. */
  function Defined(stored: Value, fallback: Value): Value {
    if stored != Undefined then stored else fallback
  }

  /**
   * A merged background: a stored match supplies the id, and the symbol,
   * tile colours and auto-colour flag when it defines them (else the
   * asset's symbol, `[]` and `false`); an unmatched one gets `[]` tile
   * colours.  Every other field is the discovered asset's.
   */
  lemma MergeBackground(asset: Value, prev: Value, k: string)
    requires asset.Obj?
    ensures var r := Merge(BackgroundRule, asset, prev);
      && (Truthy(prev) ==>
            && Prop(r, "id") == Prop(prev, "id")
            && Prop(r, "symbol") == Defined(Prop(prev, "symbol"), Prop(asset, "symbol"))
            && Prop(r, "tileColors") == Defined(Prop(prev, "tileColors"), Arr([]))
            && Prop(r, "autoColor") == Defined(Prop(prev, "autoColor"), Bool(false)))
      && (!Truthy(prev) ==>
            Prop(r, "id") == Prop(asset, "id") && Prop(r, "symbol") == Prop(asset, "symbol")
            && Prop(r, "tileColors") == Arr([]))
      && (k != "id" && k != "symbol" && k != "tileColors" && k != "autoColor" ==> Prop(r, k) == Prop(asset, k))
  {
    var fields := SpreadSource(asset);
    if Truthy(prev) {
      var a, b, c, d := Prop(prev, "id"), StoredSymbol(asset, prev),
        Defined(Prop(prev, "tileColors"), Arr([])), Defined(Prop(prev, "autoColor"), Bool(false));
      GetSet4(fields, "id", a, "symbol", b, "tileColors", c, "autoColor", d, "id");
      GetSet4(fields, "id", a, "symbol", b, "tileColors", c, "autoColor", d, "symbol");
      GetSet4(fields, "id", a, "symbol", b, "tileColors", c, "autoColor", d, "tileColors");
      GetSet4(fields, "id", a, "symbol", b, "tileColors", c, "autoColor", d, "autoColor");
      GetSet4(fields, "id", a, "symbol", b, "tileColors", c, "autoColor", d, k);
    } else {
      GetSet(fields, "tileColors", Arr([]), "id");
      GetSet(fields, "tileColors", Arr([]), "symbol");
      GetSet(fields, "tileColors", Arr([]), "tileColors");
      GetSet(fields, "tileColors", Arr([]), k);
    }
  }

  /**
   * Music, sounds, fonts, emotes and tilesets: a stored match supplies the
   * id and the symbol when it defines one; music also gets a copy of the
   * stored settings.  An unmatched asset is kept as discovered.
   */
  lemma MergeWithSymbol(rule: MergeRule, asset: Value, prev: Value, k: string)
    requires asset.Obj? && (rule.MusicRule? || rule.SymbolRule?)
    ensures var r := Merge(rule, asset, prev);
      && (!Truthy(prev) ==> r == asset)
      && (Truthy(prev) ==>
            && Prop(r, "id") == Prop(prev, "id")
            && Prop(r, "symbol") == Defined(Prop(prev, "symbol"), Prop(asset, "symbol"))
            && (rule.MusicRule? ==> Prop(r, "settings") == Obj(Spread([], Prop(prev, "settings"))))
            && (rule.SymbolRule? ==> Prop(r, "settings") == Prop(asset, "settings"))
            && (k != "id" && k != "symbol" && k != "settings" ==> Prop(r, k) == Prop(asset, k)))
  {
    if Truthy(prev) {
      var fields := SpreadSource(asset);
      var s1 := Set(fields, "id", Prop(prev, "id"));
      var s2 := Set(s1, "symbol", StoredSymbol(asset, prev));
      var settings := Obj(Spread([], Prop(prev, "settings")));
      GetSet(fields, "id", Prop(prev, "id"), "symbol");
      GetSet(s2, "settings", settings, "settings");
      GetSet(fields, "id", Prop(prev, "id"), "settings");
      GetSet(s1, "symbol", StoredSymbol(asset, prev), "settings");
      GetSet(s2, "settings", settings, "id");
      GetSet(s2, "settings", settings, "symbol");
      GetSet(s2, "settings", settings, k);
      GetSet(s1, "symbol", StoredSymbol(asset, prev), "id");
      GetSet(s1, "symbol", StoredSymbol(asset, prev), "symbol");
      GetSet(s1, "symbol", StoredSymbol(asset, prev), k);
      GetSet(fields, "id", Prop(prev, "id"), "id");
      GetSet(fields, "id", Prop(prev, "id"), k);
    }
  }

  /** Avatars: a stored match supplies only the id. */
  lemma MergeAvatar(asset: Value, prev: Value, k: string)
    requires asset.Obj?
    ensures var r := Merge(IdRule, asset, prev);
      && (!Truthy(prev) ==> r == asset)
      && (Truthy(prev) ==> Prop(r, "id") == Prop(prev, "id") && (k != "id" ==> Prop(r, k) == Prop(asset, k)))
  {
    GetSet(SpreadSource(asset), "id", Prop(prev, "id"), "id");
    GetSet(SpreadSource(asset), "id", Prop(prev, "id"), k);
  }

  /** Four property assignments in a row. */
  lemma GetSet4(ps: Props, k1: string, v1: Value, k2: string, v2: Value, k3: string, v3: Value,
                k4: string, v4: Value, k: string)
    ensures Get(Set(Set(Set(Set(ps, k1, v1), k2, v2), k3, v3), k4, v4), k)
         == if k == k4 then v4 else if k == k3 then v3 else if k == k2 then v2 else if k == k1 then v1 else Get(ps, k)
  {
    GetSet(ps, k1, v1, k);
    GetSet(Set(ps, k1, v1), k2, v2, k);
    GetSet(Set(Set(ps, k1, v1), k2, v2), k3, v3, k);
    GetSet(Set(Set(Set(ps, k1, v1), k2, v2), k3, v3), k4, v4, k);
  }

  /** A field the override list writes last takes the written value. */
  lemma GetOverride(ps: Props, src: Props, i: nat)
    requires i < |src| && forall j | i < j < |src| :: src[j].0 != src[i].0
    ensures Get(SetAll(ps, src), src[i].0) == src[i].1
  {
    assert Keys(src)[i] == src[i].0;
    GetSetAll(ps, src, src[i].0);
    GetLast(src, i);
  }

  /** A field the override list does not write keeps its value. */
  lemma GetNotOverridden(ps: Props, src: Props, k: string)
    requires forall j | 0 <= j < |src| :: src[j].0 != k
    ensures Get(SetAll(ps, src), k) == Get(ps, k)
  {
    GetSetAll(ps, src, k);
  }

  /** The merged list is sorted by name and holds one merged entry per discovered asset. */
  lemma FixedAssets(rule: MergeRule, assets: seq<Value>, stored: seq<Value>)
    ensures var merged := MergeAll(rule, assets, Matches(assets, stored));
      var fixed := InsertionSort(merged, SortByName);
      && |fixed| == |assets|
      && multiset(fixed) == multiset(merged)
      && NamesAscend(fixed)
  {
    var merged := MergeAll(rule, assets, Matches(assets, stored));
    SortedByName(merged);
    SortPermutes(merged, SortByName);
    assert |multiset(InsertionSort(merged, SortByName))| == |multiset(merged)|;
  }

  // ---------------------------------------------------------------------
  // Sprites
  // ---------------------------------------------------------------------

  /** `a && b` */
  function And(a: Value, b: Value): Value {
    if Truthy(a) then b else a
  }

  /** `v[k]` for an array (or an object with index keys); `Undefined` otherwise. */
  function At(v: Value, k: nat): Value {
    if v.Arr? then (if k < |v.elems| then v.elems[k] else Undefined)
    else if v.Obj? then Get(v.props, NatToString(k))
    else Undefined
  }

  /** The elements `.map` visits. */
  function Elems(v: Value): seq<Value> {
    if v.Arr? then v.elems else []
  }

  /** `oldSprite || {}` */
  function OldData(prev: Value): Value {
    if Truthy(prev) then prev else Obj([])
  }

  /** The id a merged sprite keeps: the stored one when truthy, else the discovered one. */
  function SpriteId(sprite: Value, prev: Value): Value {
    Or(Prop(OldData(prev), "id"), Prop(sprite, "id"))
  }

  /** Whether the sprite's tiles must be rebuilt: no stored match, no stored states, or no stored tile count. */
  predicate NeedsRebuild(prev: Value) {
    !Truthy(prev) || !Truthy(Prop(prev, "states")) || Prop(prev, "numTiles") == Undefined
  }

  /** The state a sprite without stored states starts with. */
  function DefaultState(uuid: UuidSite -> string, sprite: nat): Value {
    Obj([("id", Str(uuid(StateId(sprite)))), ("name", Str("")),
         ("animationType", Str("multi_movement")), ("flipLeft", Bool(true))])
  }

  /** The stored animation in slot `slot` of a state, when there is one (`anims && anims[slot]`). */
  function StoredAnimation(state: Value, slot: nat): Value {
    And(Prop(state, "animations"), At(Prop(state, "animations"), slot))
  }

  /** The single empty frame a missing animation starts with. */
  function FreshFrames(uuid: UuidSite -> string, sprite: nat, index: nat, slot: nat): Value {
    Arr([Obj([("id", Str(uuid(FrameId(sprite, index, slot)))), ("tiles", Arr([]))])])
  }

  /** Animation slot `slot` of a state: the stored id and frames when present, else fresh ones. */
  function FixAnimation(state: Value, slot: nat, uuid: UuidSite -> string, sprite: nat, index: nat): Value {
    var stored := StoredAnimation(state, slot);
    Obj([("id", Or(And(stored, Prop(stored, "id")), Str(uuid(AnimationId(sprite, index, slot))))),
         ("frames", Or(And(stored, Prop(stored, "frames")), FreshFrames(uuid, sprite, index, slot)))])
  }

  /** The eight animation slots of a normalised state. */
  function Animations(state: Value, uuid: UuidSite -> string, sprite: nat, index: nat): (slots: seq<Value>)
    ensures |slots| == 8
  {
    seq(8, slot requires 0 <= slot < 8 => FixAnimation(state, slot, uuid, sprite, index))
  }

  /** `{...state, animations}` with exactly eight animation slots. */
  function FixState(state: Value, uuid: UuidSite -> string, sprite: nat, index: nat): Value {
    Obj(Set(SpreadSource(state), "animations", Arr(Animations(state, uuid, sprite, index))))
  }

  /** The states of a merged sprite: the stored ones, or one default state. */
  function SpriteStates(oldData: Value, uuid: UuidSite -> string, sprite: nat): (states: seq<Value>) {
    var stored := Prop(oldData, "states");
    var states := if Truthy(stored) then Elems(stored) else [DefaultState(uuid, sprite)];
    seq(|states|, i requires 0 <= i < |states| => FixState(states[i], uuid, sprite, i))
  }

  /**
   * The stored states can be mapped without a throw: there are none, or they
   * are an array none of whose states is `null` or `undefined` (on which
   * `oldState.animations` throws).
   */
  predicate StatesMappable(oldData: Value) {
    var stored := Prop(oldData, "states");
    !Truthy(stored) || (stored.Arr? && forall j | 0 <= j < |stored.elems| :: !Nullish(stored.elems[j]))
  }

  /** The `states` map with its exceptions. */
  function MapStates(oldData: Value, uuid: UuidSite -> string, sprite: nat): Result<seq<Value>> {
    if StatesMappable(oldData) then Success(SpriteStates(oldData, uuid, sprite)) else Failure("states")
  }

  /** `{...sprite, ...oldData}`, before the fields the merge sets. */
  function SpriteFields(asset: Value, prev: Value): Props {
    Spread(Spread([], asset), OldData(prev))
  }

  /** The fields the sprite merge writes over `{...sprite, ...oldData}`, in the order it writes them. */
  function SpriteOverrides(asset: Value, prev: Value, uuid: UuidSite -> string, sprite: nat): Props {
    var oldData := OldData(prev);
    [("id", SpriteId(asset, prev)),
     ("symbol", StoredSymbol(asset, oldData)),
     ("filename", Prop(asset, "filename")),
     ("name", Or(Prop(oldData, "name"), Prop(asset, "name"))),
     ("canvasWidth", Or(Prop(oldData, "canvasWidth"), Num(32))),
     ("canvasHeight", Or(Prop(oldData, "canvasHeight"), Num(32))),
     ("states", Arr(SpriteStates(oldData, uuid, sprite)))]
  }

  /** The merge of the `sprite`-th discovered sprite with its stored entry. */
  function MergeSprite(asset: Value, prev: Value, uuid: UuidSite -> string, sprite: nat): Value {
    Obj(SetAll(SpriteFields(asset, prev), SpriteOverrides(asset, prev, uuid, sprite)))
  }

  /** The discovered sprites merged with their matches, the `i`-th drawing its fresh ids from site `i`. */
  function MergedSprites(sprites: seq<Value>, olds: seq<Value>, uuid: UuidSite -> string): (merged: seq<Value>)
    requires |olds| == |sprites|
    ensures |merged| == |sprites|
  {
    seq(|sprites|, i requires 0 <= i < |sprites| => MergeSprite(sprites[i], olds[i], uuid, i))
  }

  /** The ids pushed onto `modifiedSpriteIds`, in the order of the discovered sprites. */
  function ModifiedSpriteIds(sprites: seq<Value>, olds: seq<Value>): seq<Value>
    requires |olds| == |sprites|
    decreases |sprites|
  {
    if sprites == [] then []
    else
      var n := |sprites| - 1;
      ModifiedSpriteIds(sprites[..n], olds[..n]) + (if NeedsRebuild(olds[n]) then [SpriteId(sprites[n], olds[n])] else [])
  }

  /** Whether the sprite `.map` reports a sprite for rebuilding, and under which id. */
  method CheckSprite(sprite: Value, oldSprite: Value) returns (rebuild: bool, id: Value)
    ensures rebuild == NeedsRebuild(oldSprite) && id == SpriteId(sprite, oldSprite)
  {
    var oldData := if Truthy(oldSprite) then oldSprite else Obj([]);
    id := Or(Prop(oldData, "id"), Prop(sprite, "id"));
    rebuild := !Truthy(oldSprite) || !Truthy(Prop(oldSprite, "states")) || Prop(oldSprite, "numTiles") == Undefined;
  }

  /**
   * The side effect of the sprite `.map`: walking the discovered sprites in
   * order, the id of each one that must be rebuilt is pushed.
   */
  method PushModifiedIds(sprites: seq<Value>, olds: seq<Value>) returns (modifiedSpriteIds: seq<Value>)
    requires |olds| == |sprites|
    ensures modifiedSpriteIds == ModifiedSpriteIds(sprites, olds)
  {
    modifiedSpriteIds := [];
    var i := 0;
    while i < |sprites|
      invariant 0 <= i <= |sprites|
      invariant modifiedSpriteIds == ModifiedSpriteIds(sprites[..i], olds[..i])
    {
      var rebuild, id := CheckSprite(sprites[i], olds[i]);
      assert sprites[..i + 1][..i] == sprites[..i] && olds[..i + 1][..i] == olds[..i];
      assert sprites[..i + 1][i] == sprites[i] && olds[..i + 1][i] == olds[i];
      if rebuild {
        modifiedSpriteIds := modifiedSpriteIds + [id];
      }
      i := i + 1;
    }
    assert sprites[..|sprites|] == sprites && olds[..|olds|] == olds;
  }

  /** The sprite merge: one merged sprite per discovered one, sorted by name, and the ids to rebuild. */
  method FixSprites(sprites: seq<Value>, stored: seq<Value>, uuid: UuidSite -> string)
    returns (fixed: seq<Value>, modifiedSpriteIds: seq<Value>)
    ensures fixed == InsertionSort(MergedSprites(sprites, Matches(sprites, stored), uuid), SortByName)
    ensures modifiedSpriteIds == ModifiedSpriteIds(sprites, Matches(sprites, stored))
  {
    var olds := Matches(sprites, stored);
    modifiedSpriteIds := PushModifiedIds(sprites, olds);
    fixed := SortByNameInPlace(MergedSprites(sprites, olds, uuid));
  }

  /**
   * A sprite's id is reported for rebuilding exactly when it has no stored
   * match, or the match has no states or no tile count; the id reported is
   * the merged sprite's id.
   */
  lemma {:induction false} ModifiedSpriteIdsIff(sprites: seq<Value>, olds: seq<Value>, v: Value)
    requires |olds| == |sprites|
    ensures v in ModifiedSpriteIds(sprites, olds) <==>
              exists i | 0 <= i < |sprites| :: NeedsRebuild(olds[i]) && v == SpriteId(sprites[i], olds[i])
    decreases |sprites|
  {
    if sprites != [] {
      var n := |sprites| - 1;
      ModifiedSpriteIdsIff(sprites[..n], olds[..n], v);
      var before := ModifiedSpriteIds(sprites[..n], olds[..n]);
      var last := if NeedsRebuild(olds[n]) then [SpriteId(sprites[n], olds[n])] else [];
      assert ModifiedSpriteIds(sprites, olds) == before + last;
      if v in before {
        var i :| 0 <= i < n && NeedsRebuild(olds[..n][i]) && v == SpriteId(sprites[..n][i], olds[..n][i]);
        assert NeedsRebuild(olds[i]) && v == SpriteId(sprites[i], olds[i]);
      } else if v in last {
        assert NeedsRebuild(olds[n]) && v == SpriteId(sprites[n], olds[n]);
      } else {
        forall i | 0 <= i < |sprites| && NeedsRebuild(olds[i]) ensures v != SpriteId(sprites[i], olds[i]) {
          if i < n {
            assert sprites[..n][i] == sprites[i] && olds[..n][i] == olds[i];
          }
        }
      }
    }
  }

  /** Whatever the sprite merge writes over, the fields it lists take the listed values. */
  lemma SpriteOverridesWin(ps: Props, asset: Value, prev: Value, uuid: UuidSite -> string, sprite: nat)
    ensures var r := SetAll(ps, SpriteOverrides(asset, prev, uuid, sprite));
      var oldData := OldData(prev);
      && Get(r, "id") == SpriteId(asset, prev)
      && Get(r, "symbol") == Defined(Prop(oldData, "symbol"), Prop(asset, "symbol"))
      && Get(r, "filename") == Prop(asset, "filename")
      && Get(r, "name") == Or(Prop(oldData, "name"), Prop(asset, "name"))
      && Get(r, "canvasWidth") == Or(Prop(oldData, "canvasWidth"), Num(32))
      && Get(r, "canvasHeight") == Or(Prop(oldData, "canvasHeight"), Num(32))
      && Get(r, "states") == Arr(SpriteStates(oldData, uuid, sprite))
  {
    var src := SpriteOverrides(asset, prev, uuid, sprite);
    GetOverride(ps, src, 0);
    GetOverride(ps, src, 1);
    GetOverride(ps, src, 2);
    GetOverride(ps, src, 3);
    GetOverride(ps, src, 4);
    GetOverride(ps, src, 5);
    GetOverride(ps, src, 6);
  }

  /** The names of the fields the sprite merge writes. */
  const SpriteOverrideKeys: seq<string> := ["id", "symbol", "filename", "name", "canvasWidth", "canvasHeight", "states"]

  /**
   * A merged sprite's field that the merge does not write is the stored
   * entry's when it has that field, else the discovered sprite's.
   */
  lemma MergedSpriteKeeps(asset: Value, prev: Value, uuid: UuidSite -> string, sprite: nat, k: string)
    requires asset.Obj? && (prev.Obj? || !Truthy(prev))
    requires k !in SpriteOverrideKeys
    ensures Prop(MergeSprite(asset, prev, uuid, sprite), k)
         == if Has(OldData(prev), k) then Prop(OldData(prev), k) else Prop(asset, k)
  {
    var src := SpriteOverrides(asset, prev, uuid, sprite);
    assert forall j | 0 <= j < |src| :: src[j].0 == SpriteOverrideKeys[j];
    GetNotOverridden(SpriteFields(asset, prev), src, k);
    SpreadGet([], asset, k);
    SpreadGet(Spread([], asset), OldData(prev), k);
    if !HasKey(asset.props, k) {
      GetMissing(asset.props, k);
    }
  }

  /**
   * The merged sprite carries the id that is reported, the discovered file
   * name, the stored name when it is non-empty, a 32 by 32 canvas unless
   * the stored one is set, and the normalised states.
   */
  lemma MergedSpriteFields(asset: Value, prev: Value, uuid: UuidSite -> string, sprite: nat)
    ensures var r := MergeSprite(asset, prev, uuid, sprite);
      var oldData := OldData(prev);
      && Prop(r, "id") == SpriteId(asset, prev)
      && Prop(r, "symbol") == Defined(Prop(oldData, "symbol"), Prop(asset, "symbol"))
      && Prop(r, "filename") == Prop(asset, "filename")
      && Prop(r, "name") == Or(Prop(oldData, "name"), Prop(asset, "name"))
      && Prop(r, "canvasWidth") == Or(Prop(oldData, "canvasWidth"), Num(32))
      && Prop(r, "canvasHeight") == Or(Prop(oldData, "canvasHeight"), Num(32))
      && Prop(r, "states") == Arr(SpriteStates(oldData, uuid, sprite))
  {
    SpriteOverridesWin(SpriteFields(asset, prev), asset, prev, uuid, sprite);
  }

  /**
   * Every normalised state has exactly eight animations; slot `k` keeps
   * the stored id and frames when they are present, and otherwise gets a
   * fresh id and one frame with no tiles.
   */
  lemma FixedStateSlots(state: Value, uuid: UuidSite -> string, sprite: nat, index: nat, slot: nat)
    requires slot < 8
    ensures var anims := Prop(FixState(state, uuid, sprite, index), "animations");
      anims.Arr? && |anims.elems| == 8
      && var a := anims.elems[slot];
         var stored := StoredAnimation(state, slot);
         && (Truthy(stored) && Truthy(Prop(stored, "id")) ==> Prop(a, "id") == Prop(stored, "id"))
         && (!Truthy(stored) || !Truthy(Prop(stored, "id")) ==> Prop(a, "id") == Str(uuid(AnimationId(sprite, index, slot))))
         && (Truthy(stored) && Truthy(Prop(stored, "frames")) ==> Prop(a, "frames") == Prop(stored, "frames"))
         && (!Truthy(stored) || !Truthy(Prop(stored, "frames")) ==> Prop(a, "frames") == FreshFrames(uuid, sprite, index, slot))
  {
    GetSet(SpreadSource(state), "animations", Arr(Animations(state, uuid, sprite, index)), "animations");
    var a := FixAnimation(state, slot, uuid, sprite, index);
    GetLast(a.props, 0);
    GetLast(a.props, 1);
  }

  /** Without stored states a sprite gets exactly one state, a `multi_movement` one. */
  lemma DefaultSpriteState(prev: Value, uuid: UuidSite -> string, sprite: nat)
    requires !Truthy(Prop(OldData(prev), "states"))
    ensures |SpriteStates(OldData(prev), uuid, sprite)| == 1
    ensures Prop(SpriteStates(OldData(prev), uuid, sprite)[0], "animationType") == Str("multi_movement")
    ensures Prop(SpriteStates(OldData(prev), uuid, sprite)[0], "id") == Str(uuid(StateId(sprite)))
  {
    var d := DefaultState(uuid, sprite);
    GetSet(SpreadSource(d), "animations", Arr(Animations(d, uuid, sprite, 0)), "animationType");
    GetSet(SpreadSource(d), "animations", Arr(Animations(d, uuid, sprite, 0)), "id");
    assert SpriteStates(OldData(prev), uuid, sprite) == [FixState(d, uuid, sprite, 0)];
    GetLast(d.props, 0);
    GetLast(d.props, 2);
  }

  /**
   * With stored states, the `states` map throws exactly when they are not
   * an array or one of them is `null` or `undefined`; otherwise the merged
   * sprite has one normalised state per stored one.
   */
  lemma StoredSpriteStates(prev: Value, uuid: UuidSite -> string, sprite: nat)
    requires Truthy(prev) && Truthy(Prop(prev, "states"))
    ensures var stored := Prop(prev, "states");
      MapStates(OldData(prev), uuid, sprite).Failure? <==>
        !stored.Arr? || exists j | 0 <= j < |stored.elems| :: Nullish(stored.elems[j])
    ensures var stored := Prop(prev, "states");
      var r := MapStates(OldData(prev), uuid, sprite);
      r.Success? ==> |r.value| == |stored.elems| && forall i | 0 <= i < |stored.elems| :: r.value[i] == FixState(stored.elems[i], uuid, sprite, i)
  {
  }
}
