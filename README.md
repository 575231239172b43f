# gb-studio project resources, modelled in Dafny

This project models how gb-studio moves a project between memory and its
resource files (`.gbsres`, one JSON document per scene, actor, trigger,
asset, settings fragment and so on):

- **Load** (`LoadProjectResources`, `LoadProjectAssets`, `LoadProjectData`).
  Resource files are read as `(path, document)` rows and grouped by their
  `_resourceType`. Actor and trigger rows are sorted in place by `_index`
  and attached to the scene whose folder holds them. Settings fragments are
  folded over the defaults. Stored asset entries are matched by normalised
  file name to the assets a disk scan discovered, so ids and symbols carry
  over. Sprite states are normalised to eight animation slots. Lists are
  sorted by upper-cased name, missing entity ids are filled in, and the
  eight built-in palettes are backfilled. Scene resources are linked to the
  actor and trigger files found below their folders.
- **Save** (`Save`, `SaveProjectData`). `encodeResource` writes
  `_resourceType` and `id` first and drops `__dirty` and `__type`. The
  export buffer writes, for each scene, its actors, then its triggers, then
  the scene. Then come the asset lists, the two settings files, variables
  and engine field values. Each entry carries the hash of its own text.
  `saveProjectData` derives file names as slug + `__` + id, numbers the
  non-null children, requests one write per resource, flushes them and
  writes the project file last. It also computes the orphaned files, which
  it does not delete.
- **Dirty patch** (`Patch`). `stripDirtyResource` deletes every
  `__dirty: true` at any depth and drops resources that had none. It is
  modelled as a method that walks the value and a specification of the
  cleaned value.
- **Actor guards** (`Guards`). These are `isActor` and `isPartialActor`
  and the coercions `toActor` and `toActorResource` over the default actor.
- **Legacy migration** (`MigrateLegacyProject`). Every resource is tagged
  with its type and `__dirty: true`. Children are numbered by their
  position, and the output record is built from the migrated project.

Shared modules:

- `JsValue` models JavaScript values. Objects are ordered key lists, so
  spreads and key order can be stated.
- `Json` models what `JSON.stringify` keeps: undefined properties are
  dropped, and undefined array elements become `null`.
- `Sorting` models `Array.prototype.sort` as a stable insertion sort. It
  has a functional specification and an in-place array method proved equal
  to it.
- `Text` models the string operations used: regular-expression
  replacements, case mapping, `lastIndexOf`, `substring` and string `<`.
- `Paths` models POSIX `dirname`, `relative` and `isAbsolute`.
- `ResourceTypes` holds the record of project resources.

The two `encodeResource` functions in `src/shared/lib/resources/save.ts`
and `src/lib/project/saveProjectData.ts` have the same body. The model
defines it once, as `Save.EncodeResource`, and `SaveProjectData` uses that.

Helpers whose code is not part of this model become parameters of the
operations that call them. These are uuid generation (an oracle indexed by
call site), the MD5 hash, the name helpers, `stripInvalidPathCharacters`,
the resource path helpers, the compressors, `migrateProject`, the asset
scanners and the default settings. Load and save use no clock and no
randomness beyond uuid.

Where the descriptions of this subsystem and the code disagree, the model
follows the code:

- The skip of clean resources in `writeResource` is commented out, so
  every resource is written (saveProjectData.ts:135-152).
- The `remove` of orphaned files is commented out, so a save deletes no
  file (saveProjectData.ts:357-361).
- Load does not strip `__dirty`.
- There is no comparison of checksums against the disk: `save.ts` only
  computes them.

## Model

| member | source | states |
|---|---|---|
| LoadProjectResources.ReadRows | src/lib/project/loadProjectResources.ts:46-59 | one row per file found, in scan order |
| LoadProjectResources.ReadRowBelowRoot | src/lib/project/loadProjectResources.ts:50-56 | a row's path is the file's components below the project root joined with `/`, and its type is the document's `_resourceType` |
| LoadProjectResources.GroupBy | src/lib/project/loadProjectResources.ts:70 | a group is no longer than the rows it is taken from |
| LoadProjectResources.GroupByIff | src/lib/project/loadProjectResources.ts:70 | a row is in group `k` iff it is one of the rows and its key is `k` |
| LoadProjectResources.GroupByIgnores | src/lib/project/loadProjectResources.ts:70 | a row with another key leaves group `k` unchanged |
| LoadProjectResources.GroupByEmpty | src/lib/project/loadProjectResources.ts:70 | a group is empty iff no row has its key |
| LoadProjectResources.FirstOfGroup | src/lib/project/loadProjectResources.ts:119-125 | the head of a non-empty group is the first row with its key |
| LoadProjectResources.GroupByAscends | src/lib/project/loadProjectResources.ts:75-94 | grouping keeps the row order, so a group of rows ascending by `_index` ascends |
| LoadProjectResources.Data | src/lib/project/loadProjectResources.ts:101-103 | `extractDataArray` keeps length and order and takes each row's data |
| LoadProjectResources.DataOfGroup | src/lib/project/loadProjectResources.ts:101-103 | the data of a group are exactly the data of the rows with its key |
| LoadProjectResources.DataAscends | src/lib/project/loadProjectResources.ts:101 | the documents of ascending rows ascend by `_index` |
| LoadProjectResources.SortByIndex | src/lib/project/loadProjectResources.ts:22-33 | `sortByIndex` returns -1, 0 or 1; `_index` values compare as `<` compares them: arrays and objects become their string form, two strings compare by their UTF-16 units, `null`, booleans and numbers by their number, and `undefined` never |
| LoadProjectResources.ToPrimitive | src/lib/project/loadProjectResources.ts:26-29 | `<` turns an array or object into a string and leaves every other value as it is |
| LoadProjectResources.SortByIndexTextual | src/lib/project/loadProjectResources.ts:22-33 | on string, array and object `_index` values the comparator orders by `String(_index)` (`"a"` against `{}` is `"a"` against `"[object Object]"`) |
| LoadProjectResources.SortByIndexAntisymmetric | src/lib/project/loadProjectResources.ts:22-33 | swapping the arguments flips the sign, and 0 stays 0 |
| LoadProjectResources.SortByIndexNumeric | src/lib/project/loadProjectResources.ts:22-33 | on numeric `_index` the comparator orders by that number |
| LoadProjectResources.SortByIndexConsistent | src/lib/project/loadProjectResources.ts:22-33 | on numeric `_index` it is a consistent comparator (antisymmetric, transitive) |
| LoadProjectResources.SortRows | src/lib/project/loadProjectResources.ts:76 | the in-place `.sort(sortByIndex)` leaves the group in stable insertion-sort order |
| LoadProjectResources.SortedByIndexAscends | src/lib/project/loadProjectResources.ts:22-33 | a sequence sorted by the comparator ascends by numeric `_index` |
| LoadProjectResources.SortedRowsAscend | src/lib/project/loadProjectResources.ts:76-89 | the sorted rows are a permutation of the group and ascend by `_index` |
| LoadProjectResources.Scenes | src/lib/project/loadProjectResources.ts:105-114 | one scene per scene row |
| LoadProjectResources.SavedChildPattern | src/lib/project/loadProjectResources.ts:74-93 | in `<folder>/actors/<file>` the last `/actors/` starts right after the folder (same for triggers) |
| LoadProjectResources.SavedChildKey | src/lib/project/loadProjectResources.ts:74-108 | a child saved under a scene folder is keyed by that folder, which is the POSIX dirname of the folder's `scene.gbsres` |
| LoadProjectResources.SceneChildren | src/lib/project/loadProjectResources.ts:105-114 | a scene's actors and triggers are exactly the data of the rows keyed by its directory, in the sorted order, `[]` when there are none |
| LoadProjectResources.SceneKeepsFields | src/lib/project/loadProjectResources.ts:109-113 | every other property of a scene is the scene document's own |
| LoadProjectResources.SettingsStep | src/lib/project/loadProjectResources.ts:134-139 | one step of the fold: the fragment's own property wins over the memo |
| LoadProjectResources.SettingsUntouched | src/lib/project/loadProjectResources.ts:131-141 | a key no fragment carries keeps its default |
| LoadProjectResources.SettingsLastWins | src/lib/project/loadProjectResources.ts:131-141 | the last fragment carrying a key decides it |
| LoadProjectResources.FoldSettingsGet | src/lib/project/loadProjectResources.ts:131-141 | both of the above for any base |
| LoadProjectResources.LoadSettings | src/lib/project/loadProjectResources.ts:131-141 | the loaded settings are the defaults (tagged `"settings"`) overridden by the fragments in load order, later ones winning |
| LoadProjectResources.LoadProjectResources | src/lib/project/loadProjectResources.ts:35-161 | the method fails when a resource document is `null` (reading its `_resourceType` throws) and otherwise returns what the rows read from the files load into |
| LoadProjectResources.ReadRowsTypes | src/lib/project/loadProjectResources.ts:49-55 | no row has type `t` exactly when no file's `_resourceType` reads as `t` |
| LoadProjectResources.LoadFilesFailsIff | src/lib/project/loadProjectResources.ts:49-125 | loading the files fails exactly when a document is `null`, or no file has type `variables`, or none has type `engineFieldValues` |
| LoadProjectResources.LoadFailsIff | src/lib/project/loadProjectResources.ts:119-125 | the load fails exactly when there is no `variables` row or no `engineFieldValues` row |
| LoadProjectResources.LoadSingletons | src/lib/project/loadProjectResources.ts:119-159 | `variables` and `engineFieldValues` are the data of the first row of their type, and the metadata passes through |
| LoadProjectResources.LoadIgnoresUnknown | src/lib/project/loadProjectResources.ts:144-160 | a row of a type the record does not read changes nothing |
| LoadProjectResources.LoadListsByType | src/lib/project/loadProjectResources.ts:144-155 | each list holds exactly the data of the rows of its type |
| LoadProjectResources.LoadSceneChildren | src/lib/project/loadProjectResources.ts:73-114 | each loaded scene gets exactly the actors and triggers stored under its folder, ascending by `_index` when those are numbers |
| LoadProjectAssets.ToAssetFilenameShape | src/lib/project/loadProjectData.ts:49-55 | `toAssetFilename` throws exactly when the file name is not a string (which includes a `null` or `undefined` element); otherwise the key is `plugin + "/"` when a plugin is set (else nothing), then the file name with every `\` turned into `/` and every other character kept |
| LoadProjectAssets.Collection | src/lib/project/loadProjectData.ts:57-58 | `keyBy` over the stored list (or `[]`) visits an array's elements and nothing for a falsy value (an object's values and a string's characters otherwise) |
| LoadProjectAssets.ToAssetFilenameSeparatorBlind | src/lib/project/loadProjectData.ts:49-55 | two assets whose file names differ only in `/` versus `\` get the same key |
| LoadProjectAssets.LastKeyIndex | src/lib/project/loadProjectData.ts:57-58 | `keyBy` keeps, for each key, the last element carrying it, or none |
| LoadProjectAssets.LastKeyIndexIs | src/lib/project/loadProjectData.ts:57-58 | the element found is the last one whose key matches |
| LoadProjectAssets.IndexByFilenameLast | src/lib/project/loadProjectData.ts:57-58 | `indexByFilename(arr)[f]` is the last element keyed `f`, `undefined` when none is |
| LoadProjectAssets.Matches | src/lib/project/loadProjectData.ts:170-175 | one stored match (possibly `undefined`) per discovered asset |
| LoadProjectAssets.SortByName | src/lib/project/loadProjectData.ts:64-74 | `sortByName` returns -1, 0 or 1: negative iff the upper-cased name of `a` is below that of `b`, positive iff above, 0 iff equal |
| LoadProjectAssets.SortByNameConsistent | src/lib/project/loadProjectData.ts:64-74 | `sortByName` is antisymmetric and transitive on every list |
| LoadProjectAssets.SortByNameInPlace | src/lib/project/loadProjectData.ts:199 | the in-place `.sort(sortByName)` leaves the merged list in stable insertion-sort order |
| LoadProjectAssets.SortedByName | src/lib/project/loadProjectData.ts:64-74 | a list sorted by `sortByName` has ascending upper-cased names |
| LoadProjectAssets.MergeAll | src/lib/project/loadProjectData.ts:172-198 | one merged entry per discovered asset |
| LoadProjectAssets.FixAssets | src/lib/project/loadProjectData.ts:170-199 | each asset list is the discovered assets merged with their matches, then sorted by name |
| LoadProjectAssets.MergeBackground | src/lib/project/loadProjectData.ts:170-198 | a match supplies `id`, and `symbol`/`tileColors`/`autoColor` when defined (else the asset's symbol, `[]`, `false`); an unmatched background gets `tileColors: []`; every other field is the asset's |
| LoadProjectAssets.MergeWithSymbol | src/lib/project/loadProjectData.ts:265-388 | music, sounds, fonts, emotes and tilesets: a match supplies `id` and a defined `symbol` (music also a copy of its `settings`); an unmatched asset is kept as discovered |
| LoadProjectAssets.MergeAvatar | src/lib/project/loadProjectData.ts:331-344 | avatars: a match supplies only the `id` |
| LoadProjectAssets.GetSet4 | src/lib/project/loadProjectData.ts:177-192 | four field assignments in a row: the last one written to a key decides it |
| LoadProjectAssets.GetOverride | src/lib/project/loadProjectData.ts:218-256 | a field of the literal written last takes the written value |
| LoadProjectAssets.GetNotOverridden | src/lib/project/loadProjectData.ts:218-256 | a field the literal does not write keeps its spread value |
| LoadProjectAssets.FixedAssets | src/lib/project/loadProjectData.ts:170-388 | every merged list has one entry per discovered asset, is a permutation of the merged entries and ascends by upper-cased name |
| LoadProjectAssets.Animations | src/lib/project/loadProjectData.ts:239-253 | a normalised state has exactly eight animation slots |
| LoadProjectAssets.MergedSprites | src/lib/project/loadProjectData.ts:208-257 | one merged sprite per discovered sprite |
| LoadProjectAssets.CheckSprite | src/lib/project/loadProjectData.ts:210-216 | a sprite is reported iff it has no match, or the match has no states or no `numTiles`; the id is the stored one when truthy, else the discovered one |
| LoadProjectAssets.PushModifiedIds | src/lib/project/loadProjectData.ts:206-216 | walking the sprites in order pushes exactly the reported ids |
| LoadProjectAssets.FixSprites | src/lib/project/loadProjectData.ts:204-258 | the sprite list is the merged sprites sorted by name, and `modifiedSpriteIds` the reported ids |
| LoadProjectAssets.ModifiedSpriteIdsIff | src/lib/project/loadProjectData.ts:212-216 | an id is in `modifiedSpriteIds` iff some sprite needs a rebuild (no match, no states, or no `numTiles`) and that id is its merged id |
| LoadProjectAssets.SpriteOverridesWin | src/lib/project/loadProjectData.ts:218-256 | `id`, `symbol`, `filename`, `name`, `canvasWidth`, `canvasHeight` and `states` take the values the merge writes, whatever they overwrite |
| LoadProjectAssets.MergedSpriteKeeps | src/lib/project/loadProjectData.ts:218-220 | any other field of a merged sprite is the stored entry's when it has it, else the discovered sprite's |
| LoadProjectAssets.MergedSpriteFields | src/lib/project/loadProjectData.ts:218-256 | the merged sprite has the reported id, the discovered file name, the stored name when non-empty, a 32x32 canvas unless stored, a defined stored symbol, and the normalised states |
| LoadProjectAssets.FixedStateSlots | src/lib/project/loadProjectData.ts:236-254 | every state has exactly 8 animations; slot `k` keeps the stored id and frames when present, else a fresh id and one frame with no tiles |
| LoadProjectAssets.DefaultSpriteState | src/lib/project/loadProjectData.ts:227-235 | without stored states a sprite gets exactly one `multi_movement` state with a fresh id |
| LoadProjectAssets.StoredSpriteStates | src/lib/project/loadProjectData.ts:227-255 | with truthy stored states, the `map` throws exactly when they are not an array or one of them is `null` or `undefined`; otherwise one normalised state per stored one, in order |
| LoadProjectData.AddMissingEntityIdFields | src/lib/project/loadProjectData.ts:391-399 | an entity with a truthy id is returned unchanged; one without gets the fresh id and keeps every other named field |
| LoadProjectData.AddMissingEntityIdIdempotent | src/lib/project/loadProjectData.ts:391-399 | with a non-empty fresh id the result has an id, so applying it twice equals applying it once |
| LoadProjectData.FixEntities | src/lib/project/loadProjectData.ts:415 | `list.map(addMissingEntityId)` keeps the length |
| LoadProjectData.FixedEntitiesHaveIds | src/lib/project/loadProjectData.ts:415 | every fixed entity has an id when `uuid()` never returns `""` |
| LoadProjectData.FixScenes | src/lib/project/loadProjectData.ts:404-410 | one fixed scene per stored scene |
| LoadProjectData.FixedScene | src/lib/project/loadProjectData.ts:404-410 | a fixed scene keeps every field except `actors` and `triggers`, which are the stored ones with missing ids added |
| LoadProjectData.PaletteFields | src/lib/project/loadProjectData.ts:420-465 | each built-in palette has the catalogue's id, name and four colours |
| LoadProjectData.IdsOf | src/lib/project/loadProjectData.ts:471-473 | one id per palette |
| LoadProjectData.FindById | src/lib/project/loadProjectData.ts:471-473 | `find` returns the first palette with the id, or none when no palette has it |
| LoadProjectData.FindByIdOfIds | src/lib/project/loadProjectData.ts:471-473 | the search depends only on the ids |
| LoadProjectData.FindByIdIn | src/lib/project/loadProjectData.ts:471-474 | the search finds a palette iff the id is among the ids |
| LoadProjectData.FindByIdExtended | src/lib/project/loadProjectData.ts:471-478 | pushing palettes does not change the first match of an id already present |
| LoadProjectData.WithDefaultsFields | src/lib/project/loadProjectData.ts:475-481 | marking sets `defaultName`/`defaultColors` to the default's name and colours and keeps every other named field |
| LoadProjectData.BackfilledSnoc | src/lib/project/loadProjectData.ts:469-484 | the backfill of `i + 1` defaults is one more loop turn on the backfill of `i` |
| LoadProjectData.BackfillPalettes | src/lib/project/loadProjectData.ts:467-484 | the loop over the eight defaults produces the backfilled palette list |
| LoadProjectData.IdsOfUpdate | src/lib/project/loadProjectData.ts:474-476 | marking a palette in place keeps the list's ids |
| LoadProjectData.IdsOfAppend | src/lib/project/loadProjectData.ts:478-482 | pushing a palette appends its id |
| LoadProjectData.BackfillStepIds | src/lib/project/loadProjectData.ts:470-483 | a loop turn keeps the ids and appends the default's id exactly when no palette had it |
| LoadProjectData.BackfillStepIdsIn | src/lib/project/loadProjectData.ts:470-483 | a loop turn, seen through the ids, appends the default's id iff it was missing |
| LoadProjectData.IdsOfPrefix | src/lib/project/loadProjectData.ts:471-473 | the ids of a prefix are the prefix of the ids |
| LoadProjectData.BackfilledIdsAgree | src/lib/project/loadProjectData.ts:469-484 | the ids after the backfill are the stored ids with each missing default id appended in catalogue order |
| LoadProjectData.BackfilledIdsPrefix | src/lib/project/loadProjectData.ts:469-484 | the stored ids stay a prefix |
| LoadProjectData.BackfilledIdsHas | src/lib/project/loadProjectData.ts:469-484 | every default id is present afterwards |
| LoadProjectData.BackfilledIdsFrom | src/lib/project/loadProjectData.ts:469-484 | no id appears that is neither stored nor a default's |
| LoadProjectData.BackfilledKeepsIds | src/lib/project/loadProjectData.ts:469-484 | the stored palettes keep their positions and ids |
| LoadProjectData.BackfilledHasDefaults | src/lib/project/loadProjectData.ts:469-484 | after the backfill every built-in palette id is present |
| LoadProjectData.BackfilledIdsOrigin | src/lib/project/loadProjectData.ts:469-484 | every id afterwards is a stored palette's or a default's |
| LoadProjectData.DefaultPalettesDistinct | src/lib/project/loadProjectData.ts:420-465 | the eight built-in ids are distinct |
| LoadProjectData.BackfilledKeepsFields | src/lib/project/loadProjectData.ts:474-477 | a stored palette keeps its `colors` and every other named field except the two defaults |
| LoadProjectData.BackfilledMarksStored | src/lib/project/loadProjectData.ts:471-477 | the first stored palette with a default's id gets that default's name and colours as `defaultName`/`defaultColors` |
| LoadProjectData.SelfMarked | src/lib/project/loadProjectData.ts:478-482 | one marked palette per default |
| LoadProjectData.Map | src/lib/project/loadProjectData.ts:415 | `map` keeps the length |
| LoadProjectData.MapSnoc | src/lib/project/loadProjectData.ts:415 | `map` of a list is `map` of its front plus the image of its last element |
| LoadProjectData.DistinctIdsPrefix | src/lib/project/loadProjectData.ts:420-465 | a prefix of a list with distinct ids has distinct ids |
| LoadProjectData.SelfMarkedMisses | src/lib/project/loadProjectData.ts:471-478 | with distinct ids, the next default is not found among those already pushed |
| LoadProjectData.BackfillStepMiss | src/lib/project/loadProjectData.ts:477-482 | a turn that finds nothing pushes the default marked with its own name and colours |
| LoadProjectData.SelfMarkedSnoc | src/lib/project/loadProjectData.ts:478-482 | the marked defaults grow one default at a time |
| LoadProjectData.BackfilledFromNothing | src/lib/project/loadProjectData.ts:467-484 | with no stored palettes and distinct ids, the result is exactly the defaults in order, each marked with itself |
| LoadProjectData.DefaultPalettesOnly | src/lib/project/loadProjectData.ts:467-484 | a project without palettes gets exactly the eight built-in palettes, in catalogue order |
| LoadProjectData.FileRows | src/lib/project/loadProjectData.ts:92-102 | one row per file found |
| LoadProjectData.RowsInside | src/lib/project/loadProjectData.ts:508-522 | the filter keeps at most the rows it is given |
| LoadProjectData.Filter | src/lib/project/loadProjectData.ts:509-522 | `filter` keeps at most its input |
| LoadProjectData.FilterIff | src/lib/project/loadProjectData.ts:509-522 | `filter` keeps exactly the elements that pass the test |
| LoadProjectData.RowsInsideIff | src/lib/project/loadProjectData.ts:509-522 | a row is linked iff its path relative to the folder is non-empty, does not start with `..` and is not absolute |
| LoadProjectData.ChildIdsIff | src/lib/project/loadProjectData.ts:508-523 | a scene lists exactly the ids of the rows inside its `actors` (or `triggers`) folder |
| LoadProjectData.SceneResourceFields | src/lib/project/loadProjectData.ts:502-525 | a scene resource carries the linked actor and trigger ids, the document's id (or a fresh one) and every other named field of the document |
| LoadProjectData.SceneResources | src/lib/project/loadProjectData.ts:502-525 | one scene resource per scene row |
| LoadProjectData.StoredBackgroundLast | src/lib/project/loadProjectData.ts:539-546 | the stored background is the data of the last row for the file, `undefined` when none |
| LoadProjectData.BackgroundResources | src/lib/project/loadProjectData.ts:543-572 | one background resource per discovered background |
| LoadProjectData.TaggedBackgroundGet | src/lib/project/loadProjectData.ts:549-550 | the tag is the background's own `_resourceType` when it has one, else `"background"`; every other field is the background's |
| LoadProjectData.MatchedBackgroundFields | src/lib/project/loadProjectData.ts:547-565 | a match supplies the id, and the symbol, tile colours and auto-colour when defined, else the background's symbol, `""` and `false` |
| LoadProjectData.UnmatchedBackgroundFields | src/lib/project/loadProjectData.ts:566-570 | an unmatched background gets `tileColors: ""` |
| LoadProjectData.BackgroundResourceFields | src/lib/project/loadProjectData.ts:543-572 | both cases together, for every field |
| LoadProjectData.FixProjectLists | src/lib/project/loadProjectData.ts:167-490 | the merges and fixes run in source order produce the fixed lists and the reported sprite ids |
| LoadProjectData.LoadProject | src/lib/project/loadProjectData.ts:76-607 | the method returns what the specification of a load gives for the same inputs |
| LoadProjectData.ProjectDataOverride | src/lib/project/loadProjectData.ts:577-592 | each overridden key of the project data holds its fixed list |
| LoadProjectData.ProjectDataKeeps | src/lib/project/loadProjectData.ts:579 | every other named key is the migrated document's |
| LoadProjectData.LoadedParts | src/lib/project/loadProjectData.ts:577-606 | a successful load read every document, destructured a non-nullish project document, fixed the stored lists, merged the assets and sorted them by name without a throw, and is the project data, the linked resources and the two flags |
| LoadProjectData.ResourcesFailIff | src/lib/project/loadProjectData.ts:539-575 | the resources can be built iff every background row and every discovered background has a string file name and some row has type `variables` |
| LoadProjectData.FileRowTypes | src/lib/project/loadProjectData.ts:96-100 | each row's type is its document's `_resourceType` |
| LoadProjectData.LoadedFailsIff | src/lib/project/loadProjectData.ts:95-575 | the load fails iff a resource document is `null`, the project document is nullish (its destructuring throws), the migrated document is nullish or one of its scene, custom-event or palette lists (or their entities) cannot be mapped, an asset or stored entry has no string file name, a matched sprite's states cannot be mapped, a merged asset list of two or more entries holds a name that is not a string (`sortByName` throws), a background resource file has no string file name, or no resource file has type `variables` |
| LoadProjectData.FileRowBackgrounds | src/lib/project/loadProjectData.ts:95-100 | a background row without a string file name is the row of such a background resource file |
| LoadProjectData.FixedSorted | src/lib/project/loadProjectData.ts:170-199 | each fixed list has one entry per discovered asset and ascending names |
| LoadProjectData.FixedListsSorted | src/lib/project/loadProjectData.ts:167-389 | every fixed asset list is sorted by name and has one entry per discovered asset |
| LoadProjectData.ProjectDataAssets | src/lib/project/loadProjectData.ts:580-587 | the project data carries the fixed asset lists under their keys |
| LoadProjectData.LoadedAssetsSorted | src/lib/project/loadProjectData.ts:577-592 | every asset list of a loaded project has one merged entry per discovered asset, sorted by name |
| LoadProjectData.LoadedPalettes | src/lib/project/loadProjectData.ts:467-484 | the loaded palettes start with the stored ones (ids added), in place, and hold every built-in id |
| LoadProjectData.LoadedKeeps | src/lib/project/loadProjectData.ts:579 | every field the load does not rewrite is the migrated document's |
| LoadProjectData.LoadedFlags | src/lib/project/loadProjectData.ts:142-143 | `modifiedSpriteIds` holds exactly the ids of sprites without a usable match; `isMigrated` iff version or release changed |
| LoadProjectData.ResourceLists | src/lib/project/loadProjectData.ts:502-600 | `variables` is the first `variables` row's document, with one scene resource per scene row and one background resource per discovered background |
| Save.EncodeResource | src/shared/lib/resources/save.ts:18-40 | the encoded text is a JSON object; its keys and values are stated by `Save.EncodeResourceGet` and their order by `Save.EncodeResourceOrder` |
| Save.EncodeResourceGet | src/shared/lib/resources/save.ts:18-40 | `__dirty` and `__type` are never written; every other key is written iff its value is defined, with that value as JSON; `_resourceType` is the data's own when it has one, else the given type |
| Save.EncodeResourceOrder | src/shared/lib/resources/save.ts:31-36 | `_resourceType` is the first key of the output and `id`, when defined, the second |
| Save.IndexWritten | src/shared/lib/resources/save.ts:85-88 | an actor or trigger written with `_index: i` carries `_index` `i` in its file |
| Save.WriteChildren | src/shared/lib/resources/save.ts:76-92 | the actor (or trigger) loop appends exactly the child entries of the scene, counting only truthy children |
| Save.WriteList | src/shared/lib/resources/save.ts:124-193 | each per-kind loop appends one entry per element, in order, with the path of the element and its index |
| Save.WriteScene | src/shared/lib/resources/save.ts:72-118 | one pass of the scene loop appends the scene's actors, then its triggers, then the scene |
| Save.WriteScenes | src/shared/lib/resources/save.ts:70-119 | the scene loop produces the scene entries of every scene in order |
| Save.WriteAssets | src/shared/lib/resources/save.ts:124-193 | the asset loops append backgrounds, sprites, palettes, scripts, music, sounds, emotes, avatars, tilesets and fonts, in that order |
| Save.BuildResourceExportBuffer | src/shared/lib/resources/save.ts:42-219 | the buffer is the scene entries, then the asset entries, then settings, user settings, variables and engine field values |
| Save.PresentSnoc | src/shared/lib/resources/save.ts:79 | appending a child adds it to the written children iff it is truthy |
| Save.ChildEntriesCount | src/shared/lib/resources/save.ts:77-90 | one entry per truthy child: null children are neither written nor counted |
| Save.ChildEntryAt | src/shared/lib/resources/save.ts:77-90 | the `i`-th truthy child is the `i`-th entry, written with `_index` `i` under the path chosen for index `i` |
| Save.ChildEntriesIndexed | src/shared/lib/resources/save.ts:77-109 | for every `i`, entry `i` is the `i`-th truthy child numbered `i` |
| Save.OneSceneLength | src/shared/lib/resources/save.ts:72-118 | a scene produces one entry plus one per truthy actor and trigger |
| Save.SceneEntriesLength | src/shared/lib/resources/save.ts:70-119 | the scene part of the buffer has the summed size of all scenes |
| Save.ListEntryAt | src/shared/lib/resources/save.ts:124-193 | element `i` of a list is entry `i` of that list's part of the buffer |
| Save.ListEntriesLength | src/shared/lib/resources/save.ts:124-193 | a list produces exactly one entry per element, each the element's own |
| Save.AssetEntriesLength | src/shared/lib/resources/save.ts:124-193 | the asset part has as many entries as the ten lists have elements together |
| Save.ExportBufferLength | src/shared/lib/resources/save.ts:70-218 | buffer length = scenes + truthy actors + truthy triggers + all other list lengths + 4 |
| Save.ExportBufferIgnoresMetadata | src/shared/lib/resources/save.ts:42-219 | changing the metadata does not change the buffer |
| Save.ChildEntriesStored | src/shared/lib/resources/save.ts:56-67 | every child entry lies under `project/` and carries the hash of its own text |
| Save.SceneEntriesStored | src/shared/lib/resources/save.ts:56-67 | the same for every scene entry |
| Save.ListEntriesStored | src/shared/lib/resources/save.ts:56-67 | the same for every list entry |
| Save.AssetEntriesStored | src/shared/lib/resources/save.ts:56-67 | the same for every asset entry |
| Save.EntryStored | src/shared/lib/resources/save.ts:56-67 | `writeResource` puts its entry at `project/` + filename with checksum `hash(data)` |
| Save.SingletonEntriesStored | src/shared/lib/resources/save.ts:195-214 | the four single files are stored the same way |
| Save.ExportBufferChecksums | src/shared/lib/resources/save.ts:56-67 | every buffer entry lies under `project/` and its checksum is the hash of exactly its data |
| Save.SceneFieldsGet | src/shared/lib/resources/save.ts:112-117 | the scene record has `actors`, `triggers` and `tileColors` undefined and every other field of the scene |
| Save.SceneEntryLast | src/shared/lib/resources/save.ts:112-117 | the scene's own entry is the last of its group, after its children, and its file holds no `actors`, `triggers` or `tileColors` |
| Save.SettingsFieldsGet | src/shared/lib/resources/save.ts:195-206 | the two settings records split the keys: user settings only in the second, everything else only in the first |
| Save.UserSettingsSplit | src/shared/lib/resources/save.ts:195-206 | `worldScrollX`/`worldScrollY`/`zoom` are never in `settings.gbsres` and are in `user_settings.gbsres` iff defined, with their values |
| Save.MainSettingsSplit | src/shared/lib/resources/save.ts:195-206 | every other setting is in `settings.gbsres` iff defined, with its value, and never in `user_settings.gbsres` |
| SaveProjectData.StemSuffix | src/lib/project/saveProjectData.ts:64-66 | a name built as `stem + "__" + id` ends in `__id` and gives `stem` back |
| SaveProjectData.EntityToFilePathShape | src/lib/project/saveProjectData.ts:62-67 | `entityToFilePath` ends in `__` + id and its slug holds no whitespace |
| SaveProjectData.ChildToFileNameShape | src/lib/project/saveProjectData.ts:69-83 | actor and trigger file names end in `__` + id, and their slug holds neither whitespace nor `/` or `\` |
| SaveProjectData.IdOfSuffixed | src/lib/project/saveProjectData.ts:64-66 | the id is the text after the last `_` of the file name, when the id has no `_` |
| SaveProjectData.DistinctIdsDistinctNames | src/lib/project/saveProjectData.ts:62-83 | resources with different ids (without `_`) get different file names |
| SaveProjectData.DirOps | src/lib/project/saveProjectData.ts:146 | one directory call per buffered write |
| SaveProjectData.WriteOps | src/lib/project/saveProjectData.ts:339-344 | one file write per buffered entry |
| SaveProjectData.Distinct | src/lib/project/saveProjectData.ts:119-123 | `Array.from(new Set(..))` holds exactly the elements of its input, each once |
| SaveProjectData.Orphans | src/lib/project/saveProjectData.ts:352-354 | the orphans are exactly the existing paths that were not written, and are distinct when the existing paths are |
| SaveProjectData.WriteChildren | src/lib/project/saveProjectData.ts:165-197 | the actor (or trigger) loop requests one write per truthy child, numbered by the writes before it |
| SaveProjectData.WriteScene | src/lib/project/saveProjectData.ts:156-206 | one pass of the scene loop requests the actors, then the triggers, then `scene.gbsres` |
| SaveProjectData.WriteScenes | src/lib/project/saveProjectData.ts:154-207 | the scene loop requests the writes of every scene in order |
| SaveProjectData.WriteList | src/lib/project/saveProjectData.ts:211-310 | each list loop requests one write per element into its folder |
| SaveProjectData.WriteGraphics | src/lib/project/saveProjectData.ts:211-250 | backgrounds, sprites, palettes and scripts are requested in that order |
| SaveProjectData.WriteMedia | src/lib/project/saveProjectData.ts:252-310 | music, sounds, emotes, avatars, tilesets and fonts are requested in that order |
| SaveProjectData.WriteResources | src/lib/project/saveProjectData.ts:135-152 | every `writeResource` call adds its file name to `newResourcePaths`, ensures its directory and pushes exactly one buffer entry; nothing is skipped |
| SaveProjectData.Flush | src/lib/project/saveProjectData.ts:339-344 | the flush writes every buffered entry once, in order |
| SaveProjectData.SaveProjectData | src/lib/project/saveProjectData.ts:85-368 | the buffer is one entry per request; the calls are the directories, the writes, then the project file through the backup writer; the orphans are the scanned paths not written |
| SaveProjectData.SceneRequestsSnoc | src/lib/project/saveProjectData.ts:155-206 | the scene list is built scene by scene, the `i`-th scene numbered `i` |
| SaveProjectData.ChildRequestsIndexed | src/lib/project/saveProjectData.ts:165-197 | only truthy children are written, and the `i`-th of them gets `_index` `i` |
| SaveProjectData.PlainFile | src/lib/project/saveProjectData.ts:171 | a stem and an id without separators make a file name without separators |
| SaveProjectData.ChildFileIsPlain | src/lib/project/saveProjectData.ts:169-172 | an actor or trigger file name holds no separator when its id holds none |
| SaveProjectData.ChildRequestsLayout | src/lib/project/saveProjectData.ts:161-189 | every actor (trigger) file lies directly in its folder |
| SaveProjectData.SceneLayout | src/lib/project/saveProjectData.ts:157-204 | actors go in `<scene folder>/actors`, triggers in `<scene folder>/triggers`, and `scene.gbsres` is written last, in the scene folder |
| SaveProjectData.BufferOfIndexed | src/lib/project/saveProjectData.ts:145-150 | the buffer holds one entry per write, in call order, under the parts folder |
| SaveProjectData.FilenamesIff | src/lib/project/saveProjectData.ts:140 | a name is in `newResourcePaths` iff some write used it |
| SaveProjectData.WrittenNotOrphan | src/lib/project/saveProjectData.ts:352-354 | no written file is an orphan |
| SaveProjectData.DirOpAt | src/lib/project/saveProjectData.ts:146 | the `i`-th directory call ensures the directory of the `i`-th buffered file |
| SaveProjectData.WriteOpAt | src/lib/project/saveProjectData.ts:341-343 | the `i`-th flush write writes the `i`-th buffered entry |
| SaveProjectData.SaveOpAt | src/lib/project/saveProjectData.ts:339-350 | each position of the call list holds a directory call, a file write or the final call |
| SaveProjectData.OpsOrder | src/lib/project/saveProjectData.ts:339-350 | all directory calls come before all file writes, which come before the final call, and no call removes a file |
| SaveProjectData.SaveOpsOrder | src/lib/project/saveProjectData.ts:339-361 | the project file is written last, after every buffered write, and the save removes no file |
| Patch.DeepClean | src/shared/lib/resources/patch.ts:8-23 | the walk returns the value with every own `__dirty: true` deleted at every depth, and sets the flag iff such a key occurred anywhere |
| Patch.StripDirtyResource | src/shared/lib/resources/patch.ts:7-29 | the result is `undefined` iff the resource held no `__dirty: true` at any depth; otherwise it is the cleaned resource, which holds none |
| Patch.BuildPatch | src/shared/lib/resources/patch.ts:36-60 | `paths` is empty, and variables, engine field values, settings and metadata pass through unchanged |
| Patch.NoDirtyAfterClean | src/shared/lib/resources/patch.ts:11-19 | after cleaning no `__dirty: true` remains at any depth |
| Patch.NoDirtyAfterCleanProps | src/shared/lib/resources/patch.ts:11-19 | the same for the cleaned prefix of an object's properties |
| Patch.DirtyInPrefix | src/shared/lib/resources/patch.ts:11-19 | whether a mark is found among the first `n` properties depends only on them |
| Patch.CleanIdentity | src/shared/lib/resources/patch.ts:9-23 | a value without marks is returned exactly as it is |
| Patch.CleanPropsIdentity | src/shared/lib/resources/patch.ts:9-23 | the same for an object's property prefix |
| Patch.CleanKeepsProperty | src/shared/lib/resources/patch.ts:11-19 | every key but a deleted mark stays, with its value cleaned; a `__dirty` whose value is not `true` stays |
| Patch.CleanGet | src/shared/lib/resources/patch.ts:9-24 | only the marks go: every other key of the object is kept, its value cleaned |
| Patch.StripTwice | src/shared/lib/resources/patch.ts:13-27 | stripping an already stripped resource yields `undefined` |
| Patch.StripDirtyResourcesKeepsDirty | src/shared/lib/resources/patch.ts:33-34 | the filter keeps exactly the dirty resources, cleaned, in input order, and none of its results holds a mark |
| Patch.DirtyOnlyMembers | src/shared/lib/resources/patch.ts:33-34 | a value is kept iff it is the cleaned form of a dirty input |
| Patch.DirtyInFromGet | src/shared/lib/resources/patch.ts:13 | an own `__dirty: true` among the first `n` properties is found |
| Patch.MarkedIsDirty | src/shared/lib/resources/patch.ts:13-14 | an object whose own `__dirty` is `true` is dirty |
| Patch.AllDirtyKept | src/shared/lib/resources/patch.ts:33-34 | when every resource is dirty, all are kept, cleaned, in order |
| Guards.Keyed | src/shared/lib/resources/guards.ts:8-30 | the default actor literal has exactly the actor keys, in order |
| Guards.KeyedGet | src/shared/lib/resources/guards.ts:8-30 | each key of the default actor holds its default, and no other key is present |
| Guards.IsActorIsPartial | src/shared/lib/resources/guards.ts:57-192 | every value `isActor` accepts, `isPartialActor` accepts |
| Guards.GuardsRejectNonObjects | src/shared/lib/resources/guards.ts:57-60 | neither guard accepts `null` or a non-object (the same test at 126-129) |
| Guards.DefaultsByGroup | src/shared/lib/resources/guards.ts:18-116 | each string key defaults to `""`, each number key to a number, each boolean key to `false`, each script key to `[]`, `animSpeed` to 15 and `direction` to `"down"`; all are lower-case actor keys |
| Guards.DefaultActorIsActor | src/shared/lib/resources/guards.ts:8-124 | the default actor passes `isActor` |
| Guards.SpreadOverDefaults | src/shared/lib/resources/guards.ts:196-199 | in `{...defaultActor, ...data}` an actor key holds the data's value when the data has it, else the default |
| Guards.SpreadIsActor | src/shared/lib/resources/guards.ts:194-200 | a value that passes `isPartialActor`, spread over the defaults, passes `isActor` |
| Guards.ToActor | src/shared/lib/resources/guards.ts:194-202 | the coerced value is an object that passes `isActor` |
| Guards.ToActorField | src/shared/lib/resources/guards.ts:194-202 | an actor key holds the data's value when the data passed `isPartialActor` and has that key, else the default |
| Guards.ToActorKeepsActor | src/shared/lib/resources/guards.ts:194-202 | an actor already complete keeps every actor field |
| Guards.ToActorResource | src/shared/lib/resources/guards.ts:204-210 | the resource is an object |
| Guards.ToActorResourceType | src/shared/lib/resources/guards.ts:208 | the resource's `_resourceType` is always `"actor"` |
| Guards.ActorKeysLower | src/shared/lib/resources/guards.ts:8-30 | no actor key is an index or an underscored key |
| Guards.ToActorIndex | src/shared/lib/resources/guards.ts:194-202 | `toActor` has `_index` iff the data passed and supplied one |
| Guards.ToActorResourceIndex | src/shared/lib/resources/guards.ts:204-210 | `_index` is 0 unless the data passed `isPartialActor` and supplied its own |
| Guards.ToActorResourceKeeps | src/shared/lib/resources/guards.ts:204-210 | the resource keeps every actor field of `toActor(data)` |
| Guards.ToActorResourceIsActor | src/shared/lib/resources/guards.ts:204-210 | the resource itself passes `isActor` |
| MigrateLegacyProject.EncodeResource | src/lib/project/migrateLegacyProject.ts:24-30 | the encoded resource is an object whose `__dirty` is `true` |
| MigrateLegacyProject.EncodeResourceGet | src/lib/project/migrateLegacyProject.ts:24-30 | every named key of the data keeps its value; `_resourceType` is the given type unless the data carries its own |
| MigrateLegacyProject.EncodeResourceType | src/lib/project/migrateLegacyProject.ts:26-28 | the type tag is the given type unless the data carries its own |
| MigrateLegacyProject.EncodedIsDirty | src/lib/project/migrateLegacyProject.ts:29 | every encoded resource is dirty, so `stripDirtyResource` keeps it, cleaned |
| MigrateLegacyProject.Numbered | src/lib/project/migrateLegacyProject.ts:39-44 | numbering keeps the length of the child list |
| MigrateLegacyProject.NumberedChild | src/lib/project/migrateLegacyProject.ts:39-44 | the `i`-th child gets `_index` `i` (no null-skipping), its type and `__dirty: true` |
| MigrateLegacyProject.SceneRecord | src/lib/project/migrateLegacyProject.ts:36-45 | the scene record is an object marked dirty |
| MigrateLegacyProject.SceneWithChildrenGet | src/lib/project/migrateLegacyProject.ts:37-45 | `{...scene, actors, triggers}` holds the new children and every other key of the scene |
| MigrateLegacyProject.SceneRecordChildren | src/lib/project/migrateLegacyProject.ts:39-44 | the scene's actors and triggers are replaced by their numbered encodings |
| MigrateLegacyProject.SceneRecordType | src/lib/project/migrateLegacyProject.ts:33-37 | the scene is tagged `"scene"` unless it carries its own tag |
| MigrateLegacyProject.EncodeAll | src/lib/project/migrateLegacyProject.ts:58-67 | each encoded list has the length of its input |
| MigrateLegacyProject.EncodeAllAt | src/lib/project/migrateLegacyProject.ts:58-67 | element `i` of an encoded list is input `i`, tagged and marked dirty, with every named key kept |
| MigrateLegacyProject.EncodedListSurvives | src/lib/project/migrateLegacyProject.ts:24-30 | every element of an encoded list survives `stripDirtyResources` (patch.ts:33-34), cleaned, in order |
| MigrateLegacyProject.Migrate | src/lib/project/migrateLegacyProject.ts:56-88 | scenes and backgrounds are element-wise maps through the compressors, with the same length and order |
| MigrateLegacyProject.MigrateSettings | src/lib/project/migrateLegacyProject.ts:76-79 | `settings` is the migrated settings tagged `"settings"` unless they carry their own tag |
| MigrateLegacyProject.MigrateMetadata | src/lib/project/migrateLegacyProject.ts:80-87 | `metadata` is tagged `"project"` and copies name, author, notes, `_version` and `_release` |
| MigrateLegacyProject.MigrateWrappers | src/lib/project/migrateLegacyProject.ts:68-75 | `variables` and `engineFieldValues` are wrapped as `{_resourceType, <field>}` |
| MigrateLegacyProject.MigratedListsSurvivePatch | src/lib/project/migrateLegacyProject.ts:57-67 | the patch of a migrated project keeps every script, sprite, emote, avatar, tileset, font, sound, music and palette list whole |
| Sorting.SortPermutes | src/lib/project/loadProjectData.ts:199 | `list.sort(cmp)` only reorders: the result is a permutation of the input, of the same length |
| Sorting.InsertPermutes | src/lib/project/loadProjectData.ts:199 | one insertion step adds exactly the inserted element to the multiset |
| Sorting.InsertElements | src/lib/project/loadProjectData.ts:199 | every element after an insertion is the inserted one or was already there |
| Sorting.SortedSnoc | src/lib/project/loadProjectData.ts:199 | appending an element that no earlier element compares greater than keeps the list in comparator order |
| Sorting.InsertBeforeLast | src/lib/project/loadProjectData.ts:199 | when the new element goes before the last one, the last one still ends the sorted list |
| Sorting.InsertSorted | src/lib/project/loadProjectData.ts:199 | with a consistent comparator, inserting into a sorted list keeps it sorted |
| Sorting.SortSorted | src/lib/project/loadProjectData.ts:199 | with a consistent comparator (`sortByName` and `sortByIndex` are), the sorted list is in comparator order |
| Sorting.InsertAt | src/lib/project/loadProjectData.ts:199 | the element lands after the last element that does not compare greater than it, so equal elements keep their order (stability) |
| Sorting.SortPrefix | src/lib/project/loadProjectData.ts:199 | sorting one more input element inserts it into the already sorted prefix |
| Sorting.ShiftGreater | src/lib/project/loadProjectResources.ts:76 | the inner loop of an in-place pass moves exactly the elements greater than the new one one place right and returns the gap, leaving the rest of the array alone |
| Sorting.InsertInPlace | src/lib/project/loadProjectResources.ts:76 | one pass turns the prefix `a[..i+1]` into the insertion of `a[i]` into `a[..i]` and leaves the suffix alone |
| Sorting.SortInPlace | src/lib/project/loadProjectResources.ts:76 | `arr.sort(cmp)` reorders the array in place into the stable insertion order of its old contents |
| Text.BackslashesToSlashes | src/lib/project/loadProjectData.ts:49-51 | `replace(/\\/g, "/")` turns every backslash into `/` and changes no other character |
| Text.SeparatorsToUnderscores | src/lib/project/saveProjectData.ts:73 | `replace(/[/\\]/g, "_")` turns both separators into `_` and changes no other character |
| Text.ToUpper | src/lib/project/loadProjectData.ts:65-66 | `toUpperCase` maps each character by itself and keeps the length |
| Text.ToLower | src/lib/project/saveProjectData.ts:65 | `toLocaleLowerCase` maps each character by itself and keeps the length |
| Text.WhitespaceRun | src/lib/project/saveProjectData.ts:66 | the length of the maximal whitespace run at the front: all whitespace up to it and not whitespace at it |
| Text.UnderscoreWhitespaceClean | src/lib/project/saveProjectData.ts:66 | `replace(/\s+/g, "_")` leaves no whitespace and never lengthens the text |
| Text.UnderscoreWhitespaceIdentity | src/lib/project/saveProjectData.ts:66 | text without whitespace is unchanged, so the replacement is idempotent |
| Text.UnderscoreWhitespaceKeepsNoSeparator | src/lib/project/saveProjectData.ts:72-74 | the whitespace replacement introduces no path separator, so an actor file name stays one path component |
| Text.LastIndexFrom | src/lib/project/loadProjectResources.ts:78 | the backwards scan returns an occurrence of the pattern and no later position up to the start holds one |
| Text.LastIndexOf | src/lib/project/loadProjectResources.ts:78 | `lastIndexOf` is -1 exactly when the pattern never occurs; otherwise it is the last occurrence |
| Text.SubstringTo | src/lib/project/loadProjectResources.ts:79 | `substring(0, end)` clamps a negative end to 0 and a long one to the length |
| Text.LessIrreflexive | src/lib/project/loadProjectData.ts:67-70 | string `<` is irreflexive, so `sortByName` returns 0 on equal names |
| Text.LessAsymmetric | src/lib/project/loadProjectData.ts:67-70 | string `<` is asymmetric, so `sortByName(a, b)` and `sortByName(b, a)` have opposite signs |
| Text.LessTransitive | src/lib/project/loadProjectData.ts:67-70 | string `<` is transitive |
| Text.LessTotal | src/lib/project/loadProjectData.ts:67-70 | of two different strings one is less, so `sortByName` returns 0 only on equal upper-cased names |
| Text.CodeUnits | src/lib/project/loadProjectData.ts:67-70 | a character is one UTF-16 unit, or two (a surrogate pair) above U+FFFF |
| Text.CharLessUnits | src/lib/project/loadProjectData.ts:67-70 | comparing two characters by their sort key is comparing their UTF-16 units lexicographically, as string `<` does |
| Text.UnitsLessIrreflexive | src/lib/project/loadProjectData.ts:67-70 | no unit sequence is less than itself |
| Text.UnitKeyInjective | src/lib/project/loadProjectData.ts:67-70 | different characters have different sort keys |
| Paths.DirEnd | src/lib/project/loadProjectResources.ts:108 | the scan of `dirname` ends at -1 or at a position inside the path |
| Paths.DirEndFindsSeparator | src/lib/project/loadProjectResources.ts:108 | the scan stops at the last separator that follows a non-separator character |
| Paths.DirnameOfJoin | src/lib/project/loadProjectResources.ts:108 | `dirname` of `dir/name` is `dir` when `name` is a plain file name |
| Paths.TrimSeparators | src/lib/project/loadProjectData.ts:504-505 | the trimmed directory is a prefix of the directory and ends in no separator |
| Paths.DirEndNone | src/lib/project/loadProjectData.ts:503 | the `dirname` scan finds nothing in a path with no separator past its start |
| Paths.DirnameOfJoinDir | src/lib/project/loadProjectData.ts:503-505 | `path.join(dir, name)` followed by `dirname` gives back `dir`, for `.`, for `/` and for a directory not ending in a separator |
| Paths.ComponentLength | src/lib/project/loadProjectData.ts:510 | the first component runs up to the first `/` |
| Paths.Components | src/lib/project/loadProjectData.ts:510 | the components of a path are non-empty and hold no `/` |
| Paths.CommonPrefix | src/lib/project/loadProjectData.ts:510 | the shared leading components of two paths: equal up to it and different at it |
| Paths.JoinAllEmpty | src/lib/project/loadProjectData.ts:512 | the joined relative path is empty exactly when there are no components |
| Paths.JoinAllStart | src/lib/project/loadProjectData.ts:512 | the joined relative path starts with its first component |
| Paths.JoinAllStartsWithDots | src/lib/project/loadProjectData.ts:512 | the joined relative path starts with `..` exactly when its first component does |
| Paths.RelativelyInsideIff | src/lib/project/loadProjectData.ts:510-512 | the scene linker's test on `relative(dir, p)` holds exactly when `p` lies strictly inside `dir` and its first component below `dir` does not start with `..` |
| Paths.RelativeBelow | src/lib/project/loadProjectData.ts:510 | below a common root, `relative` keeps exactly the components after the root |
| Json.JsonPropsKeys | src/shared/lib/resources/save.ts:31-39 | the written object has distinct keys, each a key of the input |
| Json.JsonPropsHas | src/shared/lib/resources/save.ts:31-39 | a property is written exactly when its value is not `undefined` |
| Json.JsonPropsGet | src/shared/lib/resources/save.ts:31-39 | each written property holds the JSON form of its value |
| Json.JsonGet | src/shared/lib/resources/save.ts:31-39 | `JSON.stringify` of an object is an object that has a key exactly when the key's value is defined and holds that value's JSON form |
| Json.JsonKeepsLeading | src/shared/lib/resources/save.ts:31-39 | defined leading properties (`_resourceType`, `id`) keep their places at the front of the text |
| JsValue.SpreadGet | src/shared/lib/resources/save.ts:35 | `{...ps, ...v}` reads a key from `v` when `v` has it and from `ps` otherwise, and has exactly the keys of both |
| JsValue.SpreadSourceNamed | src/shared/lib/resources/save.ts:35 | the properties a spread copies from a value are exactly its own named properties |

## Left out

- File system and asynchronous I/O are not modelled: glob, `readJson`, `promiseLimit`, `ensureDir` and the file writes. Load reads a list of `(path, document)` rows. Save produces the buffer, a list of file operations and the orphan list.
- Concurrency is not modelled. The writes that `promiseLimit` runs in parallel are modelled in request order.
- `console.log` and `console.time` are not modelled.
- JSON text is not modelled. A written file is modelled as the value it denotes, with its key order. Indentation and escaping are left out. So is the rule that JavaScript enumerates integer-like keys first; the keys involved here are never integer-like.
- Numbers are modelled as integers, so a fractional `_index` or coordinate is outside the model.
- Paths are POSIX only. The Windows separators appear only where the code replaces them.
- Uuids, the MD5 hash (SparkMD5, RFC 1321), the name and path helpers, `stripInvalidPathCharacters`, `compressSceneResource`, `compressBackgroundResource`, `migrateProject`, the asset scanners, the script-event, engine-field and scene-type loaders and `defaultProjectSettings` are parameters. Their code is not part of this model.
- `cloneDictionary` is modelled as the identity on values.
- lodash `groupBy` and `keyBy` are modelled by their documented results. `groupBy` keeps the order of its input, and `keyBy` keeps the last element for each key.
- A missing or falsy stored list is read as `[]`, as `json.x || []` does. A truthy non-array `scenes`, `customEvents` or `palettes` list, a scene whose `actors` or `triggers` is not an array, and truthy non-array sprite `states` make the load fail where `.map` would throw. A truthy non-array asset list is keyed the way lodash `keyBy` walks it: an object's property values, a string's characters, nothing for a number or a boolean.
- lodash `keyBy` treats an object with a numeric `length` property as array-like. The model walks such an object's property values instead.
- LoadProjectData.AddMissingEntityIdFields: on its own the function turns a `null` or `undefined` entity into an object holding only the fresh id, where the source throws on `entity.id`. The load never calls it on one: `Fixable` makes the load fail first.
- LoadProjectResources.SortByIndex: `<` converts a string (or the string form of an array or object) compared with a number, a boolean or `null` by parsing it as a number. Parsing is not modelled, so such a pair compares as neither less nor greater. An object with its own non-function `toString` makes `<` throw; the model uses `"[object Object]"`.
- Paths.Join: joins with one separator and does not normalise, as `path.join` does by dropping `.` segments, resolving `..` and collapsing repeated separators. A directory that `dirname` returned is joined by `JoinDir`, which drops `.` and folds trailing separators. Repeated separators inside a scanned path are kept.
- Patch.DeepClean: works on values and returns the cleaned copy. It does not capture that the source deletes in place and returns the same reference, so aliasing of the input is left out.
- LoadProjectData.BackfillPalettes: the in-place update of a found palette is modelled as a replacement in the palette list. Aliasing of that palette elsewhere is not captured.
- Strict equality (`===`) on objects is modelled as value equality.
- Failures are modelled as a `Failure` with a placeholder message. The text of the JavaScript exception is not modelled.
- LoadProjectAssets.FixAssets, LoadProjectAssets.FixSprites and LoadProjectAssets.SortByName: they sort whatever the names are. The throw of `name.toUpperCase()` on a name that is not a string is decided by `LoadProjectData.Loaded` through `ListsSortable`, so a load with such a list fails and never reaches the sorted result.
- Save.BuildResourceExportBuffer and SaveProjectData.SaveProjectData: a `null` or `undefined` element of a saved list, or nullish `settings`, `variables` or `engineFieldValues`, makes `encodeResource` or the settings split throw in the source. The model does not fail there: it writes an entry holding only `_resourceType`. The editor's resource types rule these values out, and the modelled load never produces them for scenes, actors, triggers and entities.
- LoadProjectAssets.FixSprites: the push onto `modifiedSpriteIds` inside the sprite `map` is modelled as a separate pass over the same sprites in the same order. That pass is `PushModifiedIds`.
- Array.prototype.sort: the engine's algorithm is not visible, so it is modelled as a stable insertion sort. For a consistent comparator every stable sort gives the same order.
- Guards: `isScriptEvent` and `isScriptEventArray` are predicates used by `isActor` and `isPartialActor`. They carry no contract of their own.
- Unicode case mapping is not modelled: `toUpperCase` and `toLocaleLowerCase` map the ASCII letters only.
- `src/lib/project/loadResourceChecksums.ts`, the build runner, the React components and the type-only files are not part of this model.
