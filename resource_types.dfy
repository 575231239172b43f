/**
 * The record of all project resources that load produces, save consumes and
 * the patch builder filters.  Every resource is a JSON-shaped value; the
 * compressed and uncompressed forms differ only in the shape of a few
 * fields, which the value model does not need to tell apart.
 */
module ResourceTypes {
  import opened JsValue

  datatype ProjectResources = ProjectResources(
    scenes: seq<Value>,
    scripts: seq<Value>,
    sprites: seq<Value>,
    backgrounds: seq<Value>,
    emotes: seq<Value>,
    avatars: seq<Value>,
    fonts: seq<Value>,
    tilesets: seq<Value>,
    sounds: seq<Value>,
    music: seq<Value>,
    palettes: seq<Value>,
    variables: Value,
    engineFieldValues: Value,
    settings: Value,
    metadata: Value)

  /** A scene as its type declares it: its actors and triggers are arrays. */
  predicate SceneShaped(scene: Value) {
    Prop(scene, "actors").Arr? && Prop(scene, "triggers").Arr?
  }
}
