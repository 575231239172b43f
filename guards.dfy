/**
 * The actor guards: `isActor` checks that an unknown value has every actor
 * field with the right type, `isPartialActor` checks only the fields that
 * are present, and `toActor` / `toActorResource` coerce an unknown value to
 * an actor by spreading it over the default actor.
 */
module Guards {
  import opened JsValue

  const StringProps: seq<string> := ["id", "name", "symbol", "spriteSheetId", "paletteId", "collisionGroup"]
  const NumberProps: seq<string> := ["x", "y", "frame", "moveSpeed"]
  const BooleanProps: seq<string> := ["animate", "isPinned", "persistent"]
  const ScriptKeys: seq<string> := ["script", "startScript", "updateScript", "hit1Script", "hit2Script", "hit3Script"]
  const Directions: seq<Value> := [Str("up"), Str("down"), Str("left"), Str("right")]

  /** The keys of the default actor, in the order of its literal. */
  const ActorKeys: seq<string> :=
    ["id", "name", "symbol", "x", "y", "spriteSheetId", "paletteId", "frame", "animate", "direction",
     "moveSpeed", "animSpeed", "isPinned", "persistent", "collisionGroup",
     "script", "startScript", "updateScript", "hit1Script", "hit2Script", "hit3Script"]

  /** The value the default actor gives each of its keys. */
  function DefaultField(k: string): Value {
    if k in StringProps then Str("")
    else if k == "moveSpeed" then Num(1)
    else if k in NumberProps then Num(0)
    else if k in BooleanProps then Bool(false)
    else if k == "direction" then Str("down")
    else if k == "animSpeed" then Num(15)
    else if k in ScriptKeys then Arr([])
    else Undefined
  }

  /** The record with the given keys, in order, each holding `f` of its key. */
  function Keyed(keys: seq<string>, f: string -> Value): (ps: Props)
    ensures Keys(ps) == keys
  {
    seq(|keys|, i requires 0 <= i < |keys| => (keys[i], f(keys[i])))
  }

  /** `defaultActor` */
  const DefaultActor: Props := Keyed(ActorKeys, DefaultField)

  /** `isScriptEvent`: an object with string `id` and `command`, and optional `symbol`, `args` and `children` of the right kind. */
  predicate IsScriptEvent(v: Value) {
    && IsObjectLike(v)
    && TypeOf(Prop(v, "id")) == "string"
    && TypeOf(Prop(v, "command")) == "string"
    && (TypeOf(Prop(v, "symbol")) == "undefined" || TypeOf(Prop(v, "symbol")) == "string")
    && (TypeOf(Prop(v, "args")) == "undefined" || TypeOf(Prop(v, "args")) == "object")
    && (TypeOf(Prop(v, "children")) == "undefined" || TypeOf(Prop(v, "children")) == "object")
  }

  /** `isScriptEventArray` */
  predicate IsScriptEventArray(v: Value) {
    v.Arr? && forall i | 0 <= i < |v.elems| :: IsScriptEvent(v.elems[i])
  }

  /** `isActor` */
  predicate IsActor(v: Value) {
    && IsObjectLike(v)
    && (forall k | k in StringProps :: TypeOf(Prop(v, k)) == "string")
    && (forall k | k in NumberProps :: TypeOf(Prop(v, k)) == "number")
    && (forall k | k in BooleanProps :: TypeOf(Prop(v, k)) == "boolean")
    && (TypeOf(Prop(v, "animSpeed")) == "number" || Prop(v, "animSpeed") == Null)
    && Prop(v, "direction") in Directions
    && (forall k | k in ScriptKeys :: IsScriptEventArray(Prop(v, k)))
  }

  /** `isPartialActor`: the same tests, applied only to the keys `v` has. */
  predicate IsPartialActor(v: Value) {
    && IsObjectLike(v)
    && (forall k | k in StringProps :: Has(v, k) ==> TypeOf(Prop(v, k)) == "string")
    && (forall k | k in NumberProps :: Has(v, k) ==> TypeOf(Prop(v, k)) == "number")
    && (forall k | k in BooleanProps :: Has(v, k) ==> TypeOf(Prop(v, k)) == "boolean")
    && (Has(v, "animSpeed") ==> TypeOf(Prop(v, "animSpeed")) == "number" || Prop(v, "animSpeed") == Null)
    && (Has(v, "direction") ==> Prop(v, "direction") in Directions)
    && (forall k | k in ScriptKeys :: Has(v, k) ==> IsScriptEventArray(Prop(v, k)))
  }

  /** A complete actor is in particular a partial one. */
  lemma IsActorIsPartial(v: Value)
    requires IsActor(v)
    ensures IsPartialActor(v)
  {
  }

  /** Neither guard accepts `null` or a value that is not an object. */
  lemma GuardsRejectNonObjects(v: Value)
    requires !IsObjectLike(v)
    ensures !IsActor(v) && !IsPartialActor(v)
  {
  }

  lemma {:induction false} KeyedGet(keys: seq<string>, f: string -> Value, k: string)
    ensures Get(Keyed(keys, f), k) == if k in keys then f(k) else Undefined
    decreases |keys|
  {
    if keys != [] {
      var n := |keys| - 1;
      assert Keyed(keys, f)[..n] == Keyed(keys[..n], f);
      assert keys == keys[..n] + [keys[n]];
      KeyedGet(keys[..n], f, k);
    }
  }

  /** Every actor key starts with a lower-case letter, so it is neither an index nor an underscored key. */
  predicate LowerNamed(k: string) {
    k != [] && 'a' <= k[0] <= 'z'
  }

  /** The default of each key, by the group of keys `isActor` tests it with. */
  lemma DefaultsByGroup(k: string)
    ensures k in StringProps ==> k in ActorKeys && LowerNamed(k) && DefaultField(k) == Str("")
    ensures k in NumberProps ==> k in ActorKeys && LowerNamed(k) && TypeOf(DefaultField(k)) == "number"
    ensures k in BooleanProps ==> k in ActorKeys && LowerNamed(k) && DefaultField(k) == Bool(false)
    ensures k in ScriptKeys ==> k in ActorKeys && LowerNamed(k) && DefaultField(k) == Arr([])
    ensures k == "animSpeed" ==> k in ActorKeys && LowerNamed(k) && DefaultField(k) == Num(15)
    ensures k == "direction" ==> k in ActorKeys && LowerNamed(k) && DefaultField(k) == Str("down")
  {
  }

  /** Every default passes the test `isActor` applies to its key. */
  lemma DefaultActorIsActor()
    ensures IsActor(Obj(DefaultActor))
  {
    var d := Obj(DefaultActor);
    forall k | k in StringProps ensures TypeOf(Prop(d, k)) == "string" {
      DefaultsByGroup(k);
      KeyedGet(ActorKeys, DefaultField, k);
    }
    forall k | k in NumberProps ensures TypeOf(Prop(d, k)) == "number" {
      DefaultsByGroup(k);
      KeyedGet(ActorKeys, DefaultField, k);
    }
    forall k | k in BooleanProps ensures TypeOf(Prop(d, k)) == "boolean" {
      DefaultsByGroup(k);
      KeyedGet(ActorKeys, DefaultField, k);
    }
    forall k | k in ScriptKeys ensures IsScriptEventArray(Prop(d, k)) {
      DefaultsByGroup(k);
      KeyedGet(ActorKeys, DefaultField, k);
    }
    DefaultsByGroup("animSpeed");
    DefaultsByGroup("direction");
    KeyedGet(ActorKeys, DefaultField, "animSpeed");
    KeyedGet(ActorKeys, DefaultField, "direction");
  }

  /** `{...defaultActor, ...data}`: an actor key holds the data's own value when it has one, else the default. */
  lemma SpreadOverDefaults(data: Value, k: string)
    requires k in ActorKeys && LowerNamed(k)
    ensures Prop(Obj(Spread(DefaultActor, data)), k) == if Has(data, k) then Prop(data, k) else DefaultField(k)
  {
    SpreadSourceNamed(data, k);
    GetSetAll(DefaultActor, SpreadSource(data), k);
    KeyedGet(ActorKeys, DefaultField, k);
  }

  /** A partial actor spread over the defaults passes every test of `isActor`. */
  lemma SpreadIsActor(data: Value)
    requires IsPartialActor(data)
    ensures IsActor(Obj(Spread(DefaultActor, data)))
  {
    var r := Obj(Spread(DefaultActor, data));
    forall k | k in StringProps ensures TypeOf(Prop(r, k)) == "string" {
      DefaultsByGroup(k);
      SpreadOverDefaults(data, k);
    }
    forall k | k in NumberProps ensures TypeOf(Prop(r, k)) == "number" {
      DefaultsByGroup(k);
      SpreadOverDefaults(data, k);
    }
    forall k | k in BooleanProps ensures TypeOf(Prop(r, k)) == "boolean" {
      DefaultsByGroup(k);
      SpreadOverDefaults(data, k);
    }
    forall k | k in ScriptKeys ensures IsScriptEventArray(Prop(r, k)) {
      DefaultsByGroup(k);
      SpreadOverDefaults(data, k);
    }
    DefaultsByGroup("animSpeed");
    DefaultsByGroup("direction");
    SpreadOverDefaults(data, "animSpeed");
    SpreadOverDefaults(data, "direction");
  }

  /**
   * `toActor`: the data spread over the default actor when it passes
   * `isPartialActor`, else the default actor; either way an actor.
   */
  function ToActor(data: Value): (r: Value)
    ensures r.Obj? && IsActor(r)
  {
    if IsPartialActor(data) then
      SpreadIsActor(data);
      Obj(Spread(DefaultActor, data))
    else
      DefaultActorIsActor();
      Obj(DefaultActor)
  }

  /**
   * Each actor key of the coerced actor holds the data's value when the data
   * passed `isPartialActor` and had that key, else the default.
   */
  lemma ToActorField(data: Value, k: string)
    requires k in ActorKeys && LowerNamed(k)
    ensures Prop(ToActor(data), k) == if IsPartialActor(data) && Has(data, k) then Prop(data, k) else DefaultField(k)
  {
    if IsPartialActor(data) {
      SpreadOverDefaults(data, k);
    } else {
      KeyedGet(ActorKeys, DefaultField, k);
    }
  }

  /** An actor that is already complete comes back with every actor field unchanged. */
  lemma ToActorKeepsActor(data: Value, k: string)
    requires IsActor(data) && data.Obj? && k in ActorKeys && LowerNamed(k)
    requires Has(data, k)
    ensures Prop(ToActor(data), k) == Prop(data, k)
  {
    IsActorIsPartial(data);
    ToActorField(data, k);
  }

  /** `toActorResource`: `{_index: 0, ...toActor(data), _resourceType: "actor"}`. */
  function ToActorResource(data: Value): (r: Value)
    ensures r.Obj?
  {
    Obj(Set(Spread([("_index", Num(0))], ToActor(data)), "_resourceType", Str("actor")))
  }

  /** The resource is always of type `"actor"`. */
  lemma ToActorResourceType(data: Value)
    ensures Prop(ToActorResource(data), "_resourceType") == Str("actor")
  {
    var base := Spread([("_index", Num(0))], ToActor(data));
    GetSet(base, "_resourceType", Str("actor"), "_resourceType");
  }

  lemma ActorKeysLower()
    ensures forall k | k in ActorKeys :: LowerNamed(k)
  {
  }

  /** `toActor` has an `_index` only when the data passed and supplied one. */
  lemma ToActorIndex(data: Value)
    ensures HasKey(ToActor(data).props, "_index") <==> IsPartialActor(data) && Has(data, "_index")
    ensures Get(ToActor(data).props, "_index") == if IsPartialActor(data) then Prop(data, "_index") else Undefined
  {
    ActorKeysLower();
    assert "_index" !in ActorKeys;
    KeyedGet(ActorKeys, DefaultField, "_index");
    if IsPartialActor(data) {
      SpreadSourceNamed(data, "_index");
      GetSetAll(DefaultActor, SpreadSource(data), "_index");
      KeysSetAll(DefaultActor, SpreadSource(data), "_index");
      if data.Obj? && !HasKey(data.props, "_index") {
        GetMissing(data.props, "_index");
      }
    }
  }

  /** The resource's `_index` is 0 unless the data supplies one (and passes `isPartialActor`). */
  lemma ToActorResourceIndex(data: Value)
    ensures Prop(ToActorResource(data), "_index") ==
              if IsPartialActor(data) && Has(data, "_index") then Prop(data, "_index") else Num(0)
  {
    var a := ToActor(data);
    var base := Spread([("_index", Num(0))], a);
    GetSet(base, "_resourceType", Str("actor"), "_index");
    SpreadGet([("_index", Num(0))], a, "_index");
    ToActorIndex(data);
  }

  /** The two keys the resource adds are not actor keys: every actor key keeps its value. */
  lemma ToActorResourceKeeps(data: Value, k: string)
    requires LowerNamed(k)
    ensures Prop(ToActorResource(data), k) == Prop(ToActor(data), k)
  {
    var a := ToActor(data);
    var base := Spread([("_index", Num(0))], a);
    GetSet(base, "_resourceType", Str("actor"), k);
    SpreadGet([("_index", Num(0))], a, k);
    if !HasKey(a.props, k) {
      GetMissing(a.props, k);
    }
  }

  /** The resource is itself an actor. */
  lemma ToActorResourceIsActor(data: Value)
    ensures IsActor(ToActorResource(data))
  {
    var a := ToActor(data);
    var r := ToActorResource(data);
    assert IsActor(a);
    forall k | k in StringProps ensures TypeOf(Prop(r, k)) == "string" {
      DefaultsByGroup(k);
      ToActorResourceKeeps(data, k);
    }
    forall k | k in NumberProps ensures TypeOf(Prop(r, k)) == "number" {
      DefaultsByGroup(k);
      ToActorResourceKeeps(data, k);
    }
    forall k | k in BooleanProps ensures TypeOf(Prop(r, k)) == "boolean" {
      DefaultsByGroup(k);
      ToActorResourceKeeps(data, k);
    }
    forall k | k in ScriptKeys ensures IsScriptEventArray(Prop(r, k)) {
      DefaultsByGroup(k);
      ToActorResourceKeeps(data, k);
    }
    DefaultsByGroup("animSpeed");
    DefaultsByGroup("direction");
    ToActorResourceKeeps(data, "animSpeed");
    ToActorResourceKeeps(data, "direction");
  }
}
