/**
 * The transform component of src/graphics/transform.rs and its loader, whose
 * `set_value` checks the envelope's load id before deserialising and leaves
 * the loader as it was on either failure.
 */
module Transforms {
  import opened Wrappers
  import opened Load

  const TRANSFORM_LOAD_ID := "transform"

  /** glam's `Vec2`. */
  datatype Vec2 = Vec2(x: real, y: real)

  /** `Transform`. */
  datatype Transform = Transform(translation: Vec2, scale: Vec2, rotation: real)

  /** `TransformJSON`: vectors written as pairs. */
  datatype TransformJson = TransformJson(translation: (real, real), scale: (real, real), rotation: real)

  /** `TransformLoaderError`. */
  datatype TransformLoaderError =
    | DeserializeError(source: LoadError, json: JsonLoad)
    | LoadTypeIDError(actual: string, expected: string)

  /**
   * `Transform::default()`: no translation, no rotation, and a zero scale
   * (not the identity scale), so a default transform collapses what it is
   * applied to.
   */
  function DefaultTransform(): (t: Transform)
    ensures t.translation == Vec2(0.0, 0.0) && t.scale == Vec2(0.0, 0.0) && t.rotation == 0.0
    ensures t.scale != Vec2(1.0, 1.0)
  {
    Transform(Vec2(0.0, 0.0), Vec2(0.0, 0.0), 0.0)
  }

  /** `Vec2::from([x, y])`. */
  function Vec2From(p: (real, real)): Vec2
  {
    Vec2(p.0, p.1)
  }

  /** The transform a manifest describes, as `load_component` builds it. */
  function TransformFrom(json: TransformJson): (t: Transform)
    ensures t.translation.x == json.translation.0 && t.translation.y == json.translation.1
    ensures t.scale.x == json.scale.0 && t.scale.y == json.scale.1
    ensures t.rotation == json.rotation
  {
    Transform(Vec2From(json.translation), Vec2From(json.scale), json.rotation)
  }

  /** The manifest of a transform: `TransformFrom`'s inverse. */
  function TransformJsonOf(t: Transform): TransformJson
  {
    TransformJson((t.translation.x, t.translation.y), (t.scale.x, t.scale.y), t.rotation)
  }

  /** Every transform has exactly one manifest, so loading loses nothing. */
  lemma TransformRoundTrip(json: TransformJson, t: Transform)
    ensures TransformJsonOf(TransformFrom(json)) == json
    ensures TransformFrom(TransformJsonOf(t)) == t
    ensures TransformFrom(TransformJsonOf(DefaultTransform())) == DefaultTransform()
  {
  }

  /**
   * `from_json`: `deserialize(value, id)` is `load_deserializable_from_json`,
   * whose error is wrapped together with the envelope.
   */
  function FromJson(json: JsonLoad, deserialize: (JsonLoad, string) -> Result<TransformJson, LoadError>)
    : (r: Result<TransformJson, TransformLoaderError>)
    ensures r.Ok? <==> deserialize(json, TRANSFORM_LOAD_ID).Ok?
    ensures r.Ok? ==> r.value == deserialize(json, TRANSFORM_LOAD_ID).value
    ensures r.Err? ==> r.error == DeserializeError(deserialize(json, TRANSFORM_LOAD_ID).error, json)
  {
    match deserialize(json, TRANSFORM_LOAD_ID)
    case Ok(v) => Ok(v)
    case Err(e) => Err(DeserializeError(e, json))
  }

  /** `TransformLoader`. */
  class TransformLoader {
    var json: TransformJson

    /** `from_json` after a successful deserialisation. */
    constructor(json: TransformJson)
      ensures this.json == json
    {
      this.json := json;
    }

    /** `load_component`: the component given to the entity builder. */
    function LoadComponent(): (t: Transform)
      reads this
      ensures TransformJsonOf(t) == json
    {
      TransformRoundTrip(json, DefaultTransform());
      TransformFrom(json)
    }

    /**
     * `set_value`: an envelope for another component is refused with both
     * ids; one that does not deserialise is refused with its error; either
     * way `json` keeps its value.
     */
    method SetValue(newValue: JsonLoad, deserialize: (JsonLoad, string) -> Result<TransformJson, LoadError>)
      returns (r: Result<(), TransformLoaderError>)
      modifies this
      ensures newValue.loadTypeId != TRANSFORM_LOAD_ID ==> r == Err(LoadTypeIDError(newValue.loadTypeId, "transform"))
      ensures newValue.loadTypeId == TRANSFORM_LOAD_ID ==> (r.Ok? <==> FromJson(newValue, deserialize).Ok?)
      ensures newValue.loadTypeId == TRANSFORM_LOAD_ID && r.Err? ==> r.error == FromJson(newValue, deserialize).error
      ensures r.Ok? ==> json == deserialize(newValue, TRANSFORM_LOAD_ID).value
      ensures r.Err? ==> json == old(json)
    {
      if newValue.loadTypeId == TRANSFORM_LOAD_ID {
        var parsed := FromJson(newValue, deserialize);
        if parsed.Err? {
          return Err(parsed.error);
        }
        json := parsed.value;
        return Ok(());
      } else {
        return Err(LoadTypeIDError(newValue.loadTypeId, TRANSFORM_LOAD_ID));
      }
    }

    function GetComponentName(): (r: string)
      ensures r == TRANSFORM_LOAD_ID && r == "transform"
    {
      TRANSFORM_LOAD_ID
    }
  }
}
