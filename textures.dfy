/**
 * The texture component loader of src/graphics/texture/mod.rs.  Loading a
 * texture component names the texture, looks the name up in the world's
 * texture dictionary, and only on a miss opens, decodes, flips and uploads
 * the image and caches the texture.  The entity always receives the handle.
 */
module Textures {
  import opened Wrappers
  import opened Load
  import opened Pixels
  import opened TextureDicts

  const TEXTURE_LOAD_ID := "texture"

  /** `TextureJSON`: an optional texture name and the image file. */
  datatype TextureJson = TextureJson(name: Option<string>, imagePath: string)

  /** `TextureLoaderError`, with the variants the loader produces and the GPU's own error. */
  datatype TextureLoaderError =
    | CanNotDeserialize(json: JsonLoad, source: LoadError)
    | PathNotFile(path: string)
    | FileNameDNE(path: string)
    | WorldReadLockError
    | ReaderFailedToOpen(path: string, ioError: string)
    | DecodeError(imagePath: string, imageError: string)
    | ContextWriteLockError
    /** The error of `LumTex::new_raw`, passed on by `?`. */
    | TextureCreationError(textureError: string)

  /** The texture's name: the given one, otherwise the image path's file stem. */
  function TextureName(json: TextureJson, env: Env): (r: Option<string>)
    ensures json.name.Some? ==> r == json.name
    ensures json.name.None? ==> r == env.fileStem(json.imagePath)
  {
    if json.name.Some? then json.name else env.fileStem(json.imagePath)
  }

  /**
   * `load_component` on the world's texture dictionary `textures`: the new
   * dictionary and either the handle given to the entity builder or the error.
   */
  function LoadComponentSpec(json: TextureJson, env: Env, textures: map<string, Texture>)
    : (r: (map<string, Texture>, Result<TextureHandle, TextureLoaderError>))
    ensures !env.isFile(json.imagePath) ==> r == (textures, Err(PathNotFile(json.imagePath)))
    ensures env.isFile(json.imagePath) && TextureName(json, env).None? ==> r == (textures, Err(FileNameDNE(json.imagePath)))
    ensures r.1.Ok? ==> TextureName(json, env).Some? && r.1.value == TextureHandle(TextureName(json, env).value)
    ensures r.1.Err? ==> r.0 == textures
    ensures r.1.Ok? && TextureName(json, env).value in textures ==> r.0 == textures
    ensures r.1.Ok? && TextureName(json, env).value !in textures ==>
              env.open(json.imagePath).Decoded?
              && r.0 == textures[TextureName(json, env).value := RawTexture(env.open(json.imagePath).image, false)]
  {
    var path := json.imagePath;
    if !env.isFile(path) then (textures, Err(PathNotFile(path)))
    else match TextureName(json, env)
      case None => (textures, Err(FileNameDNE(path)))
      case Some(name) =>
        if env.worldLockPoisoned then (textures, Err(WorldReadLockError))
        else if name in textures then (textures, Ok(TextureHandle(name)))
        else match env.open(path)
          case Unopenable(e) => (textures, Err(ReaderFailedToOpen(path, e)))
          case Undecodable(e) => (textures, Err(DecodeError(path, e)))
          case Decoded(img) =>
            if env.contextLockPoisoned then (textures, Err(ContextWriteLockError))
            else
              var texture := RawTexture(img, false);
              match env.creationError(texture)
              case Some(e) => (textures, Err(TextureCreationError(e)))
              case None => (textures[name := texture], Ok(TextureHandle(name)))
  }

  /** The steps after the lookup that a cache miss needs to succeed. */
  ghost predicate LoadsOnMiss(json: TextureJson, env: Env)
  {
    env.open(json.imagePath).Decoded? && !env.contextLockPoisoned
    && env.creationError(RawTexture(env.open(json.imagePath).image, false)).None?
  }

  lemma LoadComponentSucceeds(json: TextureJson, env: Env, textures: map<string, Texture>)
    ensures LoadComponentSpec(json, env, textures).1.Ok? <==>
              env.isFile(json.imagePath) && TextureName(json, env).Some? && !env.worldLockPoisoned
              && (TextureName(json, env).value in textures || LoadsOnMiss(json, env))
  {
  }

  /**
   * On a cache hit the image file, the context lock and the GPU are never
   * consulted: two environments that agree on the checks before the lookup
   * give the same result.
   */
  lemma CacheHitIgnoresImage(json: TextureJson, env: Env, env': Env, textures: map<string, Texture>)
    requires env.isFile == env'.isFile && env.fileStem == env'.fileStem && env.worldLockPoisoned == env'.worldLockPoisoned
    requires TextureName(json, env).Some? && TextureName(json, env).value in textures
    ensures LoadComponentSpec(json, env, textures) == LoadComponentSpec(json, env', textures)
    ensures env.isFile(json.imagePath) && !env.worldLockPoisoned ==>
              LoadComponentSpec(json, env, textures) == (textures, Ok(TextureHandle(TextureName(json, env).value)))
  {
  }

  /**
   * `load_deserializable_from_json(value, TEXTURE_LOAD_ID)` with its error
   * wrapped, as `from_json` and `set_value` do it; `deserialize` reads a
   * `TextureJSON` from an envelope whose load id must be the given one.
   */
  function Deserialize(value: JsonLoad, deserialize: (JsonLoad, string) -> Result<TextureJson, LoadError>)
    : (r: Result<TextureJson, TextureLoaderError>)
    ensures r.Ok? <==> deserialize(value, TEXTURE_LOAD_ID).Ok?
    ensures r.Ok? ==> r.value == deserialize(value, TEXTURE_LOAD_ID).value
    ensures r.Err? ==> r.error == CanNotDeserialize(value, deserialize(value, TEXTURE_LOAD_ID).error)
  {
    match deserialize(value, TEXTURE_LOAD_ID)
    case Ok(json) => Ok(json)
    case Err(e) => Err(CanNotDeserialize(value, e))
  }

  /** `TextureLoader`. */
  class TextureLoader {
    var json: TextureJson

    /** `from_json` after a successful deserialisation. */
    constructor(json: TextureJson)
      ensures this.json == json
    {
      this.json := json;
    }

    /** `load_component`, on the texture dictionary fetched from the world. */
    method LoadComponent(dict: TextureDict, env: Env) returns (r: Result<TextureHandle, TextureLoaderError>)
      modifies dict
      ensures (dict.textures, r) == LoadComponentSpec(json, env, old(dict.textures))
    {
      var path := json.imagePath;
      if !env.isFile(path) {
        return Err(PathNotFile(path));
      }
      var name := TextureName(json, env);
      if name.None? {
        return Err(FileNameDNE(path));
      }
      if env.worldLockPoisoned {
        return Err(WorldReadLockError);
      }
      var handle := TextureHandle(name.value);
      var cached := dict.ContainsKey(handle);
      if !cached {
        match env.open(path)
        case Unopenable(e) =>
          return Err(ReaderFailedToOpen(path, e));
        case Undecodable(e) =>
          return Err(DecodeError(path, e));
        case Decoded(img) =>
          if env.contextLockPoisoned {
            return Err(ContextWriteLockError);
          }
          var texture := RawTexture(img, false);
          var failure := env.creationError(texture);
          if failure.Some? {
            return Err(TextureCreationError(failure.value));
          }
          var _ := dict.Insert(handle, texture);
      }
      return Ok(handle);
    }

    /** `set_value`: a failed deserialisation leaves `json` as it was. */
    method SetValue(newValue: JsonLoad, deserialize: (JsonLoad, string) -> Result<TextureJson, LoadError>)
      returns (r: Result<(), TextureLoaderError>)
      modifies this
      ensures r.Ok? <==> Deserialize(newValue, deserialize).Ok?
      ensures r.Ok? ==> json == Deserialize(newValue, deserialize).value
      ensures r.Err? ==> json == old(json) && r.error == Deserialize(newValue, deserialize).error
    {
      var parsed := Deserialize(newValue, deserialize);
      if parsed.Err? {
        return Err(parsed.error);
      }
      json := parsed.value;
      return Ok(());
    }

    function GetComponentName(): (r: string)
      ensures r == TEXTURE_LOAD_ID && r == "texture"
    {
      TEXTURE_LOAD_ID
    }
  }
}
