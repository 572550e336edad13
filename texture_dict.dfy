/**
 * The texture dictionary of src/globals/texture_dict.rs: a map from texture
 * names to GPU textures, kept in the ECS world, and the loader that fills a
 * fresh dictionary from a manifest of image files.
 *
 * Everything outside the program is a parameter `Env`: whether a path names a
 * file, a path's file stem, what opening and decoding an image file gives,
 * whether the world and context locks are poisoned, and whether the GPU
 * refuses a texture.  A GPU texture is modelled by what `Texture::new_raw`
 * is given: its size, its texel bytes and whether mipmaps are generated.
 */
module TextureDicts {
  import opened Wrappers
  import opened Ints
  import opened Load
  import opened Pixels

  const TEXTURE_DICT_LOAD_ID := "texture_dict"

  /**
   * `TextureHandle` of src/graphics/texture/mod.rs: the name a texture is
   * stored under.  It is declared here because the dictionary is keyed by it.
   */
  datatype TextureHandle = TextureHandle(handle: string)

  /** A GPU texture, as created by `Texture::new_raw([x, y], 0, SAMPLER, mipmaps, texels)`. */
  datatype Texture = Texture(size: (nat, nat), texels: seq<u8>, mipmaps: bool)

  /** What `Reader::open(path)?.decode()` gives for an image file. */
  datatype ImageFile = Unopenable(ioError: string) | Undecodable(imageError: string) | Decoded(image: RgbaImage)

  datatype Env = Env(
    isFile: string -> bool,
    fileStem: string -> Option<string>,
    open: string -> ImageFile,
    worldLockPoisoned: bool,
    contextLockPoisoned: bool,
    /** The error `Texture::new_raw` reports for a texture, if it reports one. */
    creationError: Texture -> Option<string>)

  /** The error behind `?` on opening, decoding or creating a texture. */
  datatype ImageFailure = OpenFailed(ioError: string) | DecodeFailed(imageError: string) | CreationFailed(textureError: string)

  /** `TextureDictError`. */
  datatype TextureDictError =
    | TextureDictFileLoadError(path: string, source: LoadError)
    | PathConversionFailed
    | RGB8ConversionFailed(imageName: string, imagePath: string)
    | WorldWriteLockError

  /** Everything the dictionary loader's task can fail with. */
  datatype DictLoadError = Dict(dictError: TextureDictError) | Image(failure: ImageFailure)

  /** The texture uploaded for a decoded image: its dimensions and its vertically flipped bytes. */
  function RawTexture(img: RgbaImage, mipmaps: bool): Texture
  {
    Texture((img.width, img.height), FlippedBytes(img), mipmaps)
  }

  /**
   * Byte `k` of pixel `(r, c)` of the texture is channel `k` of the image's
   * pixel `(height - 1 - r, c)`: the rows are uploaded bottom to top.
   */
  lemma TexelAt(img: RgbaImage, mipmaps: bool, r: nat, c: nat, k: nat)
    requires WellFormed(img)
    requires r < img.height && c < img.width && k < 4
    ensures |RawTexture(img, mipmaps).texels| == 4 * img.width * img.height
    ensures 4 * (r * img.width + c) + k < |RawTexture(img, mipmaps).texels|
    ensures RawTexture(img, mipmaps).texels[4 * (r * img.width + c) + k] == Channels(img.rows[img.height - 1 - r][c])[k]
  {
    FlippedSizes(img);
    FlippedPixelAt(img, r, c);
    FlippedByteAt(img, r * img.width + c, k);
  }

  /** `TextureDict`: the dictionary stored in the world. */
  class TextureDict {
    var textures: map<string, Texture>

    /** `TextureDict::default()`. */
    constructor()
      ensures textures == map[]
    {
      textures := map[];
    }

    function ContainsKey(key: TextureHandle): (r: bool)
      reads this
      ensures r <==> key.handle in textures
    {
      key.handle in textures
    }

    function Get(key: TextureHandle): (r: Option<Texture>)
      reads this
      ensures r.Some? <==> ContainsKey(key)
      ensures r.Some? ==> r.value == textures[key.handle]
    {
      if key.handle in textures then Some(textures[key.handle]) else None
    }

    /** `insert`: stores `value` under the handle's name and gives back what was there. */
    method Insert(key: TextureHandle, value: Texture) returns (previous: Option<Texture>)
      modifies this
      ensures textures == old(textures)[key.handle := value]
      ensures previous == old(Get(key))
      ensures Get(key) == Some(value)
      ensures forall k :: k != key.handle ==> Get(TextureHandle(k)) == old(Get(TextureHandle(k)))
    {
      previous := Get(key);
      textures := textures[key.handle := value];
    }
  }

  /** `TextureDictJSON`: texture names and the image files they come from. */
  datatype TextureDictJson = TextureDictJson(textures: map<string, string>)

  datatype TextureDictLoader = TextureDictLoader(json: TextureDictJson)

  /**
   * `TextureDictLoader::new`.  `path` is the file path as a string, or `None`
   * when it is not valid Unicode; `loadFile(path, id)` reads and deserialises
   * a manifest whose load id must be `id`.
   */
  function New(path: Option<string>, loadFile: (string, string) -> Result<TextureDictJson, LoadError>): (r: Result<TextureDictLoader, TextureDictError>)
    ensures path.None? ==> r == Err(PathConversionFailed)
    ensures path.Some? ==> (r.Ok? <==> loadFile(path.value, TEXTURE_DICT_LOAD_ID).Ok?)
    ensures path.Some? && r.Ok? ==> r.value.json == loadFile(path.value, TEXTURE_DICT_LOAD_ID).value
    ensures path.Some? && r.Err? ==> r.error == TextureDictFileLoadError(path.value, loadFile(path.value, TEXTURE_DICT_LOAD_ID).error)
  {
    match path
    case None => Err(PathConversionFailed)
    case Some(p) =>
      match loadFile(p, TEXTURE_DICT_LOAD_ID)
      case Ok(json) => Ok(TextureDictLoader(json))
      case Err(e) => Err(TextureDictFileLoadError(p, e))
  }

  /** One pass of the loop body of `load`: open, decode, flip and upload one image. */
  function EntryTexture(env: Env, imagePath: string): (r: Result<Texture, ImageFailure>)
    ensures r.Ok? <==> env.open(imagePath).Decoded? && env.creationError(RawTexture(env.open(imagePath).image, true)).None?
    ensures r.Ok? ==> r.value == RawTexture(env.open(imagePath).image, true)
  {
    match env.open(imagePath)
    case Unopenable(e) => Err(OpenFailed(e))
    case Undecodable(e) => Err(DecodeFailed(e))
    case Decoded(img) =>
      var t := RawTexture(img, true);
      match env.creationError(t)
      case Some(e) => Err(CreationFailed(e))
      case None => Ok(t)
  }

  ghost predicate AllEntriesLoad(env: Env, textures: map<string, string>)
  {
    forall name :: name in textures ==> EntryTexture(env, textures[name]).Ok?
  }

  /** The dictionary a successful load builds: every manifest name with its texture. */
  function LoadedTextures(env: Env, textures: map<string, string>): map<string, Texture>
    requires AllEntriesLoad(env, textures)
  {
    map name | name in textures :: EntryTexture(env, textures[name]).value
  }

  /**
   * The task `load` returns, run on the context.  The manifest is a
   * `HashMap`, whose iteration order is unspecified: the loop takes the
   * entries in an arbitrary order, so a failing load reports the failure of
   * some failing entry, not of a particular one.
   */
  method LoadTextures(loader: TextureDictLoader, env: Env) returns (r: Result<map<string, Texture>, DictLoadError>)
    ensures env.contextLockPoisoned ==> r == Err(Dict(WorldWriteLockError))
    ensures r.Ok? <==> !env.contextLockPoisoned && AllEntriesLoad(env, loader.json.textures)
    ensures r.Ok? ==> r.value.Keys == loader.json.textures.Keys
    ensures r.Ok? ==> r.value == LoadedTextures(env, loader.json.textures)
    ensures r.Err? && !env.contextLockPoisoned ==>
              r.error.Image? && exists name :: name in loader.json.textures && EntryTexture(env, loader.json.textures[name]) == Err(r.error.failure)
  {
    var textures := loader.json.textures;
    if env.contextLockPoisoned {
      return Err(Dict(WorldWriteLockError));
    }
    var dict: map<string, Texture> := map[];
    var remaining := textures.Keys;
    while remaining != {}
      invariant remaining <= textures.Keys
      invariant dict.Keys == textures.Keys - remaining
      invariant forall n :: n in dict ==> EntryTexture(env, textures[n]) == Ok(dict[n])
      decreases |remaining|
    {
      var name :| name in remaining;
      var entry := EntryTexture(env, textures[name]);
      if entry.Err? {
        FailingEntry(env, textures, name, entry.error);
        return Err(Image(entry.error));
      }
      dict := dict[name := entry.value];
      remaining := remaining - {name};
    }
    AllLoaded(env, textures, dict);
    return Ok(dict);
  }

  /** A failing entry makes the load fail, with that entry's failure. */
  lemma FailingEntry(env: Env, textures: map<string, string>, name: string, failure: ImageFailure)
    requires name in textures && EntryTexture(env, textures[name]) == Err(failure)
    ensures !AllEntriesLoad(env, textures)
    ensures exists n :: n in textures && EntryTexture(env, textures[n]) == Err(failure)
  {
  }

  /** A dictionary holding every manifest name with its texture is the one a successful load builds. */
  lemma AllLoaded(env: Env, textures: map<string, string>, dict: map<string, Texture>)
    requires dict.Keys == textures.Keys
    requires forall n :: n in dict ==> EntryTexture(env, textures[n]) == Ok(dict[n])
    ensures AllEntriesLoad(env, textures)
    ensures dict == LoadedTextures(env, textures)
  {
    assert AllEntriesLoad(env, textures) by {
      forall n | n in textures
        ensures EntryTexture(env, textures[n]).Ok?
      {
        assert n in dict;
      }
    }
    var loaded := LoadedTextures(env, textures);
    assert loaded.Keys == dict.Keys;
    forall n | n in dict
      ensures loaded[n] == dict[n]
    {
    }
  }
}
