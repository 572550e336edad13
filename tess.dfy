/**
 * The tessellation loader of src/graphics/tess.rs.  `load` reads a manifest
 * of optional tessellation settings and applies the present ones to a fresh
 * builder; `load_default` builds the quad every sprite is drawn on.  The
 * deferred task's body is modelled as a function of the world outside:
 * reading the manifest, the two locks, and luminance's `build`.
 */
module Tessellations {
  import opened Wrappers
  import opened Load
  import L = Luminance

  const TESS_LOAD_ID := "tess"

  datatype ModeDef = Point | Line | LineStrip | Triangle | TriangleFan | TriangleStrip | Patch(size: nat)

  /** `TessJSON`: every setting optional. */
  datatype TessJson = TessJson(
    mode: Option<ModeDef>,
    renderVerticesLen: Option<nat>,
    renderInstancesLen: Option<nat>,
    primitiveRestartIndex: Option<nat>,
    attributes: Option<seq<nat>>,
    instanceAttributes: Option<seq<nat>>)

  datatype TessLoader = TessLoader(filePath: string)

  datatype TessLoadError =
    | TessBuildError(tessError: string)
    | DeserializeError(source: LoadError, filePath: string)
    | ContextWriteError
    | WorldWriteLockError

  datatype TessEnv<T> = TessEnv(
    /** `load_deserializable_from_file(path, id)` into `TessJSON`. */
    loadFile: (string, string) -> Result<TessJson, LoadError>,
    worldLockPoisoned: bool,
    contextLockPoisoned: bool,
    /** luminance's `build()` on the settings applied. */
    build: L.TessBuilder -> Result<T, string>)

  function ModeFrom(m: ModeDef): (r: L.Mode)
    ensures ModeDefOf(r) == m
  {
    match m
    case Point => L.Point
    case Line => L.Line
    case LineStrip => L.LineStrip
    case Triangle => L.Triangle
    case TriangleFan => L.TriangleFan
    case TriangleStrip => L.TriangleStrip
    case Patch(p) => L.Patch(p)
  }

  function ModeDefOf(m: L.Mode): ModeDef
  {
    match m
    case Point => Point
    case Line => Line
    case LineStrip => LineStrip
    case Triangle => Triangle
    case TriangleFan => TriangleFan
    case TriangleStrip => TriangleStrip
    case Patch(p) => Patch(p)
  }

  /** The conversion keeps the variant and a patch's size: it is a bijection. */
  lemma ModeBijective(d: ModeDef, m: L.Mode)
    ensures ModeDefOf(ModeFrom(d)) == d
    ensures ModeFrom(ModeDefOf(m)) == m
    ensures d.Patch? ==> ModeFrom(d) == L.Patch(d.size)
  {
  }

  /** The builder after the three optional settings of the manifest. */
  function ConfiguredBuilder(json: TessJson): (b: L.TessBuilder)
    ensures json.mode.None? ==> b.mode.None?
    ensures json.mode.Some? ==> b.mode == Some(ModeFrom(json.mode.value))
    ensures b.renderVertexNb == json.renderVerticesLen
    ensures b.renderInstanceNb == json.renderInstancesLen
  {
    var b := L.NewTess;
    var b := if json.mode.Some? then b.(mode := Some(ModeFrom(json.mode.value))) else b;
    var b := if json.renderVerticesLen.Some? then b.(renderVertexNb := json.renderVerticesLen) else b;
    if json.renderInstancesLen.Some? then b.(renderInstanceNb := json.renderInstancesLen) else b
  }

  /** The body of the task `load` returns. */
  function LoadSpec<T>(loader: TessLoader, env: TessEnv<T>): (r: Result<T, TessLoadError>)
    ensures env.loadFile(loader.filePath, TESS_LOAD_ID).Err? ==>
              r == Err(DeserializeError(env.loadFile(loader.filePath, TESS_LOAD_ID).error, loader.filePath))
    ensures env.loadFile(loader.filePath, TESS_LOAD_ID).Ok? && env.worldLockPoisoned ==> r == Err(WorldWriteLockError)
    ensures env.loadFile(loader.filePath, TESS_LOAD_ID).Ok? && !env.worldLockPoisoned && env.contextLockPoisoned ==>
              r == Err(ContextWriteError)
    ensures env.loadFile(loader.filePath, TESS_LOAD_ID).Ok? && !env.worldLockPoisoned && !env.contextLockPoisoned ==>
              var built := env.build(ConfiguredBuilder(env.loadFile(loader.filePath, TESS_LOAD_ID).value));
              r == if built.Ok? then Ok(built.value) else Err(TessBuildError(built.error))
  {
    match env.loadFile(loader.filePath, TESS_LOAD_ID)
    case Err(e) => Err(DeserializeError(e, loader.filePath))
    case Ok(json) =>
      if env.worldLockPoisoned then Err(WorldWriteLockError)
      else if env.contextLockPoisoned then Err(ContextWriteError)
      else match env.build(ConfiguredBuilder(json))
        case Ok(t) => Ok(t)
        case Err(e) => Err(TessBuildError(e))
  }

  /** The task body of `load`, reassigning the builder setting by setting. */
  method LoadTask<T>(loader: TessLoader, env: TessEnv<T>) returns (r: Result<T, TessLoadError>)
    ensures r == LoadSpec(loader, env)
  {
    var loaded := env.loadFile(loader.filePath, TESS_LOAD_ID);
    if loaded.Err? {
      return Err(DeserializeError(loaded.error, loader.filePath));
    }
    var json := loaded.value;
    if env.worldLockPoisoned {
      return Err(WorldWriteLockError);
    }
    if env.contextLockPoisoned {
      return Err(ContextWriteError);
    }
    var tessBuilder := L.NewTess;
    if json.mode.Some? {
      tessBuilder := tessBuilder.(mode := Some(ModeFrom(json.mode.value)));
    }
    if json.renderVerticesLen.Some? {
      tessBuilder := tessBuilder.(renderVertexNb := json.renderVerticesLen);
    }
    if json.renderInstancesLen.Some? {
      tessBuilder := tessBuilder.(renderInstanceNb := json.renderInstancesLen);
    }
    var built := env.build(tessBuilder);
    if built.Err? {
      return Err(TessBuildError(built.error));
    }
    return Ok(built.value);
  }

  /** The primitive restart index and the two attribute lists are read but never applied. */
  lemma UnusedSettingsIgnored<T>(loader: TessLoader, env: TessEnv<T>, json: TessJson, json': TessJson)
    requires env.loadFile(loader.filePath, TESS_LOAD_ID) == Ok(json)
    requires json'.mode == json.mode && json'.renderVerticesLen == json.renderVerticesLen
             && json'.renderInstancesLen == json.renderInstancesLen
    ensures LoadSpec(loader, env) == LoadSpec(loader, env.(loadFile := (p: string, id: string) => Ok(json')))
  {
  }

  /** `load_default`'s builder: four vertices drawn as a triangle fan. */
  const DefaultBuilder := L.TessBuilder(Some(L.TriangleFan), Some(4), None)

  /** The body of the task `load_default` returns. */
  function LoadDefault<T>(env: TessEnv<T>): (r: Result<T, TessLoadError>)
    ensures env.worldLockPoisoned ==> r == Err(WorldWriteLockError)
    ensures !env.worldLockPoisoned && env.contextLockPoisoned ==> r == Err(ContextWriteError)
    ensures !env.worldLockPoisoned && !env.contextLockPoisoned ==>
              (r.Ok? <==> env.build(DefaultBuilder).Ok?) && (r.Ok? ==> r.value == env.build(DefaultBuilder).value)
  {
    if env.worldLockPoisoned then Err(WorldWriteLockError)
    else if env.contextLockPoisoned then Err(ContextWriteError)
    else match env.build(L.NewTess.(renderVertexNb := Some(4)).(mode := Some(L.TriangleFan)))
      case Ok(t) => Ok(t)
      case Err(e) => Err(TessBuildError(e))
  }

  /** The default tessellation is what a manifest asking for a four-vertex triangle fan builds. */
  lemma DefaultIsFanManifest<T>(loader: TessLoader, env: TessEnv<T>, json: TessJson)
    requires env.loadFile(loader.filePath, TESS_LOAD_ID) == Ok(json)
    requires json.mode == Some(TriangleFan) && json.renderVerticesLen == Some(4) && json.renderInstancesLen.None?
    ensures LoadSpec(loader, env) == LoadDefault(env)
  {
  }
}
