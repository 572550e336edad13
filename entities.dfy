/**
 * The entity loader of src/entities/mod.rs.  Loading an entity reads the
 * entity manifest (a list of component files), takes the world lock, creates
 * a lazy entity builder and then, one component file at a time in manifest
 * order, reads the file, lets the component mux pick a loader for it and lets
 * that loader add its component to the builder.  The first failure ends the
 * load; the entity is built only when every component was added.
 *
 * The world `W`, the builder `B`, the component loaders `L` and the entity
 * `En` are type parameters; what reading files, the mux, the loaders and the
 * builder do is the parameter `EntityEnv`.
 */
module Entities {
  import opened Wrappers
  import opened Load
  import opened Loading

  const ENTITIES_DIR := "entities/"
  const ENTITY_LOAD_ID := "entity_loader"

  /** `EntityError`; the `anyhow` errors of the mux and the loaders are kept as their messages. */
  datatype EntityError =
    | EntityFileLoadError(file: string, source: LoadError)
    | EntityLoaderDeserializeError(filePath: string, source: LoadError)
    | EntityComponentLoaderError(componentPath: string, loaderError: string)
    | EntityWorldWriteLockError
    | EntityLoadComponentError(componentError: string)
    | ComponentMuxError(muxError: string, componentJson: JsonLoad)

  datatype EntityEnv<!W, !L, !B, En> = EntityEnv(
    /** `load_deserializable_from_file(path, id)` for an `EntityLoaderJSON`: its component paths. */
    loadEntityFile: (string, string) -> Result<seq<string>, LoadError>,
    /** Whether the world's lock is poisoned. */
    worldLockPoisoned: W -> bool,
    /** `lazy_update.create_entity(&entities)`. */
    newBuilder: W -> B,
    /** `load_json(path)`. */
    loadJson: string -> Result<JsonLoad, LoadError>,
    /** `T::map_json_to_loader(json)`. */
    mapJsonToLoader: JsonLoad -> Result<L, string>,
    /** `loader.load_component(builder, ecs)`, which may change the world. */
    loadComponent: (L, B, W) -> (W, Result<B, string>),
    /** `builder.build()`. */
    build: B -> En)

  /** `EntityLoader`: the path of the entity manifest. */
  datatype EntityLoader = EntityLoader(entityFile: string)

  /** `EntityLoader::new`. */
  function NewLoader(filePath: string): (l: EntityLoader)
    ensures l.entityFile == filePath
  {
    EntityLoader(filePath)
  }

  /** One pass of the component loop: the file, the mux, then the loader, each error tagged with what it was about. */
  function Step<W, L, B, En>(env: EntityEnv<W, L, B, En>, path: string, builder: B, w: W): (r: (W, Result<B, EntityError>))
    ensures env.loadJson(path).Err? ==> r == (w, Err(EntityFileLoadError(path, env.loadJson(path).error)))
    ensures env.loadJson(path).Ok? && env.mapJsonToLoader(env.loadJson(path).value).Err? ==>
              r == (w, Err(ComponentMuxError(env.mapJsonToLoader(env.loadJson(path).value).error, env.loadJson(path).value)))
    ensures env.loadJson(path).Ok? && env.mapJsonToLoader(env.loadJson(path).value).Ok? ==>
              var added := env.loadComponent(env.mapJsonToLoader(env.loadJson(path).value).value, builder, w);
              r.0 == added.0
              && (added.1.Ok? ==> r.1 == Ok(added.1.value))
              && (added.1.Err? ==> r.1 == Err(EntityComponentLoaderError(path, added.1.error)))
  {
    match env.loadJson(path)
    case Err(e) => (w, Err(EntityFileLoadError(path, e)))
    case Ok(json) =>
      match env.mapJsonToLoader(json)
      case Err(e) => (w, Err(ComponentMuxError(e, json)))
      case Ok(loader) =>
        var (w', added) := env.loadComponent(loader, builder, w);
        match added
        case Err(e) => (w', Err(EntityComponentLoaderError(path, e)))
        case Ok(b) => (w', Ok(b))
  }

  /** The component loop from `paths` on: the builder and the world threaded through, stopping at the first error. */
  function Fold<W, L, B, En>(env: EntityEnv<W, L, B, En>, paths: seq<string>, builder: B, w: W): (r: (W, Result<B, EntityError>))
    ensures paths == [] ==> r == (w, Ok(builder))
    ensures paths != [] && Step(env, paths[0], builder, w).1.Err? ==> r == Step(env, paths[0], builder, w)
    decreases |paths|
  {
    if paths == [] then (w, Ok(builder))
    else
      var (w1, r) := Step(env, paths[0], builder, w);
      if r.Err? then (w1, r) else Fold(env, paths[1..], r.value, w1)
  }

  /** Running the loop on `xs + ys` is running it on `xs` and, only if that succeeded, on `ys` from where it stopped. */
  lemma {:induction false} FoldAppend<W, L, B, En>(env: EntityEnv<W, L, B, En>, xs: seq<string>, ys: seq<string>, builder: B, w: W)
    ensures Fold(env, xs + ys, builder, w) ==
              var (w1, r) := Fold(env, xs, builder, w);
              if r.Err? then (w1, r) else Fold(env, ys, r.value, w1)
    decreases |xs|
  {
    if xs != [] {
      assert (xs + ys)[0] == xs[0];
      assert (xs + ys)[1..] == xs[1..] + ys;
      var (w1, r) := Step(env, xs[0], builder, w);
      if r.Ok? {
        FoldAppend(env, xs[1..], ys, r.value, w1);
      }
    } else {
      assert xs + ys == ys;
    }
  }

  /** Once a component fails, the paths after it are never read and cannot change the outcome. */
  lemma FoldStopsAtFailure<W, L, B, En>(env: EntityEnv<W, L, B, En>, xs: seq<string>, ys: seq<string>, builder: B, w: W)
    requires Fold(env, xs, builder, w).1.Err?
    ensures Fold(env, xs + ys, builder, w) == Fold(env, xs, builder, w)
  {
    FoldAppend(env, xs, ys, builder, w);
  }

  /** A successful loop passed every component through in order: adding one more path adds one more step. */
  lemma FoldSnoc<W, L, B, En>(env: EntityEnv<W, L, B, En>, xs: seq<string>, p: string, builder: B, w: W)
    requires Fold(env, xs, builder, w).1.Ok?
    ensures Fold(env, xs + [p], builder, w) ==
              Step(env, p, Fold(env, xs, builder, w).1.value, Fold(env, xs, builder, w).0)
  {
    FoldAppend(env, xs, [p], builder, w);
    var (w1, r) := Fold(env, xs, builder, w);
    var (w2, s) := Step(env, p, r.value, w1);
    assert Fold(env, [p], r.value, w1) == (if s.Err? then (w2, s) else Fold(env, [], s.value, w2));
  }

  /** The closure of the task `load_entity` returns, run on the world. */
  function LoadEntityRun<W, L, B, En>(loader: EntityLoader, env: EntityEnv<W, L, B, En>, w: W): (r: (W, Result<En, EntityError>))
    ensures env.loadEntityFile(loader.entityFile, ENTITY_LOAD_ID).Err? ==>
              r == (w, Err(EntityLoaderDeserializeError(loader.entityFile, env.loadEntityFile(loader.entityFile, ENTITY_LOAD_ID).error)))
    ensures env.loadEntityFile(loader.entityFile, ENTITY_LOAD_ID).Ok? && env.worldLockPoisoned(w) ==>
              r == (w, Err(EntityWorldWriteLockError))
    ensures env.loadEntityFile(loader.entityFile, ENTITY_LOAD_ID) == Ok([]) && !env.worldLockPoisoned(w) ==>
              r == (w, Ok(env.build(env.newBuilder(w))))
    ensures env.loadEntityFile(loader.entityFile, ENTITY_LOAD_ID).Ok? && !env.worldLockPoisoned(w) ==>
              var paths := env.loadEntityFile(loader.entityFile, ENTITY_LOAD_ID).value;
              var folded := Fold(env, paths, env.newBuilder(w), w);
              r.0 == folded.0
              && (r.1.Ok? <==> folded.1.Ok?)
              && (r.1.Ok? ==> r.1.value == env.build(folded.1.value))
              && (r.1.Err? ==> r.1.error == folded.1.error)
  {
    match env.loadEntityFile(loader.entityFile, ENTITY_LOAD_ID)
    case Err(e) => (w, Err(EntityLoaderDeserializeError(loader.entityFile, e)))
    case Ok(paths) =>
      if env.worldLockPoisoned(w) then (w, Err(EntityWorldWriteLockError))
      else
        var (w', folded) := Fold(env, paths, env.newBuilder(w), w);
        match folded
        case Err(e) => (w', Err(e))
        case Ok(builder) => (w', Ok(env.build(builder)))
  }

  /** `load_entity`: a task that does nothing until it is run. */
  function LoadEntity<W(!new), L, B, En>(loader: EntityLoader, env: EntityEnv<W, L, B, En>): (t: Task<W, En, EntityError>)
    ensures forall w :: t.run(w) == LoadEntityRun(loader, env, w)
  {
    New(w => LoadEntityRun(loader, env, w))
  }

  /** The closure's body with its `for` loop over the component paths. */
  method RunLoadEntity<W, L, B, En>(loader: EntityLoader, env: EntityEnv<W, L, B, En>, w0: W) returns (w: W, r: Result<En, EntityError>)
    ensures (w, r) == LoadEntityRun(loader, env, w0)
  {
    w := w0;
    var entityJson := env.loadEntityFile(loader.entityFile, ENTITY_LOAD_ID);
    if entityJson.Err? {
      return w, Err(EntityLoaderDeserializeError(loader.entityFile, entityJson.error));
    }
    if env.worldLockPoisoned(w) {
      return w, Err(EntityWorldWriteLockError);
    }
    var paths := entityJson.value;
    var builder := env.newBuilder(w);
    ghost var start := builder;
    for i := 0 to |paths|
      invariant Fold(env, paths[i..], builder, w) == Fold(env, paths, start, w0)
    {
      var path := paths[i];
      assert paths[i..][0] == path && paths[i..][1..] == paths[i + 1..];
      var json := env.loadJson(path);
      if json.Err? {
        return w, Err(EntityFileLoadError(path, json.error));
      }
      var componentLoader := env.mapJsonToLoader(json.value);
      if componentLoader.Err? {
        return w, Err(ComponentMuxError(componentLoader.error, json.value));
      }
      var step := env.loadComponent(componentLoader.value, builder, w);
      var added := step.1;
      w := step.0;
      if added.Err? {
        return w, Err(EntityComponentLoaderError(path, added.error));
      }
      builder := added.value;
    }
    return w, Ok(env.build(builder));
  }
}
