/**
 * The earlier revision of the scene stack, src/scenes/mod.rs.  Here `load`
 * is eager: it reads every scene file, builds each scene and runs its task
 * on the spot, and only wraps the finished stack in a task.  The only scene
 * type the loader knows is the test scene of src/scenes/test_scene.rs, whose
 * own `load` is just as eager about the scene's entities.
 *
 * The world `W` stands for the ECS world together with the window whose GPU
 * the tasks run on.  What the loaders call but this revision does not define
 * (its `load_json`, the entity loader, the window's lock) is a `SceneEnv`.
 */
module Scenes {
  import opened Wrappers
  import opened Loading
  import opened Load
  import opened Ints
  import opened SceneStacks

  const TEST_SCENE_FILE_ID := "test_scene"

  const SceneVecPanic := "ERROR: Could not translate json value into scene_vec"
  const InvalidTypePanic := "ERROR: scene loadable type invalid: "
  const SceneWindowPanic := "ERROR: RwLock poisoned for window in SceneStack::load"
  const SceneTaskPanic := "ERROR: failed to run scene task"
  const EntityVecPanic := "ERROR: could not translate json to entity_vec in TestScene::load"
  const TestSceneWindowPanic := "ERROR: RwLock poisoned for window in TestScene::load"

  datatype SceneEnv<!W> = SceneEnv(
    /** `load_json(path)` of this revision, which returns the file's contents or panics. */
    loadJson: string -> Outcome<JsonLoad>,
    /** `LoadableEntity::load(ecs, window, value)`: its eager part and the task it returns. */
    loadEntity: (Json, W) -> (W, Task<W, (), CoffeeError>),
    /** Whether `window.write()` fails because the window's lock is poisoned. */
    windowPoisoned: W -> bool)

  /** `TestScene`: a fixed text and a frame counter. */
  datatype TestScene = TestScene(text: string, frameCounter: u32)

  /** `SceneStack { stack, loaded }` as the task built by `load` yields it. */
  datatype StackValue<S> = StackValue(stack: seq<S>, loaded: bool)

  /**
   * `from_value` into `SceneVecJSON` or `EntityVecJSON`, both a `Vec<String>`:
   * the value must be an array of strings.
   */
  function PathVec(value: Json): (r: Option<seq<string>>)
    ensures r.Some? <==> value.JArray? && forall k :: 0 <= k < |value.elems| ==> value.elems[k].JString?
    ensures r.Some? ==> |r.value| == |value.elems|
                        && forall k :: 0 <= k < |r.value| ==> value.elems[k] == JString(r.value[k])
  {
    if value.JArray? && forall k :: 0 <= k < |value.elems| ==> value.elems[k].JString?
    then Some(seq(|value.elems|, k requires 0 <= k < |value.elems| && value.elems[k].JString? => value.elems[k].s))
    else None
  }

  /**
   * One pass of the loop of `TestScene::load`: read the entity file, load the
   * entity, take the window lock and run the entity's task, whose result is
   * dropped: only the world it leaves matters.
   */
  function LoadEntity<W>(env: SceneEnv<W>, path: string, ecs: W): (r: Outcome<W>)
    ensures env.loadJson(path).Panic? ==> r == Panic(env.loadJson(path).message)
    ensures env.loadJson(path).Done? ==>
              var loaded := env.loadEntity(env.loadJson(path).value.actualValue, ecs);
              (r.Done? <==> !env.windowPoisoned(loaded.0))
              && (r.Panic? ==> r.message == TestSceneWindowPanic)
              && (r.Done? ==> r.value == loaded.1.run(loaded.0).0)
  {
    var json :- env.loadJson(path);
    var (w, entityTask) := env.loadEntity(json.actualValue, ecs);
    if env.windowPoisoned(w) then Panic(TestSceneWindowPanic)
    else
      var (w', _) := entityTask.run(w);
      Done(w')
  }

  /** The loop of `TestScene::load` over the remaining entity paths. */
  function LoadEntitiesFrom<W>(env: SceneEnv<W>, paths: seq<string>, ecs: W): Outcome<W>
    decreases |paths|
  {
    if paths == [] then Done(ecs)
    else
      var w :- LoadEntity(env, paths[0], ecs);
      LoadEntitiesFrom(env, paths[1..], w)
  }

  /** `TestScene::load` as a function: the entities are loaded first, and the task always yields a fresh scene. */
  function TestSceneLoadSpec<W>(env: SceneEnv<W>, value: Json, ecs: W): (r: Outcome<(W, Task<W, TestScene, CoffeeError>)>)
    ensures PathVec(value).None? ==> r == Panic(EntityVecPanic)
    ensures r.Done? <==> PathVec(value).Some? && LoadEntitiesFrom(env, PathVec(value).value, ecs).Done?
    ensures r.Done? ==> r.value.0 == LoadEntitiesFrom(env, PathVec(value).value, ecs).value
                        && r.value.1 == Pure(TestScene("TestScene", 0))
  {
    match PathVec(value)
    case None => Panic(EntityVecPanic)
    case Some(paths) =>
      var w :- LoadEntitiesFrom(env, paths, ecs);
      Done((w, Pure(TestScene("TestScene", 0))))
  }

  /** `TestScene::load`: loads every entity of the scene before returning a task that only hands out the scene. */
  method TestSceneLoad<W>(env: SceneEnv<W>, value: Json, ecs: W) returns (o: Outcome<(W, Task<W, TestScene, CoffeeError>)>)
    ensures o == TestSceneLoadSpec(env, value, ecs)
  {
    var entityVec := PathVec(value);
    if entityVec.None? {
      return Panic(EntityVecPanic);
    }
    var paths := entityVec.value;
    var world := ecs;
    for i := 0 to |paths|
      invariant LoadEntitiesFrom(env, paths[i..], world) == LoadEntitiesFrom(env, paths, ecs)
    {
      assert paths[i..][1..] == paths[i + 1..];
      var json := env.loadJson(paths[i]);
      if json.Panic? {
        return Panic(json.message);
      }
      var loaded := env.loadEntity(json.value.actualValue, world);
      if env.windowPoisoned(loaded.0) {
        return Panic(TestSceneWindowPanic);
      }
      world := loaded.1.run(loaded.0).0;
    }
    assert paths[|paths|..] == [];
    return Done((world, Pure(TestScene("TestScene", 0))));
  }

  /**
   * Entities load whenever their files read and the window's lock is sound,
   * whatever their tasks return: a failing entity task does not stop the scene.
   */
  lemma {:induction false} AllEntitiesLoad<W(!new)>(env: SceneEnv<W>, paths: seq<string>, ecs: W)
    requires forall k :: 0 <= k < |paths| ==> env.loadJson(paths[k]).Done?
    requires forall w :: !env.windowPoisoned(w)
    ensures LoadEntitiesFrom(env, paths, ecs).Done?
    decreases |paths|
  {
    if paths != [] {
      assert env.loadJson(paths[0]).Done?;
      var loaded := env.loadEntity(env.loadJson(paths[0]).value.actualValue, ecs);
      assert !env.windowPoisoned(loaded.0);
      var one := LoadEntity(env, paths[0], ecs);
      AllEntitiesLoad(env, paths[1..], one.value);
    }
  }

  /** `TestScene::update`: counts the frame (a `u32` increment) and asks for no transition. */
  function TestSceneUpdate(scene: TestScene): (r: (TestScene, SceneTransition<TestScene>))
    requires scene.frameCounter < 0xFFFF_FFFF
    ensures r.0.text == scene.text && r.0.frameCounter as int == scene.frameCounter as int + 1
    ensures r.1 == NoTransition
  {
    (scene.(frameCounter := scene.frameCounter + 1), NoTransition)
  }

  /**
   * One step of the loop of `load`: read the scene file, build the scene, take
   * the window lock and run the scene's task.  The scene's task never fails,
   * so loading the scene succeeds exactly when its file reads, names a test
   * scene, its entities load and the window's lock is sound.
   */
  function LoadOneScene<W>(env: SceneEnv<W>, path: string, ecs: W): (r: Outcome<(W, TestScene)>)
    ensures env.loadJson(path).Panic? ==> r == Panic(env.loadJson(path).message)
    ensures env.loadJson(path).Done? && env.loadJson(path).value.loadTypeId != TEST_SCENE_FILE_ID ==>
              r == Panic(InvalidTypePanic + env.loadJson(path).value.loadTypeId)
    ensures env.loadJson(path).Done? && env.loadJson(path).value.loadTypeId == TEST_SCENE_FILE_ID ==>
              var scene := TestSceneLoadSpec(env, env.loadJson(path).value.actualValue, ecs);
              (scene.Panic? ==> r == Panic(scene.message))
              && (scene.Done? && env.windowPoisoned(scene.value.0) ==> r == Panic(SceneWindowPanic))
              && (scene.Done? && !env.windowPoisoned(scene.value.0) ==> r == Done((scene.value.0, TestScene("TestScene", 0))))
  {
    var json :- env.loadJson(path);
    if json.loadTypeId != TEST_SCENE_FILE_ID then Panic(InvalidTypePanic + json.loadTypeId)
    else
      var loaded :- TestSceneLoadSpec(env, json.actualValue, ecs);
      if env.windowPoisoned(loaded.0) then Panic(SceneWindowPanic)
      else
        var (w', r) := loaded.1.run(loaded.0);
        if r.Err? then Panic(SceneTaskPanic) else Done((w', r.value))
  }

  /** The loop of `load` over the remaining paths, with the scenes built so far. */
  function LoadScenesFrom<W>(env: SceneEnv<W>, paths: seq<string>, ecs: W, stack: seq<TestScene>): (r: Outcome<(W, seq<TestScene>)>)
    ensures r.Done? ==> |r.value.1| == |stack| + |paths| && r.value.1[..|stack|] == stack
    decreases |paths|
  {
    if paths == [] then Done((ecs, stack))
    else match LoadOneScene(env, paths[0], ecs)
      case Panic(m) => Panic(m)
      case Done((w, scene)) => LoadScenesFrom(env, paths[1..], w, stack + [scene])
  }

  /** `SceneStack::load` as a function of its environment. */
  function LoadScenesSpec<W>(env: SceneEnv<W>, value: Json, ecs: W): Outcome<(W, Task<W, StackValue<TestScene>, CoffeeError>)>
  {
    match PathVec(value)
    case None => Panic(SceneVecPanic)
    case Some(paths) =>
      match LoadScenesFrom(env, paths, ecs, [])
      case Panic(m) => Panic(m)
      case Done((w, stack)) => Done((w, Pure(StackValue(stack, true))))
  }

  /** `SceneStack::load`: builds every scene before returning a task that only hands out the stack. */
  method LoadScenes<W>(env: SceneEnv<W>, value: Json, ecs: W)
    returns (o: Outcome<(W, Task<W, StackValue<TestScene>, CoffeeError>)>)
    ensures o == LoadScenesSpec(env, value, ecs)
  {
    var sceneVec := PathVec(value);
    if sceneVec.None? {
      return Panic(SceneVecPanic);
    }
    var paths := sceneVec.value;
    var sceneStack: seq<TestScene> := [];
    var world := ecs;
    for i := 0 to |paths|
      invariant LoadScenesFrom(env, paths[i..], world, sceneStack) == LoadScenesFrom(env, paths, ecs, [])
    {
      assert paths[i..][1..] == paths[i + 1..];
      var scene := LoadOneScene(env, paths[i], world);
      if scene.Panic? {
        return Panic(scene.message);
      }
      world := scene.value.0;
      sceneStack := sceneStack + [scene.value.1];
    }
    assert paths[|paths|..] == [];
    var finished := StackValue(sceneStack, true);
    return Done((world, Pure(finished)));
  }

  // ---------------------------------------------------------------------------
  // Properties of the loader

  /**
   * The entry reads as a test scene whose loading does not panic, and leaves
   * the window's lock sound, on any world.
   */
  ghost predicate LoadableTestScene<W(!new)>(env: SceneEnv<W>, path: string)
  {
    env.loadJson(path).Done? && env.loadJson(path).value.loadTypeId == TEST_SCENE_FILE_ID
    && forall w :: TestSceneLoadSpec(env, env.loadJson(path).value.actualValue, w).Done?
                   && !env.windowPoisoned(TestSceneLoadSpec(env, env.loadJson(path).value.actualValue, w).value.0)
  }

  /** Whatever `load` returns, its task does nothing but hand out the finished stack, marked loaded. */
  lemma LoadedTaskIsEager<W>(env: SceneEnv<W>, value: Json, ecs: W, g: W)
    requires LoadScenesSpec(env, value, ecs).Done?
    ensures var (w, task) := LoadScenesSpec(env, value, ecs).value;
            var (g', r) := task.run(g);
            g' == g && r.Ok? && r.value.loaded && |r.value.stack| == |PathVec(value).value|
  {
  }

  /** With every entry a loadable test scene, the stack holds one fresh test scene per entry. */
  lemma {:induction false} AllTestScenesLoad<W(!new)>(env: SceneEnv<W>, paths: seq<string>, ecs: W, stack: seq<TestScene>)
    requires forall k :: 0 <= k < |paths| ==> LoadableTestScene(env, paths[k])
    ensures var r := LoadScenesFrom(env, paths, ecs, stack);
            r.Done? && forall k :: |stack| <= k < |r.value.1| ==> r.value.1[k] == TestScene("TestScene", 0)
    decreases |paths|
  {
    if paths != [] {
      assert LoadableTestScene(env, paths[0]);
      var one := LoadOneScene(env, paths[0], ecs);
      assert one.Done? && one.value.1 == TestScene("TestScene", 0);
      AllTestScenesLoad(env, paths[1..], one.value.0, stack + [one.value.1]);
    }
  }

  /**
   * The first entry that does not read as a test scene panics with the reason,
   * and no later entry is read.
   */
  lemma {:induction false} FirstBadScenePanics<W(!new)>(env: SceneEnv<W>, paths: seq<string>, ecs: W,
                                                        stack: seq<TestScene>, j: nat)
    requires j < |paths|
    requires forall k :: 0 <= k < j ==> LoadableTestScene(env, paths[k])
    requires env.loadJson(paths[j]).Panic? || env.loadJson(paths[j]).value.loadTypeId != TEST_SCENE_FILE_ID
    ensures LoadScenesFrom(env, paths, ecs, stack)
         == Panic(if env.loadJson(paths[j]).Panic? then env.loadJson(paths[j]).message
                  else InvalidTypePanic + env.loadJson(paths[j]).value.loadTypeId)
    decreases j
  {
    if j > 0 {
      assert LoadableTestScene(env, paths[0]);
      var one := LoadOneScene(env, paths[0], ecs);
      assert one.Done?;
      FirstBadScenePanics(env, paths[1..], one.value.0, stack + [one.value.1], j - 1);
    }
  }

  // ---------------------------------------------------------------------------
  // The stack

  /** `SceneStack`: the scenes, top last, and whether the stack finished loading. */
  class SceneStack<S> {
    var stack: seq<S>
    var loaded: bool

    constructor (value: StackValue<S>)
      ensures stack == value.stack && loaded == value.loaded
    {
      stack := value.stack;
      loaded := value.loaded;
    }

    /** `update`: only the top scene is updated; an empty stack panics; the transition is ignored. */
    method Update<W>(ecs: W, update: (S, W) -> (S, W, SceneTransition<S>)) returns (o: Outcome<W>)
      modifies this
      ensures loaded == old(loaded)
      ensures old(stack) == [] ==> o == Panic(EmptyStackPanic) && stack == old(stack)
      ensures old(stack) != [] ==>
                var top := update(old(stack)[|old(stack)| - 1], ecs);
                o == Done(top.1) && stack == old(stack)[..|old(stack)| - 1] + [top.0]
    {
      if stack == [] {
        return Panic(EmptyStackPanic);
      }
      var n := |stack| - 1;
      var next: (S, W, SceneTransition<S>) := update(stack[n], ecs);
      stack := stack[..n] + [next.0];
      match next.2 {
        case Pop(_) =>
        case Push(_) =>
        case Swap(_) =>
        case Clear =>
        case NoTransition =>
      }
      return Done(next.1);
    }

    /** `draw`: only the top scene draws; an empty stack only logs. */
    method Draw<W, F, T>(ecs: W, frame: F, timer: T, draw: (S, W, F, T) -> (S, W, F)) returns (ecs': W, frame': F)
      modifies this
      ensures loaded == old(loaded)
      ensures old(stack) == [] ==> ecs' == ecs && frame' == frame && stack == old(stack)
      ensures old(stack) != [] ==>
                var top := draw(old(stack)[|old(stack)| - 1], ecs, frame, timer);
                ecs' == top.1 && frame' == top.2 && stack == old(stack)[..|old(stack)| - 1] + [top.0]
    {
      if stack == [] {
        return ecs, frame;
      }
      var n := |stack| - 1;
      var next: (S, W, F) := draw(stack[n], ecs, frame, timer);
      stack := stack[..n] + [next.0];
      return next.1, next.2;
    }

    /** `interact`: only the top scene reacts to the input; an empty stack only logs. */
    method Interact<W, I>(ecs: W, input: I, interact: (S, W, I) -> (S, W, I)) returns (ecs': W, input': I)
      modifies this
      ensures loaded == old(loaded)
      ensures old(stack) == [] ==> ecs' == ecs && input' == input && stack == old(stack)
      ensures old(stack) != [] ==>
                var top := interact(old(stack)[|old(stack)| - 1], ecs, input);
                ecs' == top.1 && input' == top.2 && stack == old(stack)[..|old(stack)| - 1] + [top.0]
    {
      if stack == [] {
        return ecs, input;
      }
      var n := |stack| - 1;
      var next: (S, W, I) := interact(stack[n], ecs, input);
      stack := stack[..n] + [next.0];
      return next.1, next.2;
    }
  }
}
