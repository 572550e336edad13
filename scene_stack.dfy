/**
 * The scene stack of src/scenes/scene_stack.rs: a loader that turns a manifest
 * of scene files into a deferred task yielding the stack, and the stack itself,
 * which forwards the game loop's update, draw and interact calls to its top
 * scene.
 *
 * Scenes are opaque values of a type parameter `S`; their behaviour (the
 * scene factory, `load_scene`, and the `Scene` methods) is supplied by the
 * caller as functions.  The world `W` is the ECS world that `load_scene` may
 * change, and `G` is what coffee hands a task when it finally runs it.
 */
module SceneStacks {
  import opened Wrappers
  import opened Loading
  import opened Load
  import opened Ints

  /** `std::io::ErrorKind`, as far as the loaders use it. */
  datatype IoErrorKind = InvalidData | OtherKind

  /** `coffee::Error`, as far as the loaders produce it. */
  datatype CoffeeError = Io(kind: IoErrorKind, message: string) | TaskFailed(description: string)

  const ExpectedScenePath := "ERROR: expected string describing scene path"
  const ExpectedArray := "ERROR: expected Array of path strings"
  /** The panic of `Result::unwrap` on a file that cannot be read or parsed. */
  const UnwrapPanic := "called `Result::unwrap()` on an `Err` value"
  /** The panic of `panic!()` with no message. */
  const EmptyStackPanic := "explicit panic"

  /** `SceneTransition`: what a scene asks of the stack after an update. */
  datatype SceneTransition<S> = Pop(quantity: u8) | Push(scene: S) | Swap(scene: S) | Clear | NoTransition

  /** The value the loader's task produces: `SceneStack { stack: scene_vec }`. */
  datatype LoadedStack<S> = LoadedStack(stack: seq<S>)

  /** What `load` returns after its eager part: the world as left and the deferred task. */
  datatype Loaded<W, !G, S> = Loaded(world: W, task: Task<G, LoadedStack<S>, CoffeeError>)

  /** The combiner of every join: `scene_vec.push(scene)`. */
  function PushScene<S>(scene: S, sceneVec: seq<S>): (r: seq<S>)
    ensures |r| == |sceneVec| + 1 && r[..|sceneVec|] == sceneVec && r[|sceneVec|] == scene
  {
    sceneVec + [scene]
  }

  function ToStack<S>(sceneVec: seq<S>): LoadedStack<S>
  {
    LoadedStack(sceneVec)
  }

  /**
   * The loop of `load` over the remaining manifest entries `paths`, with the
   * entries already visited recorded as the links of the accumulated task.
   * `factory` is the scene factory followed by `load_scene(ecs, window)`.
   */
  function LoadFrom<W, G, S>(files: Files, factory: (JsonLoad, W) -> (W, Task<G, S, CoffeeError>),
                             paths: seq<Json>, ecs: W, links: seq<Link<G, S, seq<S>, CoffeeError>>): Outcome<Loaded<W, G, S>>
    decreases |paths|
  {
    if paths == [] then Done(Loaded(ecs, MapValue(Chain(links, []), ToStack)))
    else if !paths[0].JString? then Done(Loaded(ecs, Fail(Io(InvalidData, ExpectedScenePath))))
    else if paths[0].s !in files then Panic(UnwrapPanic)
    else
      var (ecs', t) := factory(files[paths[0].s], ecs);
      LoadFrom(files, factory, paths[1..], ecs', links + [Link(t, PushScene)])
  }

  /** `SceneStackLoader::load` as a function of the readable files. */
  function LoadSpec<W, G, S>(files: Files, stackFile: string,
                             factory: (JsonLoad, W) -> (W, Task<G, S, CoffeeError>), ecs: W): (r: Outcome<Loaded<W, G, S>>)
    ensures stackFile !in files ==> r == Panic(UnwrapPanic)
    ensures stackFile in files && !files[stackFile].actualValue.JArray? ==>
              r == Done(Loaded(ecs, Fail(Io(InvalidData, ExpectedArray))))
  {
    if stackFile !in files then Panic(UnwrapPanic)
    else match files[stackFile].actualValue
      case JArray(paths) => LoadFrom(files, factory, paths, ecs, [])
      case _ => Done(Loaded(ecs, Fail(Io(InvalidData, ExpectedArray))))
  }

  /** `SceneStackLoader::load`: reads the manifest and every scene file eagerly, and chains the scene tasks. */
  method LoadStack<W, G, S>(files: Files, stackFile: string,
                            factory: (JsonLoad, W) -> (W, Task<G, S, CoffeeError>), ecs: W)
    returns (o: Outcome<Loaded<W, G, S>>)
    ensures o == LoadSpec(files, stackFile, factory, ecs)
  {
    if stackFile !in files {
      return Panic(UnwrapPanic);
    }
    var json := files[stackFile];
    if !json.actualValue.JArray? {
      return Done(Loaded(ecs, Fail(Io(InvalidData, ExpectedArray))));
    }
    var paths := json.actualValue.elems;
    var world := ecs;
    var sceneTask: Task<G, seq<S>, CoffeeError> := New(g => (g, Ok([])));
    ghost var links: seq<Link<G, S, seq<S>, CoffeeError>> := [];
    for i := 0 to |paths|
      invariant sceneTask == Chain(links, [])
      invariant LoadFrom(files, factory, paths[i..], world, links) == LoadFrom(files, factory, paths, ecs, [])
    {
      assert paths[i..][1..] == paths[i + 1..];
      if !paths[i].JString? {
        return Done(Loaded(world, Fail(Io(InvalidData, ExpectedScenePath))));
      }
      var scenePath := paths[i].s;
      if scenePath !in files {
        return Panic(UnwrapPanic);
      }
      var sceneValue := files[scenePath];
      var next: (W, Task<G, S, CoffeeError>) := factory(sceneValue, world);
      world := next.0;
      sceneTask := Join(next.1, sceneTask, PushScene);
      assert (links + [Link(next.1, PushScene)])[..|links|] == links;
      links := links + [Link(next.1, PushScene)];
    }
    assert paths[|paths|..] == [];
    return Done(Loaded(world, MapValue(sceneTask, ToStack)));
  }

  // ---------------------------------------------------------------------------
  // Properties of the loader

  /** Every entry of `paths` names a scene file that can be read. */
  ghost predicate AllReadable(files: Files, paths: seq<Json>)
  {
    forall k :: 0 <= k < |paths| ==> paths[k].JString? && paths[k].s in files
  }

  /** The tasks the scene loaders return, in manifest order, and the world they leave behind. */
  function SceneTasks<W, G, S>(files: Files, factory: (JsonLoad, W) -> (W, Task<G, S, CoffeeError>),
                               paths: seq<Json>, ecs: W): (r: (W, seq<Task<G, S, CoffeeError>>))
    requires AllReadable(files, paths)
    ensures |r.1| == |paths|
    decreases |paths|
  {
    if paths == [] then (ecs, [])
    else
      var (ecs1, t) := factory(files[paths[0].s], ecs);
      var (ecs2, ts) := SceneTasks(files, factory, paths[1..], ecs1);
      (ecs2, [t] + ts)
  }

  function PushLinks<G, S>(tasks: seq<Task<G, S, CoffeeError>>): (r: seq<Link<G, S, seq<S>, CoffeeError>>)
    ensures |r| == |tasks|
    ensures forall i :: 0 <= i < |tasks| ==> r[i] == Link(tasks[i], PushScene)
  {
    seq(|tasks|, i requires 0 <= i < |tasks| => Link(tasks[i], PushScene))
  }

  /**
   * An entry that is not a string ends the loop: the already chained scene
   * tasks are dropped and the result fails with `InvalidData`, although the
   * scene loaders of the earlier entries have already changed the world.
   */
  lemma {:induction false} NonStringEntryFails<W, G, S>(files: Files, factory: (JsonLoad, W) -> (W, Task<G, S, CoffeeError>),
                                                       paths: seq<Json>, ecs: W, links: seq<Link<G, S, seq<S>, CoffeeError>>, j: nat)
    requires j < |paths| && !paths[j].JString?
    requires AllReadable(files, paths[..j])
    ensures var r := LoadFrom(files, factory, paths, ecs, links);
            r.Done? && r.value.task == Fail(Io(InvalidData, ExpectedScenePath))
            && r.value.world == SceneTasks(files, factory, paths[..j], ecs).0
    decreases j
  {
    if j > 0 {
      assert paths[..j][0] == paths[0];
      var (ecs1, t) := factory(files[paths[0].s], ecs);
      assert paths[1..][..j - 1] == paths[..j][1..];
      NonStringEntryFails(files, factory, paths[1..], ecs1, links + [Link(t, PushScene)], j - 1);
    }
  }

  /** An entry naming an unreadable scene file panics, unless a non-string entry comes earlier. */
  lemma {:induction false} UnreadableEntryPanics<W, G, S>(files: Files, factory: (JsonLoad, W) -> (W, Task<G, S, CoffeeError>),
                                                         paths: seq<Json>, ecs: W, links: seq<Link<G, S, seq<S>, CoffeeError>>, j: nat)
    requires j < |paths| && paths[j].JString? && paths[j].s !in files
    requires AllReadable(files, paths[..j])
    ensures LoadFrom(files, factory, paths, ecs, links) == Panic(UnwrapPanic)
    decreases j
  {
    if j > 0 {
      assert paths[..j][0] == paths[0];
      var (ecs1, t) := factory(files[paths[0].s], ecs);
      assert paths[1..][..j - 1] == paths[..j][1..];
      UnreadableEntryPanics(files, factory, paths[1..], ecs1, links + [Link(t, PushScene)], j - 1);
    }
  }

  /** With every entry readable, the loader chains one push link per scene, in manifest order. */
  lemma {:induction false} AllReadableChains<W, G, S>(files: Files, factory: (JsonLoad, W) -> (W, Task<G, S, CoffeeError>),
                                                     paths: seq<Json>, ecs: W, links: seq<Link<G, S, seq<S>, CoffeeError>>)
    requires AllReadable(files, paths)
    ensures var (w, ts) := SceneTasks(files, factory, paths, ecs);
            LoadFrom(files, factory, paths, ecs, links) == Done(Loaded(w, MapValue(Chain(links + PushLinks(ts), []), ToStack)))
    decreases |paths|
  {
    if paths == [] {
      assert links + PushLinks([]) == links;
    } else {
      var (ecs1, t) := factory(files[paths[0].s], ecs);
      var links1 := links + [Link(t, PushScene)];
      AllReadableChains(files, factory, paths[1..], ecs1, links1);
      var (w, ts) := SceneTasks(files, factory, paths[1..], ecs1);
      assert links1 + PushLinks(ts) == links + PushLinks([t] + ts);
    }
  }

  /** Pushing the values one by one, in manifest order, yields exactly those values. */
  lemma {:induction false} CombinedPushes<G, S>(tasks: seq<Task<G, S, CoffeeError>>, values: seq<S>)
    requires |values| == |tasks|
    ensures Combined(PushLinks(tasks), values, []) == values
    decreases |tasks|
  {
    if tasks != [] {
      var n := |tasks| - 1;
      assert PushLinks(tasks)[..n] == PushLinks(tasks[..n]);
      CombinedPushes(tasks[..n], values[..n]);
      assert values[..n] + [values[n]] == values;
    }
  }

  /** The task of a chain of push links yields the scenes of its tasks, run last to first, as a stack. */
  lemma PushChainRun<G, S>(tasks: seq<Task<G, S, CoffeeError>>, g: G)
    ensures var (g', r) := RunBackward(PushLinks(tasks), g);
            MapValue(Chain(PushLinks(tasks), []), ToStack).run(g)
            == (g', if r.Ok? then Ok(LoadedStack(r.value)) else Err(r.error))
  {
    var links := PushLinks(tasks);
    ChainRun(links, [], g);
    var (g', r) := RunBackward(links, g);
    var post := (a: seq<S>, w: G) => (w, Ok(ToStack(a)));
    assert MapValue(Chain(links, []), ToStack).run(g) == MapRun(Chain(links, []), post, g);
    if r.Ok? {
      CombinedPushes(tasks, r.value);
      assert Chain(links, []).run(g) == (g', Ok(r.value));
    }
  }

  /**
   * The stack a successful load produces: running its task runs the scene
   * tasks from the last manifest entry to the first, and the stack holds
   * their scenes in manifest order, so the last entry is the top.
   */
  lemma LoadedStackOrder<W, G, S>(files: Files, stackFile: string, factory: (JsonLoad, W) -> (W, Task<G, S, CoffeeError>),
                                  ecs: W, g: G)
    requires stackFile in files && files[stackFile].actualValue.JArray?
    requires AllReadable(files, files[stackFile].actualValue.elems)
    ensures var st := SceneTasks(files, factory, files[stackFile].actualValue.elems, ecs);
            var run := RunBackward(PushLinks(st.1), g);
            var r := LoadSpec(files, stackFile, factory, ecs);
            r.Done? && r.value.world == st.0
            && r.value.task.run(g) == (run.0, if run.1.Ok? then Ok(LoadedStack(run.1.value)) else Err(run.1.error))
  {
    var paths := files[stackFile].actualValue.elems;
    AllReadableChains(files, factory, paths, ecs, []);
    var st := SceneTasks(files, factory, paths, ecs);
    assert [] + PushLinks(st.1) == PushLinks(st.1);
    assert LoadSpec(files, stackFile, factory, ecs) == LoadFrom(files, factory, paths, ecs, []);
    PushChainRun(st.1, g);
  }

  /** When every scene task simply yields its scene, the stack is the scenes in manifest order. */
  lemma ConstantScenesStack<W, G(!new), S>(files: Files, stackFile: string, factory: (JsonLoad, W) -> (W, Task<G, S, CoffeeError>),
                                           ecs: W, scenes: seq<S>, g: G)
    requires stackFile in files && files[stackFile].actualValue.JArray?
    requires AllReadable(files, files[stackFile].actualValue.elems)
    requires var ts := SceneTasks(files, factory, files[stackFile].actualValue.elems, ecs).1;
             |scenes| == |ts| && forall i :: 0 <= i < |ts| ==> Constant(ts[i], scenes[i])
    ensures LoadSpec(files, stackFile, factory, ecs).Done?
    ensures LoadSpec(files, stackFile, factory, ecs).value.task.run(g) == (g, Ok(LoadedStack(scenes)))
  {
    var ts := SceneTasks(files, factory, files[stackFile].actualValue.elems, ecs).1;
    ChainOfConstants(PushLinks(ts), scenes, [], g);
    LoadedStackOrder(files, stackFile, factory, ecs, g);
  }

  // ---------------------------------------------------------------------------
  // The stack

  /** `SceneStack`: the loaded scenes, the top of the stack last. */
  class SceneStack<S> {
    var stack: seq<S>

    constructor (loaded: LoadedStack<S>)
      ensures stack == loaded.stack
    {
      stack := loaded.stack;
    }

    /**
     * `update`: the top scene updates itself and the world; an empty stack
     * panics.  The transition the scene returns is inspected and ignored.
     */
    method Update<W>(ecs: W, update: (S, W) -> (S, W, SceneTransition<S>)) returns (o: Outcome<W>)
      modifies this
      ensures old(stack) == [] ==> o == Panic(EmptyStackPanic) && stack == old(stack)
      ensures old(stack) != [] ==>
                var top := update(old(stack)[|old(stack)| - 1], ecs);
                o == Done(top.1) && stack == old(stack)[..|old(stack)| - 1] + [top.0]
    {
      if stack == [] {
        return Panic(EmptyStackPanic);
      }
      var n := |stack| - 1;
      var next: (S, W, SceneTransition<S>) := update(stack[n], ecs);
      stack := stack[..n] + [next.0];
      match next.2 {
        case Pop(_) =>
        case Push(_) =>
        case Swap(_) =>
        case Clear =>
        case NoTransition =>
      }
      return Done(next.1);
    }

    /** `draw`: the top scene draws into the frame; an empty stack only logs. */
    method Draw<W, F, T>(ecs: W, frame: F, timer: T, draw: (S, W, F, T) -> (S, W, F)) returns (ecs': W, frame': F)
      modifies this
      ensures old(stack) == [] ==> ecs' == ecs && frame' == frame && stack == old(stack)
      ensures old(stack) != [] ==>
                var top := draw(old(stack)[|old(stack)| - 1], ecs, frame, timer);
                ecs' == top.1 && frame' == top.2 && stack == old(stack)[..|old(stack)| - 1] + [top.0]
    {
      if stack == [] {
        return ecs, frame;
      }
      var n := |stack| - 1;
      var next: (S, W, F) := draw(stack[n], ecs, frame, timer);
      stack := stack[..n] + [next.0];
      return next.1, next.2;
    }

    /** `interact`: the top scene reacts to the input; an empty stack only logs. */
    method Interact<W, I, Win>(ecs: W, input: I, window: Win, interact: (S, W, I, Win) -> (S, W, I, Win))
      returns (ecs': W, input': I, window': Win)
      modifies this
      ensures old(stack) == [] ==> ecs' == ecs && input' == input && window' == window && stack == old(stack)
      ensures old(stack) != [] ==>
                var top := interact(old(stack)[|old(stack)| - 1], ecs, input, window);
                ecs' == top.1 && input' == top.2 && window' == top.3
                && stack == old(stack)[..|old(stack)| - 1] + [top.0]
    {
      if stack == [] {
        return ecs, input, window;
      }
      var n := |stack| - 1;
      var next: (S, W, I, Win) := interact(stack[n], ecs, input, window);
      stack := stack[..n] + [next.0];
      return next.1, next.2, next.3;
    }
  }
}
