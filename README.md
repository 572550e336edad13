# GameEngine core, modelled in Dafny

This project models the sequential logic of the GameEngine repository, a 2D
game engine written in Rust on top of `specs` (ECS), `coffee` and `luminance`.
The model covers the engine's deferred loading tasks, the scene stack, the
input bookkeeping, the per-frame game rules on `u16`, the loaders around
textures, fonts, images, tessellations, text, shapes, transforms and entities,
the render-state translation tables, and the camera view cache.  Each piece is
stated and proved in Dafny.

## What is modelled

**Deferred tasks** (`Loading`).  A `Task` wraps a one-shot computation
`&mut World -> Result<T>`.  Here that is a state transformer
`W -> (W, Result<T, E>)`.
- `join` runs its first task, then its second on the world the first left, and stops at the first error.
- `map` post-processes a success.
- coffee's own tasks have the same shape, so the loaders that chain coffee tasks use these combinators too.

**Chains.**  The scene-stack, font and image loaders fold a manifest into
`acc := (entry_task, acc).join().map(combine)`, which is `Chain`.
`ChainRun` proves the execution order: the entries' tasks run from the LAST
manifest entry to the first, and the values are combined in manifest order.
So the first failure in reverse manifest order decides the error.  This
follows the code, not a reading in which the first failing entry in manifest
order aborts the load.

**Panics.**  Rust panics that depend on data are outcomes (`Outcome.Panic`
with the panic message):
- `unwrap` on an unreadable file;
- an unknown alignment string;
- an index past a vector's end;
- arithmetic overflow on `u16`, as a debug build checks it (`Ints`).

**Outside the program.**  JSON reading, the file system, image decoding, GPU
texture creation, lock poisoning and the keyboard driver are parameters:
environment records of functions, or maps from path to parsed file.

**Classes.**  State that the Rust code updates in place is a Dafny class:
- `SceneStack`, `CustomInput`, `Mouse`, `MultiInput`, `Animation`;
- `TextureDict`, the component loaders, `Camera`;
- arrays for the ECS storages that the systems walk, and the static `FONT_BYTES` buffer.

Each class method is proved against a pure function of the old state.  The
properties are proved about that function.

**The Factor anomaly.**  Every render-state table is a bijection except
`Factor`, which maps `SrcAlphaComplement` to `DstAlphaComplement`.  The model
keeps this as written.  `FactorNotInjective` and `RenderStateCollision` prove
its consequence: two different render-state definitions convert to the same
render state.

## Model

| member | source | states |
|---|---|---|
| Loading.New | src/loading/mod.rs:10-12 | the task holds `f` as its closure, not yet run |
| Loading.JoinRun | src/loading/mod.rs:16-20 | the first task runs, and its error stops the run with the world it left; otherwise the second runs on that world, and its error or the combination of both values is returned |
| Loading.Join | src/loading/mod.rs:14-22 | the joined task's closure is `JoinRun` of the two tasks and the combiner, run only when the task is |
| Loading.MapRun | src/loading/mod.rs:26-29 | the first task's error passes through with its world; on success the post-processing function gets the value and the world the task left |
| Loading.Map | src/loading/mod.rs:24-30 | the mapped task's closure is `MapRun` of the task and the post-processing function |
| Loading.NewBehavesAsF | src/loading/mod.rs:10-12 | running `Task::new(f)` on a world is running `f` on it |
| Loading.JoinSequences | src/loading/mod.rs:14-22 | when both succeed, `join` runs the second task on the world the first left and returns the combination of both values |
| Loading.JoinFirstFails | src/loading/mod.rs:16-17 | when the first task fails, `join` returns its error and world, whatever the second task and combiner are |
| Loading.JoinSecondFails | src/loading/mod.rs:17-19 | when only the second fails, its error and world are returned and the combiner does not matter |
| Loading.MapFirstFails | src/loading/mod.rs:24-30 | `map` passes a failure through unchanged, independent of the post-processing function |
| Loading.MapFirstSucceeds | src/loading/mod.rs:24-30 | on success `map` gives exactly what the post-processing function gives for the value and world, including its error |
| Loading.Chain | src/scenes/scene_stack.rs:40-56 | the task the manifest loop holds: `Pure(init)` for no entries, and for each further entry its task joined before the accumulated task with the entry's combiner |
| Loading.RunBackward | src/scenes/scene_stack.rs:40-56 | the reference run of a manifest's tasks, last entry first, yields one value per entry |
| Loading.ChainRun | src/scenes/scene_stack.rs:40-56 | a chain of joins runs its entries last to first and folds their values first to last, stopping at the first failure |
| Loading.ChainLastFails | src/globals.rs:142-150 | when the last entry's task fails, its error is the chain's and no other entry runs |
| Loading.ChainOfConstants | src/scenes/scene_stack.rs:40-69 | a chain of tasks that always succeed without touching the world yields the fold of their values in manifest order |
| SceneStacks.PushScene | src/scenes/scene_stack.rs:53-56 | the combiner appends the new scene after the scenes accumulated so far |
| SceneStacks.LoadSpec | src/scenes/scene_stack.rs:37-75 | an unreadable manifest panics (unwrap); a manifest that is not an array gives a task failing with "expected Array of path strings" |
| SceneStacks.LoadStack | src/scenes/scene_stack.rs:37-75 | the imperative loader's loop computes exactly `LoadSpec` |
| SceneStacks.SceneTasks | src/scenes/scene_stack.rs:44-51 | one scene task per manifest path |
| SceneStacks.PushLinks | src/scenes/scene_stack.rs:48-56 | every entry is joined with the push combiner |
| SceneStacks.NonStringEntryFails | src/scenes/scene_stack.rs:45-61 | a non-string manifest element makes the loader return a fresh failing task, discarding the scene tasks accumulated before it |
| SceneStacks.UnreadableEntryPanics | src/scenes/scene_stack.rs:46 | an unreadable scene file panics while loading instead of producing an error task |
| SceneStacks.AllReadableChains | src/scenes/scene_stack.rs:40-62 | when every path is a readable string, the loader yields the chain of the scene tasks with the push combiner |
| SceneStacks.CombinedPushes | src/scenes/scene_stack.rs:53-56 | folding the push combiners over the scenes gives the scenes themselves, in manifest order |
| SceneStacks.PushChainRun | src/scenes/scene_stack.rs:64-69 | the loaded task yields exactly the scenes the tasks produce, in manifest order, or the first error in run order |
| SceneStacks.LoadedStackOrder | src/scenes/scene_stack.rs:40-69 | a loaded stack lists the scenes in manifest order |
| SceneStacks.ConstantScenesStack | src/scenes/scene_stack.rs:40-69 | when every scene loads without touching the world, the task yields the stack of those scenes in manifest order (empty for an empty array) |
| SceneStacks.SceneStack.constructor | src/scenes/scene_stack.rs:78-81 | the stack holds the loaded scenes |
| SceneStacks.SceneStack.Update | src/scenes/scene_stack.rs:84-101 | an empty stack panics; otherwise only the last scene is updated, and the returned transition leaves the stack's length and order unchanged |
| SceneStacks.SceneStack.Draw | src/scenes/scene_stack.rs:103-109 | an empty stack draws nothing and does not panic; otherwise only the last scene draws |
| SceneStacks.SceneStack.Interact | src/scenes/scene_stack.rs:111-117 | an empty stack does nothing; otherwise only the last scene receives input |
| Scenes.PathVec | src/scenes/mod.rs:49-50 | the manifest is accepted exactly when it is an array of strings, and then gives one path per element |
| Scenes.LoadEntity | src/scenes/test_scene.rs:34-36 | a panic reading the entity file is passed on; a poisoned window lock after loading the entity panics; otherwise the world is the one the entity's task leaves, whatever the task returns |
| Scenes.TestSceneLoadSpec | src/scenes/test_scene.rs:30-46 | a value that is not an array of paths panics; the scene loads exactly when all its entities load, on the world they leave, and its task yields a fresh test scene |
| Scenes.TestSceneLoad | src/scenes/test_scene.rs:30-46 | the imperative entity loop computes exactly the reference load of the test scene |
| Scenes.AllEntitiesLoad | src/scenes/test_scene.rs:33-37 | with every entity file readable and the window lock sound, the entities load whatever their tasks return |
| Scenes.TestSceneUpdate | src/scenes/test_scene.rs:51-54 | update keeps the text, adds one to the frame counter and returns no transition |
| Scenes.LoadOneScene | src/scenes/mod.rs:54-63 | a panic reading the scene file is passed on; a type other than `test_scene` panics with the type; a panic loading the test scene is passed on; a poisoned window lock then panics; otherwise the scene is a fresh test scene, since the scene task never fails |
| Scenes.LoadScenesFrom | src/scenes/mod.rs:53-64 | the loop pushes one scene per path after the ones before it |
| Scenes.LoadScenes | src/scenes/mod.rs:48-75 | the imperative loader computes exactly the reference load |
| Scenes.LoadedTaskIsEager | src/scenes/mod.rs:60-73 | every scene is built during `load`; the returned task only hands over the finished, loaded stack |
| Scenes.AllTestScenesLoad | src/scenes/mod.rs:52-73 | when every path names a loadable test scene, the stack has one scene per path, in manifest order |
| Scenes.FirstBadScenePanics | src/scenes/mod.rs:54-58 | the first path whose file does not read, or is not a test scene, makes the whole load panic with that reason |
| Scenes.SceneStack.constructor | src/scenes/mod.rs:41-44 | the stack and its loaded flag are those given |
| Scenes.SceneStack.Update | src/scenes/mod.rs:77-94 | an empty stack panics; otherwise only the last scene changes and the transition is ignored |
| Scenes.SceneStack.Draw | src/scenes/mod.rs:96-102 | no-op on an empty stack; otherwise only the last scene draws |
| Scenes.SceneStack.Interact | src/scenes/mod.rs:104-110 | no-op on an empty stack; otherwise only the last scene receives input |
| CustomInputs.StepKeys | src/input.rs:36-54 | an update never adds to the held keys, keeps pressed and held disjoint, and ignores events that are not key inputs |
| CustomInputs.KeyEventEffects | src/input.rs:40-48 | a press of an unheld key marks it pressed, a press of a held key changes nothing, and a release marks it released and not held |
| CustomInputs.ClearKeys | src/input.rs:56-64 | clear empties the pressed and released sets and keeps pressed and held disjoint |
| CustomInputs.ClearKeysIdempotent | src/input.rs:56-64 | clear is idempotent, and the held keys afterwards are the old held and pressed keys |
| CustomInputs.FrameHeldAndReleased | src/input.rs:45-48 | over a frame, held loses exactly the released keys and released gains exactly them |
| CustomInputs.FramePressed | src/input.rs:40-44 | a key is pressed at the frame's end exactly when it was pressed before or some event pressed it while it was not held (not held at the start, or released earlier in the frame) |
| CustomInputs.CustomInput.constructor | src/input.rs:28-34 | three empty key sets |
| CustomInputs.CustomInput.Update | src/input.rs:36-54 | the sets become `StepKeys` of the old sets |
| CustomInputs.CustomInput.Clear | src/input.rs:56-64 | the sets become `ClearKeys` of the old sets |
| Mice.NewMouse | src/input/mouse.rs:73-82 | cursor and wheel at zero, both flags false, no buttons, so clearing changes nothing |
| Mice.MouseStep | src/input/mouse.rs:85-147 | Repeat and unrelated events change nothing; button events touch only the button maps, other events only the rest; at most one map changes |
| Mice.MouseClear | src/input/mouse.rs:150-153 | clear empties both button maps and keeps cursor, wheel and flags |
| Mice.PressRecordsCursor | src/input/mouse.rs:113-132 | a press after a cursor move records the new position, overwriting an earlier entry |
| Mice.ScrollReplaces | src/input/mouse.rs:133-140 | scrolling replaces the wheel movement rather than adding to it |
| Mice.EventEffects | src/input/mouse.rs:90-132 | Focus and CursorEnter set their flags to the event's value, CursorPos replaces the position, and a release records the cursor in the released map only |
| Mice.FrameButtons | src/input/mouse.rs:104-121 | over a frame, the clicked map gains exactly the pressed buttons and the released map exactly the released ones |
| Mice.Mouse.constructor | src/input/mouse.rs:73-82 | cursor and wheel at zero, both flags false, empty maps |
| Mice.Mouse.GetCursorPosition | src/input/mouse.rs:41-43 | the current cursor position |
| Mice.Mouse.GetWheelMovement | src/input/mouse.rs:46-48 | the last wheel movement |
| Mice.Mouse.GetIsCursorOwned | src/input/mouse.rs:51-53 | the focus flag |
| Mice.Mouse.GetIsCursorWithinWindow | src/input/mouse.rs:56-58 | the hover flag |
| Mice.Mouse.GetClickedButtons | src/input/mouse.rs:61-63 | the clicked map |
| Mice.Mouse.GetReleasedButtons | src/input/mouse.rs:66-68 | the released map |
| Mice.Mouse.Update | src/input/mouse.rs:85-147 | the fields become `MouseStep` of the old state |
| Mice.Mouse.Clear | src/input/mouse.rs:150-153 | the fields become `MouseClear` of the old state |
| MultiInputs.NewMulti | src/input/multi_input.rs:72-84 | a fresh mouse, the driver's initial keyboard, and no held buttons or keys |
| MultiInputs.Retain | src/input/multi_input.rs:121-124 | retaining keeps exactly the held buttons not released, with their positions |
| MultiInputs.MultiStep | src/input/multi_input.rs:87-133 | mouse events go to the mouse only and keyboard events to the keyboard only; held buttons and keys lose what was released and gain nothing |
| MultiInputs.MultiClear | src/input/multi_input.rs:136-147 | held buttons gain the clicked ones (clicked positions win), held keys gain the pressed ones, then mouse and keyboard are cleared |
| MultiInputs.FrameHeldButtons | src/input/multi_input.rs:117-131 | over a frame the mouse sees exactly the frame's events, and held buttons lose the released ones |
| MultiInputs.PressAndReleaseInOneFrameIsHeld | src/input/multi_input.rs:121-138 | a button pressed and released in one frame is not held at the frame's end, becomes held at clear, and stays held through a following event that is not a release |
| MultiInputs.MultiInput.constructor | src/input/multi_input.rs:72-84 | empty held collections with a fresh mouse and keyboard |
| MultiInputs.MultiInput.GetCursorPosition | src/input/multi_input.rs:20-22 | the mouse's cursor position |
| MultiInputs.MultiInput.GetWheelMovement | src/input/multi_input.rs:25-27 | the mouse's wheel movement |
| MultiInputs.MultiInput.GetIsCursorOwned | src/input/multi_input.rs:30-32 | the mouse's focus flag |
| MultiInputs.MultiInput.GetIsCursorWithinWindow | src/input/multi_input.rs:35-37 | the mouse's hover flag |
| MultiInputs.MultiInput.GetClickedButtons | src/input/multi_input.rs:40-42 | the mouse's clicked map |
| MultiInputs.MultiInput.GetReleasedButtons | src/input/multi_input.rs:50-52 | the mouse's released map |
| MultiInputs.MultiInput.GetHeldButtons | src/input/multi_input.rs:45-47 | the held buttons |
| MultiInputs.MultiInput.GetPressedKeys | src/input/multi_input.rs:55-57 | the keyboard's pressed keys |
| MultiInputs.MultiInput.GetHeldKeys | src/input/multi_input.rs:60-62 | the held keys |
| MultiInputs.MultiInput.GetReleasedKeys | src/input/multi_input.rs:65-67 | the keyboard's released keys |
| MultiInputs.MultiInput.Update | src/input/multi_input.rs:87-133 | the state becomes `MultiStep` of the old state |
| MultiInputs.MultiInput.Clear | src/input/multi_input.rs:136-147 | the state becomes `MultiClear` of the old state |
| MovePlayers.MoveBack | src/systems/move_player.rs:23-28 | below `MOVE_UNIT` the coordinate stays; otherwise it drops by `MOVE_UNIT`, never underflowing |
| MovePlayers.MoveForward | src/systems/move_player.rs:30-35 | above `u16::MAX - MOVE_UNIT` the coordinate stays; otherwise it rises by `MOVE_UNIT`, never overflowing |
| MovePlayers.MovePosition | src/systems/move_player.rs:22-50 | with one key of an axis held, that coordinate moves back or forward by the guarded step; with neither, it stays |
| MovePlayers.MoveEntity | src/systems/move_player.rs:22-50 | only entities with player control are moved, and an entity keeps its components |
| MovePlayers.Run | src/systems/move_player.rs:21-51 | every entity of the storage becomes `MoveEntity` of its old value |
| MovePlayers.AxesIndependent | src/systems/move_player.rs:23-49 | x depends only on Left and Right, y only on Up and Down |
| MovePlayers.NoArrowNoMove | src/systems/move_player.rs:22-50 | with no arrow key pressed the position is unchanged |
| MovePlayers.OpposingKeys | src/systems/move_player.rs:23-35 | with both keys of an axis pressed, Left applies before Right, so a coordinate below `MOVE_UNIT` gains `MOVE_UNIT` and others return to where they were |
| MovePlayers.SingleKeyMoves | src/systems/move_player.rs:23-49 | each arrow key alone moves its axis by `MOVE_UNIT` in its direction unless that would leave the `u16` range |
| Ints.Add16 | src/systems/animate_sprites.rs:26-29 | `u16` addition succeeds exactly when the sum fits, and panics with the overflow message otherwise |
| Ints.Sub16 | src/systems/animate_sprites.rs:17-22 | `u16` subtraction succeeds exactly when it does not underflow |
| Ints.Mul16 | src/systems/animate_sprites.rs:17-21 | `u16` multiplication succeeds exactly when the product fits |
| Ints.Div16 | src/components/animation.rs:94 | `u16` division panics on a zero divisor and otherwise truncates |
| Ints.Rem16 | src/systems/animate_sprites.rs:25 | `u16` remainder panics on a zero divisor |
| AnimateSprites.TotalFrames | src/systems/animate_sprites.rs:17 | the cycle length is non-negative when the frames are ordered |
| AnimateSprites.RowsDrop | src/systems/animate_sprites.rs:21 | the reset height difference is non-negative when the frames are ordered |
| AnimateSprites.StepSprite | src/systems/animate_sprites.rs:17-29 | a start frame after the end frame panics on the subtraction; a step changes only the counter and the source row |
| AnimateSprites.FramesFit | src/systems/animate_sprites.rs:17 | the cycle is at least as long as the number of frames |
| AnimateSprites.StepCounts | src/systems/animate_sprites.rs:25-29 | below the cycle length the counter rises by one, and the row advances by one height exactly when the counter is a non-zero multiple of the pause |
| AnimateSprites.StepResets | src/systems/animate_sprites.rs:17-23 | at the cycle length the counter restarts (ending at 1) and the row drops by `(end - start) * height` |
| AnimateSprites.CounterStaysInCycle | src/systems/animate_sprites.rs:17-29 | a counter within `0..=total_frames` stays within it |
| AnimateSprites.ZeroPausePanics | src/systems/animate_sprites.rs:25 | a zero frame pause panics on the remainder as soon as the counter is non-zero |
| AnimateSprites.CycleStep | src/systems/animate_sprites.rs:17-29 | inside one cycle a step moves from the state after `c` runs to the state after `c + 1` |
| AnimateSprites.RunsFromZero | src/systems/animate_sprites.rs:17-29 | from counter 0, `k` runs within a cycle reach the closed-form state for `k` |
| AnimateSprites.CycleEnd | src/systems/animate_sprites.rs:17-29 | the step at the cycle's end returns to the starting row with counter 1 |
| AnimateSprites.CycleCloses | src/systems/animate_sprites.rs:17-29 | from counter 0, `total_frames + 1` runs reach the same state as one run: the start row with counter 1 |
| AnimateSprites.Periodic | src/systems/animate_sprites.rs:17-29 | the animation is periodic with period `total_frames` |
| AnimateSprites.PeriodicAfter | src/systems/animate_sprites.rs:17-29 | a state that repeats after `p` runs keeps repeating with period `p` afterwards |
| AnimateSprites.StepSprites | src/systems/animate_sprites.rs:16-30 | the sprites of a drawable all step, in order, unless one panics |
| AnimateSprites.StepDrawable | src/systems/animate_sprites.rs:15 | a drawable without animated sprites is untouched; otherwise only its sprites change |
| AnimateSprites.StepAll | src/systems/animate_sprites.rs:16-30 | the in-place loop over a drawable's sprites computes `StepSprites` |
| AnimateSprites.StepSpritesStopsAtPanic | src/systems/animate_sprites.rs:16-30 | a panic stops the loop: later sprites do not matter |
| AnimateSprites.Run | src/systems/animate_sprites.rs:11-33 | the system succeeds exactly when every drawable steps, and then every drawable becomes its stepped value |
| Animations.CreateSpriteSpec | src/components/animation.rs:93-112 | zero total frames panics on the division and frame 0 on the subtraction; otherwise only the current frame changes |
| Animations.FrameInsideImage | src/components/animation.rs:94-110 | for a frame within `1..=total_frames` the rectangle is `dimensions.0 / total_frames` wide, starts at `width * (frame - 1)`, fits in the image, and the frame advances by one |
| Animations.Animation.constructor | src/components/animation.rs:76-84 | the animation's fields are those given |
| Animations.Animation.CreateSprite | src/components/animation.rs:93-112 | the sprite and new state are `CreateSpriteSpec` of the old state |
| Pixels.FlippedBytes | src/graphics/texture/mod.rs:162-175 | the bytes handed to the texture: four channels for each pixel of the flipped image |
| Pixels.FlipIsVertical | src/graphics/texture/mod.rs:162-175 | reversing each row and then the whole pixel sequence lists the rows last to first, each left to right: a vertical flip only |
| Pixels.FlippedPixelCount | src/graphics/texture/mod.rs:162-171 | the flip keeps `width * height` pixels |
| Pixels.ChannelCount | src/graphics/texture/mod.rs:172-175 | expanding pixels to RGBA gives four bytes per pixel |
| Pixels.FlippedSizes | src/graphics/texture/mod.rs:162-175 | the buffer has `4 * width * height` bytes |
| Pixels.FlippedPixelAt | src/graphics/texture/mod.rs:162-171 | pixel `(r, c)` of the buffer is the image's pixel `(height - 1 - r, c)` |
| Pixels.FlippedByteAt | src/graphics/texture/mod.rs:172-175 | byte `k` of buffer pixel `i` is channel `k` of that pixel |
| TextureDicts.TexelAt | src/globals/texture_dict.rs:121-149 | the uploaded texture's byte for pixel `(r, c)` and channel `k` is the image's pixel `(height - 1 - r, c)`, channel `k` |
| TextureDicts.TextureDict.constructor | src/globals/texture_dict.rs:30-31 | the default dictionary is empty |
| TextureDicts.TextureDict.ContainsKey | src/globals/texture_dict.rs:176-178 | lookup is by the handle's name only |
| TextureDicts.TextureDict.Get | src/globals/texture_dict.rs:181-188 | `get` finds a texture exactly when the name is present, and gives the stored one |
| TextureDicts.TextureDict.Insert | src/globals/texture_dict.rs:191-193 | insert returns the previous value, `get` then yields the new one, and other keys are unchanged |
| TextureDicts.New | src/globals/texture_dict.rs:59-91 | a path that is not Unicode fails with `PathConversionFailed`; otherwise the loader holds the manifest or the read error carrying the path |
| TextureDicts.EntryTexture | src/globals/texture_dict.rs:113-155 | an entry loads exactly when its image decodes and the GPU accepts the flipped texture |
| TextureDicts.LoadTextures | src/globals/texture_dict.rs:94-171 | a lock failure comes first; success means every entry loads, and the dictionary then has exactly the manifest's names with their textures; a failure is some failing entry's error and no dictionary |
| TextureDicts.FailingEntry | src/globals/texture_dict.rs:113-155 | one failing entry makes the whole load fail |
| TextureDicts.AllLoaded | src/globals/texture_dict.rs:109-169 | a dictionary holding every name with its texture is the loaded dictionary |
| Textures.TextureName | src/graphics/texture/mod.rs:93-115 | the name is the given one, otherwise the image path's file stem |
| Textures.LoadComponentSpec | src/graphics/texture/mod.rs:83-212 | a non-file path fails first and a missing stem next; a failure leaves the dictionary alone; a hit leaves it unchanged; a miss adds exactly the new texture; the builder gets the handle |
| Textures.LoadComponentSucceeds | src/graphics/texture/mod.rs:83-212 | loading succeeds exactly when the path is a file, the name exists, the lock is sound, and the name is cached or the image loads |
| Textures.CacheHitIgnoresImage | src/graphics/texture/mod.rs:129-206 | on a cache hit the image file, the context lock and the GPU are never consulted |
| Textures.Deserialize | src/graphics/texture/mod.rs:216-225 | deserialisation succeeds exactly when the reader does, and a failure carries the value |
| Textures.TextureLoader.constructor | src/graphics/texture/mod.rs:64-80 | the loader holds the manifest |
| Textures.TextureLoader.LoadComponent | src/graphics/texture/mod.rs:83-212 | the dictionary and the result are `LoadComponentSpec` of the old dictionary |
| Textures.TextureLoader.SetValue | src/graphics/texture/mod.rs:215-231 | a failed deserialisation leaves the manifest unchanged; success replaces it |
| Textures.TextureLoader.GetComponentName | src/graphics/texture/mod.rs:234-239 | the component name is "texture" |
| Globals.CombinedInserts | src/globals.rs:142-150 | a chain of inserts holds exactly the entries' names, each with its own value when the names are distinct |
| Globals.CopyFont | src/globals.rs:121-126 | an accepted font fills its slot's prefix; the rest of the slot and the other slots keep their bytes |
| Globals.FontsFrom | src/globals.rs:107-151 | the loop keeps the buffer's shape and, on success, adds one insert link per font in order |
| Globals.FontLoadSpec | src/globals.rs:61-159 | an unreadable manifest or a wrong load id gives a failing task before any font is read; the buffer keeps its shape |
| Globals.OversizedFontFails | src/globals.rs:121-139 | a font over 60000 bytes gives the size error with its size, name and path |
| Globals.AcceptedFontFillsSlot | src/globals.rs:121-150 | a font of at most 60000 bytes is copied into its slot, and `load_from_bytes` receives the whole slot |
| Globals.FifthFontPanics | src/globals.rs:30-124 | a fifth font indexes past the four slots and panics |
| Globals.FontDictNames | src/globals.rs:142-155 | a successful font load has exactly the manifest's names as keys |
| Globals.CopyIntoSlot | src/globals.rs:121-126 | the byte loop over `FONT_BYTES` performs `CopyFont` |
| Globals.LoadFonts | src/globals.rs:61-159 | the imperative loader computes exactly `FontLoadSpec`, buffer included |
| Globals.ImageLinks | src/globals.rs:250-263 | one image-load link per manifest entry, inserting its name |
| Globals.ImageLoadSpec | src/globals.rs:228-272 | an unreadable manifest gives a failing task |
| Globals.LoadImages | src/globals.rs:228-272 | the imperative loader computes exactly `ImageLoadSpec` |
| Globals.ImageDictNames | src/globals.rs:250-267 | a successful image load has exactly the manifest's names as keys |
| RenderStates.EquationFrom | src/graphics/render/deserializations.rs:88-98 | each equation converts to its luminance namesake, so `EquationDefOf` recovers it |
| RenderStates.FactorFrom | src/graphics/render/deserializations.rs:115-131 | every factor but `SrcAlphaComplement` converts to its namesake; `SrcAlphaComplement` converts to `DstAlphaComplement` |
| RenderStates.EquationBijective | src/graphics/render/deserializations.rs:88-98 | the Equation conversion is a bijection onto its namesakes |
| RenderStates.FactorKeepsOtherNames | src/graphics/render/deserializations.rs:115-131 | every Factor other than `SrcAlphaComplement` converts to its namesake |
| RenderStates.FactorNotInjective | src/graphics/render/deserializations.rs:115-131 | `SrcAlphaComplement` and `DstAlphaComplement` both convert to `DstAlphaComplement`, and nothing converts to `SrcAlphaComplement` |
| RenderStates.BlendingFrom | src/graphics/render/deserializations.rs:62-70 | a blending converts equation, source and destination factor componentwise |
| RenderStates.OptionBlendingFrom | src/graphics/render/deserializations.rs:52-60 | a blending definition always gives some blending |
| RenderStates.DepthComparisonFrom | src/graphics/render/deserializations.rs:145-158 | each depth comparison converts to its namesake, so `DepthComparisonDefOf` recovers it |
| RenderStates.DepthComparisonBijective | src/graphics/render/deserializations.rs:145-158 | DepthComparison converts bijectively |
| RenderStates.DepthWriteFrom | src/graphics/render/deserializations.rs:166-173 | `On` and `Off` convert to their namesakes |
| RenderStates.DepthWriteBijective | src/graphics/render/deserializations.rs:166-173 | DepthWrite converts bijectively |
| RenderStates.FaceCullingOrderFrom | src/graphics/render/deserializations.rs:193-200 | `CW` and `CCW` convert to their namesakes |
| RenderStates.FaceCullingOrderBijective | src/graphics/render/deserializations.rs:193-200 | FaceCullingOrder converts bijectively |
| RenderStates.FaceCullingModeFrom | src/graphics/render/deserializations.rs:209-217 | `Front`, `Back` and `Both` convert to their namesakes |
| RenderStates.FaceCullingModeBijective | src/graphics/render/deserializations.rs:209-217 | FaceCullingMode converts bijectively |
| RenderStates.FaceCullingFrom | src/graphics/render/deserializations.rs:181-185 | face culling converts order and mode componentwise |
| RenderStates.ScissorRegionFrom | src/graphics/render/deserializations.rs:227-236 | the scissor region's x, y, width and height are copied |
| RenderStates.RenderStateFrom | src/graphics/render/deserializations.rs:26-41 | absent options stay absent and present ones are converted; no blending keeps the default, Combined sets one and Separate sets both independently |
| RenderStates.BlendingRoundTrip | src/graphics/render/deserializations.rs:52-70 | without `SrcAlphaComplement` a blending converts back to itself |
| RenderStates.RenderStateRoundTrip | src/graphics/render/deserializations.rs:26-41 | without `SrcAlphaComplement` a render-state definition converts back to itself |
| RenderStates.RenderStateCollision | src/graphics/render/deserializations.rs:34-131 | two definitions differing only in `SrcAlphaComplement` versus `DstAlphaComplement` convert to the same state |
| Tessellations.ModeFrom | src/graphics/tess.rs:195-207 | each mode converts to its namesake and a patch keeps its size, so `ModeDefOf` recovers it |
| Tessellations.ModeBijective | src/graphics/tess.rs:195-207 | Mode converts bijectively, and a patch keeps its size |
| Tessellations.ConfiguredBuilder | src/graphics/tess.rs:90-112 | the mode and the two counts are applied only when present |
| Tessellations.LoadSpec | src/graphics/tess.rs:50-124 | a deserialisation failure carries the file path and comes before any lock; then the world lock, then the context lock |
| Tessellations.LoadTask | src/graphics/tess.rs:53-123 | the loader's steps compute exactly `LoadSpec` |
| Tessellations.UnusedSettingsIgnored | src/graphics/tess.rs:33-112 | restart index and attributes are parsed but have no effect |
| Tessellations.LoadDefault | src/graphics/tess.rs:127-162 | the default load fails on either lock, and otherwise builds a triangle fan of 4 vertices |
| Tessellations.DefaultIsFanManifest | src/graphics/tess.rs:151-155 | the default is the load of a manifest asking for a triangle fan of 4 vertices |
| Texts.VAlign | src/components/drawables/text.rs:61-66 | exactly "Top", "Center" and "Bottom" are accepted, as their namesakes; anything else panics |
| Texts.HAlign | src/components/drawables/text.rs:68-73 | exactly "Left", "Center" and "Right" are accepted; anything else panics |
| Texts.AlignmentNamesRoundTrip | src/components/drawables/text.rs:61-73 | alignment names and alignments are inverse |
| Texts.TextFrom | src/components/drawables/text.rs:59-91 | conversion succeeds exactly when both alignments do, copies content, index and font, and takes position and bounds from the pairs |
| Texts.CoffeeTextFrom | src/components/drawables/text.rs:27-38 | the coffee text uses `content[content_index]` and panics for an index past the end |
| Texts.IndexCheckedOnlyWhenDrawn | src/components/drawables/text.rs:30-90 | an out-of-range content index passes construction and panics only in the coffee conversion |
| Texts.TextLoader.constructor | src/components/drawables/text.rs:100-107 | the loader holds the manifest |
| Texts.TextLoader.LoadComponent | src/components/drawables/text.rs:109-111 | the component is the converted text |
| Texts.TextLoader.SetValue | src/components/drawables/text.rs:113-116 | a failure leaves the manifest unchanged; success replaces it |
| Texts.TextLoader.GetComponentName | src/components/drawables/text.rs:118-120 | the component name is "text" |
| ShapeDrawables.GetColor | src/components/drawables/shapes.rs:40-42 | the colour's four channels are copied |
| ShapeDrawables.GetStrokeWidth | src/components/drawables/shapes.rs:44-50 | some width exactly for a stroke, and that stroke's width |
| ShapeDrawables.PointsFrom | src/components/drawables/shapes.rs:117-123 | polyline points keep their count and order |
| ShapeDrawables.ShapeFrom | src/components/drawables/shapes.rs:92-124 | every manifest shape converts to the same kind of coffee shape with every number kept, so `ShapeJsonOf` recovers it |
| ShapeDrawables.ShapeRoundTrip | src/components/drawables/shapes.rs:92-124 | shape conversion is a bijection: every field is copied |
| ShapeDrawables.MeshOpFrom | src/components/drawables/shapes.rs:126-130 | a stroke description issues a stroke with its width, a fill a fill, with the converted shape and colour |
| ShapeDrawables.MeshOps | src/components/drawables/shapes.rs:91-131 | the mesh's operations, one per manifest entry in manifest order, the i-th made from the i-th entry |
| ShapeDrawables.MeshOpsPointwise | src/components/drawables/shapes.rs:91-131 | the `i`-th mesh operation is that of the `i`-th entry |
| ShapeDrawables.MeshOpsLength | src/components/drawables/shapes.rs:89-133 | one operation per entry, none for an empty list |
| ShapeDrawables.MeshOpsAppend | src/components/drawables/shapes.rs:91-131 | the operations of concatenated lists are concatenated, in list order |
| ShapeDrawables.ShapesFrom | src/components/drawables/shapes.rs:87-135 | the mesh holds the entries' operations |
| ShapeDrawables.ShapesLoader.constructor | src/components/drawables/shapes.rs:143-152 | the loader holds the manifest |
| ShapeDrawables.ShapesLoader.LoadComponent | src/components/drawables/shapes.rs:154-156 | the component's mesh is the manifest's operations |
| ShapeDrawables.ShapesLoader.SetValue | src/components/drawables/shapes.rs:158-161 | a failure leaves the manifest unchanged; success replaces it |
| ShapeDrawables.ShapesLoader.GetComponentName | src/components/drawables/shapes.rs:163-165 | the component name is "shapes" |
| Transforms.DefaultTransform | src/graphics/transform.rs:23-31 | translation (0, 0), scale (0, 0) and not (1, 1), rotation 0 |
| Transforms.TransformFrom | src/graphics/transform.rs:85-89 | translation, scale and rotation are copied from the manifest |
| Transforms.TransformRoundTrip | src/graphics/transform.rs:57-89 | manifest and transform convert into each other without loss |
| Transforms.FromJson | src/graphics/transform.rs:66-81 | deserialisation succeeds exactly when the reader does; a failure carries the value |
| Transforms.TransformLoader.constructor | src/graphics/transform.rs:66-81 | the loader holds the manifest |
| Transforms.TransformLoader.LoadComponent | src/graphics/transform.rs:84-97 | the component carries the manifest's fields |
| Transforms.TransformLoader.SetValue | src/graphics/transform.rs:100-128 | a wrong id gives `LoadTypeIDError` with "transform"; a failed deserialisation gives its error; either failure leaves the manifest unchanged; success replaces it |
| Transforms.TransformLoader.GetComponentName | src/graphics/transform.rs:131-133 | the component name is "transform" |
| Entities.NewLoader | src/entities/mod.rs:44-53 | the loader holds the entity file path |
| Entities.Step | src/entities/mod.rs:93-123 | read, mux and loader failures map to their own errors, each carrying the offending path or value |
| Entities.Fold | src/entities/mod.rs:90-126 | the component loop: no paths leave the builder and world as they are, and a failing first step is the loop's result, with nothing after it run |
| Entities.FoldAppend | src/entities/mod.rs:90-126 | component paths are processed in manifest order, with the builder threaded through |
| Entities.FoldStopsAtFailure | src/entities/mod.rs:93-123 | after the first failure, later paths are not processed |
| Entities.FoldSnoc | src/entities/mod.rs:90-126 | after a successful prefix, the next path is applied to the builder it left |
| Entities.LoadEntityRun | src/entities/mod.rs:56-135 | a manifest failure comes before any lock, then the lock; an empty list builds an entity with no components; otherwise the entity is built only after every component succeeds |
| Entities.LoadEntity | src/entities/mod.rs:56-135 | the returned task runs as `LoadEntityRun` on every world |
| Entities.RunLoadEntity | src/entities/mod.rs:59-134 | the imperative task body computes `LoadEntityRun` |
| TestGlobals.CheckId | tests/test_globals/mod.rs:80-95 | the id check passes exactly for the loader's own id and otherwise gives `TestComponentLoadIDError` with both ids |
| TestGlobals.BasicTestComponentLoader.constructor | tests/test_globals/mod.rs:82-86 | the loader caches the value under its own id |
| TestGlobals.BasicTestComponentLoader.LoadComponent | tests/test_globals/mod.rs:99-108 | the component is the cached value deserialised, or the deserialiser's error |
| TestGlobals.BasicTestComponentLoader.SetValue | tests/test_globals/mod.rs:110-122 | a matching id replaces the cached value; a mismatch errors and keeps it |
| TestGlobals.BasicTestComponentLoader.GetComponentName | tests/test_globals/mod.rs:124-126 | the name is the component's load id |
| TestGlobals.NewLoader | tests/test_globals/mod.rs:80-95 | `new` succeeds exactly for a matching id, caching the envelope's value |
| TestGlobals.MapJsonToLoader | tests/test_globals/mod.rs:34-43 | only "basic_test_number_component" gets a loader; any other id gives `LoadIDMatchError` with that id |
| Cameras.ViewOf | src/camera/orthographic_camera.rs:41-58 | the flag is clear afterwards and the view returned is the stored one; with the flag set it is recomputed from position, target and up; with it clear nothing changes |
| Cameras.ViewIdempotent | src/camera/orthographic_camera.rs:41-58 | two views with no setter between them are equal |
| Cameras.ViewIsCurrent | src/camera/orthographic_camera.rs:45-55 | when the cache is sound the view is the current one, and the cache stays sound |
| Cameras.WithPosition | src/camera/orthographic_camera.rs:68-73 | setting the position changes only it and sets the flag |
| Cameras.WithTarget | src/camera/orthographic_camera.rs:91-96 | setting the target changes only it and sets the flag |
| Cameras.WithUpVector | src/camera/orthographic_camera.rs:114-119 | setting the up vector changes only it and sets the flag |
| Cameras.ViewAfterSetters | src/camera/orthographic_camera.rs:68-119 | after any setter the next view is recomputed from the new values |
| Cameras.CameraCell.constructor | src/camera/orthographic_camera.rs:15 | the shared cell holds the values |
| Cameras.Camera.constructor | src/camera/orthographic_camera.rs:14-15 | the camera refers to the shared cell |
| Cameras.Camera.Clone | src/camera/orthographic_camera.rs:14-15 | a clone is a new camera on the same cell |
| Cameras.Camera.View | src/camera/orthographic_camera.rs:41-58 | the matrix and the cell's new values are `ViewOf` the old values |
| Cameras.Camera.Position | src/camera/orthographic_camera.rs:61-65 | the position held in the shared cell |
| Cameras.Camera.Target | src/camera/orthographic_camera.rs:84-88 | the target held in the shared cell |
| Cameras.Camera.UpVector | src/camera/orthographic_camera.rs:107-111 | the up vector held in the shared cell |
| Cameras.Camera.SetPosition | src/camera/orthographic_camera.rs:68-73 | the values become `WithPosition`, and the getter returns the new position |
| Cameras.Camera.TranslatePosition | src/camera/orthographic_camera.rs:76-81 | the position becomes the translated old position |
| Cameras.Camera.SetTarget | src/camera/orthographic_camera.rs:91-96 | the values become `WithTarget`, and the getter returns the new target |
| Cameras.Camera.TranslateTarget | src/camera/orthographic_camera.rs:99-104 | the target becomes the translated old target |
| Cameras.Camera.SetUpVector | src/camera/orthographic_camera.rs:114-119 | the values become `WithUpVector`, and the getter returns the new up vector |
| Cameras.Camera.SetPositionThroughClone | src/camera/orthographic_camera.rs:14-73 | a position set through a clone is seen through the original, with the flag set |
| OrthographicCameras.DefaultValues | src/camera/orthographic_camera.rs:26-36 | zero position and target, up Y, zero view, flag set, so the cache is sound |
| OrthographicCameras.VecOr | src/camera/orthographic_camera.rs:163-183 | a given vector is used, otherwise the default |
| OrthographicCameras.LoadValues | src/camera/orthographic_camera.rs:149-189 | loading succeeds exactly when deserialising does; missing position or target give zero and a missing up gives Y, with the flag set |
| OrthographicCameras.LoadedViewIsCurrent | src/camera/orthographic_camera.rs:45-184 | a loaded camera's first view is the current one |
| OrthographicCameras.LoadCamera | src/camera/orthographic_camera.rs:149-189 | the loader gives a fresh camera holding `LoadValues`, or its error |
| PerspectiveCameras.DefaultValues | src/camera/perspective_camera.rs:26-36 | the same values with the flag clear, so the cache is not sound |
| PerspectiveCameras.VecOrZero | src/camera/perspective_camera.rs:163-183 | a given vector is used, otherwise zero (also for the up vector) |
| PerspectiveCameras.LoadValues | src/camera/perspective_camera.rs:149-189 | loading succeeds exactly when deserialising does; missing vectors give zero, and the flag is left clear |
| PerspectiveCameras.LoadedViewIsZeroUntilSet | src/camera/perspective_camera.rs:45-184 | the loaded camera's view is the stored zero matrix, not the current one, until a setter is called |
| PerspectiveCameras.LoadCamera | src/camera/perspective_camera.rs:149-189 | the loader gives a fresh camera holding `LoadValues`, or its error |

## Left out

- The event loop, windowing and buffer swapping (src/game_loop/mod.rs, src/game.rs, src/main.rs): window I/O.
- GPU rendering and shader compilation (sprite_renderer.rs, shader.rs, render/mod.rs): foreign GPU calls.
- Audio (audio_controller.rs, play_default_sounds.rs, default_sound.rs): foreign audio calls.
- The drawing-only systems draw_basic.rs and animation_player.rs: their bodies are drawing calls only.
- Dead code: top_down_2D.rs, which is not in the module tree; Texture2D.rs, which is commented out; image_dict.rs, whose loop body is commented out.
- The thin field-copy loaders (sprite.rs, animated_sprite.rs, drawables/mod.rs, text_display.rs, mesh_graphic.rs, position.rs, player_control.rs) and `Animation::load`: they only copy JSON fields or load an image.
- Thread pool, logging setup and the graph-generator script: infrastructure.
- src/load.rs, serde's `from_value`, `fs::read` and image decoding: they are external functions over parameters. A file is readable exactly when it is in the given map. The earlier scene loader of src/scenes/mod.rs and src/scenes/test_scene.rs calls a `load_json` without a `Result` that is not part of this model; it is an environment function that returns the file or panics with a message of its own.
- coffee's `Task` and `Join`: they are modelled with the same state-transformer shape as the engine's own `Task`. The engine's `DrawTask` and `GenTask` aliases are that shape too.
- The `SceneLoader::load_scene` factory and a scene's own update, draw and interact: they are parameters. Only the test scene's update is spelt out.
- Scene transitions: Pop, Push, Swap and Clear are matched and then discarded by the code, so the stack is never edited.
- The keyboard of src/input/keyboard.rs is not part of this model: `MultiInput` uses it through an abstract driver of update, clear, pressed and released functions.
- `TextureDict::get_mut`: it is the same lookup as `get`, and mutable borrowing has no counterpart here.
- Iteration order of Rust `HashMap`s is unspecified. The texture-dictionary loader picks entries with `:|`, so its error is proved to be some failing entry's error, not a particular one's. The font and image manifests are given as sequences in the order the deserialiser yields them.
- Lock poisoning: `RwLock` poisoning and thread interleaving are concurrency. Each lock is a flag in the environment saying whether acquiring it fails; this includes the window locks that the earlier scene loader and the test scene take with `expect`. Only the camera's `expect` on its lock is assumed to succeed.
- Globals.FontsFrom: each font task captures the slot's bytes when `load` runs. The source lends the static `FONT_BYTES` buffer to a task that reads it only when run, so a second `FontDictLoader::load` that overwrites the slots before the first load's tasks run, and the first tasks then reading the new bytes, is not modelled.
- Textures.LoadComponentSpec: `world.fetch_mut::<TextureDict>()` and `world.fetch_mut::<Context>()` (src/graphics/texture/mod.rs:125, 183) panic when the resource was never inserted into the world; the resources are assumed registered at start-up, so no such panic is modelled.
- Tessellations.LoadSpec and Tessellations.LoadDefault: `ecs.fetch::<Context>()` (src/graphics/tess.rs:79, 140) is assumed to find the context, as above.
- Entities.LoadEntityRun: `fetch::<LazyUpdate>()` and `fetch::<EntitiesRes>()` (src/entities/mod.rs:82-83) are assumed to find their resources, as above.
- `Transform::to_model` (src/graphics/transform.rs:37-47) is not modelled: it builds a matrix for the sprite renderer, which is drawing only.
- Float maths: the camera's `look_at_rh` is the symbolic term `LookAtRh`, and `transform_point3` and `project_point3` are the `apply` parameter of `TranslatePosition` and `TranslateTarget`. Floating-point values that are only copied are `real`.
- The coffee mesh is modelled as the list of stroke and fill operations issued on it, not as geometry.
- Panic messages of `unwrap` and `expect` (`UnwrapPanic`, `SceneVecPanic`, `SceneWindowPanic`, `SceneTaskPanic`, `EntityVecPanic`, `TestSceneWindowPanic`) are the prefixes of Rust's messages: the `: ` and `Debug` text of the error that Rust appends, and the JSON value that src/scenes/mod.rs:50 formats into its message, are not modelled, because the error values of serde, the file system and the lock are not.
- The `println!` before the panic on an empty scene stack (src/scenes/scene_stack.rs:90, src/scenes/mod.rs:83) and the one on drawing or interacting with an empty stack: console output. The panic itself is `panic!()`, whose message is "explicit panic".
- Scenes.TestSceneLoad: the `LoadableEntity::load` of this revision is an environment function, and the value of each entity's task is dropped, as the code drops it; only the world the task leaves is kept.
- Ints: release builds wrap `u16` and `u32` arithmetic around instead of panicking; the model follows debug builds and does not model the wrap-around.
- Panic messages that Rust prints with `Debug` formatting put the offending string between double quotes without escaping its characters.
- Scenes.TestSceneUpdate: requires the `u32` frame counter to be below its maximum instead of modelling the overflow panic of `frame_counter + 1`.
- TestGlobals.BasicTestComponentLoader.GetComponentName: requires `Valid()`, the class invariant that the component name is the load id, which the constructor establishes and nothing changes.
