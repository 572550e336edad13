/**
 * The sprite animation system of src/systems/animate_sprites.rs.  An animated
 * sprite shows the frames `start_frame ..= end_frame` of a sprite sheet laid
 * out vertically, each for `frame_pause` runs; `frame_pause_counter` counts
 * the runs of the current cycle and `source.y` is the row of the frame shown.
 * All arithmetic is on `u16`, and an out-of-range result panics.
 */
module AnimateSprites {
  import opened Wrappers
  import opened Ints
  import opened Sprites

  /** `AnimatedSprite`; the image name is only carried along. */
  datatype AnimatedSprite = AnimatedSprite(
    sprite: CoffeeSprite,
    startFrame: u16,
    endFrame: u16,
    framePause: u16,
    framePauseCounter: u16,
    image: string)

  /** The `Drawable` component: the animated sprites, if any, and the drawables the system does not touch. */
  datatype Drawable<Other> = Drawable(other: Other, animatedSprites: Option<seq<AnimatedSprite>>)

  /** `(end_frame - start_frame + 1) * frame_pause`, as an exact integer. */
  function TotalFrames(s: AnimatedSprite): (r: int)
    ensures s.startFrame <= s.endFrame ==> 0 <= r
  {
    var frames := s.endFrame as int - s.startFrame as int + 1;
    var pause := s.framePause as int;
    if 0 <= frames then MulMonotone(pause, 0, frames); frames * pause else frames * pause
  }

  /** The body of the inner loop of `run`, for one sprite. */
  function StepSprite(s: AnimatedSprite): (r: Outcome<AnimatedSprite>)
    ensures s.startFrame > s.endFrame ==> r == Panic(SubOverflow)
    ensures r.Done? ==> r.value == WithCounterAndRow(s, r.value.framePauseCounter, r.value.sprite.source.y)
  {
    var source := s.sprite.source;
    var frames :- Sub16(s.endFrame, s.startFrame);
    var framesPlusOne :- Add16(frames, 1);
    var totalFrames :- Mul16(framesPlusOne, s.framePause);
    var reset := s.framePauseCounter == totalFrames;
    var heightDifference :- if reset then Mul16(frames, source.height) else Done(0);
    var y1 :- if reset then Sub16(source.y, heightDifference) else Done(source.y);
    var counter := if reset then 0 else s.framePauseCounter;
    var offset :- if counter != 0 then Rem16(counter, s.framePause) else Done(1);
    var y2 :- if counter != 0 && offset == 0 then Add16(y1, source.height) else Done(y1);
    var counter' :- Add16(counter, 1);
    Done(WithCounterAndRow(s, counter', y2))
  }

  /** The sprite with a new pause counter and a new source row, everything else kept. */
  function WithCounterAndRow(s: AnimatedSprite, counter: u16, y: u16): AnimatedSprite
  {
    s.(framePauseCounter := counter, sprite := s.sprite.(source := s.sprite.source.(y := y)))
  }

  /** `(end_frame - start_frame) * height`: how far the row moves back when a cycle ends. */
  function RowsDrop(s: AnimatedSprite): (r: int)
    ensures s.startFrame <= s.endFrame ==> 0 <= r
  {
    var frames := s.endFrame as int - s.startFrame as int;
    var height := s.sprite.source.height as int;
    if 0 <= frames then MulMonotone(height, 0, frames); height * frames else height * frames
  }

  /** The frame range is well formed and a whole cycle's length fits in a `u16`. */
  predicate FramesSafe(s: AnimatedSprite)
  {
    s.startFrame <= s.endFrame && 1 <= s.framePause && TotalFrames(s) <= U16_MAX as int
  }

  lemma FramesFit(s: AnimatedSprite)
    requires FramesSafe(s)
    ensures 1 + (s.endFrame as int - s.startFrame as int) <= TotalFrames(s)
  {
    MulMonotone(s.endFrame as int - s.startFrame as int + 1, 1, s.framePause as int);
  }

  /**
   * Inside a cycle the counter goes up by one, and the row advances by one
   * frame height exactly when the counter is a non-zero multiple of `frame_pause`.
   */
  lemma StepCounts(s: AnimatedSprite)
    requires FramesSafe(s) && s.framePauseCounter as int < TotalFrames(s)
    requires var c := s.framePauseCounter;
             c != 0 && c % s.framePause == 0 ==> s.sprite.source.y as int + s.sprite.source.height as int <= U16_MAX as int
    ensures var c := s.framePauseCounter;
            var advance := c != 0 && c % s.framePause == 0;
            StepSprite(s) == Done(WithCounterAndRow(s, c + 1, if advance then s.sprite.source.y + s.sprite.source.height else s.sprite.source.y))
  {
    FramesFit(s);
  }

  /** At the end of a cycle the counter restarts and the row goes back to the first frame. */
  lemma StepResets(s: AnimatedSprite)
    requires FramesSafe(s) && s.framePauseCounter as int == TotalFrames(s)
    requires RowsDrop(s) <= s.sprite.source.y as int
    ensures StepSprite(s) == Done(WithCounterAndRow(s, 1, (s.sprite.source.y as int - RowsDrop(s)) as u16))
  {
    FramesFit(s);
    var frames := s.endFrame - s.startFrame;
    var height := s.sprite.source.height;
    assert Sub16(s.endFrame, s.startFrame) == Done(frames);
    assert Add16(frames, 1) == Done(frames + 1);
    assert (frames + 1) as int * s.framePause as int == TotalFrames(s);
    assert Mul16(frames + 1, s.framePause) == Done(s.framePauseCounter);
    assert frames as int * height as int == RowsDrop(s);
    var drop := RowsDrop(s) as u16;
    assert Mul16(frames, height) == Done(drop);
    var y := s.sprite.source.y - drop;
    assert Sub16(s.sprite.source.y, drop) == Done(y);
    assert Add16(0, 1) == Done(1);
  }

  /** The counter stays within `0 ..= total_frames`; after a run it is at least 1. */
  lemma CounterStaysInCycle(s: AnimatedSprite)
    requires 1 <= s.framePause && 0 <= s.framePauseCounter as int <= TotalFrames(s)
    requires StepSprite(s).Done?
    ensures 1 <= StepSprite(s).value.framePauseCounter as int <= TotalFrames(s)
  {
    if s.startFrame <= s.endFrame {
      MulMonotone(s.endFrame as int - s.startFrame as int + 1, 1, s.framePause as int);
    }
  }

  /** The inner loop of `run`: the sprites of one drawable, in order; the first panic ends the run. */
  function StepSprites(sprites: seq<AnimatedSprite>): (r: Outcome<seq<AnimatedSprite>>)
    ensures r.Done? <==> forall i :: 0 <= i < |sprites| ==> StepSprite(sprites[i]).Done?
    ensures r.Done? ==> |r.value| == |sprites| && forall i :: 0 <= i < |sprites| ==> r.value[i] == StepSprite(sprites[i]).value
    decreases |sprites|
  {
    if sprites == [] then Done([])
    else
      var rest :- StepSprites(sprites[..|sprites| - 1]);
      var last :- StepSprite(sprites[|sprites| - 1]);
      Done(rest + [last])
  }

  /** The outer loop's body: a drawable whose `animated_sprites` is `None` is untouched. */
  function StepDrawable<Other>(d: Drawable<Other>): (r: Outcome<Drawable<Other>>)
    ensures d.animatedSprites.None? ==> r == Done(d)
    ensures r.Done? ==> r.value.other == d.other && r.value.animatedSprites.Some? == d.animatedSprites.Some?
  {
    match d.animatedSprites
    case None => Done(d)
    case Some(sprites) =>
      var sprites' :- StepSprites(sprites);
      Done(d.(animatedSprites := Some(sprites')))
  }

  /** The inner loop of `run`, over the sprites of one drawable. */
  method StepAll(sprites: seq<AnimatedSprite>) returns (o: Outcome<seq<AnimatedSprite>>)
    ensures o == StepSprites(sprites)
  {
    var stepped: seq<AnimatedSprite> := [];
    for k := 0 to |sprites|
      invariant StepSprites(sprites[..k]) == Done(stepped)
    {
      var next := StepSprite(sprites[k]);
      assert sprites[..k + 1][..k] == sprites[..k];
      if next.Panic? {
        assert sprites == sprites[..k + 1] + sprites[k + 1..];
        StepSpritesStopsAtPanic(sprites[..k + 1], sprites[k + 1..]);
        return Panic(next.message);
      }
      stepped := stepped + [next.value];
    }
    assert sprites[..|sprites|] == sprites;
    return Done(stepped);
  }

  /** The first sprite that panics decides the panic: the sprites after it are never stepped. */
  lemma {:induction false} StepSpritesStopsAtPanic(xs: seq<AnimatedSprite>, ys: seq<AnimatedSprite>)
    requires StepSprites(xs).Panic?
    ensures StepSprites(xs + ys) == StepSprites(xs)
    decreases |ys|
  {
    if ys == [] {
      assert xs + ys == xs;
    } else {
      var n := |ys| - 1;
      assert (xs + ys)[..|xs + ys| - 1] == xs + ys[..n];
      StepSpritesStopsAtPanic(xs, ys[..n]);
    }
  }

  /** `AnimateSprites::run`: every drawable in place.  On a panic the program ends and the array no longer matters. */
  method Run<Other>(drawables: array<Drawable<Other>>) returns (o: Outcome<()>)
    modifies drawables
    ensures o.Done? <==> forall i :: 0 <= i < drawables.Length ==> StepDrawable(old(drawables[i])).Done?
    ensures o.Done? ==> forall i :: 0 <= i < drawables.Length ==> drawables[i] == StepDrawable(old(drawables[i])).value
  {
    for i := 0 to drawables.Length
      invariant forall j :: 0 <= j < i ==> StepDrawable(old(drawables[j])).Done? && drawables[j] == StepDrawable(old(drawables[j])).value
      invariant forall j :: i <= j < drawables.Length ==> drawables[j] == old(drawables[j])
    {
      var drawable := drawables[i];
      if drawable.animatedSprites.Some? {
        var stepped := StepAll(drawable.animatedSprites.value);
        if stepped.Panic? {
          return Panic(stepped.message);
        }
        drawables[i] := drawable.(animatedSprites := Some(stepped.value));
      }
    }
    return Done(());
  }

  // ---------------------------------------------------------------------------
  // The animation cycle

  /** `k` runs of the system on one sprite. */
  function Runs(s: AnimatedSprite, k: nat): Outcome<AnimatedSprite>
  {
    Repeat(StepSprite, Done(s), k)
  }

  /** `k` more applications of `step` after the outcome `o`; a panic stays a panic. */
  function Repeat<T>(step: T -> Outcome<T>, o: Outcome<T>, k: nat): Outcome<T>
    decreases k
  {
    if k == 0 then o
    else
      var t := Repeat(step, o, k - 1);
      if t.Panic? then Panic(t.message) else step(t.value)
  }

  /**
   * The sprite can cycle forever: its frame range is well formed, every frame
   * is shown for at least one run, the cycle length fits in a `u16`, and the
   * last frame's row lies inside the `u16` range.
   */
  predicate CycleSafe(s: AnimatedSprite)
  {
    FramesSafe(s)
    && s.sprite.source.y as int + RowsDrop(s) <= U16_MAX as int
  }

  /** The state reached after `k` runs from a fresh counter: the row advances once every `frame_pause` runs. */
  function CycleState(s: AnimatedSprite, k: nat): AnimatedSprite
    requires CycleSafe(s) && 1 <= k <= TotalFrames(s)
  {
    StepsInRange(k - 1, s.framePause as int, s.endFrame as int - s.startFrame as int + 1, TotalFrames(s));
    WithCounterAndRow(s, k as u16, AdvancedRow(s, (k - 1) / s.framePause as int))
  }

  function AdvancedRow(s: AnimatedSprite, steps: nat): u16
    requires CycleSafe(s) && steps <= s.endFrame as int - s.startFrame as int
  {
    var height := s.sprite.source.height as int;
    MulMonotone(height, steps, s.endFrame as int - s.startFrame as int);
    MulMonotone(height, 0, steps);
    assert height * (s.endFrame as int - s.startFrame as int) == RowsDrop(s);
    (s.sprite.source.y as int + height * steps) as u16
  }

  /** Writing `c - 1 = q * p + m` shows how `c / p` and `c % p` follow from `(c - 1) / p`. */
  lemma DivStep(c: int, p: int)
    requires 1 <= c && 1 <= p
    ensures c / p == (c - 1) / p + (if c % p == 0 then 1 else 0)
  {
    var q := (c - 1) / p;
    var m := (c - 1) % p;
    if m + 1 == p {
      assert c == (q + 1) * p + 0;
      DivUnique(c, p, q + 1, 0);
    } else {
      DivUnique(c, p, q, m + 1);
    }
  }

  /** Euclidean division is unique. */
  lemma DivUnique(c: int, p: int, q: int, m: int)
    requires 1 <= p && 0 <= m < p && c == q * p + m
    ensures c / p == q && c % p == m
  {
    var q', m' := c / p, c % p;
    var d := q - q';
    assert d * p == m' - m by {
      assert q * p - q' * p == (q - q') * p;
    }
    MulSign(d, p);
  }

  /** A non-zero multiple of `p` is at least `p` away from zero. */
  lemma MulSign(d: int, p: int)
    requires 1 <= p
    ensures d >= 1 ==> d * p >= p
    ensures d <= -1 ==> d * p <= -p
  {
    if d >= 1 {
      MulMonotone(p, 1, d);
    } else if d <= -1 {
      MulMonotone(p, 1, -d);
    }
  }

  /** Within a cycle of `total = frames * p` runs, fewer than `frames` rows are advanced. */
  lemma StepsInRange(c: int, p: int, frames: int, total: int)
    requires 0 <= c < total && total == frames * p && 1 <= p && 1 <= frames
    ensures 0 <= c / p <= frames - 1
  {
    var q := c / p;
    if q >= frames {
      MulMonotone(p, frames, q);
    }
  }

  /** One run inside the cycle moves from the state after `c` runs to the state after `c + 1`. */
  lemma CycleStep(s: AnimatedSprite, c: nat)
    requires CycleSafe(s) && 1 <= c < TotalFrames(s)
    ensures StepSprite(CycleState(s, c)) == Done(CycleState(s, c + 1))
  {
    var p := s.framePause as int;
    var frames := s.endFrame as int - s.startFrame as int + 1;
    var h := s.sprite.source.height as int;
    var t := CycleState(s, c);
    DivStep(c, p);
    StepsInRange(c, p, frames, TotalFrames(s));
    StepsInRange(c - 1, p, frames, TotalFrames(s));
    MulMonotone(h, c / p, frames - 1);
    assert h * (frames - 1) == RowsDrop(s);
    assert t.framePauseCounter as int == c && t.framePause == s.framePause;
    assert TotalFrames(t) == TotalFrames(s);
    assert t.sprite.source.y as int == s.sprite.source.y as int + h * ((c - 1) / p);
    if c % p == 0 {
      assert h * (c / p) == h * ((c - 1) / p) + h;
    }
    StepCounts(t);
  }

  /** From a fresh counter, the first `total_frames` runs count up and advance the row every `frame_pause` runs. */
  lemma {:induction false} RunsFromZero(s: AnimatedSprite, k: nat)
    requires CycleSafe(s) && s.framePauseCounter == 0
    requires 1 <= k <= TotalFrames(s)
    ensures Runs(s, k) == Done(CycleState(s, k))
    decreases k
  {
    if k == 1 {
      assert Runs(s, 0) == Done(s);
      FramesFit(s);
      StepCounts(s);
      assert CycleState(s, 1) == WithCounterAndRow(s, 1, s.sprite.source.y);
    } else {
      RunsFromZero(s, k - 1);
      CycleStep(s, k - 1);
    }
  }

  /** The run after the last one of a cycle resets the counter and moves the row back to the first frame. */
  lemma CycleEnd(s: AnimatedSprite)
    requires CycleSafe(s) && s.framePauseCounter == 0
    ensures 1 <= TotalFrames(s)
    ensures StepSprite(CycleState(s, TotalFrames(s))) == Done(s.(framePauseCounter := 1))
  {
    var total := TotalFrames(s);
    var p := s.framePause as int;
    var frames := s.endFrame as int - s.startFrame as int + 1;
    FramesFit(s);
    assert total == frames * p;
    assert (total - 1) / p == frames - 1 by {
      assert total - 1 == (frames - 1) * p + (p - 1);
      DivUnique(total - 1, p, frames - 1, p - 1);
    }
    var last := CycleState(s, total);
    assert last.sprite.source.y as int == s.sprite.source.y as int + s.sprite.source.height as int * (frames - 1);
    assert last.sprite.source.y as int == s.sprite.source.y as int + RowsDrop(s);
    assert TotalFrames(last) == total && RowsDrop(last) == RowsDrop(s);
    StepResets(last);
  }

  /** Run `total_frames + 1` resets the counter and the row: the sprite is back where its first run left it. */
  lemma CycleCloses(s: AnimatedSprite)
    requires CycleSafe(s) && s.framePauseCounter == 0
    ensures Runs(s, TotalFrames(s) + 1) == Runs(s, 1)
    ensures Runs(s, 1) == Done(s.(framePauseCounter := 1))
  {
    var total := TotalFrames(s);
    CycleEnd(s);
    RunsFromZero(s, 1);
    RunsFromZero(s, total);
    assert Runs(s, total + 1) == StepSprite(CycleState(s, total));
  }

  /** Running `a + b` times is running `a` times and then `b` times. */
  lemma {:induction false} RepeatAdd<T>(step: T -> Outcome<T>, o: Outcome<T>, a: nat, b: nat)
    ensures Repeat(step, o, a + b) == Repeat(step, Repeat(step, o, a), b)
    decreases b
  {
    if b > 0 {
      RepeatAdd(step, o, a, b - 1);
      assert a + b - 1 == a + (b - 1);
    }
  }

  /** From a fresh counter the animation is periodic with period `total_frames` from the first run on. */
  lemma Periodic(s: AnimatedSprite, k: nat)
    requires CycleSafe(s) && s.framePauseCounter == 0 && 1 <= k
    ensures Runs(s, k + TotalFrames(s)) == Runs(s, k)
  {
    CycleCloses(s);
    PeriodicAfter(s, 1, TotalFrames(s), k);
  }

  /** A sprite whose run `m + p` is back at its run `m` repeats with period `p` from run `m` on. */
  lemma PeriodicAfter(s: AnimatedSprite, m: nat, p: nat, k: nat)
    requires m <= k && Runs(s, m + p) == Runs(s, m)
    ensures Runs(s, k + p) == Runs(s, k)
  {
    RepeatShift(StepSprite, Done(s), m, p, k - m);
    assert m + (k - m) + p == k + p && m + (k - m) == k;
  }

  /** Once run `m + p` is back at the state of run `m`, every later run repeats with period `p`. */
  lemma RepeatShift<T>(step: T -> Outcome<T>, o: Outcome<T>, m: nat, p: nat, n: nat)
    requires Repeat(step, o, m + p) == Repeat(step, o, m)
    ensures Repeat(step, o, m + n + p) == Repeat(step, o, m + n)
  {
    calc {
      Repeat(step, o, m + n + p);
      { assert m + n + p == (m + p) + n; }
      Repeat(step, o, (m + p) + n);
      { RepeatAdd(step, o, m + p, n); }
      Repeat(step, Repeat(step, o, m + p), n);
      Repeat(step, Repeat(step, o, m), n);
      { RepeatAdd(step, o, m, n); }
      Repeat(step, o, m + n);
    }
  }

  /** A zero `frame_pause` panics as soon as the counter is non-zero, that is from the second run on. */
  lemma ZeroPausePanics(s: AnimatedSprite)
    requires s.framePause == 0 && s.startFrame <= s.endFrame && s.endFrame - s.startFrame < U16_MAX
    requires s.framePauseCounter != 0
    ensures StepSprite(s) == Panic(RemByZero)
  {
  }
}
