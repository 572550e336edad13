/**
 * `Animation::create_sprite` of src/components/animation.rs: the frames of an
 * animation lie side by side in an image of `dimensions`, `total_frames`
 * equal columns wide; the call cuts out the current frame (frames are
 * counted from 1) and moves on to the next one.
 */
module Animations {
  import opened Wrappers
  import opened Ints
  import opened Sprites

  /** The fields of `Animation` besides its image. */
  datatype AnimationState = AnimationState(
    currentFrame: u16,
    startFrame: u16,
    endFrame: u16,
    totalFrames: u16,
    dimensions: (u16, u16),
    scale: (real, real))

  /** What `create_sprite` computes: the sprite of the current frame and the state with the frame advanced. */
  function CreateSpriteSpec(a: AnimationState, pos: Position): (r: Outcome<(AnimationState, CoffeeSprite)>)
    ensures a.totalFrames == 0 ==> r == Panic(DivByZero)
    ensures a.totalFrames != 0 && a.currentFrame == 0 ==> r == Panic(SubOverflow)
    ensures r.Done? ==> r.value.0 == a.(currentFrame := r.value.0.currentFrame)
                        && r.value.0.currentFrame as int == a.currentFrame as int + 1
  {
    var frameWidth :- Div16(a.dimensions.0, a.totalFrames);
    var frameHeight := a.dimensions.1;
    var previous :- Sub16(a.currentFrame, 1);
    var frameX :- Mul16(frameWidth, previous);
    var frameY := pos.y;
    var next :- Add16(a.currentFrame, 1);
    Done((a.(currentFrame := next),
          CoffeeSprite(Rectangle(frameX, frameY, frameWidth, frameHeight),
                       Point(pos.x as real, pos.y as real), a.scale)))
  }

  /**
   * For a frame number within `1 ..= total_frames`, the call succeeds unless the
   * frame number is already `u16::MAX`, the frame is `dimensions.0 / total_frames`
   * wide, as high as the image, at column `current_frame - 1`, and lies inside the
   * image; the sprite is drawn at the position with the animation's scale.
   */
  lemma FrameInsideImage(a: AnimationState, pos: Position)
    requires 1 <= a.currentFrame <= a.totalFrames
    ensures CreateSpriteSpec(a, pos).Done? <==> a.currentFrame < U16_MAX
    ensures CreateSpriteSpec(a, pos).Done? ==>
              var sprite := CreateSpriteSpec(a, pos).value.1;
              var width := a.dimensions.0 as int / a.totalFrames as int;
              sprite.source.width as int == width
              && sprite.source.height == a.dimensions.1
              && sprite.source.x as int == width * (a.currentFrame as int - 1)
              && sprite.source.y == pos.y
              && sprite.source.x as int + sprite.source.width as int <= a.dimensions.0 as int
              && sprite.position == Point(pos.x as real, pos.y as real)
              && sprite.scale == a.scale
  {
    var width := a.dimensions.0 as int / a.totalFrames as int;
    var n := a.currentFrame as int;
    MulMonotone(width, n, a.totalFrames as int);
    assert width * a.totalFrames as int <= a.dimensions.0 as int;
    assert width * (n - 1) + width == width * n;
  }

  /** `Animation`: the frame counter is updated in place by `create_sprite`. */
  class Animation {
    var currentFrame: u16
    var startFrame: u16
    var endFrame: u16
    var totalFrames: u16
    var dimensions: (u16, u16)
    var scale: (real, real)

    function State(): AnimationState
      reads this
    {
      AnimationState(currentFrame, startFrame, endFrame, totalFrames, dimensions, scale)
    }

    constructor (a: AnimationState)
      ensures State() == a
    {
      currentFrame := a.currentFrame;
      startFrame := a.startFrame;
      endFrame := a.endFrame;
      totalFrames := a.totalFrames;
      dimensions := a.dimensions;
      scale := a.scale;
    }

    /** `create_sprite`: on a panic no field has been written yet. */
    method CreateSprite(pos: Position) returns (o: Outcome<CoffeeSprite>)
      modifies this
      ensures var spec := CreateSpriteSpec(old(State()), pos);
              (spec.Done? ==> o == Done(spec.value.1) && State() == spec.value.0)
              && (spec.Panic? ==> o == Panic(spec.message) && State() == old(State()))
    {
      var frameWidth := Div16(dimensions.0, totalFrames);
      if frameWidth.Panic? {
        return Panic(frameWidth.message);
      }
      var frameHeight := dimensions.1;
      var previous := Sub16(currentFrame, 1);
      if previous.Panic? {
        return Panic(previous.message);
      }
      var frameX := Mul16(frameWidth.value, previous.value);
      if frameX.Panic? {
        return Panic(frameX.message);
      }
      var frameY := pos.y;
      var next := Add16(currentFrame, 1);
      if next.Panic? {
        return Panic(next.message);
      }
      currentFrame := next.value;
      return Done(CoffeeSprite(Rectangle(frameX.value, frameY, frameWidth.value, frameHeight),
                               Point(pos.x as real, pos.y as real), scale));
    }
  }
}
