/**
 * The small value types the per-frame systems and the drawables work on:
 * coffee's `Rectangle<u16>`, `Point`, `Color` and `Sprite`, and the
 * `Position` component of src/components/position.rs.
 */
module Sprites {
  import opened Ints

  datatype Rectangle = Rectangle(x: u16, y: u16, width: u16, height: u16)

  /** A point in floating-point screen coordinates; the values are only copied. */
  datatype Point = Point(x: real, y: real)

  /** coffee's `Color`, as four channels that are only copied. */
  datatype Color = Color(r: real, g: real, b: real, a: real)

  /** coffee's `Sprite`: a source rectangle of the image, drawn at `position` with `scale`. */
  datatype CoffeeSprite = CoffeeSprite(source: Rectangle, position: Point, scale: (real, real))

  /** `Position`: an entity's tile position. */
  datatype Position = Position(x: u16, y: u16)
}
