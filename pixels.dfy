/**
 * The pixel pipeline that src/graphics/texture/mod.rs and
 * src/globals/texture_dict.rs run on every decoded RGBA image before it is
 * uploaded: mirror each row, reverse the sequence of all pixels, and
 * flatten the pixels to bytes.  The two reversals of a row's pixels cancel,
 * so the net effect is a vertical flip only.
 */
module Pixels {
  import opened Ints

  datatype Rgba = Rgba(r: u8, g: u8, b: u8, a: u8)

  /** A decoded image in RGBA8 format, as its rows from top to bottom. */
  datatype RgbaImage = RgbaImage(width: nat, height: nat, rows: seq<seq<Rgba>>)

  /** Every row holds `width` pixels and there are `height` rows, as the image crate guarantees. */
  ghost predicate WellFormed(img: RgbaImage)
  {
    |img.rows| == img.height && forall r :: 0 <= r < |img.rows| ==> |img.rows[r]| == img.width
  }

  function Reverse<T>(s: seq<T>): (r: seq<T>)
    ensures |r| == |s|
    ensures forall i :: 0 <= i < |s| ==> r[i] == s[|s| - 1 - i]
  {
    seq(|s|, i requires 0 <= i < |s| => s[|s| - 1 - i])
  }

  function MapSeq<A, B>(f: A -> B, s: seq<A>): (r: seq<B>)
    ensures |r| == |s|
    ensures forall i :: 0 <= i < |s| ==> r[i] == f(s[i])
  {
    seq(|s|, i requires 0 <= i < |s| => f(s[i]))
  }

  /** `flat_map` / `flatten`: the sequences one after the other. */
  function Concat<T>(xs: seq<seq<T>>): seq<T>
    decreases |xs|
  {
    if xs == [] then [] else xs[0] + Concat(xs[1..])
  }

  /** The bytes of one pixel, `pixel.0`. */
  function Channels(p: Rgba): seq<u8>
  {
    [p.r, p.g, p.b, p.a]
  }

  /** `rows().flat_map(|row| row.rev()).rev()`: the pixel order of the uploaded buffer. */
  function FlippedPixels(img: RgbaImage): seq<Rgba>
  {
    Reverse(Concat(MapSeq(Reverse, img.rows)))
  }

  /** `... .flat_map(|pixel| pixel.0).collect()`: the bytes handed to the texture. */
  function FlippedBytes(img: RgbaImage): (r: seq<u8>)
    ensures |r| == 4 * |FlippedPixels(img)|
  {
    ChannelCount(FlippedPixels(img));
    Concat(MapSeq(Channels, FlippedPixels(img)))
  }

  lemma ReverseAppend<T>(a: seq<T>, b: seq<T>)
    ensures Reverse(a + b) == Reverse(b) + Reverse(a)
  {
  }

  lemma ReverseReverse<T>(s: seq<T>)
    ensures Reverse(Reverse(s)) == s
  {
  }

  lemma {:induction false} ConcatAppend<T>(a: seq<seq<T>>, b: seq<seq<T>>)
    ensures Concat(a + b) == Concat(a) + Concat(b)
    decreases |a|
  {
    if a != [] {
      assert (a + b)[1..] == a[1..] + b;
      ConcatAppend(a[1..], b);
    } else {
      assert a + b == b;
    }
  }

  /** Reversing a concatenation reverses the order of the parts and each part. */
  lemma {:induction false} ReverseConcat<T>(xs: seq<seq<T>>)
    ensures Reverse(Concat(xs)) == Concat(Reverse(MapSeq(Reverse, xs)))
    decreases |xs|
  {
    if xs != [] {
      var head, tail := xs[0], xs[1..];
      var mapped := MapSeq(Reverse, tail);
      assert MapSeq(Reverse, xs) == [Reverse(head)] + mapped;
      calc {
        Reverse(Concat(xs));
        Reverse(head + Concat(tail));
        { ReverseAppend(head, Concat(tail)); }
        Reverse(Concat(tail)) + Reverse(head);
        { ReverseConcat(tail); }
        Concat(Reverse(mapped)) + Reverse(head);
        { assert Concat([Reverse(head)]) == Reverse(head) + Concat([]); }
        Concat(Reverse(mapped)) + Concat([Reverse(head)]);
        { ConcatAppend(Reverse(mapped), [Reverse(head)]); }
        Concat(Reverse(mapped) + [Reverse(head)]);
        { ReverseAppend([Reverse(head)], mapped);
          assert Reverse([Reverse(head)]) == [Reverse(head)]; }
        Concat(Reverse(MapSeq(Reverse, xs)));
      }
    }
  }

  /** The buffer lists the rows bottom to top, each row left to right: a vertical flip and no mirroring. */
  lemma FlipIsVertical(img: RgbaImage)
    ensures FlippedPixels(img) == Concat(Reverse(img.rows))
  {
    ReverseConcat(MapSeq(Reverse, img.rows));
    var twice := MapSeq(Reverse, MapSeq(Reverse, img.rows));
    forall i | 0 <= i < |img.rows|
      ensures twice[i] == img.rows[i]
    {
      ReverseReverse(img.rows[i]);
    }
    assert twice == img.rows;
  }

  /** Parts of one length `w` concatenate to `|xs| * w` elements. */
  lemma {:induction false} ConcatLength<T>(xs: seq<seq<T>>, w: nat)
    requires forall i :: 0 <= i < |xs| ==> |xs[i]| == w
    ensures |Concat(xs)| == |xs| * w
    decreases |xs|
  {
    if xs != [] {
      ConcatLength(xs[1..], w);
      assert |xs| * w == w + (|xs| - 1) * w;
    }
  }

  /** Concatenating parts of one length `w` puts element `j` of part `i` at `i * w + j`. */
  lemma {:induction false} ConcatIndex<T>(xs: seq<seq<T>>, w: nat, i: nat, j: nat)
    requires forall n :: 0 <= n < |xs| ==> |xs[n]| == w
    requires i < |xs| && j < w
    ensures i * w + j < |Concat(xs)| && Concat(xs)[i * w + j] == xs[i][j]
    decreases i
  {
    ConcatLength(xs, w);
    MulMonotone(w, i, |xs| - 1);
    assert (|xs| - 1) * w + w == |xs| * w;
    if i > 0 {
      var tail := xs[1..];
      ConcatIndex(tail, w, i - 1, j);
      assert i * w + j == w + ((i - 1) * w + j);
    }
  }

  /** A well-formed image's buffer has `width * height` pixels and `4 * width * height` bytes. */
  lemma FlippedSizes(img: RgbaImage)
    requires WellFormed(img)
    ensures |FlippedPixels(img)| == img.width * img.height
    ensures |FlippedBytes(img)| == 4 * img.width * img.height
  {
    FlippedPixelCount(img);
    ChannelCount(FlippedPixels(img));
  }

  lemma FlippedPixelCount(img: RgbaImage)
    requires WellFormed(img)
    ensures |FlippedPixels(img)| == img.width * img.height
  {
    FlipIsVertical(img);
    var flipped := Reverse(img.rows);
    assert forall n :: 0 <= n < |flipped| ==> |flipped[n]| == img.width;
    ConcatLength(flipped, img.width);
  }

  /** Every pixel gives four bytes. */
  lemma ChannelCount(pixels: seq<Rgba>)
    ensures |Concat(MapSeq(Channels, pixels))| == 4 * |pixels|
  {
    var parts := MapSeq(Channels, pixels);
    assert forall n :: 0 <= n < |parts| ==> |parts[n]| == 4;
    ConcatLength(parts, 4);
  }

  /** Pixel `(r, c)` of the buffer is pixel `(height - 1 - r, c)` of the image. */
  lemma FlippedPixelAt(img: RgbaImage, r: nat, c: nat)
    requires WellFormed(img)
    requires r < img.height && c < img.width
    ensures r * img.width + c < |FlippedPixels(img)|
    ensures FlippedPixels(img)[r * img.width + c] == img.rows[img.height - 1 - r][c]
  {
    FlipIsVertical(img);
    ConcatIndex(Reverse(img.rows), img.width, r, c);
  }

  /** Byte `4 * i + k` of the buffer is channel `k` (red, green, blue, alpha) of its pixel `i`. */
  lemma FlippedByteAt(img: RgbaImage, i: nat, k: nat)
    requires i < |FlippedPixels(img)| && k < 4
    ensures 4 * i + k < |FlippedBytes(img)|
    ensures FlippedBytes(img)[4 * i + k] == Channels(FlippedPixels(img)[i])[k]
  {
    ConcatIndex(MapSeq(Channels, FlippedPixels(img)), 4, i, k);
    assert i * 4 + k == 4 * i + k;
  }
}
