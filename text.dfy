/**
 * The text drawable of src/components/drawables/text.rs: its manifest form,
 * the conversion into the component (which panics on an unknown alignment)
 * and into coffee's text (which panics on a content index out of range), and
 * its component loader.
 */
module Texts {
  import opened Wrappers
  import opened Ints
  import opened Load
  import opened Sprites

  const TEXT_LOAD_ID := "text"

  datatype VerticalAlignment = Top | Center | Bottom
  datatype HorizontalAlignment = Left | HCenter | Right

  /** `TextJSON`. */
  datatype TextJson = TextJson(
    content: seq<string>, contentIndex: nat,
    positionX: real, positionY: real, boundsX: real, boundsY: real, size: real,
    r: real, g: real, b: real, a: real,
    hAlign: string, vAlign: string, font: string)

  /** The `Text` component. */
  datatype Text = Text(
    content: seq<string>, contentIndex: nat, position: Point, bounds: (real, real), size: real,
    color: Color, hAlign: HorizontalAlignment, vAlign: VerticalAlignment, font: string)

  /** coffee's `Text`: the one string drawn. */
  datatype CoffeeText = CoffeeText(
    content: string, position: Point, bounds: (real, real), size: real, color: Color,
    horizontalAlignment: HorizontalAlignment, verticalAlignment: VerticalAlignment)

  /** The `Debug` formatting of a string: quoted (escapes inside the string are not modelled). */
  function Quoted(s: string): string
  {
    "\"" + s + "\""
  }

  function VAlignPanic(s: string): string
  {
    "ERROR: json.v_align value: " + Quoted(s) + " did not match any VerticalAlignment values"
  }

  function HAlignPanic(s: string): string
  {
    "ERROR: json.h_align value: " + Quoted(s) + " did not match any HorizontalAlignment values"
  }

  function ContentPanic(index: nat): string
  {
    "ERROR: Failed to get content string at index: " + Decimal(index)
  }

  /** The vertical alignment named exactly (case included) by `s`. */
  function VAlign(s: string): (r: Outcome<VerticalAlignment>)
    ensures r.Done? <==> s == "Top" || s == "Center" || s == "Bottom"
    ensures s == "Top" ==> r == Done(Top)
    ensures s == "Center" ==> r == Done(Center)
    ensures s == "Bottom" ==> r == Done(Bottom)
    ensures r.Panic? ==> r.message == VAlignPanic(s)
  {
    if s == "Top" then Done(Top)
    else if s == "Center" then Done(Center)
    else if s == "Bottom" then Done(Bottom)
    else Panic(VAlignPanic(s))
  }

  /** The horizontal alignment named exactly (case included) by `s`. */
  function HAlign(s: string): (r: Outcome<HorizontalAlignment>)
    ensures r.Done? <==> s == "Left" || s == "Center" || s == "Right"
    ensures s == "Left" ==> r == Done(Left)
    ensures s == "Center" ==> r == Done(HCenter)
    ensures s == "Right" ==> r == Done(Right)
    ensures r.Panic? ==> r.message == HAlignPanic(s)
  {
    if s == "Left" then Done(Left)
    else if s == "Center" then Done(HCenter)
    else if s == "Right" then Done(Right)
    else Panic(HAlignPanic(s))
  }

  /** The name an alignment is written with in a manifest: `VAlign`'s inverse. */
  function VAlignName(v: VerticalAlignment): string
  {
    match v
    case Top => "Top"
    case Center => "Center"
    case Bottom => "Bottom"
  }

  function HAlignName(h: HorizontalAlignment): string
  {
    match h
    case Left => "Left"
    case HCenter => "Center"
    case Right => "Right"
  }

  /** Exactly the alignment names parse, and each parses back to its alignment. */
  lemma AlignmentNamesRoundTrip(v: VerticalAlignment, h: HorizontalAlignment, s: string)
    ensures VAlign(VAlignName(v)) == Done(v)
    ensures HAlign(HAlignName(h)) == Done(h)
    ensures VAlign(s).Done? ==> VAlignName(VAlign(s).value) == s
    ensures HAlign(s).Done? ==> HAlignName(HAlign(s).value) == s
  {
  }

  /**
   * `From<&TextJSON> for Text`: the vertical alignment is parsed first, then
   * the horizontal one; everything else is copied, and the content index is
   * not checked against the content.
   */
  function TextFrom(json: TextJson): (r: Outcome<Text>)
    ensures r.Done? <==> VAlign(json.vAlign).Done? && HAlign(json.hAlign).Done?
    ensures VAlign(json.vAlign).Panic? ==> r == Panic(VAlignPanic(json.vAlign))
    ensures VAlign(json.vAlign).Done? && HAlign(json.hAlign).Panic? ==> r == Panic(HAlignPanic(json.hAlign))
    ensures r.Done? ==>
              r.value.content == json.content && r.value.contentIndex == json.contentIndex && r.value.font == json.font
              && r.value.position == Point(json.positionX, json.positionY)
              && r.value.bounds == (json.boundsX, json.boundsY) && r.value.size == json.size
              && r.value.color == Color(json.r, json.g, json.b, json.a)
              && r.value.vAlign == VAlign(json.vAlign).value && r.value.hAlign == HAlign(json.hAlign).value
  {
    var vertical :- VAlign(json.vAlign);
    var horizontal :- HAlign(json.hAlign);
    Done(Text(json.content, json.contentIndex, Point(json.positionX, json.positionY), (json.boundsX, json.boundsY),
              json.size, Color(json.r, json.g, json.b, json.a), horizontal, vertical, json.font))
  }

  /** `From<&Text> for CoffeeText`: the string at the content index, or a panic past the end. */
  function CoffeeTextFrom(t: Text): (r: Outcome<CoffeeText>)
    ensures r.Done? <==> t.contentIndex < |t.content|
    ensures r.Panic? ==> r.message == ContentPanic(t.contentIndex)
    ensures r.Done? ==>
              r.value.content == t.content[t.contentIndex] && r.value.position == t.position && r.value.bounds == t.bounds
              && r.value.size == t.size && r.value.color == t.color
              && r.value.horizontalAlignment == t.hAlign && r.value.verticalAlignment == t.vAlign
  {
    if t.contentIndex < |t.content| then
      Done(CoffeeText(t.content[t.contentIndex], t.position, t.bounds, t.size, t.color, t.hAlign, t.vAlign))
    else Panic(ContentPanic(t.contentIndex))
  }

  /** A text built from a manifest with an index past its content converts, and only drawing it panics. */
  lemma IndexCheckedOnlyWhenDrawn(json: TextJson)
    requires VAlign(json.vAlign).Done? && HAlign(json.hAlign).Done?
    requires json.contentIndex >= |json.content|
    ensures TextFrom(json).Done?
    ensures CoffeeTextFrom(TextFrom(json).value) == Panic(ContentPanic(json.contentIndex))
  {
  }

  /** `TextLoader`; `deserialize(value, id)` is `load_deserializable_from_json`. */
  class TextLoader {
    var textJson: TextJson

    /** `from_json` after a successful deserialisation. */
    constructor(textJson: TextJson)
      ensures this.textJson == textJson
    {
      this.textJson := textJson;
    }

    /** `load_component`: the component given to the entity builder. */
    function LoadComponent(): (r: Outcome<Text>)
      reads this
      ensures r == TextFrom(textJson)
    {
      TextFrom(textJson)
    }

    /** `set_value`: a failed deserialisation is passed on and leaves `text_json` as it was. */
    method SetValue(newValue: JsonLoad, deserialize: (JsonLoad, string) -> Result<TextJson, LoadError>)
      returns (r: Result<(), LoadError>)
      modifies this
      ensures r.Ok? <==> deserialize(newValue, TEXT_LOAD_ID).Ok?
      ensures r.Ok? ==> textJson == deserialize(newValue, TEXT_LOAD_ID).value
      ensures r.Err? ==> textJson == old(textJson) && r.error == deserialize(newValue, TEXT_LOAD_ID).error
    {
      var parsed := deserialize(newValue, TEXT_LOAD_ID);
      if parsed.Err? {
        return Err(parsed.error);
      }
      textJson := parsed.value;
      return Ok(());
    }

    function GetComponentName(): (r: string)
      ensures r == TEXT_LOAD_ID && r == "text"
    {
      TEXT_LOAD_ID
    }
  }
}
