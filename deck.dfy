/**
  The parsed-deck description both scripts consume: slides of positioned
  shapes, with sizes in EMU (English Metric Units). A field the JSON may
  omit is an Option; None is JavaScript's undefined.
 */
module Deck {
  import opened Wrappers

  /** A string field used as a condition (`if (s)`, `s || d`): present and non-empty. */
  predicate Truthy(s: Option<string>)
  {
    s.Some? && s.value != ""
  }

  /** A boolean field used as a condition: present and true. */
  predicate IsSet(b: Option<bool>)
  {
    b == Some(true)
  }

  /** `geometry`: the shape's bounding box in EMU; any field may be missing. */
  datatype Geometry = Geometry(leftEmu: Option<int>, topEmu: Option<int>, widthEmu: Option<int>, heightEmu: Option<int>)

  /** One positioned shape of a slide (`shape_type`, `name`, `geometry`, `has_text_frame`, `text`). */
  datatype Shape = Shape(
    shapeType: Option<string>,
    name: Option<string>,
    geometry: Option<Geometry>,
    hasTextFrame: Option<bool>,
    text: Option<string>)

  /** One slide (`slide_type`, `layout_name`, `shapes`); shapes is None when missing. */
  datatype Slide = Slide(slideType: Option<string>, layoutName: Option<string>, shapes: Option<seq<Shape>>)

  /** `meta`: the slide canvas size in EMU. */
  datatype Meta = Meta(slideWidthEmu: int, slideHeightEmu: int)

  /** `slide.shapes || []`: an array, even an empty one, is truthy. */
  function ShapesOf(slide: Slide): seq<Shape>
  {
    slide.shapes.GetOr([])
  }

  /** `shape.has_text_frame && shape.text`: the shape carries text. */
  predicate HasText(shape: Shape)
  {
    IsSet(shape.hasTextFrame) && Truthy(shape.text)
  }
}
