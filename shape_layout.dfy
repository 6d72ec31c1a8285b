/**
  The per-shape decisions of the structural preview (main.js,
  createSlideElements): the EMU box projected to percentages of the slide,
  the CSS class for the shape type, and the "title-like" and "hint"
  heuristics for text shapes.
 */
module ShapeLayout {
  import opened Wrappers
  import opened JsString
  import opened Deck

  /** A shape's bounding box in EMU after each missing field has become 0 (`x || 0`). */
  datatype Box = Box(left: int, top: int, width: int, height: int)

  /** The same box in percent of the slide width (left, width) and height (top, height). */
  datatype PercentBox = PercentBox(left: real, top: real, width: real, height: real)

  predicate PositiveCanvas(meta: Meta)
  {
    meta.slideWidthEmu > 0 && meta.slideHeightEmu > 0
  }

  /** `shape.geometry || {}` followed by `geom.x_emu || 0` for each of the four fields. */
  function BoxOf(shape: Shape): Box
  {
    var g := shape.geometry.GetOr(Geometry(None, None, None, None));
    Box(g.leftEmu.GetOr(0), g.topEmu.GetOr(0), g.widthEmu.GetOr(0), g.heightEmu.GetOr(0))
  }

  /** `(x / dim) * 100` */
  function Percent(x: int, dim: int): real
    requires dim > 0
  {
    (x as real / dim as real) * 100.0
  }

  /** EMU to percent of the canvas: left and width over the width, top and height over the height. */
  function Project(b: Box, meta: Meta): PercentBox
    requires PositiveCanvas(meta)
  {
    PercentBox(
      Percent(b.left, meta.slideWidthEmu), Percent(b.top, meta.slideHeightEmu),
      Percent(b.width, meta.slideWidthEmu), Percent(b.height, meta.slideHeightEmu))
  }

  /** A percentage of a dimension, scaled back to that dimension's unit. */
  function ScaleBack(pct: real, dim: int): real
  {
    pct * dim as real / 100.0
  }

  /** Each percentage is the coordinate over its own dimension: scaling back recovers the EMU box. */
  lemma ProjectRoundTrip(b: Box, meta: Meta)
    requires PositiveCanvas(meta)
    ensures var p := Project(b, meta);
      && ScaleBack(p.left, meta.slideWidthEmu) == b.left as real
      && ScaleBack(p.top, meta.slideHeightEmu) == b.top as real
      && ScaleBack(p.width, meta.slideWidthEmu) == b.width as real
      && ScaleBack(p.height, meta.slideHeightEmu) == b.height as real
  {
    PercentRoundTrip(b.left, meta.slideWidthEmu);
    PercentRoundTrip(b.top, meta.slideHeightEmu);
    PercentRoundTrip(b.width, meta.slideWidthEmu);
    PercentRoundTrip(b.height, meta.slideHeightEmu);
  }

  lemma PercentRoundTrip(x: int, dim: int)
    requires dim > 0
    ensures ScaleBack(Percent(x, dim), dim) == x as real
  {
    var d := dim as real;
    calc {
      ScaleBack(Percent(x, dim), dim);
      (x as real / d) * 100.0 * d / 100.0;
      (x as real / d) * d;
      x as real;
    }
  }

  /** A shape with no geometry, or with every geometry field missing, sits at 0% with 0% size. */
  lemma MissingGeometryProjectsToZero(shape: Shape, meta: Meta)
    requires PositiveCanvas(meta)
    requires shape.geometry.None? || shape.geometry == Some(Geometry(None, None, None, None))
    ensures Project(BoxOf(shape), meta) == PercentBox(0.0, 0.0, 0.0, 0.0)
  {
  }

  /** A box lying on the slide canvas projects into the 0..100% square. */
  lemma ProjectWithinCanvas(b: Box, meta: Meta)
    requires PositiveCanvas(meta)
    requires 0 <= b.left && 0 <= b.width && b.left + b.width <= meta.slideWidthEmu
    requires 0 <= b.top && 0 <= b.height && b.top + b.height <= meta.slideHeightEmu
    ensures var p := Project(b, meta);
      && 0.0 <= p.left && 0.0 <= p.width && p.left + p.width <= 100.0
      && 0.0 <= p.top && 0.0 <= p.height && p.top + p.height <= 100.0
  {
    PercentSumBound(b.left, b.width, meta.slideWidthEmu);
    PercentSumBound(b.top, b.height, meta.slideHeightEmu);
  }

  lemma PercentSumBound(x: int, w: int, dim: int)
    requires dim > 0 && 0 <= x && 0 <= w && x + w <= dim
    ensures 0.0 <= Percent(x, dim) && 0.0 <= Percent(w, dim)
    ensures Percent(x, dim) + Percent(w, dim) <= 100.0
  {
    var d := dim as real;
    assert Percent(x, dim) + Percent(w, dim) == ((x + w) as real / d) * 100.0;
    assert (x + w) as real / d <= 1.0;
  }

  /** The type classes a shape can get. */
  datatype TypeClass = ShapeText | ShapePicture | ShapeLine

  function TypeClassName(c: TypeClass): string
  {
    match c
    case ShapeText => "shape-text"
    case ShapePicture => "shape-picture"
    case ShapeLine => "shape-line"
  }

  predicate IsTypeClassName(name: string)
  {
    name == "shape-text" || name == "shape-picture" || name == "shape-line"
  }

  /** `(shape.shape_type || "").toUpperCase()` compared with TEXT_BOX, PICTURE, MEDIA and LINE in turn. */
  function ClassifyType(shapeType: Option<string>): Option<TypeClass>
  {
    var t := ToUpper(shapeType.GetOr(""));
    if t == "TEXT_BOX" then Some(ShapeText)
    else if t == "PICTURE" || t == "MEDIA" then Some(ShapePicture)
    else if t == "LINE" then Some(ShapeLine)
    else None
  }

  /**
    The type class depends on the type name only up to case: TEXT_BOX,
    PICTURE or MEDIA, and LINE in any mix of cases; nothing else (a missing
    type included) gets a type class.
   */
  lemma ClassifyTypeSpec(shapeType: Option<string>)
    ensures ClassifyType(shapeType) == Some(ShapeText)
      <==> shapeType.Some? && SameIgnoringCase(shapeType.value, "TEXT_BOX")
    ensures ClassifyType(shapeType) == Some(ShapePicture)
      <==> shapeType.Some? && (SameIgnoringCase(shapeType.value, "PICTURE") || SameIgnoringCase(shapeType.value, "MEDIA"))
    ensures ClassifyType(shapeType) == Some(ShapeLine)
      <==> shapeType.Some? && SameIgnoringCase(shapeType.value, "LINE")
  {
    var s := shapeType.GetOr("");
    assert ToUpper("TEXT_BOX") == "TEXT_BOX";
    assert ToUpper("PICTURE") == "PICTURE";
    assert ToUpper("MEDIA") == "MEDIA";
    assert ToUpper("LINE") == "LINE";
    UpperEqualsIff(s, "TEXT_BOX");
    UpperEqualsIff(s, "PICTURE");
    UpperEqualsIff(s, "MEDIA");
    UpperEqualsIff(s, "LINE");
  }

  /** `(top + height / 2) / slideHeightEmu`: the vertical centre as a fraction of the slide height. */
  function YCenter(b: Box, slideHeight: int): real
    requires slideHeight > 0
  {
    (b.top as real + b.height as real / 2.0) / slideHeight as real
  }

  /**
    A text shape is title-like when its vertical centre lies in the top 30%
    of the slide and its trimmed text has 1 to 40 characters.
   */
  predicate IsTitleLike(shape: Shape, meta: Meta)
    requires PositiveCanvas(meta)
  {
    HasText(shape)
    && YCenter(BoxOf(shape), meta.slideHeightEmu) < 0.3
    && 0 < |Trim(shape.text.value)| <= 40
  }

  /**
    The centre test in exact integer arithmetic: (top + height/2)/H < 0.3
    exactly when 10 * (2 * top + height) < 6 * H; whitespace-only text and
    text longer than 40 characters after trimming are never title-like.
   */
  lemma TitleLikeIff(shape: Shape, meta: Meta)
    requires PositiveCanvas(meta)
    ensures var b := BoxOf(shape);
      IsTitleLike(shape, meta) <==>
        && HasText(shape)
        && 10 * (2 * b.top + b.height) < 6 * meta.slideHeightEmu
        && !AllWhitespace(shape.text.value)
        && |Trim(shape.text.value)| <= 40
  {
    var b := BoxOf(shape);
    CentreBelowIff(b.top, b.height, meta.slideHeightEmu);
    var below := YCenter(b, meta.slideHeightEmu) < 0.3;
    assert below <==> 10 * (2 * b.top + b.height) < 6 * meta.slideHeightEmu;
    if HasText(shape) {
      var t := shape.text.value;
      TrimEmptyIff(t);
      assert |Trim(t)| > 0 <==> !AllWhitespace(t);
      assert IsTitleLike(shape, meta) <==> below && |Trim(t)| > 0 && |Trim(t)| <= 40;
    }
  }

  lemma CentreBelowIff(top: int, height: int, h: int)
    requires h > 0
    ensures (top as real + height as real / 2.0) / h as real < 0.3 <==> 10 * (2 * top + height) < 6 * h
  {
    var c := top as real + height as real / 2.0;
    DivBelowIff(c, 0.3, h as real);
    assert c < 0.3 * h as real <==> (10 * (2 * top + height)) as real < (6 * h) as real;
  }

  /** Dividing by a positive d keeps the comparison with k: c / d < k exactly when c < k * d. */
  lemma DivBelowIff(c: real, k: real, d: real)
    requires d > 0.0
    ensures c / d < k <==> c < k * d
  {
    var q := c / d;
    assert c == q * d;
    assert k * d - c == (k - q) * d;
    if q < k {
      PositiveProduct(k - q, d);
    } else {
      NonNegativeProduct(q - k, d);
      assert c - k * d == (q - k) * d;
    }
  }

  lemma PositiveProduct(a: real, b: real)
    requires a > 0.0 && b > 0.0
    ensures a * b > 0.0
  {
  }

  lemma NonNegativeProduct(a: real, b: real)
    requires a >= 0.0 && b > 0.0
    ensures a * b >= 0.0
  {
  }

  const DeleteMeMarker: string := "< delete me"
  const BreakLinesMarker: string := "break lines need to be adjusted"

  /** A text shape is a hint when its trimmed, lower-cased text contains either marker phrase. */
  predicate IsHint(shape: Shape)
  {
    HasText(shape) &&
    var lower := ToLower(Trim(shape.text.value));
    Includes(lower, DeleteMeMarker) || Includes(lower, BreakLinesMarker)
  }

  /** Texts that differ only in letter case trim at the same places. */
  lemma {:induction false} TrimStartSameIgnoringCase(a: string, b: string)
    requires SameIgnoringCase(a, b)
    ensures SameIgnoringCase(TrimStart(a), TrimStart(b))
    decreases |a|
  {
    if a != [] {
      WhitespaceSameIgnoringCase(a[0], b[0]);
      if IsWhitespace(a[0]) {
        TrimStartSameIgnoringCase(a[1..], b[1..]);
      }
    }
  }

  lemma {:induction false} TrimEndSameIgnoringCase(a: string, b: string)
    requires SameIgnoringCase(a, b)
    ensures SameIgnoringCase(TrimEnd(a), TrimEnd(b))
    decreases |a|
  {
    if a != [] {
      WhitespaceSameIgnoringCase(a[|a| - 1], b[|b| - 1]);
      if IsWhitespace(a[|a| - 1]) {
        TrimEndSameIgnoringCase(a[..|a| - 1], b[..|b| - 1]);
      }
    }
  }

  lemma WhitespaceSameIgnoringCase(c: char, d: char)
    requires LowerChar(c) == LowerChar(d)
    ensures IsWhitespace(c) <==> IsWhitespace(d)
  {
  }

  /** The hint test does not depend on letter case: texts equal up to case are hints alike. */
  lemma HintIgnoresCase(shape: Shape, text: string)
    requires HasText(shape) && SameIgnoringCase(shape.text.value, text)
    ensures IsHint(shape) <==> IsHint(shape.(text := Some(text)))
  {
    var a, b := shape.text.value, text;
    TrimStartSameIgnoringCase(a, b);
    TrimEndSameIgnoringCase(TrimStart(a), TrimStart(b));
    var ta, tb := Trim(a), Trim(b);
    assert ToLower(ta) == ToLower(tb);
    assert b != "";
  }

  /** The DOM element of one shape: its percentage box, its class list and its text. */
  datatype ShapeElement = ShapeElement(box: PercentBox, classes: seq<string>, text: Option<string>)

  /** The class list in the order the classes are added: shape, type class, title-like, hint. */
  function ClassList(typeClass: Option<TypeClass>, titleLike: bool, hint: bool): seq<string>
  {
    ["shape"] + TypePart(typeClass) + FlagPart(titleLike, hint)
  }

  function TypePart(typeClass: Option<TypeClass>): seq<string>
  {
    match typeClass
    case Some(c) => [TypeClassName(c)]
    case None => []
  }

  function FlagPart(titleLike: bool, hint: bool): seq<string>
  {
    (if titleLike then ["title-like"] else []) + (if hint then ["hint"] else [])
  }

  /** The type part holds the chosen type class and nothing else. */
  lemma TypePartSpec(typeClass: Option<TypeClass>)
    ensures var t := TypePart(typeClass);
      && |t| <= 1
      && (forall k :: 0 <= k < |t| ==> IsTypeClassName(t[k]))
      && (forall c :: typeClass == Some(c) <==> TypeClassName(c) in t)
      && "title-like" !in t && "hint" !in t
  {
  }

  /** The flag part names exactly the flags that are set, once each, and no type class. */
  lemma FlagPartSpec(titleLike: bool, hint: bool)
    ensures var f := FlagPart(titleLike, hint);
      && |f| == (if titleLike then 1 else 0) + (if hint then 1 else 0)
      && (forall k :: 0 <= k < |f| ==> !IsTypeClassName(f[k]))
      && ("title-like" in f <==> titleLike)
      && ("hint" in f <==> hint)
      && (forall c :: TypeClassName(c) !in f)
  {
  }

  /**
    The list starts with "shape"; it holds a type class exactly when one was
    chosen, and then only that one, right after "shape"; "title-like" and
    "hint" are present exactly when their flags are set, in that order at
    the end; and the list holds nothing else.
   */
  lemma ClassListSpec(typeClass: Option<TypeClass>, titleLike: bool, hint: bool)
    ensures var r := ClassList(typeClass, titleLike, hint);
      && |r| == 1 + (if typeClass.Some? then 1 else 0) + (if titleLike then 1 else 0) + (if hint then 1 else 0)
      && r[0] == "shape"
      && (typeClass.Some? ==> r[1] == TypeClassName(typeClass.value))
      && (hint ==> r[|r| - 1] == "hint")
      && (titleLike ==> r[|r| - 1 - (if hint then 1 else 0)] == "title-like")
      && (forall c :: typeClass == Some(c) <==> TypeClassName(c) in r)
      && (forall i, j :: 0 <= i < |r| && 0 <= j < |r| && IsTypeClassName(r[i]) && IsTypeClassName(r[j]) ==> i == j)
      && ("title-like" in r <==> titleLike)
      && ("hint" in r <==> hint)
  {
    var t, f := TypePart(typeClass), FlagPart(titleLike, hint);
    TypePartSpec(typeClass);
    FlagPartSpec(titleLike, hint);
    var r := ClassList(typeClass, titleLike, hint);
    assert forall k :: 1 + |t| <= k < |r| ==> r[k] == f[k - 1 - |t|];
    assert !IsTypeClassName(r[0]);
  }

  /** The classes createSlideElements gives one shape. */
  function ShapeClasses(shape: Shape, meta: Meta): seq<string>
    requires PositiveCanvas(meta)
  {
    ClassList(ClassifyType(shape.shapeType), IsTitleLike(shape, meta), IsHint(shape))
  }

  /**
    Every shape has class "shape" first; it has a type class exactly when
    its type is classified, and then only that one; "title-like" and "hint"
    are present exactly when their tests hold, each independently; and it
    holds nothing else.
   */
  lemma ShapeClassesSpec(shape: Shape, meta: Meta)
    requires PositiveCanvas(meta)
    ensures var r := ShapeClasses(shape, meta);
      && |r| == 1 + (if ClassifyType(shape.shapeType).Some? then 1 else 0)
                  + (if IsTitleLike(shape, meta) then 1 else 0) + (if IsHint(shape) then 1 else 0)
      && r[0] == "shape"
      && (forall c :: ClassifyType(shape.shapeType) == Some(c) <==> TypeClassName(c) in r)
      && (forall i, j :: 0 <= i < |r| && 0 <= j < |r| && IsTypeClassName(r[i]) && IsTypeClassName(r[j]) ==> i == j)
      && ("title-like" in r <==> IsTitleLike(shape, meta))
      && ("hint" in r <==> IsHint(shape))
  {
    ClassListSpec(ClassifyType(shape.shapeType), IsTitleLike(shape, meta), IsHint(shape));
  }

  /** What createSlideElements builds for one shape. */
  function RenderShape(shape: Shape, meta: Meta): ShapeElement
    requires PositiveCanvas(meta)
  {
    ShapeElement(
      Project(BoxOf(shape), meta),
      ShapeClasses(shape, meta),
      if HasText(shape) then shape.text else None)
  }

  /**
    The title shape of the 16:9 sample deck: a 9144000 x 6858000 canvas, a
    text box at (457200, 457200) sized 8229600 x 685800 holding "Title",
    lands at 5% / 6.67% with size 90% x 10% and is title-like.
   */
  lemma SampleTitleShape()
    ensures RenderShape(SampleShape(), SampleMeta()) ==
      ShapeElement(PercentBox(5.0, 20.0 / 3.0, 90.0, 10.0), ["shape", "shape-text", "title-like"], Some("Title"))
  {
    var meta, shape := SampleMeta(), SampleShape();
    var b := BoxOf(shape);
    assert b == Box(457200, 457200, 8229600, 685800);
    SampleProjection(b, meta);
    SampleClasses();
  }

  function SampleMeta(): Meta { Meta(9144000, 6858000) }

  function SampleShape(): Shape
  {
    Shape(Some("TEXT_BOX"), None, Some(Geometry(Some(457200), Some(457200), Some(8229600), Some(685800))),
          Some(true), Some("Title"))
  }

  lemma SampleProjection(b: Box, meta: Meta)
    requires b == Box(457200, 457200, 8229600, 685800) && meta == Meta(9144000, 6858000)
    ensures Project(b, meta) == PercentBox(5.0, 20.0 / 3.0, 90.0, 10.0)
  {
  }

  lemma SampleClasses()
    ensures ShapeClasses(SampleShape(), SampleMeta()) == ["shape", "shape-text", "title-like"]
  {
    SampleType();
    SampleTitleLike();
    SampleNotHint();
    SampleClassList();
  }

  lemma SampleClassList()
    ensures ClassList(Some(ShapeText), true, false) == ["shape", "shape-text", "title-like"]
  {
  }

  lemma SampleType()
    ensures ClassifyType(SampleShape().shapeType) == Some(ShapeText)
  {
    assert ToUpper("TEXT_BOX") == "TEXT_BOX";
  }

  lemma SampleTitleLike()
    ensures IsTitleLike(SampleShape(), SampleMeta())
  {
    var shape, meta := SampleShape(), SampleMeta();
    assert HasText(shape);
    SampleTrimmed();
    assert |Trim(shape.text.value)| == 5;
    SampleCentre();
  }

  lemma SampleNotHint()
    ensures !IsHint(SampleShape())
  {
    SampleTrimmed();
    NotIncludesLonger(ToLower("Title"), DeleteMeMarker);
    NotIncludesLonger(ToLower("Title"), BreakLinesMarker);
  }

  lemma SampleTrimmed()
    ensures Trim(SampleShape().text.value) == "Title"
  {
    var t := SampleShape().text.value;
    assert t == "Title" && t[0] == 'T' && t[|t| - 1] == 'e';
    TrimKeeps(t);
  }

  lemma SampleCentre()
    ensures YCenter(BoxOf(SampleShape()), SampleMeta().slideHeightEmu) < 0.3
  {
    var b := BoxOf(SampleShape());
    assert b.top == 457200 && b.height == 685800;
    assert b.top as real + b.height as real / 2.0 == 800100.0;
  }
}
