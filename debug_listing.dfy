/**
  The debug listing of frontend/main.js: the badge label of a slide type,
  text truncation, and the card renderSlides builds for each parsed slide
  (an empty hint, a no-text hint, or the slide's text blocks).
 */
module DebugListing {
  import opened Wrappers
  import opened JsString
  import opened Deck

  /** The eight slide types the backend reports, in lower case, with their badge labels. */
  const TypeLabels: map<string, string> := map[
    "title" := "TITLE", "agenda" := "AGENDA", "section" := "SECTION", "content" := "CONTENT",
    "content_bullets" := "CONTENT_BULLETS", "content_image" := "CONTENT_IMAGE",
    "ending" := "ENDING", "other" := "OTHER"]

  /** humanReadableSlideType: UNKNOWN when missing or empty, else the table entry of the lower-cased type, else the type upper-cased. */
  function HumanReadableSlideType(slideType: Option<string>): string
  {
    if !Truthy(slideType) then "UNKNOWN"
    else
      var key := ToLower(slideType.value);
      if key in TypeLabels then TypeLabels[key] else ToUpper(slideType.value)
  }

  /** Every label in the table is its key upper-cased. */
  lemma TypeLabelsAreUpperCase(key: string)
    requires key in TypeLabels
    ensures TypeLabels[key] == ToUpper(key)
  {
    assert ToUpper("title") == "TITLE" && ToUpper("agenda") == "AGENDA";
    assert ToUpper("section") == "SECTION" && ToUpper("content") == "CONTENT";
    assert ToUpper("content_bullets") == "CONTENT_BULLETS";
    assert ToUpper("content_image") == "CONTENT_IMAGE";
    assert ToUpper("ending") == "ENDING" && ToUpper("other") == "OTHER";
  }

  /**
    A missing or empty type reads UNKNOWN; every other type, known or not
    and in whatever case, reads as its upper-case form.
   */
  lemma HumanReadableSlideTypeSpec(slideType: Option<string>)
    ensures !Truthy(slideType) ==> HumanReadableSlideType(slideType) == "UNKNOWN"
    ensures Truthy(slideType) ==> HumanReadableSlideType(slideType) == ToUpper(slideType.value)
  {
    if Truthy(slideType) {
      var key := ToLower(slideType.value);
      if key in TypeLabels {
        TypeLabelsAreUpperCase(key);
        UpperOfLower(slideType.value);
      }
    }
  }

  /** The end position of `text.slice(0, end)`: a negative end counts back from the length. */
  function SliceEnd(length: nat, end: int): (r: nat)
    ensures r <= length
    ensures 0 <= end <= length ==> r == end
  {
    if end < 0 then (if length + end < 0 then 0 else length + end)
    else if end > length then length
    else end
  }

  /** The character truncate appends (U+2026, horizontal ellipsis). */
  const Ellipsis: char := '\U{2026}'

  /** truncate: "" for missing or empty text, the text when it fits, else its first maxLen characters and an ellipsis. */
  function Truncate(text: Option<string>, maxLen: int): string
  {
    if !Truthy(text) then ""
    else if |text.value| <= maxLen then text.value
    else text.value[..SliceEnd(|text.value|, maxLen)] + [Ellipsis]
  }

  /**
    With a non-negative limit: missing or empty text gives "", text within
    the limit comes back unchanged, and longer text gives exactly its first
    maxLen characters followed by the ellipsis, maxLen + 1 in all.
   */
  lemma TruncateSpec(text: Option<string>, maxLen: int)
    requires maxLen >= 0
    ensures var r := Truncate(text, maxLen);
      && (!Truthy(text) ==> r == "")
      && (Truthy(text) && |text.value| <= maxLen ==> r == text.value)
      && (Truthy(text) && |text.value| > maxLen ==>
            |r| == maxLen + 1 && r[..maxLen] == text.value[..maxLen] && r[maxLen] == Ellipsis)
      && |r| <= maxLen + 1
  {
  }

  /** Truncating twice with the same non-negative limit is truncating once. */
  lemma TruncateIdempotent(text: Option<string>, maxLen: int)
    requires maxLen >= 0
    ensures Truncate(Some(Truncate(text, maxLen)), maxLen) == Truncate(text, maxLen)
  {
    var r := Truncate(text, maxLen);
    if Truthy(text) && |text.value| > maxLen {
      assert |r| == maxLen + 1;
      assert r[..maxLen] == text.value[..maxLen];
    }
  }

  /** The filter of renderSlides: a text frame holding text that is not all whitespace. */
  predicate IsTextShape(shape: Shape)
  {
    HasText(shape) && |Trim(shape.text.value)| > 0
  }

  /** `shapes.filter(IsTextShape)` */
  function TextShapes(shapes: seq<Shape>): (r: seq<Shape>)
    ensures |r| <= |shapes|
    ensures forall s :: s in r <==> s in shapes && IsTextShape(s)
  {
    if shapes == [] then []
    else (if IsTextShape(shapes[0]) then [shapes[0]] else []) + TextShapes(shapes[1..])
  }

  /** The filter keeps order: filtering a concatenation concatenates the filtered parts. */
  lemma {:induction false} TextShapesAppend(a: seq<Shape>, b: seq<Shape>)
    ensures TextShapes(a + b) == TextShapes(a) + TextShapes(b)
    decreases |a|
  {
    if a == [] {
      assert a + b == b;
    } else {
      assert (a + b)[1..] == a[1..] + b;
      TextShapesAppend(a[1..], b);
    }
  }

  /** A shape's text line `[${shape_type}] ${name || ""}` and its text truncated to 160 characters. */
  datatype TextBlock = TextBlock(meta: string, text: string)

  /** The body of a card. */
  datatype CardBody = EmptyHint | NoTextHint | TextBlocks(blocks: seq<TextBlock>)

  /** `${shape.shape_type}`: a missing type prints as "undefined". */
  function TypeText(shapeType: Option<string>): string
  {
    if shapeType.Some? then shapeType.value else "undefined"
  }

  function Block(shape: Shape): TextBlock
  {
    TextBlock("[" + TypeText(shape.shapeType) + "] " + shape.name.GetOr(""), Truncate(shape.text, 160))
  }

  /** The body of a slide's card: empty hint, no-text hint, or one block per text shape. */
  function Body(shapes: seq<Shape>): CardBody
  {
    if |shapes| == 0 then EmptyHint
    else
      var textShapes := TextShapes(shapes);
      if |textShapes| == 0 then NoTextHint
      else TextBlocks(seq(|textShapes|, i requires 0 <= i < |textShapes| => Block(textShapes[i])))
  }

  /**
    A slide without shapes gets the empty hint; one whose shapes hold no
    visible text gets the no-text hint; otherwise it lists one block per
    text shape, in shape order: its `[type] name` line, and its text whole
    when it has at most 160 characters, else its first 160 and the ellipsis.
   */
  lemma BodySpec(shapes: seq<Shape>)
    ensures Body(shapes) == EmptyHint <==> shapes == []
    ensures Body(shapes) == NoTextHint <==> shapes != [] && forall s :: s in shapes ==> !IsTextShape(s)
    ensures Body(shapes).TextBlocks? ==>
      var blocks := Body(shapes).blocks;
      var ts := TextShapes(shapes);
      && |blocks| == |ts|
      && forall i :: 0 <= i < |blocks| ==>
           var t := ts[i].text.GetOr("");
           && IsTextShape(ts[i])
           && blocks[i].meta == "[" + TypeText(ts[i].shapeType) + "] " + ts[i].name.GetOr("")
           && 0 < |blocks[i].text| <= 161
           && (|t| <= 160 ==> blocks[i].text == t)
           && (|t| > 160 ==> blocks[i].text == t[..160] + [Ellipsis])
  {
    var ts := TextShapes(shapes);
    if shapes != [] && |ts| == 0 {
      assert forall s :: s in shapes ==> !IsTextShape(s);
    }
    if shapes != [] && |ts| > 0 {
      assert ts[0] in ts;
      forall i | 0 <= i < |ts| ensures IsTextShape(ts[i]) && 0 < |Truncate(ts[i].text, 160)| <= 161 {
        assert ts[i] in ts;
        TruncateSpec(ts[i].text, 160);
      }
    }
  }

  /** One card of the listing: data-index, badge, "Slide n" label, layout name and body. */
  datatype Card = Card(index: nat, badge: string, slideLabel: string, layout: string, body: CardBody)

  /** The card renderSlides builds for the slide at position idx. */
  function MakeCard(slide: Slide, idx: nat): Card
  {
    Card(idx, HumanReadableSlideType(slide.slideType), "Slide " + NatToString(idx + 1),
         slide.layoutName.GetOr(""), Body(ShapesOf(slide)))
  }

  /** One card per slide, in input order. */
  function Cards(slides: seq<Slide>): seq<Card>
  {
    seq(|slides|, i requires 0 <= i < |slides| => MakeCard(slides[i], i))
  }

  /** The cards are numbered from "Slide 1" up, and no two cards carry the same label. */
  lemma CardLabelsDistinct(slides: seq<Slide>, i: nat, j: nat)
    requires i < |slides| && j < |slides| && i != j
    ensures Cards(slides)[i].slideLabel != Cards(slides)[j].slideLabel
  {
    var a, b := NatToString(i + 1), NatToString(j + 1);
    if "Slide " + a == "Slide " + b {
      assert a == ("Slide " + a)[6..];
      assert b == ("Slide " + b)[6..];
      NatToStringInjective(i + 1, j + 1);
    }
  }

  /** The parse response: `meta` (None when missing) and `slides` (None when missing or not an array). */
  datatype ParseResponse = ParseResponse(meta: Option<Meta>, slides: Option<seq<Slide>>)

  /** `!data || !Array.isArray(data.slides) || data.slides.length === 0` */
  predicate NothingParsed(data: Option<ParseResponse>)
  {
    data.None? || data.value.slides.None? || data.value.slides.value == []
  }

  /** What the slides container holds: the summary line, then the cards. */
  datatype Item = Summary(count: nat, meta: Option<Meta>) | CardItem(card: Card)

  datatype StatusKind = Info | Warn | Error | Success

  /** The `#status` line: its text and its `status-<kind>` class. */
  datatype Status = Status(message: string, kind: StatusKind)

  const InitialMessage := "请上传一个 PPT 文件，系统会自动解析并标注每一页的类型。"
  const NoSlidesMessage := "没有解析到任何页面。请检查 PPT 内容。"

  /** The listing page: the `#slidesContainer` and `#status` elements, either of which may be absent. */
  class DebugPage {
    const hasContainer: bool
    const hasStatusLine: bool
    var items: seq<Item>
    var status: Status

    /** The page once the script has run: the initial prompt in the status line, nothing listed. */
    constructor (hasContainer: bool, hasStatusLine: bool)
      ensures this.hasContainer == hasContainer && this.hasStatusLine == hasStatusLine
      ensures items == []
      ensures status == if hasStatusLine then Status(InitialMessage, Info) else Status("", Info)
    {
      this.hasContainer := hasContainer;
      this.hasStatusLine := hasStatusLine;
      items := [];
      status := Status("", Info);
      new;
      SetStatus(InitialMessage, Info);
    }

    /** setStatus: only when the status line exists. */
    method SetStatus(message: string, kind: StatusKind)
      modifies this
      ensures items == old(items)
      ensures status == if hasStatusLine then Status(message, kind) else old(status)
    {
      if !hasStatusLine {
        return;
      }
      status := Status(message, kind);
    }

    /** clearSlides: empties the container when it exists. */
    method ClearSlides()
      modifies this
      ensures status == old(status)
      ensures items == if hasContainer then [] else old(items)
    {
      if !hasContainer {
        return;
      }
      items := [];
    }

    /**
      renderSlides: with no container nothing happens. Otherwise the
      container is cleared; when nothing was parsed it stays empty under a
      warning, else it holds the summary and one card per slide, in order.
     */
    method RenderSlides(data: Option<ParseResponse>)
      modifies this
      ensures !hasContainer ==> items == old(items) && status == old(status)
      ensures hasContainer && NothingParsed(data) ==>
        items == [] && status == (if hasStatusLine then Status(NoSlidesMessage, Warn) else old(status))
      ensures hasContainer && !NothingParsed(data) ==>
        var slides := data.value.slides.value;
        && status == old(status)
        && |items| == |slides| + 1
        && items[0] == Summary(|slides|, data.value.meta)
        && forall i :: 0 <= i < |slides| ==> items[i + 1] == CardItem(Cards(slides)[i])
    {
      if !hasContainer {
        return;
      }
      ClearSlides();
      if NothingParsed(data) {
        SetStatus(NoSlidesMessage, Warn);
        return;
      }
      var slides := data.value.slides.value;
      items := items + [Summary(|slides|, data.value.meta)];
      var i := 0;
      while i < |slides|
        invariant 0 <= i <= |slides|
        invariant |items| == i + 1 && items[0] == Summary(|slides|, data.value.meta)
        invariant forall j :: 0 <= j < i ==> items[j + 1] == CardItem(MakeCard(slides[j], j))
        invariant status == old(status)
      {
        items := items + [CardItem(MakeCard(slides[i], i))];
        i := i + 1;
      }
    }
  }
}
