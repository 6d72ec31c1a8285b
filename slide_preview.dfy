/**
  The structural preview page of main.js: choosing the slide array of the
  template, building one element per slide and per shape, and the
  navigation that shows one slide at a time under an "i / n" page label.
 */
module SlidePreview {
  import opened Wrappers
  import opened JsString
  import opened Deck
  import opened ShapeLayout

  /**
    The template JSON: its `meta`, and its `slides` and `sample_slides`
    fields, each None when missing or not an array.
   */
  datatype TemplateData = TemplateData(meta: Meta, slides: Option<seq<Slide>>, sampleSlides: Option<seq<Slide>>)

  /** getSlidesArray: `slides` when it is an array, else `sample_slides` when it is one, else none. */
  function GetSlidesArray(data: TemplateData): (r: seq<Slide>)
    ensures data.slides.Some? ==> r == data.slides.value
    ensures data.slides.None? && data.sampleSlides.Some? ==> r == data.sampleSlides.value
    ensures data.slides.None? && data.sampleSlides.None? ==> r == []
  {
    if data.slides.Some? then data.slides.value
    else if data.sampleSlides.Some? then data.sampleSlides.value
    else []
  }

  /**
    The template yields no slides exactly when its `slides` array is empty,
    or when it has none and `sample_slides` is missing or empty: an empty
    `slides` array hides a non-empty `sample_slides`.
   */
  lemma NoSlidesIff(data: TemplateData)
    ensures GetSlidesArray(data) == [] <==>
      if data.slides.Some? then data.slides.value == []
      else data.sampleSlides.None? || data.sampleSlides.value == []
  {
  }

  /** The `.slide` element of one slide: its `data-index`, its shape elements and its `active` class. */
  datatype SlideElement = SlideElement(index: nat, shapes: seq<ShapeElement>, active: bool)

  /** What createSlideElements builds for the slide at position idx: one element per shape, in order. */
  function RenderSlide(slide: Slide, idx: nat, meta: Meta): SlideElement
    requires PositiveCanvas(meta)
  {
    var shapes := ShapesOf(slide);
    SlideElement(idx, seq(|shapes|, k requires 0 <= k < |shapes| => RenderShape(shapes[k], meta)), false)
  }

  /** What createSlideElements builds for a deck: one element per slide, in order, none active. */
  function RenderDeck(meta: Meta, deck: seq<Slide>): seq<SlideElement>
    requires PositiveCanvas(meta)
  {
    seq(|deck|, i requires 0 <= i < |deck| => RenderSlide(deck[i], i, meta))
  }

  /** The nested forEach loops of createSlideElements, building the slide elements of the wrapper. */
  method BuildSlideElements(meta: Meta, deck: seq<Slide>) returns (built: seq<SlideElement>)
    requires PositiveCanvas(meta)
    ensures built == RenderDeck(meta, deck)
  {
    built := [];
    var i := 0;
    while i < |deck|
      invariant 0 <= i <= |deck|
      invariant |built| == i
      invariant forall j :: 0 <= j < i ==> built[j] == RenderSlide(deck[j], j, meta)
    {
      var shapes := ShapesOf(deck[i]);
      var shapeEls: seq<ShapeElement> := [];
      var k := 0;
      while k < |shapes|
        invariant 0 <= k <= |shapes|
        invariant |shapeEls| == k
        invariant forall j :: 0 <= j < k ==> shapeEls[j] == RenderShape(shapes[j], meta)
      {
        shapeEls := shapeEls + [RenderShape(shapes[k], meta)];
        k := k + 1;
      }
      built := built + [SlideElement(i, shapeEls, false)];
      i := i + 1;
    }
  }

  /** `if (index < 0) index = 0; if (index >= n) index = n - 1;` */
  function Clamp(index: int, n: nat): (r: int)
    requires n > 0
    ensures 0 <= r < n
    ensures 0 <= index < n ==> r == index
    ensures index < 0 ==> r == 0
    ensures index >= n ==> r == n - 1
  {
    var i := if index < 0 then 0 else index;
    if i >= n then n - 1 else i
  }

  /** The page label `${currentIndex + 1} / ${n}`. */
  function PageLabel(current: nat, n: nat): string
  {
    NatToString(current + 1) + " / " + NatToString(n)
  }

  /** Different slides of the same deck get different page labels. */
  lemma PageLabelInjective(a: nat, b: nat, n: nat)
    requires PageLabel(a, n) == PageLabel(b, n)
    ensures a == b
  {
    var tail := " / " + NatToString(n);
    var x, y := NatToString(a + 1), NatToString(b + 1);
    assert PageLabel(a, n) == x + tail && PageLabel(b, n) == y + tail;
    SameTailSamePrefix(x, y, tail);
    NatToStringInjective(a + 1, b + 1);
  }

  /** Two texts that end in the same tail are equal once the tail is cut off. */
  lemma SameTailSamePrefix(x: string, y: string, tail: string)
    requires x + tail == y + tail
    ensures x == y
  {
    assert |x| == |y|;
    assert x == (x + tail)[..|x|] == (y + tail)[..|y|] == y;
  }

  /** The preview page: the first `.slide-wrapper`, the global currentIndex and the `#page-info` text. */
  class Preview {
    /** Whether a `.slide-wrapper` exists; showSlide uses the first one, whose slides are `slides`. */
    var hasWrapper: bool
    var slides: seq<SlideElement>
    var currentIndex: int
    var pageInfo: string

    /** The index stays within the slides, and only the current slide can be active. */
    ghost predicate Valid()
      reads this
    {
      && 0 <= currentIndex
      && (currentIndex == 0 || currentIndex < |slides|)
      && (!hasWrapper ==> slides == [])
      && (forall k :: 0 <= k < |slides| && slides[k].active ==> k == currentIndex)
    }

    /** The page before init: no wrapper, currentIndex 0, the page label as the HTML has it. */
    constructor (pageInfo: string)
      ensures Valid() && !hasWrapper && currentIndex == 0 && this.pageInfo == pageInfo
    {
      hasWrapper := false;
      slides := [];
      currentIndex := 0;
      this.pageInfo := pageInfo;
    }

    /**
      createSlideElements: appends a new wrapper holding the rendered deck.
      When a wrapper already exists the new one comes after it, so the
      slides the page navigates stay those of the first.
     */
    method CreateSlideElements(meta: Meta, deck: seq<Slide>)
      requires Valid() && PositiveCanvas(meta)
      modifies this
      ensures Valid() && hasWrapper
      ensures slides == if old(hasWrapper) then old(slides) else RenderDeck(meta, deck)
      ensures currentIndex == old(currentIndex) && pageInfo == old(pageInfo)
    {
      var built := BuildSlideElements(meta, deck);
      if !hasWrapper {
        slides := built;
        hasWrapper := true;
      }
    }

    /**
      showSlide: with no wrapper or no slides nothing changes; otherwise the
      index is clamped into the deck, exactly the slide at that index is
      active, and the label reads "current+1 / n".
     */
    method ShowSlide(index: int)
      requires Valid()
      modifies this
      ensures Valid()
      ensures hasWrapper == old(hasWrapper) && |slides| == |old(slides)|
      ensures !hasWrapper || |slides| == 0 ==>
        slides == old(slides) && currentIndex == old(currentIndex) && pageInfo == old(pageInfo)
      ensures hasWrapper && |slides| > 0 ==>
        && currentIndex == Clamp(index, |slides|)
        && (forall k :: 0 <= k < |slides| ==> slides[k] == old(slides[k]).(active := k == currentIndex))
        && (forall k :: 0 <= k < |slides| ==> (slides[k].active <==> k == currentIndex))
        && pageInfo == PageLabel(currentIndex, |slides|)
    {
      if !hasWrapper {
        return;
      }
      var n := |slides|;
      if n == 0 {
        return;
      }
      var i := index;
      if i < 0 {
        i := 0;
      }
      if i >= n {
        i := n - 1;
      }
      currentIndex := i;
      var k := 0;
      while k < n
        invariant 0 <= k <= n && |slides| == n
        invariant hasWrapper && currentIndex == i && 0 <= i < n
        invariant forall j :: 0 <= j < k ==> slides[j] == old(slides[j]).(active := j == currentIndex)
        invariant forall j :: k <= j < n ==> slides[j] == old(slides[j])
      {
        slides := slides[k := slides[k].(active := k == currentIndex)];
        k := k + 1;
      }
      pageInfo := PageLabel(currentIndex, n);
    }

    /** The prev button and ArrowLeft: one slide back, staying on the first. */
    method Prev()
      requires Valid()
      modifies this
      ensures Valid() && hasWrapper == old(hasWrapper) && |slides| == |old(slides)|
      ensures !hasWrapper || |slides| == 0 ==>
        slides == old(slides) && currentIndex == old(currentIndex) && pageInfo == old(pageInfo)
      ensures hasWrapper && |slides| > 0 ==>
        && currentIndex == (if old(currentIndex) == 0 then 0 else old(currentIndex) - 1)
        && (forall k :: 0 <= k < |slides| ==> slides[k] == old(slides[k]).(active := k == currentIndex))
        && pageInfo == PageLabel(currentIndex, |slides|)
    {
      ShowSlide(currentIndex - 1);
    }

    /** The next button and ArrowRight: one slide forward, staying on the last. */
    method Next()
      requires Valid()
      modifies this
      ensures Valid() && hasWrapper == old(hasWrapper) && |slides| == |old(slides)|
      ensures !hasWrapper || |slides| == 0 ==>
        slides == old(slides) && currentIndex == old(currentIndex) && pageInfo == old(pageInfo)
      ensures hasWrapper && |slides| > 0 ==>
        && currentIndex == (if old(currentIndex) == |slides| - 1 then old(currentIndex) else old(currentIndex) + 1)
        && (forall k :: 0 <= k < |slides| ==> slides[k] == old(slides[k]).(active := k == currentIndex))
        && pageInfo == PageLabel(currentIndex, |slides|)
    {
      ShowSlide(currentIndex + 1);
    }

    /** The keydown listener: ArrowLeft goes back, ArrowRight forward; every other key leaves the slides alone. */
    method HandleKey(key: string)
      requires Valid()
      modifies this
      ensures Valid() && hasWrapper == old(hasWrapper) && |slides| == |old(slides)|
      ensures key != "ArrowLeft" && key != "ArrowRight" ==>
        slides == old(slides) && currentIndex == old(currentIndex) && pageInfo == old(pageInfo)
      ensures !hasWrapper || |slides| == 0 ==>
        slides == old(slides) && currentIndex == old(currentIndex) && pageInfo == old(pageInfo)
      ensures hasWrapper && |slides| > 0 && key == "ArrowLeft" ==>
        && currentIndex == (if old(currentIndex) == 0 then 0 else old(currentIndex) - 1)
        && (forall k :: 0 <= k < |slides| ==> slides[k] == old(slides[k]).(active := k == currentIndex))
        && pageInfo == PageLabel(currentIndex, |slides|)
      ensures hasWrapper && |slides| > 0 && key == "ArrowRight" ==>
        && currentIndex == (if old(currentIndex) == |slides| - 1 then old(currentIndex) else old(currentIndex) + 1)
        && (forall k :: 0 <= k < |slides| ==> slides[k] == old(slides[k]).(active := k == currentIndex))
        && pageInfo == PageLabel(currentIndex, |slides|)
    {
      if key == "ArrowLeft" {
        Prev();
      } else if key == "ArrowRight" {
        Next();
      }
    }

    /**
      init, once the template is loaded: with no slides to show it stops
      (the alert); otherwise it builds the deck and shows its first slide.
     */
    method Init(data: TemplateData) returns (noSlides: bool)
      requires Valid() && !hasWrapper && PositiveCanvas(data.meta)
      modifies this
      ensures Valid()
      ensures noSlides <==> GetSlidesArray(data) == []
      ensures noSlides ==>
        !hasWrapper && slides == old(slides) && currentIndex == old(currentIndex) && pageInfo == old(pageInfo)
      ensures !noSlides ==>
        var deck := GetSlidesArray(data);
        && hasWrapper && |slides| == |deck| && currentIndex == 0
        && (forall k :: 0 <= k < |deck| ==> slides[k] == RenderDeck(data.meta, deck)[k].(active := k == 0))
        && pageInfo == PageLabel(0, |deck|)
    {
      var deck := GetSlidesArray(data);
      noSlides := |deck| == 0;
      if noSlides {
        return;
      }
      CreateSlideElements(data.meta, deck);
      ShowSlide(0);
    }
  }
}
