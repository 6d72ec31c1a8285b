# AIStoryteller slide preview and debug listing, modelled in Dafny

AIStoryteller has two browser scripts, and this project models their logic.

- **Structural preview** (`main.js`). It loads a MAI visual theme and sets fourteen `--mai-*` CSS variables from it, falling back to fixed defaults. It loads a template description and picks its slide array (`slides`, else `sample_slides`). Each shape's EMU geometry is projected into percentages of the slide canvas. Each shape is classified by type (text box, picture/media, line) and flagged as *title-like* (short text in the top 30% of the slide) or as a *hint* (text containing one of two marker phrases). The slides are shown one at a time under an `i / n` page label, with prev/next buttons and the arrow keys.
- **Debug listing** (`frontend/main.js`). It lists a parsed deck as cards. Each card has a badge naming the slide type, a `Slide n` label, the layout name, and a body. The body is an empty hint, a no-text hint, or one block per shape with visible text, each text truncated to 160 characters.

Files:

| file | contents |
|---|---|
| `wrappers.dfy` | `Option`: `None` is a missing JSON field |
| `js_string.dfy` | the JavaScript string operations used: `trim` (ECMAScript white space), ASCII `toLowerCase`/`toUpperCase`, `includes`, decimal text of integers, `join` |
| `deck.dfy` | the deck JSON: `Slide`, `Shape`, `Geometry`, `Meta`, and JavaScript truthiness of its fields |
| `theme.dfy` | `applyThemeToCssVars` as a function from the theme JSON to the fourteen variable values |
| `shape_layout.dfy` | per-shape projection, type classification, title-like and hint tests, class list |
| `slide_preview.dfy` | `getSlidesArray`, the element-building loops of `createSlideElements`, and the class `Preview` (wrapper, slides, `currentIndex`, `#page-info`) with `showSlide`, prev/next, the arrow keys and `init` |
| `debug_listing.dfy` | `humanReadableSlideType`, `truncate`, the card of each slide, and the class `DebugPage` (`#status`, `#slidesContainer`) with `setStatus`, `clearSlides`, `renderSlides` |

Arithmetic on EMU values is exact: integers and rationals. JSON numbers used as sizes are integers.

## Model

| member | source | states |
|---|---|---|
| Theme.ApplyTheme | main.js:19-90 | the fourteen values applyThemeToCssVars sets, each `theme value \|\| default`; stated by the lemmas below |
| Theme.ColoursFallBack | main.js:21-56 | for every theme, each of the seven colours is the theme's colour when present and non-empty, else the default of an empty theme |
| Theme.SizesFallBack | main.js:68-89 | for every theme, each of the five sizes is the theme's size in px when present and non-zero, else the default of an empty theme (72/48/32/22/16px) |
| Theme.TitleFontFallback | main.js:63-66 | the title font quotes the primary family (or Times New Roman), then the fallbacks joined with ", ", or serif when the list is missing, empty, or a single empty name |
| Theme.DefaultBodyStack | main.js:59-62 | with no secondary font the body stack is `"Segoe UI", sans-serif` |
| Theme.DefaultTitleStack | main.js:63-66 | with no primary font the title stack is `"Times New Roman", serif` |
| Theme.EmptyThemeGivesDefaults | main.js:19-90 | a theme with neither `colors` nor `fonts` sets every variable to its documented default: the seven colours, `"Segoe UI", sans-serif`, `"Times New Roman", serif`, and 72/48/32/22/16px |
| Theme.DefaultFontStacks | main.js:23-24 | with no font entry, the body and title stacks are `"Segoe UI", sans-serif` and `"Times New Roman", serif` |
| Theme.DefaultSizes | main.js:69-89 | a missing size gives 72px, 48px, 32px, 22px and 16px |
| Theme.PageColorOverridesOnlyItself | main.js:27-30 | a theme setting only the page background changes `--mai-bg-page` (only when non-empty); every other variable keeps its default |
| Theme.BodyFontFallback | main.js:59-62 | the body font quotes the secondary family (or Segoe UI), then the fallbacks joined with ", ", or sans-serif when the list is missing, empty, or a single empty name |
| Theme.EveryVariableHasAValue | main.js:19-90 | for every theme: no colour is empty, both stacks start with a quoted name, and every size is an integer followed by px |
| Theme.PxReadsBack | main.js:72 | `(size \|\| fallback) + "px"` is integer text followed by px, and that text reads back as `size \|\| fallback` |
| SlidePreview.GetSlidesArray | main.js:107-111 | `slides` when it is an array, else `sample_slides` when it is one, else the empty array |
| SlidePreview.NoSlidesIff | main.js:107-111 | the template yields no slides exactly when `slides` is an empty array, or is absent and `sample_slides` is absent or empty; an empty `slides` hides `sample_slides` |
| SlidePreview.RenderSlide | main.js:127-195 | the element of one slide: `data-index` = position, one shape element per shape in order, not active |
| SlidePreview.RenderDeck | main.js:127-195 | one slide element per slide, in order |
| SlidePreview.PageLabel | main.js:217 | the text `${currentIndex + 1} / ${n}` |
| SlidePreview.BuildSlideElements | main.js:127-195 | the nested loops build one element per slide, in order, with `data-index` = position, each holding one rendered element per shape, in order |
| SlidePreview.Clamp | main.js:208-209 | the clamped index lies in [0, n): unchanged inside, 0 below, n-1 above |
| SlidePreview.PageLabelInjective | main.js:217 | two slides of one deck never share a page label |
| SlidePreview.Preview.constructor | main.js:2-4 | the page starts with no wrapper and `currentIndex` 0 |
| SlidePreview.Preview.CreateSlideElements | main.js:116-196 | the first wrapper holds the rendered deck; the index and label are untouched |
| SlidePreview.Preview.ShowSlide | main.js:201-218 | with no wrapper or no slides nothing changes; otherwise the index is clamped, exactly the slide at the index is active, nothing else about the slides changes, and the label reads `current+1 / n` |
| SlidePreview.Preview.Prev | main.js:229-234 | one slide back, staying on the first; exactly that slide is active, every slide otherwise unchanged; label updated |
| SlidePreview.Preview.Next | main.js:230-236 | one slide forward, staying on the last; exactly that slide is active, every slide otherwise unchanged; label updated |
| SlidePreview.Preview.HandleKey | main.js:232-240 | ArrowLeft moves one slide back and ArrowRight one forward, with exactly the new slide active, every slide otherwise unchanged and the label updated; every other key, and a page without slides, leaves slides, index and label unchanged |
| SlidePreview.Preview.Init | main.js:263-277 | reports "no slides" exactly when the slide array is empty, and then changes nothing; otherwise it builds the deck and shows slide 1 of n, only it active |
| ShapeLayout.BoxOf | main.js:135-139 | the EMU box of a shape, each missing geometry field (or missing geometry) read as 0 |
| ShapeLayout.Project | main.js:142-145 | the box as percentages of the canvas width and height |
| ShapeLayout.ClassifyType | main.js:150-162 | the type class chosen from the upper-cased type; stated by ClassifyTypeSpec |
| ShapeLayout.IsTitleLike | main.js:170-179 | the title-like test; stated by TitleLikeIff |
| ShapeLayout.IsHint | main.js:181-188 | the hint test on the trimmed, lower-cased text; stated by HintIgnoresCase |
| ShapeLayout.ClassList | main.js:147-188 | the classes "shape", then the type class, then "title-like", then "hint", each only when chosen; stated by ClassListSpec |
| ShapeLayout.TypePartSpec | main.js:150-162 | the type part of the class list holds the chosen type class and nothing else |
| ShapeLayout.FlagPartSpec | main.js:177-188 | the flag part holds "title-like" and "hint" exactly when their flags are set, once each, and nothing else |
| ShapeLayout.ShapeClasses | main.js:147-188 | the classes of one shape; stated by ShapeClassesSpec |
| ShapeLayout.RenderShape | main.js:134-192 | the element of one shape: its percentage box, its classes, and its text when it has a text frame and text |
| ShapeLayout.ProjectRoundTrip | main.js:135-145 | scaling each percentage back by the canvas size recovers the EMU box |
| ShapeLayout.PercentRoundTrip | main.js:142 | `(x / dim) * 100` scaled back by `dim / 100` is x |
| ShapeLayout.MissingGeometryProjectsToZero | main.js:135-139 | a shape with no geometry, or none of its four fields, is placed at 0% with size 0% |
| ShapeLayout.ProjectWithinCanvas | main.js:142-145 | a box inside the canvas projects into [0, 100]%, with left+width and top+height at most 100% |
| ShapeLayout.PercentSumBound | main.js:142-145 | the percentages of an offset and extent that fit the canvas are non-negative and sum to at most 100 |
| ShapeLayout.ClassifyTypeSpec | main.js:150-162 | shape-text exactly for TEXT_BOX, shape-picture exactly for PICTURE or MEDIA, shape-line exactly for LINE, all in any letter case; a missing type gets none |
| ShapeLayout.TitleLikeIff | main.js:170-179 | title-like exactly when the shape has text, `10*(2*top+height) < 6*H`, the text is not all white space, and its trimmed length is at most 40 |
| ShapeLayout.CentreBelowIff | main.js:175-177 | `(top + height/2)/H < 0.3` is equivalent to the integer test `10*(2*top+height) < 6*H` |
| ShapeLayout.HintIgnoresCase | main.js:181-188 | the hint test depends on the text only up to letter case |
| ShapeLayout.TrimStartSameIgnoringCase | main.js:182 | trimming the start of two texts equal up to case gives texts equal up to case |
| ShapeLayout.TrimEndSameIgnoringCase | main.js:182 | the same for the end |
| ShapeLayout.WhitespaceSameIgnoringCase | main.js:182 | case mapping never turns white space into something else, or the reverse |
| ShapeLayout.ClassListSpec | main.js:148-188 | the list holds exactly "shape" first, then the chosen type class (when one is chosen), then "title-like" and "hint" in that order when their flags are set, and nothing else |
| ShapeLayout.ShapeClassesSpec | main.js:148-188 | the same for a shape: type class exactly when classified, "title-like" exactly when title-like, "hint" exactly when a hint, and no other class |
| ShapeLayout.SampleTitleShape | main.js:134-192 | a 457200/457200/8229600/685800 text box "Title" on a 9144000 x 6858000 canvas renders at 5%, 6.67%, 90% x 10% with classes shape, shape-text, title-like |
| ShapeLayout.SampleProjection | main.js:142-145 | the sample box projects to 5%, 20/3%, 90%, 10% |
| ShapeLayout.SampleClasses | main.js:148-188 | the sample shape's classes are shape, shape-text, title-like |
| ShapeLayout.SampleTrimmed | main.js:176 | the sample text trims to "Title" |
| ShapeLayout.SampleCentre | main.js:175 | the sample shape's centre lies within the top 30% of the height |
| JsString.TrimStart | main.js:176 | removes exactly the leading white space: the result is a suffix, what it drops is white space, and it does not start with white space |
| JsString.TrimEnd | main.js:176 | removes exactly the trailing white space |
| JsString.Trim | main.js:176 | the result is a slice of the input with only white space cut off before and after it, and it neither starts nor ends with white space |
| JsString.TrimEmptyIff | frontend/main.js:121 | a text trims to "" exactly when it is all white space |
| JsString.UpperOfLower | frontend/main.js:50-51 | upper-casing the lower-cased text is upper-casing the text |
| JsString.UpperEqualsIff | main.js:150-160 | a text upper-cases to an upper-case name exactly when it equals that name ignoring case |
| JsString.IncludesIff | main.js:184-185 | `includes` holds exactly when the phrase occurs at some position |
| JsString.NotIncludesLonger | main.js:184-185 | a phrase longer than the text never occurs in it |
| JsString.NatToString | main.js:217 | the decimal text of a number is non-empty, all digits, and has no leading zero (only zero itself starts with 0) |
| JsString.NatToStringRoundTrip | main.js:217 | reading the decimal text back gives the number |
| JsString.NatToStringInjective | frontend/main.js:103 | distinct numbers have distinct decimal texts |
| JsString.IntToString | main.js:72 | the text of an integer-valued number is never empty (its read-back is JsString.IntToStringRoundTrip) |
| JsString.IntToStringRoundTrip | main.js:72 | the text of an integer is integer text, starts with a minus sign exactly when the integer is negative, has no leading zero after the sign, and reads back as the integer |
| JsString.NonNegativeIntText | main.js:72 | the text of a non-negative integer is all digits and reads back as the integer |
| JsString.NegativeIntText | main.js:72 | for negative n, a minus sign before the digits of -n is integer text without a leading zero that reads back as n |
| JsString.JoinEmptyIff | main.js:61-65 | joining with a non-empty separator gives "" exactly for no names or a single empty name |
| DebugListing.HumanReadableSlideType | frontend/main.js:35-52 | the badge text: UNKNOWN, the table entry, or the type upper-cased; stated by HumanReadableSlideTypeSpec |
| DebugListing.Truncate | frontend/main.js:54-58 | truncate with `slice` semantics for the limit; stated by TruncateSpec |
| DebugListing.TypeLabelsAreUpperCase | frontend/main.js:39-48 | every label of the type table is its key in upper case |
| DebugListing.HumanReadableSlideTypeSpec | frontend/main.js:35-52 | a missing or empty type reads UNKNOWN; every other type, known or not and in any case, reads as its upper-case form |
| DebugListing.SliceEnd | frontend/main.js:57 | the end of `slice(0, end)` is within the text, and is `end` itself when it is in range |
| DebugListing.TruncateSpec | frontend/main.js:54-58 | for a non-negative limit: "" for missing or empty text, the text itself when it fits, else exactly its first maxLen characters and "…"; never longer than maxLen+1 |
| DebugListing.TruncateIdempotent | frontend/main.js:54-58 | truncating twice with one limit is truncating once |
| DebugListing.TextShapes | frontend/main.js:120-122 | the filter keeps exactly the shapes with a text frame and non-blank text, and never lengthens the list |
| DebugListing.TextShapesAppend | frontend/main.js:120-122 | the filter keeps order: filtering a concatenation concatenates the filtered parts |
| DebugListing.Block | frontend/main.js:130-145 | the `[type] name` line and the text truncated to 160 characters of one text shape |
| DebugListing.Body | frontend/main.js:112-147 | the body of a card; stated by BodySpec |
| DebugListing.BodySpec | frontend/main.js:112-147 | empty hint exactly for a slide without shapes; no-text hint exactly when no shape has visible text; otherwise one block per text shape, in order, with its `[type] name` line and its text: whole when at most 160 characters, else its first 160 and "…" |
| DebugListing.MakeCard | frontend/main.js:87-106 | the card of one slide: index, badge, `Slide n` label, layout name (or "") and body |
| DebugListing.Cards | frontend/main.js:87-151 | one card per slide, in order |
| DebugListing.CardLabelsDistinct | frontend/main.js:103 | no two cards carry the same `Slide n` label |
| DebugListing.DebugPage.constructor | frontend/main.js:211-212 | the page starts with the upload prompt as an info status, when the status line exists |
| DebugListing.DebugPage.SetStatus | frontend/main.js:23-28 | the status becomes the message and kind when the status line exists, else nothing changes |
| DebugListing.DebugPage.ClearSlides | frontend/main.js:30-33 | the container is emptied when it exists |
| DebugListing.DebugPage.RenderSlides | frontend/main.js:62-152 | with no container nothing changes; with nothing parsed the container is empty under the no-pages warning; otherwise it holds the summary (page count and canvas size) and then one card per slide, in order, and the status is untouched |

## Left out

- Network and file loading are not modelled: `loadTheme`, `loadTemplateJson`, `uploadAndParsePpt`, its error statuses, and the Enter key and upload button that start it. The parsed data they produce is a parameter instead.
- The DOM itself is not modelled: element creation, inline styles, `innerHTML`, HTML escaping of interpolated text, `dataset`, and the layout of the summary. The model keeps only the values the scripts place in the DOM.
- `bindControls` listener registration and `toggleFullscreen` (the `f`/`F` key and the fullscreen button) are browser side effects with no state in the model. `HandleKey` models only the arrow keys.
- The `alert` calls of `init` and its catch of exceptions are not modelled. `Init` reports the no-slides case as a result.
- JSON fields of the wrong type are not modelled: `null`, a number where text is expected, a non-array `fallbacks`, and a `theme` that is not an object. Every field is assumed to be either missing or of its expected type, so what the source does with such values (printing a number as text, treating `null` much like a missing field, defaulting every variable for a non-object theme) is not captured.
- A missing or non-numeric `meta`, and zero canvas dimensions, are not modelled: the projection requires a positive canvas. The source would divide by zero or read a property of `undefined`.
- IEEE floating point is not modelled: percentages and the vertical centre are exact rationals, so rounding and the text of non-integer numbers are not captured. Theme sizes are integers.
- Unicode is not fully modelled: case mapping covers ASCII letters only, and lengths count `char`s rather than UTF-16 code units, which differs for characters outside the Basic Multilingual Plane.
- `DebugListing.HumanReadableSlideType`: the lookup of inherited object properties is not modelled. In the source a type such as "constructor" finds a function on the object prototype and prints it.
- `SlidePreview.Preview.CreateSlideElements`: a second call appends a second wrapper, which the model does not keep, because `showSlide` reads only the first.
- The globals `templateData` and `slidesData` are not modelled separately. They are the `data` argument of `Init` and the deck it renders.
- `SlidePreview.Preview.ShowSlide` assumes that `#page-info` exists. Without it the source throws after updating the slides.
- The initial `#page-info` text comes from the HTML, which is not part of this model, so it is a constructor parameter.
- `DebugListing.DebugPage.constructor`: when `#status` is missing, its empty initial status is a placeholder.
- The code has no error for a malformed deck, and neither does the model: a missing `shapes` reads as `[]`, missing geometry as 0, and a template without slide arrays as an empty deck.
- `DebugListing.Truncate`: the default limit of 80 characters is not modelled, because every call in the listing passes 160; the limit is always an argument.
